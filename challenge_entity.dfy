/** The challenge entity, the create request and the two response shapes the
    challenge mapper produces. Category and difficulty are enum names kept as
    text. */
module ChallengeModel {
  import opened Base

  /** A stored `challenges` row. */
  datatype Challenge = Challenge(
    id: ChallengeId,
    title: string,
    description: string,
    points: Int32,
    category: string,
    difficulty: string,
    likesCount: Int32,
    submissionsCount: Int32,
    createdAt: Timestamp)

  /** The body of a create request. */
  datatype CreateChallengeRequest = CreateChallengeRequest(
    title: string,
    description: string,
    coverImageUrl: Option<string>,
    points: Int32,
    category: string,
    difficulty: string)

  /** A listing entry: the challenge with its author's username. */
  datatype ChallengeSummary = ChallengeSummary(
    id: ChallengeId,
    title: string,
    description: string,
    points: Int32,
    category: string,
    difficulty: string,
    authorUsername: string,
    likesCount: Int32,
    submissionsCount: Int32,
    createdAt: Timestamp)

  /** A detail view: the challenge with its author's id and username. */
  datatype ChallengeDetails = ChallengeDetails(
    id: ChallengeId,
    title: string,
    description: string,
    points: Int32,
    category: string,
    difficulty: string,
    authorId: UserId,
    authorUsername: string,
    likesCount: Int32,
    submissionsCount: Int32,
    createdAt: Timestamp)

  /** `toEntity` followed by the entity's pre-persist hook: the request's
      fields, zero likes and submissions, the generated id and the creation
      time. */
  function NewChallenge(req: CreateChallengeRequest, id: ChallengeId, now: Timestamp): (c: Challenge)
    ensures c.id == id && c.createdAt == now
    ensures c.likesCount == 0 && c.submissionsCount == 0
    ensures c.title == req.title && c.description == req.description && c.points == req.points
    ensures c.category == req.category && c.difficulty == req.difficulty
  {
    Challenge(id, req.title, req.description, req.points, req.category, req.difficulty, 0, 0, now)
  }

  /** `toSummaryDTO`: every challenge field carried over, plus the author. */
  function ToSummary(c: Challenge, authorUsername: string): (s: ChallengeSummary)
    ensures s.id == c.id && s.authorUsername == authorUsername
  {
    ChallengeSummary(c.id, c.title, c.description, c.points, c.category, c.difficulty,
                     authorUsername, c.likesCount, c.submissionsCount, c.createdAt)
  }

  /** `toDetailsDTO`. */
  function ToDetails(c: Challenge, authorId: UserId, authorUsername: string): (d: ChallengeDetails)
    ensures d.id == c.id && d.authorId == authorId && d.authorUsername == authorUsername
  {
    ChallengeDetails(c.id, c.title, c.description, c.points, c.category, c.difficulty,
                     authorId, authorUsername, c.likesCount, c.submissionsCount, c.createdAt)
  }
}
