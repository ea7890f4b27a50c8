/** The challenge records of the frontend's mock data, and the one search
    test every challenge list in the frontend applies to them. */
module MockData {
  import opened Base
  import opened JsText

  /** A mock challenge. `createdAt` is the time its ISO date parses to;
      `completionsCount` may be missing. */
  datatype MockChallenge = MockChallenge(
    id: string,
    title: string,
    description: string,
    category: string,
    difficulty: string,
    points: int,
    likesCount: int,
    completionsCount: Option<int>,
    creatorId: string,
    createdAt: int)

  /** The lower-cased query occurs in the lower-cased title, description or
      category. */
  predicate SearchHit(c: MockChallenge, query: string) {
    IncludesIgnoringCase(c.title, query)
    || IncludesIgnoringCase(c.description, query)
    || IncludesIgnoringCase(c.category, query)
  }

  /** `s || null` read as a condition: present and non-empty. */
  predicate Truthy(s: Option<string>) {
    s.Some? && s.value != ""
  }
}
