/** The challenge modal's handlers over the mock store: the like button,
    and the approve, reject, rate, like and dislike actions on a challenge's
    completions. The store is the mock completions per challenge, the mock
    users by id and the likers per challenge; the modal's own view state is
    the like flag and count. */
module ChallengeModal {
  import opened Base
  import opened Lists

  datatype CompletionStatus = Pending | Approved | Rejected

  /** A completion record. `completedAt` is the approval time. */
  datatype Completion = Completion(
    id: string,
    userId: string,
    status: CompletionStatus,
    completedAt: Option<int>,
    userRatings: map<string, int>,
    rating: real,
    likes: int,
    dislikes: int)

  /** The user fields the handlers touch. */
  datatype MockUser = MockUser(
    pendingChallenges: seq<string>,
    completedChallenges: seq<string>,
    activeChallenges: seq<string>,
    points: int)

  /** The store and the modal's like state. */
  datatype ModalState = ModalState(
    completions: map<string, seq<Completion>>,
    users: map<string, MockUser>,
    challengeLikes: map<string, seq<string>>,
    isLiked: bool,
    likesCount: int)

  /** The challenge the modal shows, as far as the handlers read it. */
  datatype ModalChallenge = ModalChallenge(id: string, points: int)

  /** `mockCompletions[id] || []`. */
  function CompletionsOf(st: ModalState, challengeId: string): seq<Completion> {
    if challengeId in st.completions then st.completions[challengeId] else []
  }

  /** `mockChallengeLikes[id] || []`. */
  function LikesOf(st: ModalState, challengeId: string): seq<string> {
    if challengeId in st.challengeLikes then st.challengeLikes[challengeId] else []
  }

  /** `find(c => c.id === id)`: the first index with that id, or -1. */
  function FindCompletion(cs: seq<Completion>, id: string): (k: int)
    ensures k == -1 <==> forall i :: 0 <= i < |cs| ==> cs[i].id != id
    ensures k != -1 ==> 0 <= k < |cs| && cs[k].id == id && forall i :: 0 <= i < k ==> cs[i].id != id
  {
    FindFrom(cs, id, 0)
  }

  /** The search from index `start` on. */
  function FindFrom(cs: seq<Completion>, id: string, start: nat): (k: int)
    requires start <= |cs|
    ensures k == -1 <==> forall i :: start <= i < |cs| ==> cs[i].id != id
    ensures k != -1 ==> start <= k < |cs| && cs[k].id == id && forall i :: start <= i < k ==> cs[i].id != id
    decreases |cs| - start
  {
    if start == |cs| then -1
    else if cs[start].id == id then start
    else FindFrom(cs, id, start + 1)
  }

  /** Replacing the found completion by one with the same id does not move
      the search. */
  lemma FindAfterUpdate(cs: seq<Completion>, id: string, c: Completion)
    requires FindCompletion(cs, id) != -1 && c.id == id
    ensures FindCompletion(cs[FindCompletion(cs, id) := c], id) == FindCompletion(cs, id)
  {
    var k := FindCompletion(cs, id);
    var cs' := cs[k := c];
    assert forall i :: 0 <= i < k ==> cs'[i] == cs[i];
    assert cs'[k].id == id;
    var k' := FindCompletion(cs', id);
    assert k' != -1;
  }

  /** `id => id !== x`. */
  function NotId(x: string): string -> bool {
    (y: string) => y != x
  }

  /** The user side of an approval: the challenge leaves the pending list;
      if it was not completed yet it is pushed onto the completed list and
      its points are added. */
  function MoveToCompleted(u: MockUser, challengeId: string, points: int): (r: MockUser)
    ensures challengeId !in r.pendingChallenges
    ensures forall x :: x != challengeId ==> (x in r.pendingChallenges <==> x in u.pendingChallenges)
    ensures challengeId in r.completedChallenges
    ensures challengeId in u.completedChallenges ==>
              r.completedChallenges == u.completedChallenges && r.points == u.points
    ensures challengeId !in u.completedChallenges ==>
              r.completedChallenges == u.completedChallenges + [challengeId] && r.points == u.points + points
    ensures r.activeChallenges == u.activeChallenges
  {
    var pending := Filter(u.pendingChallenges, NotId(challengeId));
    forall x
      ensures x in pending <==> x in u.pendingChallenges && x != challengeId
    {
      FilterMembership(u.pendingChallenges, NotId(challengeId), x);
    }
    if challengeId in u.completedChallenges then u.(pendingChallenges := pending)
    else MockUser(pending, u.completedChallenges + [challengeId], u.activeChallenges, u.points + points)
  }

  /** The user side of a rejection: the challenge leaves the pending list
      and is pushed onto the active list unless already there. */
  function MoveToActive(u: MockUser, challengeId: string): (r: MockUser)
    ensures challengeId !in r.pendingChallenges
    ensures forall x :: x != challengeId ==> (x in r.pendingChallenges <==> x in u.pendingChallenges)
    ensures challengeId in u.activeChallenges ==> r.activeChallenges == u.activeChallenges
    ensures challengeId !in u.activeChallenges ==> r.activeChallenges == u.activeChallenges + [challengeId]
    ensures r.completedChallenges == u.completedChallenges && r.points == u.points
  {
    var pending := Filter(u.pendingChallenges, NotId(challengeId));
    forall x
      ensures x in pending <==> x in u.pendingChallenges && x != challengeId
    {
      FilterMembership(u.pendingChallenges, NotId(challengeId), x);
    }
    var active := if challengeId in u.activeChallenges then u.activeChallenges else u.activeChallenges + [challengeId];
    u.(pendingChallenges := pending, activeChallenges := active)
  }

  /** Approving the same challenge a second time changes nothing for the
      user: no second entry and no second award of points. */
  lemma MoveToCompletedIdempotent(u: MockUser, challengeId: string, points: int)
    ensures var u1 := MoveToCompleted(u, challengeId, points);
            MoveToCompleted(u1, challengeId, points) == u1
  {
    FilterIdempotent(u.pendingChallenges, NotId(challengeId));
  }

  /** Rejecting the same challenge a second time changes nothing for the
      user. */
  lemma MoveToActiveIdempotent(u: MockUser, challengeId: string)
    ensures var u1 := MoveToActive(u, challengeId);
            MoveToActive(u1, challengeId) == u1
  {
    FilterIdempotent(u.pendingChallenges, NotId(challengeId));
  }

  /** A rejection never puts a second copy on a duplicate-free active
      list. */
  lemma MoveToActiveKeepsNoDuplicates(u: MockUser, challengeId: string)
    requires NoDuplicates(u.activeChallenges)
    ensures NoDuplicates(MoveToActive(u, challengeId).activeChallenges)
  {
  }

  /** The store with the completion at index `k` of the challenge's list
      replaced. */
  function WithCompletion(st: ModalState, challengeId: string, k: int, c: Completion): (r: ModalState)
    requires 0 <= k < |CompletionsOf(st, challengeId)|
    ensures CompletionsOf(r, challengeId) == CompletionsOf(st, challengeId)[k := c]
    ensures r.users == st.users && r.challengeLikes == st.challengeLikes
    ensures r.isLiked == st.isLiked && r.likesCount == st.likesCount
  {
    st.(completions := st.completions[challengeId := st.completions[challengeId][k := c]])
  }

  /** The store with one user record replaced, when that user exists. */
  function WithUser(st: ModalState, userId: string, f: MockUser -> MockUser): (r: ModalState)
    ensures userId in st.users ==> r.users == st.users[userId := f(st.users[userId])]
    ensures userId !in st.users ==> r.users == st.users
    ensures r.completions == st.completions && r.challengeLikes == st.challengeLikes
    ensures r.isLiked == st.isLiked && r.likesCount == st.likesCount
  {
    if userId in st.users then st.(users := st.users[userId := f(st.users[userId])]) else st
  }

  /** `handleApproveCompletion`: the new store, and whether the status hook
      is told (the completion is the signed-in user's). An unknown
      completion changes nothing. */
  function Approve(st: ModalState, ch: ModalChallenge, completionId: string, now: int,
                   currentUser: Option<string>): (r: (ModalState, bool))
    ensures var cs := CompletionsOf(st, ch.id);
            var k := FindCompletion(cs, completionId);
            && (k == -1 ==> r == (st, false))
            && (k != -1 ==>
                  var c := cs[k];
                  && ch.id in st.completions
                  && r.0 == st.(completions := st.completions[ch.id := cs[k := c.(status := Approved, completedAt := Some(now))]],
                                users := if c.userId in st.users
                                         then st.users[c.userId := MoveToCompleted(st.users[c.userId], ch.id, ch.points)]
                                         else st.users)
                  && (r.1 <==> currentUser == Some(c.userId)))
  {
    var cs := CompletionsOf(st, ch.id);
    var k := FindCompletion(cs, completionId);
    if k == -1 then (st, false)
    else
      var c := cs[k];
      var st1 := WithCompletion(st, ch.id, k, c.(status := Approved, completedAt := Some(now)));
      var st2 := WithUser(st1, c.userId, (u: MockUser) => MoveToCompleted(u, ch.id, ch.points));
      (st2, currentUser == Some(c.userId))
  }

  /** Approving the same completion again, at any time, changes no user:
      the points are granted once. */
  lemma ApproveTwiceGrantsOnce(st: ModalState, ch: ModalChallenge, completionId: string,
                               t1: int, t2: int, currentUser: Option<string>)
    ensures var s1 := Approve(st, ch, completionId, t1, currentUser).0;
            Approve(s1, ch, completionId, t2, currentUser).0.users == s1.users
  {
    var cs := CompletionsOf(st, ch.id);
    var k := FindCompletion(cs, completionId);
    if k != -1 {
      var c := cs[k];
      var c1 := c.(status := Approved, completedAt := Some(t1));
      var s1 := Approve(st, ch, completionId, t1, currentUser).0;
      FindAfterUpdate(cs, completionId, c1);
      assert CompletionsOf(s1, ch.id)[k] == c1;
      if c.userId in st.users {
        var u1 := s1.users[c.userId];
        assert u1 == MoveToCompleted(st.users[c.userId], ch.id, ch.points);
        MoveToCompletedIdempotent(st.users[c.userId], ch.id, ch.points);
      }
    }
  }

  /** `handleRejectCompletion`. */
  function Reject(st: ModalState, ch: ModalChallenge, completionId: string,
                  currentUser: Option<string>): (r: (ModalState, bool))
    ensures var cs := CompletionsOf(st, ch.id);
            var k := FindCompletion(cs, completionId);
            && (k == -1 ==> r == (st, false))
            && (k != -1 ==>
                  var c := cs[k];
                  && ch.id in st.completions
                  && r.0 == st.(completions := st.completions[ch.id := cs[k := c.(status := Rejected)]],
                                users := if c.userId in st.users
                                         then st.users[c.userId := MoveToActive(st.users[c.userId], ch.id)]
                                         else st.users)
                  && (r.1 <==> currentUser == Some(c.userId)))
  {
    var cs := CompletionsOf(st, ch.id);
    var k := FindCompletion(cs, completionId);
    if k == -1 then (st, false)
    else
      var c := cs[k];
      var st1 := WithCompletion(st, ch.id, k, c.(status := Rejected));
      var st2 := WithUser(st1, c.userId, (u: MockUser) => MoveToActive(u, ch.id));
      (st2, currentUser == Some(c.userId))
  }

  /** Rejecting twice leaves the store as one rejection did. */
  lemma RejectTwiceIsRejectOnce(st: ModalState, ch: ModalChallenge, completionId: string,
                                currentUser: Option<string>)
    ensures var s1 := Reject(st, ch, completionId, currentUser).0;
            Reject(s1, ch, completionId, currentUser).0 == s1
  {
    var cs := CompletionsOf(st, ch.id);
    var k := FindCompletion(cs, completionId);
    if k != -1 {
      var c := cs[k];
      var c1 := c.(status := Rejected);
      var cs1 := cs[k := c1];
      var s1 := Reject(st, ch, completionId, currentUser).0;
      FindAfterUpdate(cs, completionId, c1);
      assert CompletionsOf(s1, ch.id) == cs1;
      assert cs1[k := c1.(status := Rejected)] == cs1;
      assert s1.completions[ch.id := cs1] == s1.completions;
      if c.userId in st.users {
        var u1 := s1.users[c.userId];
        MoveToActiveIdempotent(st.users[c.userId], ch.id);
        assert s1.users[c.userId := MoveToActive(u1, ch.id)] == s1.users;
      }
    }
  }

  /** `handleRateCompletion`, with `recalculateRating` given: only a
      signed-in user may rate, only an approved completion, and not their
      own; the rater's entry is set and the average recomputed. */
  function Rate(st: ModalState, ch: ModalChallenge, completionId: string, rating: int,
                currentUser: Option<string>, recalc: map<string, int> -> real): (r: ModalState)
    ensures var cs := CompletionsOf(st, ch.id);
            var k := FindCompletion(cs, completionId);
            && (currentUser.None? || k == -1 || cs[k].status != Approved || cs[k].userId == currentUser.value ==> r == st)
            && (currentUser.Some? && k != -1 && cs[k].status == Approved && cs[k].userId != currentUser.value ==>
                  var ratings := cs[k].userRatings[currentUser.value := rating];
                  && ch.id in st.completions
                  && r == st.(completions := st.completions[ch.id := cs[k := cs[k].(userRatings := ratings, rating := recalc(ratings))]]))
  {
    var cs := CompletionsOf(st, ch.id);
    var k := FindCompletion(cs, completionId);
    if currentUser.None? || k == -1 then st
    else
      var c := cs[k];
      if c.status != Approved || c.userId == currentUser.value then st
      else
        var ratings := c.userRatings[currentUser.value := rating];
        WithCompletion(st, ch.id, k, c.(userRatings := ratings, rating := recalc(ratings)))
  }

  /** One rating per rater: a second rating by the same user replaces the
      first. */
  lemma RateTwiceKeepsLast(st: ModalState, ch: ModalChallenge, completionId: string, r1: int, r2: int,
                           currentUser: Option<string>, recalc: map<string, int> -> real)
    ensures Rate(Rate(st, ch, completionId, r1, currentUser, recalc), ch, completionId, r2, currentUser, recalc)
            == Rate(st, ch, completionId, r2, currentUser, recalc)
  {
    var cs := CompletionsOf(st, ch.id);
    var k := FindCompletion(cs, completionId);
    if currentUser.Some? && k != -1 && cs[k].status == Approved && cs[k].userId != currentUser.value {
      var c := cs[k];
      var ratings1 := c.userRatings[currentUser.value := r1];
      var c1 := c.(userRatings := ratings1, rating := recalc(ratings1));
      var s1 := Rate(st, ch, completionId, r1, currentUser, recalc);
      FindAfterUpdate(cs, completionId, c1);
      assert CompletionsOf(s1, ch.id)[k] == c1;
      var ratings2 := c.userRatings[currentUser.value := r2];
      var c2 := c.(userRatings := ratings2, rating := recalc(ratings2));
      assert ratings1[currentUser.value := r2] == ratings2;
      assert c1.(userRatings := ratings2, rating := recalc(ratings2)) == c2;
      assert cs[k := c1][k := c2] == cs[k := c2];
      assert st.completions[ch.id := cs[k := c1]][ch.id := cs[k := c2]] == st.completions[ch.id := cs[k := c2]];
    }
  }

  /** One more like, or one more dislike. */
  function Bumped(c: Completion, like: bool): (r: Completion)
    ensures like ==> r.likes == c.likes + 1 && r.dislikes == c.dislikes
    ensures !like ==> r.dislikes == c.dislikes + 1 && r.likes == c.likes
    ensures r.(likes := c.likes, dislikes := c.dislikes) == c
  {
    if like then c.(likes := c.likes + 1) else c.(dislikes := c.dislikes + 1)
  }

  /** `handleLikeCompletion` and `handleDislikeCompletion`: one more like or
      dislike on an approved completion, nothing otherwise. */
  function Vote(st: ModalState, ch: ModalChallenge, completionId: string, like: bool): (r: ModalState)
    ensures var cs := CompletionsOf(st, ch.id);
            var k := FindCompletion(cs, completionId);
            && (k == -1 || cs[k].status != Approved ==> r == st)
            && (k != -1 && cs[k].status == Approved ==>
                  && ch.id in st.completions
                  && r == st.(completions := st.completions[ch.id := cs[k := Bumped(cs[k], like)]]))
  {
    var cs := CompletionsOf(st, ch.id);
    var k := FindCompletion(cs, completionId);
    if k == -1 || cs[k].status != Approved then st
    else WithCompletion(st, ch.id, k, Bumped(cs[k], like))
  }

  /** A vote on the approved completion at index `k`: after it, the search
      still finds index `k`, holding the bumped completion. */
  lemma VoteStep(st: ModalState, ch: ModalChallenge, completionId: string, like: bool, k: int, c: Completion)
    requires k == FindCompletion(CompletionsOf(st, ch.id), completionId) && k != -1
    requires c == CompletionsOf(st, ch.id)[k] && c.status == Approved
    ensures var r := Vote(st, ch, completionId, like);
            && CompletionsOf(r, ch.id) == CompletionsOf(st, ch.id)[k := Bumped(c, like)]
            && FindCompletion(CompletionsOf(r, ch.id), completionId) == k
            && r == st.(completions := st.completions[ch.id := CompletionsOf(r, ch.id)])
  {
    FindAfterUpdate(CompletionsOf(st, ch.id), completionId, Bumped(c, like));
  }

  /** A like followed by a dislike, or the other way round, adds one to
      each counter of an approved completion. */
  lemma VoteTwice(st: ModalState, ch: ModalChallenge, completionId: string, first: bool)
    requires FindCompletion(CompletionsOf(st, ch.id), completionId) != -1
    requires CompletionsOf(st, ch.id)[FindCompletion(CompletionsOf(st, ch.id), completionId)].status == Approved
    ensures var cs := CompletionsOf(st, ch.id);
            var k := FindCompletion(cs, completionId);
            var c := cs[k];
            Vote(Vote(st, ch, completionId, first), ch, completionId, !first)
            == st.(completions := st.completions[ch.id := cs[k := c.(likes := c.likes + 1, dislikes := c.dislikes + 1)]])
  {
    var cs := CompletionsOf(st, ch.id);
    var k := FindCompletion(cs, completionId);
    var c := cs[k];
    var c1 := Bumped(c, first);
    var both := c.(likes := c.likes + 1, dislikes := c.dislikes + 1);
    VoteStep(st, ch, completionId, first, k, c);
    var s1 := Vote(st, ch, completionId, first);
    VoteStep(s1, ch, completionId, !first, k, c1);
    assert Bumped(c1, !first) == both;
    assert cs[k := c1][k := both] == cs[k := both];
    assert st.completions[ch.id := cs[k := c1]][ch.id := cs[k := both]] == st.completions[ch.id := cs[k := both]];
  }

  /** A like and a dislike together add one to each counter, in either
      order. */
  lemma VotesCommute(st: ModalState, ch: ModalChallenge, completionId: string)
    ensures Vote(Vote(st, ch, completionId, true), ch, completionId, false)
            == Vote(Vote(st, ch, completionId, false), ch, completionId, true)
  {
    var cs := CompletionsOf(st, ch.id);
    var k := FindCompletion(cs, completionId);
    if k != -1 && cs[k].status == Approved {
      VoteTwice(st, ch, completionId, true);
      VoteTwice(st, ch, completionId, false);
    }
  }

  /** Taking a user off the likers removes exactly that user's copies and
      keeps the others in order. */
  lemma UnlikeFacts(likes: seq<string>, u: string)
    ensures multiset(Filter(likes, NotId(u))) == multiset(likes)[u := 0]
    ensures IsSubsequence(Filter(likes, NotId(u)), likes)
    ensures |Filter(likes, NotId(u))| == |likes| - multiset(likes)[u]
  {
    FilterOutMultiset(likes, u, NotId(u));
    FilterIsSubsequence(likes, NotId(u));
    assert |multiset(Filter(likes, NotId(u)))| == |multiset(likes)| - multiset(likes)[u];
  }

  /** `handleLike` followed by `updateLikes`: with no signed-in user
      nothing happens; otherwise the user is appended to the likers if the
      modal showed the challenge as not liked, and every copy of the user
      is removed if it showed it liked; the flag and count are then read
      back from the new list. */
  function LikeChallenge(st: ModalState, challengeId: string, currentUser: Option<string>): (r: ModalState)
    ensures currentUser.None? ==> r == st
    ensures currentUser.Some? ==>
              var u := currentUser.value;
              var likes := LikesOf(st, challengeId);
              && challengeId in r.challengeLikes
              && (!st.isLiked ==> r.challengeLikes[challengeId] == likes + [u] && r.isLiked)
              && (st.isLiked ==> !r.isLiked)
              && (st.isLiked ==> forall x :: x in r.challengeLikes[challengeId] <==> x in likes && x != u)
              && (st.isLiked ==> multiset(r.challengeLikes[challengeId]) == multiset(likes)[u := 0])
              && (st.isLiked ==> IsSubsequence(r.challengeLikes[challengeId], likes))
              && (st.isLiked ==> r.likesCount == |likes| - multiset(likes)[u])
              && r.likesCount == |r.challengeLikes[challengeId]|
              && r.challengeLikes == st.challengeLikes[challengeId := r.challengeLikes[challengeId]]
              && r.completions == st.completions && r.users == st.users
  {
    if currentUser.None? then st
    else
      var u := currentUser.value;
      var likes := LikesOf(st, challengeId);
      var updated := if !st.isLiked then likes + [u] else Filter(likes, NotId(u));
      forall x
        ensures st.isLiked ==> (x in updated <==> x in likes && x != u)
      {
        FilterMembership(likes, NotId(u), x);
      }
      UnlikeFacts(likes, u);
      st.(challengeLikes := st.challengeLikes[challengeId := updated],
          isLiked := u in updated, likesCount := |updated|)
  }

  /** A like and a second click restore the likers and the modal's state,
      when the user had not liked the challenge. */
  lemma LikeThenUnlikeRestores(st: ModalState, challengeId: string, u: string)
    requires !st.isLiked && challengeId in st.challengeLikes && u !in st.challengeLikes[challengeId]
    requires st.likesCount == |st.challengeLikes[challengeId]|
    ensures LikeChallenge(LikeChallenge(st, challengeId, Some(u)), challengeId, Some(u)) == st
  {
    var likes := st.challengeLikes[challengeId];
    RemoveAppended(likes, u, NotId(u));
    assert st.challengeLikes[challengeId := likes] == st.challengeLikes;
  }

  /** The loop `find` runs. */
  method FindCompletionIndex(cs: seq<Completion>, id: string) returns (k: int)
    ensures k == FindCompletion(cs, id)
  {
    var i := 0;
    while i < |cs|
      invariant 0 <= i <= |cs|
      invariant forall j :: 0 <= j < i ==> cs[j].id != id
    {
      if cs[i].id == id {
        return i;
      }
      i := i + 1;
    }
    return -1;
  }

  /** The modal over the mock store. */
  class ChallengeModalView {
    const challenge: ModalChallenge
    const currentUser: Option<string>
    var completions: map<string, seq<Completion>>
    var users: map<string, MockUser>
    var challengeLikes: map<string, seq<string>>
    var isLiked: bool
    var likesCount: int

    constructor (challenge: ModalChallenge, currentUser: Option<string>, st: ModalState)
      ensures this.challenge == challenge && this.currentUser == currentUser && State() == st
    {
      this.challenge := challenge;
      this.currentUser := currentUser;
      completions := st.completions;
      users := st.users;
      challengeLikes := st.challengeLikes;
      isLiked := st.isLiked;
      likesCount := st.likesCount;
    }

    function State(): ModalState
      reads this
    {
      ModalState(completions, users, challengeLikes, isLiked, likesCount)
    }

    /** `handleLike`. */
    method HandleLike()
      modifies this
      ensures State() == LikeChallenge(old(State()), challenge.id, currentUser)
    {
      if currentUser.None? {
        return;
      }
      var u := currentUser.value;
      var likes := if challenge.id in challengeLikes then challengeLikes[challenge.id] else [];
      if !isLiked {
        likes := likes + [u];
      } else {
        likes := Filter(likes, NotId(u));
      }
      challengeLikes := challengeLikes[challenge.id := likes];
      isLiked := u in likes;
      likesCount := |likes|;
    }

    /** `handleApproveCompletion`; `notify` tells whether the status hook
        is called. */
    method HandleApproveCompletion(completionId: string, now: int) returns (notify: bool)
      modifies this
      ensures (State(), notify) == Approve(old(State()), challenge, completionId, now, currentUser)
    {
      var cs := if challenge.id in completions then completions[challenge.id] else [];
      var k := FindCompletionIndex(cs, completionId);
      if k == -1 {
        return false;
      }
      var c := cs[k];
      completions := completions[challenge.id := cs[k := c.(status := Approved, completedAt := Some(now))]];
      if c.userId in users {
        var user := users[c.userId];
        var pending := Filter(user.pendingChallenges, NotId(challenge.id));
        var completed := user.completedChallenges;
        var points := user.points;
        if challenge.id !in completed {
          completed := completed + [challenge.id];
          points := points + challenge.points;
        }
        users := users[c.userId := MockUser(pending, completed, user.activeChallenges, points)];
      }
      notify := currentUser == Some(c.userId);
    }

    /** `handleRejectCompletion`. */
    method HandleRejectCompletion(completionId: string) returns (notify: bool)
      modifies this
      ensures (State(), notify) == Reject(old(State()), challenge, completionId, currentUser)
    {
      var cs := if challenge.id in completions then completions[challenge.id] else [];
      var k := FindCompletionIndex(cs, completionId);
      if k == -1 {
        return false;
      }
      var c := cs[k];
      completions := completions[challenge.id := cs[k := c.(status := Rejected)]];
      if c.userId in users {
        var user := users[c.userId];
        var pending := Filter(user.pendingChallenges, NotId(challenge.id));
        var active := user.activeChallenges;
        if challenge.id !in active {
          active := active + [challenge.id];
        }
        users := users[c.userId := user.(pendingChallenges := pending, activeChallenges := active)];
      }
      notify := currentUser == Some(c.userId);
    }

    /** `handleRateCompletion`. */
    method HandleRateCompletion(completionId: string, rating: int, recalc: map<string, int> -> real)
      modifies this
      ensures State() == Rate(old(State()), challenge, completionId, rating, currentUser, recalc)
    {
      if currentUser.None? {
        return;
      }
      var cs := if challenge.id in completions then completions[challenge.id] else [];
      var k := FindCompletionIndex(cs, completionId);
      if k == -1 || cs[k].status != Approved {
        return;
      }
      var c := cs[k];
      if c.userId == currentUser.value {
        return;
      }
      var ratings := c.userRatings[currentUser.value := rating];
      completions := completions[challenge.id := cs[k := c.(userRatings := ratings, rating := recalc(ratings))]];
    }

    /** `handleLikeCompletion` (`like`) and `handleDislikeCompletion`. */
    method HandleVoteCompletion(completionId: string, like: bool)
      modifies this
      ensures State() == Vote(old(State()), challenge, completionId, like)
    {
      var cs := if challenge.id in completions then completions[challenge.id] else [];
      var k := FindCompletionIndex(cs, completionId);
      if k == -1 || cs[k].status != Approved {
        return;
      }
      var c := cs[k];
      var c' := if like then c.(likes := c.likes + 1) else c.(dislikes := c.dislikes + 1);
      completions := completions[challenge.id := cs[k := c']];
    }
  }
}
