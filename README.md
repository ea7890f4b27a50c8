# ChallengeMeApp — a verified model of the challenge ledger and the client-side pipelines

ChallengeMeApp is a social platform for challenges. Users create challenges,
save them, accept them, submit proof of completion and have completions
approved or rejected. This project models two parts of it in Dafny and proves
properties of the model.

**The backend core.**
- The user–challenge connection ledger. It is a table of (user, challenge,
  connection type) rows. Each row's key is the triple itself.
- The per-user statistics counters that creating and deleting a connection
  keep in step with the ledger.
- The challenge service: lookup, the filtered and sorted listing, creation,
  viewing, save/unsave and the lifecycle stubs.
- The user service's registration and deletion.
- The entities' pre-persist hooks.

**The frontend core.**
- The challenge modal's handlers: like, approve, reject, rate, like and
  dislike a completion.
- The three list pipelines: the chat window's challenge list, the home page's
  list and the users page's list.
- The shared search filter and the difficulty colours.
- Favourites kept in local storage.
- The two filter bars.
- The two sign-up dialogs, including the email pattern `^[^\s@]+@[^\s@]+\.[^\s@]+$`.
- The challenge card's like toggle and colour switch.
- The category list's click toggle.

## How the model is organised

Each source file becomes one module:

| module | stands for |
|---|---|
| `Base` | shared vocabulary: Option/Result/Outcome, the service exceptions, Java `int` wrap-around |
| `Lists`, `Sorting`, `JsText` | JavaScript's `filter`, its stable `sort` and string operations (ASCII `toLowerCase`, `includes`, `trim`) |
| `Ledger` | the connection repository as a sequence of rows |
| `ConnectionEntity`, `UserModel`, `ChallengeModel` | the entities |
| `UserStats` | the statistics service |
| `ConnectionService` | the connection service |
| `Users` | the user service |
| `Challenges` | the challenge service |
| the remaining modules | one frontend file each |

**How state-changing code is modelled.** Code that changes state in place
becomes a class whose methods have `modifies` clauses. Each method is proved
equal to a pure function of the old state, and the lemmas are stated about
that function:
- the services;
- the entities' hooks;
- the modal's mutable mock stores;
- the favourites store;
- the sign-up dialogs' form state;
- the card's like state.

**How the rest is modelled.**
- Pure handlers and pipelines are functions.
- Searches by index are `while` loops proved against a function:
  `find`/`findIndex` and the repository lookup by id.

Three defects of the backend code are recorded under Findings. For each one
the model keeps the code as written and adds a corrected definition with the
intended invariant proved.

The central invariant is `ConnectionService.Consistent`. For every user with a
statistics row and every connection type that has a counter, the counter
equals the number of ledger rows of that user and type.

Two properties of the code shape the invariant:
- No transaction surrounds a ledger write and the counter update that follows
  it, so a failing counter update leaves the ledger write in place.
- Counters are decremented without a floor, so they can go below zero. See
  `RepeatedUnsaveCountsNegative`.

## Model

| member | source | states |
|---|---|---|
| `Base.Add32` | backend/src/main/java/backend/service/UserStatsService.java:33 | Java `int` addition: exact when in range, otherwise off by exactly 2^32 |
| `Base.Add32Inverse` | backend/src/main/java/backend/service/UserStatsService.java:38-66 | adding one then subtracting one gives back the counter, overflow included |
| `Ledger.AuthorOf` | backend/src/main/java/backend/service/UserChallengeConnectionServiceImpl.java:32-36 | `getAuthorForChallenge`'s lookup fails (NoSuchElement) exactly when no AUTHOR row exists for the challenge; otherwise the result is the user of the first AUTHOR row for it in table order |
| `Ledger.SaveProperties` | backend/src/main/java/backend/model/UserChallengeConnectionEntity.java:21-42 | `save` on the composite key: a new key is appended; a stored key leaves the rows exactly as they were, since the only other column, `ts`, is not updatable; key uniqueness is preserved |
| `Ledger.DeleteProperties` | backend/src/main/java/backend/service/UserChallengeConnectionServiceImpl.java:62 | deleting by key removes exactly the row with that key and reports how many rows went (0 or 1); uniqueness is preserved |
| `Ledger.SaveThenDeleteRestores` | backend/src/main/java/backend/service/UserChallengeConnectionServiceImpl.java:46-62 | saving a row with a new key and then deleting that key gives back the original rows and reports one deletion |
| `Ledger.WithoutAbsent` | backend/src/main/java/backend/service/UserChallengeConnectionServiceImpl.java:62 | deleting an absent key leaves the rows unchanged |
| `Ledger.WithoutCount` | backend/src/main/java/backend/service/UserChallengeConnectionServiceImpl.java:62 | with unique keys, deleting removes one row if the key is stored and none otherwise |
| `Ledger.KeysWithout` | backend/src/main/java/backend/service/UserChallengeConnectionServiceImpl.java:62 | the keys after a delete are the old keys minus the deleted one |
| `Ledger.CountAfterSave` | backend/src/main/java/backend/service/UserChallengeConnectionServiceImpl.java:46 | a save raises the per-(user, type) row count by one for the new row's own user and type only, and by nothing when the key was stored |
| `Ledger.CountAfterDelete` | backend/src/main/java/backend/service/UserChallengeConnectionServiceImpl.java:62 | a delete lowers the count of the deleted key's user and type by one when the key was stored, and changes no other count |
| `ConnectionEntity.PrePersistTimestamp` | backend/src/main/java/backend/model/UserChallengeConnectionEntity.java:63-65 | the timestamp is always set afterwards, and an existing timestamp is kept |
| `ConnectionEntity.PrePersistTimestampIdempotent` | backend/src/main/java/backend/model/UserChallengeConnectionEntity.java:63-65 | running the hook twice is running it once |
| `ConnectionEntity.UserChallengeConnection.constructor` | backend/src/main/java/backend/model/UserChallengeConnectionEntity.java:24-41 | a connection holds the given user, challenge, type and timestamp |
| `ConnectionEntity.UserChallengeConnection.Key` | backend/src/main/java/backend/model/UserChallengeConnectionEntity.java:21-39 | the identity is the (user, challenge, type) triple |
| `ConnectionEntity.UserChallengeConnection.SameConnection` | backend/src/main/java/backend/model/UserChallengeConnectionEntity.java:18 | two connections are equal iff their user, challenge and type agree (the timestamp is excluded) |
| `ConnectionEntity.UserChallengeConnection.PrePersist` | backend/src/main/java/backend/model/UserChallengeConnectionEntity.java:63-65 | the hook sets a missing timestamp to now and keeps an existing one |
| `ConnectionEntity.EqualityIgnoresTimestamp` | backend/src/main/java/backend/model/UserChallengeConnectionEntity.java:18-21 | connections with the same triple are equal in both directions, whatever their timestamps |
| `UserModel.Normalised` | backend/src/main/java/backend/model/UserEntity.java:43-54 | after the hook: level is at least 1, points are non-negative and the creation time is set; a positive level, non-negative points or an existing creation time is kept; no other field changes |
| `UserModel.NormalisedIdempotent` | backend/src/main/java/backend/model/UserEntity.java:43-54 | the hook is idempotent |
| `UserModel.UserEntity.constructor` | backend/src/main/java/backend/mapper/UserMapper.java:26-34 | a built entity carries the id, names and email, with level and points unset (0) and no creation time |
| `UserModel.UserEntity.PrePersist` | backend/src/main/java/backend/model/UserEntity.java:43-54 | the entity's new value is the normalised old value |
| `ChallengeModel.NewChallenge` | backend/src/main/java/backend/mapper/ChallengeMapper.java:14-20 | a new challenge has the request's fields, the generated id and creation time, and zero likes and submissions |
| `ChallengeModel.ToSummary` | backend/src/main/java/backend/mapper/ChallengeMapper.java:24 | a summary carries the challenge's id and the given author username |
| `ChallengeModel.ToDetails` | backend/src/main/java/backend/mapper/ChallengeMapper.java:22 | a detail view carries the challenge's id and the given author id and username |
| `UserStats.WithPoints` | backend/src/main/java/backend/service/UserStatsService.java:31-36 | `addPoints` adds with `int` wrap-around and leaves every counter alone |
| `UserStats.Incremented` | backend/src/main/java/backend/service/UserStatsService.java:38-51 | as written: each type's own counter rises by one and no other; AWAITING_RESPONSE changes nothing; AUTHOR writes completed+1 into the created counter |
| `UserStats.Decremented` | backend/src/main/java/backend/service/UserStatsService.java:53-66 | as written: the mirror of `Incremented`; AUTHOR writes completed−1 into the created counter |
| `UserStats.IncrementThenDecrement` | backend/src/main/java/backend/service/UserStatsService.java:38-66 | for every type except AUTHOR, increment then decrement restores the statistics row |
| `UserStats.AuthorIncrementCorrectIff` | backend/src/main/java/backend/service/UserStatsService.java:41 | the AUTHOR increment is right (created+1) exactly when the created and completed counters are equal |
| `UserStats.AuthorCounterReadsCompleteCount` | backend/src/main/java/backend/service/UserStatsService.java:41-56 | a user with created = 5 and completed = 0 gets created = 1 after an AUTHOR increment (not 6) and −1 after an AUTHOR decrement (not 4) |
| `UserStats.IncrementedIntended` | backend/src/main/java/backend/service/UserStatsService.java:38-51 | corrected: the type's own counter rises by one and nothing else changes; a type without a counter changes nothing |
| `UserStats.DecrementedIntended` | backend/src/main/java/backend/service/UserStatsService.java:53-66 | corrected: the mirror of `IncrementedIntended` |
| `UserStats.IntendedRoundTrip` | backend/src/main/java/backend/service/UserStatsService.java:38-66 | the corrected increment and decrement are inverse for every type, and agree with the code for every type except AUTHOR |
| `UserStats.UserStatsService.constructor` | backend/src/main/java/backend/service/UserStatsService.java:19-22 | the service starts from the given statistics rows |
| `UserStats.UserStatsService.GetStatsByUserId` | backend/src/main/java/backend/service/UserStatsService.java:19-22 | returns the user's row, or EntityNotFoundException when there is none |
| `UserStats.UserStatsService.AddPoints` | backend/src/main/java/backend/service/UserStatsService.java:31-36 | the user's row gets the points added; a missing row throws and changes nothing |
| `UserStats.UserStatsService.IncrementCounter` | backend/src/main/java/backend/service/UserStatsService.java:38-51 | the user's row becomes `Incremented`; a missing row throws and changes nothing |
| `UserStats.UserStatsService.DecrementCounter` | backend/src/main/java/backend/service/UserStatsService.java:53-66 | the user's row becomes `Decremented`; a missing row throws and changes nothing |
| `ConnectionService.CreateConnectionProperties` | backend/src/main/java/backend/service/UserChallengeConnectionServiceImpl.java:39-58 | creation saves the stamped row under its key (an existing key keeps the rows as they were) and increments only the caller's counter of that type; a user without statistics gets the row but the call throws |
| `ConnectionService.DeleteConnectionProperties` | backend/src/main/java/backend/service/UserChallengeConnectionServiceImpl.java:61-66 | deletion removes the key's row (if any) and then decrements the counter unconditionally |
| `ConnectionService.CreateThenDeleteRestores` | backend/src/main/java/backend/service/UserChallengeConnectionServiceImpl.java:39-66 | creating a new non-AUTHOR connection and deleting it restores rows and statistics |
| `ConnectionService.CreateExistingBreaksConsistency` | backend/src/main/java/backend/service/UserChallengeConnectionServiceImpl.java:46-51 | as written: re-creating a stored triple keeps one row but adds one to the counter, so a consistent ledger becomes inconsistent |
| `ConnectionService.DeleteAbsentBreaksConsistency` | backend/src/main/java/backend/service/UserChallengeConnectionServiceImpl.java:62-65 | as written: deleting a triple that is not stored still decrements, so a consistent ledger becomes inconsistent |
| `ConnectionService.RepeatedSaveCountsTwice` | backend/src/main/java/backend/service/UserChallengeConnectionServiceImpl.java:46-51 | saving the same challenge twice leaves one SAVED row and a saved counter of 2 |
| `ConnectionService.RepeatedUnsaveCountsNegative` | backend/src/main/java/backend/service/UserChallengeConnectionServiceImpl.java:62-65 | unsaving the only saved challenge twice leaves no row and a saved counter of −1 |
| `ConnectionService.CreateIntendedDiffersOnlyInCount` | backend/src/main/java/backend/service/UserChallengeConnectionServiceImpl.java:39-58 | the corrected creation writes the same rows and returns the same result as the code, and equals it outright off AUTHOR for a new key |
| `ConnectionService.DeleteIntendedDiffersOnlyInCount` | backend/src/main/java/backend/service/UserChallengeConnectionServiceImpl.java:61-66 | the corrected deletion removes the same rows and returns the same outcome as the code, and equals it outright off AUTHOR for a stored key |
| `ConnectionService.CreateIntendedPreservesConsistency` | backend/src/main/java/backend/service/UserChallengeConnectionServiceImpl.java:39-58 | corrected creation (count only when the key is new) keeps counters equal to row counts |
| `ConnectionService.DeleteIntendedPreservesConsistency` | backend/src/main/java/backend/service/UserChallengeConnectionServiceImpl.java:61-66 | corrected deletion (count only when a row was removed) keeps counters equal to row counts |
| `ConnectionService.UserChallengeConnectionService.constructor` | backend/src/main/java/backend/service/UserChallengeConnectionServiceImpl.java:20-23 | the service starts with no rows and uses the given statistics service |
| `ConnectionService.UserChallengeConnectionService.GetChallengesForUserByConnectionType` | backend/src/main/java/backend/service/UserChallengeConnectionServiceImpl.java:27-29 | the stub returns an empty list whatever the ledger holds |
| `ConnectionService.UserChallengeConnectionService.GetAuthorForChallenge` | backend/src/main/java/backend/service/UserChallengeConnectionServiceImpl.java:32-36 | the result is `AuthorOf` over the stored rows: NoSuchElement when there is no AUTHOR row, otherwise the user of the first one |
| `ConnectionService.UserChallengeConnectionService.CreateUserChallengeConnection` | backend/src/main/java/backend/service/UserChallengeConnectionServiceImpl.java:39-58 | the new rows, statistics and outcome are `CreateConnection` of the old state |
| `ConnectionService.UserChallengeConnectionService.DeleteUserChallengeConnection` | backend/src/main/java/backend/service/UserChallengeConnectionServiceImpl.java:61-66 | the new rows, statistics and outcome are `DeleteConnection` of the old state |
| `Users.RegistrationConflict` | backend/src/main/java/backend/service/UserService.java:25-31 | a taken username gives the username conflict; otherwise a taken email gives the email conflict; otherwise none |
| `Users.RegisteredNamesAreTaken` | backend/src/main/java/backend/service/UserService.java:25-27 | once a user is stored, registering the same username again is refused |
| `Users.ToResponse` | backend/src/main/java/backend/mapper/UserMapper.java:15-24 | the response carries the stored username, email, level and points |
| `Users.IdentityProvider.CreateAccount` | backend/src/main/java/backend/service/UserService.java:33 | the identity provider issues a new id not issued before |
| `Users.IdentityProvider.DeleteAccount` | backend/src/main/java/backend/service/UserService.java:49 | the identity provider removes the account |
| `Users.UserService.CreateUser` | backend/src/main/java/backend/service/UserService.java:24-41 | a conflict throws and changes nothing; otherwise a fresh provider id is stored with the request's fields, level 1 (raised by the pre-persist hook), points 0 and created now, and its response is returned |
| `Users.UserService.DeleteUser` | backend/src/main/java/backend/service/UserService.java:43-52 | an unknown id throws NotFound and changes nothing; otherwise the account and the row are removed |
| `Challenges.ChallengeById` | backend/src/main/java/backend/service/ChallengeServiceImpl.java:32-35 | fails with IllegalArgumentException exactly when no stored challenge has the id; otherwise returns a stored challenge with that id |
| `Challenges.ResolveAuthor` | backend/src/main/java/backend/service/ChallengeServiceImpl.java:38-39 | the author's user row: NoSuchElement without an AUTHOR row, not-found when the author has no user row |
| `Challenges.SummaryOf` | backend/src/main/java/backend/service/ChallengeServiceImpl.java:37-43 | a summary exists exactly when the author resolves; it carries the challenge's id, points and counts and the author's username |
| `Challenges.MapSummariesOk` | backend/src/main/java/backend/service/ChallengeServiceImpl.java:65-68 | the mapping succeeds iff every element's summary does, and then holds those summaries element by element |
| `Challenges.MapSummariesFirstFailure` | backend/src/main/java/backend/service/ChallengeServiceImpl.java:65-68 | a failed mapping throws the failure of the first element whose summary fails |
| `Challenges.ViewChallenge` | backend/src/main/java/backend/service/ChallengeServiceImpl.java:89-94 | an unknown id fails with IllegalArgumentException; otherwise the result succeeds iff the author resolves, with the author's id |
| `Challenges.FindAllExactlyMatching` | backend/src/main/java/backend/service/ChallengeServiceImpl.java:47-54 | a challenge is listed iff it is stored and matches each given category and difficulty |
| `Challenges.FindAllPermutesMatches` | backend/src/main/java/backend/service/ChallengeServiceImpl.java:56-65 | the listing is a permutation of the matching challenges, so a sub-multiset of all challenges |
| `Challenges.FindAllOrder` | backend/src/main/java/backend/service/ChallengeServiceImpl.java:56-63 | unsorted keeps storage order; a sort type gives descending order of likes, submissions or points |
| `Challenges.ListIgnoresConnectionTypeAndCaller` | backend/src/main/java/backend/service/ChallengeServiceImpl.java:46-69 | the listing does not depend on the query's connection type or on the caller's id |
| `Challenges.ListChallengesCarriesAuthors` | backend/src/main/java/backend/service/ChallengeServiceImpl.java:65-68 | a successful listing gives, in order, one summary per listed challenge, with its resolved author's username |
| `Challenges.FreshChallengeId` | backend/src/main/java/backend/service/ChallengeServiceImpl.java:74 | the generated id is used neither by a stored challenge nor by a ledger row |
| `Challenges.AuthorAfterCreate` | backend/src/main/java/backend/service/ChallengeServiceImpl.java:74-77 | after the AUTHOR row of a new challenge is saved, the author lookup returns that author |
| `Challenges.CreateThenView` | backend/src/main/java/backend/service/ChallengeServiceImpl.java:72-94 | viewing a just-created challenge returns its author's id and username |
| `Challenges.OutcomeOf` | backend/src/main/java/backend/service/ChallengeServiceImpl.java:102-109 | a void call passes iff the underlying call succeeded, with the same exception otherwise |
| `Challenges.ChallengeService.constructor` | backend/src/main/java/backend/service/ChallengeServiceImpl.java:24-29 | the service starts with no challenges and the given collaborators |
| `Challenges.ChallengeService.GetChallengeById` | backend/src/main/java/backend/service/ChallengeServiceImpl.java:32-35 | the repository search returns exactly `ChallengeById` |
| `Challenges.ChallengeService.List` | backend/src/main/java/backend/service/ChallengeServiceImpl.java:46-69 | the result is `ListChallenges` over the stored challenges, rows and users |
| `Challenges.ChallengeService.View` | backend/src/main/java/backend/service/ChallengeServiceImpl.java:89-94 | the result is `ViewChallenge` |
| `Challenges.ChallengeService.CreateChallenge` | backend/src/main/java/backend/service/ChallengeServiceImpl.java:72-86 | the new challenge is stored under a fresh id and an AUTHOR connection is created; the author's details are returned, or the statistics or user lookup's exception is thrown after those writes |
| `Challenges.ChallengeService.SaveChallenge` | backend/src/main/java/backend/service/ChallengeServiceImpl.java:102-104 | a SAVED connection is created through the connection service |
| `Challenges.ChallengeService.UnsaveChallenge` | backend/src/main/java/backend/service/ChallengeServiceImpl.java:107-109 | the SAVED connection is deleted through the connection service |
| `Lists.IndexOf` | frontend/src/lib/utils/favorites.ts:23 | `indexOf`: −1 iff absent; otherwise the first position holding the value |
| `Sorting.SortByCorrect` | frontend/src/app/page.tsx:30-41 | the stable sort returns a permutation of its input, ordered by the key in the given direction |
| `Sorting.SortByStable` | frontend/src/app/page.tsx:30-41 | stability: for every key value, the elements with that key appear in the result in their input order |
| `Lists.FilterHead` | backend/src/main/java/backend/service/UserChallengeConnectionServiceImpl.java:33-34 | the first element of a filtered list is the first element of the input that satisfies the predicate |
| `Sorting.SortByConstantKeyKeepsOrder` | frontend/src/app/users/page.tsx:77-89 | a sort under which every pair compares equal leaves the list as it is |
| `Sorting.SortByPermutes` | frontend/src/app/page.tsx:30-41 | the sorted list holds the same elements with the same multiplicities |
| `Sorting.SortBySorted` | frontend/src/app/page.tsx:30-41 | the sorted list is ordered by the key in the given direction |
| `JsText.ToLowerIdempotent` | frontend/src/lib/utils/index.ts:4 | lower-casing twice is lower-casing once |
| `JsText.BlankIffAllWhitespace` | frontend/src/components/AuthModals/SignUpModal.tsx:39 | `trim()` gives the empty string iff every character is whitespace |
| `SearchUtils.DifficultyColor` | frontend/src/lib/utils/index.ts:3-14 | each of easy, medium and hard (any case) gets its own colours, and exactly the other values get grey |
| `SearchUtils.DifficultyColorIgnoresCase` | frontend/src/lib/utils/index.ts:4 | the colour depends only on the lower-cased difficulty |
| `SearchUtils.NatDigits` | frontend/src/lib/utils/index.ts:41 | `String(n)` of a natural number is a non-empty string of digits that spells `n` (`DigitsValue`) and has no leading zero |
| `SearchUtils.JsString` | frontend/src/lib/utils/index.ts:41 | `String(v)`: a string is itself; a number is the digits that spell its magnitude, after a `-` when negative; a boolean is "true" or "false" as it is true or false; `undefined` and `null` are their names |
| `SearchUtils.FilterBySearch` | frontend/src/lib/utils/index.ts:35 | an empty query returns the items unchanged |
| `SearchUtils.FilterBySearchMembership` | frontend/src/lib/utils/index.ts:30-44 | an item is kept iff it is an input item and (the query is empty or some listed field is truthy and contains the query, ignoring case) |
| `SearchUtils.FilterBySearchSubsequence` | frontend/src/lib/utils/index.ts:38-43 | the result keeps the input's order |
| `SearchUtils.FilterBySearchIgnoresQueryCase` | frontend/src/lib/utils/index.ts:37 | only the lower-cased query matters |
| `Favorites.Added` | frontend/src/lib/utils/favorites.ts:11-18 | the id is present afterwards; an id already present changes nothing, a new id is appended |
| `Favorites.Removed` | frontend/src/lib/utils/favorites.ts:20-28 | an absent id changes nothing; otherwise the first occurrence is spliced out and the other elements keep their order |
| `Favorites.AddIdempotent` | frontend/src/lib/utils/favorites.ts:14 | adding twice is adding once |
| `Favorites.AddKeepsNoDuplicates` | frontend/src/lib/utils/favorites.ts:14-15 | adding keeps the list free of duplicates |
| `Favorites.RemoveFromNoDuplicates` | frontend/src/lib/utils/favorites.ts:23-25 | in a duplicate-free list, removing leaves the id absent and the list duplicate-free |
| `Favorites.AddThenRemoveRestores` | frontend/src/lib/utils/favorites.ts:11-28 | adding a new id and removing it restores the list |
| `Favorites.FavoritesStorage.constructor` | frontend/src/lib/utils/favorites.ts:3 | the store starts with the given window availability and stored list |
| `Favorites.FavoritesStorage.GetFavorites` | frontend/src/lib/utils/favorites.ts:5-9 | the stored list, or empty without a window |
| `Favorites.FavoritesStorage.IsFavorite` | frontend/src/lib/utils/favorites.ts:30-34 | true iff there is a window and the id is stored |
| `Favorites.FavoritesStorage.AddFavorite` | frontend/src/lib/utils/favorites.ts:11-18 | the stored list becomes `Added`; without a window nothing changes |
| `Favorites.FavoritesStorage.RemoveFavorite` | frontend/src/lib/utils/favorites.ts:20-28 | the stored list becomes `Removed` of the old one (its first occurrence of the id spliced out, order kept); without a window nothing changes |
| `Favorites.AddThenIsFavorite` | frontend/src/lib/utils/favorites.ts:11-34 | with a window, a just-added id is reported as a favourite |
| `Filters.Flip` | frontend/src/components/Filters/index.tsx:110 | the flipped direction differs from the old one |
| `Filters.HandleSortFieldChange` | frontend/src/components/Filters/index.tsx:99-105 | the new field is taken; 'none' forces descending, any other field keeps the direction |
| `Filters.SameFieldKeepsConfig` | frontend/src/components/Filters/index.tsx:99-105 | re-choosing the current field, other than 'none', changes nothing |
| `Filters.ToggleSortDirection` | frontend/src/components/Filters/index.tsx:107-112 | same field, the other direction |
| `Filters.ToggleTwiceRestores` | frontend/src/components/Filters/index.tsx:107-112 | toggling twice restores the configuration |
| `Filters.SortLabel` | frontend/src/components/Filters/index.tsx:118-131 | each of the four fields gets its own label, and exactly the other values get the empty label |
| `Filters.HandleCategoryChange` | frontend/src/components/Filters/index.tsx:89-92 | a single string becomes a one-element list; a list passes unchanged |
| `UsersFilters.UserSortLabel` | frontend/src/components/UsersFilters/index.tsx:93-104 | each of the three fields gets its own label, and exactly the other values get the empty label |
| `UsersFilters.HandleClear` | frontend/src/components/UsersFilters/index.tsx:89-91 | the query becomes empty and the sort is kept |
| `UsersFilters.ClearIdempotent` | frontend/src/components/UsersFilters/index.tsx:89-91 | clearing twice is clearing once |
| `UsersFilters.NoneForgetsDirection` | frontend/src/components/UsersFilters/index.tsx:74-87 | after choosing 'none', an earlier toggle makes no difference |
| `ChallengeCard.LikeState.constructor` | frontend/src/components/ChallengeCard/index.tsx:48-51 | a card starts not liked with the given count |
| `ChallengeCard.LikeState.HandleLike` | frontend/src/components/ChallengeCard/index.tsx:48-51 | the flag flips and the count moves by one in the matching direction; "the count includes my own like" is preserved |
| `ChallengeCard.LikeTwiceRestores` | frontend/src/components/ChallengeCard/index.tsx:48-51 | two clicks restore the flag and the count |
| `ChallengeCard.CardDifficultyColor` | frontend/src/components/ChallengeCard/index.tsx:53-64 | medium and hard (any case) get their colours, and every other value gets the easy colours |
| `ChallengeCard.CardColourAgreesOnKnown` | frontend/src/components/ChallengeCard/index.tsx:53-64 | the card's switch agrees with the shared one exactly on easy, medium and hard, and ignores case |
| `CategoryList.NextSelection` | frontend/src/components/CategoryList/index.tsx:28 | clicking the selected category clears it, and clicking any other category selects it |
| `CategoryList.ClickTwiceRestores` | frontend/src/components/CategoryList/index.tsx:28 | from no selection or from the clicked category, two clicks restore the selection |
| `CategoryList.ClickTwiceFromOtherClears` | frontend/src/components/CategoryList/index.tsx:28 | from another category, two clicks leave nothing selected |
| `EmailPattern.IsValidEmailIffPattern` | frontend/src/components/AuthModals/SignUpModal.tsx:32-35 | the single-scan test accepts exactly the strings matching `^[^\s@]+@[^\s@]+\.[^\s@]+$` |
| `EmailPattern.AcceptedShape` | frontend/src/components/AuthModals/SignUpModal.tsx:33 | an accepted address has no whitespace and exactly one '@' |
| `EmailPattern.AcceptsDottedAddress` | frontend/src/components/AuthModals/SignUpModal.tsx:33 | "a.b@c.d.e" is accepted |
| `EmailPattern.RejectsTrailingDot` | frontend/src/components/AuthModals/SignUpModal.tsx:33 | "a@b." is rejected |
| `EmailPattern.RejectsTwoAts` | frontend/src/components/AuthModals/SignUpModal.tsx:33 | "a@b@c.d" is rejected |
| `AuthSignUp.OrUndefined` | frontend/src/components/AuthModals/SignUpModal.tsx:54-55 | `x \|\| undefined`: absent exactly for the empty string |
| `AuthSignUp.ValidationError` | frontend/src/components/AuthModals/SignUpModal.tsx:38-51 | blank username or password gives the credentials message; otherwise a blank email gives the email-required message; otherwise an address not matching the pattern gives the invalid-email message; otherwise no error |
| `AuthSignUp.Submit` | frontend/src/components/AuthModals/SignUpModal.tsx:37-69 | the sign-up call is made iff validation passes, with the email as typed and the optional names; success clears the form and closes; failure keeps the form with the failure message |
| `AuthSignUp.SignUpCallIsValid` | frontend/src/components/AuthModals/SignUpModal.tsx:37-57 | sign-up is only called with a non-blank username and password and an email matching the pattern |
| `AuthSignUp.BlankEmailIsMissing` | frontend/src/components/AuthModals/SignUpModal.tsx:43-46 | an all-whitespace email is reported as missing |
| `AuthSignUp.SignUpModal.constructor` | frontend/src/components/AuthModals/SignUpModal.tsx:24-30 | the form starts empty |
| `AuthSignUp.SignUpModal.HandleSubmit` | frontend/src/components/AuthModals/SignUpModal.tsx:37-69 | the new form, the call made and the close decision are `Submit` of the old form |
| `AppSignUp.AppValidationError` | frontend/src/app/components/SignUpModal.tsx:38-47 | blank credentials give the credentials message; otherwise a non-empty email not matching the pattern gives the invalid-email message; otherwise no error (an empty email is allowed) |
| `AppSignUp.WhitespaceEmailRejected` | frontend/src/app/components/SignUpModal.tsx:43 | an email of only whitespace is rejected as invalid, not as missing |
| `AppSignUp.AuthDialogIsStricter` | frontend/src/app/components/SignUpModal.tsx:37-62 | whatever the auth dialog accepts, this dialog accepts; with an empty email it accepts what the auth dialog refuses |
| `AppSignUp.AppSubmit` | frontend/src/app/components/SignUpModal.tsx:37-62 | sign-up happens iff validation passes, reporting the username and clearing the form; otherwise the form keeps its values with the message |
| `AppSignUp.AppSignUpModal.constructor` | frontend/src/app/components/SignUpModal.tsx:24-30 | the form starts empty |
| `AppSignUp.AppSignUpModal.HandleSubmit` | frontend/src/app/components/SignUpModal.tsx:37-62 | the new form and the reported sign-up are `AppSubmit` of the old form |
| `ChatWindow.FilteredChallenges` | frontend/src/components/ChatWindow/index.tsx:236-305 | the pipeline never lengthens the list |
| `ChatWindow.GuardedFilter` | frontend/src/components/ChatWindow/index.tsx:240-282 | a stage that filters only when its control is set is one filter with the guarded test |
| `ChatWindow.FilterStagesAreOneFilter` | frontend/src/components/ChatWindow/index.tsx:240-282 | the search, category and status stages together are one filter by `Kept` |
| `ChatWindow.FilteredMembership` | frontend/src/components/ChatWindow/index.tsx:236-305 | a challenge is shown iff it is in the input and passes the search, the category selection (favourites included) and the status for the current user |
| `ChatWindow.FilteredIsSelection` | frontend/src/components/ChatWindow/index.tsx:236-305 | the shown list is a sub-multiset of the input, and with no sorting it keeps the input's order |
| `ChatWindow.FilteredSorted` | frontend/src/components/ChatWindow/index.tsx:285-302 | with a sort field, the shown list is a permutation of the filtered one, ordered by that field in the chosen direction |
| `HomePage.ListedIffMatches` | frontend/src/app/page.tsx:15-41 | a challenge is listed iff it is in the input and matches the category, difficulty and search |
| `HomePage.SortedIsOrderedPermutation` | frontend/src/app/page.tsx:30-41 | the sorted list is a permutation of the filtered one, in descending order of date, likes or points |
| `HomePage.NoFiltersKeepAll` | frontend/src/app/page.tsx:15-27 | with no category, difficulty or query, every challenge is kept in order |
| `UsersPage.SortedUsers` | frontend/src/app/users/page.tsx:44-90 | while loading the list is empty, and it is never longer than the input |
| `UsersPage.ListedIff` | frontend/src/app/users/page.tsx:48-70 | a user is shown iff they are in the input, are not the current user, and (friends mode, empty query, or the query is in their username or full name, ignoring case) |
| `UsersPage.CurrentUserNeverListed` | frontend/src/app/users/page.tsx:50-52 | the current user is never shown |
| `UsersPage.NoSortKeepsOrder` | frontend/src/app/users/page.tsx:73-75 | with no sorting, the shown users keep the input's order |
| `UsersPage.SortedIsOrderedPermutation` | frontend/src/app/users/page.tsx:77-89 | with a sort field, the shown users are a permutation of the filtered ones, ordered by points or completed count in the chosen direction |
| `ChallengeModal.FindCompletion` | frontend/src/components/ChallengeModal/index.tsx:224 | `find` by id: −1 iff no completion has the id; otherwise the first position holding it |
| `ChallengeModal.FindAfterUpdate` | frontend/src/components/ChallengeModal/index.tsx:224-226 | updating the found completion in place keeps it findable at the same position |
| `ChallengeModal.MoveToCompleted` | frontend/src/components/ChallengeModal/index.tsx:230-240 | the challenge leaves the pending list and is in the completed list; the points are added exactly when it was not already completed |
| `ChallengeModal.MoveToActive` | frontend/src/components/ChallengeModal/index.tsx:259-265 | the challenge leaves the pending list and is appended to the active list unless already there; nothing else changes |
| `ChallengeModal.MoveToActiveKeepsNoDuplicates` | frontend/src/components/ChallengeModal/index.tsx:262-264 | the active list stays free of duplicates |
| `ChallengeModal.MoveToCompletedIdempotent` | frontend/src/components/ChallengeModal/index.tsx:230-240 | moving the same challenge to completed twice equals moving it once: no second award of points |
| `ChallengeModal.MoveToActiveIdempotent` | frontend/src/components/ChallengeModal/index.tsx:259-265 | moving the same challenge back to active twice equals moving it once |
| `ChallengeModal.WithCompletion` | frontend/src/components/ChallengeModal/index.tsx:224-227 | replaces one completion of the challenge and leaves the rest of the state alone |
| `ChallengeModal.WithUser` | frontend/src/components/ChallengeModal/index.tsx:230-231 | updates one mock user if present and leaves the rest of the state alone |
| `ChallengeModal.Approve` | frontend/src/components/ChallengeModal/index.tsx:223-251 | an unknown completion changes nothing; otherwise it becomes approved with a completion time, its user is moved to completed, and notification happens iff it is the current user's completion |
| `ChallengeModal.ApproveTwiceGrantsOnce` | frontend/src/components/ChallengeModal/index.tsx:233-239 | a second approval changes no user, so points are awarded once |
| `ChallengeModal.Reject` | frontend/src/components/ChallengeModal/index.tsx:253-276 | an unknown completion changes nothing; otherwise it becomes rejected and its user moves back to active, with notification iff it is the current user's |
| `ChallengeModal.RejectTwiceIsRejectOnce` | frontend/src/components/ChallengeModal/index.tsx:253-276 | rejecting twice is rejecting once |
| `ChallengeModal.Rate` | frontend/src/components/ChallengeModal/index.tsx:278-294 | only a signed-in user who is not the owner can rate an approved completion; the rating is recorded and the average recomputed; anything else changes nothing |
| `ChallengeModal.RateTwiceKeepsLast` | frontend/src/components/ChallengeModal/index.tsx:289-292 | rating twice keeps only the second rating |
| `ChallengeModal.Vote` | frontend/src/components/ChallengeModal/index.tsx:296-308 | an approved completion gains one like or one dislike; any other completion is unchanged |
| `ChallengeModal.VotesCommute` | frontend/src/components/ChallengeModal/index.tsx:296-308 | a like then a dislike equals a dislike then a like |
| `ChallengeModal.VoteTwice` | frontend/src/components/ChallengeModal/index.tsx:296-308 | a like and a dislike on the same approved completion, in either order, add one to each counter and change nothing else |
| `ChallengeModal.Bumped` | frontend/src/components/ChallengeModal/index.tsx:296-308 | a like adds one to the likes, a dislike one to the dislikes, the other counter and fields unchanged |
| `ChallengeModal.LikeChallenge` | frontend/src/components/ChallengeModal/index.tsx:143-173 | without a user nothing changes; a like appends the user to the likers; an unlike keeps the other likers, in order and with their multiplicities, and drops every copy of the user, so the count falls by the number of those copies; the flag and count are re-derived from the new list |
| `ChallengeModal.UnlikeFacts` | frontend/src/components/ChallengeModal/index.tsx:169 | `likes.filter(id => id !== user)` removes exactly the user's copies, keeps the rest in order, and is shorter by their number |
| `ChallengeModal.LikeThenUnlikeRestores` | frontend/src/components/ChallengeModal/index.tsx:160-173 | liking and then unliking restores the state |
| `ChallengeModal.FindCompletionIndex` | frontend/src/components/ChallengeModal/index.tsx:224 | the search loop returns `FindCompletion` |
| `ChallengeModal.ChallengeModalView.constructor` | frontend/src/components/ChallengeModal/index.tsx:140-148 | the view starts from the given challenge, user and state |
| `ChallengeModal.ChallengeModalView.HandleLike` | frontend/src/components/ChallengeModal/index.tsx:160-173 | the new state is `LikeChallenge` of the old |
| `ChallengeModal.ChallengeModalView.HandleApproveCompletion` | frontend/src/components/ChallengeModal/index.tsx:223-251 | the new state and the notification are `Approve` of the old |
| `ChallengeModal.ChallengeModalView.HandleRejectCompletion` | frontend/src/components/ChallengeModal/index.tsx:253-276 | the new state and the notification are `Reject` of the old |
| `ChallengeModal.ChallengeModalView.HandleRateCompletion` | frontend/src/components/ChallengeModal/index.tsx:278-294 | the new state is `Rate` of the old |
| `ChallengeModal.ChallengeModalView.HandleVoteCompletion` | frontend/src/components/ChallengeModal/index.tsx:296-308 | the new state is `Vote` of the old |

## Left out

- Persistence and transactions. Repositories are sequences and maps in memory. There is no transaction in the modelled layer, so there is no rollback and no concurrency.
- Keycloak is reduced to `Users.IdentityProvider`, a source of fresh ids. Tokens, passwords and the HTTP calls are not modelled.
- Logging (`log.info`, `console.log`, `console.error`) is not modelled.
- React rendering, effects and the JSX are not modelled.
- Timers (`setTimeout`, `Math.random`) are not modelled. `ChallengeModal.ChallengeModalView.HandleLike` applies the delayed update at once.
- Clocks are parameters (`now`). Timestamps are integers.
- UUIDs are natural numbers. Fresh ids are a maximum plus one.
- Strings: lower-casing is ASCII only, and there is no Unicode case mapping.
- `SearchUtils.Truthy`: NaN, objects and arrays are not modelled.
- The JavaScript sort comparators are modelled as a stable sort by an integer key. A comparator that returns NaN is not modelled.
- `HomePage.SortedIsOrderedPermutation`: `createdAt` is taken as an already parsed number. An unparsable date, which gives NaN, is not modelled.
- `Challenges.FindAllOrder`: the repository sorts on the entity properties "likes" and "submissions", which the entity does not declare. The model sorts on `likesCount` and `submissionsCount`, and is stable for equal keys.
- `likeChallenge`, `acceptChallenge`, `submitCompletion`, `completeChallenge` and `challengeUser` (`ChallengeServiceImpl.java:97-129`) have empty bodies. They change nothing and return nothing, so they are not modelled.
- `Challenges.ChallengeService.CreateChallenge`: `incrementCreatedChallengesCount` is not defined in the statistics service, whose version is commented out. The call is left out. The AUTHOR connection's own increment still runs.
- `Challenges.ChallengeService.CreateChallenge`: `userService.findById` is not defined in UserService. It is modelled as a lookup in the user store.
- `ConnectionService.UserChallengeConnectionService.DeleteUserChallengeConnection`: `connRepo.deleteByUserIdAndChallengeIdAndConnectionType` (`UserChallengeConnectionServiceImpl.java:62`) is not declared in `UserChallengeConnectionRepository.java`. The model gives it the meaning of a Spring Data derived delete: it removes the row with that key and returns the number of rows removed, 0 or 1 (`Ledger.DeleteByKey`).
- `Challenges.FindAll`: `challengeRepo.findAll(spec, sort)` (`ChallengeServiceImpl.java:65`) needs `JpaSpecificationExecutor`, which `ChallengeRepository.java:12` does not extend. The model gives it the intended meaning: the rows matching the category and difficulty conditions, stably sorted by the chosen property.
- `Challenges.ResolveAuthor`: the author lookup that fails is modelled with the fixed text "User not found".
- `Challenges.SummaryOf`: the avatar URL is left out. `getAvatarUrl` is not declared on the user entity.
- The challenge mapper is a MapStruct interface whose generated code is not part of this model. `ChallengeModel.ToSummary` and `ChallengeModel.ToDetails` copy fields by name.
- `Challenges.ChallengeById`: the exception message keeps only its fixed text "Challenge not found", without the id.
- `Users.UserService.DeleteUser`: the exception message keeps only its fixed text, without the id.
- `Users.UserService.CreateUser`: the mapper's Keycloak payload is not modelled. No statistics row is created, as in the source.
- `ConnectionService.UserChallengeConnectionService.GetChallengesForUserByConnectionType`: the source is a stub returning an empty list. The repository query it would use is not modelled.
- The connection repository's derived finders that the service layer never calls are not modelled.
- Java enum constants are upper case (`AUTHOR`, `SAVED`), while the services write them in lower case (`ConnectionType.author`). The model uses one set of constructors. The `default` branch of the counter switch is unreachable and has no counterpart.
- `ChallengeModal`: `mockCompletions`, `mockChallengeLikes` and `recalculateRating` are imported from the mock data module but not defined there. The two stores are part of the modal state. `recalculateRating` is a function parameter, and its result is not constrained.
- `UsersPage.UserSortValue` and `UsersPage.SortedIsOrderedPermutation`: the comparator for 'completedChallenges' reads `completedChallenges.length`, as the `string[]` type in components/UserCard/index.tsx:40 declares, and the model sorts by that list length. The page's only data, `Object.values(mockUsers)` (app/users/page.tsx:20, 36), holds a number in that field (lib/mock/data.ts:8). There the comparator returns NaN for every pair, the sort treats every pair as equal, and the filtered order is kept. The model does not capture that behaviour of the page as shipped. `Sorting.SortByConstantKeyKeepsOrder` states what such a sort gives.
- `ChallengeModal.MoveToCompleted`: in the mock data `completedChallenges` is a number. The handler's `.includes`/`.push` therefore assume a list, and the model uses a list.
- The challenge modal's own `getDifficultyColor` (components/ChallengeModal/index.tsx:310-321) is the same switch as the card's, with unknown values getting the easy colours. It is modelled once, by `ChallengeCard.CardDifficultyColor`.
- `ChallengeModal.Approve`: `challenge.points || 0` is modelled as the integer points.
- `ChallengeModal.Approve`: the asynchronous `updateStatus` call is reduced to a returned notify flag. Its own failures are not modelled.
- `ChallengeModal`: proof upload, the accept and cancel buttons and the file preview are not modelled. They are I/O and stubs.
- `Favorites`: the local storage value is the decoded list. JSON encoding and decoding are not modelled.
- `Favorites`: a missing window is a constant flag of the store.
- `UsersPage.SortedUsers`: the users page's data loading is not modelled. Users arrive as a parameter, and `isLoading` is a flag.
- `UsersFilters.HandleClear` also stands for the challenge filter bar's `handleClear` (components/Filters/index.tsx:114-116). That code is the same.
- The users bar's sort-field and direction handlers (components/UsersFilters/index.tsx:74-87) are the same code as the challenge bar's. They are modelled by `Filters.HandleSortFieldChange` and `Filters.ToggleSortDirection`.
- The plain setters `handleSearchChange`, `handleStatusChange` and `handleFilterChange` are not modelled. They only store the value they receive.
- `CategoryList.ClickTwiceRestores` is restricted to a selection that is empty or the clicked category. From another category two clicks clear the selection instead; see `CategoryList.ClickTwiceFromOtherClears`.
- `ConnectionService.CreateIntendedPreservesConsistency` assumes fewer than 2^31−1 ledger rows. Above that, an `int` counter cannot equal the row count.
- `AuthSignUp.Submit`: the sign-up call's success is a parameter. The network call and the error it reports are not modelled.
- `AppSignUp.AppSubmit`: the dialog makes no network call. What the model reports is the username it passes to `onSignUpSuccess` (app/components/SignUpModal.tsx:61).

## Findings

| source | as written | input that shows it | evidently intended | confidence | as-written member | corrected member |
|---|---|---|---|---|---|---|
| backend/src/main/java/backend/service/UserStatsService.java:41-56 | the AUTHOR case sets the created counter from the completed counter ± 1 | stats with created = 5 and completed = 0: an AUTHOR increment gives created = 1 (not 6), a decrement gives −1 (not 4) | created counter ± 1 | high; not executed | `UserStats.AuthorCounterReadsCompleteCount` | `UserStats.IntendedRoundTrip` |
| backend/src/main/java/backend/service/UserChallengeConnectionServiceImpl.java:62-65 | deletion decrements the counter even when no row was deleted | unsave a challenge twice when one SAVED row and a saved count of 1 exist: no row remains and the count is −1 | decrement only when a row was removed | high; not executed | `ConnectionService.RepeatedUnsaveCountsNegative` | `ConnectionService.DeleteIntendedPreservesConsistency` |
| backend/src/main/java/backend/service/UserChallengeConnectionServiceImpl.java:46-51 | creation increments even when the triple was already stored (the save only overwrites it) | save the same challenge twice from an empty ledger: one SAVED row, count 2 | increment only when the key is new | high; not executed | `ConnectionService.RepeatedSaveCountsTwice` | `ConnectionService.CreateIntendedPreservesConsistency` |
