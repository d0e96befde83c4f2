# social_network_api — a Dafny model of the thought and user controllers

The repository is a REST back end for a small social application. Users post
thoughts, others attach reactions to those thoughts, and users keep a
directed list of friends. All of its behaviour lives in two controllers that
wrap calls to a document store. This project models those controllers as
operations on an in-memory store. It also models the reaction sub-document
schema they rely on.

- `Common` (`common.dfy`) defines identifiers and the abstract clock. A
  request identifier is an `IdParam`. It is either `WellFormed(id)`, meaning
  it passed the identifier parser's well-formedness test, or `IllFormed`.
- `UpdateOperators` (`update_operators.dfy`) models the store's array-update
  operators as sequence functions. `$push` is append. `$addToSet` is
  append-if-absent (`AddToSet`). `$pull` removes every matching element
  (`PullWhere`, `PullValue`). `$set` overwrites only the supplied fields
  (`Overwrite`). The lemmas about them cover the pulled length, order
  preservation, idempotence, and remove-after-add restoring the list.
- `ReactionSchema` (`reaction.dfy`) has the `Reaction` value. It has no `_id`
  field; its only identity is `reactionId`. `Build` casts and validates a
  request body into a reaction. `reactionBody` and `username` are required,
  and a required string fails when missing or empty. An omitted `reactionId`
  takes a fresh identifier and an omitted `createdAt` takes the clock value.
  A supplied reaction id that is ill-formed makes the reaction fail
  validation.
- `Documents` (`documents.dfy`) holds the `User` and `Thought` documents,
  the request bodies and patches, and the `Response` (status plus body). It
  also holds the `Store` class: a map of users, a map of thoughts, and a
  counter that supplies fresh identifiers. The thought and user schemas are
  not part of this model, so their per-field validators are fixed, abstract
  `string -> bool` predicates held by the store.
- `ThoughtController` (`thought_controller.dfy`) and `UserController`
  (`user_controller.dfy`) have one handler per route. Each handler that
  changes the store is a method with `modifies db`. Its postcondition gives
  the response and the whole new store for every outcome: 400 (ill-formed
  identifier), 500 (failed validation, or the undefined name in
  `deleteThought`), 404 (document absent) and 200. Every 400 outcome, every
  500 from validation, and every 404 except `createThought`'s leaves the store
  `unchanged`. `createThought`'s 404 comes after the new thought is stored,
  so it keeps that orphaned thought and advances the id supply. The read-only
  handlers are functions, or methods without `modifies`.
- The friend-count aggregate is `UserController.TotalFriends`. It is the
  number of elements over every user's `friends` array, which is what
  unwinding the arrays and counting the results gives. `FriendCount` computes
  it with a loop over the users collection. The lemmas show it does not
  depend on scan order, is 0 exactly when nobody has friends, bounds every
  single user's degree, and changes by exactly one or zero on `addFriend`.
- `Scenarios` (`scenarios.dfy`) runs request sequences on a fresh store.
  They show the cascade on user deletion, the orphaned thought, the dangling
  reference left by thought deletion, and one-way friendship.

Behaviour of the code that the model keeps as written:

- A missing required field gives 500 in the code, not 400. Only the
  identifier check answers 400; schema failures reach the catch-all.
- `deleteThought` neither deletes reactions separately nor unlinks the
  thought from its owner. It removes the thought and then refers to the
  undefined name `Recation` (controllers/thoughtController.js:68). The
  handler therefore always answers 500 after a successful removal, and
  users' thought lists keep the removed identifier.
- With validators on, Mongoose validates an update before it runs the query.
  So a patch or reaction that fails validation gives 500 even when the target
  document is absent. The order of checks is: identifier (400), then
  validation (500), then existence (404).
- `getSingleUser` computes the count before it checks that the user exists.
  The computation only reads, so no outcome depends on this order. The count
  it returns is the global one, not the user's own degree.

## Model

| member | source | states |
|---|---|---|
| UpdateOperators.AddToSet | controllers/userController.js:109-113 | `$addToSet`: the value is in the result; the members are the old ones plus the value; the old array is a prefix; the length grows by one exactly when the value was absent; a duplicate-free array stays duplicate-free |
| UpdateOperators.AddToSetIdempotent | controllers/userController.js:109-113 | adding the same friend twice gives the same list as adding once |
| UpdateOperators.PullWhere | controllers/thoughtController.js:131-135 | `$pull` with a condition: the result holds exactly the elements that do not match, and is no longer than the input |
| UpdateOperators.PullWhereLength | controllers/thoughtController.js:131-135 | a pull shortens the array by exactly the number of matching elements |
| UpdateOperators.PullWhereAppend | controllers/thoughtController.js:131-135 | pulling from a concatenation is concatenating the pulls, so the kept elements keep their relative order |
| UpdateOperators.PullWhereNoMatch | controllers/thoughtController.js:131-135 | when no element matches, the array is unchanged |
| UpdateOperators.PullWhereIdempotent | controllers/thoughtController.js:131-135 | pulling twice with one condition equals pulling once |
| UpdateOperators.PullValue | controllers/userController.js:133-137 | `$pull` of a value: afterwards the value is absent, and every other element is kept |
| UpdateOperators.PullValueIdempotent | controllers/userController.js:133-137 | removing the same friend twice equals removing once |
| UpdateOperators.PullAfterAddToSet | controllers/userController.js:109-137 | removing a friend right after adding it equals removing it alone; when the friend was absent, the original list is restored |
| UpdateOperators.OverwriteTwice | controllers/thoughtController.js:81-85 | two `$set`s of one path in a row equal one `$set` with the later value when it is supplied, else the earlier one |
| ReactionSchema.Build | models/reaction.js:4-27 | a reaction is accepted exactly when its id is not ill-formed and its body and username are present and non-empty; an accepted reaction is valid and carries the supplied fields; an omitted reactionId becomes the fresh id, an omitted createdAt the clock value |
| ReactionSchema.BuildRoundTrip | models/reaction.js:4-27 | a valid reaction with every field supplied builds back to itself |
| Documents.SetThought | controllers/thoughtController.js:81-85 | a thought patch replaces exactly the supplied fields; creation time and reactions are kept |
| Documents.SetUser | controllers/userController.js:85-89 | a user patch replaces exactly the supplied fields; the thought and friend lists are kept |
| Documents.SetThoughtIdempotent | controllers/thoughtController.js:81-85 | applying a thought patch twice equals applying it once |
| Documents.SetUserIdempotent | controllers/userController.js:85-89 | applying a user patch twice equals applying it once |
| Documents.SetThoughtTwice | controllers/thoughtController.js:81-85 | two thought updates in a row equal one update with the merged patch, the later patch winning field by field |
| Documents.SetUserTwice | controllers/userController.js:85-89 | two user updates in a row equal one update with the merged patch, the later patch winning field by field |
| Documents.Store.FreshId | controllers/thoughtController.js:39 | the generated identifier is used by no stored user or thought; the collections are unchanged |
| ThoughtController.PullReaction | controllers/thoughtController.js:131-135 | every reaction with the given reactionId is removed; every other reaction is kept; the length drops by the number of matches; with no match the list is unchanged |
| ThoughtController.PullReactionAppend | controllers/thoughtController.js:131-135 | the surviving reactions keep their relative order |
| ThoughtController.PullReactionIdempotent | controllers/thoughtController.js:131-135 | pulling one reactionId twice equals pulling it once |
| ThoughtController.PullPushedReaction | controllers/thoughtController.js:104-135 | pulling the id of a just-pushed reaction removes it together with every earlier reaction that has the same reactionId |
| ThoughtController.GetThoughts | controllers/thoughtController.js:5-13 | answers 200 with every stored thought; a function, so the store is not changed |
| ThoughtController.GetSingleThought | controllers/thoughtController.js:14-32 | 400 with "Invalid thought ID" exactly for an ill-formed id, 404 with "No thought with that ID" exactly for an absent thought, 200 with that thought otherwise; read-only |
| ThoughtController.CreateThought | controllers/thoughtController.js:33-55 | ill-formed userId gives 400 and no change; a body failing validation gives 500 and no change; otherwise the thought (the supplied text and username, the clock value, no reactions) is stored under a fresh id and can then be fetched with 200; an existing user gets that id appended to its list and the answer is 200 with the thought; a missing user gives 404, the thought stays stored, no user record changes and no user lists it |
| ThoughtController.DeleteThought | controllers/thoughtController.js:56-74 | ill-formed id gives 400 and no change; an absent thought gives 404 and no change; a present one is removed, users are untouched (dangling references stay) and the answer is 500 |
| ThoughtController.UpdateThought | controllers/thoughtController.js:75-96 | ill-formed id gives 400, a patch that sets a path to an empty or refused value gives 500, an absent thought gives 404, all with no change; otherwise only the supplied fields of that thought change and the answer is 200 with the updated thought |
| ThoughtController.AddReaction | controllers/thoughtController.js:97-121 | ill-formed id gives 400; a reaction that fails validation (an ill-formed `reactionId` included) gives 500; an absent thought gives 404, all with no change; otherwise the reaction list grows by exactly one, earlier reactions are unchanged and the built reaction is last |
| ThoughtController.RemoveReaction | controllers/thoughtController.js:122-148 | either id ill-formed gives 400; an absent thought gives 404, both with no change; otherwise that thought's reactions become the pull of the reactionId and nothing else changes |
| UserController.TotalFriendsRemove | controllers/userController.js:4-10 | the aggregate is one user's friend-list length plus the aggregate over the others, whichever user is taken |
| UserController.TotalFriendsZero | controllers/userController.js:4-10 | the aggregate is 0 exactly when no user has friends |
| UserController.DegreeAtMostTotal | controllers/userController.js:4-10 | one user's friend-list length never exceeds the global count |
| UserController.TotalFriendsUpdate | controllers/userController.js:4-10 | replacing one user changes the count by the change in that user's friend-list length |
| UserController.TotalFriendsNewUser | controllers/userController.js:51-59 | creating a user leaves the global friend count unchanged |
| UserController.TotalFriendsAddFriend | controllers/userController.js:105-119 | adding a friend raises the global count by one when the friend was absent and leaves it unchanged otherwise |
| UserController.FriendCount | controllers/userController.js:4-10 | the computed count is the sum, over all users, of the length of each friends list |
| UserController.RemoveOwned | controllers/userController.js:72 | the remaining thoughts are exactly those whose ids are not in the deleted user's list, each unchanged |
| UserController.GetUsers | controllers/userController.js:13-26 | answers 200 with every user and the global friend count; changes nothing |
| UserController.GetSingleUser | controllers/userController.js:27-50 | 400 exactly for an ill-formed id, 404 exactly for an absent user, otherwise 200 with that user and the global count (not the user's own degree); changes nothing |
| UserController.CreateUser | controllers/userController.js:51-59 | a body failing validation gives 500 and no change; otherwise a user with empty lists is stored under a fresh id and returned |
| UserController.DeleteUser | controllers/userController.js:60-78 | ill-formed id gives 400 and an absent user 404, both with no change; otherwise the user is removed, exactly the thoughts in its list are removed, and every other user, including any friend list naming the deleted id, is unchanged |
| UserController.UpdateUser | controllers/userController.js:79-100 | ill-formed id gives 400, a patch that sets a path to an empty or refused value gives 500, an absent user gives 404, all with no change; otherwise only the supplied fields of that user change |
| UserController.AddFriend | controllers/userController.js:101-124 | either id ill-formed gives 400 and an absent user 404, both with no change; otherwise only that user's friend list changes, by add-to-set; the friend need not exist and is not touched |
| UserController.RemoveFriend | controllers/userController.js:125-148 | either id ill-formed gives 400 and an absent user 404, both with no change; otherwise only that user's friend list changes, losing every occurrence of the friend id |
| Scenarios.DeleteUserTakesThoughts | controllers/userController.js:60-78 | create a user, post a thought for them, delete the user: the thought is then not found |
| Scenarios.OrphanThought | controllers/thoughtController.js:33-55 | posting for a missing user answers 404, yet the thought can be fetched |
| Scenarios.DanglingThoughtReference | controllers/thoughtController.js:56-74 | deleting a thought answers 500, the thought is gone, and its author still lists its id |
| Scenarios.FriendshipIsOneWay | controllers/userController.js:101-124 | after alice adds bob twice, alice's friend list is exactly `[bob]`, bob lists nobody, and the global count is 1 |

## Left out

- routes/api/userRoutes.js is only a route table, so the model has no routing. Handlers are called directly, with their path parameters and body as arguments.
- The Express request and response objects, `console.error` logging and JSON serialisation are left out. A response is a status plus a `Body` value, and a raw error object is reduced to its `ErrorKind`.
- The identifier parser's rules are abstracted. A request identifier arrives already classified as `WellFormed(id)` or `IllFormed`, and casting a well-formed one is assumed to succeed.
- The thought and user schemas (models/thought.js, models/user.js) are not part of this model. The model assumes that four paths are required strings: a thought's `thoughtText` and `username`, and a user's `username` and `email`. A missing or empty value on one of them gives 500, on creation and also when an update sets that path, since updates run with validators. Every other check those schemas make, such as length bounds or the email format, is an abstract per-field predicate. Their unique index on `username` is not modelled, so a duplicate username is not turned into a 500.
- A request body is limited to the fields the model names. Any other field it may carry is not modelled: a thought's `createdAt` or `reactions` on create, a user's `thoughts` and `friends` on create, or the `thoughts` and `friends` arrays in a `$set`. A user created with a `friends` array would start with friends. So `CreateUser`'s empty lists and `TotalFriendsNewUser` hold only because a creation body carries no arrays.
- `populate` joins are not modelled: reads return the stored identifier lists, not the joined thought documents.
- Only the result of the aggregation pipeline is modelled, not its stages.
- Identifier generation and `Date.now` are abstracted. Fresh identifiers come from the store's counter `nextId`, and the clock is a `now` parameter.
- The 280-character bound on `reactionBody` is not modelled. It is declared as `max_length`, which is not a string validator option, so it is not enforced.
- Failures of the store itself are not modelled: lost connections, write errors, or a casting failure other than a reaction's `reactionId`. The only 500 answers in the model come from validation and from the undefined name in `deleteThought`.
- The model assumes a store driver that still provides `findOneAndRemove` (controllers/thoughtController.js:62). With a driver that has dropped that method, the call throws before anything is removed, and `deleteThought` answers 500 with no change.
- The error kind reported for a reaction whose `reactionId` does not cast is assumed to be a validation error. The exact error object the catch-all serialises is not modelled.
- Concurrency is left out. Each handler runs as one step with no interleaving, so intermediate states of two-step handlers (create-then-link, delete-then-cascade) are not observable.
- ReactionSchema.Build: when a reaction lacks both its body and its username, it reports only the missing body. The store's validation error would name both paths.
- UserController.FriendCount: the order in which the loop visits users is left open; the lemmas prove the result does not depend on it.
