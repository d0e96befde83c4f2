/** The user handlers and the friend-count aggregate they report. */
module UserController {
  import opened Common
  import opened UpdateOperators
  import opened Documents

  /** Some key of a non-empty collection (the order of a scan does not matter). */
  ghost function AnyUser(users: map<Id, User>): (k: Id)
    requires users != map[]
    ensures k in users
  {
    var k :| k in users; k
  }

  /** What the aggregate computes: one document per element of every
      user's `friends` array, counted; 0 when there is none. A sum over
      all users, not the degree of one user. */
  ghost function TotalFriends(users: map<Id, User>): nat
    decreases |users|
  {
    if users == map[] then 0
    else
      var k := AnyUser(users);
      assert (users - {k}).Keys == users.Keys - {k};
      |users[k].friends| + TotalFriends(users - {k})
  }

  /** The sum does not depend on which user is taken first. */
  lemma {:induction false} TotalFriendsRemove(users: map<Id, User>, k: Id)
    requires k in users
    ensures TotalFriends(users) == |users[k].friends| + TotalFriends(users - {k})
    decreases |users|
  {
    var j := AnyUser(users);
    if j != k {
      assert (users - {j}).Keys == users.Keys - {j};
      assert (users - {k}).Keys == users.Keys - {k};
      TotalFriendsRemove(users - {j}, k);
      TotalFriendsRemove(users - {k}, j);
      assert users - {j} - {k} == users - {k} - {j};
    }
  }

  /** The count is zero exactly when no user has a friend. */
  lemma {:induction false} TotalFriendsZero(users: map<Id, User>)
    ensures TotalFriends(users) == 0 <==> forall k :: k in users ==> users[k].friends == []
    decreases |users|
  {
    if users != map[] {
      var j := AnyUser(users);
      assert (users - {j}).Keys == users.Keys - {j};
      TotalFriendsZero(users - {j});
      if TotalFriends(users) == 0 {
        forall k | k in users ensures users[k].friends == [] {
          if k != j { assert k in users - {j}; }
        }
      }
    }
  }

  /** One user's degree never exceeds the global count. */
  lemma DegreeAtMostTotal(users: map<Id, User>, k: Id)
    requires k in users
    ensures |users[k].friends| <= TotalFriends(users)
  {
    TotalFriendsRemove(users, k);
  }

  /** Replacing one stored user changes the count by the change in that
      user's degree. */
  lemma TotalFriendsUpdate(users: map<Id, User>, k: Id, u: User)
    requires k in users
    ensures TotalFriends(users[k := u]) + |users[k].friends| == TotalFriends(users) + |u.friends|
  {
    TotalFriendsRemove(users, k);
    TotalFriendsRemove(users[k := u], k);
    assert users[k := u] - {k} == users - {k};
  }

  /** Creating a user leaves the count as it was: a new user has no friends. */
  lemma TotalFriendsNewUser(users: map<Id, User>, id: Id, input: UserInput)
    requires id !in users
    requires input.username.Some? && input.email.Some?
    ensures TotalFriends(users[id := NewUser(input)]) == TotalFriends(users)
  {
    TotalFriendsRemove(users[id := NewUser(input)], id);
    assert users[id := NewUser(input)] - {id} == users;
  }

  /** Adding a friend raises the count by one, or leaves it when the friend
      was already listed. */
  lemma TotalFriendsAddFriend(users: map<Id, User>, k: Id, friend: Id)
    requires k in users
    ensures var u := users[k].(friends := AddToSet(users[k].friends, friend));
            TotalFriends(users[k := u]) == TotalFriends(users) + (if friend in users[k].friends then 0 else 1)
  {
    var u := users[k].(friends := AddToSet(users[k].friends, friend));
    TotalFriendsUpdate(users, k, u);
  }

  /** The `friendCount` aggregate: scans the users collection and counts
      every element of every `friends` array. */
  method FriendCount(db: Store) returns (count: nat)
    ensures count == TotalFriends(db.users)
  {
    var all := db.users;
    var rest := all;
    count := 0;
    while rest != map[]
      invariant count + TotalFriends(rest) == TotalFriends(all)
      decreases |rest|
    {
      var k :| k in rest;
      TotalFriendsRemove(rest, k);
      assert (rest - {k}).Keys == rest.Keys - {k};
      count := count + |rest[k].friends|;
      rest := rest - {k};
    }
  }

  /** The thoughts that remain after removing every thought whose
      identifier is in `owned`: the others, untouched. */
  function RemoveOwned(thoughts: map<Id, Thought>, owned: seq<Id>): (r: map<Id, Thought>)
    ensures forall k :: k in r <==> k in thoughts && k !in owned
    ensures forall k :: k in r ==> r[k] == thoughts[k]
  {
    map k | k in thoughts && k !in owned :: thoughts[k]
  }

  /** `GET /users`: every user, with the global friend count. */
  method GetUsers(db: Store) returns (res: Response)
    ensures res == Response(StatusOk, UsersWithCount(db.users, TotalFriends(db.users)))
  {
    var count := FriendCount(db);
    res := Response(StatusOk, UsersWithCount(db.users, count));
  }

  /** `GET /users/:userId`. The count is taken before the user is known
      to exist; it is the count over all users, not this user's degree. */
  method GetSingleUser(db: Store, userId: IdParam) returns (res: Response)
    ensures res.status == StatusBadRequest <==> userId.IllFormed?
    ensures res.status == StatusNotFound <==> userId.WellFormed? && userId.id !in db.users
    ensures res.status == StatusOk <==> userId.WellFormed? && userId.id in db.users
    ensures userId.IllFormed? ==> res.body == Message("Invalid user ID")
    ensures res.status == StatusNotFound ==> res.body == Message("No user with that ID")
    ensures res.status == StatusOk ==>
      res.body == UserWithCount(userId.id, db.users[userId.id], TotalFriends(db.users))
  {
    if userId.IllFormed? {
      return Response(StatusBadRequest, Message("Invalid user ID"));
    }
    var id := userId.id;
    var found := if id in db.users then Some(db.users[id]) else None;
    var count := FriendCount(db);
    if found.None? {
      return Response(StatusNotFound, Message("No user with that ID"));
    }
    res := Response(StatusOk, UserWithCount(id, found.value, count));
  }

  /** `POST /users`: a failed validation is caught as a server error. */
  method CreateUser(db: Store, input: UserInput) returns (res: Response)
    requires db.Valid()
    modifies db
    ensures db.Valid()
    ensures !UserAccepted(db.userSchema, input) ==>
      res == Response(StatusServerError, ServerError(ValidationError)) && unchanged(db)
    ensures UserAccepted(db.userSchema, input) ==>
      var id, u := old(db.nextId), NewUser(input);
      && id !in old(db.users)
      && res == Response(StatusOk, UserDoc(id, u))
      && db.users == old(db.users)[id := u]
      && db.thoughts == old(db.thoughts)
      && db.nextId == id + 1
  {
    if !UserAccepted(db.userSchema, input) {
      return Response(StatusServerError, ServerError(ValidationError));
    }
    var u := NewUser(input);
    var id := db.FreshId();
    db.users := db.users[id := u];
    res := Response(StatusOk, UserDoc(id, u));
  }

  /** `DELETE /users/:userId`. The user goes first, then exactly the
      thoughts its own list names. No other user is touched, so friend
      lists naming the deleted user keep a dangling identifier. */
  method DeleteUser(db: Store, userId: IdParam) returns (res: Response)
    requires db.Valid()
    modifies db
    ensures db.Valid()
    ensures userId.IllFormed? ==>
      res == Response(StatusBadRequest, Message("Invalid user ID")) && unchanged(db)
    ensures userId.WellFormed? && userId.id !in old(db.users) ==>
      res == Response(StatusNotFound, Message("No such user exists")) && unchanged(db)
    ensures userId.WellFormed? && userId.id in old(db.users) ==>
      var id := userId.id;
      && res == Response(StatusOk, Message("User successfully deleted"))
      && db.users == old(db.users) - {id}
      && db.thoughts == RemoveOwned(old(db.thoughts), old(db.users)[id].thoughts)
      && db.nextId == old(db.nextId)
  {
    if userId.IllFormed? {
      return Response(StatusBadRequest, Message("Invalid user ID"));
    }
    var id := userId.id;
    if id !in db.users {
      return Response(StatusNotFound, Message("No such user exists"));
    }
    var user := db.users[id];
    db.users := db.users - {id};
    db.thoughts := RemoveOwned(db.thoughts, user.thoughts);
    res := Response(StatusOk, Message("User successfully deleted"));
  }

  /** `PUT /users/:userId`. The patch is validated before the user is
      looked up. */
  method UpdateUser(db: Store, userId: IdParam, patch: UserPatch) returns (res: Response)
    requires db.Valid()
    modifies db
    ensures db.Valid()
    ensures userId.IllFormed? ==>
      res == Response(StatusBadRequest, Message("Invalid user ID")) && unchanged(db)
    ensures userId.WellFormed? && !UserPatchAccepted(db.userSchema, patch) ==>
      res == Response(StatusServerError, ServerError(ValidationError)) && unchanged(db)
    ensures userId.WellFormed? && UserPatchAccepted(db.userSchema, patch) && userId.id !in old(db.users) ==>
      res == Response(StatusNotFound, Message("No user with this id!")) && unchanged(db)
    ensures userId.WellFormed? && UserPatchAccepted(db.userSchema, patch) && userId.id in old(db.users) ==>
      var id := userId.id;
      var u := SetUser(old(db.users)[id], patch);
      && res == Response(StatusOk, UserDoc(id, u))
      && db.users == old(db.users)[id := u]
      && db.thoughts == old(db.thoughts) && db.nextId == old(db.nextId)
  {
    if userId.IllFormed? {
      return Response(StatusBadRequest, Message("Invalid user ID"));
    }
    var id := userId.id;
    if !UserPatchAccepted(db.userSchema, patch) {
      return Response(StatusServerError, ServerError(ValidationError));
    }
    if id !in db.users {
      return Response(StatusNotFound, Message("No user with this id!"));
    }
    var u := SetUser(db.users[id], patch);
    db.users := db.users[id := u];
    res := Response(StatusOk, UserDoc(id, u));
  }

  /** `PUT /users/:userId/friends/:friendId`: only the initiating user's
      list changes; the friend need not exist and is never touched. */
  method AddFriend(db: Store, userId: IdParam, friendId: IdParam) returns (res: Response)
    requires db.Valid()
    modifies db
    ensures db.Valid()
    ensures userId.IllFormed? || friendId.IllFormed? ==>
      res == Response(StatusBadRequest, Message("Invalid user or friend ID")) && unchanged(db)
    ensures userId.WellFormed? && friendId.WellFormed? && userId.id !in old(db.users) ==>
      res == Response(StatusNotFound, Message("No user with that ID")) && unchanged(db)
    ensures userId.WellFormed? && friendId.WellFormed? && userId.id in old(db.users) ==>
      var id := userId.id;
      var u := old(db.users)[id].(friends := AddToSet(old(db.users)[id].friends, friendId.id));
      && res == Response(StatusOk, UserDoc(id, u))
      && db.users == old(db.users)[id := u]
      && db.thoughts == old(db.thoughts) && db.nextId == old(db.nextId)
  {
    if userId.IllFormed? || friendId.IllFormed? {
      return Response(StatusBadRequest, Message("Invalid user or friend ID"));
    }
    var id := userId.id;
    if id !in db.users {
      return Response(StatusNotFound, Message("No user with that ID"));
    }
    var u := db.users[id].(friends := AddToSet(db.users[id].friends, friendId.id));
    db.users := db.users[id := u];
    res := Response(StatusOk, UserDoc(id, u));
  }

  /** `DELETE /users/:userId/friends/:friendId`: every occurrence of the
      friend's identifier leaves the initiating user's list. */
  method RemoveFriend(db: Store, userId: IdParam, friendId: IdParam) returns (res: Response)
    requires db.Valid()
    modifies db
    ensures db.Valid()
    ensures userId.IllFormed? || friendId.IllFormed? ==>
      res == Response(StatusBadRequest, Message("Invalid user or friend ID")) && unchanged(db)
    ensures userId.WellFormed? && friendId.WellFormed? && userId.id !in old(db.users) ==>
      res == Response(StatusNotFound, Message("No user with that ID")) && unchanged(db)
    ensures userId.WellFormed? && friendId.WellFormed? && userId.id in old(db.users) ==>
      var id := userId.id;
      var u := old(db.users)[id].(friends := PullValue(old(db.users)[id].friends, friendId.id));
      && res == Response(StatusOk, UserDoc(id, u))
      && db.users == old(db.users)[id := u]
      && db.thoughts == old(db.thoughts) && db.nextId == old(db.nextId)
  {
    if userId.IllFormed? || friendId.IllFormed? {
      return Response(StatusBadRequest, Message("Invalid user or friend ID"));
    }
    var id := userId.id;
    if id !in db.users {
      return Response(StatusNotFound, Message("No user with that ID"));
    }
    var u := db.users[id].(friends := PullValue(db.users[id].friends, friendId.id));
    db.users := db.users[id := u];
    res := Response(StatusOk, UserDoc(id, u));
  }
}
