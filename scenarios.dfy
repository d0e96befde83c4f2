/** Request sequences run against a fresh store, showing what callers can
    conclude from the handlers' contracts alone. */
module Scenarios {
  import opened Common
  import opened Documents
  import ThoughtController
  import UserController

  /** Create alice, post a thought for her, delete her: the thought goes
      with her. */
  method DeleteUserTakesThoughts(ts: ThoughtSchema, us: UserSchema, now: Time) returns (statuses: seq<int>)
    requires us.usernameOk("alice") && us.emailOk("a@x.com")
    requires ts.thoughtTextOk("hi") && ts.usernameOk("alice")
    ensures statuses == [StatusOk, StatusOk, StatusOk, StatusNotFound]
  {
    var db := new Store(ts, us);
    var created := UserController.CreateUser(db, UserInput(Some("alice"), Some("a@x.com")));
    var alice := created.body.userId;
    var posted := ThoughtController.CreateThought(db, ThoughtInput(Some("hi"), Some("alice"), WellFormed(alice)), now);
    var thought := posted.body.thoughtId;
    var deleted := UserController.DeleteUser(db, WellFormed(alice));
    var fetched := ThoughtController.GetSingleThought(db, WellFormed(thought));
    statuses := [created.status, posted.status, deleted.status, fetched.status];
  }

  /** Posting a thought for a user that does not exist answers 404, yet
      the thought is stored and can be fetched, listed by nobody. */
  method OrphanThought(ts: ThoughtSchema, us: UserSchema, now: Time, missing: Id) returns (posted: Response, fetched: Response)
    requires ts.thoughtTextOk("hi") && ts.usernameOk("bob")
    ensures posted.status == StatusNotFound
    ensures fetched.status == StatusOk
    ensures fetched.body == ThoughtDoc(0, Thought("hi", "bob", now, []))
  {
    var db := new Store(ts, us);
    posted := ThoughtController.CreateThought(db, ThoughtInput(Some("hi"), Some("bob"), WellFormed(missing)), now);
    fetched := ThoughtController.GetSingleThought(db, WellFormed(0));
  }

  /** Deleting a thought removes it but answers 500, and its author still
      lists its identifier. */
  method DanglingThoughtReference(ts: ThoughtSchema, us: UserSchema, now: Time) returns (deleted: Response, fetched: Response, stillListed: bool)
    requires us.usernameOk("alice") && us.emailOk("a@x.com")
    requires ts.thoughtTextOk("hi") && ts.usernameOk("alice")
    ensures deleted.status == StatusServerError
    ensures fetched.status == StatusNotFound
    ensures stillListed
  {
    var db := new Store(ts, us);
    var created := UserController.CreateUser(db, UserInput(Some("alice"), Some("a@x.com")));
    var alice := created.body.userId;
    var posted := ThoughtController.CreateThought(db, ThoughtInput(Some("hi"), Some("alice"), WellFormed(alice)), now);
    var thought := posted.body.thoughtId;
    deleted := ThoughtController.DeleteThought(db, WellFormed(thought));
    fetched := ThoughtController.GetSingleThought(db, WellFormed(thought));
    stillListed := thought in db.users[alice].thoughts;
  }

  /** Friendship is directed: alice adding bob leaves bob's list empty,
      and adding twice lists bob once. */
  method FriendshipIsOneWay(ts: ThoughtSchema, us: UserSchema) returns (bob: Id, aliceFriends: seq<Id>, bobFriends: seq<Id>, count: nat)
    requires us.usernameOk("alice") && us.emailOk("a@x.com")
    requires us.usernameOk("bob") && us.emailOk("b@x.com")
    ensures aliceFriends == [bob] && bobFriends == [] && count == 1
  {
    var db := new Store(ts, us);
    var a := UserController.CreateUser(db, UserInput(Some("alice"), Some("a@x.com")));
    var b := UserController.CreateUser(db, UserInput(Some("bob"), Some("b@x.com")));
    var alice := a.body.userId;
    bob := b.body.userId;
    var _ := UserController.AddFriend(db, WellFormed(alice), WellFormed(bob));
    var _ := UserController.AddFriend(db, WellFormed(alice), WellFormed(bob));
    aliceFriends, bobFriends := db.users[alice].friends, db.users[bob].friends;
    count := UserController.FriendCount(db);
    UserController.TotalFriendsRemove(db.users, alice);
    UserController.TotalFriendsRemove(db.users - {alice}, bob);
    assert db.users - {alice} - {bob} == map[];
  }
}
