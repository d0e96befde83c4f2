/** The thought handlers. Each checks the identifier it is given, makes
    one or two changes to the store and then reports a missing document;
    every other failure is reported by a catch-all as a server error. */
module ThoughtController {
  import opened Common
  import opened UpdateOperators
  import opened ReactionSchema
  import opened Documents

  /** `$pull` of the reactions whose `reactionId` is `rid`. */
  function PullReaction(rs: seq<Reaction>, rid: Id): (r: seq<Reaction>)
    ensures forall x :: x in r ==> x.reactionId != rid
    ensures forall x :: x in rs && x.reactionId != rid ==> x in r
    ensures forall x :: x in r ==> x in rs
    ensures |r| == |rs| - CountWhere(rs, (x: Reaction) => x.reactionId == rid)
    ensures (forall x :: x in rs ==> x.reactionId != rid) ==> r == rs
  {
    var matches := (x: Reaction) => x.reactionId == rid;
    PullWhereLength(rs, matches);
    PullWhereNoMatch(rs, matches);
    PullWhere(rs, matches)
  }

  /** Reactions are pulled one by one: the pull of a concatenation is the
      concatenation of the pulls, so the survivors keep their order. */
  lemma PullReactionAppend(a: seq<Reaction>, b: seq<Reaction>, rid: Id)
    ensures PullReaction(a + b, rid) == PullReaction(a, rid) + PullReaction(b, rid)
  {
    PullWhereAppend(a, b, (x: Reaction) => x.reactionId == rid);
  }

  /** Pulling the same reaction id twice is pulling it once. */
  lemma PullReactionIdempotent(rs: seq<Reaction>, rid: Id)
    ensures PullReaction(PullReaction(rs, rid), rid) == PullReaction(rs, rid)
  {
  }

  /** Pushing a reaction and then pulling its id removes it again, and
      with it every earlier reaction carrying the same id: the match is on
      `reactionId` alone. */
  lemma PullPushedReaction(rs: seq<Reaction>, r: Reaction)
    ensures PullReaction(rs + [r], r.reactionId) == PullReaction(rs, r.reactionId)
  {
    PullReactionAppend(rs, [r], r.reactionId);
  }

  /** `GET /thoughts`: every stored thought. */
  function GetThoughts(db: Store): (res: Response)
    reads db
    ensures res.status == StatusOk
    ensures res.body.ThoughtList? && res.body.thoughts == db.thoughts
  {
    Response(StatusOk, ThoughtList(db.thoughts))
  }

  /** `GET /thoughts/:thoughtId`. */
  function GetSingleThought(db: Store, thoughtId: IdParam): (res: Response)
    reads db
    ensures res.status == StatusBadRequest <==> thoughtId.IllFormed?
    ensures res.status == StatusNotFound <==> thoughtId.WellFormed? && thoughtId.id !in db.thoughts
    ensures res.status == StatusOk <==> thoughtId.WellFormed? && thoughtId.id in db.thoughts
    ensures thoughtId.IllFormed? ==> res.body == Message("Invalid thought ID")
    ensures res.status == StatusNotFound ==> res.body == Message("No thought with that ID")
    ensures res.status == StatusOk ==> res.body == ThoughtDoc(thoughtId.id, db.thoughts[thoughtId.id])
  {
    match thoughtId
    case IllFormed => Response(StatusBadRequest, Message("Invalid thought ID"))
    case WellFormed(id) =>
      if id !in db.thoughts then Response(StatusNotFound, Message("No thought with that ID"))
      else Response(StatusOk, ThoughtDoc(id, db.thoughts[id]))
  }

  /** `POST /thoughts`. The thought is stored before its author is looked
      up and is not taken back when the author is missing: it is then
      listed by no user. */
  method CreateThought(db: Store, input: ThoughtInput, now: Time) returns (res: Response)
    requires db.Valid()
    modifies db
    ensures db.Valid()
    ensures input.userId.IllFormed? ==>
      res == Response(StatusBadRequest, Message("Invalid user ID")) && unchanged(db)
    ensures input.userId.WellFormed? && !ThoughtAccepted(db.thoughtSchema, input) ==>
      res == Response(StatusServerError, ServerError(ValidationError)) && unchanged(db)
    ensures input.userId.WellFormed? && ThoughtAccepted(db.thoughtSchema, input) ==>
      var id, uid, t := old(db.nextId), input.userId.id, NewThought(input, now);
      && id !in old(db.thoughts)
      && db.thoughts == old(db.thoughts)[id := t]
      && db.nextId == id + 1
      && GetSingleThought(db, WellFormed(id)) == Response(StatusOk, ThoughtDoc(id, t))
      && (uid in old(db.users) ==>
            && res == Response(StatusOk, ThoughtDoc(id, t))
            && db.users == old(db.users)[uid := old(db.users)[uid].(thoughts := old(db.users)[uid].thoughts + [id])])
      && (uid !in old(db.users) ==>
            && res == Response(StatusNotFound, Message("Thought created but no user with that ID found"))
            && db.users == old(db.users)
            && forall k :: k in db.users ==> id !in db.users[k].thoughts)
  {
    if input.userId.IllFormed? {
      return Response(StatusBadRequest, Message("Invalid user ID"));
    }
    var uid := input.userId.id;
    if !ThoughtAccepted(db.thoughtSchema, input) {
      return Response(StatusServerError, ServerError(ValidationError));
    }
    var t := NewThought(input, now);
    var id := db.FreshId();
    db.thoughts := db.thoughts[id := t];
    if uid !in db.users {
      return Response(StatusNotFound, Message("Thought created but no user with that ID found"));
    }
    var u := db.users[uid];
    db.users := db.users[uid := u.(thoughts := u.thoughts + [id])];
    res := Response(StatusOk, ThoughtDoc(id, t));
  }

  /** `DELETE /thoughts/:thoughtId`. After the thought is removed the
      handler refers to an undefined name, so every successful removal is
      answered with a server error; no user's thought list is cleaned, so a
      user that listed the thought keeps a dangling identifier. */
  method DeleteThought(db: Store, thoughtId: IdParam) returns (res: Response)
    requires db.Valid()
    modifies db
    ensures db.Valid()
    ensures thoughtId.IllFormed? ==>
      res == Response(StatusBadRequest, Message("Invalid thought ID")) && unchanged(db)
    ensures thoughtId.WellFormed? && thoughtId.id !in old(db.thoughts) ==>
      res == Response(StatusNotFound, Message("No such thought exists")) && unchanged(db)
    ensures thoughtId.WellFormed? && thoughtId.id in old(db.thoughts) ==>
      && res == Response(StatusServerError, ServerError(ReferenceError))
      && db.thoughts == old(db.thoughts) - {thoughtId.id}
      && db.users == old(db.users)
      && db.nextId == old(db.nextId)
  {
    if thoughtId.IllFormed? {
      return Response(StatusBadRequest, Message("Invalid thought ID"));
    }
    var id := thoughtId.id;
    if id !in db.thoughts {
      return Response(StatusNotFound, Message("No such thought exists"));
    }
    db.thoughts := db.thoughts - {id};
    res := Response(StatusServerError, ServerError(ReferenceError));
  }

  /** `PUT /thoughts/:thoughtId`. The patch is validated before the
      thought is looked up. */
  method UpdateThought(db: Store, thoughtId: IdParam, patch: ThoughtPatch) returns (res: Response)
    requires db.Valid()
    modifies db
    ensures db.Valid()
    ensures thoughtId.IllFormed? ==>
      res == Response(StatusBadRequest, Message("Invalid thought ID")) && unchanged(db)
    ensures thoughtId.WellFormed? && !ThoughtPatchAccepted(db.thoughtSchema, patch) ==>
      res == Response(StatusServerError, ServerError(ValidationError)) && unchanged(db)
    ensures thoughtId.WellFormed? && ThoughtPatchAccepted(db.thoughtSchema, patch) && thoughtId.id !in old(db.thoughts) ==>
      res == Response(StatusNotFound, Message("No thought with this id!")) && unchanged(db)
    ensures thoughtId.WellFormed? && ThoughtPatchAccepted(db.thoughtSchema, patch) && thoughtId.id in old(db.thoughts) ==>
      var id := thoughtId.id;
      var t := SetThought(old(db.thoughts)[id], patch);
      && res == Response(StatusOk, ThoughtDoc(id, t))
      && db.thoughts == old(db.thoughts)[id := t]
      && db.users == old(db.users) && db.nextId == old(db.nextId)
  {
    if thoughtId.IllFormed? {
      return Response(StatusBadRequest, Message("Invalid thought ID"));
    }
    var id := thoughtId.id;
    if !ThoughtPatchAccepted(db.thoughtSchema, patch) {
      return Response(StatusServerError, ServerError(ValidationError));
    }
    if id !in db.thoughts {
      return Response(StatusNotFound, Message("No thought with this id!"));
    }
    var t := SetThought(db.thoughts[id], patch);
    db.thoughts := db.thoughts[id := t];
    res := Response(StatusOk, ThoughtDoc(id, t));
  }

  /** `POST /thoughts/:thoughtId/reactions`. The body is cast and
      validated as a reaction before the thought is looked up; an omitted
      `reactionId` takes a fresh identifier. */
  method AddReaction(db: Store, thoughtId: IdParam, input: ReactionInput, now: Time) returns (res: Response)
    requires db.Valid()
    modifies db
    ensures db.Valid()
    ensures thoughtId.IllFormed? ==>
      res == Response(StatusBadRequest, Message("Invalid thought ID")) && unchanged(db)
    ensures thoughtId.WellFormed? && Build(input, old(db.nextId), now).Err? ==>
      && res.status == StatusServerError
      && res.body == ServerError(ValidationError)
      && unchanged(db)
    ensures thoughtId.WellFormed? && Build(input, old(db.nextId), now).Ok? && thoughtId.id !in old(db.thoughts) ==>
      res == Response(StatusNotFound, Message("No thought with that ID found")) && unchanged(db)
    ensures thoughtId.WellFormed? && Build(input, old(db.nextId), now).Ok? && thoughtId.id in old(db.thoughts) ==>
      var id, r := thoughtId.id, Build(input, old(db.nextId), now).value;
      var before := old(db.thoughts)[id];
      var after := before.(reactions := before.reactions + [r]);
      && res == Response(StatusOk, ThoughtDoc(id, after))
      && db.thoughts == old(db.thoughts)[id := after]
      && |after.reactions| == |before.reactions| + 1
      && after.reactions[..|before.reactions|] == before.reactions
      && after.reactions[|before.reactions|] == r
      && db.users == old(db.users)
      && db.nextId == (if input.reactionId.None? then old(db.nextId) + 1 else old(db.nextId))
  {
    if thoughtId.IllFormed? {
      return Response(StatusBadRequest, Message("Invalid thought ID"));
    }
    var id := thoughtId.id;
    var built := Build(input, db.nextId, now);
    if built.Err? {
      return Response(StatusServerError, ServerError(ValidationError));
    }
    if id !in db.thoughts {
      return Response(StatusNotFound, Message("No thought with that ID found"));
    }
    if input.reactionId.None? {
      var _ := db.FreshId();
    }
    var before := db.thoughts[id];
    var after := before.(reactions := before.reactions + [built.value]);
    db.thoughts := db.thoughts[id := after];
    res := Response(StatusOk, ThoughtDoc(id, after));
  }

  /** `DELETE /thoughts/:thoughtId/reactions/:reactionId`: both identifiers
      must be well formed; every reaction with that `reactionId` goes. */
  method RemoveReaction(db: Store, thoughtId: IdParam, reactionId: IdParam) returns (res: Response)
    requires db.Valid()
    modifies db
    ensures db.Valid()
    ensures thoughtId.IllFormed? || reactionId.IllFormed? ==>
      res == Response(StatusBadRequest, Message("Invalid thought ID or reaction ID")) && unchanged(db)
    ensures thoughtId.WellFormed? && reactionId.WellFormed? && thoughtId.id !in old(db.thoughts) ==>
      res == Response(StatusNotFound, Message("No thought with that ID found")) && unchanged(db)
    ensures thoughtId.WellFormed? && reactionId.WellFormed? && thoughtId.id in old(db.thoughts) ==>
      var id := thoughtId.id;
      var before := old(db.thoughts)[id];
      var after := before.(reactions := PullReaction(before.reactions, reactionId.id));
      && res == Response(StatusOk, ThoughtDoc(id, after))
      && db.thoughts == old(db.thoughts)[id := after]
      && db.users == old(db.users) && db.nextId == old(db.nextId)
  {
    if thoughtId.IllFormed? || reactionId.IllFormed? {
      return Response(StatusBadRequest, Message("Invalid thought ID or reaction ID"));
    }
    var id := thoughtId.id;
    if id !in db.thoughts {
      return Response(StatusNotFound, Message("No thought with that ID found"));
    }
    var before := db.thoughts[id];
    var after := before.(reactions := PullReaction(before.reactions, reactionId.id));
    db.thoughts := db.thoughts[id := after];
    res := Response(StatusOk, ThoughtDoc(id, after));
  }
}
