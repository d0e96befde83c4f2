/** The reaction sub-document schema: a reaction lives only inside its
    thought's `reactions` array, has no `_id` of its own, and is known
    by its `reactionId`. */
module ReactionSchema {
  import opened Common

  datatype Reaction = Reaction(reactionId: Id, reactionBody: string, username: string, createdAt: Time)

  /** A reaction as supplied in a request body; any field may be omitted.
      A supplied `reactionId` still has to be cast to an identifier. */
  datatype ReactionInput = ReactionInput(
    reactionId: Option<IdParam>,
    reactionBody: Option<string>,
    username: Option<string>,
    createdAt: Option<Time>)

  datatype ReactionError = BadReactionId | MissingReactionBody | MissingUsername

  /** The `required` rule on a string path: the value is given and not empty. */
  predicate Present(field: Option<string>) {
    field.Some? && field.value != ""
  }

  /** A stored reaction meets the schema: both required strings are non-empty. */
  predicate Valid(r: Reaction) {
    r.reactionBody != "" && r.username != ""
  }

  /** Casts and validates a request body into a reaction. An omitted
      `reactionId` takes the fresh identifier, an omitted `createdAt` the
      current clock value. */
  function Build(input: ReactionInput, freshId: Id, now: Time): (r: Result<Reaction, ReactionError>)
    ensures r.Ok? <==> input.reactionId != Some(IllFormed) && Present(input.reactionBody) && Present(input.username)
    ensures r == Err(BadReactionId) <==> input.reactionId == Some(IllFormed)
    ensures r == Err(MissingReactionBody) ==> !Present(input.reactionBody)
    ensures r == Err(MissingUsername) ==> !Present(input.username)
    ensures r.Ok? ==> Valid(r.value)
    ensures r.Ok? ==> r.value.reactionBody == input.reactionBody.value && r.value.username == input.username.value
    ensures r.Ok? && input.reactionId.None? ==> r.value.reactionId == freshId
    ensures r.Ok? && input.reactionId.Some? ==> r.value.reactionId == input.reactionId.value.id
    ensures r.Ok? && input.createdAt.None? ==> r.value.createdAt == now
    ensures r.Ok? && input.createdAt.Some? ==> r.value.createdAt == input.createdAt.value
  {
    if input.reactionId == Some(IllFormed) then Err(BadReactionId)
    else if !Present(input.reactionBody) then Err(MissingReactionBody)
    else if !Present(input.username) then Err(MissingUsername)
    else
      var id := match input.reactionId
        case Some(WellFormed(supplied)) => supplied
        case _ => freshId;
      var at := if input.createdAt.Some? then input.createdAt.value else now;
      Ok(Reaction(id, input.reactionBody.value, input.username.value, at))
  }

  /** Every valid reaction round-trips: supplying all of its fields builds it back. */
  lemma BuildRoundTrip(r: Reaction, freshId: Id, now: Time)
    requires Valid(r)
    ensures Build(ReactionInput(Some(WellFormed(r.reactionId)), Some(r.reactionBody), Some(r.username), Some(r.createdAt)), freshId, now) == Ok(r)
  {
  }
}
