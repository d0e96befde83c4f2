/** The two collections the controllers work on, the documents they hold,
    the request bodies that create or patch them, and the HTTP-like
    responses the handlers give. */
module Documents {
  import opened Common
  import opened UpdateOperators
  import opened ReactionSchema

  /** A user: `thoughts` and `friends` are arrays of identifiers, kept by
      the store without any check that the identifiers denote anything. */
  datatype User = User(username: string, email: string, thoughts: seq<Id>, friends: seq<Id>)

  /** A thought with its embedded reactions. `username` is a copy of the
      author's name, not a reference. */
  datatype Thought = Thought(thoughtText: string, username: string, createdAt: Time, reactions: seq<Reaction>)

  /** The per-field validators of the thought and user schemas, which are
      not part of this model: each says which values a path accepts. A
      create runs all of them; an update with validators runs only those
      of the paths it sets. */
  datatype ThoughtSchema = ThoughtSchema(thoughtTextOk: string -> bool, usernameOk: string -> bool)
  datatype UserSchema = UserSchema(usernameOk: string -> bool, emailOk: string -> bool)

  /** The body of a thought-creation request. */
  datatype ThoughtInput = ThoughtInput(thoughtText: Option<string>, username: Option<string>, userId: IdParam)

  /** The fields a thought update may supply. */
  datatype ThoughtPatch = ThoughtPatch(thoughtText: Option<string>, username: Option<string>)

  /** The body of a user-creation request, and the fields a user update may supply. */
  datatype UserInput = UserInput(username: Option<string>, email: Option<string>)
  datatype UserPatch = UserPatch(username: Option<string>, email: Option<string>)

  /** A required path whose value also passes the schema's validator. */
  predicate Accepts(ok: string -> bool, field: Option<string>) {
    Present(field) && ok(field.value)
  }

  /** A required path under an update with validators: when it is set,
      the `required` rule and its validator both run, so an empty string is
      refused as on creation; when it is not set, nothing is checked. */
  predicate AcceptsIfSupplied(ok: string -> bool, field: Option<string>) {
    field.Some? ==> Accepts(ok, field)
  }

  predicate ThoughtAccepted(schema: ThoughtSchema, input: ThoughtInput) {
    Accepts(schema.thoughtTextOk, input.thoughtText) && Accepts(schema.usernameOk, input.username)
  }

  predicate ThoughtPatchAccepted(schema: ThoughtSchema, patch: ThoughtPatch) {
    AcceptsIfSupplied(schema.thoughtTextOk, patch.thoughtText) && AcceptsIfSupplied(schema.usernameOk, patch.username)
  }

  predicate UserAccepted(schema: UserSchema, input: UserInput) {
    Accepts(schema.usernameOk, input.username) && Accepts(schema.emailOk, input.email)
  }

  predicate UserPatchAccepted(schema: UserSchema, patch: UserPatch) {
    AcceptsIfSupplied(schema.usernameOk, patch.username) && AcceptsIfSupplied(schema.emailOk, patch.email)
  }

  /** The document a creation request stores: the supplied fields, the
      clock value as creation time and no reactions yet. */
  function NewThought(input: ThoughtInput, now: Time): (t: Thought)
    requires input.thoughtText.Some? && input.username.Some?
    ensures t.thoughtText == input.thoughtText.value && t.username == input.username.value
    ensures t.createdAt == now && t.reactions == []
  {
    Thought(input.thoughtText.value, input.username.value, now, [])
  }

  /** A new user owns no thoughts and has no friends. */
  function NewUser(input: UserInput): (u: User)
    requires input.username.Some? && input.email.Some?
    ensures u.username == input.username.value && u.email == input.email.value
    ensures u.thoughts == [] && u.friends == []
  {
    User(input.username.value, input.email.value, [], [])
  }

  /** `$set` of a thought patch: the supplied fields are replaced, every
      other field, the reactions among them, is kept. */
  function SetThought(t: Thought, patch: ThoughtPatch): (r: Thought)
    ensures patch.thoughtText.Some? ==> r.thoughtText == patch.thoughtText.value
    ensures patch.thoughtText.None? ==> r.thoughtText == t.thoughtText
    ensures patch.username.Some? ==> r.username == patch.username.value
    ensures patch.username.None? ==> r.username == t.username
    ensures r.createdAt == t.createdAt && r.reactions == t.reactions
  {
    t.(thoughtText := Overwrite(t.thoughtText, patch.thoughtText),
       username := Overwrite(t.username, patch.username))
  }

  /** `$set` of a user patch: the identifier arrays are never touched. */
  function SetUser(u: User, patch: UserPatch): (r: User)
    ensures patch.username.Some? ==> r.username == patch.username.value
    ensures patch.username.None? ==> r.username == u.username
    ensures patch.email.Some? ==> r.email == patch.email.value
    ensures patch.email.None? ==> r.email == u.email
    ensures r.thoughts == u.thoughts && r.friends == u.friends
  {
    u.(username := Overwrite(u.username, patch.username),
       email := Overwrite(u.email, patch.email))
  }

  /** Applying the same patch again changes nothing more. */
  lemma SetThoughtIdempotent(t: Thought, patch: ThoughtPatch)
    ensures SetThought(SetThought(t, patch), patch) == SetThought(t, patch)
  {
  }

  lemma SetUserIdempotent(u: User, patch: UserPatch)
    ensures SetUser(SetUser(u, patch), patch) == SetUser(u, patch)
  {
  }

  /** Field by field, the later patch wins where it supplies a value. */
  function MergeThoughtPatch(first: ThoughtPatch, second: ThoughtPatch): ThoughtPatch {
    ThoughtPatch(if second.thoughtText.Some? then second.thoughtText else first.thoughtText,
                 if second.username.Some? then second.username else first.username)
  }

  function MergeUserPatch(first: UserPatch, second: UserPatch): UserPatch {
    UserPatch(if second.username.Some? then second.username else first.username,
              if second.email.Some? then second.email else first.email)
  }

  /** Two thought updates in a row equal one update with the merged patch. */
  lemma SetThoughtTwice(t: Thought, first: ThoughtPatch, second: ThoughtPatch)
    ensures SetThought(SetThought(t, first), second) == SetThought(t, MergeThoughtPatch(first, second))
  {
  }

  /** Two user updates in a row equal one update with the merged patch. */
  lemma SetUserTwice(u: User, first: UserPatch, second: UserPatch)
    ensures SetUser(SetUser(u, first), second) == SetUser(u, MergeUserPatch(first, second))
  {
  }

  const StatusOk := 200
  const StatusBadRequest := 400
  const StatusNotFound := 404
  const StatusServerError := 500

  /** The error a handler's catch-all reports: a failed validation (a
      sub-document whose identifier does not cast included), or a name that
      is not defined. */
  datatype ErrorKind = ValidationError | ReferenceError

  datatype Body =
    | Message(text: string)
    | ServerError(kind: ErrorKind)
    | ThoughtDoc(thoughtId: Id, thought: Thought)
    | ThoughtList(thoughts: map<Id, Thought>)
    | UserDoc(userId: Id, user: User)
    | UserWithCount(userId: Id, user: User, friendCount: nat)
    | UsersWithCount(users: map<Id, User>, friendCount: nat)

  datatype Response = Response(status: int, body: Body)

  /** The document store: both collections and the supply of fresh
      identifiers, with the schema validators fixed at creation. */
  class Store {
    var users: map<Id, User>
    var thoughts: map<Id, Thought>
    var nextId: Id
    const thoughtSchema: ThoughtSchema
    const userSchema: UserSchema

    /** Every identifier the store has handed out, as a user, as a thought
        or in a user's thought list, is below the next fresh one. */
    ghost predicate Valid()
      reads this
    {
      && (forall k :: k in users ==> k < nextId)
      && (forall k :: k in thoughts ==> k < nextId)
      && (forall k, t :: k in users && t in users[k].thoughts ==> t < nextId)
    }

    constructor (thoughtSchema: ThoughtSchema, userSchema: UserSchema)
      ensures Valid()
      ensures users == map[] && thoughts == map[] && nextId == 0
      ensures this.thoughtSchema == thoughtSchema && this.userSchema == userSchema
    {
      users, thoughts, nextId := map[], map[], 0;
      this.thoughtSchema, this.userSchema := thoughtSchema, userSchema;
    }

    /** Hands out an identifier no stored document uses. */
    method FreshId() returns (id: Id)
      requires Valid()
      modifies this
      ensures Valid()
      ensures id == old(nextId) && nextId == id + 1
      ensures id !in users && id !in thoughts
      ensures users == old(users) && thoughts == old(thoughts)
    {
      id := nextId;
      nextId := nextId + 1;
    }
  }
}
