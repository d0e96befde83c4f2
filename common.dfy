/** Identifiers, clock values and the small wrapper types shared by the model. */
module Common {

  /** A document identifier (an ObjectId in the store). */
  type Id = nat

  /** An abstract clock reading (what `Date.now` would return). */
  type Time = nat

  datatype Option<T> = None | Some(value: T)

  datatype Result<T, E> = Ok(value: T) | Err(error: E)

  /** An identifier as it arrives in a request: either it passes the
      well-formedness test of the id parser, and then denotes an `Id`,
      or it does not. */
  datatype IdParam = WellFormed(id: Id) | IllFormed
}
