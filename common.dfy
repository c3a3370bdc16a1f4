/** Shared vocabulary of the model: optional values, results with an error
    side, instants, and the opaque hash used for passwords and reset tokens. */
module Common {

  /** A value that may be absent (a nullable column, a missing array key). */
  datatype Option<+T> = None | Some(value: T)

  /** The outcome of an operation that either succeeds or raises an error. */
  datatype Result<+T, +E> = Ok(value: T) | Err(error: E)

  /** Instants are whole seconds on one clock; the caller supplies `now`. */
  type Instant = int

  const SecondsPerMinute: int := 60
  const SecondsPerHour: int := 3600

  /** A stored hash. The model never looks inside it: two hashes are equal
      exactly when they were made from the same plain text, which is what a
      successful hash check establishes. */
  datatype Hash = HashOf(plain: string)

  /** The hashing function, opaque to the rest of the model and injective by
      construction. */
  function H(plain: string): Hash
  {
    HashOf(plain)
  }

  /** A hash check succeeds exactly for the plain text the hash was made from. */
  predicate HashMatches(plain: string, stored: Hash)
  {
    stored == H(plain)
  }
}
