/** What every request of the service carries, and the string checks shared by the operations. */
module Requests {
  import opened Wrappers

  /** The caller's credential: the opaque token id and the id of the user holding it, either possibly unset. */
  datatype Token = Token(tokenId: Option<string>, userId: Option<string>)

  /** A string that is null or empty, as Guava's Strings.isNullOrEmpty decides it. */
  predicate IsNullOrEmpty(s: Option<string>)
  {
    s.None? || s.value == ""
  }

  /** What Java's string concatenation appends for a string that may be null: "null" when it is. */
  function AsText(s: Option<string>): string
  {
    if s.None? then "null" else s.value
  }

  /** The nonEmptyString assertion: the string is set and has at least one character. */
  predicate NonEmptyString(s: Option<string>)
  {
    s.Some? && |s.value| > 0
  }
}
