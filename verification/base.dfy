/** Small shared vocabulary: optional values and the Rails notion of a blank string. */
module Base {

  /** Ruby `nil` versus a present value. */
  datatype Option<T> = None | Some(value: T)

  /** The whitespace characters of the ASCII `[[:space:]]` class. */
  predicate IsSpace(c: char) {
    c == ' ' || c == '\t' || c == '\n' || c == '\U{000B}' || c == '\U{000C}' || c == '\r'
  }

  /** Rails `String#blank?`: empty or whitespace only. */
  predicate Blank(s: string) {
    forall i | 0 <= i < |s| :: IsSpace(s[i])
  }

  /** Rails `blank?` on a value that may be `nil`: `nil` is blank. */
  predicate BlankOpt(o: Option<string>): (b: bool)
    ensures o == None || o == Some("") ==> b
    ensures o.Some? && |o.value| > 0 && !IsSpace(o.value[0]) ==> !b
  {
    o.None? || Blank(o.value)
  }
}
