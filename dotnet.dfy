/**
 * The few .NET library operations the ticket cards depend on:
 * String.IsNullOrWhiteSpace, Char.IsWhiteSpace and the ordering of DateTimeOffset values.
 */
module DotNet {
  import opened Wrappers

  /**
   * Char.IsWhiteSpace: the Unicode space separators (category Zs), the line and
   * paragraph separators U+2028 and U+2029, the controls U+0009 to U+000D and U+0085.
   */
  predicate IsWhiteSpace(c: char) {
    var n := c as int;
    || (0x09 <= n <= 0x0D)
    || n == 0x20 || n == 0x85 || n == 0xA0 || n == 0x1680
    || (0x2000 <= n <= 0x200A)
    || n == 0x2028 || n == 0x2029 || n == 0x202F || n == 0x205F || n == 0x3000
  }

  /** Every character of `s` is white space (vacuously so for the empty string). */
  ghost predicate WhiteSpaceOnly(s: string) {
    forall i :: 0 <= i < |s| ==> IsWhiteSpace(s[i])
  }

  /** The character-by-character scan behind String.IsNullOrWhiteSpace. */
  function AllWhiteSpace(s: string): (r: bool)
    ensures r <==> WhiteSpaceOnly(s)
  {
    if s == [] then true else IsWhiteSpace(s[0]) && AllWhiteSpace(s[1..])
  }

  /**
   * String.IsNullOrWhiteSpace: true for null, for the empty string and for a string
   * made only of white space; false exactly when some character is not white space.
   */
  function IsNullOrWhiteSpace(s: Option<string>): (r: bool)
    ensures r <==> s.None? || WhiteSpaceOnly(s.value)
    ensures !r <==> s.Some? && exists i :: 0 <= i < |s.value| && !IsWhiteSpace(s.value[i])
    ensures !r ==> s.Some? && s.value != ""
  {
    match s
    case None => true
    case Some(t) => AllWhiteSpace(t)
  }

  /**
   * A DateTimeOffset reduced to the instant it denotes (DateTimeOffset compares and
   * equates values by their UTC instant), counted in ticks from DateTimeOffset.MinValue.
   */
  type Instant = nat

  /** DateTimeOffset.MinValue, the earliest instant. */
  const MinValue: Instant := 0

  /** DateTimeOffset.Compare: negative, zero or positive as `a` is earlier than, equal to or later than `b`. */
  function Compare(a: Instant, b: Instant): (c: int)
    ensures -1 <= c <= 1
    ensures c < 0 <==> a < b
    ensures c == 0 <==> a == b
    ensures c > 0 <==> a > b
  {
    if a < b then -1 else if a == b then 0 else 1
  }
}
