/** The pieces of the .NET base library that the host-side code relies on:
    the exceptions it throws, `char.IsWhiteSpace`, `string.IsNullOrWhiteSpace`,
    `ToLower` (ASCII letters only) and single-character `Replace`. */
module DotNetText {
  import opened Wrappers

  /** The .NET exceptions the modelled code can throw. */
  datatype DotNetError =
    | ArgumentNull(paramName: string)        // ArgumentNullException
    | ArgumentBlank(paramName: string)       // ArgumentException for an empty or white-space string
    | Argument(message: string)              // ArgumentException with a message
    | ArgumentOutOfRange(paramName: string)  // ArgumentOutOfRangeException
    | IndexOutOfRange                        // IndexOutOfRangeException
    | NullReference                          // NullReferenceException

  /** `char.IsWhiteSpace`: the Unicode space, line and paragraph separators,
      U+0009..U+000D, U+0085. */
  predicate IsWhiteSpace(c: char) {
    || c == ' ' || ('\t' <= c <= '\r') || c == '\U{0085}' || c == '\U{00A0}' || c == '\U{1680}'
    || ('\U{2000}' <= c <= '\U{200A}') || c == '\U{2028}' || c == '\U{2029}'
    || c == '\U{202F}' || c == '\U{205F}' || c == '\U{3000}'
  }

  /** `string.IsNullOrWhiteSpace`. */
  predicate IsNullOrWhiteSpace(s: Nullable<string>) {
    s.Null? || forall i :: 0 <= i < |s.value| ==> IsWhiteSpace(s.value[i])
  }

  /** A string that is not white-space has at least one character. */
  lemma NotBlankIsNonEmpty(s: string)
    requires !IsNullOrWhiteSpace(Some(s))
    ensures |s| > 0
  {
  }

  /** `ArgumentNullException.ThrowIfNullOrWhiteSpace(value, paramName)`. */
  function ThrowIfNullOrWhiteSpace(value: Nullable<string>, paramName: string): (o: Outcome<DotNetError>)
    ensures o.Pass? <==> !IsNullOrWhiteSpace(value)
    ensures value.Null? ==> o == Fail(ArgumentNull(paramName))
    ensures value.Some? && o.Fail? ==> o == Fail(ArgumentBlank(paramName))
  {
    if value.Null? then Fail(ArgumentNull(paramName))
    else if IsNullOrWhiteSpace(value) then Fail(ArgumentBlank(paramName))
    else Pass
  }

  /** Lower-casing of one character, restricted to the ASCII letters. */
  function ToLowerChar(c: char): (d: char)
    ensures 'A' <= c <= 'Z' ==> 'a' <= d <= 'z'
    ensures !('A' <= c <= 'Z') ==> d == c
    ensures !('A' <= d <= 'Z')
  {
    if 'A' <= c <= 'Z' then (c as int - 'A' as int + 'a' as int) as char else c
  }

  /** `string.ToLower()`, character by character. */
  function ToLower(s: string): (r: string)
    ensures |r| == |s|
    ensures forall i :: 0 <= i < |s| ==> r[i] == ToLowerChar(s[i])
  {
    seq(|s|, i requires 0 <= i < |s| => ToLowerChar(s[i]))
  }

  /** `s.Replace(from, to)` for one-character strings: every occurrence is replaced. */
  function ReplaceChar(s: string, from: char, to: char): (r: string)
    ensures |r| == |s|
    ensures forall i :: 0 <= i < |s| ==> r[i] == if s[i] == from then to else s[i]
  {
    seq(|s|, i requires 0 <= i < |s| => if s[i] == from then to else s[i])
  }

  /** Ordinal case-insensitive equality (`StringComparison.OrdinalIgnoreCase` on ASCII). */
  predicate EqualsIgnoreCase(a: string, b: string) {
    ToLower(a) == ToLower(b)
  }

  lemma ToLowerIdempotent(s: string)
    ensures ToLower(ToLower(s)) == ToLower(s)
  {
  }

  /** Replacing a character that does not occur changes nothing. */
  lemma ReplaceAbsentChar(s: string, from: char, to: char)
    requires from !in s
    ensures ReplaceChar(s, from, to) == s
  {
    assert forall i :: 0 <= i < |s| ==> s[i] != from;
  }
}
