/**
 * The argument guard both metadata constructors call first:
 * `ArgumentException.ThrowIfNullOrWhiteSpace`, which rejects a null, empty
 * or whitespace-only string and names the offending parameter.
 */
module Arguments {
  import opened Wrappers

  /**
   * The exception a guard throws. The null case (ArgumentNullException) and
   * the empty/whitespace case (ArgumentException) are folded into one error
   * that carries the parameter name.
   */
  datatype ArgumentError = InvalidArgument(paramName: string)

  /**
   * The characters .NET's `char.IsWhiteSpace` accepts: the controls U+0009 to
   * U+000D and U+0085, and the Unicode space, line and paragraph separators.
   */
  predicate IsWhiteSpace(c: char) {
    || ('\U{0009}' <= c <= '\U{000D}')
    || c == ' '
    || c == '\U{0085}'
    || c == '\U{00A0}'
    || c == '\U{1680}'
    || ('\U{2000}' <= c <= '\U{200A}')
    || c == '\U{2028}'
    || c == '\U{2029}'
    || c == '\U{202F}'
    || c == '\U{205F}'
    || c == '\U{3000}'
  }

  /** Scans `s` from the front; true when no character of it is non-white. */
  function AllWhiteSpace(s: string): (r: bool)
    ensures r <==> forall i :: 0 <= i < |s| ==> IsWhiteSpace(s[i])
    ensures |s| == 0 ==> r
  {
    if |s| == 0 then true
    else if !IsWhiteSpace(s[0]) then false
    else AllWhiteSpace(s[1..])
  }

  /** `string.IsNullOrWhiteSpace`: null, empty, or made only of whitespace. */
  function IsNullOrWhiteSpace(s: Option<string>): (r: bool)
    ensures s.None? ==> r
    ensures s.Some? ==> (r <==> forall i :: 0 <= i < |s.value| ==> IsWhiteSpace(s.value[i]))
    ensures !r ==> s.Some? && exists i :: 0 <= i < |s.value| && !IsWhiteSpace(s.value[i])
  {
    match s
    case None => true
    case Some(v) => AllWhiteSpace(v)
  }

  /** `ArgumentException.ThrowIfNullOrWhiteSpace(arg)`; `paramName` is the caller's argument expression. */
  function ThrowIfNullOrWhiteSpace(arg: Option<string>, paramName: string): (r: Option<ArgumentError>)
    ensures r.Some? <==> IsNullOrWhiteSpace(arg)
    ensures r.Some? ==> r.value.paramName == paramName
    ensures r.None? ==> arg.Some? && |arg.value| > 0
  {
    if IsNullOrWhiteSpace(arg) then Some(InvalidArgument(paramName)) else None
  }

  /** Padding a valid string with whitespace on either side keeps it valid, and padding a blank one keeps it blank. */
  lemma {:induction false} PaddingPreservesVerdict(pad: string, s: string)
    requires AllWhiteSpace(pad)
    ensures IsNullOrWhiteSpace(Some(pad + s)) == IsNullOrWhiteSpace(Some(s))
    ensures IsNullOrWhiteSpace(Some(s + pad)) == IsNullOrWhiteSpace(Some(s))
  {
    forall i | 0 <= i < |s| ensures (pad + s)[|pad| + i] == s[i] && (s + pad)[i] == s[i] { }
  }
}
