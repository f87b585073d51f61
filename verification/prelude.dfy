/** Small JavaScript-flavoured helpers shared by the session model: an optional
    value with the `x || default` reading of JavaScript truthiness, the
    `String.prototype.includes` search and `String.prototype.trim`. */
module Prelude {

  /** An optional value: `None` stands for `null` / `undefined`. */
  datatype Option<+T> = None | Some(value: T)

  /** `x || d` for a string field: `undefined`, `null` and `""` are all falsy. */
  function OrText(x: Option<string>, d: string): (r: string)
    ensures r == d <== (x.None? || x.value == "")
    ensures x.Some? && x.value != "" ==> r == x.value
  {
    if x.Some? && x.value != "" then x.value else d
  }

  /** `xs || []` for an array field: an empty array is truthy in JavaScript,
      so only an absent field falls back to the empty sequence. */
  function OrEmpty<T>(x: Option<seq<T>>): (r: seq<T>)
    ensures x.None? ==> r == []
    ensures x.Some? ==> r == x.value
  {
    if x.Some? then x.value else []
  }

  /** JavaScript truthiness of an optional string. */
  predicate Truthy(x: Option<string>)
  {
    x.Some? && x.value != ""
  }

  // ---------------------------------------------------------------------------
  // Substring search
  // ---------------------------------------------------------------------------

  /** `sub` occurs in `s` starting at index `i`. */
  predicate OccursAt(s: string, sub: string, i: int)
  {
    0 <= i && i + |sub| <= |s| && s[i..i + |sub|] == sub
  }

  /** Reference meaning of `s.includes(sub)`: some index where `sub` occurs. */
  ghost predicate Contains(s: string, sub: string)
  {
    exists i :: OccursAt(s, sub, i)
  }

  /** `s.includes(sub)`: true exactly when `sub` occurs somewhere in `s`. */
  function Includes(s: string, sub: string): (r: bool)
    ensures r <==> Contains(s, sub)
  {
    IncludesFrom(s, sub, 0)
  }

  /** Tries the start positions `i`, `i + 1`, ... from left to right, as the
      JavaScript string search does. */
  function IncludesFrom(s: string, sub: string, i: nat): (r: bool)
    ensures r <==> exists k :: i <= k && OccursAt(s, sub, k)
    decreases |s| - i
  {
    if i + |sub| > |s| then false
    else if s[i..i + |sub|] == sub then
      assert OccursAt(s, sub, i);
      true
    else
      var rest := IncludesFrom(s, sub, i + 1);
      assert forall k :: i <= k && OccursAt(s, sub, k) ==> k == i || i + 1 <= k;
      rest
  }

  // ---------------------------------------------------------------------------
  // String.prototype.trim
  // ---------------------------------------------------------------------------

  /** The characters `trim` strips: the ECMAScript WhiteSpace and
      LineTerminator code points (tab, vertical tab, form feed, space,
      no-break space, the Unicode space separators, byte order mark,
      line feed, carriage return, line and paragraph separators). */
  predicate IsJsSpace(c: char)
  {
    || c == '\t' || c == '\n' || c == '\U{000B}' || c == '\U{000C}' || c == '\r'
    || c == ' ' || c == '\U{00A0}' || c == '\U{1680}'
    || ('\U{2000}' <= c <= '\U{200A}')
    || c == '\U{2028}' || c == '\U{2029}' || c == '\U{202F}' || c == '\U{205F}'
    || c == '\U{3000}' || c == '\U{FEFF}'
  }

  predicate AllSpace(s: string)
  {
    forall k :: 0 <= k < |s| ==> IsJsSpace(s[k])
  }

  /** Drops leading white space: the result is a suffix of `s` that does not
      start with white space, and everything dropped was white space. */
  function TrimStart(s: string): (r: string)
    ensures |r| <= |s| && r == s[|s| - |r|..]
    ensures AllSpace(s[..|s| - |r|])
    ensures r == [] || !IsJsSpace(r[0])
    decreases |s|
  {
    if |s| > 0 && IsJsSpace(s[0]) then TrimStart(s[1..]) else s
  }

  /** Drops trailing white space: the result is a prefix of `s` that does not
      end with white space, and everything dropped was white space. */
  function TrimEnd(s: string): (r: string)
    ensures |r| <= |s| && r == s[..|r|]
    ensures AllSpace(s[|r|..])
    ensures r == [] || !IsJsSpace(r[|r| - 1])
    decreases |s|
  {
    if |s| > 0 && IsJsSpace(s[|s| - 1]) then TrimEnd(s[..|s| - 1]) else s
  }

  /** `s.trim()`: the infix of `s` left after removing white space at both
      ends. It is empty exactly when `s` is all white space, and otherwise
      starts and ends with a non-space character. */
  function Trim(s: string): (r: string)
    ensures exists i, j :: 0 <= i <= j <= |s| && r == s[i..j]
                           && AllSpace(s[..i]) && AllSpace(s[j..])
    ensures r == [] <==> AllSpace(s)
    ensures r != [] ==> !IsJsSpace(r[0]) && !IsJsSpace(r[|r| - 1])
  {
    var a := TrimStart(s);
    var r := TrimEnd(a);
    TrimCut(s, a, r);
    r
  }

  /** The two trimming passes together cut `s` at `|s| - |a|` and
      `|s| - |a| + |r|`, and cut everything exactly when `s` is all space. */
  lemma TrimCut(s: string, a: string, r: string)
    requires |a| <= |s| && a == s[|s| - |a|..] && AllSpace(s[..|s| - |a|])
    requires a == [] || !IsJsSpace(a[0])
    requires |r| <= |a| && r == a[..|r|] && AllSpace(a[|r|..])
    ensures r == s[|s| - |a|..|s| - |a| + |r|]
    ensures AllSpace(s[|s| - |a| + |r|..])
    ensures r == [] <==> AllSpace(s)
  {
  }
}
