/** The string operations the handlers rely on: JavaScript's `String.prototype.trim`, the
    `length` of a JavaScript string (UTF-16 code units) and the "append a line if non-empty" step
    used to compose the welcome text. */
module Text {

  /** The characters `trim` removes: ECMAScript WhiteSpace and LineTerminator code points. */
  predicate IsSpace(c: char)
  {
    || c == ' ' || c == '\t' || c == '\n' || c == '\r'
    || c == '\U{000B}' || c == '\U{000C}' || c == '\U{00A0}' || c == '\U{1680}'
    || ('\U{2000}' <= c <= '\U{200A}')
    || c == '\U{2028}' || c == '\U{2029}' || c == '\U{202F}' || c == '\U{205F}'
    || c == '\U{3000}' || c == '\U{FEFF}'
  }

  predicate AllSpace(s: string)
  {
    forall k :: 0 <= k < |s| ==> IsSpace(s[k])
  }

  /** Drops the leading white space: the result is a suffix of `s`, what was dropped is white space,
      and the result does not start with white space. */
  function TrimStart(s: string): (r: string)
    ensures |r| <= |s| && r == s[|s| - |r|..]
    ensures AllSpace(s[..|s| - |r|])
    ensures r != [] ==> !IsSpace(r[0])
  {
    if s != [] && IsSpace(s[0]) then
      var r := TrimStart(s[1..]);
      DropFrontSpace(s, r);
      r
    else
      s
  }

  /** Drops the trailing white space: the result is a prefix of `s`, what was dropped is white space,
      and the result does not end with white space. */
  function TrimEnd(s: string): (r: string)
    ensures |r| <= |s| && r == s[..|r|]
    ensures AllSpace(s[|r|..])
    ensures r != [] ==> !IsSpace(r[|r| - 1])
  {
    if s != [] && IsSpace(s[|s| - 1]) then
      var r := TrimEnd(s[..|s| - 1]);
      DropBackSpace(s, r);
      r
    else
      s
  }

  /** One step of `TrimStart`: a leading white-space character joins what was dropped. */
  lemma DropFrontSpace(s: string, r: string)
    requires s != [] && IsSpace(s[0])
    requires |r| <= |s| - 1 && r == s[1..][|s| - 1 - |r|..]
    requires AllSpace(s[1..][..|s| - 1 - |r|])
    ensures r == s[|s| - |r|..] && AllSpace(s[..|s| - |r|])
  {
    var dropped := s[..|s| - |r|];
    forall k | 0 <= k < |dropped|
      ensures IsSpace(dropped[k])
    {
      if k > 0 {
        assert dropped[k] == s[1..][..|s| - 1 - |r|][k - 1];
      }
    }
  }

  /** One step of `TrimEnd`: a trailing white-space character joins what was dropped. */
  lemma DropBackSpace(s: string, r: string)
    requires s != [] && IsSpace(s[|s| - 1])
    requires |r| <= |s| - 1 && r == s[..|s| - 1][..|r|]
    requires AllSpace(s[..|s| - 1][|r|..])
    ensures r == s[..|r|] && AllSpace(s[|r|..])
  {
    var dropped := s[|r|..];
    forall k | 0 <= k < |dropped|
      ensures IsSpace(dropped[k])
    {
      if k < |dropped| - 1 {
        assert dropped[k] == s[..|s| - 1][|r|..][k];
      }
    }
  }

  /** `s.trim()`: what is left has no white space at either end, and it is empty exactly when `s`
      is all white space; `TrimRemovesOnlySpace` shows it is `s` with the white space at both ends
      removed. */
  function Trim(s: string): (r: string)
    ensures |r| <= |s|
    ensures r != [] ==> !IsSpace(r[0]) && !IsSpace(r[|r| - 1])
    ensures r == [] <==> AllSpace(s)
  {
    var t := TrimStart(s);
    var r := TrimEnd(t);
    assert t == [] ==> s[..|s| - |t|] == s;
    r
  }

  /** `s` is white space, then `Trim(s)`, then white space: trimming removes white space from the two
      ends and nothing else. */
  lemma TrimRemovesOnlySpace(s: string)
    ensures exists front, back :: s == front + Trim(s) + back && AllSpace(front) && AllSpace(back)
  {
    var t := TrimStart(s);
    var r := TrimEnd(t);
    TrimPieces(s, t, r);
    var front, back := s[..|s| - |t|], t[|r|..];
    assert AllSpace(front) && AllSpace(back);
    assert s == front + r + back;
  }

  /** `s` is what `TrimStart` dropped, then what `TrimEnd` kept, then what `TrimEnd` dropped. */
  lemma TrimPieces(s: string, t: string, r: string)
    requires |t| <= |s| && t == s[|s| - |t|..]
    requires |r| <= |t| && r == t[..|r|]
    ensures s == s[..|s| - |t|] + r + t[|r|..]
  {
    assert t == r + t[|r|..];
  }

  /** Trimming twice is trimming once. */
  lemma TrimIdempotent(s: string)
    ensures Trim(Trim(s)) == Trim(s)
  {
    TrimOfTrimmed(Trim(s));
  }

  /** A string with no white space at either end is its own trim. */
  lemma TrimOfTrimmed(r: string)
    requires r != [] ==> !IsSpace(r[0]) && !IsSpace(r[|r| - 1])
    ensures Trim(r) == r
  {
    TrimStartKeeps(r);
    TrimEndKeeps(r);
  }

  lemma TrimStartKeeps(r: string)
    requires r != [] ==> !IsSpace(r[0])
    ensures TrimStart(r) == r
  {
  }

  lemma TrimEndKeeps(r: string)
    requires r != [] ==> !IsSpace(r[|r| - 1])
    ensures TrimEnd(r) == r
  {
  }

  /** JavaScript's `length`: one unit per character of the Basic Multilingual Plane, two (a
      surrogate pair) per character above it. */
  function Utf16Length(s: string): (n: nat)
    ensures |s| <= n <= 2 * |s|
    ensures (forall k :: 0 <= k < |s| ==> s[k] as int <= 0xFFFF) ==> n == |s|
  {
    if s == [] then 0 else (if s[0] as int > 0xFFFF then 2 else 1) + Utf16Length(s[1..])
  }

  /** `text += "\n" + extra` guarded by `if (extra)`: an empty string is falsy in JavaScript. */
  function AppendLine(text: string, extra: string): (r: string)
    ensures text <= r
    ensures extra == [] ==> r == text
    ensures extra != [] ==> |r| == |text| + 1 + |extra| && r[|text|] == '\n' && r[|text| + 1..] == extra
  {
    if extra == [] then text else text + "\n" + extra
  }
}
