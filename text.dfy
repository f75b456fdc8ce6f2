/** The JavaScript string operations the handlers and the dialog rely on:
    `String.prototype.trim` and `s.split(sep)[0]`. */
module Text {
  import opened Api

  /** The characters `trim` removes: ECMAScript WhiteSpace (tab, vertical tab,
      form feed, no-break space, the byte-order mark and the Unicode space
      separators) and LineTerminator (LF, CR, line and paragraph separators). */
  predicate IsWhitespace(c: char) {
    || c == ' ' || c == '\t' || c == '\n' || c == '\r'
    || c == '\U{000B}' || c == '\U{000C}'
    || c == '\U{00A0}' || c == '\U{1680}'
    || ('\U{2000}' <= c <= '\U{200A}')
    || c == '\U{2028}' || c == '\U{2029}' || c == '\U{202F}'
    || c == '\U{205F}' || c == '\U{3000}' || c == '\U{FEFF}'
  }

  predicate AllWhitespace(s: string) {
    forall i :: 0 <= i < |s| ==> IsWhitespace(s[i])
  }

  /** `s.trimStart()`: the suffix of `s` left after its leading whitespace. */
  function TrimStart(s: string): (r: string)
    ensures |r| <= |s| && r == s[|s| - |r|..]
    ensures AllWhitespace(s[..|s| - |r|])
    ensures r == [] || !IsWhitespace(r[0])
  {
    if s != [] && IsWhitespace(s[0]) then TrimStart(s[1..]) else s
  }

  /** `s.trimEnd()`: the prefix of `s` left before its trailing whitespace. */
  function TrimEnd(s: string): (r: string)
    ensures |r| <= |s| && r == s[..|r|]
    ensures AllWhitespace(s[|r|..])
    ensures r == [] || !IsWhitespace(r[|r| - 1])
  {
    if s != [] && IsWhitespace(s[|s| - 1]) then TrimEnd(s[..|s| - 1]) else s
  }

  /** `s.trim()`: no longer than `s`, and neither starting nor ending with
      whitespace. */
  function Trim(s: string): (r: string)
    ensures |r| <= |s|
    ensures r == [] || (!IsWhitespace(r[0]) && !IsWhitespace(r[|r| - 1]))
  {
    var u := TrimStart(s);
    var t := TrimEnd(u);
    assert t != [] ==> t[0] == u[0];
    t
  }

  /** `!s || s.trim() === ""`: the field is absent, empty, or only whitespace. */
  predicate Blank(s: Option<string>) {
    !IsTruthy(s) || Trim(s.value) == ""
  }

  /** A field is blank exactly when it is absent or holds only whitespace. */
  lemma BlankIffAllWhitespace(s: Option<string>)
    ensures Blank(s) <==> s.None? || AllWhitespace(s.value)
  {
    if s.Some? {
      TrimEmptyIffAllWhitespace(s.value);
    }
  }

  /** `s.trim()` is a contiguous piece of `s` with only whitespace cut off
      around it, and it neither starts nor ends with whitespace. */
  lemma TrimShape(s: string)
    ensures exists i, j :: 0 <= i <= j <= |s| && Trim(s) == s[i..j]
                           && AllWhitespace(s[..i]) && AllWhitespace(s[j..])
    ensures Trim(s) == [] || (!IsWhitespace(Trim(s)[0]) && !IsWhitespace(Trim(s)[|Trim(s)| - 1]))
  {
    var u := TrimStart(s);
    var t := TrimEnd(u);
    var i := |s| - |u|;
    var j := i + |t|;
    assert 0 <= i <= j <= |s| && Trim(s) == s[i..j] && AllWhitespace(s[..i]) && AllWhitespace(s[j..]) by {
      SliceOfSuffix(s, u, i, |t|);
    }
  }

  /** Slicing the suffix `u == s[i..]` is slicing `s` shifted by `i`. */
  lemma SliceOfSuffix(s: string, u: string, i: nat, k: nat)
    requires i + k <= |s| && u == s[i..]
    ensures u[..k] == s[i..i + k] && u[k..] == s[i + k..]
  {
  }

  /** A string trims to `""` exactly when every character of it is whitespace. */
  lemma TrimEmptyIffAllWhitespace(s: string)
    ensures Trim(s) == "" <==> AllWhitespace(s)
  {
    var u := TrimStart(s);
    var k := |s| - |u|;
    if u != [] {
      assert u[0] == s[k];
    }
    assert s[..|s|] == s;
  }

  /** Trimming twice is trimming once. */
  lemma TrimIdempotent(s: string)
    ensures Trim(Trim(s)) == Trim(s)
  {
    var t := Trim(s);
    TrimShape(s);
    if t != [] {
      assert TrimStart(t) == t;
      assert TrimEnd(t) == t;
    }
  }

  /** `s.split(sep)[0]`: the part of `s` before the first `sep`, or all of `s`
      when it holds no `sep`. */
  function BeforeFirst(s: string, sep: char): (r: string)
    ensures |r| <= |s| && r == s[..|r|]
    ensures sep !in r
    ensures |r| < |s| ==> s[|r|] == sep
  {
    if s == [] then []
    else if s[0] == sep then []
    else [s[0]] + BeforeFirst(s[1..], sep)
  }

  /** `split(sep)[0]` gives back the whole string exactly when the separator
      does not occur in it. */
  lemma BeforeFirstWhole(s: string, sep: char)
    ensures BeforeFirst(s, sep) == s <==> sep !in s
  {
  }
}
