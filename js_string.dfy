/** The part of JavaScript's string semantics the containers rely on:
    String.prototype.trim and the falsiness of the empty string. */
module JsString {

  /** ECMAScript WhiteSpace and LineTerminator code points, the characters trim() removes. */
  predicate IsWhitespace(c: char) {
    || c == '\t' || c == '\n' || c == '\U{0B}' || c == '\U{0C}' || c == '\r' || c == ' '
    || c == '\U{A0}' || c == '\U{1680}' || ('\U{2000}' <= c <= '\U{200A}')
    || c == '\U{2028}' || c == '\U{2029}' || c == '\U{202F}' || c == '\U{205F}'
    || c == '\U{3000}' || c == '\U{FEFF}'
  }

  predicate AllWhitespace(s: string) {
    forall i :: 0 <= i < |s| ==> IsWhitespace(s[i])
  }

  /** Drops the leading whitespace (see TrimStartDrops). */
  function TrimStart(s: string): (r: string)
    ensures |r| <= |s|
  {
    if s != [] && IsWhitespace(s[0]) then TrimStart(s[1..]) else s
  }

  /** Drops the trailing whitespace (see TrimEndDrops). */
  function TrimEnd(s: string): (r: string)
    ensures |r| <= |s|
  {
    if s != [] && IsWhitespace(s[|s| - 1]) then TrimEnd(s[..|s| - 1]) else s
  }

  /** TrimStart leaves the suffix of `s` that starts at its first non-whitespace character:
      everything it drops is whitespace. */
  lemma {:induction false} TrimStartDrops(s: string)
    ensures var r := TrimStart(s);
      && r == s[|s| - |r|..]
      && AllWhitespace(s[..|s| - |r|])
      && (r == [] || !IsWhitespace(r[0]))
  {
    if s != [] && IsWhitespace(s[0]) {
      var r := TrimStart(s[1..]);
      TrimStartDrops(s[1..]);
      assert s[..|s| - |r|] == [s[0]] + s[1..][..|s[1..]| - |r|];
    }
  }

  /** TrimEnd leaves the prefix of `s` that ends at its last non-whitespace character:
      everything it drops is whitespace. */
  lemma {:induction false} TrimEndDrops(s: string)
    ensures var r := TrimEnd(s);
      && r == s[..|r|]
      && AllWhitespace(s[|r|..])
      && (r == [] || !IsWhitespace(r[|r| - 1]))
  {
    if s != [] && IsWhitespace(s[|s| - 1]) {
      var r := TrimEnd(s[..|s| - 1]);
      TrimEndDrops(s[..|s| - 1]);
      assert s[|r|..] == s[..|s| - 1][|r|..] + [s[|s| - 1]];
    }
  }

  /** `r` occurs in `s` at offset `k` with only whitespace before and after it. */
  predicate SurroundedBy(s: string, k: int, r: string) {
    0 <= k <= |s| - |r| && r == s[k..k + |r|] && AllWhitespace(s[..k]) && AllWhitespace(s[k + |r|..])
  }

  /** String.prototype.trim: `s` with whitespace removed from both ends (see TrimSpec). */
  function Trim(s: string): (r: string)
    ensures |r| <= |s|
  {
    TrimEnd(TrimStart(s))
  }

  /** What trim() returns: empty exactly when `s` is all whitespace; otherwise text that
      starts and ends with non-whitespace and sits in `s` between whitespace only. */
  lemma TrimSpec(s: string)
    ensures Trim(s) == [] <==> AllWhitespace(s)
    ensures Trim(s) != [] ==> !IsWhitespace(Trim(s)[0]) && !IsWhitespace(Trim(s)[|Trim(s)| - 1])
    ensures exists k :: SurroundedBy(s, k, Trim(s))
  {
    var t := TrimStart(s);
    var r := TrimEnd(t);
    TrimStartDrops(s);
    TrimEndDrops(t);
    StrippedBothEnds(s, t, r);
    assert r != [] ==> r[0] == t[0];
  }

  /** Whitespace stripped from the front of `s` (leaving `t`) and then from the back of `t`
      (leaving `r`) leaves `r` surrounded by whitespace in `s`. */
  lemma StrippedBothEnds(s: string, t: string, r: string)
    requires |t| <= |s| && t == s[|s| - |t|..] && AllWhitespace(s[..|s| - |t|])
    requires |r| <= |t| && r == t[..|r|] && AllWhitespace(t[|r|..])
    requires t == [] || !IsWhitespace(t[0])
    ensures SurroundedBy(s, |s| - |t|, r)
    ensures r == [] <==> AllWhitespace(s)
  {
    var k := |s| - |t|;
    assert s == s[..k] + t;
    assert t == r + t[|r|..];
    assert s[k + |r|..] == t[|r|..];
    if r == [] {
      assert t == [];
      assert s == s[..k];
    } else {
      assert r[0] == t[0] == s[k];
    }
  }

  /** `!s.trim()` in the source: the query or path holds nothing but whitespace. */
  predicate IsBlank(s: string) {
    Trim(s) == []
  }

  /** Trimming twice is trimming once, so re-trimming an already trimmed query
      (searchStore.ts trims, then endpoints.ts trims again) sends the same text. */
  lemma TrimIdempotent(s: string)
    ensures Trim(Trim(s)) == Trim(s)
  {
    TrimSpec(s);
    var u := Trim(s);
    assert TrimStart(u) == u;
    assert TrimEnd(u) == u;
  }
}
