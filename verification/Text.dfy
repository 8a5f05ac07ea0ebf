/** White space as Go's `unicode.IsSpace` classifies it, and trimming. */
module Text {

  predicate IsSpace(c: char) {
    || '\U{0009}' <= c <= '\U{000D}'
    || c == ' ' || c == '\U{0085}' || c == '\U{00A0}' || c == '\U{1680}'
    || '\U{2000}' <= c <= '\U{200A}'
    || c == '\U{2028}' || c == '\U{2029}' || c == '\U{202F}' || c == '\U{205F}' || c == '\U{3000}'
  }

  function TrimLeft(s: string): (r: string)
    ensures r != "" ==> !IsSpace(r[0])
  {
    if s != "" && IsSpace(s[0]) then TrimLeft(s[1..]) else s
  }

  function TrimRight(s: string): (r: string)
    ensures r <= s
    ensures r != "" ==> !IsSpace(r[|r| - 1])
  {
    if s != "" && IsSpace(s[|s| - 1]) then TrimRight(s[..|s| - 1]) else s
  }

  /** `strings.TrimSpace`: the text without leading and trailing white space. */
  function TrimSpace(s: string): string {
    TrimRight(TrimLeft(s))
  }

  /** Text that neither starts nor ends with white space. */
  predicate Trimmed(s: string) {
    s != "" ==> !IsSpace(s[0]) && !IsSpace(s[|s| - 1])
  }

  predicate AllSpace(s: string) {
    forall c :: c in s ==> IsSpace(c)
  }

  lemma {:induction false} TrimLeftCuts(s: string) returns (left: string)
    ensures s == left + TrimLeft(s) && AllSpace(left)
    ensures TrimLeft(s) != "" ==> !IsSpace(TrimLeft(s)[0])
  {
    left := "";
    if s != "" && IsSpace(s[0]) {
      var rest := TrimLeftCuts(s[1..]);
      left := [s[0]] + rest;
      assert s == [s[0]] + s[1..] == left + TrimLeft(s[1..]);
    }
  }

  lemma {:induction false} TrimRightCuts(s: string) returns (right: string)
    ensures s == TrimRight(s) + right && AllSpace(right)
    ensures TrimRight(s) != "" ==> !IsSpace(TrimRight(s)[|TrimRight(s)| - 1])
  {
    right := "";
    if s != "" && IsSpace(s[|s| - 1]) {
      var rest := TrimRightCuts(s[..|s| - 1]);
      right := rest + [s[|s| - 1]];
      assert s == s[..|s| - 1] + [s[|s| - 1]] == TrimRight(s[..|s| - 1]) + right;
    }
  }

  /** Trimming takes away white space at both ends and nothing else, until there is none. */
  lemma TrimSpaceCuts(s: string) returns (left: string, right: string)
    ensures s == left + TrimSpace(s) + right && AllSpace(left) && AllSpace(right)
    ensures Trimmed(TrimSpace(s))
  {
    left := TrimLeftCuts(s);
    right := TrimRightCuts(TrimLeft(s));
  }

  lemma NoLongerPrefix(a: string, x: string, b: string, y: string)
    requires a + x == b + y && y != "" && !IsSpace(y[0])
    ensures AllSpace(a) ==> |a| <= |b|
  {
    assert |a| > |b| ==> a[|b|] in a && (a + x)[|b|] == a[|b|] && (b + y)[|b|] == y[0];
  }

  lemma NoLongerSuffix(x: string, a: string, y: string, b: string)
    requires x + a == y + b && y != "" && !IsSpace(y[|y| - 1])
    ensures AllSpace(a) ==> |a| <= |b|
  {
    var k := |y| - 1;
    assert |a| > |b| ==> a[k - |x|] in a && (y + b)[k] == y[k] && (x + a)[k] == a[k - |x|];
  }

  /** A text between white space is what trimming leaves. */
  lemma TrimSpaceOf(left: string, s: string, right: string)
    requires AllSpace(left) && AllSpace(right) && Trimmed(s)
    ensures TrimSpace(left + s + right) == s
  {
    var l, r := TrimSpaceCuts(left + s + right);
    OneTrimming(left, s, right, l, TrimSpace(left + s + right), r);
  }

  lemma OneTrimming(left: string, s: string, right: string, l: string, t: string, r: string)
    requires left + s + right == l + t + r && Trimmed(s) && Trimmed(t)
    requires AllSpace(left) && AllSpace(right) && AllSpace(l) && AllSpace(r)
    ensures s == t
  {
    BlankMiddle(left, s, right);
    BlankMiddle(l, t, r);
    if s != "" && t != "" {
      SameEnds(left, s, right, l, t, r);
      assert s == (left + s + right)[|left|..|left| + |s|];
      assert t == (l + t + r)[|l|..|l| + |t|];
    }
  }

  lemma SameEnds(left: string, s: string, right: string, l: string, t: string, r: string)
    requires left + s + right == l + t + r && Trimmed(s) && Trimmed(t) && s != "" && t != ""
    requires AllSpace(left) && AllSpace(right) && AllSpace(l) && AllSpace(r)
    ensures |left| == |l| && |right| == |r|
  {
    assert left + s + right == left + (s + right) && l + t + r == l + (t + r);
    NoLongerPrefix(left, s + right, l, t + r);
    NoLongerPrefix(l, t + r, left, s + right);
    NoLongerSuffix(left + s, right, l + t, r);
    NoLongerSuffix(l + t, r, left + s, right);
  }

  /** Text between white space is blank if it is empty, and only then if it is trimmed. */
  lemma BlankMiddle(left: string, s: string, right: string)
    requires AllSpace(left) && AllSpace(right) && Trimmed(s)
    ensures s == "" <==> AllSpace(left + s + right)
  {
    assert s != "" ==> (left + s + right)[|left|] == s[0] && s[0] in left + s + right;
  }

  lemma BlankIffAllSpace(s: string)
    ensures TrimSpace(s) == "" <==> AllSpace(s)
  {
    var left, right := TrimSpaceCuts(s);
    BlankMiddle(left, TrimSpace(s), right);
  }
}
