/** Small definitions shared by the other modules. */
module Common {

  datatype Option<+T> = None | Some(value: T)

  /** No element occurs twice. */
  ghost predicate NoDup<T>(s: seq<T>) {
    forall i, j :: 0 <= i < j < |s| ==> s[i] != s[j]
  }

  function Elems<T(==)>(s: seq<T>): set<T> {
    set x | x in s
  }

  function Pow2(n: nat): (r: nat)
    ensures r >= 1
  {
    if n == 0 then 1 else 2 * Pow2(n - 1)
  }

  lemma MapGrows<K, V>(m: map<K, V>, k: K, v: V)
    requires k !in m
    ensures |m[k := v]| == |m| + 1
  {
    assert m[k := v].Keys == m.Keys + {k};
    assert |m.Keys + {k}| == |m.Keys| + 1;
    assert |m| == |m.Keys| && |m[k := v]| == |m[k := v].Keys|;
  }

  lemma MapShrinks<K, V>(m: map<K, V>, k: K)
    requires k in m
    ensures |m - {k}| == |m| - 1
  {
    assert (m - {k}).Keys == m.Keys - {k};
    assert |m.Keys - {k}| == |m.Keys| - 1;
    assert |m| == |m.Keys| && |m - {k}| == |(m - {k}).Keys|;
  }

  /** White space as Go's strings.TrimSpace sees it, within Latin-1. */
  predicate IsSpace(c: char) {
    c == ' ' || c == '\t' || c == '\n' || c == '\r' || c == '\U{B}' || c == '\U{C}'
    || c == '\U{85}' || c == '\U{A0}'
  }

  /** By code point: tab to carriage return, blank, next line and the unbreakable blank. */
  lemma SpacesAre(c: char)
    ensures IsSpace(c) <==> c as int in {9, 10, 11, 12, 13, 32, 0x85, 0xA0}
  {
  }

  function TrimLeft(s: string): (r: string) {
    if s != [] && IsSpace(s[0]) then TrimLeft(s[1..]) else s
  }

  function TrimRight(s: string): (r: string) {
    if s != [] && IsSpace(s[|s| - 1]) then TrimRight(s[..|s| - 1]) else s
  }

  /** strings.TrimSpace. */
  function TrimSpace(s: string): (r: string) {
    TrimRight(TrimLeft(s))
  }

  /** A trimmed text has no blank at either end. */
  predicate Trimmed(s: string) {
    s != [] ==> !IsSpace(s[0]) && !IsSpace(s[|s| - 1])
  }

  lemma {:induction false} TrimLeftStart(s: string)
    ensures TrimLeft(s) != [] ==> !IsSpace(TrimLeft(s)[0])
    decreases |s|
  {
    if s != [] && IsSpace(s[0]) { TrimLeftStart(s[1..]); }
  }

  lemma {:induction false} TrimRightEnds(s: string)
    ensures TrimRight(s) <= s
    ensures TrimRight(s) != [] ==> !IsSpace(TrimRight(s)[|TrimRight(s)| - 1])
    decreases |s|
  {
    if s != [] && IsSpace(s[|s| - 1]) { TrimRightEnds(s[..|s| - 1]); }
  }

  lemma TrimSpaceTrims(s: string)
    ensures Trimmed(TrimSpace(s))
  {
    TrimLeftStart(s);
    TrimRightEnds(TrimLeft(s));
  }

  lemma TrimSpaceFixes(s: string)
    ensures TrimSpace(s) == s <==> Trimmed(s)
  {
    TrimSpaceTrims(s);
  }

  predicate AllSpace(s: string) {
    forall c :: c in s ==> IsSpace(c)
  }

  lemma {:induction false} TrimLeftSplits(s: string) returns (blanks: string)
    ensures AllSpace(blanks) && s == blanks + TrimLeft(s)
    decreases |s|
  {
    if s != [] && IsSpace(s[0]) {
      var rest := TrimLeftSplits(s[1..]);
      assert TrimLeft(s) == TrimLeft(s[1..]);
      blanks := [s[0]] + rest;
      assert s == [s[0]] + s[1..];
    } else {
      blanks := "";
    }
  }

  lemma {:induction false} TrimRightSplits(s: string) returns (blanks: string)
    ensures AllSpace(blanks) && s == TrimRight(s) + blanks
    decreases |s|
  {
    if s != [] && IsSpace(s[|s| - 1]) {
      var rest := TrimRightSplits(s[..|s| - 1]);
      blanks := rest + [s[|s| - 1]];
      assert s == s[..|s| - 1] + [s[|s| - 1]];
    } else {
      blanks := "";
    }
  }

  /** TrimSpace takes away blanks at the two ends, all of them, and nothing else. */
  lemma TrimSpaceSplits(s: string) returns (before: string, after: string)
    ensures s == before + TrimSpace(s) + after && AllSpace(before) && AllSpace(after) && Trimmed(TrimSpace(s))
  {
    before := TrimLeftSplits(s);
    after := TrimRightSplits(TrimLeft(s));
    TrimSpaceTrims(s);
  }
}
