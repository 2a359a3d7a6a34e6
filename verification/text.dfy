/** Splitting strings at a space, used to read back the phrases and search
    queries the handlers build. */
module Text {
  import opened Nullable

  predicate EndsWith(s: string, suffix: string) {
    |suffix| <= |s| && s[|s| - |suffix|..] == suffix
  }

  /** `s` is a single word: it holds no space character. */
  predicate NoSpace(s: string) {
    forall i :: 0 <= i < |s| ==> s[i] != ' '
  }

  /** Index of the first space in `s`, or `|s|` when there is none. */
  function FirstSpace(s: string): (k: nat)
    ensures k <= |s|
    ensures forall i :: 0 <= i < k ==> s[i] != ' '
    ensures k < |s| ==> s[k] == ' '
  {
    if |s| == 0 || s[0] == ' ' then 0 else 1 + FirstSpace(s[1..])
  }

  /** Index of the last space in `s`, or -1 when there is none. */
  function LastSpace(s: string): (k: int)
    ensures -1 <= k < |s|
    ensures forall i :: k < i < |s| ==> s[i] != ' '
    ensures 0 <= k ==> s[k] == ' '
  {
    if |s| == 0 then -1
    else if s[|s| - 1] == ' ' then |s| - 1
    else LastSpace(s[..|s| - 1])
  }

  /** `s` cut at its first space into the word before it and the rest after it. */
  function SplitFirst(s: string): (r: Option<(string, string)>)
    ensures r.Some? ==> s == r.value.0 + " " + r.value.1 && NoSpace(r.value.0)
    ensures r.None? ==> NoSpace(s)
    ensures !NoSpace(s) ==> r.Some?
  {
    var k := FirstSpace(s);
    if k == |s| then None
    else
      var before, after := s[..k], s[k + 1..];
      assert s == before + " " + after;
      Some((before, after))
  }

  /** `s` cut at its last space into the rest before it and the word after it. */
  function SplitLast(s: string): (r: Option<(string, string)>)
    ensures r.Some? ==> s == r.value.0 + " " + r.value.1 && NoSpace(r.value.1)
    ensures r.None? ==> NoSpace(s)
    ensures !NoSpace(s) ==> r.Some?
  {
    var k := LastSpace(s);
    if k < 0 then None
    else
      var before, after := s[..k], s[k + 1..];
      assert s == before + " " + after;
      Some((before, after))
  }

  lemma SplitFirstOf(a: string, b: string)
    requires NoSpace(a)
    ensures SplitFirst(a + " " + b) == Some((a, b))
  {
    var s := a + " " + b;
    assert s[|a|] == ' ';
    var k := FirstSpace(s);
    assert k == |a|;
    assert s[..k] == a;
    assert s[k + 1..] == b;
  }

  lemma SplitLastOf(a: string, b: string)
    requires NoSpace(b)
    ensures SplitLast(a + " " + b) == Some((a, b))
  {
    var s := a + " " + b;
    assert s[|a|] == ' ';
    var k := LastSpace(s);
    assert k == |a|;
    assert s[..k] == a;
    assert s[k + 1..] == b;
  }
}
