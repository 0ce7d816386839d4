/** Small facts about strings (`seq<char>`) that the SQL and DSN lemmas share. */
module Strings {

  /** The index of the first `c` in `s`, or `|s|` when `s` holds no `c`. */
  function FirstIndex(s: string, c: char): (i: nat)
    ensures i <= |s|
    ensures i < |s| ==> s[i] == c
    ensures forall j :: 0 <= j < i ==> s[j] != c
  {
    if |s| == 0 then 0
    else if s[0] == c then 0
    else 1 + FirstIndex(s[1..], c)
  }

  /** `s` cut at every `sep`; the pieces never contain `sep` and there is always at least one. */
  function Split(s: string, sep: char): (parts: seq<string>)
    ensures |parts| >= 1
    ensures forall k :: 0 <= k < |parts| ==> sep !in parts[k]
    decreases |s|
  {
    var i := FirstIndex(s, sep);
    if i == |s| then [s]
    else [s[..i]] + Split(s[i + 1..], sep)
  }

  /** A `key=value` segment cut at its first `=`; a segment without `=` is all key. */
  function KeyValue(segment: string): (kv: (string, string))
    ensures '=' !in kv.0
    ensures '=' in segment ==> segment == kv.0 + "=" + kv.1
    ensures '=' !in segment ==> kv == (segment, "")
  {
    var i := FirstIndex(segment, '=');
    if i == |segment| then (segment, "")
    else
      assert segment == segment[..i] + "=" + segment[i + 1..];
      (segment[..i], segment[i + 1..])
  }

  lemma FirstIndexAt(a: string, b: string, c: char)
    requires c !in a
    ensures FirstIndex(a + [c] + b, c) == |a|
  {
    var s := a + [c] + b;
    assert s[|a|] == c;
    assert forall j :: 0 <= j < |a| ==> s[j] == a[j];
  }

  lemma SplitCons(a: string, b: string, sep: char)
    requires sep !in a
    ensures Split(a + [sep] + b, sep) == [a] + Split(b, sep)
  {
    var s := a + [sep] + b;
    FirstIndexAt(a, b, sep);
    assert s[..|a|] == a;
    assert s[|a| + 1..] == b;
  }

  lemma SplitWhole(a: string, sep: char)
    requires sep !in a
    ensures Split(a, sep) == [a]
  {
  }

  lemma KeyValueOf(k: string, v: string)
    requires '=' !in k
    ensures KeyValue(k + "=" + v) == (k, v)
  {
    var s := k + "=" + v;
    FirstIndexAt(k, v, '=');
    assert s[..|k|] == k;
    assert s[|k| + 1..] == v;
  }

  /** Text sitting between the same prefix and the same suffix is determined by the whole. */
  lemma CancelAround(p: string, a: string, b: string, s: string)
    requires p + a + s == p + b + s
    ensures a == b
  {
    var x := p + a + s;
    assert |a| == |b|;
    assert a == x[|p|..|p| + |a|];
    assert b == (p + b + s)[|p|..|p| + |b|];
  }

  /** Proof hint: two adjacent literal pieces of a concatenation may be merged into one. */
  lemma Regroup(a: string, x: string, y: string, b: string)
    ensures a + x + (y + b) == a + (x + y) + b
  {
  }
}
