/** Joining and splitting reason lists on ", ". */
module Reasons {

  const SEPARATOR := ", "

  function Join(parts: seq<string>): string {
    if parts == [] then ""
    else if |parts| == 1 then parts[0]
    else parts[0] + SEPARATOR + Join(parts[1..])
  }

  predicate SeparatorAt(s: string, i: nat) {
    i + 1 < |s| && s[i] == ',' && s[i + 1] == ' '
  }

  /** No separator occurs in `s`. */
  predicate Plain(s: string) {
    forall i: nat :: i < |s| ==> !SeparatorAt(s, i)
  }

  /** The first separator at or after `from`, or the length of `s`. */
  function Find(s: string, from: nat): (i: nat)
    requires from <= |s|
    ensures from <= i <= |s|
    ensures i < |s| ==> SeparatorAt(s, i)
    ensures forall k: nat :: from <= k < i ==> !SeparatorAt(s, k)
    decreases |s| - from
  {
    if from == |s| || SeparatorAt(s, from) then from else Find(s, from + 1)
  }

  function Split(s: string): seq<string>
    decreases |s|
  {
    var i := Find(s, 0);
    if i == |s| then [s] else [s[..i]] + Split(s[i + 2..])
  }

  lemma SplitAtFirst(p: string, rest: string)
    requires Plain(p)
    ensures Split(p + SEPARATOR + rest) == [p] + Split(rest)
  {
    var s := p + SEPARATOR + rest;
    assert s[|p|] == ',' && s[|p| + 1] == ' ';
    assert SeparatorAt(s, |p|);
    forall k: nat | k < |p| ensures !SeparatorAt(s, k) {
      assert s[k] == p[k] && !SeparatorAt(p, k);
      assert k + 1 < |p| ==> s[k + 1] == p[k + 1];
    }
    assert Find(s, 0) == |p|;
    assert s[..|p|] == p && s[|p| + 2..] == rest;
  }

  lemma PlainIsWhole(p: string)
    requires Plain(p)
    ensures Split(p) == [p]
  {
  }

  lemma {:induction false} SplitUndoesJoin(parts: seq<string>)
    requires parts != [] && forall k :: 0 <= k < |parts| ==> Plain(parts[k])
    ensures Split(Join(parts)) == parts
    decreases |parts|
  {
    hide Plain, Split;
    if |parts| == 1 {
      PlainIsWhole(parts[0]);
    } else {
      var rest := parts[1..];
      forall k | 0 <= k < |rest| ensures Plain(rest[k]) {
        assert rest[k] == parts[k + 1];
      }
      SplitUndoesJoin(rest);
      SplitAtFirst(parts[0], Join(rest));
      assert Join(parts) == parts[0] + SEPARATOR + Join(rest);
      assert [parts[0]] + rest == parts;
    }
  }
}
