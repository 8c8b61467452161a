/** Continuations of a run of the whole system that ingest nothing more for a user. */
module Continuations {
  import opened Pipeline
  import opened PipelineInv
  import B = Bus

  ghost predicate Admits(a: Action, user: string) {
    a.Ingest? && a.i.Accept? && a.i.event.userId == user
  }

  ghost predicate NoIngestOf(acts: seq<Action>, user: string) {
    forall i :: 0 <= i < |acts| ==> !Admits(acts[i], user)
  }

  lemma {:induction false} RunsSplit(s: State, first: seq<Action>, second: seq<Action>)
    requires Runs(s, first) && Runs(Exec(s, first), second)
    ensures Runs(s, first + second) && Exec(s, first + second) == Exec(Exec(s, first), second)
    decreases |first|
  {
    if first == [] {
      assert first + second == second;
    } else {
      assert (first + second)[1..] == first[1..] + second && (first + second)[0] == first[0];
      RunsSplit(Next(s, first[0]), first[1..], second);
    }
  }

  lemma OneFirst(s: State, a: Action, rest: seq<Action>)
    requires Enabled(s, a) && Runs(Next(s, a), rest)
    ensures Runs(s, [a] + rest) && Exec(s, [a] + rest) == Exec(Next(s, a), rest)
  {
    hide Enabled, Next;
    assert ([a] + rest)[1..] == rest;
  }

  lemma FirstOff(s: State, acts: seq<Action>)
    requires Runs(s, acts) && acts != []
    ensures Enabled(s, acts[0]) && Runs(Next(s, acts[0]), acts[1..])
    ensures Exec(s, acts) == Exec(Next(s, acts[0]), acts[1..])
  {
    hide Enabled, Next;
  }

  lemma NoneYet(s: State)
    ensures Runs(s, []) && Exec(s, []) == s
  {
  }

  /** A run, cut at any point. */
  lemma {:induction false} RunsCut(s: State, acts: seq<Action>, n: nat)
    requires Runs(s, acts) && n <= |acts|
    ensures Runs(s, acts[..n]) && Runs(Exec(s, acts[..n]), acts[n..])
    ensures Exec(s, acts) == Exec(Exec(s, acts[..n]), acts[n..])
    decreases n
  {
    hide Next, Enabled, Runs, Exec;
    if n == 0 {
      NoneYet(s);
      assert acts[..0] == [] && acts[0..] == acts;
    } else {
      FirstOff(s, acts);
      var rest := acts[1..];
      RunsCut(Next(s, acts[0]), rest, n - 1);
      OneFirst(s, acts[0], rest[..n - 1]);
      assert acts[..n] == [acts[0]] + rest[..n - 1] && acts[n..] == rest[n - 1..];
    }
  }

  lemma Then(s: State, acts: seq<Action>, a: Action)
    requires Runs(s, acts) && Enabled(Exec(s, acts), a)
    ensures Runs(s, acts + [a]) && Exec(s, acts + [a]) == Next(Exec(s, acts), a)
  {
    var mid := Exec(s, acts);
    hide Enabled, Next;
    assert [a][1..] == [] && Runs(Next(mid, a), []) && Exec(Next(mid, a), []) == Next(mid, a);
    assert Exec(mid, [a]) == Exec(Next(mid, a), [a][1..]);
    RunsSplit(s, acts, [a]);
  }

  /** What a worker holds is there. */
  ghost predicate HandsAreReal(s: State) {
    && (InHand(s.fraud.stage) ==> s.fraud.log != [])
    && (CrmInHand(s.crm.stage) ==> s.crm.current < |s.bus.screened.calls|)
  }

  lemma SoundHandsAreReal(s: State)
    requires Inv(s)
    ensures HandsAreReal(s)
  {
    assert CrmInHand(s.crm.stage) ==> s.crm.current in Qualified(s.crm, s.bus.screened);
  }
}
