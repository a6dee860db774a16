/** A run in which the pruner panics: two subscribers, both cancelled. */
module PruneScenario {
  import opened Base
  import opened Runs
  import opened SwapRemove
  import opened Traffic

  lemma Step(run: seq<State>, a: Action) returns (longer: seq<State>)
    requires IsRun(Init, Next, run) && Enabled(run[|run| - 1], a)
    ensures IsRun(Init, Next, longer) && longer[|longer| - 1] == Apply(run[|run| - 1], a)
  {
    Longer(Next, run, Apply(run[|run| - 1], a));
    longer := run + [Apply(run[|run| - 1], a)];
  }

  /** The scan lists every member if all are dead. */
  lemma {:induction false} AllDead(members: seq<nat>, live: nat -> bool)
    requires forall j :: 0 <= j < |members| ==> !live(members[j])
    ensures |DeadIndexes(members, live)| == |members|
    ensures forall j :: 0 <= j < |members| ==> DeadIndexes(members, live)[j] == j
  {
    if members != [] { AllDead(members[..|members| - 1], live); }
  }

  /** Two or more subscribers, all of them dead: the pass panics. */
  lemma AllDeadPanics(s: State)
    requires MembersKnown(s) && |s.members| >= 2
    requires forall j :: 0 <= j < |s.members| ==> !s.subs[s.members[j]].alive
    ensures PrunedMembers(DoScan(s)) == None
  {
    AllDead(s.members, (m: nat) => m < |s.subs| && s.subs[m].alive);
    AscendingInBounds(s.members, DeadMembers(s));
  }

  lemma BothCancelled() returns (run: seq<State>)
    ensures IsRun(Init, Next, run)
    ensures run[|run| - 1].members == [0, 1] && run[|run| - 1].scanned == None
    ensures run[|run| - 1].subs == [Subscriber(false, []), Subscriber(false, [])]
  {
    run := [State(0, [], [], EMPTY_SLOT, [], {}, [], [], [], None, [], None)];
    run := Step(run, Subscribe(true));
    assert run[|run| - 1].subs == [Subscriber(true, [])];
    run := Step(run, Subscribe(true));
    assert run[|run| - 1].members == [0, 1];
    run := Step(run, Cancel(0));
    run := Step(run, Cancel(1));
  }

  /** So the system reaches a state in which the pruner panics. */
  lemma PrunerCanPanic() returns (run: seq<State>)
    ensures IsRun(Init, Next, run) && run[|run| - 1].members == [0, 1]
    ensures run[|run| - 1].scanned.Some? && PrunedMembers(run[|run| - 1]) == None
  {
    run := BothCancelled();
    AllDeadPanics(run[|run| - 1]);
    run := Step(run, Scan);
  }
}
