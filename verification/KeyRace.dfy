/** Two AddAuth calls that race for one key: a run in which the key table changes an
    entry and a minted key outlives the permissions of its minter. */
module KeyRace {
  import opened Base
  import opened Runs
  import opened Permissions
  import opened Keys
  import opened KeyRuns

  lemma Start() returns (run: seq<State>)
    ensures KeyRun(run) && run[|run| - 1] == State(map[], map[], false, false, {})
  {
    run := [State(map[], map[], false, false, {})];
  }

  lemma Step(run: seq<State>, a: Action) returns (longer: seq<State>)
    requires KeyRun(run) && Enabled(run[|run| - 1], a)
    ensures KeyRun(longer) && run <= longer && longer[|longer| - 1] == Apply(run[|run| - 1], a)
  {
    Longer(Next, run, Apply(run[|run| - 1], a));
    longer := run + [Apply(run[|run| - 1], a)];
  }

  lemma OrAllOfOne(p: Perms)
    ensures OrAll([p]) == p
  {
    assert [p][..0] == [];
  }

  /** Both adders find `k` free; the second store waits. */
  lemma BothTest(k: Key, pa: Perms, pb: Perms) returns (run: seq<State>)
    ensures KeyRun(run)
    ensures run[|run| - 1] ==
            State(map[], map[0 := Storing(k, Entry(pa, Root)), 1 := Storing(k, Entry(pb, Root))],
                  false, pa != pb, {})
  {
    OrAllOfOne(pa);
    OrAllOfOne(pb);
    run := Start();
    run := Step(run, AddAuth(0, k, [pa]));
    run := Step(run, AddAuth(1, k, [pb]));
    run := Step(run, Test(0, k));
    var s := run[|run| - 1];
    assert IsStoring(s, 0) && (Contested(s, k, Entry(pb, Root)) <==> pa != pb);
    assert s.tasks == map[0 := Storing(k, Entry(pa, Root)), 1 := Testing(Some(k), Entry(pb, Root))];
    run := Step(run, Test(1, k));
  }

  ghost predicate OnlyClaims(s: State, k: Key) { forall id :: IsStoring(s, id) ==> s.tasks[id].key == k }

  /** Key `k` has permissions `pa`, and a request asks with it for a new key. */
  lemma Ask(run0: seq<State>, k: Key, pa: Perms, desired: Perms) returns (run: seq<State>)
    requires KeyRun(run0) && Grantable(pa, desired)
    requires run0[|run0| - 1].keys == map[k := Entry(pa, Root)] && 2 !in run0[|run0| - 1].tasks
    ensures KeyRun(run) && run0 <= run
    ensures var s := run0[|run0| - 1];
            run[|run| - 1] == s.(tasks := s.tasks[2 := Testing(None, Entry(Granted(desired), Minted(k, pa, pa)))])
  {
    GrantableExact(pa, desired);
    assert Admits(NewKey, pa);
    run := Step(run0, Gate(2, NewKey, k));
    run := Step(run, LookUp(2, desired));
  }

  /** The request draws `c` and stores it. */
  lemma Mint(run0: seq<State>, k: Key, c: Key, e: Entry) returns (run: seq<State>)
    requires KeyRun(run0) && k != c && c < DRAW_LIMIT && c !in run0[|run0| - 1].keys
    requires 2 in run0[|run0| - 1].tasks && run0[|run0| - 1].tasks[2] == Testing(None, e)
    requires OnlyClaims(run0[|run0| - 1], k)
    ensures KeyRun(run) && run0 <= run
    ensures var s := run0[|run0| - 1];
            run[|run| - 1] == s.(keys := s.keys[c := e], tasks := s.tasks[2 := Finished])
  {
    var s := run0[|run0| - 1];
    assert !Contested(s, c, e);
    run := Step(run0, Test(2, c));
    assert run[|run| - 1] == s.(tasks := s.tasks[2 := Storing(c, e)]);
    run := Step(run, Store(2));
  }

  /** Whatever the two root permissions and the request: once the second adder has
      stored, the entry of `k` is the second one, its child was minted from the first,
      and the line from `k` to `c` is in order if and only if `pb` would have granted it. */
  lemma RacingRoots(k: Key, c: Key, pa: Perms, pb: Perms, desired: Perms) returns (run: seq<State>, i: nat)
    requires k != c && c < DRAW_LIMIT && Grantable(pa, desired)
    ensures KeyRun(run) && i < |run|
    ensures k in run[i].keys && run[i].keys[k] == Entry(pa, Root)
    ensures var t := run[|run| - 1];
            && k in t.keys && t.keys[k] == Entry(pb, Root)
            && c in t.keys && t.keys[c].perms == Granted(desired) && Line(t, [k, c])
            && (LineageOk(t) <==> MintOk(pb, Granted(desired)))
  {
    run := BothTest(k, pa, pb);
    run := Step(run, Store(0));
    i := |run| - 1;
    assert run[i].keys == map[k := Entry(pa, Root)];
    run := Ask(run, k, pa, desired);
    run := Mint(run, k, c, Entry(Granted(desired), Minted(k, pa, pa)));
    run := Step(run, Store(1));
    RacedLineage(run[|run| - 1], k, c, pa, pb, desired);
  }

  lemma RacedLineage(t: State, k: Key, c: Key, pa: Perms, pb: Perms, desired: Perms)
    requires k != c
    requires t.keys == map[k := Entry(pa, Root), c := Entry(Granted(desired), Minted(k, pa, pa))][k := Entry(pb, Root)]
    ensures k in t.keys && t.keys[k] == Entry(pb, Root)
    ensures c in t.keys && t.keys[c].perms == Granted(desired) && Line(t, [k, c])
    ensures LineageOk(t) <==> MintOk(pb, Granted(desired))
  {
    assert t.keys[c].origin.Minted? && t.keys[c].origin.minter == k;
    assert LinkOk(t, c) <==> MintOk(pb, Granted(desired));
  }

  /** A key that may do anything is replaced by one that may only read the status,
      after it minted a key that may do anything. */
  lemma TableCanChange() returns (run: seq<State>, i: nat)
    ensures KeyRun(run) && i < |run| && !Grows(run[i], run[|run| - 1]) && !LineageOk(run[|run| - 1])
  {
    assert Grantable(0x7f, 0x7f) && !MintOk(0x01, Granted(0x7f));
    run, i := RacingRoots(1, 2, 0x7f, 0x01, 0x7f);
  }
}
