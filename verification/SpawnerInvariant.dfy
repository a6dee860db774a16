/** What every step of the spawner keeps. */
module SpawnerInvariant {
  import opened Base
  import opened Spawner

  /** Successful containers among the first `n` made. */
  ghost function MadeBefore(created: seq<Container>, n: nat): nat
    requires n <= |created|
  {
    if n == 0 then 0 else MadeBefore(created, n - 1) + if created[n - 1].made then 1 else 0
  }

  lemma {:induction false} MadeBeforeSame(c: seq<Container>, d: seq<Container>, n: nat)
    requires n <= |c| && n <= |d|
    requires forall r :: 0 <= r < n ==> c[r].made == d[r].made
    ensures MadeBefore(c, n) == MadeBefore(d, n)
  {
    if n > 0 { MadeBeforeSame(c, d, n - 1); }
  }

  lemma MadeBeforeAppend(c: seq<Container>, x: Container, n: nat)
    requires n <= |c|
    ensures MadeBefore(c + [x], n) == MadeBefore(c, n)
    ensures n == |c| ==> MadeBefore(c + [x], n + 1) == MadeBefore(c, n) + Count(x.made)
  {
    MadeBeforeSame(c + [x], c, n);
  }

  lemma {:induction false} MadeBeforeGrows(c: seq<Container>, m: nat, n: nat)
    requires m <= n <= |c|
    ensures MadeBefore(c, m) <= MadeBefore(c, n)
    ensures m < n && c[m].made ==> MadeBefore(c, m) < MadeBefore(c, n)
    decreases n - m
  {
    if m < n { MadeBeforeGrows(c, m, n - 1); }
  }

  /** Successful containers get 0, 1, 2, ... in the order they are made, and a failed
      one consumes no id. */
  ghost predicate IdsInv(s: State) {
    && s.currentId == MadeBefore(s.created, |s.created|)
    && forall r :: 0 <= r < |s.created| ==> s.created[r].id == MadeBefore(s.created, r)
  }

  /** The container a listener is adding is its own. */
  ghost predicate RefOk(s: State, l: nat, r: nat) {
    r < |s.created| && s.created[r].made && s.created[r].owner == l
  }

  ghost predicate AddingOk(s: State, l: nat)
    requires l < |s.listeners|
  {
    match s.listeners[l]
    case Running(Allocated(r)) => RefOk(s, l, r) && s.created[r].id !in s.connections
    case Running(Inserted(r)) => RefOk(s, l, r)
    case _ => true
  }

  ghost predicate AddersInv(s: State) {
    forall l :: 0 <= l < |s.listeners| ==> AddingOk(s, l)
  }

  /** Table entry `k` is the container that was made with id `k`. */
  ghost predicate TableInv(s: State) {
    forall k :: k in s.connections ==>
      s.connections[k] < |s.created| && s.created[s.connections[k]].made && s.created[s.connections[k]].id == k
  }

  /** A successful container is on its way into the table, in it, or dead. */
  ghost predicate Accounted(s: State, r: nat)
    requires r < |s.created|
  {
    var c := s.created[r];
    || c.ctx.Some?
    || (c.id in s.connections && s.connections[c.id] == r)
    || (c.owner < |s.listeners| && s.listeners[c.owner] == Running(Allocated(r)))
  }

  ghost predicate FateInv(s: State) {
    && (forall r :: 0 <= r < |s.created| && s.created[r].made ==> Accounted(s, r))
    && (forall r :: 0 <= r < |s.created| && !s.created[r].made ==> s.created[r].ctx.Some?)
    && (forall r :: 0 <= r < |s.created| && s.context.Some? ==> s.created[r].ctx.Some?)
  }

  ghost predicate DeadEntry(s: State, k: nat) {
    k in s.connections && s.connections[k] < |s.created| && s.created[s.connections[k]].ctx.Some?
  }

  /** The pruner only ever deletes dead entries. */
  ghost predicate PrunerInv(s: State) {
    match s.pruner
    case Scanning(todo, found) => todo <= s.connections.Keys && forall k :: k in found ==> DeadEntry(s, k)
    case Deleting(found) => forall k :: k in found ==> DeadEntry(s, k)
    case Owing(found) => forall k :: k in found ==> DeadEntry(s, k)
    case _ => true
  }

  ghost function RunningSet(ls: seq<Listener>): set<nat> {
    set l: nat | l < |ls| && ls[l].Running?
  }

  predicate IsInserted(x: Listener) { x.Running? && x.adding.Inserted? }

  /** Listeners whose connection is in the table but not in the wait group yet. */
  ghost function InsertedSet(ls: seq<Listener>): set<nat> {
    set l: nat | l < |ls| && IsInserted(ls[l])
  }

  predicate Started(p: Pruner) { !p.NotStarted? && !p.Launched? }

  /** The exact value of the wait-group counter. */
  ghost predicate WaitGroupInv(s: State) {
    s.wg == Count(Started(s.pruner)) + |RunningSet(s.listeners)| + |s.connections|
            - |InsertedSet(s.listeners)| + Count(s.pruner.Owing?)
  }

  ghost predicate Inv(s: State) {
    IdsInv(s) && AddersInv(s) && TableInv(s) && FateInv(s) && PrunerInv(s) && WaitGroupInv(s)
  }

  // ------------------------------------------------------------- wait group

  lemma InsertedAreRunning(ls: seq<Listener>)
    ensures |InsertedSet(ls)| <= |RunningSet(ls)|
  {
    SubsetSize(InsertedSet(ls), RunningSet(ls));
  }

  lemma SubsetSize(a: set<nat>, b: set<nat>)
    requires a <= b
    ensures |a| <= |b|
  {
    assert b == a + (b - a);
  }

  lemma ListenerMoves(ls: seq<Listener>, l: nat, x: Listener)
    requires l < |ls|
    ensures |RunningSet(ls[l := x])| == |RunningSet(ls)| + Count(x.Running?) - Count(ls[l].Running?)
    ensures |InsertedSet(ls[l := x])| == |InsertedSet(ls)| + Count(IsInserted(x)) - Count(IsInserted(ls[l]))
  {
    var t := ls[l := x];
    OneApart(RunningSet(t), RunningSet(ls), l);
    OneApart(InsertedSet(t), InsertedSet(ls), l);
  }

  // ------------------------------------------------------------- preservation

  lemma InitEstablishes(s: State)
    requires Init(s)
    ensures Inv(s)
  {
    assert RunningSet(s.listeners) == {} && InsertedSet(s.listeners) == {};
  }

  /** A listener moves between phases that hold no container. */
  lemma ListenerStepKeeps(s: State, t: State, l: nat, x: Listener, wg: int)
    requires Inv(s) && l < |s.listeners| && t == SetListener(s, l, x).(wg := wg)
    requires !HoldsRef(s.listeners[l]) && !HoldsRef(x)
    requires wg == s.wg + Count(x.Running?) - Count(s.listeners[l].Running?)
    ensures Inv(t)
  {
    ListenerMoves(s.listeners, l, x);
    forall m | 0 <= m < |t.listeners| ensures AddingOk(t, m) { assert AddingOk(s, m); }
    forall r | 0 <= r < |s.created| && s.created[r].made ensures Accounted(t, r) { assert Accounted(s, r); }
  }

  predicate HoldsRef(x: Listener) { x.Running? && (x.adding.Allocated? || x.adding.Inserted?) }

  lemma AppendedIds(s: State, t: State, c: Container)
    requires IdsInv(s) && c.id == s.currentId && t.created == s.created + [c]
    requires t.currentId == s.currentId + Count(c.made)
    ensures IdsInv(t)
  {
    MadeBeforeAppend(s.created, c, |s.created|);
    forall r | 0 <= r < |t.created| ensures t.created[r].id == MadeBefore(t.created, r) {
      MadeBeforeAppend(s.created, c, r);
    }
  }

  lemma AppendedTables(s: State, t: State, c: Container)
    requires TableInv(s) && PrunerInv(s) && t.created == s.created + [c]
    requires t.connections == s.connections && t.pruner == s.pruner
    ensures TableInv(t) && PrunerInv(t)
  {
    assert forall k :: DeadEntry(s, k) ==> DeadEntry(t, k);
  }

  lemma FreshId(s: State, k: nat)
    requires IdsInv(s) && TableInv(s) && k in s.connections
    ensures k < s.currentId
  {
    MadeBeforeGrows(s.created, s.connections[k], |s.created|);
  }

  lemma MakeKeeps(s: State, l: nat, ok: bool)
    requires Inv(s) && Enabled(s, Make(l, ok))
    ensures Inv(DoMake(s, l, ok))
  {
    var t := DoMake(s, l, ok);
    AppendedIds(s, t, t.created[|s.created|]);
    AppendedTables(s, t, t.created[|s.created|]);
    ListenerMoves(s.listeners, l, t.listeners[l]);
    forall m | 0 <= m < |t.listeners| ensures AddingOk(t, m) {
      assert AddingOk(s, m);
      if m == l && s.currentId in s.connections { FreshId(s, s.currentId); }
    }
    forall r | 0 <= r < |t.created| && t.created[r].made ensures Accounted(t, r) {
      if r < |s.created| { assert Accounted(s, r); }
    }
  }

  lemma IdsDiffer(s: State, r: nat, q: nat)
    requires IdsInv(s) && r < |s.created| && q < |s.created|
    requires s.created[r].made && s.created[q].made && s.created[r].id == s.created[q].id
    ensures r == q
  {
    if r < q { MadeBeforeGrows(s.created, r, q); }
    if q < r { MadeBeforeGrows(s.created, q, r); }
  }

  lemma InsertKeeps(s: State, l: nat)
    requires Inv(s) && Enabled(s, Insert(l))
    ensures s.created[s.listeners[l].adding.ref].id !in s.connections
    ensures Inv(DoInsert(s, l))
  {
    var t := DoInsert(s, l);
    var r := s.listeners[l].adding.ref;
    assert AddingOk(s, l);
    ListenerMoves(s.listeners, l, t.listeners[l]);
    assert |t.connections| == |s.connections| + 1;
    forall m | 0 <= m < |t.listeners| ensures AddingOk(t, m) {
      assert AddingOk(s, m);
      if m != l && s.listeners[m].Running? && s.listeners[m].adding.Allocated? {
        var q := s.listeners[m].adding.ref;
        if s.created[q].id == s.created[r].id { IdsDiffer(s, q, r); }
      }
    }
    forall q | 0 <= q < |t.created| && t.created[q].made ensures Accounted(t, q) {
      assert Accounted(s, q);
      if q != r && s.created[q].id == s.created[r].id { IdsDiffer(s, q, r); }
    }
  }

  lemma CountKeeps(s: State, l: nat)
    requires Inv(s) && Enabled(s, CountAdd(l))
    ensures Inv(DoCount(s, l))
  {
    var t := DoCount(s, l);
    ListenerMoves(s.listeners, l, t.listeners[l]);
    forall m | 0 <= m < |t.listeners| ensures AddingOk(t, m) { assert AddingOk(s, m); }
    forall r | 0 <= r < |t.created| && t.created[r].made ensures Accounted(t, r) { assert Accounted(s, r); }
  }

  /** Some contexts died; nothing else changed. */
  lemma CancelsKeep(s: State, t: State)
    requires Inv(s)
    requires t == s.(context := t.context, created := t.created) && |t.created| == |s.created|
    requires forall r :: 0 <= r < |s.created| ==>
               && t.created[r] == s.created[r].(ctx := t.created[r].ctx)
               && (s.created[r].ctx.Some? ==> t.created[r].ctx.Some?)
    requires t.context.Some? ==> forall r :: 0 <= r < |t.created| ==> t.created[r].ctx.Some?
    ensures Inv(t)
  {
    CancelledIds(s, t);
    CancelledFates(s, t);
    CancelledAdders(s, t);
    assert forall k :: DeadEntry(s, k) ==> DeadEntry(t, k);
  }

  lemma CancelledFates(s: State, t: State)
    requires FateInv(s) && t == s.(context := t.context, created := t.created) && |t.created| == |s.created|
    requires forall r :: 0 <= r < |s.created| ==>
               && t.created[r] == s.created[r].(ctx := t.created[r].ctx)
               && (s.created[r].ctx.Some? ==> t.created[r].ctx.Some?)
    requires t.context.Some? ==> forall r :: 0 <= r < |t.created| ==> t.created[r].ctx.Some?
    ensures FateInv(t)
  {
    forall r | 0 <= r < |t.created| && t.created[r].made ensures Accounted(t, r) { assert Accounted(s, r); }
  }

  lemma CancelledAdders(s: State, t: State)
    requires AddersInv(s) && t == s.(context := t.context, created := t.created) && |t.created| == |s.created|
    requires forall r :: 0 <= r < |s.created| ==> t.created[r] == s.created[r].(ctx := t.created[r].ctx)
    ensures AddersInv(t)
  {
    forall m | 0 <= m < |t.listeners| ensures AddingOk(t, m) { assert AddingOk(s, m); }
  }

  lemma CancelledIds(s: State, t: State)
    requires IdsInv(s) && t.currentId == s.currentId && |t.created| == |s.created|
    requires forall r :: 0 <= r < |s.created| ==>
               t.created[r].id == s.created[r].id && t.created[r].made == s.created[r].made
    ensures IdsInv(t)
  {
    forall n | 0 <= n <= |s.created| ensures MadeBefore(t.created, n) == MadeBefore(s.created, n) {
      MadeBeforeSame(t.created, s.created, n);
    }
  }

  /** The pruner moved without deleting. */
  lemma PrunerStepKeeps(s: State, p: Pruner, wg: int)
    requires Inv(s) && PrunerInv(s.(pruner := p))
    requires wg == s.wg + Count(Started(p)) - Count(Started(s.pruner)) + Count(p.Owing?) - Count(s.pruner.Owing?)
    ensures Inv(s.(pruner := p, wg := wg))
  {
    var t := s.(pruner := p, wg := wg);
    forall m | 0 <= m < |t.listeners| ensures AddingOk(t, m) { assert AddingOk(s, m); }
    forall r | 0 <= r < |t.created| && t.created[r].made ensures Accounted(t, r) { assert Accounted(s, r); }
    PrunerIgnoresWaitGroup(s, p, wg);
  }

  lemma PrunerIgnoresWaitGroup(s: State, p: Pruner, wg: int)
    requires PrunerInv(s.(pruner := p))
    ensures PrunerInv(s.(pruner := p, wg := wg))
  {
    var a, b := s.(pruner := p), s.(pruner := p, wg := wg);
    assert forall k :: DeadEntry(a, k) ==> DeadEntry(b, k);
  }

  /** The deleted entry was dead, so its container needs no entry. */
  lemma DeleteKeepsFate(s: State, k: nat)
    requires FateInv(s) && DeadEntry(s, k) && Enabled(s, DeleteOne(k))
    ensures FateInv(DoDeleteOne(s, k))
  {
    var t := DoDeleteOne(s, k);
    forall r | 0 <= r < |t.created| && t.created[r].made ensures Accounted(t, r) {
      assert Accounted(s, r);
      if r != s.connections[k] && s.created[r].id in s.connections && s.connections[s.created[r].id] == r {
        assert s.created[r].id != k;
      }
    }
  }

  lemma DeleteKeepsAdders(s: State, k: nat)
    requires AddersInv(s) && Enabled(s, DeleteOne(k))
    ensures AddersInv(DoDeleteOne(s, k))
  {
    var t := DoDeleteOne(s, k);
    forall m | 0 <= m < |t.listeners| ensures AddingOk(t, m) { assert AddingOk(s, m); }
  }

  lemma DeleteKeepsPruner(s: State, k: nat)
    requires PrunerInv(s) && Enabled(s, DeleteOne(k))
    ensures PrunerInv(DoDeleteOne(s, k))
  {
    var t := DoDeleteOne(s, k);
    forall j | j in t.pruner.found ensures DeadEntry(t, j) { assert DeadEntry(s, j); }
  }

  lemma DeleteKeepsWaitGroup(s: State, k: nat)
    requires WaitGroupInv(s) && DeadEntry(s, k) && Enabled(s, DeleteOne(k))
    ensures WaitGroupInv(DoDeleteOne(s, k))
  {
    assert DoDeleteOne(s, k).connections.Keys == s.connections.Keys - {k};
  }

  lemma DeleteKeeps(s: State, k: nat)
    requires Inv(s) && Enabled(s, DeleteOne(k))
    ensures Inv(DoDeleteOne(s, k))
  {
    assert DeadEntry(s, k);
    DeleteKeepsFate(s, k);
    DeleteKeepsAdders(s, k);
    DeleteKeepsPruner(s, k);
    DeleteKeepsWaitGroup(s, k);
  }

  lemma ScanKeeps(s: State, k: nat)
    requires Inv(s) && Enabled(s, ScanOne(k))
    ensures Inv(DoScanOne(s, k))
  {
    var p := DoScanOne(s, k).pruner;
    forall j | j in p.found ensures DeadEntry(s.(pruner := p), j) {
      if j in s.pruner.found { assert DeadEntry(s, j); } else { assert DeadEntry(s, k); }
    }
    PrunerStepKeeps(s, p, s.wg);
  }

  lemma KeepsFound(s: State, p: Pruner)
    requires PrunerInv(s)
    requires (s.pruner.Scanning? && p == Deleting(s.pruner.found)) || (s.pruner.Owing? && p == Deleting(s.pruner.found))
    ensures PrunerInv(s.(pruner := p))
  {
    forall k | k in p.found ensures DeadEntry(s.(pruner := p), k) { assert DeadEntry(s, k); }
  }

  lemma PrunerActionKeeps(s: State, a: Action)
    requires Inv(s) && Enabled(s, a)
    requires || a.LaunchPruner? || a.StartPruner? || a.BeginScan? || a.EndScan?
             || a.PayOne? || a.EndPrune? || a.StopPruner?
    ensures Inv(Apply(s, a))
  {
    var t := Apply(s, a);
    if a.EndScan? || a.PayOne? { KeepsFound(s, t.pruner); }
    PrunerStepKeeps(s, t.pruner, t.wg);
  }

  lemma CheckKeeps(s: State, l: nat)
    requires Inv(s) && Enabled(s, CheckListener(l))
    ensures Inv(DoCheck(s, l))
  {
    ListenerStepKeeps(s, DoCheck(s, l), l, if s.context.Some? then Finished else Checked, s.wg);
  }

  lemma EnterKeeps(s: State, l: nat)
    requires Inv(s) && Enabled(s, EnterListener(l))
    ensures Inv(DoEnter(s, l))
  {
    ListenerStepKeeps(s, DoEnter(s, l), l, Running(Nothing), s.wg + 1);
  }

  lemma LeaveKeeps(s: State, l: nat)
    requires Inv(s) && Enabled(s, LeaveListener(l))
    ensures Inv(DoLeave(s, l))
  {
    ListenerStepKeeps(s, DoLeave(s, l), l, Finished, s.wg - 1);
  }

  lemma VetKeeps(s: State, l: nat)
    requires Inv(s) && Enabled(s, VetAdd(l))
    ensures Inv(DoVet(s, l))
  {
    if s.context.None? { ListenerStepKeeps(s, DoVet(s, l), l, Running(Vetted), s.wg); }
  }

  lemma ActionKeeps(s: State, a: Action)
    requires Inv(s) && Enabled(s, a)
    ensures Inv(Apply(s, a))
  {
    match a
    case CheckListener(l) => CheckKeeps(s, l);
    case EnterListener(l) => EnterKeeps(s, l);
    case LeaveListener(l) => LeaveKeeps(s, l);
    case VetAdd(l) => VetKeeps(s, l);
    case Make(l, ok) => MakeKeeps(s, l, ok);
    case Insert(l) => InsertKeeps(s, l);
    case CountAdd(l) => CountKeeps(s, l);
    case Kill(c) => CancelsKeep(s, DoKill(s, c));
    case CancelOne(r, c) => CancelsKeep(s, DoCancelOne(s, r, c));
    case ScanOne(k) => ScanKeeps(s, k);
    case DeleteOne(k) => DeleteKeeps(s, k);
    case _ => PrunerActionKeeps(s, a);
  }
}
