/** What the spawner guarantees over every run and every interleaving of its
    listeners, its pruner and whoever cancels contexts. */
module SpawnerTheorems {
  import opened Base
  import opened Runs
  import opened Spawner
  import opened SpawnerInvariant

  ghost predicate SpawnerRun(run: seq<State>) { IsRun(Init, Next, run) }

  lemma StepKeeps(s: State, s': State)
    requires Inv(s) && Next(s, s')
    ensures Inv(s')
  {
    var a :| Enabled(s, a) && s' == Apply(s, a);
    ActionKeeps(s, a);
  }

  lemma InvIsInductive()
    ensures Inductive(Init, Next, Inv)
  {
    forall s | Init(s) ensures Inv(s) { InitEstablishes(s); }
    forall s, s' | Inv(s) && Next(s, s') ensures Inv(s') { StepKeeps(s, s'); }
  }

  lemma AlwaysInv(run: seq<State>, i: nat)
    requires SpawnerRun(run) && i < |run|
    ensures Inv(run[i])
  {
    InvIsInductive();
    InvariantHolds(Init, Next, Inv, run, i);
  }

  /** The wait-group counter is exactly: the pruner, the running listeners and the
      table, less the connections not counted yet, plus a delete not paid yet. It is
      never negative, and never 0 again once the pruner has started, so Close can
      only time out from then on. */
  lemma WaitGroupExact(run: seq<State>, i: nat)
    requires SpawnerRun(run) && i < |run|
    ensures run[i].wg == Count(Started(run[i].pruner)) + |RunningSet(run[i].listeners)| + |run[i].connections|
                         - |InsertedSet(run[i].listeners)| + Count(run[i].pruner.Owing?)
    ensures run[i].wg >= 0
    ensures Started(run[i].pruner) ==> run[i].wg >= 1
  {
    AlwaysInv(run, i);
    InsertedAreRunning(run[i].listeners);
  }

  ghost predicate PrunerStays(s: State, t: State) { Started(s.pruner) ==> Started(t.pruner) }

  /** Whatever values the counter takes once the pruner has started, Close does not see
      a 0 among them. */
  lemma CloseCannotDrain(run: seq<State>, i: nat, counts: seq<int>)
    requires SpawnerRun(run) && i < |run| && Started(run[i].pruner)
    requires forall c :: c in counts ==> exists j :: i <= j < |run| && run[j].wg == c
    ensures 0 !in counts
  {
    if 0 in counts {
      var j :| i <= j < |run| && run[j].wg == 0;
      PrunerGoesOn(run, i, j);
      WaitGroupExact(run, j);
    }
  }

  lemma PrunerGoesOn(run: seq<State>, i: nat, j: nat)
    requires SpawnerRun(run) && i <= j < |run|
    ensures PrunerStays(run[i], run[j])
  {
    InvIsInductive();
    forall s, s' | Inv(s) && Next(s, s') ensures PrunerStays(s, s') {
      var a :| Enabled(s, a) && s' == Apply(s, a);
      ActionLeavesPruner(s, a);
    }
    RelationHolds(Init, Next, Inv, PrunerStays, run, i, j);
  }

  lemma ActionLeavesPruner(s: State, a: Action)
    requires Enabled(s, a)
    ensures PrunerStays(s, Apply(s, a))
  {
  }

  /** The ids in the table and the ids on their way into it are all different and
      below currentId, and entry `k` holds the container made with id `k`. */
  lemma IdsDistinct(run: seq<State>, i: nat, r: nat, q: nat)
    requires SpawnerRun(run) && i < |run|
    requires r < |run[i].created| && q < |run[i].created| && run[i].created[r].made && run[i].created[q].made
    ensures run[i].created[r].id < run[i].currentId
    ensures r != q ==> run[i].created[r].id != run[i].created[q].id
    ensures run[i].created[r].id in run[i].connections ==> run[i].connections[run[i].created[r].id] == r
    ensures TableInv(run[i])
  {
    var s := run[i];
    AlwaysInv(run, i);
    MadeBeforeGrows(s.created, r, |s.created|);
    if s.created[r].id == s.created[q].id { IdsDiffer(s, r, q); }
    if s.created[r].id in s.connections { IdsDiffer(s, r, s.connections[s.created[r].id]); }
  }

  /** Every id below currentId was given to a container: none was consumed by a
      failed maker. */
  lemma IdsContiguous(run: seq<State>, i: nat, id: nat)
    requires SpawnerRun(run) && i < |run| && id < run[i].currentId
    ensures exists r :: 0 <= r < |run[i].created| && run[i].created[r].made && run[i].created[r].id == id
  {
    AlwaysInv(run, i);
    HolderOf(run[i].created, |run[i].created|, id);
  }

  lemma {:induction false} HolderOf(created: seq<Container>, n: nat, id: nat)
    requires n <= |created| && id < MadeBefore(created, n)
    ensures exists r :: 0 <= r < n && created[r].made && MadeBefore(created, r) == id
  {
    if id < MadeBefore(created, n - 1) {
      HolderOf(created, n - 1, id);
    } else {
      assert created[n - 1].made && MadeBefore(created, n - 1) == id;
    }
  }

  // ----------------------------------------------------- what never changes

  ghost predicate OnItsWay(s: State, r: nat)
    requires r < |s.created|
  {
    s.created[r].owner < |s.listeners| && s.listeners[s.created[r].owner] == Running(Allocated(r))
  }

  /** Containers keep their id, owner and first cause; a container that left the
      table, or never was on its way into it, does not come back. */
  ghost predicate Settles(s: State, t: State) {
    && |s.created| <= |t.created| && s.currentId <= t.currentId
    && (s.context.Some? ==> t.context == s.context)
    && (forall r :: 0 <= r < |s.created| ==>
          && t.created[r] == s.created[r].(ctx := t.created[r].ctx)
          && (s.created[r].ctx.Some? ==> t.created[r].ctx == s.created[r].ctx))
    && (forall r :: 0 <= r < |s.created| && s.created[r].made && !OnItsWay(s, r) ==>
          && !OnItsWay(t, r)
          && (s.created[r].id !in s.connections ==> t.created[r].id !in t.connections))
  }

  /** Nothing but listener phases that hold no container. */
  lemma QuietSettles(s: State, t: State)
    requires t.created == s.created && t.currentId == s.currentId && t.context == s.context
    requires forall k :: k in t.connections ==> k in s.connections
    requires |t.listeners| == |s.listeners|
    requires forall l :: 0 <= l < |s.listeners| ==>
               t.listeners[l] == s.listeners[l] || !t.listeners[l].Running? || !t.listeners[l].adding.Allocated?
    ensures Settles(s, t)
  {
  }

  lemma MakeSettles(s: State, l: nat, ok: bool)
    requires Inv(s) && Enabled(s, Make(l, ok))
    ensures Settles(s, DoMake(s, l, ok))
  {
  }

  lemma InsertSettles(s: State, l: nat)
    requires Inv(s) && Enabled(s, Insert(l))
    ensures Settles(s, DoInsert(s, l))
  {
    var t := DoInsert(s, l);
    var q := s.listeners[l].adding.ref;
    assert AddingOk(s, l);
    forall r | 0 <= r < |s.created| && s.created[r].made && !OnItsWay(s, r)
      ensures !OnItsWay(t, r) && (s.created[r].id !in s.connections ==> t.created[r].id !in t.connections)
    {
      if s.created[r].id == s.created[q].id { IdsDiffer(s, r, q); }
    }
  }

  lemma CancelSettles(s: State, t: State)
    requires t == s.(context := t.context, created := t.created) && |t.created| == |s.created|
    requires s.context.Some? ==> t.context == s.context
    requires forall r :: 0 <= r < |s.created| ==>
               && t.created[r] == s.created[r].(ctx := t.created[r].ctx)
               && (s.created[r].ctx.Some? ==> t.created[r].ctx == s.created[r].ctx)
    ensures Settles(s, t)
  {
  }

  lemma ActionSettles(s: State, a: Action)
    requires Inv(s) && Enabled(s, a)
    ensures Settles(s, Apply(s, a))
  {
    match a
    case Make(l, ok) => MakeSettles(s, l, ok);
    case Insert(l) => InsertSettles(s, l);
    case Kill(c) => CancelSettles(s, DoKill(s, c));
    case CancelOne(r, c) => CancelSettles(s, DoCancelOne(s, r, c));
    case CheckListener(l) => QuietSettles(s, DoCheck(s, l));
    case EnterListener(l) => QuietSettles(s, DoEnter(s, l));
    case LeaveListener(l) => QuietSettles(s, DoLeave(s, l));
    case VetAdd(l) => QuietSettles(s, DoVet(s, l));
    case CountAdd(l) => QuietSettles(s, DoCount(s, l));
    case DeleteOne(k) => QuietSettles(s, DoDeleteOne(s, k));
    case _ => QuietSettles(s, Apply(s, a));
  }

  lemma NothingIsTakenBack(run: seq<State>, i: nat, j: nat)
    requires SpawnerRun(run) && i <= j < |run|
    ensures Settles(run[i], run[j])
  {
    InvIsInductive();
    forall s, s' | Inv(s) && Next(s, s') ensures Settles(s, s') {
      var a :| Enabled(s, a) && s' == Apply(s, a);
      ActionSettles(s, a);
    }
    RelationHolds(Init, Next, Inv, Settles, run, i, j);
  }

  lemma SameHolder(s: State, u: State, id: nat)
    requires Inv(s) && Inv(u) && Settles(s, u) && id in s.connections && id in u.connections
    ensures u.connections[id] == s.connections[id]
  {
    IdsDiffer(u, s.connections[id], u.connections[id]);
  }

  lemma StaysOut(s: State, t: State, u: State, id: nat)
    requires Inv(s) && Settles(s, t) && Settles(t, u) && id in s.connections && id !in t.connections
    ensures id !in u.connections
  {
    var r := s.connections[id];
    if OnItsWay(s, r) { assert AddingOk(s, s.created[r].owner); }
  }

  /** An id names one container for ever, and once pruned it is never in the table
      again. */
  lemma IdsNeverReused(run: seq<State>, i: nat, j: nat, k: nat, id: nat)
    requires SpawnerRun(run) && i <= j <= k < |run| && id in run[i].connections
    ensures id in run[k].connections ==> run[k].connections[id] == run[i].connections[id]
    ensures id !in run[j].connections ==> id !in run[k].connections
  {
    AlwaysInv(run, i);
    AlwaysInv(run, k);
    NothingIsTakenBack(run, i, k);
    NothingIsTakenBack(run, i, j);
    NothingIsTakenBack(run, j, k);
    if id in run[k].connections { SameHolder(run[i], run[k], id); }
    if id !in run[j].connections { StaysOut(run[i], run[j], run[k], id); }
  }

  /** A container missing from the table is dead, unless its AddConnection has not
      stored it yet: the pruner removes nothing alive. */
  lemma OnlyDeadArePruned(run: seq<State>, i: nat, r: nat)
    requires SpawnerRun(run) && i < |run| && r < |run[i].created|
    requires run[i].created[r].ctx.None?
    ensures run[i].created[r].made
    ensures || OnItsWay(run[i], r)
            || (run[i].created[r].id in run[i].connections && run[i].connections[run[i].created[r].id] == r)
  {
    AlwaysInv(run, i);
    assert Accounted(run[i], r);
  }
}
