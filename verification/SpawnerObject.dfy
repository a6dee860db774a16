/** The ProxySpawner object: its methods as the program runs them, each proved to be
    the steps of the machines Spawner, Traffic and Listeners. */
module SpawnerObject {
  import opened Base
  import opened Runs
  import opened Contexts
  import opened Sequences
  import opened SwapRemove
  import L = Listeners
  import S = Spawner
  import T = Traffic
  import opened Forwarding

  /** AddConnection with nobody in between. */
  function Added(s: S.State, l: nat, ok: bool): S.State
    requires l < |s.listeners| && s.listeners[l] == S.Running(S.Nothing)
  {
    if s.context.Some? then s
    else
      var m := S.DoMake(S.DoVet(s, l), l, ok);
      if ok then S.DoCount(S.DoInsert(m, l), l) else m
  }

  /** What happens at the select of handlePacket, in order: someone cancels the
      container, the select takes its Done case, or it takes a packet, which it may do
      with a dead context too. */
  datatype Arrival =
    | Dies(cause: Cause)
    | Done
    | Packet(size: nat, serverbound: bool, allow: bool, ready: set<nat>, failure: Ctx)

  /** The packets among the arrivals. */
  function JobsOf(c: nat, arrivals: seq<Arrival>): (jobs: seq<Job>)
    ensures forall j :: 0 <= j < |jobs| ==> jobs[j].container == c && !jobs[j].parcel.injected
  {
    if arrivals == [] then []
    else
      JobsOf(c, arrivals[..|arrivals| - 1]) + JobOf(c, arrivals[|arrivals| - 1])
  }

  function JobOf(c: nat, a: Arrival): seq<Job> {
    match a
    case Packet(size, serverbound, allow, ready, failure) =>
      [Job(c, Parcel(size, false, serverbound, allow, ready, failure))]
    case _ => []
  }

  lemma JobsAppend(c: nat, arrivals: seq<Arrival>, i: nat)
    requires i < |arrivals|
    ensures JobsOf(c, arrivals[..i + 1]) == JobsOf(c, arrivals[..i]) + JobOf(c, arrivals[i])
  {
    assert arrivals[..i + 1][..i] == arrivals[..i];
  }

  lemma OneMoreArrival(before: seq<S.Container>, mid: seq<S.Container>, after: seq<S.Container>, c: nat,
                       arrivals: seq<Arrival>, i: nat)
    requires c < |before| && i < |arrivals| && Dealt(before, mid, c, arrivals, i) && OnlyCancelled(mid, after, c)
    requires after[c].ctx == if arrivals[i].Dies? then Cancel(mid[c].ctx, arrivals[i].cause) else mid[c].ctx
    ensures arrivals[i].Done? && mid[c].ctx.Some? ==>
              Dealt(before, after, c, arrivals, i) && EndsWith(before[c].ctx.None?, arrivals, i)
    ensures !(arrivals[i].Done? && mid[c].ctx.Some?) ==> Dealt(before, after, c, arrivals, i + 1)
  {
  }

  /** The loop ran through the first `i` arrivals, and only they touched the containers:
      container `c` is dead if one of them killed it. */
  ghost predicate Dealt(before: seq<S.Container>, after: seq<S.Container>, c: nat, arrivals: seq<Arrival>, i: nat)
    requires c < |before|
  {
    && i <= |arrivals| && OnlyCancelled(before, after, c)
    && (after[c].ctx.None? <==> LivesAt(before[c].ctx.None?, arrivals, i))
    && RunsTo(before[c].ctx.None?, arrivals, i)
  }

  /** The container still lives when arrival `i` comes. */
  ghost predicate LivesAt(alive: bool, arrivals: seq<Arrival>, i: nat)
    requires i <= |arrivals|
  {
    alive && forall j :: 0 <= j < i ==> !arrivals[j].Dies?
  }

  /** The loop ends with arrival `n`: that is the first Done with a dead container, or
      there is none. The Done case is not ready while the container lives. */
  ghost predicate EndsWith(alive: bool, arrivals: seq<Arrival>, n: nat) {
    && n <= |arrivals|
    && (n < |arrivals| ==> arrivals[n].Done? && !LivesAt(alive, arrivals, n))
    && RunsTo(alive, arrivals, n)
  }

  ghost predicate RunsTo(alive: bool, arrivals: seq<Arrival>, n: nat)
    requires n <= |arrivals|
  {
    forall i :: 0 <= i < n && arrivals[i].Done? ==> LivesAt(alive, arrivals, i)
  }

  /** The traffic with the writes and the errors it led to. */
  datatype Book = Book(flow: T.State, wire: seq<(nat, bool)>, errors: seq<Cause>)

  /** One packet. */
  ghost predicate Entered(a: Book, b: Book, c: nat, p: Parcel)
    requires Idle(a.flow) && c < |a.flow.bytesSent|
  {
    && Effect(a.flow, b.flow, c, p) && Steps(a.flow, b.flow)
    && b.wire == a.wire + NewWrites(T.SlotLive(a.flow), p, |a.flow.ops|)
    && b.errors == a.errors + NewErrors(T.SlotLive(a.flow), p)
  }

  /** Some packets. */
  ghost predicate Came(a: Book, b: Book, jobs: seq<Job>) {
    && Outcome(a.flow, b.flow, jobs) && Steps(a.flow, b.flow)
    && b.wire == a.wire + Writes(jobs, T.SlotLive(a.flow), |a.flow.ops|)
    && b.errors == a.errors + WriteErrors(jobs, T.SlotLive(a.flow))
  }

  /** One packet more. */
  lemma CameNext(a: Book, b: Book, b': Book, jobs: seq<Job>, job: Job)
    requires Came(a, b, jobs) && job.container < |b.flow.bytesSent| && Idle(b.flow)
    requires Entered(b, b', job.container, job.parcel)
    ensures Came(a, b', jobs + [job])
  {
    assert Outcome(a.flow, b'.flow, jobs + [job]) by { OutcomeAdd(a.flow, b.flow, b'.flow, jobs, job); }
    assert Steps(a.flow, b'.flow) by { StepsOn(a.flow, b.flow, b'.flow); }
    BookNext(a, b, b', jobs, job, T.SlotLive(a.flow));
  }

  lemma BookNext(a: Book, b: Book, b': Book, jobs: seq<Job>, job: Job, live: bool)
    requires b.wire == a.wire + Writes(jobs, live, |a.flow.ops|) && b.errors == a.errors + WriteErrors(jobs, live)
    requires |b.flow.ops| == |a.flow.ops| + |jobs|
    requires b'.wire == b.wire + NewWrites(live, job.parcel, |b.flow.ops|)
    requires b'.errors == b.errors + NewErrors(live, job.parcel)
    ensures b'.wire == a.wire + Writes(jobs + [job], live, |a.flow.ops|)
    ensures b'.errors == a.errors + WriteErrors(jobs + [job], live)
  {
    WritesAppend(jobs, live, |a.flow.ops|, job);
    ErrorsAppend(jobs, live, job);
  }

  lemma CameNone(a: Book)
    requires InRange(a.flow)
    ensures Came(a, a, [])
  {
    NothingDone(a.flow);
    NoStep(a.flow);
  }

  class ProxySpawner {
    var context: Ctx
    var wg: int
    var errors: seq<Cause>        // what errorCallback was given
    var currentId: nat
    var created: seq<S.Container>
    var connections: map<nat, nat>

    var totalSent: nat
    var bytesSent: seq<nat>
    var ops: seq<T.Op>
    var sendCallback: Option<nat>
    var callbackCtx: Option<nat>
    var callbackCancel: Option<nat>
    var regs: seq<bool>
    var released: set<nat>
    var consults: seq<(nat, nat)>
    var subs: seq<T.Subscriber>
    var rcChan: seq<nat>
    var sent: seq<nat>
    var wire: seq<(nat, bool)>    // successful writes, with their direction

    function Table(ls: seq<S.Listener>, p: S.Pruner): S.State
      reads this
    {
      S.State(context, currentId, created, connections, ls, p, wg)
    }

    function Flow(): T.State
      reads this
    {
      T.State(totalSent, bytesSent, ops, T.Slot(sendCallback, callbackCtx, callbackCancel),
              regs, released, consults, subs, rcChan, None, sent, None)
    }

    function Ledger(): Book
      reads this
    {
      Book(Flow(), wire, errors)
    }

    /** What the methods below rely on; FlowOk holds in every reachable state. */
    ghost predicate FlowOk()
      reads this
    {
      Idle(Flow()) && InRange(Flow()) && Distinct(rcChan)
    }

    ghost predicate RefsOk()
      reads this
    {
      forall k :: k in connections ==> connections[k] < |created|
    }

    constructor ()
      ensures T.Init(Flow()) && FlowOk()
      ensures context.None? && wg == 0 && errors == [] && RefsOk()
      ensures currentId == 0 && created == [] && connections == map[]
    {
      context, wg, errors := None, 0, [];
      currentId, created, connections := 0, [], map[];
      totalSent, bytesSent, ops := 0, [], [];
      sendCallback, callbackCtx, callbackCancel := None, None, None;
      regs, released, consults := [], {}, [];
      subs, rcChan, sent, wire := [], [], [], [];
    }

    // ------------------------------------------------------------ listeners

    /** addListener, with `script` for what its listener and the rest of the program
        do. Returns the number of runs and the last cause. */
    method AddListener(script: nat -> L.Turn) returns (runs: nat, last: Ctx)
      modifies `context, `wg, `errors
      ensures runs == L.RunCount(old(context), script) && runs <= 4
      ensures runs > 0 ==> last == L.EndOf(old(context), script, runs - 1).own
      ensures context == L.FinalSpawner(old(context), script)
      ensures errors == old(errors) + L.Reported(old(context), script)
      ensures wg == old(wg)
    {
      runs, last := 0, None;
      if context.Some? {
        return;
      }
      ghost var spawner := context;
      var retryCount := 0;
      wg := wg + 1;
      while true
        invariant retryCount == runs <= L.MAX_RETRIES
        invariant context == L.StartOf(spawner, script, runs)
        invariant L.RunCount(spawner, script) == L.RunsFrom(spawner, script, runs)
        invariant errors == old(errors) && wg == old(wg) + 1
        decreases L.MAX_RETRIES - runs
      {
        var p := L.Play(L.Pair(context, Child(context)), script(runs).during);
        context, last := p.spawner, p.own;
        runs := runs + 1;
        context := CancelAll(context, script(runs - 1).after);
        if last.None? {
          context := Cancel(context, L.NOT_CANCELLED);
          wg := wg - 1;
          return;
        }
        var cause := last.value;
        if Is(cause, ProxyRetry) {
          if retryCount >= 3 {
            errors := errors + [Plain(ProxyMaxRetries)];
            context := Cancel(context, cause);
            wg := wg - 1;
            return;
          }
          retryCount := retryCount + 1;
        } else if Is(cause, ProxyClosedOk) {
          wg := wg - 1;
          return;
        } else {
          errors := errors + [cause];
          context := Cancel(context, cause);
          wg := wg - 1;
          return;
        }
      }
    }

    /** AddConnection called by listener `l`. */
    method AddConnection(ghost ls: seq<S.Listener>, ghost p: S.Pruner, l: nat, ok: bool, failure: Cause)
      returns (ref: Option<nat>)
      requires l < |ls| && ls[l] == S.Running(S.Nothing)
      modifies `currentId, `created, `connections, `wg, `errors, `bytesSent
      ensures bytesSent == if old(context).None? then old(bytesSent) + [0] else old(bytesSent)
      ensures Table(ls, p) == Added(old(Table(ls, p)), l, ok)
      ensures ref == if old(context).None? && ok then Some(old(|created|)) else None
      ensures ref.Some? ==> old(currentId) in connections && connections[old(currentId)] == ref.value
      ensures errors == if old(context).None? && !ok then old(errors) + [failure] else old(errors)
      ensures ref.Some? ==>
                && created == old(created) + [S.Container(old(currentId), l, true, None)]
                && currentId == old(currentId) + 1 && wg == old(wg) + 1
                && connections == old(connections)[old(currentId) := ref.value]
      ensures ref.None? ==> currentId == old(currentId) && connections == old(connections) && wg == old(wg)
    {
      assert forall x: S.Listener {:trigger ls[l := x]} :: ls[l := x][l := S.Running(S.Nothing)] == ls;
      if context.Some? {
        return None;
      }
      var thisId := currentId;
      var ctx := Child(context);
      bytesSent := bytesSent + [0];
      if !ok {
        created := created + [S.Container(thisId, l, false, Cancel(ctx, S.INIT_FAILED))];
        errors := errors + [failure];
        return None;
      }
      created := created + [S.Container(thisId, l, true, ctx)];
      currentId := currentId + 1;
      connections := connections[thisId := |created| - 1];
      wg := wg + 1;
      ref := Some(|created| - 1);
    }

    method GetProxy(id: int) returns (ref: Option<nat>)
      ensures ref.Some? <==> id >= 0 && id in connections
      ensures ref.Some? ==> ref.value == connections[id]
    {
      ref := if id >= 0 && id in connections then Some(connections[id]) else None;
    }

    /** CloseProxy: the result tells whether the proxy existed. */
    method CloseProxy(id: int) returns (found: bool)
      requires RefsOk()
      modifies `created
      ensures found <==> id >= 0 && id in connections
      ensures forall ls, p :: Table(ls, p) ==
                if found then S.DoCancelOne(old(Table(ls, p)), connections[id], Plain(ProxyClosedOk))
                else old(Table(ls, p))
      ensures |created| == |old(created)|
      ensures forall r :: 0 <= r < |created| ==>
                created[r] == if found && r == connections[id] && old(created)[r].ctx.None?
                              then old(created)[r].(ctx := Some(Plain(ProxyClosedOk))) else old(created)[r]
    {
      var ref := GetProxy(id);
      if ref.None? {
        return false;
      }
      var r := ref.value;
      created := created[r := S.KillOne(created[r], Plain(ProxyClosedOk))];
      found := true;
    }

    /** The path of the machine so far, and where it stands. */
    ghost predicate At(path: seq<S.State>, ls: seq<S.Listener>, p: S.Pruner)
      reads this
    {
      IsPath(S.Next, path) && path[|path| - 1] == Table(ls, p)
    }

    /** The connectionLock region of the pruner, a path of the machine from one sleep
        of the pruner to the next. */
    method PruneConnections(ghost ls: seq<S.Listener>) returns (ghost path: seq<S.State>)
      requires RefsOk()
      modifies `connections, `wg
      ensures At(path, ls, S.Sleeping) && path[0] == old(Table(ls, S.Sleeping))
      ensures forall k :: k in connections <==> k in old(connections) && created[old(connections)[k]].ctx.None?
      ensures forall k :: k in connections ==> connections[k] == old(connections)[k]
      ensures wg - |connections| == old(wg - |connections|)
    {
      var deleteKeys;
      deleteKeys, path := ScanConnections(ls);
      path := DeleteConnections(ls, path, deleteKeys);
    }

    /** The keys of the dead connections. */
    method ScanConnections(ghost ls: seq<S.Listener>) returns (deleteKeys: seq<nat>, ghost path: seq<S.State>)
      requires RefsOk()
      ensures Distinct(deleteKeys)
      ensures forall k :: k in deleteKeys <==> k in connections && created[connections[k]].ctx.Some?
      ensures At(path, ls, S.Deleting(ToSet(deleteKeys))) && path[0] == Table(ls, S.Sleeping)
    {
      deleteKeys := [];
      var todo := connections.Keys;
      ghost var found: set<nat> := {};
      path := [Table(ls, S.Sleeping)];
      path := NextState(path, S.BeginScan);
      while todo != {}
        invariant todo <= connections.Keys
        invariant forall k :: k in deleteKeys <==> k in connections && k !in todo && created[connections[k]].ctx.Some?
        invariant Distinct(deleteKeys) && found == ToSet(deleteKeys)
        invariant At(path, ls, S.Scanning(todo, found)) && path[0] == Table(ls, S.Sleeping)
        decreases todo
      {
        var k :| k in todo;
        path := NextState(path, S.ScanOne(k));
        if created[connections[k]].ctx.Some? {
          deleteKeys, found := deleteKeys + [k], found + {k};
        }
        todo := todo - {k};
      }
      path := NextState(path, S.EndScan);
    }

    /** One deletion and its wg.Done. */
    method DeleteConnection(ghost ls: seq<S.Listener>, ghost before: seq<S.State>, v: nat, ghost left: set<nat>)
      returns (ghost path: seq<S.State>)
      requires v in connections && v in left && At(before, ls, S.Deleting(left))
      modifies `connections, `wg
      ensures At(path, ls, S.Deleting(left - {v})) && path[0] == before[0]
      ensures connections == old(connections) - {v} && wg == old(wg) - 1
      ensures |connections| == old(|connections|) - 1
    {
      path := NextState(before, S.DeleteOne(v));
      assert (connections - {v}).Keys == connections.Keys - {v};
      connections := connections - {v};
      path := NextState(path, S.PayOne);
      wg := wg - 1;
    }

    method DeleteConnections(ghost ls: seq<S.Listener>, ghost before: seq<S.State>, deleteKeys: seq<nat>)
      returns (ghost path: seq<S.State>)
      requires Distinct(deleteKeys) && forall k :: k in deleteKeys ==> k in connections
      requires At(before, ls, S.Deleting(ToSet(deleteKeys)))
      modifies `connections, `wg
      ensures At(path, ls, S.Sleeping) && path[0] == before[0]
      ensures forall k :: k in connections <==> k in old(connections) && k !in deleteKeys
      ensures forall k :: k in connections ==> connections[k] == old(connections)[k]
      ensures wg - |connections| == old(wg - |connections|)
    {
      path := before;
      ghost var left := ToSet(deleteKeys);
      for i := 0 to |deleteKeys|
        invariant forall k :: k in connections <==> k in old(connections) && k !in deleteKeys[..i]
        invariant forall k :: k in connections ==> connections[k] == old(connections)[k]
        invariant wg - |connections| == old(wg - |connections|)
        invariant forall k :: k in left <==> k in deleteKeys && k !in deleteKeys[..i]
        invariant At(path, ls, S.Deleting(left)) && path[0] == before[0]
      {
        var v := deleteKeys[i];
        assert v !in deleteKeys[..i];
        path := DeleteConnection(ls, path, v, left);
        left := left - {v};
      }
      assert left == {};
      path := NextState(path, S.EndPrune);
    }

    // -------------------------------------------------------------- traffic

    method TrySetFilterCallback(alive: bool) returns (ok: bool)
      requires FlowOk()
      modifies `sendCallback, `callbackCtx, `callbackCancel, `regs, `released
      ensures FlowOk() && Flow() == T.DoTrySetFilter(old(Flow()), alive)
      ensures ok <==> !T.SlotLive(old(Flow()))
      ensures ok ==> callbackCtx == Some(old(|regs|)) && regs == old(regs) + [alive]
      ensures !ok ==> Flow() == old(Flow())
    {
      if callbackCtx.Some? {
        if regs[callbackCtx.value] {
          return false;
        }
        released := released + {callbackCtx.value};
        callbackCancel, callbackCtx, sendCallback := None, None, None;
      }
      var r := |regs|;
      regs := regs + [alive];
      callbackCtx, callbackCancel, sendCallback := Some(r), Some(r), Some(r);
      ok := true;
    }

    method GetRecvChan(alive: bool) returns (sub: nat)
      requires FlowOk()
      modifies `subs, `rcChan
      ensures FlowOk() && Flow() == T.DoSubscribe(old(Flow()), alive)
      ensures sub == old(|subs|) && rcChan == old(rcChan) + [sub]
      ensures subs == old(subs) + [T.Subscriber(alive, [])]
    {
      sub := |subs|;
      subs := subs + [T.Subscriber(alive, [])];
      rcChan := rcChan + [sub];
    }

    /** The loop over rcChan at the end of HandleSend. */
    method Publish(i: nat, ready: set<nat>)
      requires FlowOk() && T.InPhase(Flow(), i, T.Passing)
      modifies `subs, `ops, `sent
      ensures FlowOk() && Flow() == Published(old(Flow()), i, ready)
      ensures sent == old(sent) + [i] && |subs| == |old(subs)|
      ensures forall k :: 0 <= k < |subs| ==>
                subs[k] == if k in rcChan && old(subs)[k].alive && k in ready
                           then old(subs)[k].(log := old(subs)[k].log + [i]) else old(subs)[k]
    {
      ghost var before := Flow();
      for j := 0 to |rcChan|
        invariant ops == before.ops && sent == before.sent && |subs| == |before.subs|
        invariant forall k :: 0 <= k < |subs| ==>
                    subs[k] == if k in rcChan[..j] && before.subs[k].alive && k in ready
                               then before.subs[k].(log := before.subs[k].log + [i]) else before.subs[k]
      {
        var k := rcChan[j];
        assert k !in rcChan[..j];
        if subs[k].alive && k in ready {
          subs := subs[k := subs[k].(log := subs[k].log + [i])];
        }
      }
      ops := ops[i := ops[i].(phase := T.Passed)];
      sent := sent + [i];
      assert rcChan[..|rcChan|] == rcChan;
      PublishedExact(before, i, ready);
      assert subs == Published(before, i, ready).subs;
    }

    /** The slot check of HandleSend: `ask` tells whether the filter is to be called. */
    method CheckSlot(i: nat) returns (ask: bool)
      requires FlowOk() && T.InPhase(Flow(), i, T.Counted)
      modifies `sendCallback, `callbackCtx, `callbackCancel, `released, `ops
      ensures FlowOk() && Flow() == T.DoCheckSlot(old(Flow()), i)
      ensures ask <==> T.SlotLive(old(Flow()))
      ensures if ask then ops[i].phase == T.Admitted && ops[i].asked.Some? else ops[i].phase == T.Passing
    {
      ask := false;
      if sendCallback.Some? {
        if !regs[callbackCtx.value] {
          released := released + {callbackCtx.value};
          callbackCancel, callbackCtx, sendCallback := None, None, None;
        } else {
          ask := true;
        }
      }
      ops := ops[i := if ask then ops[i].(phase := T.Admitted, asked := sendCallback) else ops[i].(phase := T.Passing)];
    }

    /** The filter part of HandleSend; false means an early return. */
    method Judge(i: nat, allow: bool) returns (pass: bool)
      requires FlowOk() && T.InPhase(Flow(), i, T.Counted)
      modifies `sendCallback, `callbackCtx, `callbackCancel, `released, `consults, `ops
      ensures FlowOk() && Flow() == Judged(old(Flow()), i, allow)
      ensures pass <==> old(ops[i].injected) || !T.SlotLive(old(Flow())) || allow
      ensures ops[i].phase == if pass then T.Passing else T.Refused
    {
      var ask := CheckSlot(i);
      if ask {
        consults := consults + [(i, ops[i].asked.value)];
        var cbResult := allow;
        if !cbResult && !ops[i].injected {
          ops := ops[i := ops[i].(answer := cbResult, phase := T.Refused)];
          return false;
        }
        ops := ops[i := ops[i].(answer := cbResult, phase := T.Passing)];
      }
      pass := true;
    }

    /** totalSent counts every packet, whatever becomes of it. */
    method Count(c: nat, size: nat, injected: bool)
      requires FlowOk()
      modifies `totalSent, `ops
      ensures FlowOk() && Flow() == T.DoBegin(old(Flow()), c, size, injected)
      ensures T.InPhase(Flow(), old(|ops|), T.Counted)
    {
      totalSent := T.Wrapped(totalSent + size);
      ops := ops + [T.Op(c, size, injected, T.Counted, None, false)];
    }

    /** HandleSend, said without its steps. */
    method HandleSend(c: nat, p: Parcel) returns (shouldSend: bool)
      requires FlowOk()
      modifies `totalSent, `ops, `sendCallback, `callbackCtx, `callbackCancel, `released, `consults, `subs, `sent
      ensures FlowOk() && Flow() == Handled(old(Flow()), c, p)
      ensures shouldSend <==> p.injected || !T.SlotLive(old(Flow())) || p.allow
      ensures SlotEffect(old(Flow()), Flow()) && SubsEffect(old(Flow()), Flow(), p)
      ensures OpEffect(old(Flow()), Flow(), c, p, if shouldSend then T.Passed else T.Refused)
      ensures totalSent == T.Wrapped(old(totalSent) + p.size)
    {
      HandledExact(Flow(), c, p);
      shouldSend := Send(c, p);
    }

    /** The statements of HandleSend. */
    method Send(c: nat, p: Parcel) returns (shouldSend: bool)
      requires FlowOk()
      modifies `totalSent, `ops, `sendCallback, `callbackCtx, `callbackCancel, `released, `consults, `subs, `sent
      ensures FlowOk() && Flow() == Handled(old(Flow()), c, p) && |ops| == old(|ops|) + 1
      ensures shouldSend <==> !Held(T.SlotLive(old(Flow())), p)
      ensures ops[old(|ops|)].phase == if shouldSend then T.Passed else T.Refused
    {
      var i := |ops|;
      Count(c, p.size, p.injected);
      shouldSend := Judge(i, p.allow);
      if !shouldSend {
        return;
      }
      Publish(i, p.ready);
    }

    /** The shared part of handlePacket, SendToClient and SendToServer. */
    method Forward(c: nat, p: Parcel) returns (err: Ctx)
      requires FlowOk() && c < |bytesSent|
      modifies `totalSent, `ops, `sendCallback, `callbackCtx, `callbackCancel, `released, `consults, `subs, `sent,
               `bytesSent, `wire, `errors
      ensures FlowOk() && Entered(old(Ledger()), Ledger(), c, p)
      ensures err == if Held(T.SlotLive(old(Flow())), p) then None else p.failure
    {
      ForwardedExact(Flow(), c, p);
      ForwardedSteps(Flow(), c, p);
      err := SendAndWrite(c, p);
    }

    /** HandleSend, the write to the side the packet is for, and the statistics or the
        error. */
    method SendAndWrite(c: nat, p: Parcel) returns (err: Ctx)
      requires FlowOk() && c < |bytesSent|
      modifies `totalSent, `ops, `sendCallback, `callbackCtx, `callbackCancel, `released, `consults, `subs, `sent,
               `bytesSent, `wire, `errors
      ensures FlowOk() && Flow() == Forwarded(old(Flow()), c, p)
      ensures err == if Held(T.SlotLive(old(Flow())), p) then None else p.failure
      ensures wire == old(wire) + NewWrites(T.SlotLive(old(Flow())), p, old(|ops|))
      ensures errors == old(errors) + NewErrors(T.SlotLive(old(Flow())), p)
    {
      var i := |ops|;
      var shouldSend := Send(c, p);
      if !shouldSend {
        return None;
      }
      WriteOut(c, i, p);
      err := p.failure;
    }

    /** The write to the side the packet is for, and the statistics or the error. */
    method WriteOut(c: nat, i: nat, p: Parcel)
      requires FlowOk() && T.InPhase(Flow(), i, T.Passed) && ops[i].container == c < |bytesSent|
      modifies `ops, `bytesSent, `wire, `errors
      ensures FlowOk() && Flow() == Finished(old(Flow()), i, p.failure.None?)
      ensures wire == if p.failure.None? then old(wire) + [(i, p.serverbound)] else old(wire)
      ensures errors == if p.failure.Some? then old(errors) + [p.failure.value] else old(errors)
    {
      if p.failure.Some? {
        errors := errors + [p.failure.value];
      } else if p.serverbound {
        wire := wire + [(i, true)];
      } else {
        wire := wire + [(i, false)];
      }
      Finish(c, i, p.failure.None?);
    }

    /** After the write: the statistics, if it succeeded. */
    method Finish(c: nat, i: nat, ok: bool)
      requires FlowOk() && T.InPhase(Flow(), i, T.Passed) && ops[i].container == c < |bytesSent|
      modifies `ops, `bytesSent
      ensures FlowOk() && Flow() == Finished(old(Flow()), i, ok)
    {
      if !ok {
        ops := ops[i := ops[i].(phase := T.Failed)];
      } else {
        bytesSent := bytesSent[c := T.Wrapped(bytesSent[c] + ops[i].size)];
        ops := ops[i := ops[i].(phase := T.Delivered)];
      }
    }

    /** One packet more. */
    method ForwardNext(c: nat, p: Parcel, ghost begun: Book, ghost jobs: seq<Job>)
      requires FlowOk() && c < |bytesSent| && Came(begun, Ledger(), jobs)
      modifies `totalSent, `ops, `sendCallback, `callbackCtx, `callbackCancel, `released, `consults, `subs, `sent,
               `bytesSent, `wire, `errors
      ensures FlowOk() && |bytesSent| == |old(bytesSent)| && Came(begun, Ledger(), jobs + [Job(c, p)])
    {
      ghost var now := Ledger();
      var _ := Forward(c, p);
      CameNext(begun, now, Ledger(), jobs, Job(c, p));
    }

    /** One turn of the select of handlePacket. */
    method TakeArrival(c: nat, a: Arrival, ghost begun: Book, ghost jobs: seq<Job>) returns (done: bool)
      requires FlowOk() && c < |bytesSent| && c < |created| && Came(begun, Ledger(), jobs)
      modifies `totalSent, `ops, `sendCallback, `callbackCtx, `callbackCancel, `released, `consults, `subs, `sent,
               `bytesSent, `wire, `errors, `created
      ensures FlowOk() && |bytesSent| == |old(bytesSent)| && OnlyCancelled(old(created), created, c)
      ensures done <==> a.Done? && old(created[c].ctx).Some?
      ensures Came(begun, Ledger(), jobs + JobOf(c, a))
      ensures created[c].ctx == if a.Dies? then Cancel(old(created[c].ctx), a.cause) else old(created[c].ctx)
    {
      done := false;
      assert jobs + [] == jobs;
      match a {
        case Dies(cause) =>
          created := created[c := S.KillOne(created[c], cause)];
        case Done =>
          done := created[c].ctx.Some?;
        case Packet(size, serverbound, allow, ready, failure) =>
          ForwardNext(c, Parcel(size, false, serverbound, allow, ready, failure), begun, jobs);
      }
    }

    /** handlePacket of container `c`. The first `taken` arrivals are dealt with;
        `returned` is false if they end with the loop still running. */
    method HandlePacket(c: nat, arrivals: seq<Arrival>)
      returns (returned: bool, ghost taken: nat, ghost jobs: seq<Job>)
      requires FlowOk() && c < |bytesSent| && c < |created|
      modifies `totalSent, `ops, `sendCallback, `callbackCtx, `callbackCancel, `released, `consults, `subs, `sent,
               `bytesSent, `wire, `errors, `created
      ensures FlowOk() && EndsWith(old(created[c].ctx).None?, arrivals, taken)
      ensures returned <==> taken < |arrivals|
      ensures jobs == JobsOf(c, arrivals[..taken]) && Came(old(Ledger()), Ledger(), jobs)
      ensures Dealt(old(created), created, c, arrivals, taken)
    {
      CameNone(Ledger());
      returned, taken, jobs := PacketLoop(c, arrivals, Ledger());
    }

    method PacketLoop(c: nat, arrivals: seq<Arrival>, ghost begun: Book)
      returns (returned: bool, ghost taken: nat, ghost jobs: seq<Job>)
      requires FlowOk() && c < |bytesSent| && c < |created| && Came(begun, Ledger(), [])
      modifies `totalSent, `ops, `sendCallback, `callbackCtx, `callbackCancel, `released, `consults, `subs, `sent,
               `bytesSent, `wire, `errors, `created
      ensures FlowOk() && EndsWith(old(created[c].ctx).None?, arrivals, taken)
      ensures returned <==> taken < |arrivals|
      ensures jobs == JobsOf(c, arrivals[..taken]) && Came(begun, Ledger(), jobs)
      ensures Dealt(old(created), created, c, arrivals, taken)
    {
      ghost var before := created;
      jobs := [];
      taken := 0;
      var i := 0;
      while i < |arrivals|
        invariant taken == i <= |arrivals| && Dealt(before, created, c, arrivals, i)
        invariant FlowOk() && c < |bytesSent| && jobs == JobsOf(c, arrivals[..i]) && Came(begun, Ledger(), jobs)
      {
        JobsAppend(c, arrivals, i);
        ghost var mid := created;
        var done := TakeArrival(c, arrivals[i], begun, jobs);
        jobs := jobs + JobOf(c, arrivals[i]);
        OneMoreArrival(before, mid, created, c, arrivals, i);
        if done {
          assert jobs + [] == jobs;
          return true, taken, jobs;
        }
        i, taken := i + 1, i + 1;
      }
      returned := false;
    }

    /** SendToClient and SendToServer of container `c`; None is the nil error. */
    method Inject(c: nat, p: Parcel) returns (err: Ctx)
      requires FlowOk() && p.injected && c < |bytesSent| && c < |created|
      modifies `totalSent, `ops, `sendCallback, `callbackCtx, `callbackCancel, `released, `consults, `subs, `sent,
               `bytesSent, `wire, `errors
      ensures FlowOk()
      ensures created[c].ctx.Some? ==>
                err == created[c].ctx && Flow() == old(Flow()) && errors == old(errors) && wire == old(wire)
      ensures created[c].ctx.None? ==>
                && err == p.failure
                && Entered(old(Ledger()), Ledger(), c, p)
                && wire == (if p.failure.None? then old(wire) + [(old(|ops|), p.serverbound)] else old(wire))
                && errors == if p.failure.Some? then old(errors) + [p.failure.value] else old(errors)
    {
      if created[c].ctx.Some? {
        return created[c].ctx;
      }
      err := Forward(c, p);
    }

    // ------------------------------------------------- subscribers, closing

    /** The unlocked scan of the pruner over rcChan. */
    method ScanRecvChans() returns (deleteKeys: seq<nat>)
      requires FlowOk()
      ensures deleteKeys == T.DeadMembers(Flow())
      ensures forall i: nat :: i in deleteKeys <==> i < |rcChan| && !subs[rcChan[i]].alive
    {
      ghost var live := (m: nat) => m < |old(subs)| && old(subs)[m].alive;
      deleteKeys := [];
      for i := 0 to |rcChan|
        invariant deleteKeys == DeadIndexes(rcChan[..i], live)
      {
        assert rcChan[..i + 1][..i] == rcChan[..i];
        if !subs[rcChan[i]].alive {
          deleteKeys := deleteKeys + [i];
        }
      }
      assert rcChan[..|rcChan|] == rcChan;
    }

    /** The locked removals of the pruner; `ok` is false if one panics. */
    method RemoveRecvChans(deleteKeys: seq<nat>) returns (ok: bool)
      modifies `rcChan
      ensures ok <==> AscendingPass(old(rcChan), deleteKeys).Some?
      ensures ok ==> rcChan == AscendingPass(old(rcChan), deleteKeys).value
    {
      for j := 0 to |deleteKeys|
        invariant AscendingPass(old(rcChan), deleteKeys) == AscendingPass(rcChan, deleteKeys[j..])
      {
        var v := deleteKeys[j];
        if v >= |rcChan| {
          return false;
        }
        rcChan := rcChan[v := rcChan[|rcChan| - 1]];
        rcChan := rcChan[..|rcChan| - 1];
      }
      ok := true;
    }

    /** Close; `counts` are the values the wait group takes within the second that
        Close waits for it. */
    method Close(counts: seq<int>) returns (ok: bool)
      requires FlowOk()
      modifies `context, `created, `subs
      ensures ok <==> 0 in counts
      ensures context == Cancel(old(context), Plain(SpawnerClosedOk))
      ensures forall ls, p :: Table(ls, p) == S.DoKill(old(Table(ls, p)), Plain(SpawnerClosedOk))
      ensures |created| == |old(created)|
      ensures forall r :: 0 <= r < |created| ==>
                created[r] == if old(created)[r].ctx.None?
                              then old(created)[r].(ctx := Some(Plain(SpawnerClosedOk))) else old(created)[r]
      ensures |subs| == |old(subs)|
      ensures forall k :: 0 <= k < |subs| ==>
                subs[k] == if k in rcChan then old(subs)[k].(alive := false) else old(subs)[k]
    {
      for j := 0 to |rcChan|
        invariant context == old(context) && created == old(created) && |subs| == |old(subs)|
        invariant forall k :: 0 <= k < |subs| ==>
                    subs[k] == if k in rcChan[..j] then old(subs)[k].(alive := false) else old(subs)[k]
      {
        subs := subs[rcChan[j] := subs[rcChan[j]].(alive := false)];
      }
      assert rcChan[..|rcChan|] == rcChan;
      var cause := Plain(SpawnerClosedOk);
      context := Cancel(context, cause);
      var all := created;
      created := seq(|all|, r requires 0 <= r < |all| => S.KillOne(all[r], cause));
      ok := false;
      for i := 0 to |counts|
        invariant !ok && 0 !in counts[..i]
      {
        if counts[i] == 0 {
          return true;
        }
      }
      assert counts[..|counts|] == counts;
    }

    /** SendToAllClients and SendToAllServers: `order` is the order in which Go walks
        the table, `writes(c)` what happens to the packet of container `c`. */
    method SendToAll(order: seq<nat>, size: nat, serverbound: bool, writes: nat -> Write) returns (firstErr: Ctx)
      requires FlowOk() && RefsOk() && |created| <= |bytesSent|
      requires Distinct(order) && forall k :: k in order <==> k in connections
      modifies `totalSent, `ops, `sendCallback, `callbackCtx, `callbackCancel, `released, `consults, `subs, `sent,
               `bytesSent, `wire, `errors
      ensures FlowOk()
      ensures Came(old(Ledger()), Ledger(), ToAll(created, connections, order, size, serverbound, writes))
      ensures FirstError(ToAll(created, connections, order, size, serverbound, writes), firstErr)
    {
      CameNone(Ledger());
      ghost var jobs;
      firstErr, jobs := SendLoop(order, size, serverbound, writes, Ledger());
    }

    /** One live container. */
    method InjectNext(c: nat, p: Parcel, ghost begun: Book, ghost jobs: seq<Job>) returns (err: Ctx)
      requires FlowOk() && p.injected && c < |bytesSent| && c < |created| && created[c].ctx.None?
      requires Came(begun, Ledger(), jobs)
      modifies `totalSent, `ops, `sendCallback, `callbackCtx, `callbackCancel, `released, `consults, `subs, `sent,
               `bytesSent, `wire, `errors
      ensures FlowOk() && |bytesSent| == |old(bytesSent)| && Came(begun, Ledger(), jobs + [Job(c, p)])
      ensures err == p.failure
    {
      ghost var now := Ledger();
      err := Inject(c, p);
      CameNext(begun, now, Ledger(), jobs, Job(c, p));
    }

    method SendLoop(order: seq<nat>, size: nat, serverbound: bool, writes: nat -> Write, ghost begun: Book)
      returns (firstErr: Ctx, ghost jobs: seq<Job>)
      requires FlowOk() && RefsOk() && |created| <= |bytesSent| && Came(begun, Ledger(), [])
      requires forall k :: k in order ==> k in connections
      modifies `totalSent, `ops, `sendCallback, `callbackCtx, `callbackCancel, `released, `consults, `subs, `sent,
               `bytesSent, `wire, `errors
      ensures FlowOk() && jobs == ToAll(created, connections, order, size, serverbound, writes)
      ensures Came(begun, Ledger(), jobs) && FirstError(jobs, firstErr)
    {
      jobs, firstErr := [], None;
      for j := 0 to |order|
        invariant jobs == ToAll(created, connections, order[..j], size, serverbound, writes)
        invariant FlowOk() && |created| <= |bytesSent| && Came(begun, Ledger(), jobs) && FirstError(jobs, firstErr)
      {
        assert order[..j + 1][..j] == order[..j];
        var c := connections[order[j]];
        if created[c].ctx.None? {
          var p := ToOne(size, serverbound, writes(c));
          var err := InjectNext(c, p, begun, jobs);
          FirstErrorAppend(jobs, firstErr, Job(c, p));
          jobs := jobs + [Job(c, p)];
          if err.Some? && firstErr.None? {
            firstErr := err;
          }
        }
      }
      assert order[..|order|] == order;
    }
  }

  /** What the filter says of an injected packet, if asked, who is ready for it, and how
      its write ends. */
  datatype Write = Write(allow: bool, ready: set<nat>, failure: Ctx)

  function ToOne(size: nat, serverbound: bool, w: Write): Parcel {
    Parcel(size, true, serverbound, w.allow, w.ready, w.failure)
  }

  /** One injected packet for each live container, in the order they are visited. */
  function ToAll(created: seq<S.Container>, connections: map<nat, nat>, order: seq<nat>,
                 size: nat, serverbound: bool, writes: nat -> Write): (jobs: seq<Job>)
    requires forall k :: k in connections ==> connections[k] < |created|
    requires forall k :: k in order ==> k in connections
    ensures forall j :: 0 <= j < |jobs| ==> jobs[j].container < |created| && jobs[j].parcel.injected
  {
    if order == [] then []
    else
      var c := connections[order[|order| - 1]];
      ToAll(created, connections, order[..|order| - 1], size, serverbound, writes) +
      if created[c].ctx.None? then [Job(c, ToOne(size, serverbound, writes(c)))] else []
  }

  /** The live containers among the first `j` visited. */
  function LiveBefore(created: seq<S.Container>, connections: map<nat, nat>, order: seq<nat>, j: nat): nat
    requires forall k :: k in connections ==> connections[k] < |created|
    requires forall k :: k in order ==> k in connections
    requires j <= |order|
  {
    if j == 0 then 0
    else LiveBefore(created, connections, order, j - 1) + Base.Count(created[connections[order[j - 1]]].ctx.None?)
  }

  /** Each live container has its packet, in its place, and nobody else has one. */
  lemma {:induction false} ToAllExact(created: seq<S.Container>, connections: map<nat, nat>, order: seq<nat>,
                                      size: nat, serverbound: bool, writes: nat -> Write, n: nat)
    requires forall k :: k in connections ==> connections[k] < |created|
    requires forall k :: k in order ==> k in connections
    requires n <= |order|
    ensures var jobs := ToAll(created, connections, order[..n], size, serverbound, writes);
            && |jobs| == LiveBefore(created, connections, order, n)
            && forall j :: 0 <= j < n && created[connections[order[j]]].ctx.None? ==>
                 && LiveBefore(created, connections, order, j) < |jobs|
                 && jobs[LiveBefore(created, connections, order, j)] ==
                    Job(connections[order[j]], Parcel(size, true, serverbound, writes(connections[order[j]]).allow,
                                                      writes(connections[order[j]]).ready,
                                                      writes(connections[order[j]]).failure))
  {
    if n > 0 {
      assert order[..n][..n - 1] == order[..n - 1];
      ToAllExact(created, connections, order, size, serverbound, writes, n - 1);
    }
  }

  /** The first write error of injected packets. */
  ghost predicate FirstError(jobs: seq<Job>, err: Ctx) {
    if err.None? then forall j :: 0 <= j < |jobs| ==> jobs[j].parcel.failure.None?
    else exists j :: 0 <= j < |jobs| && jobs[j].parcel.failure == err
                     && forall i :: 0 <= i < j ==> jobs[i].parcel.failure.None?
  }

  lemma FirstErrorAppend(jobs: seq<Job>, err: Ctx, job: Job)
    requires FirstError(jobs, err)
    ensures FirstError(jobs + [job], if err.Some? then err else job.parcel.failure)
  {
    var all := jobs + [job];
    if err.Some? {
      var j :| 0 <= j < |jobs| && jobs[j].parcel.failure == err
               && forall i :: 0 <= i < j ==> jobs[i].parcel.failure.None?;
      assert all[j].parcel.failure == err;
    } else if job.parcel.failure.Some? {
      assert all[|jobs|].parcel.failure == job.parcel.failure;
    }
  }

  /** What one packet adds. */
  function NewWrites(live: bool, p: Parcel, i: nat): seq<(nat, bool)> {
    if Fate(live, p) == T.Delivered then [(i, p.serverbound)] else []
  }

  function NewErrors(live: bool, p: Parcel): seq<Cause> {
    if Fate(live, p) == T.Failed then [p.failure.value] else []
  }

  lemma WritesAppend(jobs: seq<Job>, live: bool, first: nat, job: Job)
    ensures Writes(jobs + [job], live, first) == Writes(jobs, live, first) + NewWrites(live, job.parcel, first + |jobs|)
  {
    assert (jobs + [job])[..|jobs|] == jobs;
  }

  lemma ErrorsAppend(jobs: seq<Job>, live: bool, job: Job)
    ensures WriteErrors(jobs + [job], live) == WriteErrors(jobs, live) + NewErrors(live, job.parcel)
  {
    assert (jobs + [job])[..|jobs|] == jobs;
  }

  function ToSet(s: seq<nat>): set<nat> { set k | k in s }

  lemma NextState(path: seq<S.State>, a: S.Action) returns (longer: seq<S.State>)
    requires IsPath(S.Next, path) && S.Enabled(path[|path| - 1], a)
    ensures IsPath(S.Next, longer) && longer[0] == path[0]
    ensures longer[|longer| - 1] == S.Apply(path[|path| - 1], a)
  {
    Longer(S.Next, path, S.Apply(path[|path| - 1], a));
    longer := path + [S.Apply(path[|path| - 1], a)];
  }

  /** Only container `c` may differ, and only by being cancelled. */
  predicate OnlyCancelled(before: seq<S.Container>, after: seq<S.Container>, c: nat)
    requires c < |before|
  {
    && |after| == |before|
    && (forall k :: 0 <= k < |before| && k != c ==> after[k] == before[k])
    && after[c] == before[c].(ctx := after[c].ctx)
    && (before[c].ctx.Some? ==> after[c] == before[c])
  }
}
