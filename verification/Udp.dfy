/** The UDP listener over the spawner: at most one live UDP proxy, and none while
    the listener itself reads the shared socket. */
module Udp {
  import opened Base
  import opened Runs
  import opened Contexts
  import opened Spawner
  import opened SpawnerInvariant
  import opened SpawnerTheorems

  /** Where UdpListener stands. */
  datatype Pc =
    | Outside            // not started, between two runs, or returned
    | Opening            // resolves the addresses and opens the socket
    | Top                // at the loop head
    | Looked(ref: nat)   // GetProxy found a container, IsAlive not asked yet
    | Reopening          // its proxy is gone: closes the socket and opens a new one
    | Reading            // reads the shared socket
    | Adding             // inside AddConnection

  /** `u` is the index of the UDP listener among the spawner's listeners, `own` its
      context, `id` its local variable. */
  datatype System = System(sp: State, u: nat, own: Ctx, pc: Pc, id: int)

  datatype Move =
    | World(action: Action)   // anyone else
    | Enlist(action: Action)  // addListener around the run
    | Begin                   // h(ctx, cancel, p)
    | Fatal(text: nat)        // cancel(fmt.Errorf(...)) and return
    | Opened
    | HeadExit                // ctx is dead at the loop head
    | HeadRead                // no proxy yet
    | HeadLookup              // ps.GetProxy(id)
    | AskAlive                // cl.IsAlive()
    | ReadNothing             // timeout, error, or data from the server
    | ReadClient
    | AddVet
    | AddMake(ok: bool)
    | AddInsert
    | AddCount

  /** The listener an action belongs to, if it belongs to one. */
  function ListenerOf(a: Action): Option<nat> {
    match a
    case CheckListener(l) => Some(l)
    case EnterListener(l) => Some(l)
    case LeaveListener(l) => Some(l)
    case VetAdd(l) => Some(l)
    case Make(l, _) => Some(l)
    case Insert(l) => Some(l)
    case CountAdd(l) => Some(l)
    case _ => None
  }

  ghost predicate SystemInit(y: System) {
    Init(y.sp) && y.u < |y.sp.listeners| && y.own == None && y.pc == Outside && y.id == -1
  }

  predicate Can(y: System, m: Move) {
    && y.u < |y.sp.listeners|
    && match m
       case World(a) => ListenerOf(a) != Some(y.u) && Enabled(y.sp, a)
       case Enlist(a) =>
         && (a == CheckListener(y.u) || a == EnterListener(y.u) || a == LeaveListener(y.u))
         && y.pc.Outside? && Enabled(y.sp, a)
       case Begin => y.pc.Outside? && y.sp.listeners[y.u] == Running(Nothing)
       case Fatal(_) => y.pc.Opening? || y.pc.Reopening?
       case Opened => y.pc.Opening? || y.pc.Reopening?
       case HeadExit => y.pc.Top? && y.own.Some?
       case HeadRead => y.pc.Top? && y.own.None? && y.id == -1
       case HeadLookup => y.pc.Top? && y.own.None? && y.id != -1 && !Locked(y.sp.pruner)
       case AskAlive => y.pc.Looked? && y.pc.ref < |y.sp.created|
       case ReadNothing => y.pc.Reading?
       case ReadClient => y.pc.Reading?
       case AddVet => y.pc.Adding? && Enabled(y.sp, VetAdd(y.u))
       case AddMake(ok) => y.pc.Adding? && Enabled(y.sp, Make(y.u, ok))
       case AddInsert => y.pc.Adding? && Enabled(y.sp, Insert(y.u))
       case AddCount =>
         && y.pc.Adding? && Enabled(y.sp, CountAdd(y.u))
         && y.sp.listeners[y.u].adding.ref < |y.sp.created|
  }

  /** Cancelling the spawner also cancels the listener's context. */
  function Inherit(own: Ctx, a: Action): Ctx {
    if a.Kill? then Cancel(own, a.cause) else own
  }

  function Do(y: System, m: Move): System
    requires Can(y, m)
  {
    match m
    case World(a) => y.(sp := Apply(y.sp, a), own := Inherit(y.own, a))
    case Enlist(a) => y.(sp := Apply(y.sp, a))
    case Begin => y.(own := Child(y.sp.context), pc := Opening, id := -1)
    case Fatal(text) => y.(own := Cancel(y.own, Cause({}, text)), pc := Outside)
    case Opened => if y.pc.Opening? then y.(pc := Top) else y.(id := -1, pc := Reading)
    case HeadExit => y.(pc := Outside)
    case HeadRead => y.(pc := Reading)
    case HeadLookup =>
      if y.id >= 0 && y.id in y.sp.connections then y.(pc := Looked(y.sp.connections[y.id])) else y.(pc := Reopening)
    case AskAlive => if y.sp.created[y.pc.ref].ctx.Some? then y.(pc := Reopening) else y.(pc := Top)
    case ReadNothing => y.(pc := Top)
    case ReadClient => y.(pc := Adding)
    case AddVet =>
      var t := y.(sp := DoVet(y.sp, y.u));
      if y.sp.context.Some? then t.(id := -1, pc := Top) else t
    case AddMake(ok) =>
      var t := y.(sp := DoMake(y.sp, y.u, ok));
      if ok then t else t.(id := -1, pc := Top)
    case AddInsert => y.(sp := DoInsert(y.sp, y.u))
    case AddCount =>
      y.(sp := DoCount(y.sp, y.u), id := y.sp.created[y.sp.listeners[y.u].adding.ref].id, pc := Top)
  }

  ghost predicate SystemNext(y: System, y': System) {
    exists m :: Can(y, m) && y' == Do(y, m)
  }

  /** A UDP container (failed or not) whose context is alive. */
  ghost predicate Live(y: System, r: nat) {
    r < |y.sp.created| && y.sp.created[r].owner == y.u && y.sp.created[r].ctx.None?
  }

  ghost predicate NoneLive(y: System) { forall r :: 0 <= r < |y.sp.created| ==> !Live(y, r) }

  ghost predicate OnlyLive(y: System, ref: nat) {
    forall r :: 0 <= r < |y.sp.created| && Live(y, r) ==> r == ref
  }

  ghost predicate OnlyLiveId(y: System, id: int) {
    forall r :: 0 <= r < |y.sp.created| && Live(y, r) ==> y.sp.created[r].id == id
  }

  ghost predicate PcInv(y: System)
    requires y.u < |y.sp.listeners|
  {
    var x := y.sp.listeners[y.u];
    match y.pc
    case Outside => (x.Running? ==> x == Running(Nothing)) && NoneLive(y)
    case Opening => x == Running(Nothing) && NoneLive(y) && y.id == -1
    case Top => x == Running(Nothing) && OnlyLiveId(y, y.id)
    case Reopening => x == Running(Nothing) && NoneLive(y)
    case Looked(ref) => x == Running(Nothing) && ref < |y.sp.created| && OnlyLiveId(y, y.id) && OnlyLive(y, ref)
    case Reading => x == Running(Nothing) && NoneLive(y) && y.id == -1
    case Adding =>
      x.Running? && y.id == -1 &&
      (match x.adding
       case Nothing => NoneLive(y)
       case Vetted => NoneLive(y)
       case Allocated(ref) => OnlyLive(y, ref)
       case Inserted(ref) => OnlyLive(y, ref))
  }

  ghost predicate SystemInv(y: System) {
    && Inv(y.sp)
    && y.u < |y.sp.listeners|
    && (!y.pc.Outside? ==> y.own == y.sp.context)
    && PcInv(y)
  }

  /** Contexts only die, and new containers of the UDP listener are its own doing. */
  ghost predicate LiveShrinks(y: System, y': System) {
    && y'.u == y.u && |y.sp.created| <= |y'.sp.created|
    && (forall r :: 0 <= r < |y'.sp.created| && Live(y', r) ==> r < |y.sp.created| && Live(y, r))
    && (forall r :: 0 <= r < |y.sp.created| ==> y'.sp.created[r].id == y.sp.created[r].id)
  }

  lemma ShrinkKeepsPc(y: System, y': System)
    requires y.u < |y.sp.listeners| && y.u < |y'.sp.listeners| && PcInv(y) && LiveShrinks(y, y')
    requires y'.sp.listeners[y.u] == y.sp.listeners[y.u] && y'.pc == y.pc && y'.id == y.id
    ensures PcInv(y')
  {
  }

  lemma WorldShrinks(y: System, a: Action)
    requires Inv(y.sp) && Can(y, World(a))
    ensures LiveShrinks(y, Do(y, World(a)))
    ensures |Apply(y.sp, a).listeners| == |y.sp.listeners|
    ensures Apply(y.sp, a).listeners[y.u] == y.sp.listeners[y.u]
    ensures y.sp.context.Some? ==> Apply(y.sp, a).context.Some?
    ensures a.Kill? ==> Apply(y.sp, a).context.Some?
  {
    ActionSettles(y.sp, a);
    NewcomersElsewhere(y.sp, a, y.u);
  }

  lemma NewcomersElsewhere(s: State, a: Action, u: nat)
    requires Enabled(s, a) && ListenerOf(a) != Some(u) && u < |s.listeners|
    ensures |Apply(s, a).listeners| == |s.listeners| && Apply(s, a).listeners[u] == s.listeners[u]
    ensures forall r :: |s.created| <= r < |Apply(s, a).created| ==> Apply(s, a).created[r].owner != u
    ensures |s.created| <= |Apply(s, a).created|
    ensures a.Kill? ==> Apply(s, a).context.Some?
  {
  }

  lemma WorldKeeps(y: System, a: Action)
    requires SystemInv(y) && Can(y, World(a))
    ensures SystemInv(Do(y, World(a)))
  {
    ActionKeeps(y.sp, a);
    WorldShrinks(y, a);
    ShrinkKeepsPc(y, Do(y, World(a)));
  }

  /** The UDP listener's own bookkeeping touches no container. */
  lemma SameContainers(y: System, y': System)
    requires y'.sp.created == y.sp.created && y'.u == y.u
    ensures forall r :: Live(y', r) <==> Live(y, r)
    ensures NoneLive(y) ==> NoneLive(y')
  {
    forall r ensures Live(y', r) <==> Live(y, r) {
    }
  }

  lemma EnlistKeeps(y: System, a: Action)
    requires SystemInv(y) && Can(y, Enlist(a))
    ensures SystemInv(Do(y, Enlist(a)))
  {
    var y' := Do(y, Enlist(a));
    assert Inv(y'.sp) by { ActionKeeps(y.sp, a); }
    SameContainers(y, y');
  }

  /** The spawner is dead, so every container is. */
  lemma DeadSpawnerNoneLive(y: System)
    requires Inv(y.sp) && y.sp.context.Some?
    ensures NoneLive(y)
  {
  }

  /** The id is not in the table: its container was pruned, hence dead. */
  lemma LookupKeeps(y: System)
    requires SystemInv(y) && Can(y, HeadLookup)
    ensures SystemInv(Do(y, HeadLookup))
  {
    var y' := Do(y, HeadLookup);
    forall r | 0 <= r < |y.sp.created| && Live(y, r)
      ensures y'.pc.Looked? && r == y'.pc.ref
    {
      assert Accounted(y.sp, r);
      assert y.sp.created[r].id == y.id;
    }
    SameContainers(y, y');
  }

  lemma AskKeeps(y: System)
    requires SystemInv(y) && Can(y, AskAlive)
    ensures SystemInv(Do(y, AskAlive))
  {
    var y' := Do(y, AskAlive);
    SameContainers(y, y');
    assert Inv(y'.sp);
    if y'.pc.Reopening? {
      assert OnlyLive(y, y.pc.ref) && !Live(y, y.pc.ref);
    }
  }

  lemma AddVetKeeps(y: System)
    requires SystemInv(y) && Can(y, AddVet)
    ensures SystemInv(Do(y, AddVet))
  {
    var y' := Do(y, AddVet);
    assert Inv(y'.sp) by { VetKeeps(y.sp, y.u); }
    SameContainers(y, y');
    if y.sp.context.Some? { DeadSpawnerNoneLive(y); }
  }

  lemma AddMakeKeeps(y: System, ok: bool)
    requires SystemInv(y) && Can(y, AddMake(ok))
    ensures SystemInv(Do(y, AddMake(ok)))
  {
    MakeKeeps(y.sp, y.u, ok);
    var y' := Do(y, AddMake(ok));
    forall r | 0 <= r < |y'.sp.created| && Live(y', r) ensures ok && r == |y.sp.created| {
      if r < |y.sp.created| { assert Live(y, r); }
    }
  }

  lemma AddInsertKeeps(y: System)
    requires SystemInv(y) && Can(y, AddInsert)
    ensures SystemInv(Do(y, AddInsert))
  {
    var y' := Do(y, AddInsert);
    assert Inv(y'.sp) by { InsertKeeps(y.sp, y.u); }
    SameContainers(y, y');
  }

  lemma AddCountKeeps(y: System)
    requires SystemInv(y) && Can(y, AddCount)
    ensures SystemInv(Do(y, AddCount))
  {
    var y' := Do(y, AddCount);
    assert Inv(y'.sp) by { CountKeeps(y.sp, y.u); }
    SameContainers(y, y');
  }

  lemma LoopKeeps(y: System, m: Move)
    requires SystemInv(y) && Can(y, m)
    requires m.Begin? || m.Fatal? || m.Opened? || m.HeadExit? || m.HeadRead? || m.ReadNothing? || m.ReadClient?
    ensures SystemInv(Do(y, m))
  {
    var y' := Do(y, m);
    SameContainers(y, y');
    if m.HeadExit? { DeadSpawnerNoneLive(y); }
  }

  lemma MoveKeeps(y: System, m: Move)
    requires SystemInv(y) && Can(y, m)
    ensures SystemInv(Do(y, m))
  {
    match m
    case World(a) => WorldKeeps(y, a);
    case Enlist(a) => EnlistKeeps(y, a);
    case HeadLookup => LookupKeeps(y);
    case AskAlive => AskKeeps(y);
    case AddVet => AddVetKeeps(y);
    case AddMake(ok) => AddMakeKeeps(y, ok);
    case AddInsert => AddInsertKeeps(y);
    case AddCount => AddCountKeeps(y);
    case _ => LoopKeeps(y, m);
  }

  /** At most one UDP proxy is alive at any time, and none while the listener reads
      the socket or after it returned. */
  lemma OneLiveUdpProxy(run: seq<System>, i: nat, r: nat, q: nat)
    requires IsRun(SystemInit, SystemNext, run) && i < |run|
    requires Live(run[i], r) && Live(run[i], q)
    ensures r == q
    ensures !run[i].pc.Reading? && !run[i].pc.Outside?
  {
    SystemInvIsInductive();
    InvariantHolds(SystemInit, SystemNext, SystemInv, run, i);
    AtMostOneLive(run[i], r, q);
  }

  lemma AtMostOneLive(y: System, r: nat, q: nat)
    requires IdsInv(y.sp) && FateInv(y.sp) && y.u < |y.sp.listeners| && PcInv(y)
    requires Live(y, r) && Live(y, q)
    ensures r == q && !y.pc.Reading? && !y.pc.Outside?
  {
    if y.pc.Top? { IdsDiffer(y.sp, r, q); }
  }

  lemma SystemInvIsInductive()
    ensures Inductive(SystemInit, SystemNext, SystemInv)
  {
    forall y | SystemInit(y) ensures SystemInv(y) { InitEstablishes(y.sp); }
    forall y, y' | SystemInv(y) && SystemNext(y, y') ensures SystemInv(y') {
      var m :| Can(y, m) && y' == Do(y, m);
      MoveKeeps(y, m);
    }
  }

  /** The UDP system is the spawner with its listener spelled out: every move is a
      spawner step or leaves the spawner alone. */
  lemma MovesAreSpawnerSteps(y: System, m: Move)
    requires Can(y, m)
    ensures Do(y, m).sp == y.sp || Next(y.sp, Do(y, m).sp)
  {
    match m
    case World(a) => assert Enabled(y.sp, a);
    case Enlist(a) => assert Enabled(y.sp, a);
    case AddVet => assert Enabled(y.sp, VetAdd(y.u)) && Do(y, m).sp == Apply(y.sp, VetAdd(y.u));
    case AddMake(ok) => assert Enabled(y.sp, Make(y.u, ok)) && Do(y, m).sp == Apply(y.sp, Make(y.u, ok));
    case AddInsert => assert Enabled(y.sp, Insert(y.u)) && Do(y, m).sp == Apply(y.sp, Insert(y.u));
    case AddCount => assert Enabled(y.sp, CountAdd(y.u)) && Do(y, m).sp == Apply(y.sp, CountAdd(y.u));
    case _ =>
  }
}
