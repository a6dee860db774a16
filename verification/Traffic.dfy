/** Packets through the spawner: HandleSend with its filter slot and its fan-out to
    subscribers, and the byte counters of the spawner and of the containers.

    One `op` is one packet on its way: forwarded by handlePacket, or injected by
    SendToClient / SendToServer. Any number are on their way at the same time. */
module Traffic {
  import opened Base
  import opened SwapRemove

  /** uint64 counters wrap around here. */
  const WRAP: nat := 0x1_0000_0000_0000_0000

  function Wrapped(n: nat): (r: nat)
    ensures r < WRAP
  {
    n % WRAP
  }

  datatype Phase =
    | Counted     // totalSent was raised
    | Admitted    // found the filter alive, has not called it yet
    | Asking      // inside sendCallback
    | Passing     // about to fan out
    | Passed      // HandleSend returned true
    | Written     // the proxy wrote it, statistics not updated yet
    | Refused     // HandleSend returned false
    | Failed      // the write failed
    | Delivered   // statistics updated

  /** `asked` is the filter registration consulted, if any; `answer` what it said. */
  datatype Op = Op(container: nat, size: nat, injected: bool, phase: Phase, asked: Option<nat>, answer: bool)

  /** sendCallback, callbackCtx and callbackCancel, each naming a registration. */
  datatype Slot = Slot(callback: Option<nat>, ctx: Option<nat>, cancel: Option<nat>)

  const EMPTY_SLOT := Slot(None, None, None)

  /** A subscriber ever made: its context and the ops it received, in order. */
  datatype Subscriber = Subscriber(alive: bool, log: seq<nat>)

  /** The packet that holds rcChanLock for its fan-out, and the subscribers that were
      alive when it took the lock. */
  datatype Holder = Holder(op: nat, alive: set<nat>)

  /** `regs[r]` says whether the context of registration `r` is alive; `released`
      are registrations whose context was seen dead; `consults` the calls of filters;
      `members` is rcChan; `sent` the ops in the order they were fanned out; `lock` the
      packet that is being fanned out. */
  datatype State = State(
    totalSent: nat,
    bytesSent: seq<nat>,
    ops: seq<Op>,
    slot: Slot,
    regs: seq<bool>,
    released: set<nat>,
    consults: seq<(nat, nat)>,
    subs: seq<Subscriber>,
    members: seq<nat>,
    scanned: Option<seq<nat>>,
    sent: seq<nat>,
    lock: Option<Holder>)

  datatype Action =
    | AddContainer
    | Begin(container: nat, size: nat, injected: bool)
    | CheckSlot(op: nat)
    | CallFilter(op: nat)
    | Answer(op: nat, allow: bool)
    | Lock(op: nat)
    | FanOut(op: nat, ready: set<nat>, late: set<nat>)
    | Write(op: nat, ok: bool)
    | Account(op: nat)
    | TrySetFilter(alive: bool)
    | EndContext(reg: nat)
    | Subscribe(alive: bool)
    | Cancel(sub: nat)
    | Scan
    | Prune

  ghost predicate Init(s: State) {
    s == State(0, [], [], EMPTY_SLOT, [], {}, [], [], [], None, [], None)
  }

  predicate InPhase(s: State, op: nat, p: Phase) { op < |s.ops| && s.ops[op].phase == p }

  predicate SlotKnown(s: State) {
    s.slot.ctx.Some? ==> s.slot.ctx.value < |s.regs|
  }

  predicate MembersKnown(s: State) { forall j :: 0 <= j < |s.members| ==> s.members[j] < |s.subs| }

  /** The pruner's pass: None is the panic, after which nothing runs. */
  function PrunedMembers(s: State): Option<seq<nat>> {
    if s.scanned.None? then None else AscendingPass(s.members, s.scanned.value)
  }

  predicate Enabled(s: State, a: Action) {
    match a
    case AddContainer => true
    case Begin(c, _, _) => c < |s.bytesSent|
    case CheckSlot(i) => InPhase(s, i, Counted) && SlotKnown(s)
    case CallFilter(i) => InPhase(s, i, Admitted) && s.ops[i].asked.Some?
    case Answer(i, _) => InPhase(s, i, Asking)
    case Lock(i) => InPhase(s, i, Passing) && s.lock.None?
    case FanOut(i, _, late) =>
      InPhase(s, i, Passing) && s.lock.Some? && s.lock.value.op == i && late <= s.lock.value.alive
    case Write(i, _) => InPhase(s, i, Passed)
    case Account(i) => InPhase(s, i, Written) && s.ops[i].container < |s.bytesSent|
    case TrySetFilter(_) => SlotKnown(s)
    case EndContext(r) => r < |s.regs|
    case Subscribe(_) => s.lock.None?
    case Cancel(k) => k < |s.subs|
    case Scan => s.scanned.None? && MembersKnown(s)
    case Prune => PrunedMembers(s).Some? && s.lock.None?
  }

  function SetOp(s: State, i: nat, op: Op): State
    requires i < |s.ops|
  {
    s.(ops := s.ops[i := op])
  }

  function DoBegin(s: State, c: nat, size: nat, injected: bool): State {
    s.(totalSent := Wrapped(s.totalSent + size),
       ops := s.ops + [Op(c, size, injected, Counted, None, false)])
  }

  predicate SlotLive(s: State) {
    s.slot.callback.Some? && s.slot.ctx.Some? && s.slot.ctx.value < |s.regs| && s.regs[s.slot.ctx.value]
  }

  /** Frees the slot. */
  function Release(s: State): State
    requires s.slot.ctx.Some?
  {
    s.(slot := EMPTY_SLOT, released := s.released + {s.slot.ctx.value})
  }

  /** The slot check of HandleSend: go to a live filter, or free a dead one and pass. */
  function DoCheckSlot(s: State, i: nat): State
    requires Enabled(s, CheckSlot(i))
  {
    var op := s.ops[i];
    if s.slot.callback.Some? && s.slot.ctx.Some? then
      if s.regs[s.slot.ctx.value] then
        SetOp(s, i, op.(phase := Admitted, asked := s.slot.callback))
      else SetOp(Release(s), i, op.(phase := Passing))
    else SetOp(s, i, op.(phase := Passing))
  }

  /** The call itself; the filter may have died since the check. */
  function DoCallFilter(s: State, i: nat): State
    requires Enabled(s, CallFilter(i))
  {
    var op := s.ops[i];
    SetOp(s, i, op.(phase := Asking)).(consults := s.consults + [(i, op.asked.value)])
  }

  function DoAnswer(s: State, i: nat, allow: bool): State
    requires Enabled(s, Answer(i, allow))
  {
    var op := s.ops[i];
    SetOp(s, i, op.(answer := allow, phase := if !allow && !op.injected then Refused else Passing))
  }

  /** Packet `i` takes rcChanLock. */
  function DoLock(s: State, i: nat): State {
    s.(lock := Some(Holder(i, set k: nat | k < |s.subs| && s.subs[k].alive)))
  }

  function Offer(s: State, i: nat, ready: set<nat>, late: set<nat>, k: nat): Subscriber
    requires k < |s.subs|
  {
    var v := s.subs[k];
    if k in s.members && (v.alive || k in late) && k in ready then v.(log := v.log + [i]) else v
  }

  /** The rcChanLock region: every subscriber found alive and ready gets the packet.
      Those in `late` were found alive and have been cancelled since. */
  function DoFanOut(s: State, i: nat, ready: set<nat>, late: set<nat>): State
    requires Enabled(s, FanOut(i, ready, late))
  {
    SetOp(s, i, s.ops[i].(phase := Passed)).(
      subs := seq(|s.subs|, k requires 0 <= k < |s.subs| => Offer(s, i, ready, late, k)),
      sent := s.sent + [i],
      lock := None)
  }

  function DoWrite(s: State, i: nat, ok: bool): State
    requires Enabled(s, Write(i, ok))
  {
    SetOp(s, i, s.ops[i].(phase := if ok then Written else Failed))
  }

  function DoAccount(s: State, i: nat): State
    requires Enabled(s, Account(i))
  {
    var op := s.ops[i];
    SetOp(s, i, op.(phase := Delivered)).(
      bytesSent := s.bytesSent[op.container := Wrapped(s.bytesSent[op.container] + op.size)])
  }

  /** TrySetFilterCallback; `alive` is the caller's context. */
  function DoTrySetFilter(s: State, alive: bool): State
    requires SlotKnown(s)
  {
    if s.slot.ctx.Some? && s.regs[s.slot.ctx.value] then s
    else
      var t := if s.slot.ctx.Some? then Release(s) else s;
      var r := |s.regs|;
      t.(slot := Slot(Some(r), Some(r), Some(r)), regs := s.regs + [alive])
  }

  function DoSubscribe(s: State, alive: bool): State {
    s.(subs := s.subs + [Subscriber(alive, [])], members := s.members + [|s.subs|])
  }

  function DoCancel(s: State, k: nat): State
    requires k < |s.subs|
  {
    s.(subs := s.subs[k := s.subs[k].(alive := false)])
  }

  ghost function DeadMembers(s: State): seq<nat>
    requires MembersKnown(s)
  {
    DeadIndexes(s.members, (m: nat) => m < |s.subs| && s.subs[m].alive)
  }

  ghost function DoScan(s: State): State
    requires MembersKnown(s)
  {
    s.(scanned := Some(DeadMembers(s)))
  }

  function DoPrune(s: State): State
    requires Enabled(s, Prune)
  {
    s.(members := PrunedMembers(s).value, scanned := None)
  }

  ghost function Apply(s: State, a: Action): State
    requires Enabled(s, a)
  {
    match a
    case AddContainer => s.(bytesSent := s.bytesSent + [0])
    case Begin(c, size, injected) => DoBegin(s, c, size, injected)
    case CheckSlot(i) => DoCheckSlot(s, i)
    case CallFilter(i) => DoCallFilter(s, i)
    case Answer(i, allow) => DoAnswer(s, i, allow)
    case Lock(i) => DoLock(s, i)
    case FanOut(i, ready, late) => DoFanOut(s, i, ready, late)
    case Write(i, ok) => DoWrite(s, i, ok)
    case Account(i) => DoAccount(s, i)
    case TrySetFilter(alive) => DoTrySetFilter(s, alive)
    case EndContext(r) => s.(regs := s.regs[r := false])
    case Subscribe(alive) => DoSubscribe(s, alive)
    case Cancel(k) => DoCancel(s, k)
    case Scan => DoScan(s)
    case Prune => DoPrune(s)
  }

  ghost predicate Next(s: State, s': State) {
    exists a :: Enabled(s, a) && s' == Apply(s, a)
  }
}
