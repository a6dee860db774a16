/** The packets of the spawner and the handshakes of the WebSockets that filter them,
    in one system: what a client decides about a packet is what happens to it. */
module FilteredTraffic {
  import opened Runs
  import T = Traffic
  import S = FilterSlot
  import O = FanOutOrder
  import F = FilterProtocol
  import FT = FilterTheorems

  /** `nets[r]` is the handshake of the WebSocket behind registration `r`; `call[i]` the
      number its handleRecvFilter gave to packet `i`. */
  datatype System = System(flow: T.State, nets: seq<F.State>, call: map<nat, int>)

  datatype Move =
    | Flow(action: T.Action)                    // a packet, a subscriber or a context moves
    | Register(alive: bool, defaultAllow: bool) // TrySetFilterCallback for a new WebSocket
    | Net(reg: nat, step: F.Action)             // the handshake of `reg` goes on
    | Enter(op: nat)                            // handleRecvFilter takes a number
    | Bypass(op: nat)                           // the network does not match: the default
    | Return(op: nat)                           // handleRecvFilter has returned

  function Open(defaultAllow: bool): F.State {
    F.State(defaultAllow, 0, map[], map[], F.Idle, [], [], false, map[], 0)
  }

  /** Packet `i` is inside the filter of a registered WebSocket. */
  predicate Inside(y: System, i: nat) {
    T.InPhase(y.flow, i, T.Asking) && y.flow.ops[i].asked.Some? && y.flow.ops[i].asked.value < |y.nets|
  }

  function NetOf(y: System, i: nat): F.State
    requires i < |y.flow.ops| && y.flow.ops[i].asked.Some? && y.flow.ops[i].asked.value < |y.nets|
  {
    y.nets[y.flow.ops[i].asked.value]
  }

  predicate Can(y: System, m: Move) {
    match m
    case Flow(a) => !a.Answer? && !a.TrySetFilter? && T.Enabled(y.flow, a)
    case Register(_, _) => T.SlotKnown(y.flow)
    case Net(r, a) => r < |y.nets| && !a.TakeNumber? && F.Enabled(y.nets[r], a)
    case Enter(i) => Inside(y, i) && i !in y.call
    case Bypass(i) => Inside(y, i) && i !in y.call
    case Return(i) =>
      Inside(y, i) && i in y.call && y.call[i] in NetOf(y, i).calls && NetOf(y, i).calls[y.call[i]].Returned?
  }

  ghost function Do(y: System, m: Move): System
    requires Can(y, m)
  {
    match m
    case Flow(a) => y.(flow := T.Apply(y.flow, a))
    case Register(alive, defaultAllow) =>
      var flow := T.DoTrySetFilter(y.flow, alive);
      y.(flow := flow, nets := if |flow.regs| > |y.flow.regs| then y.nets + [Open(defaultAllow)] else y.nets)
    case Net(r, a) => y.(nets := y.nets[r := F.Apply(y.nets[r], a)])
    case Enter(i) =>
      var r, s := y.flow.ops[i].asked.value, NetOf(y, i);
      y.(nets := y.nets[r := F.DoTakeNumber(s, y.flow.ops[i].injected)], call := y.call[i := s.pktId])
    case Bypass(i) => y.(flow := T.DoAnswer(y.flow, i, NetOf(y, i).defaultAllow))
    case Return(i) => y.(flow := T.DoAnswer(y.flow, i, NetOf(y, i).calls[y.call[i]].result))
  }

  ghost predicate Init(y: System) { T.Init(y.flow) && y.nets == [] && y.call == map[] }

  ghost predicate Next(y: System, y': System) {
    exists m :: Can(y, m) && y' == Do(y, m)
  }

  // ---------------------------------------------------------------- invariant

  ghost predicate NetsInv(y: System) {
    && |y.nets| == |y.flow.regs|
    && forall r :: 0 <= r < |y.nets| ==> F.Inv(y.nets[r])
  }

  /** The number of packet `i` is a number of the filter it is in, and once it is out
      it has the answer of that call. */
  ghost predicate CallOk(y: System, i: nat) {
    && i in y.call && i < |y.flow.ops| && y.flow.ops[i].asked.Some? && y.flow.ops[i].asked.value < |y.nets|
    && var op, calls := y.flow.ops[i], NetOf(y, i).calls;
       && y.call[i] in calls && F.IsInjected(calls[y.call[i]]) == op.injected
       && !op.phase.Admitted?
       && (!op.phase.Asking? ==> calls[y.call[i]].Returned? && op.answer == calls[y.call[i]].result)
  }

  ghost predicate CallsInv(y: System) {
    && (forall i :: i in y.call ==> CallOk(y, i))
    && (forall i, j :: i in y.call && j in y.call && i != j && y.flow.ops[i].asked == y.flow.ops[j].asked ==>
          y.call[i] != y.call[j])
  }

  /** A packet that was answered without a number has the default. */
  ghost predicate DefaultOk(y: System, i: nat)
    requires i < |y.flow.ops|
  {
    var op := y.flow.ops[i];
    op.asked.Some? && i !in y.call && !op.phase.Admitted? && !op.phase.Asking? ==>
      op.asked.value < |y.nets| && op.answer == y.nets[op.asked.value].defaultAllow
  }

  ghost predicate DefaultsInv(y: System) { forall i :: 0 <= i < |y.flow.ops| ==> DefaultOk(y, i) }

  ghost predicate Inv(y: System) {
    S.SlotInv(y.flow) && O.FanInv(y.flow) && NetsInv(y) && CallsInv(y) && DefaultsInv(y)
  }

  predicate Undecided(op: T.Op) { op.phase.Admitted? || op.phase.Asking? }

  /** A packet that asked a filter keeps what it asked and what it was told; only an
      answer takes it out of the filter. */
  ghost predicate AskedStays(s: T.State, t: T.State) {
    && |s.ops| <= |t.ops|
    && (forall k :: 0 <= k < |s.ops| && s.ops[k].asked.Some? ==>
          && t.ops[k] == s.ops[k].(phase := t.ops[k].phase)
          && (Undecided(s.ops[k]) <==> Undecided(t.ops[k]))
          && (t.ops[k].phase.Admitted? ==> s.ops[k].phase.Admitted?)
          && (s.ops[k].phase.Asking? ==> t.ops[k].phase.Asking?))
    && (forall k :: 0 <= k < |t.ops| && t.ops[k].asked.Some? && (k >= |s.ops| || s.ops[k].asked.None?) ==>
          Undecided(t.ops[k]))
  }

  lemma FlowStays(s: T.State, a: T.Action)
    requires S.SlotInv(s) && T.Enabled(s, a) && !a.Answer?
    ensures AskedStays(s, T.Apply(s, a))
    ensures !a.TrySetFilter? ==> |T.Apply(s, a).regs| == |s.regs|
  {
    if O.MovesOnePacket(a) || a.FanOut? { PacketStays(s, a); }
  }

  lemma PacketStays(s: T.State, a: T.Action)
    requires S.SlotInv(s) && T.Enabled(s, a) && !a.Answer? && (O.MovesOnePacket(a) || a.FanOut?)
    ensures AskedStays(s, T.Apply(s, a)) && T.Apply(s, a).regs == s.regs
  {
    assert S.OpOk(s.ops[a.op]);
  }

  lemma CallStays(y: System, y': System, i: nat, r: nat)
    requires CallOk(y, i) && AskedStays(y.flow, y'.flow) && y'.call == y.call
    requires y.flow.ops[i].asked.value == r < |y'.nets| && FT.Settles(y.nets[r], y'.nets[r])
    ensures CallOk(y', i)
  {
    var op, op', s, t, n := y.flow.ops[i], y'.flow.ops[i], y.nets[r], y'.nets[r], y.call[i];
    assert op' == op.(phase := op'.phase) && NetOf(y, i) == s && NetOf(y', i) == t;
    assert n in t.calls && F.IsInjected(t.calls[n]) == op'.injected;
    if !op'.phase.Asking? {
      assert !op.phase.Asking?;
      assert t.calls[n] == s.calls[n];
    }
  }

  /** Packets stay, and every handshake only settles. */
  lemma StaysKeeps(y: System, y': System)
    requires CallsInv(y) && DefaultsInv(y) && AskedStays(y.flow, y'.flow) && y'.call == y.call
    requires |y.nets| <= |y'.nets| && forall r :: 0 <= r < |y.nets| ==> FT.Settles(y.nets[r], y'.nets[r])
    ensures CallsInv(y') && DefaultsInv(y')
  {
    forall i | i in y'.call ensures CallOk(y', i) {
      assert CallOk(y, i);
      CallStays(y, y', i, y.flow.ops[i].asked.value);
    }
    forall i, j | i in y'.call && j in y'.call && i != j && y'.flow.ops[i].asked == y'.flow.ops[j].asked
      ensures y'.call[i] != y'.call[j]
    {
      assert CallOk(y, i) && CallOk(y, j);
    }
    forall i | 0 <= i < |y'.flow.ops| ensures DefaultOk(y', i) {
      if i < |y.flow.ops| && y.flow.ops[i].asked.Some? { assert DefaultOk(y, i); }
    }
  }

  lemma SettlesReflexive(s: F.State)
    ensures FT.Settles(s, s)
  {
  }

  lemma FlowKeeps(y: System, a: T.Action)
    requires Inv(y) && Can(y, Flow(a))
    ensures Inv(Do(y, Flow(a)))
  {
    S.ActionKeeps(y.flow, a);
    O.ActionKeeps(y.flow, a);
    FlowStays(y.flow, a);
    forall r | 0 <= r < |y.nets| ensures FT.Settles(y.nets[r], y.nets[r]) { SettlesReflexive(y.nets[r]); }
    StaysKeeps(y, Do(y, Flow(a)));
  }

  lemma RegisterKeeps(y: System, alive: bool, defaultAllow: bool)
    requires Inv(y) && Can(y, Register(alive, defaultAllow))
    ensures Inv(Do(y, Register(alive, defaultAllow)))
  {
    assert S.SlotInv(T.DoTrySetFilter(y.flow, alive)) by { S.ActionKeeps(y.flow, T.TrySetFilter(alive)); }
    assert O.FanInv(T.DoTrySetFilter(y.flow, alive)) by { O.ActionKeeps(y.flow, T.TrySetFilter(alive)); }
    assert F.Inv(Open(defaultAllow)) by { F.InitEstablishes(Open(defaultAllow)); }
    FlowStays(y.flow, T.TrySetFilter(alive));
    forall r | 0 <= r < |y.nets| ensures FT.Settles(y.nets[r], y.nets[r]) { SettlesReflexive(y.nets[r]); }
    StaysKeeps(y, Do(y, Register(alive, defaultAllow)));
  }

  lemma NetKeeps(y: System, r: nat, a: F.Action)
    requires Inv(y) && Can(y, Net(r, a))
    ensures Inv(Do(y, Net(r, a)))
  {
    var y' := Do(y, Net(r, a));
    F.ActionKeeps(y.nets[r], a);
    forall q | 0 <= q < |y.nets| ensures FT.Settles(y.nets[q], y'.nets[q]) {
      if q == r { FT.ActionSettles(y.nets[r], a); } else { SettlesReflexive(y.nets[q]); }
    }
    StaysKeeps(y, y');
  }

  /** Packet `i` gets a number that is no other packet's. */
  lemma NumberedCalls(y: System, i: nat, num: int)
    requires CallsInv(y) && DefaultsInv(y) && Inside(y, i) && i !in y.call
    requires num in NetOf(y, i).calls && F.IsInjected(NetOf(y, i).calls[num]) == y.flow.ops[i].injected
    requires forall j :: j in y.call && CallOk(y, j) && y.flow.ops[j].asked == y.flow.ops[i].asked ==> y.call[j] != num
    ensures CallsInv(y.(call := y.call[i := num])) && DefaultsInv(y.(call := y.call[i := num]))
  {
    var z := y.(call := y.call[i := num]);
    forall j | j in z.call ensures CallOk(z, j) { if j != i { assert CallOk(y, j); } }
    forall j | j in y.call ensures CallOk(y, j) {}
    forall j | 0 <= j < |z.flow.ops| ensures DefaultOk(z, j) { assert DefaultOk(y, j); }
  }

  lemma EnterNets(y: System, i: nat)
    requires NetsInv(y) && CallsInv(y) && DefaultsInv(y) && Can(y, Enter(i))
    ensures NetsInv(Do(y, Enter(i)).(call := y.call))
    ensures CallsInv(Do(y, Enter(i)).(call := y.call)) && DefaultsInv(Do(y, Enter(i)).(call := y.call))
  {
    var z, r, s := Do(y, Enter(i)).(call := y.call), y.flow.ops[i].asked.value, NetOf(y, i);
    F.TakeNumberKeeps(s, y.flow.ops[i].injected);
    forall q | 0 <= q < |y.nets| ensures FT.Settles(y.nets[q], z.nets[q]) {
      if q == r { FT.TakeNumberSettles(s, y.flow.ops[i].injected); } else { SettlesReflexive(y.nets[q]); }
    }
    StaysKeeps(y, z);
  }

  lemma EnterKeeps(y: System, i: nat)
    requires Inv(y) && Can(y, Enter(i))
    ensures Inv(Do(y, Enter(i)))
  {
    EnterNets(y, i);
    var s := NetOf(y, i);
    assert s.pktId !in s.calls by { F.TakeNumberKeeps(s, y.flow.ops[i].injected); }
    forall j | j in y.call && CallOk(y, j) && y.flow.ops[j].asked == y.flow.ops[i].asked ensures y.call[j] != s.pktId {
    }
    NumberedCalls(Do(y, Enter(i)).(call := y.call), i, s.pktId);
  }

  predicate RightAnswer(y: System, i: nat, allow: bool)
    requires Inside(y, i)
  {
    var s := NetOf(y, i);
    if i in y.call then y.call[i] in s.calls && s.calls[y.call[i]].Returned? && s.calls[y.call[i]].result == allow
    else allow == s.defaultAllow
  }

  lemma AnsweredCalls(y: System, i: nat, allow: bool)
    requires CallsInv(y) && DefaultsInv(y) && Inside(y, i) && RightAnswer(y, i, allow)
    ensures CallsInv(y.(flow := T.DoAnswer(y.flow, i, allow))) && DefaultsInv(y.(flow := T.DoAnswer(y.flow, i, allow)))
  {
    var y' := y.(flow := T.DoAnswer(y.flow, i, allow));
    forall j | j in y'.call ensures CallOk(y', j) { assert CallOk(y, j); }
    forall j | 0 <= j < |y'.flow.ops| ensures DefaultOk(y', j) { assert DefaultOk(y, j); }
  }

  lemma AnswerKeeps(y: System, i: nat, allow: bool)
    requires Inv(y) && Inside(y, i) && RightAnswer(y, i, allow)
    ensures Inv(y.(flow := T.DoAnswer(y.flow, i, allow)))
  {
    assert S.SlotInv(T.DoAnswer(y.flow, i, allow)) by { S.ActionKeeps(y.flow, T.Answer(i, allow)); }
    assert O.FanInv(T.DoAnswer(y.flow, i, allow)) by { O.ActionKeeps(y.flow, T.Answer(i, allow)); }
    AnsweredCalls(y, i, allow);
  }

  lemma MoveKeeps(y: System, m: Move)
    requires Inv(y) && Can(y, m)
    ensures Inv(Do(y, m))
  {
    match m
    case Flow(a) => FlowKeeps(y, a);
    case Register(alive, defaultAllow) => RegisterKeeps(y, alive, defaultAllow);
    case Net(r, a) => NetKeeps(y, r, a);
    case Enter(i) => EnterKeeps(y, i);
    case Bypass(i) => AnswerKeeps(y, i, NetOf(y, i).defaultAllow);
    case Return(i) => AnswerKeeps(y, i, NetOf(y, i).calls[y.call[i]].result);
  }

  lemma AlwaysInv(run: seq<System>, n: nat)
    requires IsRun(Init, Next, run) && n < |run|
    ensures Inv(run[n])
  {
    forall y, y' | Inv(y) && Next(y, y') ensures Inv(y') {
      var m :| Can(y, m) && y' == Do(y, m);
      MoveKeeps(y, m);
    }
    InvariantHolds(Init, Next, Inv, run, n);
  }

  // ---------------------------------------------------------------- theorems

  /** The call of packet `i` left with a recorded verdict. */
  predicate DecidedAs(y: System, i: nat, allow: bool) {
    && i in y.call && i < |y.flow.ops| && y.flow.ops[i].asked.Some? && y.flow.ops[i].asked.value < |y.nets|
    && y.call[i] in NetOf(y, i).calls && NetOf(y, i).calls[y.call[i]] == F.Returned(false, F.Decided, allow)
  }

  /** The verdict is the client's. A drop: the packet is refused, or about to be, no
      subscriber ever has it and it is never written. An allow: it is not refused. */
  ghost predicate Obeyed(y: System, i: nat, allow: bool)
    requires DecidedAs(y, i, allow)
  {
    && y.call[i] in NetOf(y, i).records && NetOf(y, i).records[y.call[i]] == allow
    && if allow then !y.flow.ops[i].phase.Refused?
       else
         && (y.flow.ops[i].phase.Asking? || y.flow.ops[i].phase.Refused?)
         && i !in y.flow.sent && forall k :: 0 <= k < |y.flow.subs| ==> i !in y.flow.subs[k].log
  }

  /** What the client decided about a packet is what happens to it. */
  lemma VerdictIsObeyed(run: seq<System>, n: nat, i: nat, allow: bool)
    requires IsRun(Init, Next, run) && n < |run| && DecidedAs(run[n], i, allow)
    ensures Obeyed(run[n], i, allow)
  {
    AlwaysInv(run, n);
    DecidedObeyed(run[n], i, allow);
  }

  lemma DecidedObeyed(y: System, i: nat, allow: bool)
    requires Inv(y) && DecidedAs(y, i, allow)
    ensures Obeyed(y, i, allow)
  {
    CallFacts(y, i);
    DecidedPhase(y, i, allow);
    if !allow { NotSentNotSeen(y.flow, i); }
  }

  lemma CallFacts(y: System, i: nat)
    requires CallsInv(y) && NetsInv(y) && S.OpsInv(y.flow) && i in y.call
    ensures CallOk(y, i) && S.OpOk(y.flow.ops[i])
    ensures NetOf(y, i).calls[y.call[i]].Returned? ==> F.AnswerOk(NetOf(y, i), y.call[i])
  {
    assert CallOk(y, i) && F.Inv(NetOf(y, i));
  }

  lemma DecidedPhase(y: System, i: nat, allow: bool)
    requires CallOk(y, i) && DecidedAs(y, i, allow) && S.OpOk(y.flow.ops[i])
    requires F.AnswerOk(NetOf(y, i), y.call[i])
    ensures y.call[i] in NetOf(y, i).records && NetOf(y, i).records[y.call[i]] == allow
    ensures if allow then !y.flow.ops[i].phase.Refused?
            else y.flow.ops[i].phase.Asking? || y.flow.ops[i].phase.Refused?
  {
  }

  lemma NotSentNotSeen(s: T.State, i: nat)
    requires O.FanInv(s) && i < |s.ops| && !O.WasSent(s.ops[i].phase)
    ensures i !in s.sent && forall k :: 0 <= k < |s.subs| ==> i !in s.subs[k].log
  {
    forall k | 0 <= k < |s.subs| ensures i !in s.subs[k].log {
      if i in s.subs[k].log { O.LogMember(s, k, i); }
    }
  }

  /** A packet is refused only by the drop verdict on its own number, or by the default
      of a WebSocket that drops. */
  lemma RefusedByItsVerdict(run: seq<System>, n: nat, i: nat)
    requires IsRun(Init, Next, run) && n < |run| && i < |run[n].flow.ops| && run[n].flow.ops[i].phase.Refused?
    ensures var y := run[n];
            && !y.flow.ops[i].injected && y.flow.ops[i].asked.Some? && y.flow.ops[i].asked.value < |y.nets|
            && (!NetOf(y, i).defaultAllow || DecidedAs(y, i, false))
  {
    var y := run[n];
    AlwaysInv(run, n);
    assert S.OpOk(y.flow.ops[i]) && DefaultOk(y, i);
    if i in y.call {
      assert CallOk(y, i);
      assert F.AnswerOk(NetOf(y, i), y.call[i]);
    }
  }

  /** Two packets never share a number of the same WebSocket. */
  lemma NumbersApart(run: seq<System>, n: nat, i: nat, j: nat)
    requires IsRun(Init, Next, run) && n < |run| && i in run[n].call && j in run[n].call && i != j
    ensures i < |run[n].flow.ops| && j < |run[n].flow.ops|
    ensures run[n].flow.ops[i].asked == run[n].flow.ops[j].asked ==> run[n].call[i] != run[n].call[j]
  {
    AlwaysInv(run, n);
    assert CallOk(run[n], i) && CallOk(run[n], j);
  }
}
