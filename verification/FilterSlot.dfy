/** The single-owner filter slot over every run, and why injected packets always pass. */
module FilterSlot {
  import opened Base
  import opened Runs
  import opened Traffic

  /** All three fields are nil, or all name the same registration. */
  ghost predicate ShapeInv(s: State) {
    && s.slot.callback == s.slot.ctx == s.slot.cancel
    && (s.slot.ctx.Some? ==> s.slot.ctx.value < |s.regs| && s.slot.ctx.value !in s.released)
    && (forall r :: r in s.released ==> r < |s.regs| && !s.regs[r])
  }

  ghost predicate Consulted(s: State, i: nat, r: nat) { (i, r) in s.consults }

  /** A packet consulted the registration it remembers, once, and no other; a packet
      that is only admitted has not consulted it yet. */
  ghost predicate ConsultsInv(s: State) {
    && (forall j :: 0 <= j < |s.consults| ==>
          && s.consults[j].0 < |s.ops| && s.consults[j].1 < |s.regs|
          && s.ops[s.consults[j].0].asked == Some(s.consults[j].1)
          && !s.ops[s.consults[j].0].phase.Admitted?)
    && (forall j, k :: 0 <= j < k < |s.consults| ==> s.consults[j].0 != s.consults[k].0)
    && (forall i :: 0 <= i < |s.ops| && s.ops[i].asked.Some? ==>
          && s.ops[i].asked.value < |s.regs|
          && (s.ops[i].phase.Admitted? || Consulted(s, i, s.ops[i].asked.value)))
  }

  predicate OpOk(op: Op) {
    match op.phase
    case Counted => op.asked.None?
    case Admitted => op.asked.Some?
    case Asking => op.asked.Some?
    case Refused => op.asked.Some? && !op.answer && !op.injected
    case _ => op.asked.Some? ==> op.answer || op.injected
  }

  ghost predicate OpsInv(s: State) { forall i :: 0 <= i < |s.ops| ==> OpOk(s.ops[i]) }

  ghost predicate SlotInv(s: State) { ShapeInv(s) && ConsultsInv(s) && OpsInv(s) }

  /** A packet moves on without consulting anyone. */
  lemma MoveKeeps(s: State, t: State, i: nat, op: Op)
    requires SlotInv(s) && i < |s.ops| && t.ops == s.ops[i := op]
    requires op.asked == s.ops[i].asked && OpOk(op) && !op.phase.Admitted? && !s.ops[i].phase.Admitted?
    requires t.consults == s.consults && t.slot == s.slot && t.regs == s.regs && t.released == s.released
    ensures SlotInv(t)
  {
    assert forall k, r :: Consulted(s, k, r) ==> Consulted(t, k, r);
  }

  lemma ReleaseKeeps(s: State)
    requires SlotInv(s) && s.slot.ctx.Some? && !s.regs[s.slot.ctx.value]
    ensures SlotInv(Release(s))
  {
    assert forall k, r :: Consulted(s, k, r) ==> Consulted(Release(s), k, r);
  }

  lemma AdmitKeeps(s: State, i: nat)
    requires SlotInv(s) && Enabled(s, CheckSlot(i)) && SlotLive(s)
    ensures SlotInv(DoCheckSlot(s, i))
  {
    assert OpOk(s.ops[i]);
    assert forall k, q :: Consulted(s, k, q) ==> Consulted(DoCheckSlot(s, i), k, q);
  }

  lemma CallFilterKeeps(s: State, i: nat)
    requires SlotInv(s) && Enabled(s, CallFilter(i))
    ensures SlotInv(DoCallFilter(s, i))
  {
    var t := DoCallFilter(s, i);
    assert t.consults[|s.consults|] == (i, s.ops[i].asked.value);
    forall k | 0 <= k < |t.ops| && t.ops[k].asked.Some?
      ensures t.ops[k].phase.Admitted? || Consulted(t, k, t.ops[k].asked.value)
    {
      if k != i && !s.ops[k].phase.Admitted? { assert Consulted(s, k, s.ops[k].asked.value); }
    }
  }

  lemma CheckSlotKeeps(s: State, i: nat)
    requires SlotInv(s) && Enabled(s, CheckSlot(i))
    ensures SlotInv(DoCheckSlot(s, i))
  {
    var t := DoCheckSlot(s, i);
    if s.slot.callback.None? {
      MoveKeeps(s, t, i, t.ops[i]);
    } else if SlotLive(s) {
      AdmitKeeps(s, i);
    } else {
      ReleaseKeeps(s);
      MoveKeeps(Release(s), t, i, t.ops[i]);
    }
  }

  lemma TrySetKeeps(s: State, alive: bool)
    requires SlotInv(s)
    ensures SlotInv(DoTrySetFilter(s, alive))
  {
    var t := DoTrySetFilter(s, alive);
    if t != s {
      var u := if s.slot.ctx.Some? then Release(s) else s;
      if s.slot.ctx.Some? { ReleaseKeeps(s); }
      assert forall k, r :: Consulted(u, k, r) ==> Consulted(t, k, r);
    }
  }

  lemma EndContextKeeps(s: State, r: nat)
    requires SlotInv(s) && r < |s.regs|
    ensures SlotInv(s.(regs := s.regs[r := false]))
  {
    var t := s.(regs := s.regs[r := false]);
    assert forall k, q :: Consulted(s, k, q) ==> Consulted(t, k, q);
  }

  lemma BeginKeeps(s: State, c: nat, size: nat, injected: bool)
    requires SlotInv(s)
    ensures SlotInv(DoBegin(s, c, size, injected))
  {
    var t := DoBegin(s, c, size, injected);
    assert forall k, q :: Consulted(s, k, q) ==> Consulted(t, k, q);
  }

  lemma OtherKeeps(s: State, t: State)
    requires SlotInv(s)
    requires t.ops == s.ops && t.consults == s.consults
    requires t.slot == s.slot && t.regs == s.regs && t.released == s.released
    ensures SlotInv(t)
  {
    assert forall k, q :: Consulted(s, k, q) ==> Consulted(t, k, q);
  }

  lemma ActionKeeps(s: State, a: Action)
    requires SlotInv(s) && Enabled(s, a)
    ensures SlotInv(Apply(s, a))
  {
    match a
    case Begin(c, size, injected) => BeginKeeps(s, c, size, injected);
    case CheckSlot(i) => CheckSlotKeeps(s, i);
    case Answer(i, allow) => MoveKeeps(s, DoAnswer(s, i, allow), i, DoAnswer(s, i, allow).ops[i]);
    case CallFilter(i) => CallFilterKeeps(s, i);
    case FanOut(i, ready, late) => MoveKeeps(s, DoFanOut(s, i, ready, late), i, DoFanOut(s, i, ready, late).ops[i]);
    case Write(i, ok) => MoveKeeps(s, DoWrite(s, i, ok), i, DoWrite(s, i, ok).ops[i]);
    case Account(i) => MoveKeeps(s, DoAccount(s, i), i, DoAccount(s, i).ops[i]);
    case TrySetFilter(alive) => TrySetKeeps(s, alive);
    case EndContext(r) => EndContextKeeps(s, r);
    case _ => OtherKeeps(s, Apply(s, a));
  }

  lemma SlotInvIsInductive()
    ensures Inductive(Init, Next, SlotInv)
  {
    forall s, s' | SlotInv(s) && Next(s, s') ensures SlotInv(s') {
      var a :| Enabled(s, a) && s' == Apply(s, a);
      ActionKeeps(s, a);
    }
  }

  lemma AlwaysSlotInv(run: seq<State>, i: nat)
    requires IsRun(Init, Next, run) && i < |run|
    ensures SlotInv(run[i])
  {
    SlotInvIsInductive();
    InvariantHolds(Init, Next, SlotInv, run, i);
  }

  /** The slot's fields are all nil or all set, and each packet consults at most one
      filter, at most once. */
  lemma SlotShape(run: seq<State>, i: nat)
    requires IsRun(Init, Next, run) && i < |run|
    ensures run[i].slot == EMPTY_SLOT ||
            exists r: nat :: r < |run[i].regs| && run[i].slot == Slot(Some(r), Some(r), Some(r))
    ensures forall j, k | 0 <= j < k < |run[i].consults| :: run[i].consults[j].0 != run[i].consults[k].0
  {
    AlwaysSlotInv(run, i);
    var c := run[i].slot.callback;
    if c.Some? { assert run[i].slot == Slot(Some(c.value), Some(c.value), Some(c.value)); }
  }

  /** A packet that reaches the slot check while a filter's context lives is admitted to
      exactly that filter; otherwise to none and the slot ends up empty. */
  lemma CheckAdmits(s: State, i: nat)
    requires SlotInv(s) && Enabled(s, CheckSlot(i))
    ensures SlotLive(s) ==>
              && DoCheckSlot(s, i).ops[i].asked == s.slot.callback
              && DoCheckSlot(s, i).slot == s.slot && DoCheckSlot(s, i).ops[i].phase == Admitted
    ensures !SlotLive(s) ==>
              && DoCheckSlot(s, i).ops[i].asked == None
              && DoCheckSlot(s, i).slot == EMPTY_SLOT && DoCheckSlot(s, i).ops[i].phase == Passing
  {
    assert OpOk(s.ops[i]);
  }

  /** For any filter and any answer, an injected packet is never refused, and a
      packet is refused only if its filter said so. */
  lemma InjectedAlwaysPass(run: seq<State>, i: nat, op: nat)
    requires IsRun(Init, Next, run) && i < |run| && op < |run[i].ops|
    ensures run[i].ops[op].injected ==> !run[i].ops[op].phase.Refused?
    ensures run[i].ops[op].phase.Refused? ==> run[i].ops[op].asked.Some? && !run[i].ops[op].answer
    ensures run[i].ops[op].phase.Passed? && run[i].ops[op].asked.Some? ==>
              run[i].ops[op].answer || run[i].ops[op].injected
  {
    AlwaysSlotInv(run, i);
    assert OpOk(run[i].ops[op]);
  }

  // ---------------------------------------------------- ownership over time

  /** Contexts stay dead; a registration that is dead is consulted only by packets
      admitted before; and a registration keeps the slot as long as its context lives. */
  ghost predicate Owns(s: State, t: State) {
    && |s.regs| <= |t.regs|
    && (forall r :: 0 <= r < |s.regs| && !s.regs[r] ==> !t.regs[r])
    && s.consults <= t.consults
    && (forall j :: |s.consults| <= j < |t.consults| ==> CalledLive(s, t.consults[j]))
    && (s.slot.callback.Some? && s.slot.callback.value < |s.regs| && t.regs[s.slot.callback.value] ==> t.slot == s.slot)
  }

  predicate CalledLive(s: State, c: (nat, nat)) {
    c.1 < |s.regs| ==> s.regs[c.1] || (c.0 < |s.ops| && s.ops[c.0].phase.Admitted? && s.ops[c.0].asked == Some(c.1))
  }

  /** Past its slot check a packet keeps what it asked, and it was admitted once. */
  ghost predicate ChecksStay(s: State, t: State) {
    && |s.ops| <= |t.ops|
    && (forall k :: 0 <= k < |s.ops| && !s.ops[k].phase.Counted? ==>
          && !t.ops[k].phase.Counted? && t.ops[k].asked == s.ops[k].asked
          && (t.ops[k].phase.Admitted? ==> s.ops[k].phase.Admitted?))
    && (forall k :: 0 <= k < |t.ops| && t.ops[k].phase.Admitted? && (k >= |s.ops| || s.ops[k].phase.Counted?) ==>
          AskedLive(s, t.ops[k]))
  }

  /** Whom `op` asked was alive in `s` or came later. */
  predicate AskedLive(s: State, op: Op) {
    op.asked.Some? && (op.asked.value < |s.regs| ==> s.regs[op.asked.value])
  }

  /** While the owner of the slot lives, a packet that comes to its slot check is
      admitted to it. */
  ghost predicate OwnerAsked(s: State, t: State) {
    s.slot.callback.Some? && s.slot.callback.value < |t.regs| && t.regs[s.slot.callback.value] ==>
      forall k :: 0 <= k < |t.ops| && (k >= |s.ops| || s.ops[k].phase.Counted?) ==>
        t.ops[k].phase.Counted? || t.ops[k].asked == s.slot.callback
  }

  ghost predicate SlotBound(s: State) { s.slot.callback.Some? ==> s.slot.callback.value < |s.regs| }

  ghost predicate Regime(s: State, t: State) {
    SlotBound(s) ==> SlotBound(t) && Owns(s, t) && ChecksStay(s, t) && OwnerAsked(s, t)
  }

  lemma CallsTransitive(s: State, t: State, u: State)
    requires Owns(s, t) && Owns(t, u) && ChecksStay(s, t)
    ensures forall j :: |s.consults| <= j < |u.consults| ==> CalledLive(s, u.consults[j])
  {
    forall j | |s.consults| <= j < |u.consults| ensures CalledLive(s, u.consults[j]) {
      if j < |t.consults| { assert u.consults[j] == t.consults[j]; } else { assert CalledLive(t, u.consults[j]); }
    }
  }

  lemma ChecksTransitive(s: State, t: State, u: State)
    requires Owns(s, t) && ChecksStay(s, t) && ChecksStay(t, u)
    ensures ChecksStay(s, u)
  {
    forall k | 0 <= k < |u.ops| && u.ops[k].phase.Admitted? && (k >= |s.ops| || s.ops[k].phase.Counted?)
      ensures AskedLive(s, u.ops[k])
    {
      if k < |t.ops| && !t.ops[k].phase.Counted? {
        assert AskedLive(s, t.ops[k]);
      } else {
        assert AskedLive(t, u.ops[k]);
      }
    }
  }

  lemma OwnersTransitive(s: State, t: State, u: State)
    requires Regime(s, t) && Regime(t, u) && SlotBound(s)
    ensures OwnerAsked(s, u)
  {
  }

  lemma RegimeTransitive(s: State, t: State, u: State)
    requires Regime(s, t) && Regime(t, u)
    ensures Regime(s, u)
  {
    if SlotBound(s) {
      CallsTransitive(s, t, u);
      ChecksTransitive(s, t, u);
      OwnersTransitive(s, t, u);
    }
  }

  lemma ActionOwns(s: State, a: Action)
    requires ShapeInv(s) && Enabled(s, a)
    ensures SlotBound(Apply(s, a)) && Owns(s, Apply(s, a))
  {
  }

  lemma ActionChecks(s: State, a: Action)
    requires SlotInv(s) && Enabled(s, a)
    ensures ChecksStay(s, Apply(s, a))
  {
    if a.CheckSlot? { CheckAdmits(s, a.op); }
  }

  lemma ActionAsks(s: State, a: Action)
    requires SlotInv(s) && Enabled(s, a)
    ensures OwnerAsked(s, Apply(s, a))
  {
    if a.CheckSlot? { CheckAdmits(s, a.op); }
  }

  lemma ActionRules(s: State, a: Action)
    requires SlotInv(s) && Enabled(s, a)
    ensures Regime(s, Apply(s, a))
  {
    ActionOwns(s, a);
    ActionChecks(s, a);
    ActionAsks(s, a);
  }

  lemma AlwaysRegime(run: seq<State>, i: nat, j: nat)
    requires IsRun(Init, Next, run) && i <= j < |run|
    ensures Regime(run[i], run[j]) && SlotBound(run[i])
  {
    SlotInvIsInductive();
    AlwaysSlotInv(run, i);
    forall s, s' | SlotInv(s) && Next(s, s') ensures Regime(s, s') {
      var a :| Enabled(s, a) && s' == Apply(s, a);
      ActionRules(s, a);
    }
    forall s, t, u | Regime(s, t) && Regime(t, u) ensures Regime(s, u) { RegimeTransitive(s, t, u); }
    RelationHolds(Init, Next, SlotInv, Regime, run, i, j);
  }

  /** A filter is never replaced while its context lives, and once its context is dead
      it is called only by packets that found it alive before. */
  lemma SingleOwner(run: seq<State>, i: nat, j: nat)
    requires IsRun(Init, Next, run) && i <= j < |run|
    ensures Owns(run[i], run[j])
  {
    AlwaysRegime(run, i, j);
  }

  /** While the owner of the slot at `run[i]` lives, every packet that had not come to
      its slot check by then, or began later, asks exactly that filter, if it has come
      to it at all. */
  lemma EachPacketAsksOwner(run: seq<State>, i: nat, j: nat, k: nat)
    requires IsRun(Init, Next, run) && i <= j < |run| && k < |run[j].ops|
    requires run[i].slot.callback.Some? && run[i].slot.callback.value < |run[j].regs|
    requires run[j].regs[run[i].slot.callback.value]
    requires k >= |run[i].ops| || run[i].ops[k].phase.Counted?
    ensures run[j].ops[k].phase.Counted? || run[j].ops[k].asked == run[i].slot.callback
    ensures var q := run[j].ops[k];
            q.asked.Some? && !q.phase.Admitted? ==> Consulted(run[j], k, q.asked.value)
  {
    AlwaysRegime(run, i, j);
    AlwaysSlotInv(run, j);
  }

  /** Once the context of a filter is dead, it is called only by packets that are past
      their slot check; none is admitted any more. */
  lemma ClosedAdmitsNone(run: seq<State>, i: nat, j: nat, r: nat)
    requires IsRun(Init, Next, run) && i <= j < |run| && r < |run[i].regs| && !run[i].regs[r]
    ensures forall m :: |run[i].consults| <= m < |run[j].consults| && run[j].consults[m].1 == r ==>
              run[j].consults[m].0 < |run[i].ops| && run[i].ops[run[j].consults[m].0].phase.Admitted?
    ensures forall k :: 0 <= k < |run[j].ops| && run[j].ops[k].phase.Admitted? && run[j].ops[k].asked == Some(r) ==>
              k < |run[i].ops| && run[i].ops[k].phase.Admitted?
  {
    AlwaysRegime(run, i, j);
    forall m | |run[i].consults| <= m < |run[j].consults| && run[j].consults[m].1 == r
      ensures run[j].consults[m].0 < |run[i].ops| && run[i].ops[run[j].consults[m].0].phase.Admitted?
    {
      assert CalledLive(run[i], run[j].consults[m]);
    }
    forall k | 0 <= k < |run[j].ops| && run[j].ops[k].phase.Admitted? && run[j].ops[k].asked == Some(r)
      ensures k < |run[i].ops| && run[i].ops[k].phase.Admitted?
    {
      assert k >= |run[i].ops| || run[i].ops[k].phase.Counted? ==> AskedLive(run[i], run[j].ops[k]);
    }
  }
}
