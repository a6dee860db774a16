/** Byte conservation over every run, modulo 2^64. */
module ByteCounters {
  import opened Base
  import opened Runs
  import opened Sequences
  import opened Traffic

  function SizeOf(): Op -> nat { (o: Op) => o.size }

  function DeliveredTo(c: nat): Op -> nat {
    (o: Op) => if o.phase.Delivered? && o.container == c then o.size else 0
  }

  function DeliveredSize(): Op -> nat { (o: Op) => if o.phase.Delivered? then o.size else 0 }
  function RefusedSize(): Op -> nat { (o: Op) => if o.phase.Refused? then o.size else 0 }
  function FailedSize(): Op -> nat { (o: Op) => if o.phase.Failed? then o.size else 0 }

  predicate Flying(p: Phase) { !p.Delivered? && !p.Refused? && !p.Failed? }
  function FlyingSize(): Op -> nat { (o: Op) => if Flying(o.phase) then o.size else 0 }

  ghost predicate BytesInv(s: State) {
    && (forall i :: 0 <= i < |s.ops| ==> s.ops[i].container < |s.bytesSent|)
    && s.totalSent == Wrapped(Sum(s.ops, SizeOf()))
    && (forall c :: 0 <= c < |s.bytesSent| ==> s.bytesSent[c] == Wrapped(Sum(s.ops, DeliveredTo(c))))
  }

  lemma WrapAdd(a: nat, b: nat)
    ensures Wrapped(Wrapped(a) + b) == Wrapped(a + b)
  {
  }

  lemma {:induction false} NothingDelivered(ops: seq<Op>, c: nat)
    requires forall i :: 0 <= i < |ops| ==> ops[i].container < c
    ensures Sum(ops, DeliveredTo(c)) == 0
  {
    if ops != [] { NothingDelivered(ops[..|ops| - 1], c); }
  }

  lemma AddContainerKeeps(s: State)
    requires BytesInv(s)
    ensures BytesInv(s.(bytesSent := s.bytesSent + [0]))
  {
    NothingDelivered(s.ops, |s.bytesSent|);
  }

  lemma BeginKeeps(s: State, c: nat, size: nat, injected: bool)
    requires BytesInv(s) && c < |s.bytesSent|
    ensures BytesInv(DoBegin(s, c, size, injected))
  {
    var op := Op(c, size, injected, Counted, None, false);
    SumAppend(s.ops, SizeOf(), op);
    WrapAdd(Sum(s.ops, SizeOf()), size);
    forall d | 0 <= d < |s.bytesSent|
      ensures Sum(s.ops + [op], DeliveredTo(d)) == Sum(s.ops, DeliveredTo(d))
    {
      SumAppend(s.ops, DeliveredTo(d), op);
    }
  }

  /** A packet moves on without its bytes being counted for its container. */
  lemma MoveKeeps(s: State, t: State, i: nat, op: Op)
    requires BytesInv(s) && i < |s.ops| && t.ops == s.ops[i := op]
    requires t.totalSent == s.totalSent && t.bytesSent == s.bytesSent
    requires op.size == s.ops[i].size && op.container == s.ops[i].container
    requires !op.phase.Delivered? && !s.ops[i].phase.Delivered?
    ensures BytesInv(t)
  {
    SumUpdate(s.ops, SizeOf(), i, op);
    forall d | 0 <= d < |s.bytesSent|
      ensures Sum(t.ops, DeliveredTo(d)) == Sum(s.ops, DeliveredTo(d))
    {
      SumUpdate(s.ops, DeliveredTo(d), i, op);
    }
  }

  lemma AccountKeeps(s: State, i: nat)
    requires BytesInv(s) && Enabled(s, Account(i))
    ensures BytesInv(DoAccount(s, i))
  {
    var t := DoAccount(s, i);
    var op := t.ops[i];
    SumUpdate(s.ops, SizeOf(), i, op);
    forall d | 0 <= d < |s.bytesSent|
      ensures t.bytesSent[d] == Wrapped(Sum(t.ops, DeliveredTo(d)))
    {
      SumUpdate(s.ops, DeliveredTo(d), i, op);
      WrapAdd(Sum(s.ops, DeliveredTo(d)), op.size);
    }
  }

  lemma ActionKeeps(s: State, a: Action)
    requires BytesInv(s) && Enabled(s, a)
    ensures BytesInv(Apply(s, a))
  {
    match a
    case AddContainer => AddContainerKeeps(s);
    case Begin(c, size, injected) => BeginKeeps(s, c, size, injected);
    case CheckSlot(i) => MoveKeeps(s, DoCheckSlot(s, i), i, DoCheckSlot(s, i).ops[i]);
    case CallFilter(i) => MoveKeeps(s, DoCallFilter(s, i), i, DoCallFilter(s, i).ops[i]);
    case Answer(i, allow) => MoveKeeps(s, DoAnswer(s, i, allow), i, DoAnswer(s, i, allow).ops[i]);
    case FanOut(i, ready, late) =>
      MoveKeeps(s, DoFanOut(s, i, ready, late), i, DoFanOut(s, i, ready, late).ops[i]);
    case Write(i, ok) => MoveKeeps(s, DoWrite(s, i, ok), i, DoWrite(s, i, ok).ops[i]);
    case Account(i) => AccountKeeps(s, i);
    case _ =>
  }

  function TotalOf(counters: seq<nat>): nat {
    if counters == [] then 0 else TotalOf(counters[..|counters| - 1]) + counters[|counters| - 1]
  }

  /** Bytes delivered by the first `n` containers, not wrapped. */
  ghost function DeliveredBelow(ops: seq<Op>, n: nat): nat {
    if n == 0 then 0 else DeliveredBelow(ops, n - 1) + Sum(ops, DeliveredTo(n - 1))
  }

  lemma {:induction false} TotalWraps(s: State, n: nat)
    requires BytesInv(s) && n <= |s.bytesSent|
    ensures Wrapped(TotalOf(s.bytesSent[..n])) == Wrapped(DeliveredBelow(s.ops, n))
  {
    if n > 0 {
      TotalWraps(s, n - 1);
      assert s.bytesSent[..n][..n - 1] == s.bytesSent[..n - 1];
      var a, b := TotalOf(s.bytesSent[..n - 1]), DeliveredBelow(s.ops, n - 1);
      var x := Sum(s.ops, DeliveredTo(n - 1));
      WrapAdd(a, Wrapped(x));
      WrapAdd(b, Wrapped(x));
      WrapAdd(x, b);
    }
  }

  function DeliveredUnder(n: nat): Op -> nat {
    (o: Op) => if o.phase.Delivered? && o.container < n then o.size else 0
  }

  lemma {:induction false} BelowIsSum(ops: seq<Op>, n: nat)
    ensures DeliveredBelow(ops, n) == Sum(ops, DeliveredUnder(n))
  {
    if n > 0 {
      BelowIsSum(ops, n - 1);
      SumSplit(ops, DeliveredUnder(n), DeliveredUnder(n - 1), DeliveredTo(n - 1));
    } else {
      SumSplit(ops, DeliveredUnder(0), DeliveredUnder(0), DeliveredUnder(0));
    }
  }

  function NotDelivered(): Op -> nat { (o: Op) => if o.phase.Delivered? then 0 else o.size }
  function FailedOrFlying(): Op -> nat { (o: Op) => if o.phase.Failed? || Flying(o.phase) then o.size else 0 }

  lemma {:induction false} Partition(ops: seq<Op>)
    ensures Sum(ops, SizeOf()) ==
            Sum(ops, DeliveredSize()) + Sum(ops, RefusedSize()) + Sum(ops, FailedSize()) + Sum(ops, FlyingSize())
  {
    SumSplit(ops, SizeOf(), DeliveredSize(), NotDelivered());
    SumSplit(ops, NotDelivered(), RefusedSize(), FailedOrFlying());
    SumSplit(ops, FailedOrFlying(), FailedSize(), FlyingSize());
  }

  /** Modulo 2^64, totalSent is the bytesSent of every container ever made, live or
      pruned, plus the bytes refused by the filter, the bytes whose write failed and
      the bytes still on their way. */
  ghost predicate Balanced(s: State) {
    s.totalSent ==
    Wrapped(TotalOf(s.bytesSent) + Sum(s.ops, RefusedSize()) + Sum(s.ops, FailedSize()) + Sum(s.ops, FlyingSize()))
  }

  /** Each container counts exactly the bytes delivered through it. */
  ghost predicate ContainersExact(s: State) {
    forall c | 0 <= c < |s.bytesSent| :: s.bytesSent[c] == Wrapped(Sum(s.ops, DeliveredTo(c)))
  }

  lemma Conserved(s: State)
    requires BytesInv(s)
    ensures Balanced(s) && ContainersExact(s)
  {
    var n := |s.bytesSent|;
    TotalWraps(s, n);
    assert s.bytesSent[..n] == s.bytesSent;
    BelowIsSum(s.ops, n);
    SumSame(s.ops, DeliveredUnder(n), DeliveredSize());
    Partition(s.ops);
    var rest := Sum(s.ops, RefusedSize()) + Sum(s.ops, FailedSize()) + Sum(s.ops, FlyingSize());
    WrapAdd(TotalOf(s.bytesSent), rest);
    WrapAdd(DeliveredBelow(s.ops, n), rest);
  }

  lemma BytesInvIsInductive()
    ensures Inductive(Init, Next, BytesInv)
  {
    forall s, s' | BytesInv(s) && Next(s, s') ensures BytesInv(s') {
      var a :| Enabled(s, a) && s' == Apply(s, a);
      ActionKeeps(s, a);
    }
  }

  lemma AlwaysBytesInv(run: seq<State>, i: nat)
    requires IsRun(Init, Next, run) && i < |run|
    ensures BytesInv(run[i])
  {
    BytesInvIsInductive();
    InvariantHolds(Init, Next, BytesInv, run, i);
  }

  /** The books balance in every reachable state. */
  lemma BytesConserved(run: seq<State>, i: nat)
    requires IsRun(Init, Next, run) && i < |run|
    ensures Balanced(run[i]) && ContainersExact(run[i])
  {
    AlwaysBytesInv(run, i);
    Conserved(run[i]);
  }
}
