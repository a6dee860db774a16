/** One packet through the spawner with nobody in between, as steps of Traffic, and
    what that comes to for any number of packets. */
module Forwarding {
  import opened Contexts
  import opened Base
  import opened Runs
  import opened Sequences
  import T = Traffic

  /** A packet and what is going to happen to it: the filter's answer if it is asked, the
      subscribers that are ready for it, and how its write ends. */
  datatype Parcel = Parcel(
    size: nat, injected: bool, serverbound: bool, allow: bool, ready: set<nat>, failure: Ctx)

  /** A packet of a container. */
  datatype Job = Job(container: nat, parcel: Parcel)

  /** No packet is being fanned out, the slot is well formed, the indexes are in range. */
  predicate Idle(s: T.State) {
    && s.lock.None? && s.slot.callback == s.slot.ctx == s.slot.cancel
    && T.SlotKnown(s) && T.MembersKnown(s)
  }

  // ------------------------------------------------------------------ steps

  /** The slot check and, if a filter is asked, its answer. */
  function Judged(s: T.State, i: nat, allow: bool): (t: T.State)
    requires T.Enabled(s, T.CheckSlot(i))
    ensures |t.ops| == |s.ops| && (t.ops[i].phase.Passing? || t.ops[i].phase.Refused?)
    ensures t.lock == s.lock
  {
    var t := T.DoCheckSlot(s, i);
    if t.ops[i].phase.Admitted? then T.DoAnswer(T.DoCallFilter(t, i), i, allow) else t
  }

  /** The rcChanLock region. */
  function Published(s: T.State, i: nat, ready: set<nat>): T.State
    requires T.Enabled(s, T.Lock(i))
  {
    T.DoFanOut(T.DoLock(s, i), i, ready, {})
  }

  /** HandleSend. */
  function Handled(s: T.State, c: nat, p: Parcel): (t: T.State)
    requires Idle(s)
    ensures |t.ops| == |s.ops| + 1 && (t.ops[|s.ops|].phase.Passed? || t.ops[|s.ops|].phase.Refused?)
    ensures t.ops[|s.ops|].container == c && t.bytesSent == s.bytesSent
  {
    var i := |s.ops|;
    var u := Judged(T.DoBegin(s, c, p.size, p.injected), i, p.allow);
    if u.ops[i].phase.Refused? then u else Published(u, i, p.ready)
  }

  /** The write of packet `i` and its statistics, unless HandleSend said no. */
  function Finished(t: T.State, i: nat, ok: bool): T.State
    requires i < |t.ops| && (t.ops[i].phase.Passed? || t.ops[i].phase.Refused?)
    requires t.ops[i].container < |t.bytesSent|
  {
    if t.ops[i].phase.Refused? then t
    else
      var u := T.DoWrite(t, i, ok);
      if ok then T.DoAccount(u, i) else u
  }

  /** HandleSend, the write and the statistics. */
  function Forwarded(s: T.State, c: nat, p: Parcel): T.State
    requires Idle(s) && c < |s.bytesSent|
  {
    Finished(Handled(s, c, p), |s.ops|, p.failure.None?)
  }

  // ------------------------------------------------------- what they come to

  /** The filter holds the packet back; `live` tells whether there is a live filter. */
  predicate Held(live: bool, p: Parcel) { live && !p.injected && !p.allow }

  function Fate(live: bool, p: Parcel): T.Phase {
    if Held(live, p) then T.Refused else if p.failure.None? then T.Delivered else T.Failed
  }

  /** Subscriber `k` gets the packet. */
  predicate Reaches(s: T.State, p: Parcel, k: nat)
    requires k < |s.subs|
  {
    !Held(T.SlotLive(s), p) && k in s.members && s.subs[k].alive && k in p.ready
  }

  /** Only the fields that concern the filter may differ otherwise. */
  ghost predicate SlotEffect(s: T.State, t: T.State) {
    && t.regs == s.regs && T.SlotLive(t) == T.SlotLive(s)
    && t.slot == (if T.SlotLive(s) then s.slot else T.EMPTY_SLOT)
    && t.consults ==
       (if T.SlotLive(s) && s.slot.callback.Some? then s.consults + [(|s.ops|, s.slot.callback.value)] else s.consults)
  }

  ghost predicate SubsEffect(s: T.State, t: T.State, p: Parcel) {
    && t.members == s.members && |t.subs| == |s.subs|
    && t.sent == (if Held(T.SlotLive(s), p) then s.sent else s.sent + [|s.ops|])
    && forall k :: 0 <= k < |s.subs| ==>
         t.subs[k] == if Reaches(s, p, k) then s.subs[k].(log := s.subs[k].log + [|s.ops|]) else s.subs[k]
  }

  ghost predicate OpEffect(s: T.State, t: T.State, c: nat, p: Parcel, fate: T.Phase) {
    && |t.ops| == |s.ops| + 1 && t.ops[..|s.ops|] == s.ops
    && t.ops[|s.ops|].container == c && t.ops[|s.ops|].size == p.size
    && t.ops[|s.ops|].injected == p.injected && t.ops[|s.ops|].phase == fate
  }

  /** HandleSend, said without its steps. */
  lemma HandledExact(s: T.State, c: nat, p: Parcel)
    requires Idle(s)
    ensures var t := Handled(s, c, p);
            && Idle(t) && SlotEffect(s, t) && SubsEffect(s, t, p)
            && OpEffect(s, t, c, p, if Held(T.SlotLive(s), p) then T.Refused else T.Passed)
            && t.totalSent == T.Wrapped(s.totalSent + p.size) && t.bytesSent == s.bytesSent
  {
    var i, begun := |s.ops|, T.DoBegin(s, c, p.size, p.injected);
    JudgedExact(s, begun, i, c, p);
    var u := Judged(begun, i, p.allow);
    if !u.ops[i].phase.Refused? { PublishedExact(u, i, p.ready); }
  }

  /** The filter part. */
  lemma JudgedExact(s: T.State, begun: T.State, i: nat, c: nat, p: Parcel)
    requires Idle(s) && i == |s.ops| && begun == s.(totalSent := begun.totalSent, ops := begun.ops)
    requires begun.ops == s.ops + [T.Op(c, p.size, p.injected, T.Counted, None, false)]
    ensures var u := Judged(begun, i, p.allow);
            && Idle(u) && SlotEffect(s, u)
            && u == begun.(ops := u.ops, slot := u.slot, released := u.released, consults := u.consults)
            && OpEffect(s, u, c, p, if Held(T.SlotLive(s), p) then T.Refused else T.Passing)
  {
  }

  /** The fan-out part. */
  lemma PublishedExact(u: T.State, i: nat, ready: set<nat>)
    requires T.Enabled(u, T.Lock(i))
    ensures var t := Published(u, i, ready);
            && t == u.(ops := u.ops[i := u.ops[i].(phase := T.Passed)], subs := t.subs, sent := u.sent + [i])
            && |t.subs| == |u.subs|
            && forall k :: 0 <= k < |u.subs| ==>
                 t.subs[k] == if k in u.members && u.subs[k].alive && k in ready
                              then u.subs[k].(log := u.subs[k].log + [i]) else u.subs[k]
  {
  }

  /** A packet forwarded, said without its steps. */
  ghost predicate Effect(s: T.State, t: T.State, c: nat, p: Parcel)
    requires c < |s.bytesSent|
  {
    var fate := Fate(T.SlotLive(s), p);
    && SlotEffect(s, t) && SubsEffect(s, t, p) && OpEffect(s, t, c, p, fate)
    && t.totalSent == T.Wrapped(s.totalSent + p.size)
    && t.bytesSent ==
       if fate == T.Delivered then s.bytesSent[c := T.Wrapped(s.bytesSent[c] + p.size)] else s.bytesSent
  }

  lemma ForwardedExact(s: T.State, c: nat, p: Parcel)
    requires Idle(s) && c < |s.bytesSent|
    ensures Idle(Forwarded(s, c, p)) && Effect(s, Forwarded(s, c, p), c, p)
  {
    HandledExact(s, c, p);
    FinishedExact(s, Handled(s, c, p), c, p);
  }

  lemma FinishedExact(s: T.State, u: T.State, c: nat, p: Parcel)
    requires Idle(u) && c < |s.bytesSent| && u.bytesSent == s.bytesSent
    requires SlotEffect(s, u) && SubsEffect(s, u, p) && u.totalSent == T.Wrapped(s.totalSent + p.size)
    requires OpEffect(s, u, c, p, if Held(T.SlotLive(s), p) then T.Refused else T.Passed)
    ensures Idle(Finished(u, |s.ops|, p.failure.None?)) && Effect(s, Finished(u, |s.ops|, p.failure.None?), c, p)
  {
  }

  // --------------------------------------------------------- steps of Traffic

  /** Steps of Traffic lead from `s` to `t`. */
  ghost predicate Steps(s: T.State, t: T.State) {
    exists path: seq<T.State> :: IsPath(T.Next, path) && path[0] == s && path[|path| - 1] == t
  }

  lemma NoStep(s: T.State)
    ensures Steps(s, s)
  {
    assert IsPath(T.Next, [s]) && [s][0] == s;
  }

  lemma OneStep(s: T.State, a: T.Action)
    requires T.Enabled(s, a)
    ensures Steps(s, T.Apply(s, a))
  {
    NoStep(s);
    StepMore(s, s, a);
  }

  lemma StepMore(s: T.State, t: T.State, a: T.Action)
    requires Steps(s, t) && T.Enabled(t, a)
    ensures Steps(s, T.Apply(t, a))
  {
    var path: seq<T.State> :| IsPath(T.Next, path) && path[0] == s && path[|path| - 1] == t;
    Longer(T.Next, path, T.Apply(t, a));
    assert (path + [T.Apply(t, a)])[0] == s;
  }

  lemma StepsOn(s: T.State, t: T.State, u: T.State)
    requires Steps(s, t) && Steps(t, u)
    ensures Steps(s, u)
  {
    var path: seq<T.State> :| IsPath(T.Next, path) && path[0] == t && path[|path| - 1] == u;
    StepsAlong(s, path, |path| - 1);
  }

  lemma {:induction false} StepsAlong(s: T.State, path: seq<T.State>, i: nat)
    requires IsPath(T.Next, path) && i < |path| && Steps(s, path[0])
    ensures Steps(s, path[i])
  {
    if i > 0 {
      StepsAlong(s, path, i - 1);
      assert StepAt(T.Next, path, i);
      var a :| T.Enabled(path[i - 1], a) && path[i] == T.Apply(path[i - 1], a);
      StepMore(s, path[i - 1], a);
    }
  }

  lemma HandledSteps(s: T.State, c: nat, p: Parcel)
    requires Idle(s) && c < |s.bytesSent|
    ensures Steps(s, Handled(s, c, p))
  {
    var i, t := |s.ops|, T.DoBegin(s, c, p.size, p.injected);
    OneStep(s, T.Begin(c, p.size, p.injected));
    JudgedSteps(s, t, i, p.allow);
    var u := Judged(t, i, p.allow);
    if !u.ops[i].phase.Refused? {
      StepMore(s, u, T.Lock(i));
      StepMore(s, T.DoLock(u, i), T.FanOut(i, p.ready, {}));
    }
  }

  lemma JudgedSteps(s: T.State, t: T.State, i: nat, allow: bool)
    requires Steps(s, t) && T.Enabled(t, T.CheckSlot(i))
    ensures Steps(s, Judged(t, i, allow))
  {
    var u := T.DoCheckSlot(t, i);
    StepMore(s, t, T.CheckSlot(i));
    if u.ops[i].phase.Admitted? {
      StepMore(s, u, T.CallFilter(i));
      StepMore(s, T.DoCallFilter(u, i), T.Answer(i, allow));
    }
  }

  lemma FinishedSteps(s: T.State, t: T.State, i: nat, ok: bool)
    requires Steps(s, t) && i < |t.ops| && (t.ops[i].phase.Passed? || t.ops[i].phase.Refused?)
    requires t.ops[i].container < |t.bytesSent|
    ensures Steps(s, Finished(t, i, ok))
  {
    if t.ops[i].phase.Passed? {
      StepMore(s, t, T.Write(i, ok));
      if ok { StepMore(s, T.DoWrite(t, i, ok), T.Account(i)); }
    }
  }

  lemma ForwardedSteps(s: T.State, c: nat, p: Parcel)
    requires Idle(s) && c < |s.bytesSent|
    ensures Steps(s, Forwarded(s, c, p))
  {
    HandledSteps(s, c, p);
    FinishedSteps(s, Handled(s, c, p), |s.ops|, p.failure.None?);
  }

  // ------------------------------------------------------- any number of them

  function TotalSize(jobs: seq<Job>): nat {
    if jobs == [] then 0 else TotalSize(jobs[..|jobs| - 1]) + jobs[|jobs| - 1].parcel.size
  }

  /** The bytes delivered through container `c`. */
  function BytesThrough(jobs: seq<Job>, live: bool, c: nat): nat {
    if jobs == [] then 0
    else
      var job := jobs[|jobs| - 1];
      BytesThrough(jobs[..|jobs| - 1], live, c) +
      if job.container == c && Fate(live, job.parcel) == T.Delivered then job.parcel.size else 0
  }

  /** The packets let through, numbered from `first`, and those of them that find
      subscriber `k` ready. */
  function LetThrough(jobs: seq<Job>, live: bool, first: nat): seq<nat> {
    if jobs == [] then []
    else
      LetThrough(jobs[..|jobs| - 1], live, first) +
      if Held(live, jobs[|jobs| - 1].parcel) then [] else [first + |jobs| - 1]
  }

  function ReadyFor(jobs: seq<Job>, live: bool, first: nat, k: nat): seq<nat> {
    if jobs == [] then []
    else
      var p := jobs[|jobs| - 1].parcel;
      ReadyFor(jobs[..|jobs| - 1], live, first, k) + if Held(live, p) || k !in p.ready then [] else [first + |jobs| - 1]
  }

  /** The writes that succeed, with their direction, and the errors of the others. */
  function Writes(jobs: seq<Job>, live: bool, first: nat): seq<(nat, bool)> {
    if jobs == [] then []
    else
      var p := jobs[|jobs| - 1].parcel;
      Writes(jobs[..|jobs| - 1], live, first) +
      if Fate(live, p) == T.Delivered then [(first + |jobs| - 1, p.serverbound)] else []
  }

  function WriteErrors(jobs: seq<Job>, live: bool): seq<Cause> {
    if jobs == [] then []
    else
      var p := jobs[|jobs| - 1].parcel;
      WriteErrors(jobs[..|jobs| - 1], live) +
      if Fate(live, p) == T.Failed && p.failure.Some? then [p.failure.value] else []
  }

  ghost predicate OpsOf(s: T.State, t: T.State, jobs: seq<Job>) {
    && |t.ops| == |s.ops| + |jobs| && t.ops[..|s.ops|] == s.ops
    && forall j :: 0 <= j < |jobs| ==> OpOf(t.ops[|s.ops| + j], T.SlotLive(s), jobs[j])
  }

  predicate OpOf(op: T.Op, live: bool, job: Job) {
    && op.container == job.container && op.size == job.parcel.size && op.injected == job.parcel.injected
    && op.phase == Fate(live, job.parcel)
  }

  ghost predicate BytesOf(s: T.State, t: T.State, jobs: seq<Job>) {
    && t.totalSent == T.Wrapped(s.totalSent + TotalSize(jobs)) && |t.bytesSent| == |s.bytesSent|
    && forall c :: 0 <= c < |s.bytesSent| ==>
         t.bytesSent[c] == T.Wrapped(s.bytesSent[c] + BytesThrough(jobs, T.SlotLive(s), c))
  }

  ghost predicate LogsOf(s: T.State, t: T.State, jobs: seq<Job>) {
    && t.members == s.members && |t.subs| == |s.subs|
    && t.sent == s.sent + LetThrough(jobs, T.SlotLive(s), |s.ops|)
    && forall k :: 0 <= k < |s.subs| ==>
         t.subs[k] == if k in s.members && s.subs[k].alive
                      then s.subs[k].(log := s.subs[k].log + ReadyFor(jobs, T.SlotLive(s), |s.ops|, k))
                      else s.subs[k]
  }

  /** Every packet has its own fate, every byte, log entry and packet let through is
      accounted for, and the filter stays what it is. */
  ghost predicate Outcome(s: T.State, t: T.State, jobs: seq<Job>) {
    && OpsOf(s, t, jobs) && BytesOf(s, t, jobs) && LogsOf(s, t, jobs)
    && t.regs == s.regs && T.SlotLive(t) == T.SlotLive(s)
  }

  predicate InRange(s: T.State) {
    s.totalSent < T.WRAP && forall c :: 0 <= c < |s.bytesSent| ==> s.bytesSent[c] < T.WRAP
  }

  lemma OpsAdd(s: T.State, u: T.State, t: T.State, jobs: seq<Job>, job: Job)
    requires OpsOf(s, u, jobs) && T.SlotLive(u) == T.SlotLive(s)
    requires OpEffect(u, t, job.container, job.parcel, Fate(T.SlotLive(u), job.parcel))
    ensures OpsOf(s, t, jobs + [job])
  {
    assert t.ops[..|s.ops|] == t.ops[..|u.ops|][..|s.ops|];
    forall j | 0 <= j < |jobs| + 1 ensures OpOf(t.ops[|s.ops| + j], T.SlotLive(s), (jobs + [job])[j]) {
      if j < |jobs| { assert t.ops[|s.ops| + j] == t.ops[..|u.ops|][|s.ops| + j]; }
    }
  }

  lemma WrapTwice(a: nat, b: nat, c: nat)
    ensures T.Wrapped(T.Wrapped(a + b) + c) == T.Wrapped(a + (b + c))
  {
  }

  /** The counters of the containers. */
  ghost predicate CountersEffect(a: seq<nat>, b: seq<nat>, live: bool, job: Job) {
    && |b| == |a|
    && forall c :: 0 <= c < |a| ==>
         b[c] == if job.container == c && Fate(live, job.parcel) == T.Delivered
                 then T.Wrapped(a[c] + job.parcel.size) else a[c]
  }

  lemma CounterAdd(base: nat, a: nat, b: nat, jobs: seq<Job>, live: bool, job: Job, c: nat)
    requires a == T.Wrapped(base + BytesThrough(jobs, live, c))
    requires b == if job.container == c && Fate(live, job.parcel) == T.Delivered
                  then T.Wrapped(a + job.parcel.size) else a
    ensures b == T.Wrapped(base + BytesThrough(jobs + [job], live, c))
  {
    assert (jobs + [job])[..|jobs|] == jobs;
    WrapTwice(base, BytesThrough(jobs, live, c), job.parcel.size);
  }

  lemma CountersAdd(base: seq<nat>, a: seq<nat>, b: seq<nat>, jobs: seq<Job>, live: bool, job: Job)
    requires |a| == |base| && CountersEffect(a, b, live, job)
    requires forall c :: 0 <= c < |base| ==> a[c] == T.Wrapped(base[c] + BytesThrough(jobs, live, c))
    ensures forall c :: 0 <= c < |base| ==> b[c] == T.Wrapped(base[c] + BytesThrough(jobs + [job], live, c))
  {
    forall c | 0 <= c < |base| ensures b[c] == T.Wrapped(base[c] + BytesThrough(jobs + [job], live, c)) {
      CounterAdd(base[c], a[c], b[c], jobs, live, job, c);
    }
  }

  lemma TotalAdd(base: nat, a: nat, jobs: seq<Job>, job: Job)
    requires a == T.Wrapped(base + TotalSize(jobs))
    ensures T.Wrapped(a + job.parcel.size) == T.Wrapped(base + TotalSize(jobs + [job]))
  {
    assert (jobs + [job])[..|jobs|] == jobs;
    WrapTwice(base, TotalSize(jobs), job.parcel.size);
  }

  lemma BytesAdd(s: T.State, u: T.State, t: T.State, jobs: seq<Job>, job: Job)
    requires BytesOf(s, u, jobs) && t.totalSent == T.Wrapped(u.totalSent + job.parcel.size)
    requires CountersEffect(u.bytesSent, t.bytesSent, T.SlotLive(s), job)
    ensures BytesOf(s, t, jobs + [job])
  {
    TotalAdd(s.totalSent, u.totalSent, jobs, job);
    CountersAdd(s.bytesSent, u.bytesSent, t.bytesSent, jobs, T.SlotLive(s), job);
  }

  lemma LogsAdd(s: T.State, u: T.State, t: T.State, jobs: seq<Job>, job: Job)
    requires LogsOf(s, u, jobs) && T.SlotLive(u) == T.SlotLive(s) && |u.ops| == |s.ops| + |jobs|
    requires SubsEffect(u, t, job.parcel)
    ensures LogsOf(s, t, jobs + [job])
  {
    var live, first := T.SlotLive(s), |s.ops|;
    ListsAdd(jobs, job, live, first, 0);
    Associates(s.sent, LetThrough(jobs, live, first), NewLet(live, job, first + |jobs|));
    forall k | 0 <= k < |s.subs|
      ensures t.subs[k] == if k in s.members && s.subs[k].alive
                           then s.subs[k].(log := s.subs[k].log + ReadyFor(jobs + [job], live, first, k)) else s.subs[k]
    {
      LogAdd(s.subs[k], u.subs[k], t.subs[k], jobs, job, live, first, k in s.members, k);
    }
  }

  lemma LogAdd(a: T.Subscriber, b: T.Subscriber, c: T.Subscriber, jobs: seq<Job>, job: Job, live: bool, first: nat,
               member: bool, k: nat)
    requires b == if member && a.alive then a.(log := a.log + ReadyFor(jobs, live, first, k)) else a
    requires c == if !Held(live, job.parcel) && member && b.alive && k in job.parcel.ready
                  then b.(log := b.log + [first + |jobs|]) else b
    ensures c == if member && a.alive then a.(log := a.log + ReadyFor(jobs + [job], live, first, k)) else a
  {
    ListsAdd(jobs, job, live, first, k);
    assert b.log + [] == b.log;
    SubAdd(a, b, c, member, ReadyFor(jobs, live, first, k), NewReady(live, job, first + |jobs|, k));
  }

  /** One subscriber's log. */
  lemma SubAdd(a: T.Subscriber, b: T.Subscriber, c: T.Subscriber, member: bool, had: seq<nat>, more: seq<nat>)
    requires b == if member && a.alive then a.(log := a.log + had) else a
    requires c == if member && b.alive then b.(log := b.log + more) else b
    ensures c == if member && a.alive then a.(log := a.log + (had + more)) else a
  {
    Associates(a.log, had, more);
  }

  function NewLet(live: bool, job: Job, i: nat): seq<nat> { if Held(live, job.parcel) then [] else [i] }

  function NewReady(live: bool, job: Job, i: nat, k: nat): seq<nat> {
    if Held(live, job.parcel) || k !in job.parcel.ready then [] else [i]
  }

  lemma ListsAdd(jobs: seq<Job>, job: Job, live: bool, first: nat, k: nat)
    ensures LetThrough(jobs + [job], live, first) == LetThrough(jobs, live, first) + NewLet(live, job, first + |jobs|)
    ensures ReadyFor(jobs + [job], live, first, k) ==
            ReadyFor(jobs, live, first, k) + NewReady(live, job, first + |jobs|, k)
  {
    assert (jobs + [job])[..|jobs|] == jobs;
  }

  lemma NothingDone(s: T.State)
    requires InRange(s)
    ensures Outcome(s, s, [])
  {
  }

  /** One packet more. */
  lemma OutcomeAdd(s: T.State, u: T.State, t: T.State, jobs: seq<Job>, job: Job)
    requires Outcome(s, u, jobs) && job.container < |u.bytesSent| && Effect(u, t, job.container, job.parcel)
    ensures Outcome(s, t, jobs + [job])
  {
    assert OpsOf(s, t, jobs + [job]) by { OpsAdd(s, u, t, jobs, job); }
    assert BytesOf(s, t, jobs + [job]) by {
      EffectOnCounters(u, t, job);
      BytesAdd(s, u, t, jobs, job);
    }
    assert LogsOf(s, t, jobs + [job]) by { LogsAdd(s, u, t, jobs, job); }
  }

  lemma EffectOnCounters(u: T.State, t: T.State, job: Job)
    requires job.container < |u.bytesSent| && Effect(u, t, job.container, job.parcel)
    ensures CountersEffect(u.bytesSent, t.bytesSent, T.SlotLive(u), job)
  {
  }
}
