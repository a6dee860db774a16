/** The subscribers' view of the packets, with the pruner removing dead ones. */
module FanOutOrder {
  import opened Runs
  import opened Sequences
  import opened SwapRemove
  import opened Traffic

  predicate WasSent(p: Phase) { p.Passed? || p.Written? || p.Failed? || p.Delivered? }

  /** `sent` lists, once each, exactly the packets for which HandleSend returned true. */
  ghost predicate SentInv(s: State) {
    && Distinct(s.sent)
    && (forall i :: i in s.sent ==> i < |s.ops| && WasSent(s.ops[i].phase))
    && (forall i :: 0 <= i < |s.ops| && WasSent(s.ops[i].phase) ==> i in s.sent)
  }

  ghost predicate LogsInv(s: State) {
    forall k :: 0 <= k < |s.subs| ==> IsSubsequence(s.subs[k].log, s.sent)
  }

  /** rcChan holds no subscriber twice, and what the scan listed is still there and
      still dead. */
  ghost predicate MembersInv(s: State) {
    && Distinct(s.members)
    && MembersKnown(s)
    && (s.scanned.Some? ==>
          && Ascending(s.scanned.value)
          && forall j :: 0 <= j < |s.scanned.value| ==>
               s.scanned.value[j] < |s.members| && !s.subs[s.members[s.scanned.value[j]]].alive)
  }

  ghost predicate FanInv(s: State) { SentInv(s) && LogsInv(s) && MembersInv(s) }

  lemma MoveKeeps(s: State, t: State, i: nat)
    requires FanInv(s) && i < |s.ops| && |t.ops| == |s.ops|
    requires forall k :: 0 <= k < |s.ops| && k != i ==> t.ops[k] == s.ops[k]
    requires WasSent(t.ops[i].phase) == WasSent(s.ops[i].phase)
    requires t.subs == s.subs && t.members == s.members && t.scanned == s.scanned && t.sent == s.sent
    ensures FanInv(t)
  {
  }

  lemma FanOutKeeps(s: State, i: nat, ready: set<nat>, late: set<nat>)
    requires FanInv(s) && Enabled(s, FanOut(i, ready, late))
    ensures FanInv(DoFanOut(s, i, ready, late))
  {
    var t := DoFanOut(s, i, ready, late);
    assert i !in s.sent;
    forall k | 0 <= k < |t.subs| ensures IsSubsequence(t.subs[k].log, t.sent) {
      assert IsSubsequence(s.subs[k].log, s.sent);
      SubsequenceSkip(s.subs[k].log, s.sent, i);
      SubsequenceTake(s.subs[k].log, s.sent, i);
    }
  }

  lemma SubscribeKeeps(s: State, alive: bool)
    requires FanInv(s)
    ensures FanInv(DoSubscribe(s, alive))
  {
  }

  lemma CancelKeeps(s: State, k: nat)
    requires FanInv(s) && k < |s.subs|
    ensures FanInv(DoCancel(s, k))
  {
    var t := DoCancel(s, k);
    forall m | 0 <= m < |t.subs| ensures IsSubsequence(t.subs[m].log, t.sent) {
      assert IsSubsequence(s.subs[m].log, s.sent);
    }
  }

  lemma {:induction false} ScanListsDead(members: seq<nat>, live: nat -> bool)
    ensures forall j :: 0 <= j < |DeadIndexes(members, live)| ==>
              !live(members[DeadIndexes(members, live)[j]])
  {
    if members != [] {
      ScanListsDead(members[..|members| - 1], live);
    }
  }

  lemma ScanKeeps(s: State)
    requires FanInv(s) && Enabled(s, Scan)
    ensures FanInv(DoScan(s))
  {
    ScanListsDead(s.members, (m: nat) => m < |s.subs| && s.subs[m].alive);
  }

  /** Fewer copies of everything: no repetition can appear. */
  lemma DistinctShrinks(a: seq<nat>, b: seq<nat>)
    requires multiset(a) <= multiset(b) && Distinct(b)
    ensures Distinct(a) && forall m :: m in a ==> m in b
  {
    forall m | m in a ensures m in b {
      assert m in multiset(a) && m in multiset(b);
    }
    forall i, j | 0 <= i < j < |a| ensures a[i] != a[j] {
      if a[i] == a[j] {
        TwoCopies(a, i, j);
        OneCopy(b, a[i]);
      }
    }
  }

  lemma TwoCopies(a: seq<nat>, i: nat, j: nat)
    requires i < j < |a| && a[i] == a[j]
    ensures multiset(a)[a[i]] >= 2
  {
    assert a == a[..j] + a[j..] && a[i] in a[..j] && a[j] in a[j..];
    assert multiset(a)[a[i]] == multiset(a[..j])[a[i]] + multiset(a[j..])[a[i]];
  }

  lemma {:induction false} OneCopy(b: seq<nat>, x: nat)
    requires Distinct(b)
    ensures multiset(b)[x] <= 1
  {
    if b != [] {
      var n := |b| - 1;
      OneCopy(b[..n], x);
      assert b == b[..n] + [b[n]];
      assert multiset(b)[x] == multiset(b[..n])[x] + multiset([b[n]])[x];
      if x == b[n] { assert x !in b[..n]; }
    }
  }

  /** The pass that does not panic removes the listed subscribers and no other. */
  lemma PruneKeeps(s: State)
    requires FanInv(s) && Enabled(s, Prune)
    ensures FanInv(DoPrune(s))
    ensures multiset(DoPrune(s).members) + multiset(Picked(s.members, s.scanned.value)) == multiset(s.members)
  {
    AscendingKeepsLive(s.members, s.scanned.value);
    var t := DoPrune(s);
    DistinctShrinks(t.members, s.members);
    forall j | 0 <= j < |t.members| ensures t.members[j] < |t.subs| {
      assert t.members[j] in t.members;
    }
  }

  /** When the pruner panics. */
  lemma PrunePanicsExactly(s: State)
    requires FanInv(s) && s.scanned.Some? && s.scanned.value != []
    ensures PrunedMembers(s).None? <==>
            s.scanned.value[|s.scanned.value| - 1] + |s.scanned.value| > |s.members|
  {
    AscendingInBounds(s.members, s.scanned.value);
  }

  /** A live subscriber is never pruned, a dead one that was scanned always is. */
  lemma PruneLosesNoLive(s: State, m: nat)
    requires FanInv(s) && Enabled(s, Prune) && m in s.members
    ensures s.subs[m].alive ==> m in DoPrune(s).members
    ensures (exists j :: 0 <= j < |s.scanned.value| && s.members[s.scanned.value[j]] == m) <==>
            m !in DoPrune(s).members
  {
    PruneKeeps(s);
    var dead := s.scanned.value;
    var picked := Picked(s.members, dead);
    assert multiset(s.members)[m] >= 1;
    OneCopy(s.members, m);
    assert multiset(s.members)[m] == multiset(DoPrune(s).members)[m] + multiset(picked)[m];
    if m in picked {
      var j :| 0 <= j < |picked| && picked[j] == m;
      assert s.members[dead[j]] == m && m in multiset(picked);
      assert !s.subs[m].alive;
    } else {
      assert multiset(picked)[m] == 0;
      assert forall j :: 0 <= j < |dead| ==> picked[j] == s.members[dead[j]];
    }
  }

  /** A new packet, or a step that concerns neither packets nor subscribers. */
  lemma OtherKeeps(s: State, t: State)
    requires FanInv(s) && s.ops <= t.ops
    requires forall i :: |s.ops| <= i < |t.ops| ==> !WasSent(t.ops[i].phase)
    requires t.subs == s.subs && t.members == s.members && t.scanned == s.scanned && t.sent == s.sent
    ensures FanInv(t)
  {
  }

  predicate MovesOnePacket(a: Action) { a.CheckSlot? || a.CallFilter? || a.Answer? || a.Write? || a.Account? }

  lemma PacketKeeps(s: State, a: Action)
    requires FanInv(s) && Enabled(s, a) && MovesOnePacket(a)
    ensures FanInv(Apply(s, a))
  {
    match a
    case CheckSlot(i) => MoveKeeps(s, DoCheckSlot(s, i), i);
    case CallFilter(i) => MoveKeeps(s, DoCallFilter(s, i), i);
    case Answer(i, allow) => MoveKeeps(s, DoAnswer(s, i, allow), i);
    case Write(i, ok) => MoveKeeps(s, DoWrite(s, i, ok), i);
    case Account(i) => MoveKeeps(s, DoAccount(s, i), i);
  }

  predicate ConcernsSubscribers(a: Action) { a.FanOut? || a.Subscribe? || a.Cancel? || a.Scan? || a.Prune? }

  lemma OtherActionKeeps(s: State, a: Action)
    requires FanInv(s) && Enabled(s, a) && !MovesOnePacket(a) && !ConcernsSubscribers(a)
    ensures FanInv(Apply(s, a))
  {
    OtherKeeps(s, Apply(s, a));
  }

  lemma ActionKeeps(s: State, a: Action)
    requires FanInv(s) && Enabled(s, a)
    ensures FanInv(Apply(s, a))
  {
    match a
    case FanOut(i, ready, late) => FanOutKeeps(s, i, ready, late);
    case Subscribe(alive) => SubscribeKeeps(s, alive);
    case Cancel(k) => CancelKeeps(s, k);
    case Scan => ScanKeeps(s);
    case Prune => PruneKeeps(s);
    case _ => if MovesOnePacket(a) { PacketKeeps(s, a); } else { OtherActionKeeps(s, a); }
  }

  lemma FanInvIsInductive()
    ensures Inductive(Init, Next, FanInv)
  {
    forall s, s' | FanInv(s) && Next(s, s') ensures FanInv(s') {
      var a :| Enabled(s, a) && s' == Apply(s, a);
      ActionKeeps(s, a);
    }
  }

  lemma AlwaysFanInv(run: seq<State>, i: nat)
    requires IsRun(Init, Next, run) && i < |run|
    ensures FanInv(run[i])
  {
    FanInvIsInductive();
    InvariantHolds(Init, Next, FanInv, run, i);
  }

  lemma LogMember(s: State, k: nat, op: nat)
    requires FanInv(s) && k < |s.subs| && op in s.subs[k].log
    ensures op in s.sent && op < |s.ops| && WasSent(s.ops[op].phase)
  {
    SubsequenceMember(s.subs[k].log, s.sent, op);
  }

  /** Each subscriber receives a subsequence of the packets HandleSend let pass, so a
      refused packet reaches nobody. */
  lemma LogsFollowSent(run: seq<State>, i: nat, k: nat, op: nat)
    requires IsRun(Init, Next, run) && i < |run| && k < |run[i].subs|
    ensures IsSubsequence(run[i].subs[k].log, run[i].sent) && Distinct(run[i].sent)
    ensures op in run[i].subs[k].log ==> op < |run[i].ops| && WasSent(run[i].ops[op].phase)
  {
    AlwaysFanInv(run, i);
    if op in run[i].subs[k].log { LogMember(run[i], k, op); }
  }

  /** Any two subscribers agree on the order of the packets both received. */
  lemma SubscribersAgree(run: seq<State>, i: nat, k: nat, l: nat, a: nat, b: nat, c: nat, d: nat)
    requires IsRun(Init, Next, run) && i < |run| && k < |run[i].subs| && l < |run[i].subs|
    requires a < |run[i].subs[k].log| && b < |run[i].subs[k].log|
    requires c < |run[i].subs[l].log| && d < |run[i].subs[l].log|
    requires run[i].subs[k].log[a] == run[i].subs[l].log[c] && run[i].subs[k].log[b] == run[i].subs[l].log[d]
    ensures a < b <==> c < d
  {
    LogsFollowSent(run, i, k, 0);
    LogsFollowSent(run, i, l, 0);
    OrderAgrees(run[i].subs[k].log, run[i].subs[l].log, run[i].sent, a, b, c, d);
    OrderAgrees(run[i].subs[l].log, run[i].subs[k].log, run[i].sent, c, d, a, b);
  }

  lemma OrderAgrees(x: seq<nat>, y: seq<nat>, sent: seq<nat>, a: nat, b: nat, c: nat, d: nat)
    requires IsSubsequence(x, sent) && IsSubsequence(y, sent) && Distinct(sent)
    requires a < |x| && b < |x| && c < |y| && d < |y| && x[a] == y[c] && x[b] == y[d]
    ensures a < b ==> c < d
  {
    if a < b { OrderCarries(x, y, sent, a, b, c, d); }
  }

  lemma OrderCarries(x: seq<nat>, y: seq<nat>, sent: seq<nat>, a: nat, b: nat, c: nat, d: nat)
    requires IsSubsequence(x, sent) && IsSubsequence(y, sent) && Distinct(sent)
    requires a < b < |x| && c < |y| && d < |y| && x[a] == y[c] && x[b] == y[d]
    ensures c < d
  {
    SubsequenceMember(x, sent, x[a]);
    SubsequenceMember(x, sent, x[b]);
    var p :| 0 <= p < |sent| && sent[p] == x[a];
    var q :| 0 <= q < |sent| && sent[q] == x[b];
    SubsequenceOrder(x, sent, a, b, p, q);
    if d < c { SubsequenceOrder(y, sent, d, c, q, p); }
    assert c == d ==> p == q;
  }

  /** A fan-out gives the packet to exactly the members that are ready and were found
      alive, once and at the end of their logs, and changes nothing else about them. */
  lemma FanOutExact(s: State, i: nat, ready: set<nat>, late: set<nat>, k: nat)
    requires Enabled(s, FanOut(i, ready, late)) && k < |s.subs|
    ensures var t := DoFanOut(s, i, ready, late);
            && |t.subs| == |s.subs| && t.subs[k].alive == s.subs[k].alive && t.sent == s.sent + [i]
            && (k in s.members && k in ready && (s.subs[k].alive || k in late) ==> t.subs[k].log == s.subs[k].log + [i])
            && (!(k in s.members && k in ready && (s.subs[k].alive || k in late)) ==> t.subs[k].log == s.subs[k].log)
  {
  }

  /** A subscriber starts as a member, with an empty log. */
  lemma SubscribeExact(s: State, alive: bool)
    ensures var t := DoSubscribe(s, alive);
            && |t.subs| == |s.subs| + 1 && t.subs[..|s.subs|] == s.subs
            && t.subs[|s.subs|] == Subscriber(alive, []) && t.members == s.members + [|s.subs|] && t.sent == s.sent
  {
  }

  ghost predicate StepBy(s: State, a: Action, t: State) { Enabled(s, a) && t == Apply(s, a) }

  /** Subscriber `k` is a live member. */
  predicate Listening(s: State, k: nat) { k < |s.subs| && s.subs[k].alive && k in s.members }

  lemma StillListening(s: State, a: Action, k: nat)
    requires FanInv(s) && Enabled(s, a) && Listening(s, k)
    requires k < |Apply(s, a).subs| && Apply(s, a).subs[k].alive
    ensures Listening(Apply(s, a), k)
    ensures a.FanOut? && k in a.ready ==>
              Apply(s, a).sent == s.sent + [a.op] && Apply(s, a).subs[k].log == s.subs[k].log + [a.op]
    ensures !a.FanOut? ==> Apply(s, a).sent == s.sent && Apply(s, a).subs[k].log == s.subs[k].log
  {
    if a.Prune? { PruneLosesNoLive(s, k); }
    if a.FanOut? { FanOutExact(s, a.op, a.ready, a.late, k); }
  }

  lemma ListenedOnce(s: State, a: Action, t: State, k: nat)
    requires FanInv(s) && StepBy(s, a, t) && Listening(s, k) && k < |t.subs| && t.subs[k].alive
    requires a.FanOut? ==> k in a.ready
    ensures FanInv(t) && Listening(t, k)
    ensures s.sent <= t.sent && t.subs[k].log == s.subs[k].log + t.sent[|s.sent|..]
  {
    assert FanInv(t) by { ActionKeeps(s, a); }
    StillListening(s, a, k);
  }

  predicate AliveAt(run: seq<State>, j: nat, k: nat) { j < |run| && k < |run[j].subs| && run[j].subs[k].alive }

  predicate ReadyAt(acts: seq<Action>, j: nat, k: nat) {
    j < |acts| && (acts[j].FanOut? ==> k in acts[j].ready)
  }

  /** A member that stays alive and is ready at every fan-out gets every packet that is
      let through, in that order. */
  lemma {:induction false} ReadyMemberGetsAll(run: seq<State>, acts: seq<Action>, k: nat, n: nat)
    requires Driven(StepBy, run, acts) && n < |run| && FanInv(run[0]) && Listening(run[0], k)
    requires forall j | 0 < j <= n :: AliveAt(run, j, k)
    requires forall j | 0 <= j < n :: ReadyAt(acts, j, k)
    ensures FanInv(run[n]) && Listening(run[n], k) && run[0].sent <= run[n].sent
    ensures run[n].subs[k].log == run[0].subs[k].log + run[n].sent[|run[0].sent|..]
  {
    if n > 0 {
      ReadyMemberGetsAll(run, acts, k, n - 1);
      assert DrivenAt(StepBy, run, acts, n - 1) && AliveAt(run, n, k) && ReadyAt(acts, n - 1, k);
      ListenedOnce(run[n - 1], acts[n - 1], run[n], k);
      SinceAppends(run[0].sent, run[n - 1].sent, run[n].sent);
      Associates(run[0].subs[k].log, run[n - 1].sent[|run[0].sent|..], run[n].sent[|run[n - 1].sent|..]);
    }
  }

  /** So, from the subscription on, its log is exactly the part of `sent` since then. */
  lemma LogIsSentSince(run: seq<State>, acts: seq<Action>, n: nat)
    requires Driven(StepBy, run, acts) && 0 < n < |run| && FanInv(run[0]) && acts[0] == Subscribe(true)
    requires forall j | 1 < j <= n :: AliveAt(run, j, |run[0].subs|)
    requires forall j | 1 <= j < n :: ReadyAt(acts, j, |run[0].subs|)
    ensures |run[0].subs| < |run[n].subs| && |run[0].sent| <= |run[n].sent|
    ensures run[n].subs[|run[0].subs|].log == run[n].sent[|run[0].sent|..]
  {
    assert DrivenAt(StepBy, run, acts, 0);
    ActionKeeps(run[0], acts[0]);
    SubscribeExact(run[0], true);
    var later, acts' := run[1..], acts[1..];
    forall i | 0 <= i < |acts'| ensures DrivenAt(StepBy, later, acts', i) {
      assert DrivenAt(StepBy, run, acts, i + 1);
    }
    forall j | 0 < j <= n - 1 ensures AliveAt(later, j, |run[0].subs|) {
      assert AliveAt(run, j + 1, |run[0].subs|);
    }
    forall j | 0 <= j < n - 1 ensures ReadyAt(acts', j, |run[0].subs|) {
      assert ReadyAt(acts, j + 1, |run[0].subs|);
    }
    ReadyMemberGetsAll(later, acts', |run[0].subs|, n - 1);
  }

  /** Subscriber `k` was alive when the packet that is being fanned out took the lock. */
  predicate InHand(s: State, k: nat) { s.lock.Some? && k in s.lock.value.alive }

  /** Cancelled subscriber `k` has gained nothing from `s` to `t`, or just the packet
      that was being fanned out in `s`. */
  ghost predicate GainedAtMostOne(s: State, t: State, k: nat)
    requires k < |s.subs| && k < |t.subs|
  {
    && !t.subs[k].alive
    && (|| (t.subs[k].log == s.subs[k].log && (InHand(t, k) ==> t.lock == s.lock))
        || (InHand(s, k) && t.subs[k].log == s.subs[k].log + [s.lock.value.op] && !InHand(t, k)))
  }

  /** Logs only grow, and a cancelled subscriber's by the packet in hand at most. */
  ghost predicate LogsGrow(s: State, t: State) {
    && |s.subs| <= |t.subs| && s.sent <= t.sent
    && (forall k :: 0 <= k < |s.subs| ==> s.subs[k].log <= t.subs[k].log)
    && (forall k :: 0 <= k < |s.subs| && !s.subs[k].alive ==> GainedAtMostOne(s, t, k))
  }

  lemma GainsTransitive(s: State, t: State, u: State)
    requires LogsGrow(s, t) && LogsGrow(t, u)
    ensures LogsGrow(s, u)
  {
    forall k | 0 <= k < |s.subs| && !s.subs[k].alive ensures GainedAtMostOne(s, u, k) {
      assert GainedAtMostOne(s, t, k) && GainedAtMostOne(t, u, k);
    }
  }

  lemma ActionGrows(s: State, a: Action)
    requires Enabled(s, a)
    ensures LogsGrow(s, Apply(s, a))
  {
  }

  lemma AlwaysLogsGrow(run: seq<State>, i: nat, j: nat)
    requires IsRun(Init, Next, run) && i <= j < |run|
    ensures LogsGrow(run[i], run[j])
  {
    FanInvIsInductive();
    forall s, s' | FanInv(s) && Next(s, s') ensures LogsGrow(s, s') {
      var a :| Enabled(s, a) && s' == Apply(s, a);
      ActionGrows(s, a);
    }
    forall s, t, u | LogsGrow(s, t) && LogsGrow(t, u) ensures LogsGrow(s, u) { GainsTransitive(s, t, u); }
    RelationHolds(Init, Next, FanInv, LogsGrow, run, i, j);
  }

  /** Once cancelled, a subscriber gains nothing, but for the packet that was being
      fanned out at that moment, which may already have found it alive. */
  lemma CancelledGainsNothing(run: seq<State>, i: nat, j: nat, k: nat)
    requires IsRun(Init, Next, run) && i <= j < |run| && k < |run[i].subs| && !run[i].subs[k].alive
    ensures k < |run[j].subs|
    ensures run[j].subs[k].log != run[i].subs[k].log ==>
              run[i].lock.Some? && run[j].subs[k].log == run[i].subs[k].log + [run[i].lock.value.op]
  {
    AlwaysLogsGrow(run, i, j);
    assert GainedAtMostOne(run[i], run[j], k);
  }
}
