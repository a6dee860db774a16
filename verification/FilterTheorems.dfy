/** What the filter handshake guarantees over every run, whatever the client sends. */
module FilterTheorems {
  import opened Base
  import opened Runs
  import opened FilterProtocol

  ghost predicate FilterRun(run: seq<State>) { IsRun(Init, Next, run) }

  lemma InvIsInductive()
    ensures Inductive(Init, Next, Inv)
  {
    forall s | Init(s) ensures Inv(s) { InitEstablishes(s); }
    forall s, s' | Inv(s) && Next(s, s') ensures Inv(s') { StepPreserves(s, s'); }
  }

  lemma AlwaysInv(run: seq<State>, i: nat)
    requires FilterRun(run) && i < |run|
    ensures Inv(run[i])
  {
    InvIsInductive();
    InvariantHolds(Init, Next, Inv, run, i);
  }

  /** Exact token accounting, in every reachable state. */
  lemma TokenAccounting(run: seq<State>, i: nat)
    requires FilterRun(run) && i < |run|
    ensures |Unused(run[i])| == run[i].spurious + |Holding(run[i])| + Blocked(run[i])
    ensures Used(run[i]) <= Recorded(run[i])
    ensures Used(run[i]) == Recorded(run[i]) <==>
            run[i].spurious == 0 && Holding(run[i]) == {} && !run[i].reader.Signalling?
  {
    AlwaysInv(run, i);
    UsedIsRecorded(run[i]);
    assert Used(run[i]) == Recorded(run[i]) <==> Unused(run[i]) == {};
  }

  /** No cross-talk: an answer is the verdict for the packet's own number, the
      default action, or `true` for an injected packet; the first two never mix. */
  lemma NoCrossTalk(run: seq<State>, i: nat, n: int)
    requires FilterRun(run) && i < |run|
    requires n in run[i].calls && run[i].calls[n].Returned?
    ensures AnswerOk(run[i], n)
    ensures run[i].calls[n].reason == Decided ==>
              n in run[i].filterMap && run[i].filterMap[n] == VerdictOf(run[i].calls[n].result)
    ensures !IsInjected(run[i].calls[n]) && n !in run[i].records ==>
              run[i].calls[n].result == run[i].defaultAllow
  {
    AlwaysInv(run, i);
  }

  /** An injected packet's number never enters filterMap, so no verdict can name it. */
  lemma InjectedNeverFiltered(run: seq<State>, i: nat, n: int)
    requires FilterRun(run) && i < |run|
    requires n in run[i].calls && IsInjected(run[i].calls[n])
    ensures n !in run[i].filterMap && n !in run[i].records
    ensures run[i].calls[n].Returned? ==> run[i].calls[n].result || run[i].calls[n].reason == WriteFailed
  {
    AlwaysInv(run, i);
    if run[i].calls[n].Returned? { assert AnswerOk(run[i], n); }
  }

  // -------------------------------------------------------- what never changes

  ghost predicate MapGrows<V>(m: map<int, V>, m': map<int, V>) {
    forall n :: n in m ==> n in m' && m'[n] == m[n]
  }

  /** Entries are never removed and leave Wait at most once, answers are final,
      numbers are never taken back. */
  ghost predicate Settles(s: State, t: State) {
    && s.defaultAllow == t.defaultAllow
    && s.pktId <= t.pktId
    && (s.ended ==> t.ended)
    && s.written <= t.written
    && MapGrows(s.records, t.records)
    && (forall n :: n in s.filterMap ==> n in t.filterMap)
    && (forall n :: n in s.filterMap && s.filterMap[n] != Wait ==> t.filterMap[n] == s.filterMap[n])
    && (forall n :: n in s.calls ==> n in t.calls && IsInjected(t.calls[n]) == IsInjected(s.calls[n]))
    && (forall n :: n in s.calls && s.calls[n].Returned? ==> t.calls[n] == s.calls[n])
  }

  lemma MoveSettles(s: State, t: State, n: int)
    requires Inv(s) && CallMoved(s, t, n)
    ensures Settles(s, t)
  {
  }

  lemma TakeNumberSettles(s: State, injected: bool)
    requires Inv(s)
    ensures Settles(s, DoTakeNumber(s, injected))
  {
  }

  lemma AnnounceSettles(s: State, n: int)
    requires Inv(s) && Enabled(s, Announce(n))
    ensures Settles(s, DoAnnounce(s, n))
  {
  }

  lemma RecordSettles(s: State)
    requires Inv(s) && Enabled(s, Record)
    ensures Settles(s, DoRecord(s))
  {
  }

  lemma OffTableSettles(s: State, t: State)
    requires Inv(s) && TablesUntouched(s, t)
    ensures Settles(s, t)
  {
  }

  lemma ActionSettles(s: State, a: Action)
    requires Inv(s) && Enabled(s, a)
    ensures Settles(s, Apply(s, a))
  {
    match a
    case TakeNumber(injected) => TakeNumberSettles(s, injected);
    case Announce(n) => AnnounceSettles(s, n);
    case Record => RecordSettles(s);
    case WriteOk(n) => MoveSettles(s, DoWriteOk(s, n), n);
    case WriteFail(n, delivered) => MoveSettles(s, DoWriteFail(s, n, delivered), n);
    case SeeEnd(n) => MoveSettles(s, DoSeeEnd(s, n), n);
    case Expire(n, delivered) => MoveSettles(s, DoExpire(s, n, delivered), n);
    case Wake(n) => MoveSettles(s, DoWake(s, n), n);
    case Look(n) => MoveSettles(s, DoLook(s, n), n);
    case _ => OffTableFrame(s, a); OffTableSettles(s, Apply(s, a));
  }

  lemma StepSettles(s: State, s': State)
    requires Inv(s) && Next(s, s')
    ensures Settles(s, s')
  {
    var a :| Enabled(s, a) && s' == Apply(s, a);
    ActionSettles(s, a);
  }

  lemma NothingIsTakenBack(run: seq<State>, i: nat, j: nat)
    requires FilterRun(run) && i <= j < |run|
    ensures Settles(run[i], run[j])
  {
    InvIsInductive();
    forall s, s' | Inv(s) && Next(s, s') ensures Settles(s, s') { StepSettles(s, s'); }
    RelationHolds(Init, Next, Inv, Settles, run, i, j);
  }

  // ------------------------------------------------------------- refinement

  /** The specification: each packet gets at most one decision and one answer,
      and the answer is that decision or the default action. */
  datatype Entry = Entry(decision: Option<bool>, answer: Option<bool>)
  datatype Ledger = Ledger(defaultAllow: bool, packets: map<int, Entry>)

  ghost predicate Offer(l: Ledger, l': Ledger, n: int) {
    n !in l.packets && l' == l.(packets := l.packets[n := Entry(None, None)])
  }

  ghost predicate Decide(l: Ledger, l': Ledger, n: int, allow: bool) {
    && n in l.packets && l.packets[n].decision.None?
    && l' == l.(packets := l.packets[n := l.packets[n].(decision := Some(allow))])
  }

  ghost predicate Answer(l: Ledger, l': Ledger, n: int, result: bool) {
    && n in l.packets && l.packets[n].answer.None?
    && (result == l.defaultAllow || l.packets[n].decision == Some(result))
    && l' == l.(packets := l.packets[n := l.packets[n].(answer := Some(result))])
  }

  ghost predicate LedgerNext(l: Ledger, l': Ledger) {
    || l' == l
    || (exists n :: Offer(l, l', n))
    || (exists n, allow :: Decide(l, l', n, allow))
    || (exists n, result :: Answer(l, l', n, result))
  }

  ghost function EntryOf(s: State, n: int): Entry
    requires n in s.calls
  {
    Entry(if n in s.records then Some(s.records[n]) else None,
           if s.calls[n].Returned? then Some(s.calls[n].result) else None)
  }

  ghost function Abs(s: State): Ledger
    requires TablesInv(s)
  {
    Ledger(s.defaultAllow, map n | n in s.filterMap :: EntryOf(s, n))
  }

  /** Two states whose packets agree have the same ledger. */
  lemma SameLedger(s: State, t: State)
    requires TablesInv(s) && TablesInv(t) && s.defaultAllow == t.defaultAllow
    requires forall n :: n in s.filterMap <==> n in t.filterMap
    requires forall n :: n in s.filterMap ==> EntryOf(s, n) == EntryOf(t, n)
    ensures Abs(s) == Abs(t)
  {
  }

  /** One packet's entry differs. */
  lemma LedgerUpdated(s: State, t: State, n: int)
    requires TablesInv(s) && TablesInv(t) && t.defaultAllow == s.defaultAllow
    requires n in t.filterMap && t.filterMap.Keys == s.filterMap.Keys + {n}
    requires forall m :: m in s.filterMap && m != n ==> EntryOf(t, m) == EntryOf(s, m)
    ensures Abs(t) == Abs(s).(packets := Abs(s).packets[n := EntryOf(t, n)])
  {
    assert Abs(t).packets == Abs(s).packets[n := EntryOf(t, n)];
  }

  /** The call of `n` moved and nothing was recorded: silent, or an answer. */
  lemma MoveRefines(s: State, t: State, n: int)
    requires TablesInv(s) && TablesInv(t) && CallMoved(s, t, n)
    requires t.calls[n].Returned? ==> AnswerOk(t, n)
    ensures LedgerNext(Abs(s), Abs(t))
  {
    if n in s.filterMap && t.calls[n].Returned? {
      assert AnswerOk(t, n);
      LedgerUpdated(s, t, n);
      assert Answer(Abs(s), Abs(t), n, t.calls[n].result);
    } else {
      SameLedger(s, t);
    }
  }

  lemma AnnounceRefines(s: State, n: int)
    requires TablesInv(s) && Enabled(s, Announce(n)) && TablesInv(DoAnnounce(s, n))
    ensures LedgerNext(Abs(s), Abs(DoAnnounce(s, n)))
  {
    var t := DoAnnounce(s, n);
    if s.calls[n].injected {
      SameLedger(s, t);
    } else {
      LedgerUpdated(s, t, n);
      assert Offer(Abs(s), Abs(t), n);
    }
  }

  lemma RecordRefines(s: State)
    requires TablesInv(s) && Enabled(s, Record) && TablesInv(DoRecord(s))
    ensures LedgerNext(Abs(s), Abs(DoRecord(s)))
  {
    var t := DoRecord(s);
    LedgerUpdated(s, t, s.reader.req.target);
    assert Decide(Abs(s), Abs(t), s.reader.req.target, s.reader.req.allow);
  }

  lemma TakeNumberRefines(s: State, injected: bool)
    requires Inv(s) && TablesInv(DoTakeNumber(s, injected))
    ensures LedgerNext(Abs(s), Abs(DoTakeNumber(s, injected)))
  {
    SameLedger(s, DoTakeNumber(s, injected));
  }

  lemma OffTableRefines(s: State, t: State)
    requires TablesInv(s) && TablesInv(t) && TablesUntouched(s, t)
    ensures LedgerNext(Abs(s), Abs(t))
  {
    SameLedger(s, t);
  }

  lemma ActionRefines(s: State, a: Action)
    requires Inv(s) && Enabled(s, a) && Inv(Apply(s, a))
    ensures LedgerNext(Abs(s), Abs(Apply(s, a)))
  {
    match a
    case Announce(n) => AnnounceRefines(s, n);
    case Record => RecordRefines(s);
    case TakeNumber(injected) => TakeNumberRefines(s, injected);
    case WriteOk(n) => MoveRefines(s, DoWriteOk(s, n), n);
    case WriteFail(n, delivered) => MoveRefines(s, DoWriteFail(s, n, delivered), n);
    case SeeEnd(n) => MoveRefines(s, DoSeeEnd(s, n), n);
    case Expire(n, delivered) => MoveRefines(s, DoExpire(s, n, delivered), n);
    case Wake(n) => MoveRefines(s, DoWake(s, n), n);
    case Look(n) => MoveRefines(s, DoLook(s, n), n);
    case _ => OffTableFrame(s, a); OffTableRefines(s, Apply(s, a));
  }

  ghost predicate LedgerInit(l: Ledger) { l.packets == map[] }

  ghost function AbsRun(run: seq<State>): seq<Ledger>
    requires forall i | 0 <= i < |run| :: TablesInv(run[i])
  {
    seq(|run|, i requires 0 <= i < |run| => Abs(run[i]))
  }

  /** Every run of the handshake is a run of the specification, from an empty ledger. */
  lemma HandshakeRunRefines(run: seq<State>)
    requires FilterRun(run)
    ensures forall i | 0 <= i < |run| :: TablesInv(run[i])
    ensures IsRun(LedgerInit, LedgerNext, AbsRun(run))
  {
    AlwaysTables(run);
    forall i | 0 < i < |run| ensures StepAt(LedgerNext, AbsRun(run), i) { AbsStep(run, i); }
    assert AbsRun(run)[0].packets == map[];
  }

  lemma AlwaysTables(run: seq<State>)
    requires FilterRun(run)
    ensures forall i | 0 <= i < |run| :: TablesInv(run[i])
  {
    forall i | 0 <= i < |run| ensures TablesInv(run[i]) { AlwaysInv(run, i); }
  }

  lemma AbsStep(run: seq<State>, i: nat)
    requires FilterRun(run) && 0 < i < |run|
    requires forall k | 0 <= k < |run| :: TablesInv(run[k])
    ensures StepAt(LedgerNext, AbsRun(run), i)
  {
    assert StepAt(Next, run, i);
    AlwaysInv(run, i - 1);
    HandshakeRefines(run[i - 1], run[i]);
  }

  /** Every step of the handshake is a step of the specification or invisible to it. */
  lemma HandshakeRefines(s: State, s': State)
    requires Inv(s) && Next(s, s')
    ensures TablesInv(s') && LedgerNext(Abs(s), Abs(s'))
  {
    StepPreserves(s, s');
    var a :| Enabled(s, a) && s' == Apply(s, a);
    ActionRefines(s, a);
  }
}
