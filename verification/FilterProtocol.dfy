/** The packet-filter handshake of a WebSocket opened with `filter`.

    Goroutines: one call of handleRecvFilter per packet (keyed by its packet
    number), the single reader goroutine in listen/handleClientAction, and the
    remote client. Each lock region, each access to filterMap, each WebSocket
    write and each rendezvous on the unbuffered filterChan is one action. */
module FilterProtocol {
  import opened Base

  /** wsFilterWait, wsFilterAllow, wsFilterDrop. */
  datatype Verdict = Wait | Allow | Drop

  function VerdictOf(allow: bool): Verdict { if allow then Allow else Drop }

  /** Why a call of handleRecvFilter returned. */
  datatype Reason = WriteFailed | Injected | Decided | SocketEnded | TimedOut

  /** Where the call that owns a packet number stands. */
  datatype Call =
    | Numbered(injected: bool)    // has its number, pktIdLock released
    | Announced(injected: bool)   // past the filterMap insertion, about to write
    | Waiting                     // in the select
    | Woken                       // took a token, has not looked at filterMap yet
    | Returned(injected: bool, reason: Reason, result: bool)

  /** A wsReqFilter message: bit 0 of Extra says allow. */
  datatype Request = Request(target: int, allow: bool)

  /** The reader goroutine inside the wsReqFilter branch. */
  datatype Reader =
    | Idle
    | Received(req: Request)    // before the `found` test
    | Found(req: Request)       // target is a key, before the Wait test
    | Cleared(req: Request)     // entry was Wait, before the store
    | Signalling(target: int)   // verdict stored, blocked on filterChan

  /** What the server has written to the client, in order. */
  datatype Frame = Packet(num: int, injected: bool) | Error(status: int)

  const STATUS_NOT_FOUND := 404
  const STATUS_TIMEOUT := 408
  const STATUS_GONE := 410

  /** `inbox` holds client messages not read yet; `spurious` counts tokens
      whose taker found its own entry still Wait. */
  datatype State = State(
    defaultAllow: bool,
    pktId: int,
    filterMap: map<int, Verdict>,
    calls: map<int, Call>,
    reader: Reader,
    inbox: seq<Request>,
    written: seq<Frame>,
    ended: bool,
    records: map<int, bool>,
    spurious: nat)

  datatype Action =
    | TakeNumber(injected: bool)
    | Announce(n: int)
    | WriteOk(n: int)
    | WriteFail(n: int, delivered: bool)
    | End
    | SeeEnd(n: int)
    | Expire(n: int, delivered: bool)
    | Wake(n: int)
    | Look(n: int)
    | ClientSend(req: Request)
    | Receive
    | TestFound
    | TestWait
    | Record

  ghost predicate Init(s: State) {
    s == State(s.defaultAllow, 0, map[], map[], Idle, [], [], false, map[], 0)
  }

  predicate Enabled(s: State, a: Action) {
    match a
    case TakeNumber(_) => true
    case Announce(n) => n in s.calls && s.calls[n].Numbered?
    case WriteOk(n) => n in s.calls && s.calls[n].Announced?
    case WriteFail(n, _) => n in s.calls && s.calls[n].Announced?
    case End => true
    case SeeEnd(n) => n in s.calls && s.calls[n].Waiting? && s.ended
    case Expire(n, _) => n in s.calls && s.calls[n].Waiting?
    case Wake(n) => n in s.calls && s.calls[n].Waiting? && s.reader.Signalling?
    case Look(n) => n in s.calls && s.calls[n].Woken?
    case ClientSend(_) => true
    case Receive => s.reader.Idle? && s.inbox != []
    case TestFound => s.reader.Received?
    case TestWait => s.reader.Found?
    case Record => s.reader.Cleared?
  }

  predicate IsInjected(c: Call) {
    match c
    case Numbered(i) => i
    case Announced(i) => i
    case Returned(i, _, _) => i
    case _ => false
  }

  /** Only the call of packet `n` differs between `s` and `t`. */
  ghost predicate OnlyCall(s: State, t: State, n: int) {
    && t.defaultAllow == s.defaultAllow
    && (s.ended ==> t.ended)
    && (forall m :: m != n ==> (m in t.calls <==> m in s.calls))
    && (forall m :: m != n && m in s.calls ==> t.calls[m] == s.calls[m])
  }

  /** At most one frame was appended. */
  predicate Extends(w: seq<Frame>, w': seq<Frame>) {
    w' == w || (|w'| == |w| + 1 && w <= w')
  }

  predicate ExtendsByError(w: seq<Frame>, w': seq<Frame>) {
    Extends(w, w') && (|w'| > |w| ==> w'[|w|].Error?)
  }

  /** The call of `n`, not returned yet, takes a step that stores no verdict. */
  ghost predicate CallMoved(s: State, t: State, n: int) {
    && n in s.calls && n in t.calls && !s.calls[n].Returned?
    && IsInjected(t.calls[n]) == IsInjected(s.calls[n])
    && OnlyCall(s, t, n)
    && t.pktId == s.pktId && t.filterMap == s.filterMap && t.records == s.records
    && Extends(s.written, t.written)
  }

  /** The call that owns `n` moves on. */
  function Move(s: State, n: int, c: Call): State {
    s.(calls := s.calls[n := c])
  }

  function Write(s: State, f: Frame, delivered: bool): State {
    if delivered then s.(written := s.written + [f]) else s
  }

  /** Go yields the zero value, wsFilterWait, for a missing key. */
  function Lookup(m: map<int, Verdict>, n: int): Verdict {
    if n in m then m[n] else Wait
  }

  function DoTakeNumber(s: State, injected: bool): State {
    s.(calls := s.calls[s.pktId := Numbered(injected)], pktId := s.pktId + 1)
  }

  function DoAnnounce(s: State, n: int): State
    requires Enabled(s, Announce(n))
  {
    var injected := s.calls[n].injected;
    Move(s, n, Announced(injected)).(
      filterMap := if injected then s.filterMap else s.filterMap[n := Wait])
  }

  function DoWriteOk(s: State, n: int): (t: State)
    requires Enabled(s, WriteOk(n))
    ensures CallMoved(s, t, n)
  {
    var injected := s.calls[n].injected;
    Move(Write(s, Packet(n, injected), true), n,
         if injected then Returned(true, Injected, true) else Waiting)
  }

  function DoWriteFail(s: State, n: int, delivered: bool): (t: State)
    requires Enabled(s, WriteFail(n, delivered))
    ensures CallMoved(s, t, n)
  {
    var injected := s.calls[n].injected;
    Move(Write(s, Packet(n, injected), delivered), n, Returned(injected, WriteFailed, s.defaultAllow))
  }

  function DoSeeEnd(s: State, n: int): (t: State)
    requires Enabled(s, SeeEnd(n))
    ensures CallMoved(s, t, n)
  {
    Move(s, n, Returned(false, SocketEnded, s.defaultAllow))
  }

  function DoExpire(s: State, n: int, delivered: bool): (t: State)
    requires Enabled(s, Expire(n, delivered))
    ensures CallMoved(s, t, n)
  {
    Move(Write(s, Error(STATUS_TIMEOUT), delivered), n, Returned(false, TimedOut, s.defaultAllow))
  }

  function DoWake(s: State, n: int): (t: State)
    requires Enabled(s, Wake(n))
    ensures CallMoved(s, t, n)
  {
    Move(s, n, Woken).(reader := Idle)
  }

  function DoLook(s: State, n: int): (t: State)
    requires Enabled(s, Look(n))
    ensures CallMoved(s, t, n)
  {
    match Lookup(s.filterMap, n)
    case Allow => Move(s, n, Returned(false, Decided, true))
    case Drop => Move(s, n, Returned(false, Decided, false))
    case Wait => Move(s, n, Waiting).(spurious := s.spurious + 1)
  }

  function DoReceive(s: State): State
    requires Enabled(s, Receive)
  {
    s.(reader := Received(s.inbox[0]), inbox := s.inbox[1..])
  }

  function DoTestFound(s: State): State
    requires Enabled(s, TestFound)
  {
    if s.reader.req.target in s.filterMap then s.(reader := Found(s.reader.req))
    else Write(s, Error(STATUS_NOT_FOUND), true).(reader := Idle)
  }

  function DoTestWait(s: State): State
    requires Enabled(s, TestWait)
  {
    if Lookup(s.filterMap, s.reader.req.target) == Wait then s.(reader := Cleared(s.reader.req))
    else Write(s, Error(STATUS_GONE), true).(reader := Idle)
  }

  function DoRecord(s: State): State
    requires Enabled(s, Record)
  {
    var req := s.reader.req;
    s.(filterMap := s.filterMap[req.target := VerdictOf(req.allow)],
       records := s.records[req.target := req.allow],
       reader := Signalling(req.target))
  }

  function Apply(s: State, a: Action): State
    requires Enabled(s, a)
  {
    match a
    case TakeNumber(injected) => DoTakeNumber(s, injected)
    case Announce(n) => DoAnnounce(s, n)
    case WriteOk(n) => DoWriteOk(s, n)
    case WriteFail(n, delivered) => DoWriteFail(s, n, delivered)
    case End => s.(ended := true)
    case SeeEnd(n) => DoSeeEnd(s, n)
    case Expire(n, delivered) => DoExpire(s, n, delivered)
    case Wake(n) => DoWake(s, n)
    case Look(n) => DoLook(s, n)
    case ClientSend(req) => s.(inbox := s.inbox + [req])
    case Receive => DoReceive(s)
    case TestFound => DoTestFound(s)
    case TestWait => DoTestWait(s)
    case Record => DoRecord(s)
  }

  ghost predicate Next(s: State, s': State) {
    exists a :: Enabled(s, a) && s' == Apply(s, a)
  }

  // ---------------------------------------------------------------- invariant

  /** The packet a call is responsible for has been inserted in filterMap. */
  predicate PastAnnounce(c: Call) { !c.Numbered? }

  /** Numbers are handed out contiguously, and the keys of filterMap are the
      announced numbers of packets that are not injected. */
  ghost predicate NumbersInv(s: State) {
    && 0 <= s.pktId
    && (forall n :: n in s.calls <==> 0 <= n < s.pktId)
    && (forall n :: n in s.filterMap <==> n in s.calls && PastAnnounce(s.calls[n]) && !IsInjected(s.calls[n]))
  }

  /** A stored verdict is the one the client asked for. */
  ghost predicate RecordsInv(s: State) {
    && (forall n :: n in s.records ==> n in s.filterMap)
    && (forall n :: n in s.filterMap ==>
          s.filterMap[n] == if n in s.records then VerdictOf(s.records[n]) else Wait)
  }

  ghost predicate ReaderInv(s: State) {
    match s.reader
    case Found(req) => req.target in s.filterMap
    case Cleared(req) => req.target in s.filterMap && req.target !in s.records
    case Signalling(t) => t in s.records
    case _ => true
  }

  /** No cross-talk: a call returns the verdict recorded for its own number,
      `true` for an injected packet that was written, or the default action. */
  ghost predicate AnswerOk(s: State, n: int)
    requires n in s.calls && s.calls[n].Returned?
  {
    var Returned(injected, reason, result) := s.calls[n];
    match reason
    case Decided => !injected && n in s.records && result == s.records[n]
    case Injected => injected && result
    case WriteFailed => result == s.defaultAllow
    case SocketEnded => !injected && s.ended && result == s.defaultAllow
    case TimedOut => !injected && result == s.defaultAllow
  }

  ghost predicate AnswersInv(s: State) {
    forall n :: n in s.calls && s.calls[n].Returned? ==> AnswerOk(s, n)
  }

  predicate IsUsed(c: Call) { c.Returned? && c.reason == Decided }

  ghost function Recorded(s: State): set<int> { s.records.Keys }
  ghost function Used(s: State): set<int> { set n | n in s.calls && IsUsed(s.calls[n]) }
  ghost function Holding(s: State): set<int> { set n | n in s.calls && s.calls[n].Woken? }

  /** Recorded verdicts whose call still waits or left without using them. */
  ghost function Unused(s: State): set<int> { Recorded(s) - Used(s) }

  function Blocked(s: State): nat { if s.reader.Signalling? then 1 else 0 }

  /** Every recorded verdict sent one token: the token was used, is held, was
      taken by the wrong waiter, or is still blocked in the reader. */
  ghost predicate TokensInv(s: State) {
    |Unused(s)| == s.spurious + |Holding(s)| + Blocked(s)
  }

  ghost predicate TablesInv(s: State) {
    NumbersInv(s) && RecordsInv(s) && ReaderInv(s)
  }

  ghost predicate Inv(s: State) {
    TablesInv(s) && AnswersInv(s) && TokensInv(s)
  }

  lemma InitEstablishes(s: State)
    requires Init(s)
    ensures Inv(s)
  {
    assert Unused(s) == {} && Holding(s) == {};
  }

  lemma UsedIsRecorded(s: State)
    requires AnswersInv(s)
    ensures Used(s) <= Recorded(s)
  {
    forall n | n in Used(s) ensures n in s.records {
      assert AnswerOk(s, n);
    }
  }

  lemma AnswersFrame(s: State, t: State, n: int)
    requires AnswersInv(s) && OnlyCall(s, t, n)
    requires forall m :: m in s.records ==> m in t.records && t.records[m] == s.records[m]
    requires n in t.calls && t.calls[n].Returned? ==> AnswerOk(t, n)
    ensures AnswersInv(t)
  {
    forall m | m in t.calls && t.calls[m].Returned? ensures AnswerOk(t, m) {
      if m != n { assert AnswerOk(s, m); }
    }
  }

  ghost predicate HoldsToken(s: State, n: int) { n in s.calls && s.calls[n].Woken? }
  ghost predicate HasUsed(s: State, n: int) { n in s.calls && IsUsed(s.calls[n]) }

  /** How the token counts move when one call moves. */
  lemma HoldingMoves(s: State, t: State, n: int)
    requires OnlyCall(s, t, n)
    ensures |Holding(t)| == |Holding(s)| + Count(HoldsToken(t, n)) - Count(HoldsToken(s, n))
  {
    var a, b := Holding(t), Holding(s);
    forall m ensures m in a - {n} <==> m in b - {n} {
      assert (m in a <==> HoldsToken(t, m)) && (m in b <==> HoldsToken(s, m));
    }
    OneApart(a, b, n);
  }

  lemma UnusedMoves(s: State, t: State, n: int)
    requires OnlyCall(s, t, n) && t.records == s.records
    requires n in s.records || HasUsed(t, n) == HasUsed(s, n)
    ensures |Unused(t)| == |Unused(s)| - Count(HasUsed(t, n)) + Count(HasUsed(s, n))
  {
    UnusedApart(s, t, n);
    OneApart(Unused(t), Unused(s), n);
    assert n in Unused(t) <==> n in s.records && !HasUsed(t, n);
    assert n in Unused(s) <==> n in s.records && !HasUsed(s, n);
  }

  lemma UnusedApart(s: State, t: State, n: int)
    requires OnlyCall(s, t, n) && t.records == s.records
    ensures Unused(t) - {n} == Unused(s) - {n}
  {
    forall m | m != n ensures m in Unused(t) <==> m in Unused(s) {
      assert m in Unused(t) <==> m in s.records && !HasUsed(t, m);
      assert m in Unused(s) <==> m in s.records && !HasUsed(s, m);
    }
  }

  lemma TokensUntouched(s: State, t: State, n: int)
    requires TokensInv(s) && OnlyCall(s, t, n) && t.records == s.records
    requires HoldsToken(t, n) == HoldsToken(s, n) && HasUsed(t, n) == HasUsed(s, n)
    requires t.spurious == s.spurious && Blocked(t) == Blocked(s)
    ensures TokensInv(t)
  {
    HoldingMoves(s, t, n);
    UnusedMoves(s, t, n);
  }

  /** Fields the invariant does not constrain, or only in the direction they move. */
  lemma FrameKeeps(s: State, t: State)
    requires Inv(s)
    requires t == s.(written := t.written, inbox := t.inbox, ended := t.ended, reader := t.reader)
    requires s.ended ==> t.ended
    requires ReaderInv(t) && Blocked(t) == Blocked(s)
    ensures Inv(t)
  {
    AnswersFrame(s, t, -1);
    TokensUntouched(s, t, -1);
  }

  lemma MoveTables(s: State, n: int, c: Call)
    requires TablesInv(s)
    requires n in s.calls && PastAnnounce(s.calls[n])
    requires PastAnnounce(c) && IsInjected(c) == IsInjected(s.calls[n])
    ensures TablesInv(Move(s, n, c))
  {
  }

  /** A call moves without touching a token. */
  lemma MoveKeeps(s: State, n: int, c: Call)
    requires Inv(s)
    requires n in s.calls && (s.calls[n].Announced? || s.calls[n].Waiting?)
    requires PastAnnounce(c) && IsInjected(c) == IsInjected(s.calls[n])
    requires !c.Woken? && !IsUsed(c)
    requires c.Returned? ==> AnswerOk(Move(s, n, c), n)
    ensures Inv(Move(s, n, c))
  {
    MoveTables(s, n, c);
    AnswersFrame(s, Move(s, n, c), n);
    TokensUntouched(s, Move(s, n, c), n);
  }

  lemma TakeNumberTables(s: State, injected: bool)
    requires TablesInv(s)
    ensures TablesInv(DoTakeNumber(s, injected))
  {
  }

  lemma TakeNumberKeeps(s: State, injected: bool)
    requires Inv(s)
    ensures s.pktId !in s.calls && s.pktId !in s.filterMap
    ensures Inv(DoTakeNumber(s, injected))
  {
    TakeNumberTables(s, injected);
    var t := DoTakeNumber(s, injected);
    AnswersFrame(s, t, s.pktId);
    TokensUntouched(s, t, s.pktId);
  }

  lemma AnnounceTables(s: State, n: int)
    requires TablesInv(s) && Enabled(s, Announce(n))
    ensures TablesInv(DoAnnounce(s, n))
  {
  }

  lemma AnnounceKeeps(s: State, n: int)
    requires Inv(s) && Enabled(s, Announce(n))
    ensures n !in s.filterMap
    ensures Inv(DoAnnounce(s, n))
  {
    AnnounceTables(s, n);
    var t := DoAnnounce(s, n);
    AnswersFrame(s, t, n);
    TokensUntouched(s, t, n);
  }

  lemma WakeTables(s: State, n: int)
    requires TablesInv(s) && Enabled(s, Wake(n))
    ensures TablesInv(DoWake(s, n))
  {
  }

  lemma WakeKeeps(s: State, n: int)
    requires Inv(s) && Enabled(s, Wake(n))
    ensures Inv(DoWake(s, n))
  {
    WakeTables(s, n);
    var t := DoWake(s, n);
    AnswersFrame(s, t, n);
    HoldingMoves(s, t, n);
    UnusedMoves(s, t, n);
  }

  /** The taker finds its own entry decided and leaves with it. */
  lemma LookDecidedKeeps(s: State, n: int, result: bool)
    requires Inv(s) && Enabled(s, Look(n))
    requires Lookup(s.filterMap, n) == VerdictOf(result)
    ensures Inv(Move(s, n, Returned(false, Decided, result)))
  {
    var t := Move(s, n, Returned(false, Decided, result));
    MoveTables(s, n, Returned(false, Decided, result));
    AnswersFrame(s, t, n);
    HoldingMoves(s, t, n);
    UnusedMoves(s, t, n);
  }

  /** The taker finds its own entry still Wait: the token is lost to it. */
  lemma LookSpuriousKeeps(s: State, n: int)
    requires Inv(s) && Enabled(s, Look(n))
    ensures Inv(Move(s, n, Waiting).(spurious := s.spurious + 1))
  {
    var t := Move(s, n, Waiting).(spurious := s.spurious + 1);
    MoveTables(s, n, Waiting);
    AnswersFrame(s, t, n);
    HoldingMoves(s, t, n);
    UnusedMoves(s, t, n);
  }

  lemma LookKeeps(s: State, n: int)
    requires Inv(s) && Enabled(s, Look(n))
    ensures n in s.records ==>
              DoLook(s, n).calls[n] == Returned(false, Decided, s.records[n]) && DoLook(s, n).spurious == s.spurious
    ensures n !in s.records ==> DoLook(s, n).calls[n] == Waiting && DoLook(s, n).spurious == s.spurious + 1
    ensures Inv(DoLook(s, n))
  {
    match Lookup(s.filterMap, n)
    case Allow => LookDecidedKeeps(s, n, true);
    case Drop => LookDecidedKeeps(s, n, false);
    case Wait => LookSpuriousKeeps(s, n);
  }

  lemma RecordTables(s: State)
    requires TablesInv(s) && Enabled(s, Record)
    ensures TablesInv(DoRecord(s))
  {
  }

  lemma RecordKeeps(s: State)
    requires Inv(s) && Enabled(s, Record)
    ensures s.reader.req.target !in s.records
    ensures Inv(DoRecord(s))
  {
    RecordTables(s);
    var t := DoRecord(s);
    var n := s.reader.req.target;
    AnswersFrame(s, t, -1);
    UsedIsRecorded(s);
    assert n !in Used(s);
    HoldingMoves(s, t, -1);
    forall m ensures m in Unused(t) <==> m in Unused(s) + {n} {
      assert m in Unused(t) <==> m in t.records && !HasUsed(t, m);
      assert m in Unused(s) <==> m in s.records && !HasUsed(s, m);
    }
    assert Unused(t) == Unused(s) + {n};
  }

  lemma WriteOkKeeps(s: State, n: int)
    requires Inv(s) && Enabled(s, WriteOk(n))
    ensures Inv(DoWriteOk(s, n))
  {
    var injected := s.calls[n].injected;
    var t := Write(s, Packet(n, injected), true);
    FrameKeeps(s, t);
    MoveKeeps(t, n, if injected then Returned(true, Injected, true) else Waiting);
  }

  lemma WriteFailKeeps(s: State, n: int, delivered: bool)
    requires Inv(s) && Enabled(s, WriteFail(n, delivered))
    ensures Inv(DoWriteFail(s, n, delivered))
  {
    var injected := s.calls[n].injected;
    var t := Write(s, Packet(n, injected), delivered);
    FrameKeeps(s, t);
    MoveKeeps(t, n, Returned(injected, WriteFailed, s.defaultAllow));
  }

  lemma SeeEndKeeps(s: State, n: int)
    requires Inv(s) && Enabled(s, SeeEnd(n))
    ensures Inv(DoSeeEnd(s, n))
  {
    MoveKeeps(s, n, Returned(false, SocketEnded, s.defaultAllow));
  }

  lemma ExpireKeeps(s: State, n: int, delivered: bool)
    requires Inv(s) && Enabled(s, Expire(n, delivered))
    ensures Inv(DoExpire(s, n, delivered))
  {
    var t := Write(s, Error(STATUS_TIMEOUT), delivered);
    FrameKeeps(s, t);
    MoveKeeps(t, n, Returned(false, TimedOut, s.defaultAllow));
  }

  /** Steps of the reader, the client and the socket that touch no table. */
  predicate OffTable(a: Action) { a.End? || a.ClientSend? || a.Receive? || a.TestFound? || a.TestWait? }

  ghost predicate TablesUntouched(s: State, t: State) {
    && t == s.(written := t.written, inbox := t.inbox, ended := t.ended, reader := t.reader)
    && ExtendsByError(s.written, t.written) && (s.ended ==> t.ended)
  }

  lemma OffTableFrame(s: State, a: Action)
    requires Enabled(s, a) && OffTable(a)
    ensures TablesUntouched(s, Apply(s, a))
  {
  }

  lemma ReaderKeeps(s: State, a: Action)
    requires Inv(s) && Enabled(s, a) && OffTable(a)
    ensures Inv(Apply(s, a))
  {
    OffTableFrame(s, a);
    FrameKeeps(s, Apply(s, a));
  }

  lemma ActionKeeps(s: State, a: Action)
    requires Inv(s) && Enabled(s, a)
    ensures Inv(Apply(s, a))
  {
    match a
    case TakeNumber(injected) => TakeNumberKeeps(s, injected);
    case Announce(n) => AnnounceKeeps(s, n);
    case Wake(n) => WakeKeeps(s, n);
    case Look(n) => LookKeeps(s, n);
    case Record => RecordKeeps(s);
    case WriteOk(n) => WriteOkKeeps(s, n);
    case WriteFail(n, delivered) => WriteFailKeeps(s, n, delivered);
    case SeeEnd(n) => SeeEndKeeps(s, n);
    case Expire(n, delivered) => ExpireKeeps(s, n, delivered);
    case _ => ReaderKeeps(s, a);
  }

  lemma StepPreserves(s: State, s': State)
    requires Inv(s) && Next(s, s')
    ensures Inv(s')
  {
    var a :| Enabled(s, a) && s' == Apply(s, a);
    ActionKeeps(s, a);
  }
}
