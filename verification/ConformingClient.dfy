/** The handshake seen by a client that replies at most once per packet it reads,
    as the EzProxyWs._listen loop does. */
module ConformingClient {
  import opened Base
  import opened Runs
  import opened FilterProtocol
  import opened FilterTheorems

  // --------------------------------------------- frames written to any client

  /** The call has reached the WebSocket write of its packet. */
  predicate PastWrite(c: Call) { c.Waiting? || c.Woken? || c.Returned? }

  ghost predicate FrameOk(s: State, f: Frame) {
    f.Packet? ==> f.num in s.calls && PastWrite(s.calls[f.num]) && IsInjected(s.calls[f.num]) == f.injected
  }

  /** Frames carry true flags, and no number is written twice. */
  ghost predicate FramesInv(s: State) {
    && (forall i :: 0 <= i < |s.written| ==> FrameOk(s, s.written[i]))
    && (forall i, j :: 0 <= i < j < |s.written| && s.written[i].Packet? && s.written[j].Packet? ==>
          s.written[i].num != s.written[j].num)
  }

  lemma CallMovedFrames(s: State, t: State, n: int)
    requires FramesInv(s) && CallMoved(s, t, n)
    requires ExtendsByError(s.written, t.written)
    requires PastWrite(s.calls[n]) ==> PastWrite(t.calls[n])
    ensures FramesInv(t)
  {
    forall i | 0 <= i < |s.written| ensures FrameOk(t, s.written[i]) {
      assert FrameOk(s, s.written[i]);
    }
  }

  lemma WrittenFrames(s: State, t: State, n: int)
    requires FramesInv(s) && CallMoved(s, t, n)
    requires !PastWrite(s.calls[n]) && PastWrite(t.calls[n])
    requires t.written == s.written || t.written == s.written + [Packet(n, IsInjected(s.calls[n]))]
    ensures FramesInv(t)
  {
    forall i | 0 <= i < |s.written| ensures FrameOk(t, s.written[i]) {
      assert FrameOk(s, s.written[i]);
    }
    forall i | 0 <= i < |s.written| && s.written[i].Packet? ensures s.written[i].num != n {
      assert FrameOk(s, s.written[i]);
    }
  }

  lemma EarlyCallFrames(s: State, t: State)
    requires FramesInv(s) && t.written == s.written
    requires forall n :: n in s.calls && PastWrite(s.calls[n]) ==> n in t.calls && t.calls[n] == s.calls[n]
    ensures FramesInv(t)
  {
    forall i | 0 <= i < |s.written| ensures FrameOk(t, s.written[i]) {
      assert FrameOk(s, s.written[i]);
    }
  }

  lemma OffTableFrames(s: State, t: State)
    requires FramesInv(s) && TablesUntouched(s, t)
    ensures FramesInv(t)
  {
    forall i | 0 <= i < |s.written| ensures FrameOk(t, s.written[i]) {
      assert FrameOk(s, s.written[i]);
    }
  }

  lemma WriteFrames(s: State, a: Action)
    requires FramesInv(s) && Enabled(s, a) && (a.WriteOk? || a.WriteFail?)
    ensures FramesInv(Apply(s, a))
  {
    match a
    case WriteOk(n) => WrittenFrames(s, DoWriteOk(s, n), n);
    case WriteFail(n, delivered) => WrittenFrames(s, DoWriteFail(s, n, delivered), n);
  }

  lemma ExpireFrames(s: State, n: int, delivered: bool)
    requires FramesInv(s) && Enabled(s, Expire(n, delivered))
    ensures FramesInv(DoExpire(s, n, delivered))
  {
    CallMovedFrames(s, DoExpire(s, n, delivered), n);
  }

  lemma WaiterFrames(s: State, a: Action)
    requires FramesInv(s) && Enabled(s, a) && (a.SeeEnd? || a.Wake? || a.Look?)
    ensures FramesInv(Apply(s, a))
  {
    match a
    case SeeEnd(n) => CallMovedFrames(s, DoSeeEnd(s, n), n);
    case Wake(n) => CallMovedFrames(s, DoWake(s, n), n);
    case Look(n) => CallMovedFrames(s, DoLook(s, n), n);
  }

  lemma EarlyFrames(s: State, a: Action)
    requires NumbersInv(s) && FramesInv(s) && Enabled(s, a) && (a.TakeNumber? || a.Announce?)
    ensures FramesInv(Apply(s, a))
  {
    EarlyCallFrames(s, Apply(s, a));
  }

  lemma ActionFrames(s: State, a: Action)
    requires NumbersInv(s) && FramesInv(s) && Enabled(s, a)
    ensures FramesInv(Apply(s, a))
  {
    match a
    case WriteOk(_) => WriteFrames(s, a);
    case WriteFail(_, _) => WriteFrames(s, a);
    case Expire(n, delivered) => ExpireFrames(s, n, delivered);
    case SeeEnd(_) => WaiterFrames(s, a);
    case Wake(_) => WaiterFrames(s, a);
    case Look(_) => WaiterFrames(s, a);
    case TakeNumber(_) => EarlyFrames(s, a);
    case Announce(_) => EarlyFrames(s, a);
    case Record => EarlyCallFrames(s, DoRecord(s));
    case _ => OffTableFrame(s, a); OffTableFrames(s, Apply(s, a));
  }

  ghost predicate FullInv(s: State) { Inv(s) && FramesInv(s) }

  lemma FullInvIsInductive()
    ensures Inductive(Init, Next, FullInv)
  {
    forall s | Init(s) ensures FullInv(s) { InitEstablishes(s); }
    forall s, s' | FullInv(s) && Next(s, s') ensures FullInv(s') {
      var a :| Enabled(s, a) && s' == Apply(s, a);
      ActionKeeps(s, a);
      ActionFrames(s, a);
    }
  }

  /** Announce before answer: by the time a filterable packet has been written,
      its number is a key of filterMap; and no number is written twice. */
  lemma AnnouncedBeforeWritten(run: seq<State>, i: nat, k: nat)
    requires FilterRun(run) && i < |run|
    requires k < |run[i].written| && run[i].written[k].Packet?
    ensures run[i].written[k].num in run[i].filterMap <==> !run[i].written[k].injected
    ensures forall j | 0 <= j < |run[i].written| && j != k && run[i].written[j].Packet? ::
              run[i].written[j].num != run[i].written[k].num
  {
    FullInvIsInductive();
    InvariantHolds(Init, Next, FullInv, run, i);
    assert FrameOk(run[i], run[i].written[k]);
  }

  // ------------------------------------------------------- the client's loop

  /** `callback` says whether the client has a callback; `cursor` frames have been read;
      an error other than 408 stops the client. */
  datatype System = System(net: State, callback: bool, cursor: nat, halted: bool)

  ghost predicate SystemInit(y: System) {
    Init(y.net) && y.cursor == 0 && !y.halted
  }

  ghost predicate ServerStep(y: System, y': System, a: Action) {
    && !a.ClientSend?
    && Enabled(y.net, a)
    && y' == y.(net := Apply(y.net, a))
  }

  /** One turn of _listen: `reply` is the callback's answer, if there is a callback. */
  ghost predicate ClientStep(y: System, y': System, reply: Option<bool>) {
    && !y.halted
    && y.cursor < |y.net.written| && reply.Some? == y.callback
    && match y.net.written[y.cursor]
       case Packet(n, injected) =>
         if reply.Some? && !injected then
           y' == y.(cursor := y.cursor + 1, net := Apply(y.net, ClientSend(Request(n, reply.value))))
         else y' == y.(cursor := y.cursor + 1)
       case Error(status) => y' == y.(cursor := y.cursor + 1, halted := status != STATUS_TIMEOUT)
  }

  ghost predicate SystemNext(y: System, y': System) {
    || (exists a :: ServerStep(y, y', a))
    || (exists reply :: ClientStep(y, y', reply))
  }

  function Current(r: Reader): seq<int> {
    match r
    case Received(req) => [req.target]
    case Found(req) => [req.target]
    case Cleared(req) => [req.target]
    case _ => []
  }

  function Targets(inbox: seq<Request>): seq<int> {
    seq(|inbox|, i requires 0 <= i < |inbox| => inbox[i].target)
  }

  /** Replies on their way, oldest first. */
  function Pending(s: State): seq<int> { Current(s.reader) + Targets(s.inbox) }

  ghost predicate Seen(y: System, n: int)
    requires y.cursor <= |y.net.written|
  {
    exists i :: 0 <= i < y.cursor && y.net.written[i] == Packet(n, false)
  }

  /** Every reply names a different packet the client has read, still Wait. */
  ghost predicate RepliesInv(y: System) {
    && y.cursor <= |y.net.written|
    && (forall k :: 0 <= k < |Pending(y.net)| ==>
          && Pending(y.net)[k] in y.net.filterMap && Pending(y.net)[k] !in y.net.records
          && Seen(y, Pending(y.net)[k]))
    && (forall k, l :: 0 <= k < l < |Pending(y.net)| ==> Pending(y.net)[k] != Pending(y.net)[l])
    && (forall n :: n in y.net.records ==> Seen(y, n))
  }

  /** A reply to packet `n` is on its way or has been recorded. */
  ghost predicate Answered(y: System, n: int) { n in Pending(y.net) || n in y.net.records }

  /** A client with a callback answers every packet it has read that is not injected. */
  ghost predicate AnswersAll(y: System)
    requires y.cursor <= |y.net.written|
  {
    y.callback ==> forall n :: Seen(y, n) ==> Answered(y, n)
  }

  ghost predicate OnlyTimeouts(s: State) {
    forall i :: 0 <= i < |s.written| && s.written[i].Error? ==> s.written[i].status == STATUS_TIMEOUT
  }

  ghost predicate SystemInv(y: System) {
    FullInv(y.net) && RepliesInv(y) && AnswersAll(y) && OnlyTimeouts(y.net) && !y.halted
  }

  /** The server moved without reading, storing or dropping a reply. */
  lemma QuietKeeps(y: System, t: State)
    requires RepliesInv(y) && OnlyTimeouts(y.net)
    requires Pending(t) == Pending(y.net) && t.records == y.net.records
    requires forall n :: n in y.net.filterMap ==> n in t.filterMap
    requires Extends(y.net.written, t.written)
    requires |t.written| > |y.net.written| && t.written[|y.net.written|].Error? ==>
               t.written[|y.net.written|].status == STATUS_TIMEOUT
    ensures RepliesInv(y.(net := t)) && OnlyTimeouts(t)
  {
    var y' := y.(net := t);
    forall n | Seen(y, n) ensures Seen(y', n) {
      var i :| 0 <= i < y.cursor && y.net.written[i] == Packet(n, false);
      assert t.written[i] == Packet(n, false);
    }
  }

  lemma QuietAnswers(y: System, t: State)
    requires y.cursor <= |y.net.written| && AnswersAll(y) && y.net.written <= t.written
    requires forall n :: Answered(y, n) ==> Answered(y.(net := t), n)
    ensures AnswersAll(y.(net := t))
  {
    var y' := y.(net := t);
    forall n | Seen(y', n) ensures Seen(y, n) {
      var i :| 0 <= i < y'.cursor && t.written[i] == Packet(n, false);
      assert y.net.written[i] == Packet(n, false);
    }
  }

  /** No step of the server loses a reply. */
  lemma ServerAnswers(y: System, a: Action)
    requires RecordsInv(y.net) && RepliesInv(y) && AnswersAll(y) && Enabled(y.net, a) && !a.ClientSend?
    ensures AnswersAll(y.(net := Apply(y.net, a)))
  {
    PendingMoves(y, a);
    QuietAnswers(y, Apply(y.net, a));
  }

  lemma PendingMoves(y: System, a: Action)
    requires RecordsInv(y.net) && RepliesInv(y) && Enabled(y.net, a) && !a.ClientSend?
    ensures y.net.written <= Apply(y.net, a).written
    ensures forall n :: Answered(y, n) ==> Answered(y.(net := Apply(y.net, a)), n)
  {
    if a.Record? { PendingStored(y.net); } else { PendingStays(y, a); }
  }

  lemma PendingStored(s: State)
    requires Enabled(s, Record)
    ensures Pending(s) == [s.reader.req.target] + Pending(DoRecord(s))
  {
  }

  lemma PendingStays(y: System, a: Action)
    requires RecordsInv(y.net) && RepliesInv(y) && Enabled(y.net, a) && !a.ClientSend? && !a.Record?
    ensures Pending(Apply(y.net, a)) == Pending(y.net) && Apply(y.net, a).records == y.net.records
  {
    if a.TestFound? || a.TestWait? { assert Pending(y.net)[0] == y.net.reader.req.target; }
  }

  lemma StoreKeeps(y: System)
    requires RepliesInv(y) && OnlyTimeouts(y.net) && Enabled(y.net, Record)
    ensures RepliesInv(y.(net := DoRecord(y.net))) && OnlyTimeouts(DoRecord(y.net))
  {
    var s, t := y.net, DoRecord(y.net);
    assert Pending(s)[0] == s.reader.req.target;
    assert forall k :: 0 <= k < |Pending(t)| ==> Pending(t)[k] == Pending(s)[k + 1];
    var y' := y.(net := t);
    forall n | Seen(y, n) ensures Seen(y', n) {
      var i :| 0 <= i < y.cursor && s.written[i] == Packet(n, false);
      assert t.written[i] == Packet(n, false);
    }
  }

  /** The target the reader holds was never refused: it is a key and still Wait. */
  lemma TestKeeps(y: System, a: Action)
    requires RecordsInv(y.net) && RepliesInv(y) && OnlyTimeouts(y.net)
    requires Enabled(y.net, a) && (a.TestFound? || a.TestWait? || a.Receive?)
    ensures RepliesInv(y.(net := Apply(y.net, a))) && OnlyTimeouts(Apply(y.net, a))
  {
    if !a.Receive? { assert Pending(y.net)[0] == y.net.reader.req.target; }
    assert Pending(Apply(y.net, a)) == Pending(y.net);
    QuietKeeps(y, Apply(y.net, a));
  }

  lemma WaiterKeeps(y: System, a: Action)
    requires RepliesInv(y) && OnlyTimeouts(y.net)
    requires Enabled(y.net, a) && (a.SeeEnd? || a.Wake? || a.Look? || a.Announce? || a.TakeNumber? || a.End?)
    ensures RepliesInv(y.(net := Apply(y.net, a))) && OnlyTimeouts(Apply(y.net, a))
  {
    QuietKeeps(y, Apply(y.net, a));
  }

  lemma WriterKeeps(y: System, a: Action)
    requires RepliesInv(y) && OnlyTimeouts(y.net)
    requires Enabled(y.net, a) && (a.WriteOk? || a.WriteFail? || a.Expire?)
    ensures RepliesInv(y.(net := Apply(y.net, a))) && OnlyTimeouts(Apply(y.net, a))
  {
    QuietKeeps(y, Apply(y.net, a));
  }

  lemma ServerKeeps(y: System, a: Action)
    requires SystemInv(y) && Enabled(y.net, a) && !a.ClientSend?
    ensures RepliesInv(y.(net := Apply(y.net, a))) && OnlyTimeouts(Apply(y.net, a))
  {
    if a.Record? { StoreKeeps(y); }
    else if a.TestFound? || a.TestWait? || a.Receive? { TestKeeps(y, a); }
    else if a.WriteOk? || a.WriteFail? || a.Expire? { WriterKeeps(y, a); }
    else { WaiterKeeps(y, a); }
  }

  lemma SkipKeeps(y: System)
    requires RepliesInv(y) && y.cursor < |y.net.written|
    ensures RepliesInv(y.(cursor := y.cursor + 1))
  {
    var y' := y.(cursor := y.cursor + 1);
    forall m | Seen(y, m) ensures Seen(y', m) {
    }
  }

  lemma SkipAnswers(y: System)
    requires AllRead(y) && AnswersAll(y) && y.cursor < |y.net.written|
    requires y.callback ==> !(y.net.written[y.cursor].Packet? && !y.net.written[y.cursor].injected)
    ensures AnswersAll(y.(cursor := y.cursor + 1))
  {
    var y' := y.(cursor := y.cursor + 1);
    forall n | y.callback && Seen(y', n) ensures Answered(y', n) {
      var i :| 0 <= i < y'.cursor && y.net.written[i] == Packet(n, false);
      assert i < y.cursor && Seen(y, n);
      assert Answered(y, n);
    }
  }

  ghost predicate AllRead(y: System) { y.cursor <= |y.net.written| }

  lemma ReplyAnswers(y: System, n: int, allow: bool)
    requires AllRead(y) && AnswersAll(y) && y.cursor < |y.net.written| && y.net.written[y.cursor] == Packet(n, false)
    ensures AnswersAll(y.(cursor := y.cursor + 1, net := Apply(y.net, ClientSend(Request(n, allow)))))
  {
    var t := y.net.(inbox := y.net.inbox + [Request(n, allow)]);
    var y' := y.(cursor := y.cursor + 1, net := t);
    assert Pending(t) == Pending(y.net) + [n];
    forall m | y.callback && Seen(y', m) ensures Answered(y', m) {
      var i :| 0 <= i < y'.cursor && t.written[i] == Packet(m, false);
      if i < y.cursor {
        assert y.net.written[i] == Packet(m, false) && Seen(y, m);
        assert Answered(y, m);
      }
    }
  }

  /** The packet under the cursor has not been answered yet. */
  lemma Unanswered(y: System, n: int)
    requires FramesInv(y.net) && y.cursor < |y.net.written| && y.net.written[y.cursor] == Packet(n, false)
    ensures !Seen(y, n)
  {
  }

  lemma ReplyKeeps(y: System, n: int, allow: bool)
    requires NumbersInv(y.net) && FramesInv(y.net) && RepliesInv(y)
    requires y.cursor < |y.net.written| && y.net.written[y.cursor] == Packet(n, false)
    ensures RepliesInv(y.(cursor := y.cursor + 1, net := Apply(y.net, ClientSend(Request(n, allow)))))
  {
    var t := y.net.(inbox := y.net.inbox + [Request(n, allow)]);
    var y' := y.(cursor := y.cursor + 1, net := t);
    assert FrameOk(y.net, y.net.written[y.cursor]);
    Unanswered(y, n);
    assert Pending(t) == Pending(y.net) + [n];
    forall m | Seen(y, m) ensures Seen(y', m) {
      var i :| 0 <= i < y.cursor && y.net.written[i] == Packet(m, false);
      assert t.written[i] == Packet(m, false);
    }
    assert t.written[y.cursor] == Packet(n, false);
  }

  lemma SystemStep(y: System, y': System)
    requires SystemInv(y) && SystemNext(y, y')
    ensures SystemInv(y')
  {
    if a :| ServerStep(y, y', a) {
      ActionKeeps(y.net, a);
      ActionFrames(y.net, a);
      ServerKeeps(y, a);
      ServerAnswers(y, a);
    } else {
      var reply :| ClientStep(y, y', reply);
      var f := y.net.written[y.cursor];
      if f.Packet? && reply.Some? && !f.injected {
        var n := f.num;
        ReplyKeeps(y, n, reply.value);
        ReplyAnswers(y, n, reply.value);
        ActionKeeps(y.net, ClientSend(Request(n, reply.value)));
        ActionFrames(y.net, ClientSend(Request(n, reply.value)));
      } else {
        SkipKeeps(y);
        SkipAnswers(y);
      }
    }
  }

  lemma AlwaysSystemInv(run: seq<System>, i: nat)
    requires IsRun(SystemInit, SystemNext, run) && i < |run|
    ensures SystemInv(run[i])
  {
    forall y | SystemInit(y) ensures SystemInv(y) { InitEstablishes(y.net); }
    forall y, y' | SystemInv(y) && SystemNext(y, y') ensures SystemInv(y') { SystemStep(y, y'); }
    InvariantHolds(SystemInit, SystemNext, SystemInv, run, i);
  }

  /** A conforming client is never told 404 or 410 and so never stops on an error. */
  lemma ClientNeverRefused(run: seq<System>, i: nat)
    requires IsRun(SystemInit, SystemNext, run) && i < |run|
    ensures OnlyTimeouts(run[i].net) && !run[i].halted
  {
    AlwaysSystemInv(run, i);
  }

  /** No packet is forgotten: of each packet that is not injected and that a client with
      a callback has read, the reply is on its way or recorded, once. */
  lemma EveryPacketAnswered(run: seq<System>, i: nat, k: nat)
    requires IsRun(SystemInit, SystemNext, run) && i < |run|
    requires run[i].callback && k < run[i].cursor
    ensures k < |run[i].net.written|
    ensures var f := run[i].net.written[k];
            f.Packet? && !f.injected ==> f.num in run[i].net.records || f.num in Pending(run[i].net)
    ensures forall a, b :: 0 <= a < b < |Pending(run[i].net)| ==> Pending(run[i].net)[a] != Pending(run[i].net)[b]
    ensures forall n :: n in Pending(run[i].net) ==> n !in run[i].net.records
  {
    var y := run[i];
    AlwaysSystemInv(run, i);
    var f := y.net.written[k];
    if f.Packet? && !f.injected {
      assert Seen(y, f.num);
      assert Answered(y, f.num);
    }
    forall n | n in Pending(y.net) ensures n !in y.net.records {
      var a :| 0 <= a < |Pending(y.net)| && Pending(y.net)[a] == n;
    }
  }
}
