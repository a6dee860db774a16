/** The wsApi object: the code of sendPkt, handleRecvFilter, handleSend and the
    wsReqFilter branch of handleClientAction, run against the handshake's steps.

    The fields the code does not own (where the other calls, the reader and the
    client stand) are kept beside it, so that View() is a whole handshake state. */
module WebSocket {
  import opened Base
  import opened FilterProtocol

  const STATUS_FORBIDDEN := 403

  /** What happens next at the select, in the order it happens. Events that cannot
      happen in the state they find are passed over. */
  datatype Event =
    | Elsewhere(action: Action)   // another goroutine takes a step
    | Done                        // <-w.ctx.Done()
    | Timer(delivered: bool)      // <-timer.C, and whether the 408 frame got out
    | Token                       // <-w.filterChan

  /** Applying `acts` one after the other, each of them possible when its turn comes. */
  ghost predicate Leads(s: State, acts: seq<Action>, t: State)
    decreases |acts|
  {
    if acts == [] then t == s
    else Enabled(s, acts[0]) && Leads(Apply(s, acts[0]), acts[1..], t)
  }

  lemma {:induction false} LeadsAppend(s: State, acts: seq<Action>, t: State, a: Action)
    requires Leads(s, acts, t) && Enabled(t, a)
    ensures Leads(s, acts + [a], Apply(t, a))
    decreases |acts|
  {
    if acts == [] {
      assert [a][1..] == [];
    } else {
      LeadsAppend(Apply(s, acts[0]), acts[1..], t, a);
      assert (acts + [a])[1..] == acts[1..] + [a];
    }
  }

  lemma {:induction false} LeadsConcat(s: State, acts: seq<Action>, t: State, more: seq<Action>, u: State)
    requires Leads(s, acts, t) && Leads(t, more, u)
    ensures Leads(s, acts + more, u)
    decreases |acts|
  {
    if acts == [] {
      assert acts + more == more;
    } else {
      LeadsConcat(Apply(s, acts[0]), acts[1..], t, more, u);
      assert (acts + more)[1..] == acts[1..] + more;
    }
  }

  lemma LeadsOne(s: State, a: Action)
    requires Enabled(s, a)
    ensures Leads(s, [a], Apply(s, a))
  {
    LeadsAppend(s, [], s, a);
    assert [] + [a] == [a];
  }

  lemma {:induction false} LeadsKeepsInv(s: State, acts: seq<Action>, t: State)
    requires Leads(s, acts, t) && Inv(s)
    ensures Inv(t)
    decreases |acts|
  {
    if acts != [] {
      ActionKeeps(s, acts[0]);
      LeadsKeepsInv(Apply(s, acts[0]), acts[1..], t);
    }
  }

  /** The call this action moves, if it moves one. */
  function CallOf(a: Action): Option<int> {
    match a
    case Announce(n) => Some(n)
    case WriteOk(n) => Some(n)
    case WriteFail(n, _) => Some(n)
    case SeeEnd(n) => Some(n)
    case Expire(n, _) => Some(n)
    case Wake(n) => Some(n)
    case Look(n) => Some(n)
    case _ => None
  }

  lemma MoveLeavesCall(s: State, t: State, m: int, n: int)
    requires CallMoved(s, t, m) && m != n && n in s.calls
    ensures n in t.calls && t.calls[n] == s.calls[n]
  {
  }

  lemma ElsewhereLeavesCall(s: State, a: Action, n: int)
    requires NumbersInv(s) && Enabled(s, a) && CallOf(a) != Some(n)
    requires n in s.calls
    ensures n in Apply(s, a).calls && Apply(s, a).calls[n] == s.calls[n]
  {
    match a
    case WriteOk(m) => MoveLeavesCall(s, DoWriteOk(s, m), m, n);
    case WriteFail(m, delivered) => MoveLeavesCall(s, DoWriteFail(s, m, delivered), m, n);
    case SeeEnd(m) => MoveLeavesCall(s, DoSeeEnd(s, m), m, n);
    case Expire(m, delivered) => MoveLeavesCall(s, DoExpire(s, m, delivered), m, n);
    case Wake(m) => MoveLeavesCall(s, DoWake(s, m), m, n);
    case Look(m) => MoveLeavesCall(s, DoLook(s, m), m, n);
    case TakeNumber(_) =>
    case Announce(_) =>
    case Record =>
    case _ => OffTableFrame(s, a);
  }

  lemma DefaultFixed(s: State, a: Action)
    requires Enabled(s, a)
    ensures Apply(s, a).defaultAllow == s.defaultAllow
  {
  }

  /** sendPkt with addId, no one else running. */
  function Sent(s: State, injected: bool, ok: bool, delivered: bool): State {
    var t := DoAnnounce(DoTakeNumber(s, injected), s.pktId);
    if ok then DoWriteOk(t, s.pktId) else DoWriteFail(t, s.pktId, delivered)
  }

  lemma SentKeeps(s: State, injected: bool, ok: bool, delivered: bool)
    requires Inv(s)
    ensures s.pktId !in s.calls && s.pktId !in s.filterMap
    ensures Inv(Sent(s, injected, ok, delivered))
    ensures Sent(s, injected, ok, delivered).written ==
              if ok || delivered then s.written + [Packet(s.pktId, injected)] else s.written
    ensures s.pktId in Sent(s, injected, ok, delivered).calls
    ensures Sent(s, injected, ok, delivered).calls[s.pktId] ==
              if !ok then Returned(injected, WriteFailed, s.defaultAllow)
              else if injected then Returned(true, Injected, true)
              else Waiting
  {
    TakeNumberKeeps(s, injected);
    var t := DoTakeNumber(s, injected);
    AnnounceKeeps(t, s.pktId);
    var u := DoAnnounce(t, s.pktId);
    if ok { WriteOkKeeps(u, s.pktId); } else { WriteFailKeeps(u, s.pktId, delivered); }
  }

  // ------------------------------------------------------------- the select

  /** What the waiting call of packet `num` must answer to an event, None if the event
      does not end it. A token ends it exactly if a verdict on its own packet was
      recorded, and then with that verdict. */
  function Outcome(s: State, num: int, event: Event): Option<bool> {
    match event
    case Elsewhere(_) => None
    case Done => if s.ended then Some(s.defaultAllow) else None
    case Timer(_) => Some(s.defaultAllow)
    case Token => if s.reader.Signalling? && num in s.records then Some(s.records[num]) else None
  }

  /** What an event that ends the call leaves behind. */
  function Left(s: State, num: int, event: Event, answer: bool): State {
    var why := match event case Done => SocketEnded case Timer(_) => TimedOut case _ => Decided;
    s.(calls := s.calls[num := Returned(false, why, answer)],
       reader := if event.Token? then Idle else s.reader,
       written := if event.Timer? && event.delivered then s.written + [Error(STATUS_TIMEOUT)] else s.written)
  }

  /** What an event that does not end the call leaves behind. */
  function Passed(s: State, num: int, event: Event): State {
    match event
    case Elsewhere(a) => if Enabled(s, a) && CallOf(a) != Some(num) then Apply(s, a) else s
    case Token => if s.reader.Signalling? then s.(reader := Idle, spurious := s.spurious + 1) else s
    case _ => s
  }

  /** The state after `k` events that did not end the call. */
  function Reached(s: State, num: int, events: seq<Event>, k: nat): State
    requires k <= |events|
  {
    if k == 0 then s else Passed(Reached(s, num, events, k - 1), num, events[k - 1])
  }

  /** None of the first `k` events ends the call. */
  ghost predicate Silent(s: State, num: int, events: seq<Event>, k: nat)
    requires k <= |events|
  {
    forall j :: 0 <= j < k ==> Outcome(Reached(s, num, events, j), num, events[j]).None?
  }

  /** Event `k` is the first to end the call, with `answer`. */
  ghost predicate EndsAt(s: State, num: int, events: seq<Event>, k: nat, answer: Option<bool>) {
    && k < |events| && Silent(s, num, events, k)
    && answer.Some? && Outcome(Reached(s, num, events, k), num, events[k]) == answer
  }

  /** The answer is that of the first event that can end the call; there is none
      exactly if no event can. */
  ghost predicate FirstAnswer(s: State, num: int, events: seq<Event>, answer: Option<bool>) {
    if answer.None? then Silent(s, num, events, |events|) else exists k: nat :: EndsAt(s, num, events, k, answer)
  }

  /** The events one after the other, until one ends the call. */
  function AnswerFrom(s: State, num: int, events: seq<Event>): Option<bool>
    decreases |events|
  {
    if events == [] then None
    else
      var answer := Outcome(s, num, events[0]);
      if answer.Some? then answer else AnswerFrom(Passed(s, num, events[0]), num, events[1..])
  }

  lemma {:induction false} ReachedLater(s: State, num: int, events: seq<Event>, k: nat)
    requires k < |events|
    ensures Reached(s, num, events, k + 1) == Reached(Passed(s, num, events[0]), num, events[1..], k)
  {
    if k > 0 { ReachedLater(s, num, events, k - 1); }
  }

  lemma {:induction false} AnswerIsFirst(s: State, num: int, events: seq<Event>)
    ensures FirstAnswer(s, num, events, AnswerFrom(s, num, events))
    decreases |events|
  {
    var answer := AnswerFrom(s, num, events);
    if events != [] {
      var t, rest := Passed(s, num, events[0]), events[1..];
      if Outcome(s, num, events[0]).Some? {
        assert EndsAt(s, num, events, 0, answer);
      } else {
        AnswerIsFirst(t, num, rest);
        forall j | 0 <= j < |rest| ensures Reached(s, num, events, j + 1) == Reached(t, num, rest, j) {
          ReachedLater(s, num, events, j);
        }
        if answer.Some? {
          var k: nat :| EndsAt(t, num, rest, k, answer);
          SilentLonger(s, num, events, k);
          assert EndsAt(s, num, events, k + 1, answer);
        } else {
          SilentLonger(s, num, events, |rest|);
        }
      }
    }
  }

  lemma SilentLonger(s: State, num: int, events: seq<Event>, k: nat)
    requires k < |events| && Outcome(s, num, events[0]).None?
    requires Silent(Passed(s, num, events[0]), num, events[1..], k)
    ensures Silent(s, num, events, k + 1)
  {
    forall j | 0 <= j < k + 1 ensures Outcome(Reached(s, num, events, j), num, events[j]).None? {
      if j > 0 { ReachedLater(s, num, events, j - 1); }
    }
  }

  /** The rendezvous and the look-up together. */
  lemma TokenTaken(s: State, num: int)
    requires RecordsInv(s) && Enabled(s, Wake(num))
    ensures DoLook(DoWake(s, num), num) ==
            var answer := Outcome(s, num, Token);
            if answer.Some? then Left(s, num, Token, answer.value) else Passed(s, num, Token)
  {
    assert s.calls[num := Woken][num := Waiting] == s.calls;
  }

  class WsApi {
    const canFilter: bool
    const defaultAllow: bool
    const networkFilter: string
    var pktId: int
    var filterMap: map<int, Verdict>
    // where the rest of the system stands
    var calls: map<int, Call>
    var reader: Reader
    var inbox: seq<Request>
    var written: seq<Frame>
    var ended: bool
    var records: map<int, bool>
    var spurious: nat

    function View(): State
      reads this
    {
      State(defaultAllow, pktId, filterMap, calls, reader, inbox, written, ended, records, spurious)
    }

    constructor (canFilter: bool, defaultAllow: bool, networkFilter: string)
      ensures Init(View()) && Inv(View())
      ensures this.canFilter == canFilter && this.defaultAllow == defaultAllow
      ensures this.networkFilter == networkFilter
    {
      this.canFilter, this.defaultAllow, this.networkFilter := canFilter, defaultAllow, networkFilter;
      pktId, filterMap, calls, reader := 0, map[], map[], Idle;
      inbox, written, ended, records, spurious := [], [], false, map[], 0;
      new;
      InitEstablishes(View());
    }

    predicate MatchesNetworkFilter(network: string): (matches: bool)
      ensures !matches <==> networkFilter != "" && networkFilter != network
    {
      if networkFilter == "" then true else networkFilter == network
    }

    /** Another goroutine has run. */
    method Adopt(t: State)
      requires t.defaultAllow == defaultAllow
      modifies this
      ensures View() == t
    {
      pktId, filterMap, calls, reader := t.pktId, t.filterMap, t.calls, t.reader;
      inbox, written, ended, records, spurious := t.inbox, t.written, t.ended, t.records, t.spurious;
    }

    /** The pktIdLock region of sendPkt. */
    method TakeNumber(injected: bool) returns (num: int)
      modifies this
      ensures num == old(pktId) && pktId == num + 1
      ensures View() == DoTakeNumber(old(View()), injected)
    {
      num := pktId;
      pktId := pktId + 1;
      calls := calls[num := Numbered(injected)];
    }

    /** The filterMap insertion of sendPkt; injected packets are not filtered. */
    method Announce(num: int, injected: bool)
      requires num in calls && calls[num] == Numbered(injected)
      modifies this
      ensures View() == DoAnnounce(old(View()), num)
      ensures filterMap == if injected then old(filterMap) else old(filterMap)[num := Wait]
    {
      if !injected {
        filterMap := filterMap[num := Wait];
      }
      calls := calls[num := Announced(injected)];
    }

    /** w.ws.Write inside sendPkt. */
    method WritePacket(num: int, injected: bool, ok: bool, delivered: bool)
      requires num in calls && calls[num] == Announced(injected)
      modifies this
      ensures View() == if ok then DoWriteOk(old(View()), num) else DoWriteFail(old(View()), num, delivered)
      ensures written == if ok || delivered then old(written) + [Packet(num, injected)] else old(written)
    {
      if ok || delivered {
        written := written + [Packet(num, injected)];
      }
      calls := calls[num := if !ok then Returned(injected, WriteFailed, defaultAllow)
                            else if injected then Returned(true, Injected, true)
                            else Waiting];
    }

    /** sendPkt with addId, on a filtering socket, no one else running. */
    method SendPkt(injected: bool, ok: bool, delivered: bool) returns (num: int)
      modifies this
      ensures num == old(pktId)
      ensures View() == Sent(old(View()), injected, ok, delivered)
      ensures written == if ok || delivered then old(written) + [Packet(num, injected)] else old(written)
    {
      num := TakeNumber(injected);
      Announce(num, injected);
      WritePacket(num, injected, ok, delivered);
    }

    /** The switch on filterMap[pkt.PktNum] after a token was taken. */
    method Look(num: int) returns (decided: Option<bool>)
      requires num in calls && calls[num].Woken?
      modifies this
      ensures View() == DoLook(old(View()), num)
      ensures decided.Some? <==> num in old(filterMap) && old(filterMap)[num] != Wait
      ensures calls[num] == if decided.Some? then Returned(false, Decided, decided.value) else Waiting
    {
      var v := Lookup(filterMap, num);
      if v == Allow {
        decided := Some(true);
      } else if v == Drop {
        decided := Some(false);
      } else {
        decided := None;
        spurious := spurious + 1;
      }
      calls := calls[num := if decided.Some? then Returned(false, Decided, decided.value) else Waiting];
    }

    /** Another goroutine takes a step, if it can. */
    method Interleave(num: int, a: Action) returns (ghost acts: seq<Action>)
      requires Inv(View()) && num in calls && calls[num].Waiting?
      modifies this
      ensures Leads(old(View()), acts, View())
      ensures View() == Passed(old(View()), num, Elsewhere(a))
      ensures num in calls && calls[num].Waiting?
    {
      acts := [];
      if Enabled(View(), a) && CallOf(a) != Some(num) {
        DefaultFixed(View(), a);
        ElsewhereLeavesCall(View(), a, num);
        LeadsOne(View(), a);
        Adopt(Apply(View(), a));
        acts := [a];
      }
    }

    /** The <-w.ctx.Done() case. */
    method SocketDone(num: int) returns (shouldSend: bool)
      requires num in calls && calls[num].Waiting? && ended
      modifies this
      ensures shouldSend == defaultAllow && Leads(old(View()), [SeeEnd(num)], View())
      ensures View() == Left(old(View()), num, Done, shouldSend)
    {
      LeadsOne(View(), SeeEnd(num));
      shouldSend := defaultAllow;
      calls := calls[num := Returned(false, SocketEnded, shouldSend)];
    }

    /** The <-timer.C case. */
    method TimerFired(num: int, delivered: bool) returns (shouldSend: bool)
      requires num in calls && calls[num].Waiting?
      modifies this
      ensures shouldSend == defaultAllow && Leads(old(View()), [Expire(num, delivered)], View())
      ensures View() == Left(old(View()), num, Timer(delivered), shouldSend)
    {
      LeadsOne(View(), Expire(num, delivered));
      if delivered { written := written + [Error(STATUS_TIMEOUT)]; }
      shouldSend := defaultAllow;
      calls := calls[num := Returned(false, TimedOut, shouldSend)];
    }

    /** The <-w.filterChan case. */
    method TakeToken(num: int) returns (shouldSend: Option<bool>)
      requires RecordsInv(View()) && num in calls && calls[num].Waiting? && reader.Signalling?
      modifies this
      ensures Leads(old(View()), [Wake(num), Action.Look(num)], View())
      ensures shouldSend == Outcome(old(View()), num, Token)
      ensures View() == if shouldSend.Some? then Left(old(View()), num, Token, shouldSend.value)
                        else Passed(old(View()), num, Token)
    {
      LeadsOne(View(), Wake(num));
      LeadsAppend(View(), [Wake(num)], DoWake(View(), num), Action.Look(num));
      TokenTaken(View(), num);
      reader := Idle;
      calls := calls[num := Woken];
      shouldSend := Look(num);
    }

    /** One turn of the select in handleRecvFilter. */
    method Select(num: int, event: Event) returns (shouldSend: Option<bool>, ghost acts: seq<Action>)
      requires Inv(View()) && num in calls && calls[num].Waiting?
      modifies this
      ensures Leads(old(View()), acts, View())
      ensures shouldSend == Outcome(old(View()), num, event)
      ensures View() == if shouldSend.Some? then Left(old(View()), num, event, shouldSend.value)
                        else Passed(old(View()), num, event)
      ensures num in calls && (shouldSend.None? ==> calls[num].Waiting?)
    {
      shouldSend, acts := None, [];
      match event {
        case Elsewhere(a) =>
          acts := Interleave(num, a);
        case Done =>
          if ended {
            var result := SocketDone(num);
            shouldSend, acts := Some(result), [SeeEnd(num)];
          }
        case Timer(delivered) =>
          var result := TimerFired(num, delivered);
          shouldSend, acts := Some(result), [Expire(num, delivered)];
        case Token =>
          if reader.Signalling? {
            shouldSend := TakeToken(num);
            acts := [Wake(num), Action.Look(num)];
          }
      }
    }

    /** The wait loop of handleRecvFilter. The result is None when the events end
        with the call still waiting. */
    method AwaitVerdict(num: int, events: seq<Event>) returns (shouldSend: Option<bool>, ghost acts: seq<Action>)
      requires Inv(View()) && num in calls && calls[num].Waiting?
      modifies this
      ensures Inv(View()) && Leads(old(View()), acts, View())
      ensures num in calls
      ensures shouldSend.None? ==> calls[num].Waiting?
      ensures shouldSend.Some? ==>
                calls[num].Returned? && calls[num].result == shouldSend.value && AnswerOk(View(), num)
      ensures shouldSend.Some? && shouldSend.value != defaultAllow ==>
                num in records && records[num] == shouldSend.value
      ensures FirstAnswer(old(View()), num, events, shouldSend)
    {
      ghost var start := View();
      var i := 0;
      acts := [];
      shouldSend := None;
      while i < |events| && shouldSend.None?
        invariant 0 <= i <= |events|
        invariant Inv(View()) && Leads(start, acts, View())
        invariant num in calls
        invariant AnswerFrom(start, num, events) ==
                  if shouldSend.Some? then shouldSend else AnswerFrom(View(), num, events[i..])
        invariant shouldSend.None? ==> calls[num].Waiting?
        invariant shouldSend.Some? ==> calls[num].Returned? && !calls[num].injected
        invariant shouldSend.Some? ==> calls[num].result == shouldSend.value
      {
        ghost var before, turn := View(), [];
        shouldSend, turn := Select(num, events[i]);
        LeadsKeepsInv(before, turn, View());
        LeadsConcat(start, acts, before, turn, View());
        acts := acts + turn;
        i := i + 1;
      }
      if shouldSend.Some? { assert AnswerOk(View(), num); }
      AnswerIsFirst(start, num, events);
    }

    /** handleRecvFilter: None stands for a call that has not returned yet. */
    method HandleRecvFilter(injected: bool, network: string, ok: bool, delivered: bool, events: seq<Event>)
      returns (shouldSend: Option<bool>)
      requires Inv(View())
      modifies this
      ensures Inv(View())
      ensures !MatchesNetworkFilter(network) ==> shouldSend == Some(defaultAllow) && View() == old(View())
      ensures MatchesNetworkFilter(network) && !ok ==>
                shouldSend == Some(defaultAllow) && View() == Sent(old(View()), injected, ok, delivered)
      ensures MatchesNetworkFilter(network) && ok && injected ==>
                shouldSend == Some(true) && View() == Sent(old(View()), injected, ok, delivered)
      ensures MatchesNetworkFilter(network) && ok && !injected ==>
                && (exists acts :: Leads(Sent(old(View()), injected, ok, delivered), acts, View()))
                && old(pktId) in calls
                && (shouldSend.Some? ==>
                      && calls[old(pktId)].Returned? && calls[old(pktId)].result == shouldSend.value
                      && AnswerOk(View(), old(pktId)))
                && FirstAnswer(Sent(old(View()), injected, ok, delivered), old(pktId), events, shouldSend)
    {
      if !MatchesNetworkFilter(network) {
        return Some(defaultAllow);
      }
      SentKeeps(View(), injected, ok, delivered);
      var num := SendPkt(injected, ok, delivered);
      if !ok {
        return Some(defaultAllow);
      }
      if injected {
        return Some(true);
      }
      ghost var acts;
      shouldSend, acts := AwaitVerdict(num, events);
    }

    /** handleRecv: the copy carries no packet number. */
    method HandleRecv(injected: bool, network: string, ok: bool, delivered: bool)
      modifies this`written
      ensures written == if MatchesNetworkFilter(network) && (ok || delivered)
                         then old(written) + [Packet(-1, injected)] else old(written)
      // no reply can name the copy
      ensures NumbersInv(View()) ==>
                forall k | old(|written|) <= k < |written| :: written[k].Packet? && written[k].num !in filterMap
    {
      if MatchesNetworkFilter(network) && (ok || delivered) {
        written := written + [Packet(-1, injected)];
      }
    }

    /** handleSend: a socket without `filter` only copies the packet. */
    method HandleSend(injected: bool, network: string, ok: bool, delivered: bool, events: seq<Event>)
      returns (shouldSend: Option<bool>)
      requires Inv(View())
      modifies this
      ensures Inv(View())
      ensures !canFilter ==>
                && shouldSend == Some(true)
                && View() == old(View()).(written := if MatchesNetworkFilter(network) && (ok || delivered)
                                                     then old(written) + [Packet(-1, injected)] else old(written))
      ensures canFilter && MatchesNetworkFilter(network) && ok && injected ==> shouldSend == Some(true)
      ensures canFilter && (!MatchesNetworkFilter(network) || !ok) ==> shouldSend == Some(defaultAllow)
      ensures canFilter && MatchesNetworkFilter(network) && ok && !injected ==>
                FirstAnswer(Sent(old(View()), injected, ok, delivered), old(pktId), events, shouldSend)
    {
      if canFilter {
        shouldSend := HandleRecvFilter(injected, network, ok, delivered, events);
      } else {
        HandleRecv(injected, network, ok, delivered);
        shouldSend := Some(true);
      }
    }

    /** The wsReqFilter branch of handleClientAction, run by the reader goroutine
        with no one in between. `status` is the error sent, 0 if none. */
    method HandleFilterRequest(target: int, extra: bv64) returns (status: int)
      requires reader == Received(Request(target, extra & 1 != 0))
      modifies this
      ensures status == if !canFilter then STATUS_FORBIDDEN
                        else if target !in old(filterMap) then STATUS_NOT_FOUND
                        else if old(filterMap)[target] != Wait then STATUS_GONE
                        else 0
      ensures status == STATUS_NOT_FOUND ==> View() == DoTestFound(old(View()))
      ensures status == STATUS_GONE ==> View() == DoTestWait(DoTestFound(old(View())))
      ensures status == 0 ==> View() == DoRecord(DoTestWait(DoTestFound(old(View()))))
      ensures status != 0 ==>
                View() == old(View()).(reader := Idle, written := old(written) + [Error(status)])
      ensures status == 0 ==>
                View() == old(View()).(filterMap := old(filterMap)[target := if extra & 1 != 0 then Allow else Drop],
                                       records := old(records)[target := extra & 1 != 0],
                                       reader := Signalling(target))
    {
      if !canFilter {
        written := written + [Error(STATUS_FORBIDDEN)];
        reader := Idle;
        return STATUS_FORBIDDEN;
      }
      if target !in filterMap {
        written := written + [Error(STATUS_NOT_FOUND)];
        reader := Idle;
        return STATUS_NOT_FOUND;
      }
      if filterMap[target] != Wait {
        written := written + [Error(STATUS_GONE)];
        reader := Idle;
        return STATUS_GONE;
      }
      var flag := extra & 1;
      if flag == 0 {
        filterMap := filterMap[target := Drop];
      } else {
        filterMap := filterMap[target := Allow];
      }
      records := records[target := flag != 0];
      reader := Signalling(target);
      status := 0;
    }
  }
}
