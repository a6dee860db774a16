/** A run in which two verdicts go unused, one for each reason that
    FilterTheorems.TokenAccounting leaves: the counts there are not always 0. */
module FilterScenario {
  import opened FilterProtocol
  import opened WebSocket

  function Start(): State { State(true, 0, map[], map[], Idle, [], [], false, map[], 0) }

  /** A packet goes out to the client and its call waits. */
  lemma Send(s: State, acts: seq<Action>, t: State) returns (more: seq<Action>, u: State)
    requires Leads(s, acts, t) && t.pktId !in t.calls
    ensures Leads(s, more, u)
    ensures u == t.(pktId := t.pktId + 1, calls := t.calls[t.pktId := Waiting],
                    filterMap := t.filterMap[t.pktId := Wait], written := t.written + [Packet(t.pktId, false)])
  {
    var n := t.pktId;
    LeadsAppend(s, acts, t, TakeNumber(false));
    var a := DoTakeNumber(t, false);
    LeadsAppend(s, acts + [TakeNumber(false)], a, Announce(n));
    var b := DoAnnounce(a, n);
    more := acts + [TakeNumber(false)] + [Announce(n)] + [WriteOk(n)];
    LeadsAppend(s, acts + [TakeNumber(false)] + [Announce(n)], b, WriteOk(n));
    u := DoWriteOk(b, n);
    assert u.calls == t.calls[n := Waiting];
  }

  /** The client refuses packet `n`, and the reader stores that and blocks. */
  lemma Refuse(s: State, acts: seq<Action>, t: State, n: int) returns (more: seq<Action>, u: State)
    requires Leads(s, acts, t) && t.reader == Idle && t.inbox == []
    requires n in t.filterMap && t.filterMap[n] == Wait
    ensures Leads(s, more, u)
    ensures u == t.(filterMap := t.filterMap[n := Drop], records := t.records[n := false], reader := Signalling(n))
  {
    var req := Request(n, false);
    var a := t.(inbox := [req]);
    assert t.inbox + [req] == [req];
    LeadsAppend(s, acts, t, ClientSend(req));
    var sent := acts + [ClientSend(req)];
    LeadsAppend(s, sent, a, Receive);
    var b := DoReceive(a);
    LeadsAppend(s, sent + [Receive], b, TestFound);
    var c := DoTestFound(b);
    LeadsAppend(s, sent + [Receive] + [TestFound], c, TestWait);
    var d := DoTestWait(c);
    LeadsAppend(s, sent + [Receive] + [TestFound] + [TestWait], d, Record);
    more := sent + [Receive] + [TestFound] + [TestWait] + [Record];
    u := DoRecord(d);
  }

  /** Two packets wait; the client refuses the first, and its token goes to the second. */
  lemma TokenGoesAstray() returns (acts: seq<Action>, t: State)
    ensures Leads(Start(), acts, t)
    ensures t == State(true, 2, map[0 := Drop, 1 := Wait], map[0 := Waiting, 1 := Waiting], Idle, [],
                       [Packet(0, false), Packet(1, false)], false, map[0 := false], 1)
  {
    acts, t := Send(Start(), [], Start());
    acts, t := Send(Start(), acts, t);
    acts, t := Refuse(Start(), acts, t, 0);
    LeadsAppend(Start(), acts, t, Wake(1));
    acts, t := acts + [Wake(1)], DoWake(t, 1);
    LeadsAppend(Start(), acts, t, Action.Look(1));
    acts, t := acts + [Action.Look(1)], DoLook(t, 1);
  }

  /** Both packets are refused by the client and go through by default: the token of
      packet 0 is taken by packet 1's call, and the verdict on packet 1 comes late
      and leaves the reader blocked. */
  lemma VerdictsCanBeLost() returns (acts: seq<Action>, t: State)
    ensures Init(Start()) && Leads(Start(), acts, t)
    ensures t.records == map[0 := false, 1 := false] && t.defaultAllow
    ensures t.calls == map[0 := Returned(false, TimedOut, true), 1 := Returned(false, TimedOut, true)]
    ensures t.spurious == 1 && t.reader == Signalling(1)
  {
    acts, t := TokenGoesAstray();
    LeadsAppend(Start(), acts, t, Expire(0, false));
    acts, t := acts + [Expire(0, false)], DoExpire(t, 0, false);
    LeadsAppend(Start(), acts, t, Expire(1, false));
    acts, t := acts + [Expire(1, false)], DoExpire(t, 1, false);
    acts, t := Refuse(Start(), acts, t, 1);
  }
}
