/** The read loops of the proxies: TcpProxy.listen and UdpProxy.listen push into
    pktChan what they read, until their context or their socket ends. */
module ProxyLoops {
  import opened Base
  import opened Contexts
  import opened Pipeline

  type Bytes = data: seq<bv8> | |data| <= 4096 witness []

  /** How a read ends; `from` is the sender of a UDP datagram. */
  datatype Outcome = Data(from: string, data: Bytes) | Timeout | Eof | Broken(text: nat)

  /** One turn of a read loop: while it reads, others may cancel the context. */
  datatype Turn = Turn(during: seq<Cause>, outcome: Outcome)

  /** What the loop itself cancels the context with. Only TCP tells end of file from
      other errors. */
  function OwnCause(o: Outcome, tcp: bool): seq<Cause> {
    match o
    case Eof => if tcp then [Plain(ProxyRetry)] else [Cause({}, 0)]
    case Broken(text) => [Cause({}, text)]
    case _ => []
  }

  /** The context after a turn that started with a live one. */
  function After(t: Turn, tcp: bool): Ctx { CancelAll(None, t.during + OwnCause(t.outcome, tcp)) }

  /** The first `n` turns leave the context alive. */
  ghost predicate AllAlive(turns: seq<Turn>, tcp: bool, n: nat)
    requires n <= |turns|
  {
    n == 0 || (AllAlive(turns, tcp, n - 1) && After(turns[n - 1], tcp).None?)
  }

  /** The loop took `n` turns and is in `ctx`: each turn but the last left the context
      alive. */
  ghost predicate Reached(start: Ctx, turns: seq<Turn>, tcp: bool, n: nat, ctx: Ctx) {
    && n <= |turns|
    && (start.Some? ==> n == 0)
    && (n > 0 ==> AllAlive(turns, tcp, n - 1))
    && ctx == (if n == 0 then start else After(turns[n - 1], tcp))
  }

  /** It took `n` turns and stopped, early only with a dead context. */
  ghost predicate Stopped(start: Ctx, turns: seq<Turn>, tcp: bool, n: nat, ctx: Ctx) {
    Reached(start, turns, tcp, n, ctx) && (n < |turns| ==> ctx.Some?)
  }

  /** What a read adds to the channel: TCP data goes one way per loop, a datagram from
      the client to the server, one from the server to the client, others nowhere. */
  function TcpChunk(serverbound: bool, o: Outcome): seq<Chunk> {
    if o.Data? then [Chunk(serverbound, o.data)] else []
  }

  function UdpChunk(client: string, server: string, o: Outcome): seq<Chunk> {
    if !o.Data? then []
    else if o.from == client then [Chunk(true, o.data)]
    else if o.from == server then [Chunk(false, o.data)]
    else []
  }

  /** The channel that held `first` after `n` turns. */
  ghost function TcpPushed(first: seq<Chunk>, turns: seq<Turn>, n: nat, serverbound: bool): seq<Chunk>
    requires n <= |turns|
  {
    if n == 0 then first
    else TcpPushed(first, turns, n - 1, serverbound) + TcpChunk(serverbound, turns[n - 1].outcome)
  }

  ghost function UdpPushed(first: seq<Chunk>, turns: seq<Turn>, n: nat, client: string, server: string): seq<Chunk>
    requires n <= |turns|
  {
    if n == 0 then first
    else UdpPushed(first, turns, n - 1, client, server) + UdpChunk(client, server, turns[n - 1].outcome)
  }

  lemma {:induction false} CancelAllAppend(ctx: Ctx, a: seq<Cause>, c: Cause)
    ensures CancelAll(ctx, a + [c]) == Cancel(CancelAll(ctx, a), c)
    ensures a + [] == a
    decreases |a|
  {
    if a == [] {
      assert [c][1..] == [];
    } else {
      CancelAllAppend(Cancel(ctx, a[0]), a[1..], c);
      assert (a + [c])[1..] == a[1..] + [c];
    }
  }

  /** One more turn, taken with a live context. */
  lemma ReachedStep(start: Ctx, turns: seq<Turn>, tcp: bool, n: nat)
    requires Reached(start, turns, tcp, n, None) && n < |turns|
    ensures Reached(start, turns, tcp, n + 1, After(turns[n], tcp))
  {
  }

  class TcpProxy {
    var ctx: Ctx
    var pktChan: seq<Chunk>     // everything pushed, in order
    const client: string
    const server: string

    constructor (client: string, server: string)
      ensures ctx == None && pktChan == [] && this.client == client && this.server == server
    {
      ctx, pktChan := None, [];
      this.client, this.server := client, server;
    }

    /** The body of the loop. */
    method Step(serverbound: bool, turn: Turn)
      requires ctx.None?
      modifies this
      ensures ctx == After(turn, true)
      ensures pktChan == old(pktChan) + TcpChunk(serverbound, turn.outcome)
    {
      ctx := CancelAll(ctx, turn.during);
      match turn.outcome {
        case Timeout => assert turn.during + [] == turn.during;
        case Eof =>
          CancelAllAppend(None, turn.during, Plain(ProxyRetry));
          ctx := Cancel(ctx, Plain(ProxyRetry));
        case Broken(text) =>
          CancelAllAppend(None, turn.during, Cause({}, text));
          ctx := Cancel(ctx, Cause({}, text));
        case Data(_, data) =>
          assert turn.during + [] == turn.during;
          pktChan := pktChan + [Chunk(serverbound, data)];
      }
    }

    /** listen on the connection whose remote address is `remote`; `n` counts turns. */
    method Listen(remote: string, turns: seq<Turn>) returns (n: nat)
      modifies this
      ensures Stopped(old(ctx), turns, true, n, ctx)
      ensures pktChan == TcpPushed(old(pktChan), turns, n, TcpWay(remote, server))
    {
      var serverbound := true;
      if remote == server {
        serverbound := false;
      }
      ghost var first, begun := pktChan, ctx;
      n := 0;
      while ctx.None? && n < |turns|
        invariant Reached(begun, turns, true, n, ctx)
        invariant pktChan == TcpPushed(first, turns, n, serverbound)
        decreases |turns| - n
      {
        ReachedStep(begun, turns, true, n);
        Step(serverbound, turns[n]);
        n := n + 1;
      }
    }
  }

  class UdpProxy {
    var ctx: Ctx
    var pktChan: seq<Chunk>
    const client: string
    const server: string
    const firstPktData: Bytes

    constructor (client: string, server: string, first: Bytes)
      ensures ctx == None && pktChan == [] && firstPktData == first
      ensures this.client == client && this.server == server
    {
      ctx, pktChan := None, [];
      this.client, this.server, firstPktData := client, server, first;
    }

    /** The body of the loop. */
    method Step(turn: Turn)
      requires ctx.None?
      modifies this
      ensures ctx == After(turn, false)
      ensures pktChan == old(pktChan) + UdpChunk(client, server, turn.outcome)
    {
      ctx := CancelAll(ctx, turn.during);
      match turn.outcome {
        case Timeout => assert turn.during + [] == turn.during;
        case Eof =>
          CancelAllAppend(None, turn.during, Cause({}, 0));
          ctx := Cancel(ctx, Cause({}, 0));
        case Broken(text) =>
          CancelAllAppend(None, turn.during, Cause({}, text));
          ctx := Cancel(ctx, Cause({}, text));
        case Data(from, data) =>
          assert turn.during + [] == turn.during;
          if from == client {
            pktChan := pktChan + [Chunk(true, data)];
          } else if from == server {
            pktChan := pktChan + [Chunk(false, data)];
          }
      }
    }

    /** listen: the first packet goes to the server even if the context is dead. */
    method Listen(turns: seq<Turn>) returns (n: nat)
      modifies this
      ensures Stopped(old(ctx), turns, false, n, ctx)
      ensures pktChan == UdpPushed(old(pktChan) + [Chunk(true, firstPktData)], turns, n, client, server)
    {
      pktChan := pktChan + [Chunk(true, firstPktData)];
      ghost var first, begun := pktChan, ctx;
      n := 0;
      while ctx.None? && n < |turns|
        invariant Reached(begun, turns, false, n, ctx)
        invariant pktChan == UdpPushed(first, turns, n, client, server)
        decreases |turns| - n
      {
        ReachedStep(begun, turns, false, n);
        Step(turns[n]);
        n := n + 1;
      }
    }
  }

  /** A TCP read loop pushes chunks of one direction only, so the two loops of a proxy
      are the sole sources of their directions when the addresses differ. */
  lemma {:induction false} OneDirectionPerLoop(turns: seq<Turn>, n: nat, serverbound: bool, c: Chunk)
    requires n <= |turns| && c in TcpPushed([], turns, n, serverbound)
    ensures c.serverbound == serverbound
  {
    if n > 0 && c in TcpPushed([], turns, n - 1, serverbound) {
      OneDirectionPerLoop(turns, n - 1, serverbound, c);
    }
  }

  predicate Carries(o: Outcome, from: string, c: Chunk) { o.Data? && o.from == from && o.data == c.data }

  /** A UDP loop sends to the server what came from the client, and the other way. */
  lemma {:induction false} BothDirections(turns: seq<Turn>, n: nat, client: string, server: string, c: Chunk)
    requires n <= |turns| && c in UdpPushed([], turns, n, client, server)
    ensures exists i :: 0 <= i < n && Carries(turns[i].outcome, if c.serverbound then client else server, c)
  {
    if c in UdpPushed([], turns, n - 1, client, server) {
      BothDirections(turns, n - 1, client, server, c);
    } else {
      assert Carries(turns[n - 1].outcome, if c.serverbound then client else server, c);
    }
  }

  /** A TCP loop that nobody disturbs ends with a retry exactly when its last read was
      an end of file. */
  lemma LoopEndsInRetry(turns: seq<Turn>, n: nat, ctx: Ctx)
    requires Stopped(None, turns, true, n, ctx)
    requires forall i :: 0 <= i < n ==> turns[i].during == []
    ensures ctx == Some(Plain(ProxyRetry)) <==> n > 0 && turns[n - 1].outcome.Eof?
    ensures ctx.Some? ==> n > 0 && (turns[n - 1].outcome.Eof? || turns[n - 1].outcome.Broken?)
  {
    if n > 0 { EofMeansRetry(turns[n - 1]); }
  }

  /** One undisturbed turn. */
  lemma EofMeansRetry(t: Turn)
    requires t.during == []
    ensures After(t, true) == Some(Plain(ProxyRetry)) <==> t.outcome.Eof?
    ensures After(t, true).None? <==> t.outcome.Data? || t.outcome.Timeout?
  {
    assert t.during + OwnCause(t.outcome, true) == OwnCause(t.outcome, true);
    FirstCauseWins(None, OwnCause(t.outcome, true));
  }

  // ------------------------------------------------------- nothing is lost

  /** The data reads among the first `n` turns, and those of a known sender. */
  function DataBefore(turns: seq<Turn>, n: nat): nat
    requires n <= |turns|
  {
    if n == 0 then 0 else DataBefore(turns, n - 1) + Count(turns[n - 1].outcome.Data?)
  }

  predicate Known(o: Outcome, client: string, server: string) { o.Data? && (o.from == client || o.from == server) }

  function KnownBefore(turns: seq<Turn>, n: nat, client: string, server: string): nat
    requires n <= |turns|
  {
    if n == 0 then 0
    else KnownBefore(turns, n - 1, client, server) + Count(Known(turns[n - 1].outcome, client, server))
  }

  lemma {:induction false} TcpLength(first: seq<Chunk>, turns: seq<Turn>, n: nat, serverbound: bool)
    requires n <= |turns|
    ensures |TcpPushed(first, turns, n, serverbound)| == |first| + DataBefore(turns, n)
    ensures first <= TcpPushed(first, turns, n, serverbound)
  {
    if n > 0 { TcpLength(first, turns, n - 1, serverbound); }
  }

  /** A TCP loop pushes every data read once, in its place, with its bytes; with
      TcpLength, it pushes nothing else. */
  lemma {:induction false} TcpPushesAll(first: seq<Chunk>, turns: seq<Turn>, n: nat, serverbound: bool, i: nat)
    requires i < n <= |turns| && turns[i].outcome.Data?
    ensures |first| + DataBefore(turns, i) < |TcpPushed(first, turns, n, serverbound)|
    ensures TcpPushed(first, turns, n, serverbound)[|first| + DataBefore(turns, i)] ==
            Chunk(serverbound, turns[i].outcome.data)
  {
    TcpLength(first, turns, n - 1, serverbound);
    if i < n - 1 { TcpPushesAll(first, turns, n - 1, serverbound, i); }
  }

  lemma {:induction false} UdpLength(first: seq<Chunk>, turns: seq<Turn>, n: nat, client: string, server: string)
    requires n <= |turns|
    ensures |UdpPushed(first, turns, n, client, server)| == |first| + KnownBefore(turns, n, client, server)
    ensures first <= UdpPushed(first, turns, n, client, server)
  {
    if n > 0 { UdpLength(first, turns, n - 1, client, server); }
  }

  /** A UDP loop pushes every datagram of the client or the server once, in its place,
      with its bytes and toward the other side; with UdpLength, it pushes nothing else. */
  lemma {:induction false} UdpPushesAll(first: seq<Chunk>, turns: seq<Turn>, n: nat, client: string, server: string,
                                        i: nat)
    requires i < n <= |turns| && Known(turns[i].outcome, client, server)
    ensures |first| + KnownBefore(turns, i, client, server) < |UdpPushed(first, turns, n, client, server)|
    ensures UdpPushed(first, turns, n, client, server)[|first| + KnownBefore(turns, i, client, server)] ==
            Chunk(turns[i].outcome.from == client, turns[i].outcome.data)
  {
    UdpLength(first, turns, n - 1, client, server);
    if i < n - 1 { UdpPushesAll(first, turns, n - 1, client, server, i); }
  }

  /** What a turn leaves of a live context: whoever cancels it first while the loop
      reads; otherwise the loop's own cause for a failed read, and nothing else. */
  lemma AfterExact(t: Turn, tcp: bool)
    ensures t.during != [] ==> After(t, tcp) == Some(t.during[0])
    ensures t.during == [] ==>
              After(t, tcp) ==
              match t.outcome
              case Data(_, _) => None
              case Timeout => None
              case Eof => Some(if tcp then Plain(ProxyRetry) else Cause({}, 0))
              case Broken(text) => Some(Cause({}, text))
  {
    FirstCauseWins(None, t.during + OwnCause(t.outcome, tcp));
    if t.during != [] { assert (t.during + OwnCause(t.outcome, tcp))[0] == t.during[0]; }
  }
}
