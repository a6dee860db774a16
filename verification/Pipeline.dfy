/** One container's data path: the proxy's read loops push chunks through the
    unbuffered pktChan, handlePacket takes them one at a time, asks HandleSend and
    writes; injected data is written from other goroutines in between.

    A TCP proxy has two read loops, a UDP proxy has one that reads both directions. */
module Pipeline {
  import opened Base
  import opened Runs
  import opened Sequences

  datatype Chunk = Chunk(serverbound: bool, data: seq<bv8>)

  /** A read loop and the directions it can read (serverbound or not); `handed` chunks
      of `read` went through the channel; one more may be blocked at the send. */
  datatype Producer = Producer(ways: set<bool>, read: seq<Chunk>, handed: nat)

  /** What handlePacket is working on. */
  datatype Handler =
    | Ready
    | Filtering(chunk: Chunk, from: nat)   // inside HandleSend
    | Writing(chunk: Chunk, from: nat)     // inside px.SendToServer or px.SendToClient
    | Gone                                 // the context was done

  /** A read or a successful write; `source` is None for injected data. */
  datatype Item = Item(chunk: Chunk, source: Option<nat>)

  /** `log` holds what all loops read, in the order they read it; `clean` until a chunk
      is refused or a write fails. */
  datatype State = State(
    producers: seq<Producer>, handler: Handler, log: seq<Item>, wire: seq<Item>, clean: bool)

  datatype Action =
    | Read(p: nat, chunk: Chunk)
    | Handoff(p: nat)
    | Filter(allow: bool)
    | WriteOut(ok: bool)
    | Inject(chunk: Chunk)
    | Stop

  ghost predicate Init(s: State) {
    && s == State(s.producers, Ready, [], [], true)
    && forall p :: 0 <= p < |s.producers| ==> s.producers[p] == Producer(s.producers[p].ways, [], 0)
  }

  /** TcpProxy.listen on a connection to `remote` calls its data clientbound exactly if
      that is the server's address. */
  function TcpWay(remote: string, server: string): bool { remote != server }

  /** TcpProxy.Init starts one loop on each connection. */
  ghost predicate TcpInit(client: string, server: string, s: State) {
    && Init(s)
    && s.producers == [Producer({TcpWay(client, server)}, [], 0), Producer({TcpWay(server, server)}, [], 0)]
  }

  /** UdpProxy.Init starts one loop for both directions. */
  ghost predicate UdpInit(s: State) { Init(s) && s.producers == [Producer({true, false}, [], 0)] }

  predicate Blocked(p: Producer) { p.handed < |p.read| }

  predicate Enabled(s: State, a: Action) {
    match a
    case Read(p, chunk) =>
      p < |s.producers| && !Blocked(s.producers[p]) && chunk.serverbound in s.producers[p].ways
    case Handoff(p) => p < |s.producers| && Blocked(s.producers[p]) && s.handler.Ready?
    case Filter(_) => s.handler.Filtering?
    case WriteOut(_) => s.handler.Writing?
    case Inject(_) => true
    case Stop => s.handler.Ready?
  }

  function SetProducer(s: State, p: nat, x: Producer): State
    requires p < |s.producers|
  {
    s.(producers := s.producers[p := x])
  }

  function Apply(s: State, a: Action): State
    requires Enabled(s, a)
  {
    match a
    case Read(p, chunk) =>
      var x := s.producers[p];
      SetProducer(s, p, x.(read := x.read + [chunk])).(log := s.log + [Item(chunk, Some(p))])
    case Handoff(p) =>
      var x := s.producers[p];
      SetProducer(s, p, x.(handed := x.handed + 1)).(handler := Filtering(x.read[x.handed], p))
    case Filter(allow) =>
      if allow then s.(handler := Writing(s.handler.chunk, s.handler.from))
      else s.(handler := Ready, clean := false)
    case WriteOut(ok) =>
      if ok then s.(handler := Ready, wire := s.wire + [Item(s.handler.chunk, Some(s.handler.from))])
      else s.(handler := Ready, clean := false)
    case Inject(chunk) => s.(wire := s.wire + [Item(chunk, None)])
    case Stop => s.(handler := Gone)
  }

  ghost predicate Next(s: State, s': State) {
    exists a :: Enabled(s, a) && s' == Apply(s, a)
  }

  predicate Holds(h: Handler, p: nat) { (h.Filtering? || h.Writing?) && h.from == p }

  /** Chunks of producer `p` that handlePacket is done with. */
  function Processed(s: State, p: nat): seq<Chunk>
    requires p < |s.producers| && 0 <= Done(s, p) <= |s.producers[p].read|
  {
    s.producers[p].read[..Done(s, p)]
  }

  function Done(s: State, p: nat): int
    requires p < |s.producers|
  {
    s.producers[p].handed - if Holds(s.handler, p) then 1 else 0
  }

  /** The chunks of a log that belong to producer `p`, in order. */
  ghost function From(wire: seq<Item>, p: nat): seq<Chunk> {
    if wire == [] then []
    else
      var front, x := From(wire[..|wire| - 1], p), wire[|wire| - 1];
      if x.source == Some(p) then front + [x.chunk] else front
  }

  lemma FromAppend(wire: seq<Item>, p: nat, x: Item)
    ensures From(wire + [x], p) == if x.source == Some(p) then From(wire, p) + [x.chunk] else From(wire, p)
  {
    assert (wire + [x])[..|wire|] == wire;
  }

  ghost predicate ProducerInv(s: State, p: nat)
    requires p < |s.producers|
  {
    var x := s.producers[p];
    && x.handed <= |x.read| <= x.handed + 1
    && (Holds(s.handler, p) ==> 0 < x.handed && s.handler.chunk == x.read[x.handed - 1])
    && IsSubsequence(From(s.wire, p), Processed(s, p))
    && (s.clean ==> From(s.wire, p) == Processed(s, p))
  }

  /** The common log agrees with each loop's own, and chunks go the ways of their loop. */
  ghost predicate LogInv(s: State) {
    && (forall p :: 0 <= p < |s.producers| ==> From(s.log, p) == s.producers[p].read)
    && (forall i :: 0 <= i < |s.log| ==>
          && s.log[i].source.Some? && s.log[i].source.value < |s.producers|
          && s.log[i].chunk.serverbound in s.producers[s.log[i].source.value].ways)
  }

  ghost predicate Inv(s: State) {
    && (forall p :: 0 <= p < |s.producers| ==> ProducerInv(s, p))
    && (s.handler.Filtering? || s.handler.Writing? ==> s.handler.from < |s.producers|)
    && (forall i :: 0 <= i < |s.wire| && s.wire[i].source.Some? ==> s.wire[i].source.value < |s.producers|)
    && LogInv(s)
  }

  lemma LogGrows(s: State, p: nat, chunk: Chunk)
    requires LogInv(s) && Enabled(s, Read(p, chunk))
    ensures LogInv(Apply(s, Read(p, chunk)))
  {
    var t := Apply(s, Read(p, chunk));
    forall q | 0 <= q < |t.producers| ensures From(t.log, q) == t.producers[q].read {
      FromAppend(s.log, q, Item(chunk, Some(p)));
    }
  }

  lemma ReadKeeps(s: State, p: nat, chunk: Chunk)
    requires Inv(s) && Enabled(s, Read(p, chunk))
    ensures Inv(Apply(s, Read(p, chunk)))
  {
    LogGrows(s, p, chunk);
    var t := Apply(s, Read(p, chunk));
    forall q | 0 <= q < |t.producers| ensures ProducerInv(t, q) {
      assert ProducerInv(s, q);
      assert Processed(t, q) == Processed(s, q);
    }
  }

  lemma HandoffKeeps(s: State, p: nat)
    requires Inv(s) && Enabled(s, Handoff(p))
    ensures Inv(Apply(s, Handoff(p)))
  {
    var t := Apply(s, Handoff(p));
    forall q | 0 <= q < |t.producers| ensures ProducerInv(t, q) {
      assert ProducerInv(s, q);
      assert Processed(t, q) == Processed(s, q);
    }
  }

  /** The handler is done with its chunk: its producer's log may or may not gain it. */
  lemma FinishOne(s: State, t: State, wrote: bool, q: nat)
    requires q < |s.producers| && ProducerInv(s, q) && (s.handler.Writing? || s.handler.Filtering?)
    requires t.handler.Ready? && t.producers == s.producers
    requires t.wire == if wrote then s.wire + [Item(s.handler.chunk, Some(s.handler.from))] else s.wire
    requires t.clean ==> s.clean && wrote
    ensures ProducerInv(t, q)
  {
    var done, c := Processed(s, q), s.handler.chunk;
    FromAppend(s.wire, q, Item(c, Some(s.handler.from)));
    if q == s.handler.from {
      assert Processed(t, q) == done + [c];
      SubsequenceSkip(From(s.wire, q), done, c);
      SubsequenceTake(From(s.wire, q), done, c);
    } else {
      assert Processed(t, q) == done;
    }
  }

  lemma FinishKeeps(s: State, t: State, wrote: bool)
    requires Inv(s) && (s.handler.Writing? || s.handler.Filtering?)
    requires t.handler.Ready? && t.producers == s.producers && t.log == s.log
    requires t.wire == if wrote then s.wire + [Item(s.handler.chunk, Some(s.handler.from))] else s.wire
    requires t.clean ==> s.clean && wrote
    ensures Inv(t)
  {
    forall q | 0 <= q < |t.producers| ensures ProducerInv(t, q) { FinishOne(s, t, wrote, q); }
  }

  lemma QuietKeeps(s: State, t: State)
    requires Inv(s) && t.producers == s.producers && t.log == s.log && t.clean == s.clean
    requires forall p :: Holds(t.handler, p) <==> Holds(s.handler, p)
    requires forall p :: Holds(s.handler, p) ==> Holds(t.handler, p) && t.handler.chunk == s.handler.chunk
    requires t.wire == s.wire || exists c :: t.wire == s.wire + [Item(c, None)]
    ensures Inv(t)
  {
    forall q | 0 <= q < |t.producers| ensures ProducerInv(t, q) {
      assert ProducerInv(s, q);
      if t.wire != s.wire {
        var c :| t.wire == s.wire + [Item(c, None)];
        FromAppend(s.wire, q, Item(c, None));
      }
      assert Processed(t, q) == Processed(s, q);
    }
    if t.handler.Filtering? || t.handler.Writing? { assert Holds(t.handler, t.handler.from); }
  }

  lemma ActionKeeps(s: State, a: Action)
    requires Inv(s) && Enabled(s, a)
    ensures Inv(Apply(s, a))
  {
    match a
    case Read(p, chunk) => ReadKeeps(s, p, chunk);
    case Handoff(p) => HandoffKeeps(s, p);
    case Filter(allow) =>
      if allow { QuietKeeps(s, Apply(s, a)); } else { FinishKeeps(s, Apply(s, a), false); }
    case WriteOut(ok) => FinishKeeps(s, Apply(s, a), ok);
    case Inject(c) => QuietKeeps(s, Apply(s, a));
    case Stop => QuietKeeps(s, Apply(s, a));
  }

  lemma InvIsInductive()
    ensures Inductive(Init, Next, Inv)
  {
    forall s | Init(s) ensures Inv(s) {
      forall p | 0 <= p < |s.producers| ensures ProducerInv(s, p) {
        assert From([], p) == [];
      }
    }
    forall s, s' | Inv(s) && Next(s, s') ensures Inv(s') {
      var a :| Enabled(s, a) && s' == Apply(s, a);
      ActionKeeps(s, a);
    }
  }

  lemma AlwaysInv(run: seq<State>, i: nat)
    requires IsRun(Init, Next, run) && i < |run|
    ensures Inv(run[i])
  {
    InvIsInductive();
    InvariantHolds(Init, Next, Inv, run, i);
  }

  /** What one read loop reads is written in the order it was read; and as long as
      everything is allowed and no write fails, all of it is, up to the chunk
      handlePacket holds and the one blocked at the channel. */
  lemma ProducerFifo(run: seq<State>, i: nat, p: nat)
    requires IsRun(Init, Next, run) && i < |run| && p < |run[i].producers|
    ensures IsSubsequence(From(run[i].wire, p), run[i].producers[p].read)
    ensures run[i].clean ==>
              && From(run[i].wire, p) <= run[i].producers[p].read
              && |run[i].producers[p].read| - |From(run[i].wire, p)| ==
                 (if Holds(run[i].handler, p) then 1 else 0) + (if Blocked(run[i].producers[p]) then 1 else 0)
  {
    AlwaysInv(run, i);
    assert ProducerInv(run[i], p);
    PrefixSubsequence(From(run[i].wire, p), run[i].producers[p].read, Done(run[i], p));
  }

  lemma {:induction false} PrefixSubsequence<T>(a: seq<T>, b: seq<T>, n: nat)
    requires n <= |b| && IsSubsequence(a, b[..n])
    ensures IsSubsequence(a, b)
    decreases |b| - n
  {
    if n < |b| {
      SubsequenceSkip(a, b[..n], b[n]);
      assert b[..n + 1] == b[..n] + [b[n]];
      PrefixSubsequence(a, b, n + 1);
    } else {
      assert b[..n] == b;
    }
  }

  // ----------------------------------------------------------- per direction

  function Toward(serverbound: bool): Chunk -> bool { (c: Chunk) => c.serverbound == serverbound }

  /** The chunks written in one direction that were not injected. */
  ghost function Forwarded(wire: seq<Item>, serverbound: bool): seq<Chunk> {
    if wire == [] then []
    else
      var front, x := Forwarded(wire[..|wire| - 1], serverbound), wire[|wire| - 1];
      if x.source.Some? && x.chunk.serverbound == serverbound then front + [x.chunk] else front
  }

  /** The loops never change. */
  ghost predicate SameLoops(s: State, t: State) {
    && |t.producers| == |s.producers|
    && forall p :: 0 <= p < |s.producers| ==> t.producers[p].ways == s.producers[p].ways
  }

  lemma LoopsStay(run: seq<State>, i: nat)
    requires IsRun(Init, Next, run) && i < |run|
    ensures SameLoops(run[0], run[i])
  {
    InvIsInductive();
    RelationHolds(Init, Next, Inv, SameLoops, run, 0, i);
  }

  /** Only loop `p` reads in this direction. */
  ghost predicate SoleWay(s: State, p: nat, serverbound: bool) {
    forall q :: 0 <= q < |s.producers| && q != p ==> serverbound !in s.producers[q].ways
  }

  /** What was forwarded in a direction is an in-order subsequence of what all loops
      read in it, and a prefix missing at most two chunks when nothing was refused or
      failed. */
  ghost predicate InOrder(s: State, serverbound: bool) {
    var got, all := Forwarded(s.wire, serverbound), Forwarded(s.log, serverbound);
    IsSubsequence(got, all) && (s.clean ==> got <= all && |all| - |got| <= 2)
  }

  lemma {:induction false} FromMember(wire: seq<Item>, i: nat, q: nat)
    requires i < |wire| && wire[i].source == Some(q)
    ensures wire[i].chunk in From(wire, q)
  {
    var n := |wire| - 1;
    if i < n { FromMember(wire[..n], i, q); }
  }

  lemma {:induction false} ForwardedIsKept(wire: seq<Item>, p: nat, serverbound: bool)
    requires forall i :: 0 <= i < |wire| && wire[i].source.Some? && wire[i].source != Some(p) ==>
               wire[i].chunk.serverbound != serverbound
    ensures Forwarded(wire, serverbound) == Keep(From(wire, p), Toward(serverbound))
  {
    if wire != [] {
      var n := |wire| - 1;
      ForwardedIsKept(wire[..n], p, serverbound);
      KeepAppend(From(wire[..n], p), Toward(serverbound), wire[n].chunk);
    }
  }

  /** Both logs of a direction are those of its only loop. */
  lemma SourcesAgree(s: State, p: nat, serverbound: bool)
    requires Inv(s) && p < |s.producers| && SoleWay(s, p, serverbound)
    ensures Forwarded(s.wire, serverbound) == Keep(From(s.wire, p), Toward(serverbound))
    ensures Forwarded(s.log, serverbound) == Keep(s.producers[p].read, Toward(serverbound))
  {
    forall i | 0 <= i < |s.log| && s.log[i].source.Some? && s.log[i].source != Some(p)
      ensures s.log[i].chunk.serverbound != serverbound
    {
    }
    ForwardedIsKept(s.log, p, serverbound);
    forall i | 0 <= i < |s.wire| && s.wire[i].source.Some? && s.wire[i].source != Some(p)
      ensures s.wire[i].chunk.serverbound != serverbound
    {
      WrittenGoesItsWay(s, i);
    }
    ForwardedIsKept(s.wire, p, serverbound);
  }

  lemma WrittenGoesItsWay(s: State, i: nat)
    requires Inv(s) && i < |s.wire| && s.wire[i].source.Some?
    ensures s.wire[i].source.value < |s.producers|
    ensures s.wire[i].chunk.serverbound in s.producers[s.wire[i].source.value].ways
  {
    var q, c := s.wire[i].source.value, s.wire[i].chunk;
    FromMember(s.wire, i, q);
    assert ProducerInv(s, q);
    SubsequenceMember(From(s.wire, q), Processed(s, q), c);
    assert c in From(s.log, q);
    FromHas(s.log, q, c);
  }

  lemma {:induction false} FromHas(wire: seq<Item>, q: nat, c: Chunk)
    requires c in From(wire, q)
    ensures exists i :: 0 <= i < |wire| && wire[i] == Item(c, Some(q))
  {
    var n := |wire| - 1;
    if wire[n] == Item(c, Some(q)) {
      assert wire[n] == Item(c, Some(q));
    } else {
      FromHas(wire[..n], q, c);
      var i :| 0 <= i < n && wire[..n][i] == Item(c, Some(q));
      assert wire[i] == Item(c, Some(q));
    }
  }

  lemma {:induction false} KeepPrefix<T>(a: seq<T>, b: seq<T>, f: T -> bool)
    requires a <= b
    ensures Keep(a, f) <= Keep(b, f)
    ensures |Keep(b, f)| - |Keep(a, f)| <= |b| - |a|
    decreases |b|
  {
    if a != b {
      assert a <= b[..|b| - 1];
      KeepPrefix(a, b[..|b| - 1], f);
    }
  }

  /** Per direction, in any run in which one loop alone reads it. */
  lemma DirectionFifo(run: seq<State>, i: nat, p: nat, serverbound: bool)
    requires IsRun(Init, Next, run) && i < |run| && p < |run[0].producers| && SoleWay(run[0], p, serverbound)
    ensures InOrder(run[i], serverbound)
  {
    AlwaysInv(run, i);
    LoopsStay(run, i);
    ProducerFifo(run, i, p);
    SourcesAgree(run[i], p, serverbound);
    var got, all := From(run[i].wire, p), run[i].producers[p].read;
    KeepMonotone(got, all, Toward(serverbound));
    if run[i].clean { KeepPrefix(got, all, Toward(serverbound)); }
  }

  ghost predicate TcpRun(client: string, server: string, run: seq<State>) {
    IsRun(Init, Next, run) && TcpInit(client, server, run[0])
  }

  /** A UDP proxy keeps the order of both directions. */
  lemma UdpFifo(run: seq<State>, i: nat, serverbound: bool)
    requires IsRun(Init, Next, run) && UdpInit(run[0]) && i < |run|
    ensures InOrder(run[i], serverbound)
  {
    DirectionFifo(run, i, 0, serverbound);
  }

  /** A TCP proxy keeps the order of both directions if its two remote addresses
      differ. */
  lemma TcpFifo(client: string, server: string, run: seq<State>, i: nat, serverbound: bool)
    requires TcpRun(client, server, run) && client != server && i < |run|
    ensures InOrder(run[i], serverbound)
  {
    DirectionFifo(run, i, if serverbound then 0 else 1, serverbound);
  }

  lemma Step(run: seq<State>, a: Action) returns (longer: seq<State>)
    requires IsRun(Init, Next, run) && Enabled(run[|run| - 1], a)
    ensures IsRun(Init, Next, longer) && longer[0] == run[0] && |longer| == |run| + 1
    ensures longer[|longer| - 1] == Apply(run[|run| - 1], a)
  {
    Longer(Next, run, Apply(run[|run| - 1], a));
    longer := run + [Apply(run[|run| - 1], a)];
  }

  /** If the addresses are the same, both loops read clientbound: one reads `a` before
      the other reads `b`, and `b` is written before `a`. */
  lemma SameAddressReorders(addr: string) returns (run: seq<State>)
    ensures TcpRun(addr, addr, run) && run[|run| - 1].clean && !InOrder(run[|run| - 1], false)
  {
    var a, b := Chunk(false, [0]), Chunk(false, [1]);
    var idle := Producer({false}, [], 0);
    run := [State([idle, idle], Ready, [], [], true)];
    run := Step(run, Read(0, a));
    run := Step(run, Read(1, b));
    var read := run[|run| - 1];
    assert [] + [a] == [a] && [] + [b] == [b];
    assert read.producers[0] == Producer({false}, [a], 0) && read.producers[1] == Producer({false}, [b], 0);
    assert read.log == [Item(a, Some(0)), Item(b, Some(1))];
    assert read == State([Producer({false}, [a], 0), Producer({false}, [b], 0)], Ready,
                         [Item(a, Some(0)), Item(b, Some(1))], [], true);
    run := Step(run, Handoff(1));
    run := Step(run, Filter(true));
    run := Step(run, WriteOut(true));
    run := Step(run, Handoff(0));
    run := Step(run, Filter(true));
    run := Step(run, WriteOut(true));
    var s := run[|run| - 1];
    assert s.log == read.log && s.wire == [Item(b, Some(1)), Item(a, Some(0))];
    ForwardedPair(s.log[0], s.log[1]);
    ForwardedPair(s.wire[0], s.wire[1]);
    assert [b, a][0] != [a, b][0];
  }

  lemma ForwardedPair(x: Item, y: Item)
    requires x.source.Some? && y.source.Some? && !x.chunk.serverbound && !y.chunk.serverbound
    ensures Forwarded([x, y], false) == [x.chunk, y.chunk]
  {
    assert [x, y][..1] == [x] && [x][..0] == [];
    assert Forwarded([x], false) == [x.chunk];
  }

  /** Exactly the TCP proxies whose two remote addresses differ keep the order. */
  lemma TcpFifoIff(client: string, server: string)
    ensures (forall run, i: nat, serverbound ::
               TcpRun(client, server, run) && i < |run| ==> InOrder(run[i], serverbound)) <==> client != server
  {
    if client != server {
      forall run, i: nat, serverbound | TcpRun(client, server, run) && i < |run| ensures InOrder(run[i], serverbound) {
        TcpFifo(client, server, run, i, serverbound);
      }
    } else {
      var run := SameAddressReorders(server);
      assert TcpRun(client, server, run) && !InOrder(run[|run| - 1], false);
    }
  }
}
