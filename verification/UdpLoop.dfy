/** UdpListener as the program runs it, with the rest of the program interleaved
    between its statements; each statement is a move of the Udp system. */
module UdpLoop {
  import opened Base
  import opened Sequences
  import opened Contexts
  import opened Spawner
  import opened Udp
  import SI = SpawnerInvariant

  /** How the read of the shared socket ends. */
  datatype Read = Nobody | FromServer | FromClient

  /** Where a turn goes on after its first half. */
  datatype Onward = ToSocket | ToHead | ToCaller

  /** How a run ends: the listener returned, or its schedule ran out first. */
  datatype Ending = Returned | OutOfTurns

  /** Each of `moves` is possible when its turn comes. */
  ghost predicate Possible(y: System, moves: seq<Move>)
    decreases |moves|
  {
    moves == [] || (Can(y, moves[0]) && Possible(Do(y, moves[0]), moves[1..]))
  }

  /** The state they lead to. */
  ghost function After(y: System, moves: seq<Move>): System
    requires Possible(y, moves)
    decreases |moves|
  {
    if moves == [] then y else After(Do(y, moves[0]), moves[1..])
  }

  /** A read of the shared socket: the state it is made in, and whether it brings a
      datagram of a client. */
  datatype ReadEvent = ReadEvent(at: System, client: bool)

  function NewRead(y: System, m: Move): seq<ReadEvent> {
    match m
    case ReadNothing => [ReadEvent(y, false)]
    case ReadClient => [ReadEvent(y, true)]
    case _ => []
  }

  /** The reads of the shared socket among the moves, in order. */
  ghost function ReadsOf(y: System, moves: seq<Move>): seq<ReadEvent>
    requires Possible(y, moves)
    decreases |moves|
  {
    if moves == [] then []
    else NewRead(y, moves[0]) + ReadsOf(Do(y, moves[0]), moves[1..])
  }

  ghost predicate Plays(y: System, moves: seq<Move>, z: System, seen: seq<ReadEvent>) {
    Possible(y, moves) && z == After(y, moves) && seen == ReadsOf(y, moves)
  }

  lemma {:induction false} PlaysAppend(y: System, moves: seq<Move>, m: Move)
    requires Possible(y, moves) && Can(After(y, moves), m)
    ensures Possible(y, moves + [m]) && After(y, moves + [m]) == Do(After(y, moves), m)
    ensures ReadsOf(y, moves + [m]) == ReadsOf(y, moves) + NewRead(After(y, moves), m)
    decreases |moves|
  {
    if moves == [] {
      assert [m][1..] == [];
    } else {
      PlaysAppend(Do(y, moves[0]), moves[1..], m);
      assert (moves + [m])[1..] == moves[1..] + [m];
    }
  }

  /** The listener is at the read of the shared socket and no UDP proxy is alive. */
  ghost predicate Quiet(y: System) { y.pc.Reading? && NoneLive(y) }

  lemma ReadingQuiet(y: System)
    requires SystemInv(y) && y.pc.Reading?
    ensures Quiet(y)
  {
  }

  /** Whatever is played, every read of the shared socket is quiet. */
  lemma {:induction false} ReadsAreQuiet(y: System, moves: seq<Move>)
    requires SystemInv(y) && Possible(y, moves)
    ensures forall k :: 0 <= k < |ReadsOf(y, moves)| ==> Quiet(ReadsOf(y, moves)[k].at)
    decreases |moves|
  {
    if moves != [] {
      MoveKeeps(y, moves[0]);
      ReadsAreQuiet(Do(y, moves[0]), moves[1..]);
    }
  }

  ghost predicate AllQuiet(seen: seq<ReadEvent>) { forall k :: 0 <= k < |seen| ==> Quiet(seen[k].at) }

  // --------------------------------------------- which reads open a proxy

  /** The containers of listener `u` among the first `n`; only those whose maker
      succeeded if `made`. */
  ghost function OwnedBefore(created: seq<Container>, u: nat, made: bool, n: nat): nat
    requires n <= |created|
  {
    if n == 0 then 0
    else
      OwnedBefore(created, u, made, n - 1) +
      Count(created[n - 1].owner == u && (made ==> created[n - 1].made))
  }

  ghost function Owned(created: seq<Container>, u: nat, made: bool): nat {
    OwnedBefore(created, u, made, |created|)
  }

  lemma {:induction false} OwnedSame(c: seq<Container>, d: seq<Container>, u: nat, made: bool, n: nat)
    requires n <= |c| && n <= |d|
    requires forall r :: 0 <= r < n ==> d[r].owner == c[r].owner && d[r].made == c[r].made
    ensures OwnedBefore(d, u, made, n) == OwnedBefore(c, u, made, n)
  {
    if n > 0 { OwnedSame(c, d, u, made, n - 1); }
  }

  lemma OwnedAppend(c: seq<Container>, x: Container, u: nat, made: bool)
    ensures Owned(c + [x], u, made) == Owned(c, u, made) + Count(x.owner == u && (made ==> x.made))
  {
    OwnedSame(c, c + [x], u, made, |c|);
  }

  /** Anyone else makes no container of `u`. */
  lemma OthersOwn(s: State, a: Action, u: nat, made: bool)
    requires Enabled(s, a) && ListenerOf(a) != Some(u)
    ensures Owned(Apply(s, a).created, u, made) == Owned(s.created, u, made)
  {
    match a
    case Make(l, ok) => OwnedAppend(s.created, Apply(s, a).created[|s.created|], u, made);
    case _ => OwnedSame(s.created, Apply(s, a).created, u, made, |s.created|);
  }

  /** The reads that brought a client, and what became of them. */
  datatype Tally = Tally(clients: nat, refused: nat, failed: nat, made: nat)

  function Add(t: Tally, v: Tally): Tally {
    Tally(t.clients + v.clients, t.refused + v.refused, t.failed + v.failed, t.made + v.made)
  }

  function TallyOne(y: System, m: Move): Tally {
    match m
    case ReadClient => Tally(1, 0, 0, 0)
    case AddVet => if y.sp.context.Some? then Tally(0, 1, 0, 0) else Tally(0, 0, 0, 0)
    case AddMake(ok) => if ok then Tally(0, 0, 0, 1) else Tally(0, 0, 1, 0)
    case _ => Tally(0, 0, 0, 0)
  }

  ghost function TallyOf(y: System, moves: seq<Move>): Tally
    requires Possible(y, moves)
    decreases |moves|
  {
    if moves == [] then Tally(0, 0, 0, 0) else Add(TallyOne(y, moves[0]), TallyOf(Do(y, moves[0]), moves[1..]))
  }

  /** A client was read and its container is neither made nor refused yet. */
  function InHand(y: System): nat {
    if y.pc.Adding? && y.u < |y.sp.listeners| && y.sp.listeners[y.u].Running?
       && (y.sp.listeners[y.u].adding.Nothing? || y.sp.listeners[y.u].adding.Vetted?) then 1 else 0
  }

  /** One move's part in the account. */
  ghost predicate Accounts(y: System, m: Move, z: System) {
    var t := TallyOne(y, m);
    && t.clients + InHand(y) == t.refused + t.failed + t.made + InHand(z)
    && z.u == y.u && Owned(z.sp.created, y.u, true) == Owned(y.sp.created, y.u, true) + t.made
    && Owned(z.sp.created, y.u, false) == Owned(y.sp.created, y.u, false) + t.made + t.failed
  }

  lemma WorldTallies(y: System, a: Action)
    requires Can(y, World(a))
    ensures Accounts(y, World(a), Do(y, World(a)))
  {
    OthersOwn(y.sp, a, y.u, true);
    OthersOwn(y.sp, a, y.u, false);
    NewcomersElsewhere(y.sp, a, y.u);
  }

  lemma MakeTallies(y: System, ok: bool)
    requires Can(y, AddMake(ok))
    ensures Accounts(y, AddMake(ok), Do(y, AddMake(ok)))
  {
    var x := Do(y, AddMake(ok)).sp.created[|y.sp.created|];
    OwnedAppend(y.sp.created, x, y.u, true);
    OwnedAppend(y.sp.created, x, y.u, false);
  }

  lemma LoopTallies(y: System, m: Move)
    requires y.u < |y.sp.listeners| && PcInv(y) && Can(y, m) && !m.World? && !m.AddMake?
    ensures Accounts(y, m, Do(y, m))
  {
    assert Do(y, m).sp.created == y.sp.created;
  }

  lemma MoveTallies(y: System, m: Move)
    requires y.u < |y.sp.listeners| && PcInv(y) && Can(y, m)
    ensures Accounts(y, m, Do(y, m))
  {
    match m
    case World(a) => WorldTallies(y, a);
    case AddMake(ok) => MakeTallies(y, ok);
    case _ => LoopTallies(y, m);
  }

  /** Every client read is refused with a dead spawner, or fails, or opens one proxy,
      or is in hand; and no other move makes a container of the UDP listener. */
  lemma {:induction false} ClientsAccounted(y: System, moves: seq<Move>)
    requires SystemInv(y) && Possible(y, moves)
    ensures var t, z := TallyOf(y, moves), After(y, moves);
            && t.clients + InHand(y) == t.refused + t.failed + t.made + InHand(z)
            && z.u == y.u && Owned(z.sp.created, y.u, true) == Owned(y.sp.created, y.u, true) + t.made
            && Owned(z.sp.created, y.u, false) == Owned(y.sp.created, y.u, false) + t.made + t.failed
    decreases |moves|
  {
    if moves != [] {
      MoveTallies(y, moves[0]);
      MoveKeeps(y, moves[0]);
      ClientsAccounted(Do(y, moves[0]), moves[1..]);
    }
  }

  function ClientsAmong(seen: seq<ReadEvent>): nat {
    if seen == [] then 0 else Count(seen[0].client) + ClientsAmong(seen[1..])
  }

  lemma {:induction false} ClientsAreReads(y: System, moves: seq<Move>)
    requires Possible(y, moves)
    ensures TallyOf(y, moves).clients == ClientsAmong(ReadsOf(y, moves))
    decreases |moves|
  {
    if moves != [] {
      var rest := ReadsOf(Do(y, moves[0]), moves[1..]);
      ClientsAreReads(Do(y, moves[0]), moves[1..]);
      if moves[0].ReadNothing? || moves[0].ReadClient? {
        assert ReadsOf(y, moves)[1..] == rest;
      } else {
        assert ReadsOf(y, moves) == rest;
      }
    }
  }

  class Listener {
    const u: nat
    var sp: State
    var own: Ctx
    var id: int
    ghost var pc: Pc
    ghost const start: System
    ghost var log: seq<Move>      // every move since `start`, the others' included
    ghost var readAt: seq<ReadEvent>  // the reads of the socket

    ghost function View(): System
      reads this
    {
      System(sp, u, own, pc, id)
    }

    ghost predicate Valid()
      reads this
    {
      SystemInv(View()) && Plays(start, log, View(), readAt)
    }

    constructor (sp: State, u: nat)
      requires SI.Inv(sp) && u < |sp.listeners| && sp.listeners[u] == Running(Nothing)
      requires NoneLive(System(sp, u, None, Outside, -1))
      ensures Valid() && SystemInv(start) && log == [] && readAt == [] && start == System(sp, u, None, Outside, -1)
    {
      this.u, this.sp, own, id, pc := u, sp, None, -1, Outside;
      log, readAt, start := [], [], System(sp, u, None, Outside, -1);
    }

    /** The next move is allowed and may be logged. */
    lemma Allowed(m: Move)
      requires Valid() && Can(View(), m)
      ensures SystemInv(Do(View(), m))
      ensures Plays(start, log + [m], Do(View(), m), readAt + NewRead(View(), m))
    {
      MoveKeeps(View(), m);
      PlaysAppend(start, log, m);
    }

    /** Others run for a while; what is not possible when its turn comes is skipped. */
    method Yield(others: seq<Action>)
      requires Valid()
      modifies `sp, `own, `log
      ensures Valid()
      ensures |sp.listeners| == |old(sp).listeners| && sp.listeners[u] == old(sp).listeners[u]
      ensures |old(sp).created| <= |sp.created|
      ensures Owned(sp.created, u, true) == Owned(old(sp).created, u, true)
      ensures Owned(sp.created, u, false) == Owned(old(sp).created, u, false)
    {
      for i := 0 to |others|
        invariant Valid()
        invariant |sp.listeners| == |old(sp).listeners| && sp.listeners[u] == old(sp).listeners[u]
        invariant |old(sp).created| <= |sp.created|
        invariant Owned(sp.created, u, true) == Owned(old(sp).created, u, true)
        invariant Owned(sp.created, u, false) == Owned(old(sp).created, u, false)
      {
        var a := others[i];
        if ListenerOf(a) != Some(u) && Enabled(sp, a) {
          Allowed(World(a));
          NewcomersElsewhere(sp, a, u);
          OthersOwn(sp, a, u, true);
          OthersOwn(sp, a, u, false);
          own := Inherit(own, a);
          sp := Apply(sp, a);
          log := log + [World(a)];
        }
      }
    }

    /** The listener's own cancel function, and the return after it. */
    method Fail(text: nat)
      requires Valid() && (pc.Opening? || pc.Reopening?)
      modifies `own, `pc, `log
      ensures Valid() && pc.Outside? && own.Some? && View() == Do(old(View()), Fatal(text))
    {
      Allowed(Fatal(text));
      own := Cancel(own, Cause({}, text));
      pc, log := Outside, log + [Fatal(text)];
    }

    /** ps.GetProxy: the container, or none if the id is not in the table. */
    method LookUp() returns (cl: Option<nat>)
      requires Valid() && Can(View(), HeadLookup)
      modifies `pc, `log
      ensures Valid() && View() == Do(old(View()), HeadLookup)
      ensures cl == if id >= 0 && id in sp.connections then Some(sp.connections[id]) else None
      ensures pc == if cl.Some? then Looked(cl.value) else Reopening
    {
      Allowed(HeadLookup);
      cl := if id >= 0 && id in sp.connections then Some(sp.connections[id]) else None;
      pc, log := if cl.Some? then Looked(cl.value) else Reopening, log + [HeadLookup];
    }

    /** cl.IsAlive. */
    method IsAlive(cl: nat) returns (alive: bool)
      requires Valid() && pc == Looked(cl)
      modifies `pc, `log
      ensures Can(old(View()), AskAlive) && (alive <==> sp.created[cl].ctx.None?)
      ensures Valid() && View() == Do(old(View()), AskAlive)
      ensures pc == if alive then Top else Reopening
    {
      Allowed(AskAlive);
      alive := sp.created[cl].ctx.None?;
      pc, log := if alive then Top else Reopening, log + [AskAlive];
    }

    /** Has the proxy been pruned or died? Reads the table, then, others having run,
        asks the container. */
    method CheckProxy(others: seq<Action>) returns (gone: bool)
      requires Valid() && Can(View(), HeadLookup)
      modifies `sp, `own, `pc, `log
      ensures Valid() && pc == if gone then Reopening else Top
      ensures old(id < 0 || id !in sp.connections) ==> gone
      ensures old(id >= 0 && id in sp.connections) ==>
                && old(sp.connections[id]) < |sp.created|
                && (gone <==> sp.created[old(sp.connections[id])].ctx.Some?)
      ensures Owned(sp.created, u, true) == Owned(old(sp).created, u, true)
      ensures Owned(sp.created, u, false) == Owned(old(sp).created, u, false)
    {
      var cl := LookUp();
      if cl.None? {
        return true;
      }
      Yield(others);
      var alive := IsAlive(cl.value);
      gone := !alive;
    }

    /** AddConnection: a dead spawner takes no connection. */
    method Vet() returns (ok: bool)
      requires Valid() && pc.Adding? && sp.listeners[u] == Running(Nothing)
      modifies `sp, `id, `pc, `log
      ensures Valid() && View() == Do(old(View()), AddVet)
      ensures if ok then pc.Adding? && sp.listeners[u] == Running(Vetted) else pc.Top? && id == -1
      ensures sp.created == old(sp).created && (ok <==> old(sp).context.None?)
    {
      Allowed(AddVet);
      ok := sp.context.None?;
      if ok {
        sp := DoVet(sp, u);
      } else {
        id, pc := -1, Top;
      }
      log := log + [AddVet];
      assert View() == Do(old(View()), AddVet);
    }

    /** AddConnection: NewProxyContainer, which may refuse. */
    method MakeContainer(ok: bool)
      requires Valid() && pc.Adding? && sp.listeners[u] == Running(Vetted)
      modifies `sp, `id, `pc, `log
      ensures Valid() && View() == Do(old(View()), AddMake(ok))
      ensures if ok then pc.Adding? && sp.listeners[u].adding == Allocated(old(|sp.created|)) else pc.Top? && id == -1
      ensures |sp.created| >= old(|sp.created|)
      ensures Owned(sp.created, u, true) == Owned(old(sp).created, u, true) + Count(ok)
      ensures Owned(sp.created, u, false) == Owned(old(sp).created, u, false) + 1
    {
      Allowed(AddMake(ok));
      MoveTallies(View(), AddMake(ok));
      sp := DoMake(sp, u, ok);
      if !ok {
        id, pc := -1, Top;
      }
      log := log + [AddMake(ok)];
      assert View() == Do(old(View()), AddMake(ok));
    }

    /** AddConnection: the table entry, if the pruner does not hold the table. */
    method InsertContainer() returns (ok: bool)
      requires Valid() && pc.Adding? && sp.listeners[u].adding.Allocated?
      modifies `sp, `log
      ensures Valid() && pc.Adding?
      ensures ok ==> Can(old(View()), AddInsert) && View() == Do(old(View()), AddInsert)
      ensures ok ==> sp.listeners[u].adding.Inserted?
      ensures ok ==> sp.listeners[u].adding.ref == old(sp.listeners[u].adding.ref)
      ensures !ok ==> View() == old(View())
    {
      ok := !Locked(sp.pruner);
      if ok {
        assert SI.AddingOk(sp, u);
        Allowed(AddInsert);
        sp := DoInsert(sp, u);
        log := log + [AddInsert];
      }
    }

    /** AddConnection: wg.Add, and back in the loop the new id. */
    method CountContainer()
      requires Valid() && pc.Adding? && sp.listeners[u].adding.Inserted?
      modifies `sp, `id, `pc, `log
      ensures Can(old(View()), AddCount)
      ensures Valid() && View() == Do(old(View()), AddCount) && pc.Top?
      ensures OwnContainer(old(sp.listeners[u].adding.ref), id)
    {
      assert SI.AddingOk(sp, u);
      Allowed(AddCount);
      id := sp.created[sp.listeners[u].adding.ref].id;
      sp := DoCount(sp, u);
      pc, log := Top, log + [AddCount];
    }

    /** Container `r` was made by this listener, under `id`. */
    ghost predicate OwnContainer(r: nat, id: int)
      reads this
    {
      r < |sp.created| && sp.created[r].made && sp.created[r].owner == u && sp.created[r].id == id
    }

    /** AddConnection with others in between, and back in the loop: `id` is that of a
        container made in this call, or -1 if there is none; `stuck` if the pruner holds
        the table when this schedule reaches the insertion. */
    method AddConnection(others: nat -> seq<Action>, ok: bool) returns (stuck: bool)
      requires Valid() && pc.Adding? && sp.listeners[u] == Running(Nothing)
      modifies `sp, `own, `id, `pc, `log
      ensures Valid()
      ensures if stuck then pc.Adding? else pc.Top?
      ensures !stuck && !ok ==> id == -1
      ensures !stuck && id != -1 ==> exists r :: old(|sp.created|) <= r && OwnContainer(r, id)
      ensures stuck ==> ok && old(sp).context.None?
      ensures old(sp).context.Some? ==> !stuck && id == -1
      ensures old(sp).context.None? && ok && !stuck ==> id != -1
      ensures Owned(sp.created, u, true) == Owned(old(sp).created, u, true) + Count(old(sp).context.None? && ok)
      ensures Owned(sp.created, u, false) == Owned(old(sp).created, u, false) + Count(old(sp).context.None?)
    {
      var go := Vet();
      if !go {
        return false;
      }
      Yield(others(3));
      MakeContainer(ok);
      if !ok {
        return false;
      }
      Yield(others(4));
      go := InsertContainer();
      if !go {
        return true;
      }
      Yield(others(5));
      CountContainer();
      stuck := false;
    }

    /** net.ListenUDP, the first time (with the addresses) or again. */
    method OpenSocket(again: bool, ok: bool)
      requires Valid() && pc == if again then Reopening else Opening
      modifies `own, `id, `pc, `log
      ensures Valid()
      ensures View() == Do(old(View()), if ok then Opened else Fatal(0))
      ensures pc == if !ok then Outside else if again then Reading else Top
      ensures !ok ==> own.Some?
    {
      if !ok {
        Fail(0);
        return;
      }
      Allowed(Opened);
      if again {
        id := -1;
      }
      pc, log := if again then Reading else Top, log + [Opened];
    }

    /** One turn up to the read. The listener comes out at the socket, back at the
        loop head, or returned. */
    method Head(others: nat -> seq<Action>, reopen: bool) returns (on: Onward)
      requires Valid() && pc.Top?
      modifies `sp, `own, `id, `pc, `log
      ensures Valid()
      ensures pc == match on case ToSocket => Reading case ToHead => Top case ToCaller => Outside
      ensures on.ToCaller? ==> own.Some?
      ensures Owned(sp.created, u, true) == Owned(old(sp).created, u, true)
    {
      Yield(others(0));
      on := AtHead(others(1), reopen);
    }

    /** The loop head: a dead context ends the loop, a live proxy keeps it waiting, and
        without one it goes to the socket, which is opened again if there was one. */
    method AtHead(others: seq<Action>, reopen: bool) returns (on: Onward)
      requires Valid() && pc.Top?
      modifies `sp, `own, `id, `pc, `log
      ensures Valid()
      ensures pc == match on case ToSocket => Reading case ToHead => Top case ToCaller => Outside
      ensures on.ToCaller? ==> own.Some?
      ensures old(own).Some? ==> on.ToCaller?
      ensures old(own).None? && old(id) == -1 ==> on.ToSocket?
      ensures old(own).None? && old(id) != -1 && Locked(old(sp).pruner) ==> on.ToHead?
      ensures old(own).None? && old(id) != -1 && !Locked(old(sp).pruner) ==>
                if old(id >= 0 && id in sp.connections) && old(sp.connections[id]) < |sp.created|
                   && sp.created[old(sp.connections[id])].ctx.None? then on.ToHead?
                else on == if reopen then ToSocket else ToCaller
      ensures Owned(sp.created, u, true) == Owned(old(sp).created, u, true)
    {
      on := ToHead;
      if own.Some? {
        Allowed(HeadExit);
        pc, log, on := Outside, log + [HeadExit], ToCaller;
      } else if id == -1 {
        Allowed(HeadRead);
        pc, log, on := Reading, log + [HeadRead], ToSocket;
      } else if !Locked(sp.pruner) {
        var gone := CheckProxy(others);
        if gone {
          OpenSocket(true, reopen);
          on := if reopen then ToSocket else ToCaller;
        }
      }
    }

    /** The read of the shared socket after a pause. */
    method ReadSocket(read: Read, makes: bool, others: nat -> seq<Action>) returns (stuck: bool, ghost event: ReadEvent)
      requires Valid() && pc.Reading?
      modifies `sp, `own, `id, `pc, `log, `readAt
      ensures Valid()
      ensures if stuck then pc.Adding? else pc.Top?
      ensures readAt == old(readAt) + [event] && (event.client <==> read == FromClient) && Quiet(event.at)
      ensures Owned(sp.created, u, true) == Owned(old(sp).created, u, true) +
                                            Count(read == FromClient && event.at.sp.context.None? && makes)
    {
      Yield(others(2));
      event := ReadEvent(View(), read == FromClient);
      assert Quiet(event.at) by { ReadingQuiet(event.at); }
      stuck := ReadNow(read, makes, others);
    }

    /** The read of the shared socket and, for a datagram of a client, AddConnection:
        one more read in the log, and one more proxy exactly if it was a client's
        datagram, the spawner lives and the container can be made. */
    method ReadNow(read: Read, makes: bool, others: nat -> seq<Action>) returns (stuck: bool)
      requires Valid() && pc.Reading?
      modifies `sp, `own, `id, `pc, `log, `readAt
      ensures Valid()
      ensures if stuck then pc.Adding? else pc.Top?
      ensures readAt == old(readAt) + [ReadEvent(old(View()), read == FromClient)]
      ensures var opens := read == FromClient && old(sp).context.None? && makes;
              && Owned(sp.created, u, true) == Owned(old(sp).created, u, true) + Count(opens)
              && (stuck ==> opens) && (!stuck ==> (opens <==> id != -1))
              && (!stuck && opens ==> exists r :: old(|sp.created|) <= r && OwnContainer(r, id))
      ensures read != FromClient ==> sp == old(sp)
    {
      NoteRead(read == FromClient);
      stuck := false;
      if read == FromClient {
        stuck := AddConnection(others, makes);
      }
    }

    /** ReadFromUDP and the branch on the sender. */
    method NoteRead(client: bool)
      requires Valid() && pc.Reading?
      modifies `pc, `log, `readAt
      ensures Valid() && pc == (if client then Adding else Top) && sp.listeners[u] == Running(Nothing) && id == -1
      ensures readAt == old(readAt) + [ReadEvent(old(View()), client)]
    {
      var move := if client then ReadClient else ReadNothing;
      Allowed(move);
      readAt, log, pc := readAt + NewRead(View(), move), log + [move], if client then Adding else Top;
    }

    /** One turn of the loop, and the reads in it. */
    method Turn(reopen: bool, socket: Read, makes: bool, others: nat -> seq<Action>)
      returns (on: Onward, stuck: bool, ghost seen: seq<ReadEvent>)
      requires Valid() && pc.Top?
      modifies `sp, `own, `id, `pc, `log, `readAt
      ensures Valid() && readAt == old(readAt) + seen
      ensures pc == if on.ToCaller? then Outside else if stuck then Adding else Top
      ensures on.ToCaller? ==> own.Some?
      ensures if on.ToSocket? then |seen| == 1 && (seen[0].client <==> socket == FromClient) else seen == [] && !stuck
      ensures Owned(sp.created, u, true) == Owned(old(sp).created, u, true) +
                Count(on.ToSocket? && socket == FromClient && seen[0].at.sp.context.None? && makes)
    {
      stuck, seen := false, [];
      on := Head(others, reopen);
      assert readAt == old(readAt) + seen;
      if on.ToSocket? {
        ghost var event;
        stuck, event := ReadSocket(socket, makes, others);
        seen := [event];
      }
    }

    /** A new run: its own context and the first socket. */
    method Start(ok: bool)
      requires Valid() && pc.Outside? && sp.listeners[u] == Running(Nothing)
      modifies `own, `id, `pc, `log
      ensures Valid() && pc == if ok then Top else Outside
      ensures !ok ==> own.Some?
    {
      Allowed(Begin);
      own, id := Child(sp.context), -1;
      pc, log := Opening, log + [Begin];
      OpenSocket(false, ok);
    }

    /** UdpListener. `others(k)(j)` run at the j-th pause of turn `k`. Every statement
        is a move of the system (`Valid`), and in none of the states in which the
        listener itself reads the socket is a UDP proxy alive. It takes a datagram for
        a client's exactly if it is one, and for each client it has one proxy made,
        one refused by a dead spawner, one that failed, or one in hand. It never
        returns with its own context alive. */
    method Run(turns: nat, opens: nat -> bool, socket: nat -> Read, makes: nat -> bool,
               others: nat -> nat -> seq<Action>)
      returns (ending: Ending, ghost readTurns: seq<nat>, ghost seen: seq<ReadEvent>)
      requires Valid() && pc.Outside? && sp.listeners[u] == Running(Nothing) && SystemInv(start)
      modifies `sp, `own, `id, `pc, `log, `readAt
      ensures Valid() && readAt == old(readAt) + seen && AllQuiet(readAt)
      ensures ending == Returned ==> pc.Outside? && NoneLive(View()) && own.Some?
      ensures ReadIn(readTurns, turns, seen, socket)
      ensures var t := TallyOf(start, log);
              && t.clients == ClientsAmong(readAt)
              && t.clients + InHand(start) == t.refused + t.failed + t.made + InHand(View())
              && Owned(sp.created, u, true) == Owned(start.sp.created, u, true) + t.made
    {
      ending, readTurns, seen := Loop(turns, opens, socket, makes, others);
      ReadsAreQuiet(start, log);
      ClientsAccounted(start, log);
      ClientsAreReads(start, log);
    }

    method Loop(turns: nat, opens: nat -> bool, socket: nat -> Read, makes: nat -> bool,
                others: nat -> nat -> seq<Action>)
      returns (ending: Ending, ghost readTurns: seq<nat>, ghost seen: seq<ReadEvent>)
      requires Valid() && pc.Outside? && sp.listeners[u] == Running(Nothing)
      modifies `sp, `own, `id, `pc, `log, `readAt
      ensures Valid() && readAt == old(readAt) + seen && ReadIn(readTurns, turns, seen, socket)
      ensures ending == Returned ==> pc.Outside? && NoneLive(View()) && own.Some?
    {
      Start(opens(0));
      readTurns, seen, ending := [], [], Returned;
      assert readAt == old(readAt) + seen;
      if opens(0) {
        ending, readTurns, seen := Turns(turns, opens, socket, makes, others, readAt);
      }
    }

    method NextTurn(k: nat, turns: nat, reopen: bool, socket: nat -> Read, makes: bool, others: nat -> seq<Action>,
                    ghost before: seq<ReadEvent>, ghost readTurns: seq<nat>, ghost seen: seq<ReadEvent>)
      returns (on: Onward, stuck: bool, ghost readTurns': seq<nat>, ghost seen': seq<ReadEvent>)
      requires Valid() && pc.Top? && k < turns && readAt == before + seen && ReadIn(readTurns, k, seen, socket)
      modifies `sp, `own, `id, `pc, `log, `readAt
      ensures Valid() && readAt == before + seen'
      ensures pc == if on.ToCaller? then Outside else if stuck then Adding else Top
      ensures on.ToCaller? ==> own.Some?
      ensures ReadIn(readTurns', k + 1, seen', socket) && ReadIn(readTurns', turns, seen', socket)
    {
      ghost var more;
      on, stuck, more := Turn(reopen, socket(k), makes, others);
      Associates(before, seen, more);
      readTurns' := ReadInMore(readTurns, k, turns, seen, socket, more, on.ToSocket?);
      seen' := seen + more;
    }

    method Turns(turns: nat, opens: nat -> bool, socket: nat -> Read, makes: nat -> bool,
                 others: nat -> nat -> seq<Action>, ghost before: seq<ReadEvent>)
      returns (ending: Ending, ghost readTurns: seq<nat>, ghost seen: seq<ReadEvent>)
      requires Valid() && pc.Top? && readAt == before
      modifies `sp, `own, `id, `pc, `log, `readAt
      ensures Valid() && readAt == before + seen && ReadIn(readTurns, turns, seen, socket)
      ensures ending == Returned ==> pc.Outside? && NoneLive(View()) && own.Some?
    {
      readTurns, seen, ending := [], [], OutOfTurns;
      assert readAt == before + seen;
      for k := 0 to turns
        invariant Valid() && pc.Top? && readAt == before + seen
        invariant ReadIn(readTurns, k, seen, socket)
      {
        var on, stuck;
        on, stuck, readTurns, seen :=
          NextTurn(k, turns, opens(k + 1), socket, makes(k), others(k), before, readTurns, seen);
        if on.ToCaller? {
          ending := Returned;
          return;
        }
        if stuck {
          return;
        }
      }
    }
  }

  /** The reads were made in the listed turns, one each, and each was taken for what
      the socket gave in its turn. */
  ghost predicate ReadIn(turns: seq<nat>, limit: nat, seen: seq<ReadEvent>, socket: nat -> Read) {
    && |turns| == |seen|
    && (forall i :: 0 <= i < |turns| ==> turns[i] < limit && (seen[i].client <==> socket(turns[i]) == FromClient))
    && forall i, j :: 0 <= i < j < |turns| ==> turns[i] < turns[j]
  }

  lemma ReadInMore(turns: seq<nat>, k: nat, limit: nat, seen: seq<ReadEvent>, socket: nat -> Read,
                   more: seq<ReadEvent>, did: bool) returns (turns': seq<nat>)
    requires ReadIn(turns, k, seen, socket) && k < limit
    requires if did then |more| == 1 && (more[0].client <==> socket(k) == FromClient) else more == []
    ensures ReadIn(turns', k + 1, seen + more, socket) && ReadIn(turns', limit, seen + more, socket)
  {
    if did {
      ReadInAppend(turns, k, seen, socket, more[0]);
      assert more == [more[0]];
      turns' := turns + [k];
    } else {
      assert seen + more == seen;
      turns' := turns;
    }
  }

  lemma ReadInAppend(turns: seq<nat>, k: nat, seen: seq<ReadEvent>, socket: nat -> Read, e: ReadEvent)
    requires ReadIn(turns, k, seen, socket) && (e.client <==> socket(k) == FromClient)
    ensures ReadIn(turns + [k], k + 1, seen + [e], socket)
  {
  }
}
