/** What whole calls of the spawner's methods keep and achieve. */
module SpawnerCalls {
  import opened Base
  import opened Runs
  import opened Forwarding
  import opened SpawnerObject
  import S = Spawner
  import SI = SpawnerInvariant
  import T = Traffic
  import B = ByteCounters
  import F = FilterSlot
  import O = FanOutOrder

  /** Everything the three views of the traffic keep. */
  ghost predicate AllInv(s: T.State) {
    B.BytesInv(s) && F.SlotInv(s) && O.FanInv(s)
  }

  lemma StepKeeps(s: T.State, a: T.Action)
    requires AllInv(s) && T.Enabled(s, a)
    ensures AllInv(T.Apply(s, a))
  {
    B.ActionKeeps(s, a);
    F.ActionKeeps(s, a);
    O.ActionKeeps(s, a);
  }

  /** Whatever the methods do, handlePacket, SendToClient, SendToAllClients and their
      like included: the counters balance, the slot stays well formed and every
      subscriber's log follows the packets sent. */
  lemma StepsKeep(s: T.State, t: T.State)
    requires AllInv(s) && Steps(s, t)
    ensures AllInv(t)
  {
    var path: seq<T.State> :| IsPath(T.Next, path) && path[0] == s && path[|path| - 1] == t;
    PathKeeps(path, |path| - 1);
  }

  lemma {:induction false} PathKeeps(path: seq<T.State>, i: nat)
    requires IsPath(T.Next, path) && i < |path| && AllInv(path[0])
    ensures AllInv(path[i])
  {
    if i > 0 {
      PathKeeps(path, i - 1);
      assert StepAt(T.Next, path, i);
      var a :| T.Enabled(path[i - 1], a) && path[i] == T.Apply(path[i - 1], a);
      StepKeeps(path[i - 1], a);
    }
  }

  function PacketsIn(arrivals: seq<Arrival>): nat {
    if arrivals == [] then 0 else PacketsIn(arrivals[..|arrivals| - 1]) + Count(arrivals[|arrivals| - 1].Packet?)
  }

  /** Nothing that arrives while the container lives is left: the loop deals with all
      arrivals, and each packet among them is one that it forwards. */
  lemma LiveContainerTakesAll(c: nat, arrivals: seq<Arrival>, taken: nat)
    requires EndsWith(true, arrivals, taken) && forall i :: 0 <= i < |arrivals| ==> !arrivals[i].Dies?
    ensures taken == |arrivals| && |JobsOf(c, arrivals[..taken])| == PacketsIn(arrivals)
  {
    assert taken == |arrivals| by {
      if taken < |arrivals| { assert LivesAt(true, arrivals, taken); }
    }
    assert arrivals[..taken] == arrivals;
    JobsCount(c, arrivals);
  }

  lemma {:induction false} JobsCount(c: nat, arrivals: seq<Arrival>)
    ensures |JobsOf(c, arrivals)| == PacketsIn(arrivals)
  {
    if arrivals != [] { JobsCount(c, arrivals[..|arrivals| - 1]); }
  }

  /** The packets are forwarded in the order they arrive, each with what it carries. */
  lemma {:induction false} JobsInOrder(c: nat, arrivals: seq<Arrival>, i: nat)
    requires i < |arrivals| && arrivals[i].Packet?
    ensures PacketsIn(arrivals[..i]) < |JobsOf(c, arrivals)|
    ensures var p := JobsOf(c, arrivals)[PacketsIn(arrivals[..i])].parcel;
            && p.size == arrivals[i].size && p.serverbound == arrivals[i].serverbound
            && p.allow == arrivals[i].allow && p.ready == arrivals[i].ready && p.failure == arrivals[i].failure
  {
    var n := |arrivals| - 1;
    if i < n {
      JobsInOrder(c, arrivals[..n], i);
      assert arrivals[..n][..i] == arrivals[..i];
    } else {
      JobsCount(c, arrivals[..n]);
    }
  }

  /** Injected data is never held back by a filter: SendToClient and SendToServer
      never take their "don't send" branch. */
  lemma InjectedGoesThrough(s: T.State, c: nat, p: Parcel)
    requires Idle(s) && c < |s.bytesSent| && p.injected
    ensures Handled(s, c, p).ops[|s.ops|].phase.Passed?
    ensures Handled(s, c, p).sent == s.sent + [|s.ops|]
  {
    HandledExact(s, c, p);
  }

  /** A packet is held back exactly when it is not injected and a live filter says so. */
  lemma RefusedExactly(s: T.State, c: nat, p: Parcel)
    requires Idle(s)
    ensures Handled(s, c, p).ops[|s.ops|].phase.Refused? <==> !p.injected && !p.allow && T.SlotLive(s)
    ensures Handled(s, c, p).totalSent == T.Wrapped(s.totalSent + p.size)
  {
    HandledExact(s, c, p);
  }

  /** AddConnection as one call keeps the invariant of the table. */
  lemma AddedKeeps(s: S.State, l: nat, ok: bool)
    requires SI.Inv(s) && l < |s.listeners| && s.listeners[l] == S.Running(S.Nothing)
    requires !S.Locked(s.pruner)
    ensures SI.Inv(Added(s, l, ok))
  {
    if s.context.None? {
      var v := S.DoVet(s, l);
      assert SI.Inv(v) by { SI.VetKeeps(s, l); }
      var m := S.DoMake(v, l, ok);
      assert SI.Inv(m) by { SI.MakeKeeps(v, l, ok); }
      if ok {
        var n := S.DoInsert(m, l);
        assert SI.Inv(n) by { SI.InsertKeeps(m, l); }
        assert SI.Inv(S.DoCount(n, l)) by { SI.CountKeeps(n, l); }
      }
    }
  }

  /** It adds exactly one entry, under the next id and a free key, when it succeeds,
      and leaves ids, table and wait group alone when it does not. */
  lemma AddedEffect(s: S.State, l: nat, ok: bool)
    requires SI.IdsInv(s) && SI.TableInv(s) && l < |s.listeners| && s.listeners[l] == S.Running(S.Nothing)
    ensures Added(s, l, ok).listeners == s.listeners
    ensures s.context.None? && ok ==>
              && s.currentId !in s.connections
              && Added(s, l, ok).connections == s.connections[s.currentId := |s.created|]
              && Added(s, l, ok).currentId == s.currentId + 1 && Added(s, l, ok).wg == s.wg + 1
    ensures s.context.Some? || !ok ==>
              Added(s, l, ok).connections == s.connections && Added(s, l, ok).currentId == s.currentId
              && Added(s, l, ok).wg == s.wg
  {
    if s.currentId in s.connections { SI.FreshId(s, s.currentId); }
  }
}
