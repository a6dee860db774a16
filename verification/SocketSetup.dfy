/** newWebSocket up to the point where the WebSocket is open, and the clean-up of
    every exit. */
module SocketSetup {
  import opened Base
  import opened Permissions
  import T = Traffic
  import F = FilterSlot
  import opened SpawnerObject

  const STATUS_SWITCHED := 101
  const STATUS_BAD_REQUEST := 400
  const STATUS_FORBIDDEN := 403
  const STATUS_CONFLICT := 409

  /** The query of the request; None where a parameter is absent. */
  datatype Query = Query(close: bool, inject: bool, filter: bool, default: Option<string>, network: string)

  /** What the opened socket may do, and what it holds on the spawner. */
  datatype Socket = Socket(
    canClose: bool, canInject: bool, canFilter: bool, defaultAllow: bool, networkFilter: string,
    registration: Option<nat>, subscription: Option<nat>)

  predicate GoodDefault(q: Query) {
    q.default.None? || q.default.value == "drop" || q.default.value == "allow"
  }

  predicate GoodNetwork(q: Query) { q.network == "" || q.network == "tcp" || q.network == "udp" }

  /** What a key with permissions `val` may ask for. */
  predicate Permitted(val: Perms, q: Query) {
    && (q.close ==> CheckPermission(val, CAN_CLOSE))
    && (q.inject ==> CheckPermission(val, CAN_INJECT))
    && (q.filter ==> CheckPermission(val, CAN_FILTER))
  }

  /** A live filter registration or live subscription that was not there before. */
  ghost predicate Leaks(before: T.State, after: T.State) {
    || (exists r :: |before.regs| <= r < |after.regs| && after.regs[r])
    || (exists k :: |before.subs| <= k < |after.subs| && after.subs[k].alive)
  }

  /** `val` are the key's permissions, all of them without authentication; `alive` is
      the API's context; `accepted` tells whether the upgrade succeeded. */
  method Open(spawner: ProxySpawner, val: Perms, q: Query, alive: bool, accepted: bool)
    returns (status: int, socket: Option<Socket>)
    requires spawner.FlowOk()
    modifies spawner
    ensures spawner.FlowOk()
    ensures socket.Some? <==> status == STATUS_SWITCHED
    // exactly the requests that deserve a socket get one
    ensures socket.Some? <==>
              && Permitted(val, q) && (q.filter ==> GoodDefault(q)) && GoodNetwork(q) && accepted
              && (q.filter ==> !T.SlotLive(old(spawner.Flow())))
    ensures status == STATUS_FORBIDDEN <==> !Permitted(val, q)
    ensures status == STATUS_BAD_REQUEST <==>
              && Permitted(val, q)
              && if q.filter && !GoodDefault(q) then true
                 else !GoodNetwork(q) && (q.filter ==> !T.SlotLive(old(spawner.Flow())))
    ensures status == STATUS_CONFLICT <==>
              Permitted(val, q) && q.filter && GoodDefault(q) && T.SlotLive(old(spawner.Flow()))
    ensures socket.Some? ==>
              && socket.value.canClose == q.close && socket.value.canInject == q.inject
              && socket.value.canFilter == q.filter && socket.value.networkFilter == q.network
              && socket.value.defaultAllow == !(q.filter && q.default == Some("drop"))
    // a filtering socket owns the slot, any other has one subscription
    ensures socket.Some? && q.filter ==>
              && socket.value.registration == spawner.sendCallback == Some(|old(spawner.regs)|)
              && spawner.Flow() == T.DoTrySetFilter(old(spawner.Flow()), alive)
    ensures socket.Some? && !q.filter ==>
              && socket.value.subscription == Some(|old(spawner.subs)|)
              && spawner.Flow() == T.DoSubscribe(old(spawner.Flow()), alive)
    // an exit without a socket leaves no live filter and no live subscription behind
    ensures socket.None? ==> !Leaks(old(spawner.Flow()), spawner.Flow())
    ensures socket.None? && !T.SlotLive(old(spawner.Flow())) ==> !T.SlotLive(spawner.Flow())
    ensures T.SlotLive(old(spawner.Flow())) ==> spawner.sendCallback == old(spawner.sendCallback)
  {
    socket := None;
    if q.close && !CheckPermission(val, CAN_CLOSE) {
      return STATUS_FORBIDDEN, None;
    }
    if q.inject && !CheckPermission(val, CAN_INJECT) {
      return STATUS_FORBIDDEN, None;
    }
    var defaultAllow := true;
    if q.filter {
      if !CheckPermission(val, CAN_FILTER) {
        return STATUS_FORBIDDEN, None;
      }
      if q.default.Some? {
        if q.default.value == "drop" {
          defaultAllow := false;
        } else if q.default.value != "allow" {
          return STATUS_BAD_REQUEST, None;
        }
      }
      var set_ := spawner.TrySetFilterCallback(alive);
      if !set_ {
        return STATUS_CONFLICT, None;
      }
      var r := |spawner.regs| - 1;
      status := Upgrade(q, accepted);
      if status != STATUS_SWITCHED {
        CloseFilter(spawner, r);
        return;
      }
      socket := Some(Socket(q.close, q.inject, true, defaultAllow, q.network, Some(r), None));
    } else {
      var k := spawner.GetRecvChan(alive);
      status := Upgrade(q, accepted);
      if status != STATUS_SWITCHED {
        CloseSubscription(spawner, k);
        return;
      }
      socket := Some(Socket(q.close, q.inject, false, defaultAllow, q.network, None, Some(k)));
    }
  }

  /** The checks made after the spawner has been told about the socket. */
  method Upgrade(q: Query, accepted: bool) returns (status: int)
    ensures status == if !GoodNetwork(q) then STATUS_BAD_REQUEST else if accepted then STATUS_SWITCHED else 0
  {
    if q.network != "" && q.network != "tcp" && q.network != "udp" {
      return STATUS_BAD_REQUEST;
    }
    status := if accepted then STATUS_SWITCHED else 0;
  }

  /** The deferred Close of a filtering socket: its context ends. */
  method CloseFilter(spawner: ProxySpawner, r: nat)
    requires spawner.FlowOk() && r < |spawner.regs|
    modifies spawner`regs
    ensures spawner.FlowOk() && spawner.regs == old(spawner.regs)[r := false]
  {
    spawner.regs := spawner.regs[r := false];
  }

  /** The deferred Close of any other socket: its subscription ends. */
  method CloseSubscription(spawner: ProxySpawner, k: nat)
    requires spawner.FlowOk() && k < |spawner.subs|
    modifies spawner`subs
    ensures spawner.FlowOk()
    ensures spawner.subs == old(spawner.subs)[k := old(spawner.subs)[k].(alive := false)]
  {
    spawner.subs := spawner.subs[k := spawner.subs[k].(alive := false)];
  }

  /** Once a filtering socket has closed, the next one can have the slot, and a packet
      that comes first frees it and passes unasked. */
  lemma SlotFreeAfterClose(s: T.State, alive: bool)
    requires F.SlotInv(s) && s.slot.callback.Some?
    ensures var r := s.slot.callback.value;
            var t := s.(regs := s.regs[r := false]);
            && F.SlotInv(t) && !T.SlotLive(t)
            && T.DoTrySetFilter(t, alive).slot == T.Slot(Some(|s.regs|), Some(|s.regs|), Some(|s.regs|))
            && r in T.DoTrySetFilter(t, alive).released
  {
    F.EndContextKeeps(s, s.slot.callback.value);
  }
}
