# EzProxy: the concurrent core, proved

EzProxy is a man-in-the-middle proxy kernel. A `ProxySpawner` runs listeners; a
listener adds one `ProxyContainer` per client; a container forwards packets after
asking the spawner, which asks at most one filter and copies what passes to any
number of subscribers. A WebSocket can be that filter: the remote client then
decides about every packet. API keys guard the whole.

The hard part is what several goroutines do to this shared state. It is modelled in
two layers.

- **State machines.** `FilterProtocol`, `Spawner`, `Udp`, `Traffic`, `Pipeline`,
  `KeyRuns` and `FilteredTraffic` (packets and handshakes together) each have a state,
  actions and a step relation in which every lock region, channel rendezvous,
  whole-map access and filter-slot check is one atomic action. In particular the test
  of the unlocked key table and the store that follows it are two, and so are the slot
  check and the call of the filter; a subscriber can be cancelled during a fan-out. A theorem about a run holds for every finite interleaving of any number
  of goroutines. The filter's answers, the outcome of every write, timers, random
  draws and whatever a client sends are inputs that may take any value.
- **Objects.** `WebSocket.WsApi`, `SpawnerObject.ProxySpawner`, `UdpLoop.Listener`,
  `ProxyLoops.TcpProxy`, `ProxyLoops.UdpProxy` and `Keys.AuthLookup` carry the
  program's fields and loops. The methods of the first three are proved to make the
  machines' steps (a method that is one call with nobody in between is the sequence
  of steps it consists of), so the theorems about runs apply to them.

Main results: the exact number of unused verdicts in the filter handshake, and that
no answer is ever for another packet; the exact wait-group counter; ids that are
contiguous and never reused; at most one live UDP proxy; byte conservation modulo
2^64; per-direction order of forwarded data, exactly when the two addresses of a TCP
proxy differ; agreement between subscribers; a single owner of the filter slot; that
what a client decides about a packet is what happens to it; and key permissions that
only shrink down a line of minted keys, as long as no two adders race for one key.

Results that differ from what one might expect of the code:

- The pruner's pass over `rcChan` removes with swap-and-cut in ascending order. It
  panics exactly when the last dead index plus the number of dead exceeds the length
  (`SwapRemove.PruneKeepsExactlyLive`), so always when all of two or more are dead;
  `PruneScenario.PrunerCanPanic` is a run of the system that gets there. In descending order it would need no condition
  (`SwapRemove.DescendingPruneAlwaysWorks`).
- Once the pruner has started the wait group never reaches zero again, because the
  pruner's own `Add` has no `Done`; `Close` can then only time out
  (`SpawnerTheorems.WaitGroupExact`).
- `createNewPerms` alone does not keep a grant within the granter: a holder of
  `AuthCanDuplicateKeys` without `AuthCanMakeKeys` would grant the latter. The gate
  of the endpoint closes this (`Permissions.GrantWithinIff` gives the exact
  condition).
- Nothing locks the key table. Of two adders that both find a key free the second
  replaces the entry of the first, and a key minted in between keeps permissions that
  its minter no longer has (`KeyRace.TableCanChange`). The table only grows, whatever
  stores under way are still made, exactly if no `addKeyInt` found its key free while
  another was about to store another entry under it (`KeyRuns.EntriesStayIff`); then
  delegation holds too. What a request may grant is bounded in any case by what its gate
  and its look-up saw (`KeyRuns.GrantsWithinSeen`).
- A context can end between the check and what the check was for. A cancelled
  subscriber can still receive the one packet that was being fanned out
  (`FanOutOrder.CancelledGainsNothing`), and a filter whose WebSocket has closed can
  still be called by packets that had found it alive (`FilterSlot.ClosedAdmitsNone`);
  nothing more.
- If the client's and the server's remote address of a TCP proxy are the same, both
  read loops call their data clientbound and the order of that direction is lost
  (`Pipeline.SameAddressReorders`); with different addresses it never is
  (`Pipeline.TcpFifoIff`).
- A verdict can stay unused: a wake-up token can be taken by another waiter or be
  left with the blocked reader. `FilterTheorems.TokenAccounting` counts exactly how
  many; `FilterScenario.VerdictsCanBeLost` is a run in which both happen and two
  packets the client refused go through by default.
- The comment at `handler/errors.go:9` says three retries kill a proxy; the code
  stops at the fourth run. The comment at `api/auth.go:62-63` promises 401 for a
  malformed key; the code writes 400. A missing `AuthCanDuplicateKeys` is reported
  as `CanInject` (`api/endpoints.go:190-193`). The model follows the code.

## Model

| member | source | states |
|---|---|---|
| FilterTheorems.TokenAccounting | api/websocket.go:230-253 | in every reachable state the recorded verdicts not used by their packet number exactly the wake-ups taken by a waiter whose own entry was still Wait, plus those a waiter has taken and not looked at yet, plus one if the reader is blocked; so all verdicts are used iff these are zero |
| FilterTheorems.NoCrossTalk | api/websocket.go:217-254 | every call returns the verdict recorded for its own number, the default action, or true for an injected packet; without a recorded verdict only the default |
| FilterTheorems.InjectedNeverFiltered | api/websocket.go:201-205 | an injected number is never in filterMap, so no verdict names it, and its call returns true unless the write failed |
| FilterTheorems.NothingIsTakenBack | api/ws_client.go:111-127 | between any two states of a run entries are never removed, leave Wait at most once, answers are final, the frames written only grow |
| FilterTheorems.HandshakeRefines | api/websocket.go:217-254 | every step of the handshake is invisible or one step of a ledger in which each packet is offered, decided and answered at most once, with its own decision or the default |
| FilterTheorems.HandshakeRunRefines | api/websocket.go:217-254 | every run of the handshake is, state by state, a run of that ledger from the empty one |
| FilterScenario.VerdictsCanBeLost | api/websocket.go:230-253 | a concrete run with two recorded refusals, both unused: one token taken by the wrong waiter, one left with the blocked reader, both packets sent by default |
| FilterScenario.Refuse | api/ws_client.go:106-127 | from any state with an idle reader and nothing to read, a refusal of a waiting packet can be recorded and then leaves the reader at its token, everything else unchanged |
| FilterProtocol.TakeNumberKeeps | api/websocket.go:194-200 | the number handed out was never used before, and the invariant survives |
| FilterProtocol.AnnounceKeeps | api/websocket.go:201-205 | the insertion meets no earlier entry, and the invariant survives |
| FilterProtocol.RecordKeeps | api/ws_client.go:119-127 | the stored verdict is the first one for its packet, and the accounting gains exactly the blocked token |
| FilterProtocol.LookKeeps | api/websocket.go:240-251 | the look-up after a wake-up returns the packet's recorded verdict, or, if there is none, waits again and loses the token |
| FilterProtocol.StepPreserves | api/websocket.go:177-254 | the tables, answers and token accounting hold after any step of any goroutine |
| ConformingClient.AnnouncedBeforeWritten | api/websocket.go:194-207 | a written packet's number is in filterMap exactly if it is not injected, and no number is written twice |
| ConformingClient.ClientNeverRefused | examples/pws_py/ws.py:118-148 | a client that sends nothing but at most one reply per packet that is not injected never gets 404 or 410 and never stops on an error, in any interleaving with the server |
| ConformingClient.EveryPacketAnswered | examples/pws_py/ws.py:139-143 | of each packet that is not injected and that a client with a callback has read, the reply is on its way or recorded, once |
| WebSocket.SentKeeps | api/websocket.go:177-208 | a whole sendPkt keeps the invariant, uses a fresh number and leaves the call waiting, answered true or answered with the default |
| WebSocket.ElsewhereLeavesCall | api/websocket.go:217-254 | what other goroutines do never changes a call's own progress |
| WebSocket.LeadsKeepsInv | api/websocket.go:230-253 | any sequence of possible steps keeps the invariant of the handshake |
| WebSocket.WsApi.TakeNumber | api/websocket.go:196-200 | returns the counter and raises it by one: the machine's step |
| WebSocket.WsApi.Announce | api/websocket.go:201-205 | inserts Wait for a packet that is not injected and nothing otherwise: the machine's step |
| WebSocket.WsApi.SendPkt | api/websocket.go:177-208 | number, announcement and write, in this order |
| WebSocket.WsApi.Look | api/websocket.go:240-251 | decides exactly if the packet's entry is no longer Wait |
| WebSocket.WsApi.TakeToken | api/websocket.go:240-251 | the token is taken: the answer is the verdict recorded for this packet, or the call waits on, the reader is free and one more token is lost |
| WebSocket.TokenTaken | api/websocket.go:240-251 | that is what the two steps of the machine, rendezvous and look-up, come to |
| WebSocket.WsApi.Select | api/websocket.go:231-252 | which events end the call, with which answer, and the whole state after each event, as steps of the machine |
| WebSocket.WsApi.AwaitVerdict | api/websocket.go:230-253 | the answer is that of the first event that can end the call, and there is none exactly if no event can; an answer other than the default is the recorded verdict for this very packet |
| WebSocket.AnswerIsFirst | api/websocket.go:230-253 | the events one after the other give the first ending event's answer |
| WebSocket.WsApi.HandleRecvFilter | api/websocket.go:217-254 | default for a foreign network or a failed write, true for injected, otherwise the answer of the first event that ends the call, with no cross-talk |
| WebSocket.WsApi.HandleSend | api/websocket.go:256-262 | a socket without filter copies and says send; with one, injected packets that were written always go through, and others get the answer of the first ending event |
| WebSocket.WsApi.HandleFilterRequest | api/ws_client.go:106-127 | 403, 404, 410 or exactly one verdict stored: exact conditions and the whole new state |
| SpawnerTheorems.WaitGroupExact | handler/spawner.go:62-77 | the counter is pruner + running listeners + table size − connections inserted and not counted + a delete not paid yet; never negative, at least 1 once the pruner started |
| SpawnerTheorems.CloseCannotDrain | handler/spawner.go:271-284 | whatever values the counter takes after the pruner has started, none of them is the 0 Close waits for |
| SpawnerTheorems.IdsDistinct | handler/spawner.go:47-67 | ids of containers in the table or on their way into it are distinct and below currentId, and every entry of the table is the container made with its id |
| SpawnerTheorems.IdsContiguous | handler/spawner.go:48-61 | every id below currentId belongs to a container that was made: a failed maker consumes none |
| SpawnerTheorems.IdsNeverReused | handler/spawner.go:190-206 | an id names one container for ever and does not come back once pruned |
| SpawnerTheorems.OnlyDeadArePruned | handler/spawner.go:190-206 | a live container is in the table under its id, or its AddConnection has not stored it yet |
| SpawnerTheorems.NothingIsTakenBack | handler/spawner.go:42-68 | over any stretch of a run containers keep id, owner and first cause, and currentId only grows |
| SpawnerInvariant.ActionKeeps | handler/spawner.go:42-77 | ids, table, pruner, fate of containers and wait group hold after any action of listeners, pruner or cancellers |
| SpawnerInvariant.InsertedAreRunning | handler/spawner.go:62-66 | connections not counted yet are never more than running listeners, the reason the counter stays non-negative |
| SpawnerInvariant.MakeKeeps | handler/proxy.go:164-187 | a container made or refused by NewProxyContainer keeps the invariant |
| SpawnerInvariant.InsertKeeps | handler/spawner.go:62-65 | the insertion meets a free id and keeps the invariant |
| SpawnerInvariant.DeleteKeeps | handler/spawner.go:200-204 | between delete and Done the counter owes exactly one, and only a dead entry goes |
| SpawnerCalls.AddedKeeps | handler/spawner.go:42-68 | a whole AddConnection keeps the invariant |
| SpawnerCalls.AddedEffect | handler/spawner.go:42-68 | one new entry under the next id, which was free, and one more in the wait group; nothing at all on failure |
| SpawnerObject.ProxySpawner.AddConnection | handler/spawner.go:42-68 | the three steps of the machine in this order; one more container, entry and count with the next id, or a reported error and nothing else |
| SpawnerObject.ProxySpawner.GetProxy | handler/spawner.go:244-251 | finds exactly the ids in the table |
| SpawnerObject.ProxySpawner.CloseProxy | handler/spawner.go:288-297 | if it lives, the container of that id gets the graceful cause; nothing else changes |
| SpawnerObject.ProxySpawner.PruneConnections | handler/spawner.go:190-206 | a path of the machine from one sleep of the pruner to the next; exactly the live entries remain, unchanged, and the wait group drops by as many as the table |
| Udp.OneLiveUdpProxy | proxy/udp.go:151-202 | in every reachable state two live UDP containers are the same one, and none is live while the listener reads the socket or is outside its run |
| Udp.LookupKeeps | proxy/udp.go:153-168 | an id missing from the table means that its container is dead |
| Udp.MoveKeeps | proxy/udp.go:126-203 | every move of the listener and of anyone else keeps the invariant |
| Udp.MovesAreSpawnerSteps | proxy/udp.go:194-200 | the listener's moves are steps of the spawner machine or leave it alone |
| UdpLoop.Listener.CheckProxy | proxy/udp.go:153-175 | reads the table, then asks the container, with others in between, and reopens exactly if the id is not in the table or that container is dead when asked |
| UdpLoop.Listener.AddConnection | proxy/udp.go:194-200 | the calls into the spawner with others in between, as moves of the system; afterwards id is −1 or that of a container this very call has made |
| UdpLoop.Listener.AtHead | proxy/udp.go:151-175 | a dead context ends the loop, no proxy leads to the socket, a live one keeps it waiting, a gone or dead one leads to a new socket or, if that fails, out |
| UdpLoop.Listener.ReadNow | proxy/udp.go:176-201 | one more read is logged; one more proxy is made, with its id in id, exactly if the datagram is a client's, the spawner lives and the container can be made, and nothing happens to the spawner otherwise |
| UdpLoop.Listener.Turn | proxy/udp.go:151-202 | a turn reads at most once, in a state with no UDP proxy alive, and takes for a client's exactly what is |
| UdpLoop.Listener.Run | proxy/udp.go:126-203 | the whole loop is a sequence of moves of the system; no UDP proxy lives in a state in which it reads the socket, nor after the return; each read is taken for what it is; it never returns with its context alive; clients read = refused + failed + proxies made + one in hand |
| UdpLoop.ClientsAccounted | proxy/udp.go:176-201 | that account for any sequence of possible moves |
| UdpLoop.ReadsAreQuiet | proxy/udp.go:176-180 | the same for the reads in any sequence of possible moves, the loop's or not |
| Listeners.RetryMachine | handler/spawner.go:70-109 | for any outcomes at most 4 runs, all but the last a retry, at most one error reported, and on return the spawner is dead or the last cause graceful |
| Listeners.FirstCauseKept | handler/spawner.go:82-106 | a cause the spawner had before a run is its cause in the end |
| Listeners.SiblingInherits | handler/spawner.go:80-107 | a listener whose spawner died of retries still makes 4 runs in all; with any other cause it stops at once |
| Listeners.UndisturbedExact | handler/spawner.go:82-107 | with nobody else at work, the spawner survives exactly a graceful end, and otherwise dies of the last run's own cause, or of the missing cancellation; what is reported, case by case |
| Listeners.DisturbedExact | handler/spawner.go:82-107 | with others at work, whoever killed the spawner first wins, else as above |
| Listeners.MaxRetriesSpread | handler/spawner.go:87-94 | four retries leave the spawner dead of a retry, the cause that its other listeners inherit |
| Listeners.FirstEventDecides | handler/spawner.go:80-86 | a listener's cause is that of the first event, its own cancellation or the spawner's |
| Listeners.FirstElsewhereKills | handler/spawner.go:80-86 | the spawner dies of the first cancellation aimed at it |
| Listeners.RunsFromExact | handler/spawner.go:87-98 | the run count is the first run not retried, capped |
| Contexts.FirstCauseWins | handler/spawner.go:79-86 | any number of cancellations leave the first cause |
| SpawnerObject.ProxySpawner.AddListener | handler/spawner.go:70-109 | runs, last cause, spawner context, reported errors and wait group are those of the retry machine |
| SwapRemove.AscendingInBounds | handler/spawner.go:215-220 | the pass stays in bounds iff the last dead index plus the number of dead is at most the length |
| SwapRemove.AscendingKeepsLive | handler/spawner.go:215-220 | a pass in bounds removes exactly the listed elements as a multiset |
| SwapRemove.PruneKeepsExactlyLive | handler/spawner.go:207-221 | with subscribers appended between scan and removal the pass panics exactly under that condition, else exactly the live and the new ones remain |
| Sequences.KeepExact | handler/spawner.go:207-213 | the live ones are an in-order part of all, with every copy of each live one and none of any other |
| SwapRemove.DescendingPruneAlwaysWorks | handler/spawner.go:207-221 | the same removals from the last index down always leave exactly those |
| PruneScenario.AllDeadPanics | handler/spawner.go:207-221 | in any state with two or more subscribers, all dead, the scan is followed by a panic |
| PruneScenario.PrunerCanPanic | handler/spawner.go:207-221 | a run from the start that reaches such a state and such a scan |
| SpawnerObject.ProxySpawner.ScanRecvChans | handler/spawner.go:208-213 | returns exactly the indexes of the cancelled subscribers in ascending order |
| SpawnerObject.ProxySpawner.RemoveRecvChans | handler/spawner.go:214-221 | succeeds iff the specified pass does, with its result |
| ByteCounters.BytesConserved | handler/spawner.go:126-128 | in every reachable state, mod 2^64, totalSent is the sum of all containers' bytesSent plus refused, failed and in-flight bytes, and each container counts exactly what was delivered through it |
| ByteCounters.Conserved | handler/proxy.go:39-57 | the two-layer invariant implies the balance |
| ByteCounters.Partition | handler/proxy.go:39-62 | every byte is delivered, refused, failed or in flight, and only one of these |
| ByteCounters.ActionKeeps | handler/proxy.go:71-85 | every action keeps both layers of counters |
| FilterSlot.SlotShape | handler/spawner.go:299-314 | the three fields are all nil or all set by one registration, and no packet consults twice |
| FilterSlot.CheckAdmits | handler/spawner.go:129-137 | the slot check admits a packet to the live filter, or to none and leaves the slot empty |
| FilterSlot.EachPacketAsksOwner | handler/spawner.go:129-144 | over any stretch of a run, while the owner of the slot lives every packet that comes to its check asks exactly that filter |
| FilterSlot.InjectedAlwaysPass | handler/spawner.go:138-143 | an injected packet is never refused; any refusal is the answer of the filter consulted |
| FilterSlot.SingleOwner | handler/spawner.go:129-144 | over any stretch of a run a filter keeps the slot while its context lives, and a dead one is called only by packets that found it alive before |
| FilterSlot.ClosedAdmitsNone | handler/spawner.go:129-138 | once the context of a filter is dead no packet is admitted to it any more, and only those admitted before still call it |
| FanOutOrder.LogsFollowSent | handler/spawner.go:148-161 | each subscriber's log is a subsequence of the packets let through, which are listed once each, so a refused packet reaches nobody |
| FanOutOrder.SubscribersAgree | handler/spawner.go:148-161 | two subscribers see any two common packets in the same order |
| FanOutOrder.FanOutExact | handler/spawner.go:149-160 | a packet goes to exactly the members that are ready and were found alive, once, at the end of their logs |
| FanOutOrder.LogIsSentSince | handler/spawner.go:149-160 | over any run, the log of a subscriber that stays alive and is ready at every fan-out is exactly the part of the packets let through since it subscribed |
| FanOutOrder.ReadyMemberGetsAll | handler/spawner.go:149-160 | the same from any moment at which it is a live member |
| FanOutOrder.CancelledGainsNothing | handler/spawner.go:149-160 | a cancelled subscriber's log never changes again, but for the one packet that was being fanned out when it was cancelled |
| FanOutOrder.PruneLosesNoLive | handler/spawner.go:207-221 | in the running system a pass in bounds removes a subscriber exactly if the scan listed it, and never a live one |
| FanOutOrder.PrunePanicsExactly | handler/spawner.go:214-221 | in the running system the pass panics exactly under the index condition |
| SpawnerObject.ProxySpawner.TrySetFilterCallback | handler/spawner.go:299-314 | succeeds exactly if no live filter holds the slot, and then owns it |
| SpawnerObject.ProxySpawner.GetRecvChan | handler/spawner.go:366-377 | appends a live subscriber with an empty log to the subscribers and to rcChan |
| SpawnerObject.ProxySpawner.CheckSlot | handler/spawner.go:129-137 | admits to exactly a live filter, frees a dead one |
| SpawnerObject.ProxySpawner.Judge | handler/spawner.go:129-144 | passes exactly if injected, unfiltered or allowed |
| SpawnerObject.ProxySpawner.Publish | handler/spawner.go:149-161 | the log of each member that is alive and ready gains the packet, every other stays |
| SpawnerObject.ProxySpawner.HandleSend | handler/spawner.go:113-162 | the result, the counters, the slot, who gets the packet and what becomes of it, said without the steps |
| Forwarding.HandledExact | handler/spawner.go:113-162 | the steps of the machine in HandleSend come to that |
| Forwarding.ForwardedExact | handler/proxy.go:39-57 | HandleSend, write and statistics: refused, delivered or failed, and the container's bytes count exactly if delivered |
| Forwarding.OutcomeAdd | handler/proxy.go:28-63 | one packet more adds its own fate, its bytes, its place in the logs and nothing else |
| Forwarding.ForwardedSteps | handler/proxy.go:39-57 | it is a path of the machine |
| SpawnerObject.ProxySpawner.HandlePacket | handler/proxy.go:27-64 | the loop ends with the first Done after the container died, or not; each packet before that has its own size, direction and fate (held back iff a live filter says so, else delivered or failed), the bytes, logs, writes by side and errors add up, and no other container is touched |
| SpawnerObject.ProxySpawner.Inject | handler/proxy.go:67-110 | a dead container's cause and no effect, or one injected packet that is written to its side whatever the filter says, with the error returned and reported |
| SpawnerObject.ProxySpawner.SendToAll | handler/spawner.go:329-360 | one injected packet for each live container in the order visited, each with its own fate, bytes, log entries, write and error, and the first error as the result |
| SpawnerObject.ToAllExact | handler/spawner.go:334-341 | each live container has its packet in its place, with what it carries, and nobody else has one |
| SpawnerObject.ProxySpawner.Close | handler/spawner.go:265-285 | every member of rcChan and every live container is cancelled, the containers with the spawner's cause, earlier causes stay, success exactly if the counter is 0 at some time during the wait |
| SpawnerCalls.StepsKeep | handler/proxy.go:27-110 | whatever these methods do, the balance of bytes, the slot and the logs stay right |
| SpawnerCalls.LiveContainerTakesAll | handler/proxy.go:28-39 | while its container lives the loop deals with all arrivals and forwards each packet among them |
| SpawnerCalls.JobsInOrder | handler/proxy.go:32-48 | in the order they arrive, each with its size, direction, filter answer, ready subscribers and write result |
| SpawnerCalls.InjectedGoesThrough | handler/proxy.go:71-75 | the "don't send" branches of SendToClient and SendToServer are never taken |
| SpawnerCalls.RefusedExactly | handler/spawner.go:129-144 | a packet is refused iff it is not injected and a live filter says no; its bytes count anyway |
| Pipeline.ProducerFifo | handler/proxy.go:27-63 | what one read loop read is written in order, and if nothing was refused or failed all of it, up to the chunk held and the chunk blocked at the channel, counted exactly |
| Pipeline.DirectionFifo | handler/proxy.go:27-63 | in a run whose loops are set up so that one alone reads a direction, the chunks forwarded in it are a subsequence of those read by all loops, and a clean run misses at most two at the end |
| Pipeline.TcpFifo | proxy/tcp.go:25-62 | so it is for both directions of every run of a TCP proxy whose two remote addresses differ |
| Pipeline.TcpFifoIff | proxy/tcp.go:26-35 | all runs of a TCP proxy keep the order of both directions if and only if its two remote addresses differ |
| Pipeline.SameAddressReorders | proxy/tcp.go:26-35 | the failing run for equal addresses: a is read before b, b is written before a |
| Pipeline.UdpFifo | proxy/udp.go:25-64 | and for both directions of every run of a UDP proxy |
| ProxyLoops.TcpProxy.Listen | proxy/tcp.go:25-62 | pushes exactly the data read, in order, in the direction of its connection, and stops exactly when its context dies, with the right cause |
| ProxyLoops.UdpProxy.Listen | proxy/udp.go:25-64 | the first packet goes to the server, datagrams by sender to server, client or nowhere, in order, until the context dies |
| ProxyLoops.OneDirectionPerLoop | proxy/tcp.go:26-35 | a TCP loop feeds one direction only |
| ProxyLoops.TcpLength | proxy/tcp.go:36-61 | a loop pushes as many chunks as it read data, after those before |
| ProxyLoops.TcpPushesAll | proxy/tcp.go:36-61 | every data read is pushed once, in its place, with its bytes |
| ProxyLoops.UdpLength | proxy/udp.go:33-63 | a loop pushes as many chunks as there were datagrams of the client or the server |
| ProxyLoops.UdpPushesAll | proxy/udp.go:33-63 | every datagram of the client or the server is pushed once, in its place, with its bytes, toward the other side |
| ProxyLoops.BothDirections | proxy/udp.go:49-60 | a UDP loop marks serverbound only what came from the client and clientbound only what came from the server |
| ProxyLoops.LoopEndsInRetry | proxy/tcp.go:36-53 | a TCP loop nobody disturbs ends with the retry cause exactly if its last read was an end of file, and ends on nothing but that or a failed read |
| ProxyLoops.AfterExact | proxy/tcp.go:40-53 | the cause a turn leaves: whoever cancels first, else the retry for an end of file (TCP), else the read error |
| Permissions.CreationExact | api/endpoints.go:147-195 | for all 64-bit inputs: succeeds iff the known bits other than MakeKeys are held and MakeKeys is asked only with DuplicateKeys held, with the known bits asked for as the result |
| Permissions.RefusedNames | api/endpoints.go:163-193 | a refusal names the first missing permission, DuplicateKeys under the name of CanInject |
| Permissions.CreationDelegates | api/endpoints.go:161-195 | a minter's grant is within its own permissions, and without DuplicateKeys the new key cannot mint |
| Permissions.GrantWithinIff | api/endpoints.go:183-189 | without the gate the grant stays within the granter iff MakeKeys is not asked for or held; concrete exceeding grant |
| Permissions.GrantableExact | api/endpoints.go:228-239 | what a request must satisfy to get a key, and the permissions that key gets |
| Keys.MemberWithin | api/auth.go:133-136 | a key made from a list has every permission of the list |
| Keys.OrAllIsLeast | api/auth.go:133-136 | and no other |
| Keys.AuthLookup.AddKeyInt | api/auth.go:141-149 | adds exactly if the key is free, never overwrites |
| Keys.AuthLookup.AddKey | api/auth.go:128-138 | the same with the union of the listed permissions |
| Keys.AuthLookup.NewKeyInt | api/auth.go:80-96 | the first fresh draw within 1000 is added and returned; otherwise a panic that changes nothing |
| Keys.AuthLookup.GetAuthValues | api/auth.go:44-76 | finds exactly the keys in the table, with the status of every failure |
| Keys.AuthLookup.CheckRequest | api/auth.go:100-125 | passes iff the key is known and holds every required permission |
| Keys.AuthLookup.EpGetKey | api/endpoints.go:203-246 | one call with nobody in between: exact conditions of every status and of a new key, and the only change to the table |
| Keys.WebApi.NewKeyEndpoint | api/endpoints.go:13-29 | behind the gate a key is minted only if grantable, with exactly the granted permissions, and a known key is never answered 401 |
| KeyRuns.DelegationHolds | api/endpoints.go:203-240 | in any interleaving permissions shrink down any line of minted keys whose minters' entries have not changed, every minter on it can mint, and below a key without DuplicateKeys there is one generation at most |
| KeyRuns.LineageHolds | api/endpoints.go:203-240 | the same for the whole table while no two adders were in conflict |
| KeyRuns.GrantsWithinSeen | api/endpoints.go:22-27 | in any interleaving a minted key has no more than its minter was seen to hold at the gate or the look-up |
| KeyRuns.EntriesStayIff | api/auth.go:128-149 | whatever stores under way are still made, no entry of the run is ever replaced by another iff no addKeyInt found its key free while another was about to store another entry under it |
| KeyRace.RacingRoots | api/auth.go:128-149 | for any two root permissions that race for one key and any request in between: the run, and the line of keys is in order iff the second permissions would have granted the request |
| KeyRace.TableCanChange | api/auth.go:140-149 | a concrete run in which an entry changes and a minted key exceeds its minter |
| KeyRuns.GateNeverContradicted | api/endpoints.go:220-225 | after the gate the handler's own look-up succeeds in any interleaving, for newkey, socket and keyinfo alike |
| KeyRuns.TableOnlyGrows | api/auth.go:140-149 | keys are never removed, and without two adders in conflict no permissions and no minter ever change |
| KeyRuns.ActionKeeps | api/auth.go:64-149 | any interleaving of gates, look-ups, tests and stores keeps the lineage, the pending requests and the race bookkeeping consistent |
| FilteredTraffic.VerdictIsObeyed | handler/spawner.go:137-143 | in any run of packets and handshakes together, a packet whose call left with a recorded drop is refused, in no subscriber's log and never written, and one with a recorded allow is not refused |
| FilteredTraffic.RefusedByItsVerdict | api/websocket.go:217-254 | a packet is refused only by the drop verdict on its own number, or if its WebSocket drops by default |
| FilteredTraffic.NumbersApart | api/websocket.go:194-200 | two packets in the same WebSocket never share a number |
| FilteredTraffic.MoveKeeps | handler/spawner.go:129-144 | every move of packets, sockets, readers and clients keeps the two machines in step |
| SocketSetup.Open | api/websocket.go:264-387 | which requests get a socket, with what, the status of each failure, and that no exit leaves a live filter or subscription behind |
| SocketSetup.SlotFreeAfterClose | api/websocket.go:285 | after a filtering socket closed, the next one takes the slot and the old registration is released |

## Left out

- Sockets, deadlines, dialling, address resolution, HTTP, WebSocket framing, JSON and base64: their results are inputs.
- The inject and close branches of `handleClientAction` (`api/ws_client.go:34-105`): they only check a flag and call methods modelled here.
- The accept loop of `TcpListener`: a thin caller of `AddConnection`.
- Liveness and wall-clock time: timers may fire at any step, promptness and eventual delivery are not claimed, `lastContactTime` is not modelled.
- Data races below the actions: the filter slot (its check is one step and reads the callback the packet then calls), `filterMap` and the reads of `rcChan` in `pruner` and `Close` are not locked by the code and are taken as atomic, as is each single access to the map `auth.keys` (several accesses are several actions, but Go may also abort a program that writes a map concurrently), and cancelling a context reaches its descendants in one step; `Close` is called once and does not race with a send on a channel it closes.
- Addresses and flags that `HandleSend` passes on with a packet (`handler/spawner.go:114-125`): a packet is its size, its direction and whether it is injected.
- Heap identity: containers, registrations and subscribers are indexes into sequences; error values are the set of sentinels they wrap and a number for their text.
- FilterTheorems.TokenAccounting: has one term more than a two-term count would, for waiters between the rendezvous and the look-up, which are two steps here.
- UdpLoop.Listener.Run: follows a schedule of finitely many turns; a schedule that asks for the table while the pruner holds it retries in the next turn or ends there. The machine `Udp` has no such bound.
- SocketSetup.Open: is one uninterrupted call; its second look-up failing is not a branch here because `KeyRuns.GateNeverContradicted` excludes it for the socket endpoint.
- ConformingClient.ClientNeverRefused: the client modelled sends filter replies only; one that also injects into or closes a proxy that was pruned meanwhile is told 404 for that and stops (`api/ws_client.go:72-76`, `api/ws_client.go:98-102`).
- KeyRuns.DelegationHolds: one way only for a line with a minter whose entry changed; whether such a line is in order depends on the permissions stored last, as `KeyRace.RacingRoots` spells out for one minter and one child.
- FilteredTraffic.VerdictIsObeyed: every filter is a WebSocket; a filter set from Lua is any callback to `Traffic`.
- ByteCounters.BytesConserved: sizes are natural numbers; the conversion of a Go `int` length is not modelled.
- Lua bindings, mocks, integration programs, example scripts other than the client loop, home page, documentation table, configuration, logging: nothing to prove beyond what is here.
