/** API keys over every run of interleaved requests and AddAuth calls.

    The key table has no lock and requests are served concurrently, so every access
    to it is one action: the gate's look-up in addEndpoint, the handler's own look-up
    in getAuthValues, the test in addKey, the test in addKeyInt and the store that
    follows it. */
module KeyRuns {
  import opened Base
  import opened Runs
  import opened Permissions
  import opened Keys

  /** How a key came to be: by AddAuth, or minted by a request with key `minter`, whose
      permissions were `atGate` at the gate and `atLookup` at the second look-up. */
  datatype Origin = Root | Minted(minter: Key, atGate: Perms, atLookup: Perms)

  datatype Entry = Entry(perms: Perms, origin: Origin)

  /** The endpoints whose handlers look the key up again. */
  datatype Endpoint = NewKey | Socket | KeyInfo

  /** The permissions named where the endpoint is registered. */
  function RequiredBy(e: Endpoint): seq<Perms> {
    match e
    case NewKey => [CAN_MAKE_KEYS]
    case Socket => [CAN_USE_WEBSOCKET]
    case KeyInfo => []
  }

  predicate Admits(e: Endpoint, perms: Perms) {
    forall i | 0 <= i < |RequiredBy(e)| :: CheckPermission(perms, RequiredBy(e)[i])
  }

  /** Where a request or a call of AddAuth stands. */
  datatype Task =
    | Passed(endpoint: Endpoint, key: Key, atGate: Perms)   // past the gate
    | Testing(goal: Option<Key>, entry: Entry)              // before addKeyInt's test; None: draws a key
    | Storing(key: Key, entry: Entry)                       // found the key free, has not stored it yet
    | Finished

  /** `crossed` is set if a handler's look-up fails after its gate passed; `conflicted`
      if addKeyInt's test passes while someone else is about to store another entry
      under the same key; `changed` holds the keys whose entry was replaced by another. */
  datatype State = State(
    keys: map<Key, Entry>,
    tasks: map<nat, Task>,
    crossed: bool,
    conflicted: bool,
    changed: set<Key>)

  datatype Action =
    | AddAuth(id: nat, key: Key, perms: seq<Perms>)
    | Gate(id: nat, endpoint: Endpoint, key: Key)
    | LookUp(id: nat, desired: Perms)
    | Test(id: nat, draw: Key)
    | GiveUp(id: nat)   // the random generator fails, or a thousand draws were taken
    | Store(id: nat)

  ghost predicate Init(s: State) { s == State(map[], map[], false, false, {}) }

  predicate IsTesting(s: State, id: nat) { id in s.tasks && s.tasks[id].Testing? }
  predicate IsStoring(s: State, id: nat) { id in s.tasks && s.tasks[id].Storing? }

  predicate Enabled(s: State, a: Action) {
    match a
    case AddAuth(id, _, _) => id !in s.tasks
    case Gate(id, _, _) => id !in s.tasks
    case LookUp(id, _) => id in s.tasks && s.tasks[id].Passed?
    case Test(id, draw) =>
      IsTesting(s, id) && (if s.tasks[id].goal.Some? then draw == s.tasks[id].goal.value else draw < DRAW_LIMIT)
    case GiveUp(id) => IsTesting(s, id) && s.tasks[id].goal.None?
    case Store(id) => IsStoring(s, id)
  }

  function SetTask(s: State, id: nat, t: Task): State { s.(tasks := s.tasks[id := t]) }

  /** The first test of addKey. */
  function DoAddAuth(s: State, id: nat, key: Key, perms: seq<Perms>): State {
    SetTask(s, id, if key in s.keys then Finished else Testing(Some(key), Entry(OrAll(perms), Root)))
  }

  function DoGate(s: State, id: nat, e: Endpoint, key: Key): State {
    SetTask(s, id, if key in s.keys && Admits(e, s.keys[key].perms) then Passed(e, key, s.keys[key].perms)
                   else Finished)
  }

  /** getAuthValues in the handler, and for a new key createNewPerms. */
  function DoLookUp(s: State, id: nat, desired: Perms): State
    requires Enabled(s, LookUp(id, desired))
  {
    var Passed(e, key, atGate) := s.tasks[id];
    if key !in s.keys then SetTask(s, id, Finished).(crossed := true)
    else SetTask(s, id, Granting(e, key, atGate, s.keys[key].perms, desired))
  }

  function Granting(e: Endpoint, key: Key, atGate: Perms, atLookup: Perms, desired: Perms): Task {
    if !e.NewKey? then Finished
    else
      match CreateNewPerms(atLookup, desired)
      case Refused(_) => Finished
      case Created(perms) =>
        if perms == 0 then Finished else Testing(None, Entry(perms, Minted(key, atGate, atLookup)))
  }

  /** Someone is about to store another entry than `entry` under `key`. */
  ghost predicate Contested(s: State, key: Key, entry: Entry) {
    exists id :: IsStoring(s, id) && s.tasks[id].key == key && s.tasks[id].entry != entry
  }

  ghost function DoTest(s: State, id: nat, draw: Key): State
    requires Enabled(s, Test(id, draw))
  {
    if draw !in s.keys then
      SetTask(s, id, Storing(draw, s.tasks[id].entry)).(
        conflicted := s.conflicted || Contested(s, draw, s.tasks[id].entry))
    else if s.tasks[id].goal.Some? then SetTask(s, id, Finished)
    else s
  }

  function DoStore(s: State, id: nat): State
    requires Enabled(s, Store(id))
  {
    var Storing(key, entry) := s.tasks[id];
    SetTask(s, id, Finished).(
      keys := s.keys[key := entry],
      changed := if key in s.keys && s.keys[key] != entry then s.changed + {key} else s.changed)
  }

  ghost function Apply(s: State, a: Action): State
    requires Enabled(s, a)
  {
    match a
    case AddAuth(id, key, perms) => DoAddAuth(s, id, key, perms)
    case Gate(id, e, key) => DoGate(s, id, e, key)
    case LookUp(id, desired) => DoLookUp(s, id, desired)
    case Test(id, draw) => DoTest(s, id, draw)
    case GiveUp(id) => SetTask(s, id, Finished)
    case Store(id) => DoStore(s, id)
  }

  ghost predicate Next(s: State, s': State) {
    exists a :: Enabled(s, a) && s' == Apply(s, a)
  }

  ghost predicate KeyRun(run: seq<State>) { IsRun(Init, Next, run) }

  // ------------------------------------------------- what holds in any case

  /** The holder could mint at the gate and, at the look-up, held what it gave, the
      right to mint aside. */
  predicate GrantOk(atGate: Perms, atLookup: Perms, minted: Perms) {
    && CheckPermission(atGate, CAN_MAKE_KEYS)
    && Within(minted, KNOWN)
    && Within(minted & !CAN_MAKE_KEYS, atLookup)
    && (CheckPermission(minted, CAN_MAKE_KEYS) ==> CheckPermission(atLookup, CAN_DUPLICATE_KEYS))
  }

  predicate Earned(e: Entry) {
    e.origin.Minted? ==> GrantOk(e.origin.atGate, e.origin.atLookup, e.perms)
  }

  /** Every entry in the table, or on its way into it, satisfies `p`. */
  ghost predicate AllEntries(s: State, p: Entry -> bool) {
    && (forall k :: k in s.keys ==> p(s.keys[k]))
    && (forall id :: id in s.tasks && HasEntry(s.tasks[id]) ==> p(s.tasks[id].entry))
  }

  predicate HasEntry(t: Task) { t.Testing? || t.Storing? }

  /** A property of entries holds of all if it holds of what is granted or added. */
  lemma EntriesKeep(s: State, a: Action, p: Entry -> bool)
    requires AllEntries(s, p) && Enabled(s, a)
    requires a.AddAuth? || a.LookUp? ==> HasEntry(Apply(s, a).tasks[a.id]) ==> p(Apply(s, a).tasks[a.id].entry)
    ensures AllEntries(Apply(s, a), p)
  {
  }

  lemma LookUpEarned(s: State, id: nat, desired: Perms)
    requires KnownInv(s) && Enabled(s, LookUp(id, desired)) && HasEntry(DoLookUp(s, id, desired).tasks[id])
    ensures Earned(DoLookUp(s, id, desired).tasks[id].entry)
  {
    var Passed(e, key, atGate) := s.tasks[id];
    assert TaskOk(s, s.tasks[id]) && RequiredBy(e)[0] == CAN_MAKE_KEYS;
    CreatedIsGrantOk(atGate, s.keys[key].perms, desired);
  }

  lemma ActionEarns(s: State, a: Action)
    requires KnownInv(s) && AllEntries(s, Earned) && Enabled(s, a)
    ensures AllEntries(Apply(s, a), Earned)
  {
    if a.LookUp? && HasEntry(DoLookUp(s, a.id, a.desired).tasks[a.id]) { LookUpEarned(s, a.id, a.desired); }
    EntriesKeep(s, a, Earned);
  }

  ghost predicate EntryOk(s: State, e: Entry) {
    e.origin.Minted? ==> e.origin.minter in s.keys
  }

  ghost predicate TaskOk(s: State, t: Task) {
    match t
    case Passed(e, key, atGate) => key in s.keys && Admits(e, atGate)
    case Testing(_, e) => EntryOk(s, e)
    case Storing(_, e) => EntryOk(s, e)
    case Finished => true
  }

  ghost predicate KnownInv(s: State) {
    && !s.crossed
    && (forall k :: k in s.keys ==> EntryOk(s, s.keys[k]))
    && (forall id :: id in s.tasks ==> TaskOk(s, s.tasks[id]))
  }

  lemma CreatedIsGrantOk(atGate: Perms, atLookup: Perms, desired: Perms)
    requires CheckPermission(atGate, CAN_MAKE_KEYS) && CreateNewPerms(atLookup, desired).Created?
    ensures GrantOk(atGate, atLookup, CreateNewPerms(atLookup, desired).value)
  {
    CreationExact(atLookup, desired);
    GrantedIsGrantOk(atGate, atLookup, desired);
  }

  lemma GrantedIsGrantOk(atGate: Perms, atLookup: Perms, desired: Perms)
    requires CheckPermission(atGate, CAN_MAKE_KEYS)
    requires Within(desired & KNOWN & !CAN_MAKE_KEYS, atLookup)
    requires CheckPermission(desired, CAN_MAKE_KEYS) ==> CheckPermission(atLookup, CAN_DUPLICATE_KEYS)
    ensures GrantOk(atGate, atLookup, desired & KNOWN)
  {
  }

  lemma SetTaskKnows(s: State, id: nat, t: Task)
    requires KnownInv(s) && TaskOk(s, t)
    ensures KnownInv(SetTask(s, id, t))
  {
    var u := SetTask(s, id, t);
    forall k | k in u.keys ensures EntryOk(u, u.keys[k]) { assert EntryOk(s, s.keys[k]); }
    forall m | m in u.tasks ensures TaskOk(u, u.tasks[m]) { if m != id { assert TaskOk(s, s.tasks[m]); } }
  }

  lemma LookUpKnows(s: State, id: nat, desired: Perms)
    requires KnownInv(s) && Enabled(s, LookUp(id, desired))
    ensures KnownInv(DoLookUp(s, id, desired))
  {
    var Passed(e, key, atGate) := s.tasks[id];
    assert TaskOk(s, s.tasks[id]);
    SetTaskKnows(s, id, Granting(e, key, atGate, s.keys[key].perms, desired));
  }

  lemma TestKnows(s: State, id: nat, draw: Key)
    requires KnownInv(s) && Enabled(s, Test(id, draw))
    ensures KnownInv(DoTest(s, id, draw))
  {
    assert TaskOk(s, s.tasks[id]);
    var t := Storing(draw, s.tasks[id].entry);
    if draw !in s.keys {
      SetTaskKnows(s, id, t);
      var u := SetTask(s, id, t);
      var v := DoTest(s, id, draw);
      forall k | k in v.keys ensures EntryOk(v, v.keys[k]) { assert EntryOk(u, u.keys[k]); }
      forall m | m in v.tasks ensures TaskOk(v, v.tasks[m]) { assert TaskOk(u, u.tasks[m]); }
    } else if s.tasks[id].goal.Some? {
      SetTaskKnows(s, id, Finished);
    }
  }

  lemma StoreKnows(s: State, id: nat)
    requires KnownInv(s) && Enabled(s, Store(id))
    ensures KnownInv(DoStore(s, id))
  {
    var u := DoStore(s, id);
    assert TaskOk(s, s.tasks[id]);
    forall k | k in u.keys ensures EntryOk(u, u.keys[k]) {
      if k != s.tasks[id].key { assert EntryOk(s, s.keys[k]); }
    }
    forall m | m in u.tasks ensures TaskOk(u, u.tasks[m]) { if m != id { assert TaskOk(s, s.tasks[m]); } }
  }

  lemma ActionKnows(s: State, a: Action)
    requires KnownInv(s) && Enabled(s, a)
    ensures KnownInv(Apply(s, a))
  {
    match a
    case AddAuth(id, key, perms) => SetTaskKnows(s, id, DoAddAuth(s, id, key, perms).tasks[id]);
    case Gate(id, e, key) => SetTaskKnows(s, id, DoGate(s, id, e, key).tasks[id]);
    case LookUp(id, desired) => LookUpKnows(s, id, desired);
    case Test(id, draw) => TestKnows(s, id, draw);
    case GiveUp(id) => SetTaskKnows(s, id, Finished);
    case Store(id) => StoreKnows(s, id);
  }

  // ---------------------------------------------------------------- races

  /** Whoever is about to store an entry finds no other under its key, and nobody else
      is about to store another. */
  ghost predicate Agreed(s: State) {
    && (forall id :: IsStoring(s, id) && s.tasks[id].key in s.keys ==> s.keys[s.tasks[id].key] == s.tasks[id].entry)
    && (forall a, b :: IsStoring(s, a) && IsStoring(s, b) && s.tasks[a].key == s.tasks[b].key ==>
          s.tasks[a].entry == s.tasks[b].entry)
  }

  /** A conflict leads to a change, and nothing else does. */
  ghost predicate RaceInv(s: State) {
    && (s.changed != {} ==> s.conflicted)
    && (s.conflicted <==> s.changed != {} || !Agreed(s))
  }

  lemma StoreRaces(s: State, id: nat)
    requires RaceInv(s) && Enabled(s, Store(id))
    ensures RaceInv(DoStore(s, id))
  {
    var t := DoStore(s, id);
    assert forall m :: IsStoring(t, m) ==> IsStoring(s, m) && t.tasks[m] == s.tasks[m];
    if s.conflicted && t.changed == {} {
      if a :| IsStoring(s, a) && s.tasks[a].key in s.keys && s.keys[s.tasks[a].key] != s.tasks[a].entry {
        assert IsStoring(t, a);
      } else {
        var a, b :| IsStoring(s, a) && IsStoring(s, b) && s.tasks[a].key == s.tasks[b].key
                    && s.tasks[a].entry != s.tasks[b].entry;
        assert a == id || IsStoring(t, a);
        assert b == id || IsStoring(t, b);
      }
      assert !Agreed(t);
    }
  }

  lemma TestRaces(s: State, id: nat, draw: Key)
    requires RaceInv(s) && Enabled(s, Test(id, draw))
    ensures RaceInv(DoTest(s, id, draw))
  {
    var t := DoTest(s, id, draw);
    assert forall m :: m != id ==> (IsStoring(s, m) <==> IsStoring(t, m));
    if draw !in s.keys {
      assert IsStoring(t, id);
      if Contested(s, draw, s.tasks[id].entry) {
        var m :| IsStoring(s, m) && s.tasks[m].key == draw && s.tasks[m].entry != s.tasks[id].entry;
        assert IsStoring(t, m) && m != id;
      }
    }
  }

  lemma QuietRaces(s: State, id: nat, t: Task)
    requires RaceInv(s) && !IsStoring(s, id) && !t.Storing?
    ensures RaceInv(SetTask(s, id, t))
    ensures RaceInv(SetTask(s, id, t).(crossed := true))
  {
    var u := SetTask(s, id, t);
    assert forall m :: IsStoring(u, m) <==> IsStoring(s, m);
    assert forall m :: IsStoring(u.(crossed := true), m) <==> IsStoring(s, m);
  }

  lemma ActionRaces(s: State, a: Action)
    requires RaceInv(s) && Enabled(s, a)
    ensures RaceInv(Apply(s, a))
  {
    match a
    case AddAuth(id, key, perms) => QuietRaces(s, id, DoAddAuth(s, id, key, perms).tasks[id]);
    case Gate(id, e, key) => QuietRaces(s, id, DoGate(s, id, e, key).tasks[id]);
    case LookUp(id, desired) => QuietRaces(s, id, DoLookUp(s, id, desired).tasks[id]);
    case Test(id, draw) => TestRaces(s, id, draw);
    case GiveUp(id) => QuietRaces(s, id, Finished);
    case Store(id) => StoreRaces(s, id);
  }

  // ------------------------------------ what holds while entries stay

  ghost predicate EntryFresh(s: State, e: Entry) {
    e.origin.Minted? && e.origin.minter in s.keys && e.origin.minter !in s.changed ==>
      e.origin.atGate == e.origin.atLookup == s.keys[e.origin.minter].perms
  }

  ghost predicate TaskFresh(s: State, t: Task) {
    match t
    case Passed(_, key, atGate) => key in s.keys && key !in s.changed ==> s.keys[key].perms == atGate
    case Testing(_, e) => EntryFresh(s, e)
    case Storing(_, e) => EntryFresh(s, e)
    case Finished => true
  }

  /** What was read of a key is still so, unless the entry of the key changed. */
  ghost predicate FreshInv(s: State) {
    && (forall k :: k in s.keys ==> EntryFresh(s, s.keys[k]))
    && (forall id :: id in s.tasks ==> TaskFresh(s, s.tasks[id]))
  }

  /** Entries stay, and stay as they are unless they count as changed. */
  ghost predicate Settles(s: State, t: State) {
    && s.changed <= t.changed && (s.conflicted ==> t.conflicted)
    && forall k :: k in s.keys ==> k in t.keys && (k !in t.changed ==> t.keys[k] == s.keys[k])
  }

  lemma ActionSettles(s: State, a: Action)
    requires Enabled(s, a)
    ensures Settles(s, Apply(s, a))
  {
  }

  /** One task moved, and it is fresh. */
  lemma SettledStaysFresh(s: State, t: State, id: nat)
    requires KnownInv(s) && FreshInv(s) && Settles(s, t)
    requires id in t.tasks && t.tasks.Keys == s.tasks.Keys + {id}
    requires forall m :: m in s.tasks && m != id ==> t.tasks[m] == s.tasks[m]
    requires TaskFresh(t, t.tasks[id])
    requires forall k :: k in t.keys && (k !in s.keys || t.keys[k] != s.keys[k]) ==> EntryFresh(t, t.keys[k])
    ensures FreshInv(t)
  {
    forall k | k in t.keys ensures EntryFresh(t, t.keys[k]) {
      if k in s.keys { assert EntryFresh(s, s.keys[k]) && EntryOk(s, s.keys[k]); }
    }
    forall m | m in t.tasks ensures TaskFresh(t, t.tasks[m]) {
      if m != id { assert m in s.tasks && TaskFresh(s, s.tasks[m]) && TaskOk(s, s.tasks[m]); }
    }
  }

  lemma ActionFresh(s: State, a: Action)
    requires KnownInv(s) && FreshInv(s) && Enabled(s, a)
    ensures FreshInv(Apply(s, a))
  {
    var t := Apply(s, a);
    ActionSettles(s, a);
    if a.id in s.tasks { assert TaskOk(s, s.tasks[a.id]) && TaskFresh(s, s.tasks[a.id]); }
    if t != s { SettledStaysFresh(s, t, a.id); }
  }

  // ---------------------------------------------------------------- theorems

  ghost predicate Inv(s: State) {
    KnownInv(s) && AllEntries(s, Earned) && RaceInv(s) && FreshInv(s)
  }

  lemma ActionKeeps(s: State, a: Action)
    requires Inv(s) && Enabled(s, a)
    ensures Inv(Apply(s, a))
  {
    ActionKnows(s, a);
    ActionEarns(s, a);
    ActionRaces(s, a);
    ActionFresh(s, a);
  }

  lemma InvIsInductive()
    ensures Inductive(Init, Next, Inv)
  {
    forall s | Init(s) ensures Inv(s) {
      assert forall id :: !IsStoring(s, id);
    }
    forall s, s' | Inv(s) && Next(s, s') ensures Inv(s') {
      var a :| Enabled(s, a) && s' == Apply(s, a);
      ActionKeeps(s, a);
    }
  }

  lemma AlwaysInv(run: seq<State>, n: nat)
    requires KeyRun(run) && n < |run|
    ensures Inv(run[n])
  {
    InvIsInductive();
    InvariantHolds(Init, Next, Inv, run, n);
  }

  /** No handler's look-up contradicts its gate, in any interleaving. */
  lemma GateNeverContradicted(run: seq<State>, n: nat, id: nat)
    requires KeyRun(run) && n < |run|
    ensures !run[n].crossed
    ensures id in run[n].tasks && run[n].tasks[id].Passed? ==> run[n].tasks[id].key in run[n].keys
  {
    AlwaysInv(run, n);
    if id in run[n].tasks { assert TaskOk(run[n], run[n].tasks[id]); }
  }

  /** In any interleaving a minted key has no more than its minter was seen to hold,
      at the gate or at the look-up, and cannot mint unless the minter could duplicate. */
  lemma GrantsWithinSeen(run: seq<State>, n: nat, key: Key)
    requires KeyRun(run) && n < |run| && key in run[n].keys && run[n].keys[key].origin.Minted?
    ensures var Entry(perms, Minted(minter, atGate, atLookup)) := run[n].keys[key];
            && minter in run[n].keys && CheckPermission(atGate, CAN_MAKE_KEYS)
            && Within(perms, KNOWN) && Within(perms, atGate | atLookup)
            && (CheckPermission(perms, CAN_MAKE_KEYS) ==> CheckPermission(atLookup, CAN_DUPLICATE_KEYS))
  {
    AlwaysInv(run, n);
    var Entry(perms, Minted(_, atGate, atLookup)) := run[n].keys[key];
    assert EntryOk(run[n], run[n].keys[key]) && Earned(run[n].keys[key]);
    SeenCovers(atGate, atLookup, perms);
  }

  lemma SeenCovers(atGate: Perms, atLookup: Perms, perms: Perms)
    requires GrantOk(atGate, atLookup, perms)
    ensures Within(perms, atGate | atLookup)
  {
  }

  /** Keys are never removed, and no permissions and no minter ever change without two
      adders in conflict. */
  lemma TableOnlyGrows(run: seq<State>, i: nat, j: nat)
    requires KeyRun(run) && i <= j < |run|
    ensures Settles(run[i], run[j])
    ensures !run[j].conflicted ==> run[j].changed == {} && Grows(run[i], run[j])
  {
    InvIsInductive();
    AlwaysInv(run, j);
    forall s, s' | Inv(s) && Next(s, s') ensures Settles(s, s') {
      var a :| Enabled(s, a) && s' == Apply(s, a);
      ActionSettles(s, a);
    }
    RelationHolds(Init, Next, Inv, Settles, run, i, j);
  }

  /** Entries stay as they are. */
  ghost predicate Grows(s: State, t: State) {
    forall k :: k in s.keys ==> k in t.keys && t.keys[k] == s.keys[k]
  }

  ghost predicate StoreNext(s: State, s': State) {
    exists id :: Enabled(s, Store(id)) && s' == DoStore(s, id)
  }

  /** `more` is `run` with some of the stores under way made, and nothing else. */
  ghost predicate Completes(run: seq<State>, more: seq<State>) {
    KeyRun(more) && run <= more && forall k | 0 < |run| <= k < |more| :: StepAt(StoreNext, more, k)
  }

  /** No entry is ever replaced by another. */
  ghost predicate EntriesStay(run: seq<State>) {
    forall i, j :: 0 <= i <= j < |run| ==> Grows(run[i], run[j])
  }

  /** Exactly the conflicts matter: whatever stores under way are still made, the table
      only grows, if and only if no addKeyInt found its key free while another was
      about to store another entry under it. */
  lemma EntriesStayIff(run: seq<State>)
    requires KeyRun(run)
    ensures (forall more :: Completes(run, more) ==> EntriesStay(more)) <==> !run[|run| - 1].conflicted
  {
    if run[|run| - 1].conflicted {
      var more := ConflictChanges(run);
      assert Completes(run, more) && !EntriesStay(more);
    } else {
      forall more | Completes(run, more) ensures EntriesStay(more) {
        forall i, j | 0 <= i <= j < |more| ensures Grows(more[i], more[j]) {
          StoresAddNoConflict(run, more, |more| - 1);
          TableOnlyGrows(more, j, |more| - 1);
          TableOnlyGrows(more, i, j);
        }
      }
    }
  }

  lemma {:induction false} StoresAddNoConflict(run: seq<State>, more: seq<State>, k: nat)
    requires Completes(run, more) && 0 < |run| <= k + 1 <= |more|
    ensures more[k].conflicted == run[|run| - 1].conflicted
  {
    if k >= |run| {
      StoresAddNoConflict(run, more, k - 1);
      assert StepAt(StoreNext, more, k);
    }
  }

  /** One of the stores in conflict replaces an entry, the first or the second. */
  lemma ConflictStores(run: seq<State>) returns (more: seq<State>)
    requires KeyRun(run) && !Agreed(run[|run| - 1])
    ensures Completes(run, more) && more[|more| - 1].changed != {}
  {
    var s := run[|run| - 1];
    if a :| IsStoring(s, a) && s.tasks[a].key in s.keys && s.keys[s.tasks[a].key] != s.tasks[a].entry {
      more := AfterStore(run, run, a);
    } else {
      var a, b :| IsStoring(s, a) && IsStoring(s, b) && s.tasks[a].key == s.tasks[b].key
                  && s.tasks[a].entry != s.tasks[b].entry;
      more := AfterStore(run, run, a);
      more := AfterStore(run, more, b);
    }
  }

  lemma ConflictChanges(run: seq<State>) returns (more: seq<State>)
    requires KeyRun(run) && run[|run| - 1].conflicted
    ensures Completes(run, more) && !EntriesStay(more)
  {
    var s := run[|run| - 1];
    AlwaysInv(run, |run| - 1);
    more := run;
    if s.changed == {} { more := ConflictStores(run); }
    ChangedSomewhere(more, |more| - 1);
  }

  /** A key counts as changed only after a step that replaced its entry. */
  lemma {:induction false} ChangedSomewhere(run: seq<State>, n: nat)
    requires KeyRun(run) && n < |run| && run[n].changed != {}
    ensures !EntriesStay(run)
  {
    if n > 0 {
      assert StepAt(Next, run, n);
      if run[n - 1].changed != {} {
        ChangedSomewhere(run, n - 1);
      } else {
        var a :| Enabled(run[n - 1], a) && run[n] == Apply(run[n - 1], a);
        assert !Grows(run[n - 1], run[n]);
      }
    }
  }

  lemma AfterStore(run: seq<State>, more: seq<State>, id: nat) returns (longer: seq<State>)
    requires Completes(run, more) && 0 < |run| && IsStoring(more[|more| - 1], id)
    ensures Completes(run, longer) && longer[|longer| - 1] == DoStore(more[|more| - 1], id)
  {
    var s, t := more[|more| - 1], DoStore(more[|more| - 1], id);
    assert Enabled(s, Store(id)) && t == Apply(s, Store(id));
    Longer(Next, more, t);
    longer := more + [t];
    forall k | |run| <= k < |longer| ensures StepAt(StoreNext, longer, k) {
      if k < |more| { assert StepAt(StoreNext, more, k); }
    }
  }

  /** A line of keys, each minted by the one before it. */
  ghost predicate Line(s: State, line: seq<Key>) {
    && line != []
    && (forall i :: 0 <= i < |line| ==> line[i] in s.keys)
    && (forall i {:trigger line[i]} :: 0 < i < |line| ==>
          s.keys[line[i]].origin.Minted? && s.keys[line[i]].origin.minter == line[i - 1])
  }

  /** The minter could mint, gave no more than it holds, and without DuplicateKeys
      made a key that cannot mint. */
  predicate MintOk(minter: Perms, minted: Perms) {
    && CheckPermission(minter, CAN_MAKE_KEYS)
    && Within(minted, minter) && Within(minted, KNOWN)
    && (CheckPermission(minted, CAN_MAKE_KEYS) ==> CheckPermission(minter, CAN_DUPLICATE_KEYS))
  }

  lemma GrantIsMintOk(minter: Perms, minted: Perms)
    requires GrantOk(minter, minter, minted)
    ensures MintOk(minter, minted)
  {
  }

  ghost predicate LinkOk(s: State, k: Key) {
    k in s.keys && s.keys[k].origin.Minted? ==>
      s.keys[k].origin.minter in s.keys && MintOk(s.keys[s.keys[k].origin.minter].perms, s.keys[k].perms)
  }

  ghost predicate LineageOk(s: State) { forall k :: k in s.keys ==> LinkOk(s, k) }

  lemma FreshLink(s: State, k: Key)
    requires Inv(s) && k in s.keys && s.keys[k].origin.Minted? && s.keys[k].origin.minter !in s.changed
    ensures LinkOk(s, k)
  {
    assert EntryOk(s, s.keys[k]) && Earned(s.keys[k]) && EntryFresh(s, s.keys[k]);
    GrantIsMintOk(s.keys[s.keys[k].origin.minter].perms, s.keys[k].perms);
  }

  lemma {:induction false} LineShrinks(s: State, line: seq<Key>, i: nat, j: nat)
    requires Line(s, line) && i <= j < |line|
    requires forall m :: 0 < m < |line| ==> LinkOk(s, line[m])
    ensures Within(s.keys[line[j]].perms, s.keys[line[i]].perms)
    decreases j - i
  {
    if i < j {
      LineShrinks(s, line, i, j - 1);
      assert s.keys[line[j]].origin.minter == line[j - 1] && LinkOk(s, line[j]);
      WithinTransitive(s.keys[line[j]].perms, s.keys[line[j - 1]].perms, s.keys[line[i]].perms);
    } else {
      WithinReflexive(s.keys[line[i]].perms);
    }
  }

  lemma WithinReflexive(a: Perms)
    ensures Within(a, a)
  {
  }

  /** Delegation, in any interleaving: along any line of minted keys whose minters
      have not changed permissions only shrink, so none exceeds the root key; every
      minter on it can mint; and below a minter without DuplicateKeys there is one
      generation at most. */
  lemma DelegationHolds(run: seq<State>, n: nat, line: seq<Key>, i: nat)
    requires KeyRun(run) && n < |run| && Line(run[n], line) && i < |line|
    requires forall m :: 0 <= m < |line| - 1 ==> line[m] !in run[n].changed
    ensures Within(run[n].keys[line[|line| - 1]].perms, run[n].keys[line[i]].perms)
    ensures i + 1 < |line| ==> CheckPermission(run[n].keys[line[i]].perms, CAN_MAKE_KEYS)
    ensures !CheckPermission(run[n].keys[line[i]].perms, CAN_DUPLICATE_KEYS) ==> |line| <= i + 2
  {
    var s := run[n];
    AlwaysInv(run, n);
    forall m | 0 < m < |line| ensures LinkOk(s, line[m]) {
      assert s.keys[line[m]].origin.minter == line[m - 1];
      FreshLink(s, line[m]);
    }
    LineShrinks(s, line, i, |line| - 1);
    if i + 1 < |line| { assert s.keys[line[i + 1]].origin.minter == line[i] && LinkOk(s, line[i + 1]); }
    if i + 2 < |line| { assert s.keys[line[i + 2]].origin.minter == line[i + 1] && LinkOk(s, line[i + 2]); }
  }

  /** The whole table is in order while no two adders were in conflict. */
  lemma LineageHolds(run: seq<State>, n: nat)
    requires KeyRun(run) && n < |run| && !run[n].conflicted
    ensures LineageOk(run[n])
  {
    AlwaysInv(run, n);
    forall k | k in run[n].keys ensures LinkOk(run[n], k) {
      if run[n].keys[k].origin.Minted? { FreshLink(run[n], k); }
    }
  }
}
