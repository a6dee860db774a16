/** The retry machine of addListener, as functions of what the listener and the
    rest of the program do. */
module Listeners {
  import opened Base
  import opened Contexts

  /** While a listener runs: its own cancel function is called, or someone cancels
      the spawner's context. */
  datatype Event = Own(cause: Cause) | Elsewhere(cause: Cause)

  /** One run of the listener, and the cancellations of the spawner between the
      moment its cause is read and the moment addListener acts on it. */
  datatype Turn = Turn(during: seq<Event>, after: seq<Cause>)

  /** The spawner's context and the listener's, a child of it. */
  datatype Pair = Pair(spawner: Ctx, own: Ctx)

  /** Cancelling the parent cancels the child with the parent's cause. */
  function Step(p: Pair, e: Event): Pair {
    match e
    case Own(c) => p.(own := Cancel(p.own, c))
    case Elsewhere(c) =>
      var s := Cancel(p.spawner, c);
      Pair(s, Cancel(p.own, s.value))
  }

  function Play(p: Pair, events: seq<Event>): Pair
    decreases |events|
  {
    if events == [] then p else Play(Step(p, events[0]), events[1..])
  }

  ghost predicate Linked(p: Pair) { p.spawner.Some? ==> p.own.Some? }

  lemma {:induction false} PlayKeeps(p: Pair, events: seq<Event>)
    requires Linked(p)
    ensures Linked(Play(p, events))
    ensures p.spawner.Some? ==> Play(p, events).spawner == p.spawner
    ensures p.own.Some? ==> Play(p, events).own == p.own
    decreases |events|
  {
    if events != [] { PlayKeeps(Step(p, events[0]), events[1..]); }
  }

  const MAX_RETRIES := 3

  /** The two contexts when run `k` ends, if every run before it was retried. */
  function EndOf(spawner: Ctx, script: nat -> Turn, k: nat): Pair
    decreases k, 0
  {
    var before := StartOf(spawner, script, k);
    Play(Pair(before, Child(before)), script(k).during)
  }

  /** The spawner's context when run `k` starts. */
  function StartOf(spawner: Ctx, script: nat -> Turn, k: nat): Ctx
    decreases k, -1
  {
    if k == 0 then spawner
    else CancelAll(EndOf(spawner, script, k - 1).spawner, script(k - 1).after)
  }

  predicate Retried(ctx: Ctx) { ctx.Some? && Is(ctx.value, ProxyRetry) }

  /** Runs until the first one that is not retried, or the limit. */
  function RunsFrom(spawner: Ctx, script: nat -> Turn, k: nat): nat
    requires k <= MAX_RETRIES
    decreases MAX_RETRIES - k
  {
    if k < MAX_RETRIES && Retried(EndOf(spawner, script, k).own) then RunsFrom(spawner, script, k + 1) else k + 1
  }

  /** How many times addListener runs its listener. */
  function RunCount(spawner: Ctx, script: nat -> Turn): nat {
    if spawner.Some? then 0 else RunsFrom(spawner, script, 0)
  }

  lemma {:induction false} RunsFromExact(spawner: Ctx, script: nat -> Turn, k: nat)
    requires k <= MAX_RETRIES
    ensures k < RunsFrom(spawner, script, k) <= MAX_RETRIES + 1
    ensures forall j | k <= j < RunsFrom(spawner, script, k) - 1 :: Retried(EndOf(spawner, script, j).own)
    ensures RunsFrom(spawner, script, k) <= MAX_RETRIES ==>
              !Retried(EndOf(spawner, script, RunsFrom(spawner, script, k) - 1).own)
    decreases MAX_RETRIES - k
  {
    if k < MAX_RETRIES && Retried(EndOf(spawner, script, k).own) {
      RunsFromExact(spawner, script, k + 1);
    }
  }

  const NOT_CANCELLED := Cause({}, 1)   // "listener didn't cancel context after return"

  /** The spawner's context when addListener returns. */
  function FinalSpawner(spawner: Ctx, script: nat -> Turn): Ctx {
    var n := RunCount(spawner, script);
    if n == 0 then spawner
    else
      var p := EndOf(spawner, script, n - 1);
      var s := CancelAll(p.spawner, script(n - 1).after);
      if p.own.None? then Cancel(s, NOT_CANCELLED)
      else if !Retried(p.own) && Is(p.own.value, ProxyClosedOk) then s
      else Cancel(s, p.own.value)
  }

  /** What addListener hands to HandleError. */
  function Reported(spawner: Ctx, script: nat -> Turn): seq<Cause> {
    var n := RunCount(spawner, script);
    if n == 0 then []
    else
      var own := EndOf(spawner, script, n - 1).own;
      if own.None? then []
      else if Retried(own) then [Plain(ProxyMaxRetries)]
      else if Is(own.value, ProxyClosedOk) then []
      else [own.value]
  }

  lemma {:induction false} SpawnerCauseStays(spawner: Ctx, script: nat -> Turn, j: nat, k: nat)
    requires j <= k
    ensures StartOf(spawner, script, j).Some? ==> StartOf(spawner, script, k) == StartOf(spawner, script, j)
    ensures Linked(EndOf(spawner, script, k))
    ensures StartOf(spawner, script, k).Some? ==> EndOf(spawner, script, k).own == StartOf(spawner, script, k)
    decreases k
  {
    var before := StartOf(spawner, script, k);
    PlayKeeps(Pair(before, Child(before)), script(k).during);
    if j < k {
      SpawnerCauseStays(spawner, script, j, k - 1);
      var last := StartOf(spawner, script, k - 1);
      PlayKeeps(Pair(last, Child(last)), script(k - 1).during);
      FirstCauseWins(EndOf(spawner, script, k - 1).spawner, script(k - 1).after);
    }
  }

  /** At most 4 runs, one more than the retries allowed; every run but the last
      ended with a retry; and on return the spawner is dead or the last cause was
      the graceful one. */
  lemma {:induction false} RetryMachine(spawner: Ctx, script: nat -> Turn)
    ensures RunCount(spawner, script) <= 4
    ensures RunCount(spawner, script) == 0 <==> spawner.Some?
    ensures forall j | 0 <= j < RunCount(spawner, script) - 1 :: Retried(EndOf(spawner, script, j).own)
    ensures 0 < RunCount(spawner, script) < 4 ==>
              !Retried(EndOf(spawner, script, RunCount(spawner, script) - 1).own)
    ensures FinalSpawner(spawner, script).Some? ||
            (var own := EndOf(spawner, script, RunCount(spawner, script) - 1).own;
             own.Some? && Is(own.value, ProxyClosedOk) && !Is(own.value, ProxyRetry))
    ensures |Reported(spawner, script)| <= 1
  {
    if spawner.None? { RunsFromExact(spawner, script, 0); }
  }

  /** The spawner's first cause is never replaced by anything addListener does. */
  lemma FirstCauseKept(spawner: Ctx, script: nat -> Turn, k: nat)
    requires k < RunCount(spawner, script) && StartOf(spawner, script, k).Some?
    ensures FinalSpawner(spawner, script) == StartOf(spawner, script, k)
  {
    var n := RunCount(spawner, script);
    SpawnerCauseStays(spawner, script, k, n - 1);
    var last := StartOf(spawner, script, n - 1);
    PlayKeeps(Pair(last, Child(last)), script(n - 1).during);
    FirstCauseWins(EndOf(spawner, script, n - 1).spawner, script(n - 1).after);
  }

  /** A listener whose spawner dies before its run `k` starts inherits the cause.
      When that is a retry (the spawner was killed by a sibling's retries) it still
      runs 4 times in all and reports ProxyMaxRetries; otherwise it stops at once. */
  lemma {:induction false} SiblingInherits(spawner: Ctx, script: nat -> Turn, k: nat)
    requires 0 < k < RunCount(spawner, script) && StartOf(spawner, script, k).Some?
    ensures Retried(StartOf(spawner, script, k)) ==>
              RunCount(spawner, script) == 4 && Reported(spawner, script) == [Plain(ProxyMaxRetries)]
    ensures !Retried(StartOf(spawner, script, k)) ==> RunCount(spawner, script) == k + 1
  {
    var n := RunCount(spawner, script);
    RunsFromExact(spawner, script, 0);
    SpawnerCauseStays(spawner, script, k, n - 1);
    SpawnerCauseStays(spawner, script, k, k);
  }

  // ------------------------------------------------------------ exact causes

  /** The first event decides a live listener's cause: its own cancellation, or the
      spawner's, which it inherits. */
  lemma {:induction false} FirstEventDecides(p: Pair, events: seq<Event>)
    requires p.spawner.None? && p.own.None?
    ensures Play(p, events).own == if events == [] then None else Some(events[0].cause)
    decreases |events|
  {
    if events != [] { PlayKeeps(Step(p, events[0]), events[1..]); }
  }

  /** The spawner dies of the first cancellation that is aimed at it. */
  lemma {:induction false} FirstElsewhereKills(p: Pair, events: seq<Event>, i: nat)
    requires p.spawner.None? && i < |events| && events[i].Elsewhere? && OwnOnly(events[..i])
    ensures Play(p, events).spawner == Some(events[i].cause)
    decreases |events|
  {
    if i == 0 {
      PlayAfterDeath(Step(p, events[0]), events[1..]);
    } else {
      assert events[..i][0] == events[0] && events[1..][..i - 1] == events[..i][1..];
      FirstElsewhereKills(Step(p, events[0]), events[1..], i - 1);
    }
  }

  lemma {:induction false} PlayAfterDeath(p: Pair, events: seq<Event>)
    requires p.spawner.Some?
    ensures Play(p, events).spawner == p.spawner
    decreases |events|
  {
    if events != [] { PlayAfterDeath(Step(p, events[0]), events[1..]); }
  }

  /** Nobody but the listener itself cancels anything. */
  ghost predicate Undisturbed(script: nat -> Turn) {
    forall k | 0 <= k :: script(k).after == [] && OwnOnly(script(k).during)
  }

  ghost predicate OwnOnly(events: seq<Event>) { forall i | 0 <= i < |events| :: events[i].Own? }

  lemma {:induction false} OwnLeavesSpawner(p: Pair, events: seq<Event>)
    requires OwnOnly(events)
    ensures Play(p, events).spawner == p.spawner
    decreases |events|
  {
    if events != [] { OwnLeavesSpawner(Step(p, events[0]), events[1..]); }
  }

  /** What run `k` of an undisturbed listener ends with: the first cause it gives. */
  function OwnCause(script: nat -> Turn, k: nat): Ctx {
    if script(k).during == [] then None else Some(script(k).during[0].cause)
  }

  lemma {:induction false} UndisturbedRuns(script: nat -> Turn, k: nat)
    requires Undisturbed(script)
    ensures StartOf(None, script, k) == None && EndOf(None, script, k) == Pair(None, OwnCause(script, k))
  {
    if k > 0 {
      UndisturbedRuns(script, k - 1);
      assert script(k - 1).after == [];
    }
    assert OwnOnly(script(k).during);
    OwnLeavesSpawner(Pair(None, None), script(k).during);
    FirstEventDecides(Pair(None, None), script(k).during);
  }

  /** The spawner of an undisturbed listener: it survives exactly a graceful end that is
      no retry; otherwise it dies of the last run's own cause, or of the missing
      cancellation if there is none. What is reported follows the same cases, except
      that a fourth retry is reported as too many. */
  lemma UndisturbedExact(script: nat -> Turn)
    requires Undisturbed(script)
    ensures var n := RunCount(None, script);
            var last := OwnCause(script, n - 1);
            && 1 <= n <= 4
            && (forall j | 0 <= j < n - 1 :: Retried(OwnCause(script, j)))
            && (n < 4 ==> !Retried(last))
            && (FinalSpawner(None, script).None? <==>
                  last.Some? && Is(last.value, ProxyClosedOk) && !Is(last.value, ProxyRetry))
            && (last.None? ==> FinalSpawner(None, script) == Some(NOT_CANCELLED) && Reported(None, script) == [])
            && (FinalSpawner(None, script).Some? && last.Some? ==> FinalSpawner(None, script) == last)
            && (FinalSpawner(None, script).None? ==> Reported(None, script) == [])
            && (last.Some? && FinalSpawner(None, script).Some? ==>
                  Reported(None, script) == [if Retried(last) then Plain(ProxyMaxRetries) else last.value])
  {
    RunsFromExact(None, script, 0);
    var n := RunCount(None, script);
    forall j | 0 <= j < n ensures EndOf(None, script, j).own == OwnCause(script, j) { UndisturbedRuns(script, j); }
    UndisturbedRuns(script, n - 1);
    assert script(n - 1).after == [];
  }

  /** Four runs that each end in a retry leave the spawner dead of a retry, which is
      what makes its other listeners go on retrying. */
  lemma MaxRetriesSpread(script: nat -> Turn)
    requires Undisturbed(script) && forall k | 0 <= k < 4 :: Retried(OwnCause(script, k))
    ensures RunCount(None, script) == 4 && FinalSpawner(None, script) == OwnCause(script, 3)
    ensures Retried(FinalSpawner(None, script)) && Reported(None, script) == [Plain(ProxyMaxRetries)]
  {
    UndisturbedExact(script);
  }

  /** With others at work: whoever killed the spawner before addListener acts wins, and
      only if nobody did does the last run decide, as above. */
  lemma DisturbedExact(spawner: Ctx, script: nat -> Turn)
    requires spawner.None?
    ensures var n := RunCount(spawner, script);
            var p := EndOf(spawner, script, n - 1);
            var others := if p.spawner.Some? then p.spawner
                          else if script(n - 1).after != [] then Some(script(n - 1).after[0]) else None;
            && (others.Some? ==> FinalSpawner(spawner, script) == others)
            && (others.None? && p.own.None? ==> FinalSpawner(spawner, script) == Some(NOT_CANCELLED))
            && (others.None? && p.own.Some? ==>
                  FinalSpawner(spawner, script) ==
                  if Is(p.own.value, ProxyClosedOk) && !Is(p.own.value, ProxyRetry) then None else p.own)
            && Reported(spawner, script) ==
               if p.own.None? || (Is(p.own.value, ProxyClosedOk) && !Is(p.own.value, ProxyRetry)) then []
               else if Is(p.own.value, ProxyRetry) then [Plain(ProxyMaxRetries)] else [p.own.value]
  {
    var n := RunCount(spawner, script);
    RunsFromExact(spawner, script, 0);
    FirstCauseWins(EndOf(spawner, script, n - 1).spawner, script(n - 1).after);
  }
}
