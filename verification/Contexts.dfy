/** Go contexts as far as the spawner uses them: a cancel flag with a cause. */
module Contexts {
  import opened Base

  /** The errors of handler/errors.go. */
  datatype Sentinel = SpawnerClosedOk | ProxyClosedOk | ProxyMaxRetries | ProxyRetry

  /** An error value and the sentinels errors.Is finds in it. */
  datatype Cause = Cause(wraps: set<Sentinel>, text: nat)

  function Plain(e: Sentinel): Cause { Cause({e}, 0) }

  predicate Is(c: Cause, e: Sentinel) { e in c.wraps }

  /** None while alive, else the cause of the first cancellation. */
  type Ctx = Option<Cause>

  function Cancel(ctx: Ctx, cause: Cause): Ctx {
    if ctx.Some? then ctx else Some(cause)
  }

  /** context.WithCancelCause: a child of a dead context is born dead. */
  function Child(parent: Ctx): Ctx { parent }

  function CancelAll(ctx: Ctx, causes: seq<Cause>): Ctx
    decreases |causes|
  {
    if causes == [] then ctx else CancelAll(Cancel(ctx, causes[0]), causes[1..])
  }

  lemma {:induction false} FirstCauseWins(ctx: Ctx, causes: seq<Cause>)
    ensures CancelAll(ctx, causes) ==
            if ctx.Some? then ctx else if causes == [] then None else Some(causes[0])
    decreases |causes|
  {
    if causes != [] { FirstCauseWins(Cancel(ctx, causes[0]), causes[1..]); }
  }
}
