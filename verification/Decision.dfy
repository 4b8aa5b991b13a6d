/** The decision engine: the rules in priority order, the reject counter and the pause latch.
  SOL amounts are exact reals. */
module Decision {
  import opened Basics
  import opened Widths
  import opened BondingCurve

  const U32: int := 0x1_0000_0000

  datatype Order = Order(amount: u64, slippageBps: u64, maxCost: Option<u64>, minOutput: Option<u64>)

  datatype Context = Context(
    order: Order,
    demoMode: bool,
    maxPosition: real,
    maxExposure: real,
    maxDailyLoss: real,
    maxSlippageBps: u64,
    maxSandwichRisk: nat,
    sandwichRisk: nat,
    exposure: real,
    dailyLoss: real,
    curve: Option<Curve>)

  datatype Rule = ZeroAmount | Slippage | PositionSize | Exposure | DailyLoss | SandwichRisk | MaxCostTooLow | MinOutputTooHigh

  datatype Halting = AutoPaused | DemoMode

  datatype Verdict = Allow | Reject(rule: Rule) | Halt(why: Halting)

  function Sol(lamports: nat): real
  {
    lamports as real / 1_000_000_000.0
  }

  /** The rule violated with the highest priority. */
  function Violated(ctx: Context): Option<Rule>
  {
    var o := ctx.order;
    if o.amount == 0 then Some(ZeroAmount)
    else if o.slippageBps > ctx.maxSlippageBps then Some(Slippage)
    else if Sol(o.amount) > ctx.maxPosition then Some(PositionSize)
    else if ctx.exposure + Sol(o.amount) > ctx.maxExposure then Some(Exposure)
    else if ctx.dailyLoss > ctx.maxDailyLoss then Some(DailyLoss)
    else if ctx.sandwichRisk > ctx.maxSandwichRisk then Some(SandwichRisk)
    else if ctx.curve.None? then None
    else
      var (maxCost, minOut) := ctx.curve.value.PriceImpact(o.amount, o.slippageBps);
      if o.maxCost.Some? && o.maxCost.value < maxCost then Some(MaxCostTooLow)
      else if o.minOutput.Some? && o.minOutput.value > minOut then Some(MinOutputTooHigh)
      else None
  }

  /** What each rule forbids, on its own; SOL limits in lamports. */
  predicate Violates(ctx: Context, rule: Rule)
  {
    var o := ctx.order;
    match rule
    case ZeroAmount => o.amount == 0
    case Slippage => ctx.maxSlippageBps < o.slippageBps
    case PositionSize => ctx.maxPosition * 1_000_000_000.0 < o.amount as real
    case Exposure => ctx.maxExposure * 1_000_000_000.0 < ctx.exposure * 1_000_000_000.0 + o.amount as real
    case DailyLoss => ctx.maxDailyLoss < ctx.dailyLoss
    case SandwichRisk => ctx.maxSandwichRisk < ctx.sandwichRisk
    case MaxCostTooLow => ctx.curve.Some? && o.maxCost.Some? && o.maxCost.value < ctx.curve.value.PriceImpact(o.amount, o.slippageBps).0
    case MinOutputTooHigh => ctx.curve.Some? && o.minOutput.Some? && ctx.curve.value.PriceImpact(o.amount, o.slippageBps).1 < o.minOutput.value
  }

  lemma InLamports(lamports: nat, limit: real)
    ensures Sol(lamports) > limit <==> lamports as real > limit * 1_000_000_000.0
  {
  }

  /** The documented order of the rules. */
  function Rank(rule: Rule): nat
  {
    match rule
    case ZeroAmount => 0
    case Slippage => 1
    case PositionSize => 2
    case Exposure => 3
    case DailyLoss => 4
    case SandwichRisk => 5
    case MaxCostTooLow => 6
    case MinOutputTooHigh => 7
  }

  /** The rule reported is the first in the documented order that the order violates; none is when it violates none. */
  lemma FirstInOrder(ctx: Context, rule: Rule)
    ensures Violated(ctx) == Some(rule) <==>
            Violates(ctx, rule) && forall other | Rank(other) < Rank(rule) :: !Violates(ctx, other)
    ensures Violated(ctx).None? <==> forall any :: !Violates(ctx, any)
  {
    InLamports(ctx.order.amount, ctx.maxPosition);
    InLamports(ctx.order.amount, ctx.maxExposure - ctx.exposure);
    if Violated(ctx).Some? {
      var first := Violated(ctx).value;
      assert Violates(ctx, first);
      assert forall other | Rank(other) < Rank(first) :: !Violates(ctx, other);
      assert Rank(rule) == Rank(first) ==> rule == first;
    }
  }

  lemma FirstViolated(ctx: Context)
    ensures Violated(ctx).None? <==> forall rule :: !Violates(ctx, rule)
    ensures Violated(ctx).Some? ==>
            var first := Violated(ctx).value;
            Violates(ctx, first) && forall other | Rank(other) < Rank(first) :: !Violates(ctx, other)
  {
    forall rule {
      FirstInOrder(ctx, rule);
    }
  }

  // ---- The engine's state ----

  datatype Engine = Engine(rejects: nat, paused: bool, needsDbPause: bool)

  const START: Engine := Engine(0, false, false)

  function Count(rejects: nat): nat
  {
    (rejects + 1) % U32
  }

  function AfterReject(threshold: nat, e: Engine, rule: Rule): (Engine, Verdict)
  {
    var count := Count(e.rejects);
    if count >= threshold && !e.paused then (Engine(count, true, true), Halt(AutoPaused))
    else (e.(rejects := count), Reject(rule))
  }

  function AfterEvaluate(threshold: nat, e: Engine, ctx: Context): (Engine, Verdict)
  {
    if e.paused then (e, Halt(AutoPaused))
    else if ctx.demoMode then (e, Halt(DemoMode))
    else match Violated(ctx)
      case Some(rule) => AfterReject(threshold, e, rule)
      case None => (e.(rejects := 0), Allow)
  }

  // ---- One call at a time: what callers can see ----

  datatype Call = Evaluate(ctx: Context) | Take | Reset

  datatype Event = Judged(verdict: Verdict) | Taken(flag: bool) | WasReset

  function AfterCall(threshold: nat, e: Engine, c: Call): (Engine, Event)
  {
    match c
    case Evaluate(ctx) => var (f, v) := AfterEvaluate(threshold, e, ctx); (f, Judged(v))
    case Take => (e.(needsDbPause := false), Taken(e.needsDbPause))
    case Reset => (START, WasReset)
  }

  function AfterCalls(threshold: nat, calls: seq<Call>): (Engine, seq<Event>)
  {
    if calls == [] then (START, []) else
      var (e, seen) := AfterCalls(threshold, calls[..|calls| - 1]);
      var (f, event) := AfterCall(threshold, e, calls[|calls| - 1]);
      (f, seen + [event])
  }

  /** The latch was reported to a caller since the last reset. */
  predicate PauseSeen(seen: seq<Event>)
  {
    seen != [] && seen[|seen| - 1] != WasReset &&
    (seen[|seen| - 1] == Judged(Halt(AutoPaused)) || PauseSeen(seen[..|seen| - 1]))
  }

  /** The latch was reported since the last reset, and the report to the database not yet taken. */
  predicate PauseDue(seen: seq<Event>)
  {
    seen != [] &&
    var last, rest := seen[|seen| - 1], seen[..|seen| - 1];
    last != WasReset && !last.Taken? && ((last == Judged(Halt(AutoPaused)) && !PauseSeen(rest)) || PauseDue(rest))
  }

  /** Rejections since the last Allow or reset, as callers count them. */
  function RejectsSeen(seen: seq<Event>): nat
  {
    if seen == [] then 0 else
      var last, rest := seen[|seen| - 1], seen[..|seen| - 1];
      if last == WasReset || last == Judged(Allow) then 0
      else (if last.Judged? && last.verdict.Reject? then 1 else 0) + RejectsSeen(rest)
  }

  function Effective(threshold: nat): nat
  {
    if threshold == 0 then 1 else threshold
  }

  /** The fields are what the events imply. */
  predicate Implied(threshold: nat, e: Engine, seen: seq<Event>)
  {
    && e.paused == PauseSeen(seen) && e.needsDbPause == PauseDue(seen)
    && e.rejects == RejectsSeen(seen) + (if PauseSeen(seen) then 1 else 0)
    && (e.paused <==> e.rejects >= Effective(threshold))
    && e.rejects <= Effective(threshold)
  }

  lemma CallKeeps(threshold: nat, e: Engine, seen: seq<Event>, c: Call)
    requires threshold < 0x1_0000_0000 && Implied(threshold, e, seen)
    ensures var (f, event) := AfterCall(threshold, e, c); Implied(threshold, f, seen + [event])
  {
    var (f, event) := AfterCall(threshold, e, c);
    Newest(seen, event);
  }

  lemma Newest(seen: seq<Event>, event: Event)
    ensures PauseSeen(seen + [event]) <==> event != WasReset && (event == Judged(Halt(AutoPaused)) || PauseSeen(seen))
    ensures PauseDue(seen + [event]) <==>
            event != WasReset && !event.Taken? && ((event == Judged(Halt(AutoPaused)) && !PauseSeen(seen)) || PauseDue(seen))
    ensures RejectsSeen(seen + [event]) ==
            if event == WasReset || event == Judged(Allow) then 0
            else (if event.Judged? && event.verdict.Reject? then 1 else 0) + RejectsSeen(seen)
  {
    assert (seen + [event])[..|seen|] == seen;
  }

  /** The engine's fields are exactly what the verdicts reported so far imply: the counter is the run of
      rejections plus the halt that crossed the threshold, and the latch is set exactly when that halt was
      reported, which is exactly when the run reached the threshold; the flag is set exactly while that halt has not
      been taken. */
  lemma {:induction false} HistoryRefinement(threshold: nat, calls: seq<Call>)
    requires threshold < 0x1_0000_0000
    ensures var (e, seen) := AfterCalls(threshold, calls);
            && e.paused == PauseSeen(seen) && e.needsDbPause == PauseDue(seen)
            && e.rejects == RejectsSeen(seen) + (if PauseSeen(seen) then 1 else 0)
            && (e.paused <==> e.rejects >= Effective(threshold))
            && e.rejects <= Effective(threshold)
  {
    if calls == [] {
    } else {
      var init := calls[..|calls| - 1];
      HistoryRefinement(threshold, init);
      var (e, seen) := AfterCalls(threshold, init);
      CallKeeps(threshold, e, seen, calls[|calls| - 1]);
    }
  }
}
