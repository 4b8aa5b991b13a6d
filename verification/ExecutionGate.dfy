/** The bounds an order is sent with, and the execution gate that vets them. */
module ExecutionGate {
  import opened Basics
  import opened Widths
  import opened BondingCurve
  import opened Decision
  import CurveTheorems

  /** (max cost, min output) from the pool, or from the amount alone without a pool snapshot. */
  function DynamicBounds(o: Order, curve: Option<Curve>): (u64, u64)
  {
    match curve
    case Some(c) => c.PriceImpact(o.amount, o.slippageBps)
    case None =>
      var slack := FloorDiv(WrapMul(o.amount, o.slippageBps), 10_000);
      (WrapU64(o.amount + slack), SatSub(o.amount, slack))
  }

  /** The caller's explicit bounds win over the computed ones. */
  function SentBounds(o: Order, curve: Option<Curve>): (u64, u64)
  {
    var (maxCost, minOut) := DynamicBounds(o, curve);
    (if o.maxCost.Some? then o.maxCost.value else maxCost, if o.minOutput.Some? then o.minOutput.value else minOut)
  }

  /** What an order past the gate is sent with next to a pool: each explicit bound unchanged, which then is no tighter
      than the pool's, and the pool's where there is none.  Both quotes satisfy those bounds, even where the 64-bit
      slippage product wraps. */
  lemma SentBoundsHold(ctx: Context)
    requires Violated(ctx).None? && ctx.curve.Some?
    ensures var c, o := ctx.curve.value, ctx.order;
            var (cost, out) := SentBounds(o, ctx.curve);
            var (poolCost, poolOut) := c.PriceImpact(o.amount, o.slippageBps);
            && (if o.maxCost.Some? then cost == o.maxCost.value >= poolCost else cost == poolCost)
            && (if o.minOutput.Some? then out == o.minOutput.value <= poolOut else out == poolOut)
            && out <= c.SolForTokens(o.amount) <= c.SolCostForTokens(o.amount) <= cost
  {
    CurveTheorems.BoundsBracket(ctx.curve.value, ctx.order.amount, ctx.order.slippageBps);
  }

  /** Without a pool the default slack is amount * bps / 10_000 either way: below, floored at zero, whenever the product
      fits 64 bits, and above exactly when the sum fits too. */
  lemma WithoutPoolExact(o: Order)
    ensures var (cost, out) := SentBounds(o, None);
            var slack := o.amount * o.slippageBps / 10_000;
            && (o.maxCost.Some? ==> cost == o.maxCost.value)
            && (o.minOutput.Some? ==> out == o.minOutput.value)
            && (o.maxCost.None? ==> (cost == o.amount + slack <==>
                                     o.amount * o.slippageBps <= U64_MAX && o.amount + slack <= U64_MAX))
            && (o.minOutput.None? && o.amount * o.slippageBps <= U64_MAX ==> out == Max(o.amount - slack, 0))
  {
    ProductFits(o.amount, o.slippageBps);
    WrappedShare(o.amount, o.amount * o.slippageBps);
  }

  lemma WrappedShare(amount: u64, product: nat)
    ensures WrapU64(product) == product <==> product <= U64_MAX
    ensures WrapU64(amount + FloorDiv(WrapU64(product), 10_000)) == amount + product / 10_000 <==>
            product <= U64_MAX && amount + product / 10_000 <= U64_MAX
  {
    var wrapped := WrapU64(product);
    if U64_MAX < product {
      var turns := product / (U64_MAX + 1);
      assert product == turns * (U64_MAX + 1) + wrapped && 1 <= turns;
      assert wrapped + U64_MAX + 1 <= product;
      assert wrapped / 10_000 < product / 10_000;
      assert WrapU64(amount + FloorDiv(wrapped, 10_000)) <= amount + wrapped / 10_000;
    }
  }

  /** The context without its pool snapshot: the rules that do not look at the pool. */
  function WithoutPool(ctx: Context): Context
  {
    ctx.(curve := None)
  }

  /** On top of the other rules the gate asks exactly that the bounds sent are no tighter than the computed ones. */
  lemma GateIsExact(ctx: Context)
    requires ctx.curve.Some?
    ensures var (maxCost, minOut) := SentBounds(ctx.order, ctx.curve);
            var (safeCost, safeOut) := DynamicBounds(ctx.order, ctx.curve);
            Violated(ctx).None? <==> Violated(WithoutPool(ctx)).None? && maxCost >= safeCost && minOut <= safeOut
  {
  }

  /** In lamports: passing the gate means the order fits under the exposure limit next to the exposure read,
      and every other rule is kept. */
  lemma ExposureInLamports(ctx: Context, others: nat, limit: nat)
    requires ctx.exposure * 1_000_000_000.0 == others as real && ctx.maxExposure * 1_000_000_000.0 == limit as real
    ensures Violated(ctx).None? <==>
            others + ctx.order.amount <= limit && forall rule | rule != Exposure :: !Violates(ctx, rule)
  {
    FirstViolated(ctx);
    assert others + ctx.order.amount <= limit <==> others as real + ctx.order.amount as real <= limit as real;
    assert Violates(ctx, Exposure) <==> limit < others + ctx.order.amount;
  }
}
