/** Constant-product quotes of a bonding-curve pool. */
module BondingCurve {
  import opened Basics
  import opened Widths

  datatype Curve = Curve(
    virtualSol: u64,
    virtualToken: u64,
    realSol: u64,
    realToken: u64,
    complete: bool)
  {
    /** Tokens received for `sol` lamports. */
    function TokensForSol(sol: u64): (out: u64)
    {
      if sol == 0 || complete then 0
      else
        var product := SatMulU128(virtualSol, virtualToken);
        var newSol := SatAddU128(virtualSol, sol);
        var newToken := FloorDiv(product, newSol);
        Min(SatSub(virtualToken, newToken), realToken)
    }

    /** Lamports received for `tokens`. */
    function SolForTokens(tokens: u64): (out: u64)
    {
      if tokens == 0 || complete then 0
      else
        var product := SatMulU128(virtualSol, virtualToken);
        var newToken := SatAddU128(virtualToken, tokens);
        var newSol := FloorDiv(product, newToken);
        Min(SatSub(virtualSol, newSol), realSol)
    }

    /** Lamports needed to buy exactly `tokens`; the largest value when the pool cannot supply them. */
    function SolCostForTokens(tokens: u64): (cost: u64)
    {
      if tokens == 0 || complete then 0
      else if tokens >= virtualToken then U64_MAX
      else
        var numerator := SatMulU128(virtualSol, tokens);
        var denominator := virtualToken - tokens;
        ProductFits(virtualSol, tokens);
        // The unsaturated sum below stays within 128 bits.
        var rounded: u128 := numerator + denominator - 1;
        var solIn := FloorDiv(rounded, denominator);
        Min(solIn, U64_MAX)
    }

    /** (max cost of a buy, min output of a sell) of `tokens` with a slippage allowance. */
    function PriceImpact(tokens: u64, slippageBps: u64): (bounds: (u64, u64))
    {
      var cost := SolCostForTokens(tokens);
      var maxCost := if cost == U64_MAX then U64_MAX else SatAddU64(cost, FloorDiv(WrapMul(cost, slippageBps), 10_000));
      var out := SolForTokens(tokens);
      (maxCost, SatSub(out, FloorDiv(WrapMul(out, slippageBps), 10_000)))
    }

    // ---- The pool after a trade; the engine only quotes, the chain moves the reserves ----

    /** Reserves once `sol` lamports came in for `tokens`, when they are representable. */
    predicate CanBuy(sol: nat, tokens: nat)
    {
      virtualSol + sol <= U64_MAX && realSol + sol <= U64_MAX && tokens <= virtualToken && tokens <= realToken
    }

    function AfterBuy(sol: nat, tokens: nat): Curve
      requires CanBuy(sol, tokens)
    {
      Curve(virtualSol + sol, virtualToken - tokens, realSol + sol, realToken - tokens, complete)
    }

    predicate CanSell(sol: nat, tokens: nat)
    {
      virtualToken + tokens <= U64_MAX && realToken + tokens <= U64_MAX && sol <= virtualSol && sol <= realSol
    }

    function AfterSell(sol: nat, tokens: nat): Curve
      requires CanSell(sol, tokens)
    {
      Curve(virtualSol - sol, virtualToken + tokens, realSol - sol, realToken + tokens, complete)
    }
  }

  function WrapMul(x: u64, y: u64): u64
  {
    ProductFits(x, y);
    WrapU64(x * y)
  }
}
