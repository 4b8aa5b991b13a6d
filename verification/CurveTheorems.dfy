/** What the rounding of the quotes guarantees to a trader and to the pool. */
module CurveTheorems {
  import opened Basics
  import opened Widths
  import opened BondingCurve

  // ---- The quotes without the width machinery ----

  lemma SellQuote(c: Curve, tokens: u64)
    requires !c.complete && 0 < c.virtualToken
    ensures c.SolForTokens(tokens) == Min(c.virtualSol - FloorDiv(c.virtualSol * c.virtualToken, c.virtualToken + tokens), c.realSol)
    ensures FloorDiv(c.virtualSol * c.virtualToken, c.virtualToken + tokens) <= c.virtualSol
  {
    if tokens == 0 {
      FloorUnique(c.virtualSol * c.virtualToken, c.virtualToken, c.virtualSol);
    } else {
      SoldQuote(c, tokens);
    }
  }

  lemma SoldQuote(c: Curve, tokens: u64)
    requires !c.complete && 0 < tokens
    ensures c.SolForTokens(tokens) == Min(c.virtualSol - FloorDiv(c.virtualSol * c.virtualToken, c.virtualToken + tokens), c.realSol)
    ensures FloorDiv(c.virtualSol * c.virtualToken, c.virtualToken + tokens) <= c.virtualSol
  {
    ProductFits(c.virtualSol, c.virtualToken);
    MulMono(c.virtualSol, c.virtualToken, c.virtualSol, c.virtualToken + tokens);
    FloorUnique(c.virtualSol * (c.virtualToken + tokens), c.virtualToken + tokens, c.virtualSol);
    FloorMono(c.virtualSol * c.virtualToken, c.virtualSol * (c.virtualToken + tokens), c.virtualToken + tokens);
  }

  lemma TokenQuote(c: Curve, sol: u64)
    requires !c.complete && 0 < sol
    ensures c.TokensForSol(sol) == Min(c.virtualToken - FloorDiv(c.virtualSol * c.virtualToken, c.virtualSol + sol), c.realToken)
    ensures FloorDiv(c.virtualSol * c.virtualToken, c.virtualSol + sol) <= c.virtualToken
  {
    ProductFits(c.virtualSol, c.virtualToken);
    MulMono(c.virtualSol, c.virtualToken, c.virtualSol + sol, c.virtualToken);
    FloorUnique((c.virtualSol + sol) * c.virtualToken, c.virtualSol + sol, c.virtualToken);
    FloorMono(c.virtualSol * c.virtualToken, (c.virtualSol + sol) * c.virtualToken, c.virtualSol + sol);
  }

  lemma CostQuote(c: Curve, tokens: u64)
    requires !c.complete && tokens < c.virtualToken
    ensures c.SolCostForTokens(tokens) == Min(CeilDiv(c.virtualSol * tokens, c.virtualToken - tokens), U64_MAX)
  {
    ProductFits(c.virtualSol, tokens);
    if tokens == 0 {
      FloorUnique(c.virtualToken - 1, c.virtualToken, 0);
    }
  }

  // ---- Exact-token buys ----

  lemma ProductShift(v: int, t: int, p: int, x: int)
    ensures (v + x) * (t - p) == v * t - v * p + x * (t - p)
  {
  }

  lemma PaymentKeepsProduct(v: nat, t: nat, p: nat, x: int)
    requires p < t
    ensures v * t <= (v + x) * (t - p) <==> CeilDiv(v * p, t - p) <= x
  {
    CeilLeast(v * p, t - p, x);
    ProductShift(v, t, p, x);
  }

  /** The quoted cost is the least payment that does not decrease the reserve product. */
  lemma LeastPayment(c: Curve, tokens: u64, x: int)
    requires !c.complete && tokens < c.virtualToken && c.SolCostForTokens(tokens) < U64_MAX
    ensures (c.virtualSol + x) * (c.virtualToken - tokens) >= c.virtualSol * c.virtualToken
            <==> x >= c.SolCostForTokens(tokens)
  {
    CostQuote(c, tokens);
    PaymentKeepsProduct(c.virtualSol, c.virtualToken, tokens, x);
  }

  // ---- Each quote is the least value with a property of the reserve product ----

  /** x lamports cover the cost exactly when the pool has more than `tokens` and the payment keeps the product:
      the largest 64-bit value is quoted exactly when no smaller payment does. */
  lemma CostExact(c: Curve, tokens: u64, x: u64)
    requires x < U64_MAX
    ensures c.SolCostForTokens(tokens) <= x <==>
            c.complete || tokens == 0 ||
            (tokens < c.virtualToken && c.virtualSol * c.virtualToken <= (c.virtualSol + x) * (c.virtualToken - tokens))
  {
    if !c.complete && 0 < tokens < c.virtualToken {
      CostQuote(c, tokens);
      PaymentKeepsProduct(c.virtualSol, c.virtualToken, tokens, x);
    }
  }

  /** x lamports are at least a sell's proceeds exactly when paying them out brings the product down to where
      it was, or empties the real reserve: the quote rounds in the seller's favour. */
  lemma SellExact(c: Curve, tokens: u64, x: nat)
    ensures c.SolForTokens(tokens) <= x <==>
            c.complete || tokens == 0 || c.realSol <= x ||
            (c.virtualSol - x) * (c.virtualToken + tokens) <= c.virtualSol * c.virtualToken
  {
    if !c.complete && 0 < tokens {
      SoldQuote(c, tokens);
      FloorGreatest(c.virtualSol * c.virtualToken, c.virtualToken + tokens, c.virtualSol - x);
    }
  }

  /** The same for the tokens a payment of `sol` lamports takes out. */
  lemma BuyExact(c: Curve, sol: u64, x: nat)
    ensures c.TokensForSol(sol) <= x <==>
            c.complete || sol == 0 || c.realToken <= x ||
            (c.virtualSol + sol) * (c.virtualToken - x) <= c.virtualSol * c.virtualToken
  {
    if !c.complete && 0 < sol {
      TokenQuote(c, sol);
      FloorGreatest(c.virtualSol * c.virtualToken, c.virtualSol + sol, c.virtualToken - x);
      Commute(c.virtualSol + sol, c.virtualToken - x);
    }
  }

  lemma Commute(x: int, y: int)
    ensures x * y == y * x
  {
  }

  /** Buying tokens and selling the same tokens back returns exactly what they cost. */
  lemma ExactInverse(c: Curve, tokens: u64)
    requires !c.complete && 0 < tokens < c.virtualToken
    requires c.SolCostForTokens(tokens) < U64_MAX && c.CanBuy(c.SolCostForTokens(tokens), tokens)
    ensures c.AfterBuy(c.SolCostForTokens(tokens), tokens).SolForTokens(tokens) == c.SolCostForTokens(tokens)
  {
    var cost: int := c.SolCostForTokens(tokens);
    var after := c.AfterBuy(cost, tokens);
    LeastPayment(c, tokens, cost);
    LeastPayment(c, tokens, cost - 1);
    var d := c.virtualToken - tokens;
    assert (c.virtualSol + cost) * d == (c.virtualSol + (cost - 1)) * d + d;
    FloorUnique(after.virtualSol * after.virtualToken, c.virtualToken, c.virtualSol);
    SellQuote(after, tokens);
  }

  function Sum(parts: seq<u64>): nat
  {
    if parts == [] then 0 else parts[0] + Sum(parts[1..])
  }

  /** Every part can be bought in turn, at a representable cost. */
  predicate CanBuyAll(c: Curve, parts: seq<u64>)
    decreases parts
  {
    parts == [] ||
    (parts[0] < c.virtualToken && c.SolCostForTokens(parts[0]) < U64_MAX &&
     c.CanBuy(c.SolCostForTokens(parts[0]), parts[0]) &&
     CanBuyAll(c.AfterBuy(c.SolCostForTokens(parts[0]), parts[0]), parts[1..]))
  }

  function CostOfAll(c: Curve, parts: seq<u64>): nat
    requires CanBuyAll(c, parts)
    decreases parts
  {
    if parts == [] then 0
    else c.SolCostForTokens(parts[0]) + CostOfAll(c.AfterBuy(c.SolCostForTokens(parts[0]), parts[0]), parts[1..])
  }

  /** Cutting a buy into parts never makes it cheaper. */
  lemma {:induction false} SplitBuyNotCheaper(c: Curve, parts: seq<u64>)
    requires !c.complete && parts != [] && CanBuyAll(c, parts)
    ensures Sum(parts) < c.virtualToken
    ensures c.SolCostForTokens(Sum(parts)) <= CostOfAll(c, parts)
    decreases parts
  {
    var p, rest := parts[0], parts[1..];
    if rest == [] {
      assert Sum(parts) == p;
    } else {
      var cost := c.SolCostForTokens(p);
      var after := c.AfterBuy(cost, p);
      SplitBuyNotCheaper(after, rest);
      PaymentCovers(c, p, Sum(rest), CostOfAll(after, rest));
    }
  }

  /** Paying for p tokens and then for q more covers buying p + q at once. */
  lemma PaymentCovers(c: Curve, p: u64, q: u64, x: nat)
    requires !c.complete && p < c.virtualToken && c.SolCostForTokens(p) < U64_MAX && c.CanBuy(c.SolCostForTokens(p), p)
    requires var after := c.AfterBuy(c.SolCostForTokens(p), p); q < after.virtualToken && after.SolCostForTokens(q) <= x
    ensures p + q < c.virtualToken && c.SolCostForTokens(p + q) <= c.SolCostForTokens(p) + x
  {
    CostQuote(c, p + q);
    if c.AfterBuy(c.SolCostForTokens(p), p).SolCostForTokens(q) < U64_MAX {
      PaymentsKeepProduct(c, p, q, x);
      PaymentsAdd(c.virtualSol, c.virtualToken, p, q, c.SolCostForTokens(p), x);
    }
  }

  lemma PaymentsKeepProduct(c: Curve, p: u64, q: u64, x: nat)
    requires !c.complete && p < c.virtualToken && c.SolCostForTokens(p) < U64_MAX && c.CanBuy(c.SolCostForTokens(p), p)
    requires var after := c.AfterBuy(c.SolCostForTokens(p), p);
             q < after.virtualToken && after.SolCostForTokens(q) <= x && after.SolCostForTokens(q) < U64_MAX
    ensures var cost := c.SolCostForTokens(p);
            c.virtualSol * c.virtualToken <= (c.virtualSol + cost) * (c.virtualToken - p)
            <= (c.virtualSol + cost + x) * (c.virtualToken - p - q)
  {
    LeastPayment(c, p, c.SolCostForTokens(p));
    LeastPayment(c.AfterBuy(c.SolCostForTokens(p), p), q, x);
  }

  lemma PaymentsAdd(v: nat, t: nat, p: nat, q: nat, cost: nat, x: nat)
    requires p + q < t && v * t <= (v + cost) * (t - p) <= (v + cost + x) * (t - p - q)
    ensures CeilDiv(v * (p + q), t - (p + q)) <= cost + x
  {
    PaymentsSum(v, t, p, q, cost, x);
    CeilLeast(v * (p + q), t - (p + q), cost + x);
  }

  lemma PaymentsSum(v: int, t: int, p: int, q: int, cost: int, x: int)
    requires v * t <= (v + cost) * (t - p) <= (v + cost + x) * (t - p - q)
    ensures v * (p + q) <= (cost + x) * (t - (p + q))
  {
    var d := t - (p + q);
    assert (v + cost + x) * d == v * d + (cost + x) * d;
    assert v * d == v * t - v * (p + q);
  }

  // ---- Sells ----

  predicate CanSellAll(c: Curve, parts: seq<u64>)
    decreases parts
  {
    parts == [] ||
    (c.CanSell(c.SolForTokens(parts[0]), parts[0]) &&
     CanSellAll(c.AfterSell(c.SolForTokens(parts[0]), parts[0]), parts[1..]))
  }

  function Proceeds(c: Curve, parts: seq<u64>): nat
    requires CanSellAll(c, parts)
    decreases parts
  {
    if parts == [] then 0
    else c.SolForTokens(parts[0]) + Proceeds(c.AfterSell(c.SolForTokens(parts[0]), parts[0]), parts[1..])
  }

  /** Going through an intermediate reserve loses at most one lamport of the final reserve. */
  lemma TwoStepReserve(k: nat, mid: nat, last: nat)
    requires 0 < mid <= last
    ensures FloorDiv(k, last) - 1 <= FloorDiv(FloorDiv(k, mid) * mid, last) <= FloorDiv(k, last)
  {
    var r := FloorDiv(k, mid) * mid;
    assert k - mid < r <= k;
    FloorMono(r, k, last);
    FloorUnique(k - last, last, FloorDiv(k, last) - 1);
    FloorMono(k - last, r, last);
  }

  lemma FloorAntitone(k: nat, d: nat, e: nat)
    requires 0 < d <= e
    ensures FloorDiv(k, e) <= FloorDiv(k, d)
  {
    var q := FloorDiv(k, e);
    MulMono(q, d, q, e);
    FloorUnique(q * d, d, q);
    FloorMono(q * d, k, d);
  }

  /** Cutting a sell into n parts never loses, and gains at most n - 1 lamports, whether or not the real reserve clamps. */
  lemma {:induction false} SplitSell(c: Curve, parts: seq<u64>)
    requires !c.complete && 0 < c.virtualToken && parts != []
    requires c.virtualToken + Sum(parts) <= U64_MAX && c.realToken + Sum(parts) <= U64_MAX
    ensures CanSellAll(c, parts)
    ensures c.SolForTokens(Sum(parts)) <= Proceeds(c, parts) <= c.SolForTokens(Sum(parts)) + |parts| - 1
    decreases parts
  {
    var p, rest := parts[0], parts[1..];
    SellQuote(c, p);
    SellQuote(c, Sum(parts));
    FloorAntitone(c.virtualSol * c.virtualToken, c.virtualToken + p, c.virtualToken + Sum(parts));
    var after := c.AfterSell(c.SolForTokens(p), p);
    if rest == [] {
      assert Sum(parts) == p;
    } else if after.realSol == 0 {
      NothingLeft(after, rest);
    } else {
      TwoStepReserve(c.virtualSol * c.virtualToken, c.virtualToken + p, c.virtualToken + Sum(parts));
      SplitSell(after, rest);
      SellQuote(after, Sum(rest));
    }
  }

  /** A pool without real SOL pays nothing, however often it is sold to. */
  lemma {:induction false} NothingLeft(c: Curve, parts: seq<u64>)
    requires !c.complete && 0 < c.virtualToken && c.realSol == 0
    requires c.virtualToken + Sum(parts) <= U64_MAX && c.realToken + Sum(parts) <= U64_MAX
    ensures CanSellAll(c, parts) && Proceeds(c, parts) == 0
    decreases parts
  {
    if parts == [] {
    } else {
      SellQuote(c, parts[0]);
      NothingLeft(c.AfterSell(0, parts[0]), parts[1..]);
    }
  }

  // ---- Fixed-SOL buys ----

  /** Spending `sol` lamports and selling everything received returns at least `sol`,
      and exceeds it by no more than the stated rounding. */
  lemma RoundTripBound(c: Curve, sol: u64)
    requires !c.complete && 0 < sol && 0 < c.virtualToken
    requires c.virtualToken - FloorDiv(c.virtualSol * c.virtualToken, c.virtualSol + sol) <= c.realToken
    requires c.CanBuy(sol, c.TokensForSol(sol))
    ensures var tokens := c.TokensForSol(sol);
            sol <= c.AfterBuy(sol, tokens).SolForTokens(tokens) <= sol + CeilDiv(c.virtualSol + sol - 1, c.virtualToken)
  {
    var left := TokensLeft(c, sol);
    var tokens: int := c.TokensForSol(sol);
    RoundTripReserve(c.virtualSol, c.virtualToken, c.virtualSol + sol, left);
    SoldBack(c.AfterBuy(sol, tokens), tokens, c.virtualSol + sol, left, c.virtualToken);
  }

  /** What a buy leaves of the virtual tokens when the real ones suffice: it always gets at least one. */
  lemma TokensLeft(c: Curve, sol: u64) returns (left: nat)
    requires !c.complete && 0 < sol && 0 < c.virtualToken
    requires c.virtualToken - FloorDiv(c.virtualSol * c.virtualToken, c.virtualSol + sol) <= c.realToken
    ensures left == FloorDiv(c.virtualSol * c.virtualToken, c.virtualSol + sol)
    ensures 0 < c.TokensForSol(sol) && left + c.TokensForSol(sol) == c.virtualToken
  {
    TokenQuote(c, sol);
    left := FloorDiv(c.virtualSol * c.virtualToken, c.virtualSol + sol);
    LessThanAll(c.virtualSol, c.virtualToken, sol);
  }

  lemma LessThanAll(v: nat, t: nat, sol: nat)
    requires 0 < t && 0 < sol
    ensures FloorDiv(v * t, v + sol) < t
  {
    var q: int := FloorDiv(v * t, v + sol);
    assert q * (v + sol) <= v * t;
    assert t * (v + sol) == v * t + t * sol;
    MulMonoInt(1, t, sol);
    if t <= q {
      MulMonoInt(t, q, v + sol);
    }
  }

  /** The virtual SOL after the round trip, given m lamports in the pool and `left` tokens in between. */
  lemma RoundTripReserve(v: nat, t: nat, m: nat, left: nat)
    requires 0 < t && 0 < m && left == FloorDiv(v * t, m)
    ensures v - CeilDiv(m - 1, t) <= FloorDiv(m * left, t) <= v
  {
    var up: int := CeilDiv(m - 1, t);
    assert m * left <= v * t <= m * left + (m - 1);
    CeilLeast(m - 1, t, up);
    assert (v - up) * t == v * t - up * t;
    FloorUnique((v - up) * t, t, v - up);
    FloorMono((v - up) * t, m * left, t);
    FloorUnique(v * t, t, v);
    FloorMono(m * left, v * t, t);
  }

  lemma SoldBack(after: Curve, tokens: u64, m: nat, left: nat, total: nat)
    requires !after.complete && 0 < tokens && after.virtualSol == m && after.virtualToken == left && left + tokens == total
    ensures after.SolForTokens(tokens) == Min(m - FloorDiv(m * left, total), after.realSol)
  {
    SoldQuote(after, tokens);
  }

  // ---- Covering and widths ----

  /** Paying the quoted cost of `tokens` buys at least `tokens`, exactly when the pool holds virtual SOL. */
  lemma CostBuysTokens(c: Curve, tokens: u64)
    requires !c.complete && 0 < tokens < c.virtualToken && tokens <= c.realToken
    requires c.SolCostForTokens(tokens) < U64_MAX
    ensures c.TokensForSol(c.SolCostForTokens(tokens)) >= tokens <==> 0 < c.virtualSol
  {
    var cost: int := c.SolCostForTokens(tokens);
    LeastPayment(c, tokens, cost);
    LeastPayment(c, tokens, 0);
    if 0 < c.virtualSol {
      LessProduct(c.virtualSol, c.virtualToken, tokens);
      TokenQuote(c, cost);
      var m, kept: int := c.virtualSol + cost, c.virtualToken - tokens;
      FloorUnique(m * kept, m, kept);
      FloorMono(c.virtualSol * c.virtualToken, m * kept, m);
    }
  }

  lemma LessProduct(v: int, t: int, p: int)
    requires 0 < v && 0 < p
    ensures v * (t - p) < v * t
  {
    assert v * (t - p) == v * t - v * p;
  }

  /** A sell quote never exceeds the cost of the same tokens, on any pool and for any amount. */
  lemma SellBelowCost(c: Curve, tokens: u64)
    ensures c.SolForTokens(tokens) <= c.SolCostForTokens(tokens)
  {
    if !c.complete && 0 < tokens < c.virtualToken {
      SellQuote(c, tokens);
      CostQuote(c, tokens);
      SellBelowCostRaw(c.virtualSol, c.virtualToken, tokens);
    }
  }

  lemma SellBelowCostRaw(v: nat, t: nat, p: nat)
    requires p < t
    ensures v - FloorDiv(v * t, t + p) <= CeilDiv(v * p, t - p)
  {
    var x: int := CeilDiv(v * p, t - p);
    CeilLeast(v * p, t - p, x);
    assert x * (t + p) == x * (t - p) + 2 * (x * p);
    assert (v - x) * (t + p) == v * t + v * p - x * (t + p);
    FloorUnique((v - x) * (t + p), t + p, v - x);
    FloorMono((v - x) * (t + p), v * t, t + p);
  }

  /** The slippage bounds bracket both quotes, even where the 64-bit product wraps. */
  lemma BoundsBracket(c: Curve, tokens: u64, bps: u64)
    ensures var (maxCost, minOut) := c.PriceImpact(tokens, bps);
            minOut <= c.SolForTokens(tokens) <= c.SolCostForTokens(tokens) <= maxCost
  {
    SellBelowCost(c, tokens);
  }

  /** Up to half of the virtual tokens cost no more than the virtual SOL. */
  lemma HalfPoolCost(c: Curve, tokens: u64)
    requires 2 * tokens <= c.virtualToken && 0 < c.virtualToken
    ensures c.SolCostForTokens(tokens) <= c.virtualSol
  {
    if !c.complete {
      CostQuote(c, tokens);
      MulMono(c.virtualSol, tokens, c.virtualSol, c.virtualToken - tokens);
      CeilLeast(c.virtualSol * tokens, c.virtualToken - tokens, c.virtualSol);
    }
  }

  /** In that range, if virtualSol * bps fits 64 bits the bounds are the exact percentages: nothing wraps. */
  lemma ImpactExact(c: Curve, tokens: u64, bps: u64)
    requires 2 * tokens <= c.virtualToken && 0 < c.virtualToken && c.virtualSol * bps <= U64_MAX
    ensures var (maxCost, minOut) := c.PriceImpact(tokens, bps);
            var cost, out := c.SolCostForTokens(tokens), c.SolForTokens(tokens);
            maxCost == Min(cost + cost * bps / 10_000, U64_MAX) && minOut == Max(out - out * bps / 10_000, 0)
  {
    HalfPoolCost(c, tokens);
    SellBelowCost(c, tokens);
    ExactMul(c.SolCostForTokens(tokens), bps, c.virtualSol);
    ExactMul(c.SolForTokens(tokens), bps, c.virtualSol);
  }

  lemma ExactMul(x: u64, bps: u64, v: u64)
    requires x <= v && v * bps <= U64_MAX
    ensures x * bps >= 0 && WrapMul(x, bps) == x * bps
  {
    MulMono(x, bps, v, bps);
  }
}
