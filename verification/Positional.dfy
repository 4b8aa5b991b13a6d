/** Positional notation, least significant digit first. */
module Positional {
  function Pow(base: nat, n: nat): nat
  {
    if n == 0 then 1 else base * Pow(base, n - 1)
  }

  function Eval(digits: seq<nat>, base: nat): nat
  {
    if digits == [] then 0 else digits[0] + base * Eval(digits[1..], base)
  }

  /** Digits below the base and no superfluous leading zero; zero itself is [0]. */
  predicate Canonical(digits: seq<nat>, base: nat)
  {
    digits != [] && (forall k | 0 <= k < |digits| :: digits[k] < base) && (|digits| == 1 || digits[|digits| - 1] != 0)
  }

  lemma {:induction false} EvalAppend(digits: seq<nat>, d: nat, base: nat)
    ensures Eval(digits + [d], base) == Eval(digits, base) + d * Pow(base, |digits|)
  {
    if digits == [] {
      assert Eval([d], base) == d + base * Eval([d][1..], base);
    } else {
      assert (digits + [d])[1..] == digits[1..] + [d];
      EvalAppend(digits[1..], d, base);
      var p := Pow(base, |digits| - 1);
      assert base * (d * p) == d * (base * p);
    }
  }

  lemma DigitRest(a: nat, x: nat, b: nat, y: nat, base: nat)
    requires a < base && b < base && a + base * x == b + base * y
    ensures a == b && x == y
  {
    assert base * (x - y) == b - a;
    if x < y {
      Scaled(base, x - y, -1);
    } else if y < x {
      Scaled(base, 1, x - y);
    }
  }

  lemma Scaled(base: nat, x: int, y: int)
    requires x <= y
    ensures base * x <= base * y
  {
  }

  lemma {:induction false} EvalZero(digits: seq<nat>, base: nat)
    requires Canonical(digits, base) && 2 <= base && Eval(digits, base) == 0
    ensures digits == [0]
  {
    var rest := digits[1..];
    DigitRest(digits[0], Eval(rest, base), 0, 0, base);
    if rest != [] {
      assert rest[|rest| - 1] == digits[|digits| - 1];
      EvalZero(rest, base);
    }
  }

  /** Canonical notation is unique. */
  lemma {:induction false} Unique(a: seq<nat>, b: seq<nat>, base: nat)
    requires 2 <= base && Canonical(a, base) && Canonical(b, base) && Eval(a, base) == Eval(b, base)
    ensures a == b
    decreases |a|
  {
    if Eval(a, base) == 0 {
      EvalZero(a, base);
      EvalZero(b, base);
    } else {
      DigitRest(a[0], Eval(a[1..], base), b[0], Eval(b[1..], base), base);
      if |a| > 1 && |b| > 1 {
        assert a[1..][|a| - 2] == a[|a| - 1] && b[1..][|b| - 2] == b[|b| - 1];
        Unique(a[1..], b[1..], base);
      } else if |a| > 1 {
        assert a[1..][|a| - 2] == a[|a| - 1];
        EvalZero(a[1..], base);
      } else if |b| > 1 {
        assert b[1..][|b| - 2] == b[|b| - 1];
        EvalZero(b[1..], base);
      }
      assert a == [a[0]] + a[1..] && b == [b[0]] + b[1..];
    }
  }

  // ---- Carry loops: digits := digits * factor + addend, digit by digit ----

  /** The first j digits are rewritten, `carry` is owed to the j-th, the rest is untouched. */
  ghost predicate Carried(r: seq<nat>, before: seq<nat>, j: nat, carry: nat, base: nat, factor: nat, addend: nat)
  {
    && |r| == |before| && j <= |r| && carry < factor
    && r[j..] == before[j..]
    && (forall k | 0 <= k < |r| :: r[k] < base)
    && Eval(r[..j], base) + carry * Pow(base, j) == Eval(before[..j], base) * factor + addend
    && (j == |r| && carry == 0 && 1 < |r| ==> r[j - 1] != 0)
  }

  lemma CarryStart(digits: seq<nat>, base: nat, factor: nat, addend: nat)
    requires Canonical(digits, base) && addend < factor
    ensures Carried(digits, digits, 0, addend, base, factor, addend)
  {
  }

  /** One turn: carry + r[j] * factor splits into the new digit d and the next carry q. */
  lemma CarryTurn(r: seq<nat>, before: seq<nat>, j: nat, carry: nat, q: nat, d: nat, base: nat, factor: nat, addend: nat)
    requires 2 <= base && Canonical(before, base) && Carried(r, before, j, carry, base, factor, addend) && j < |r|
    requires carry + r[j] * factor == q * base + d && d < base
    ensures Carried(r[j := d], before, j + 1, q, base, factor, addend)
  {
    var t := r[j := d];
    assert r[j] == r[j..][0] == before[j..][0] == before[j];
    NextCarry(r[j], carry, q, d, base, factor);
    CarryValue(r[..j], before[..j], r[j], carry, q, d, base, factor, addend);
    assert t[..j + 1] == r[..j] + [d] && before[..j + 1] == before[..j] + [r[j]];
    assert t[j + 1..] == r[j..][1..] && before[j + 1..] == before[j..][1..];
  }

  /** The carry stays below the factor; a non-zero digit never vanishes altogether. */
  lemma NextCarry(x: nat, carry: nat, q: nat, d: nat, base: nat, factor: nat)
    requires x < base && carry < factor && carry + x * factor == q * base + d
    ensures q < factor && (x != 0 && q == 0 ==> d != 0)
  {
    Scaled(factor, x, base - 1);
    if factor <= q {
      Scaled(base, factor, q);
    }
    if x != 0 {
      Scaled(factor, 1, x);
    }
  }

  lemma CarryValue(low: seq<nat>, done: seq<nat>, x: nat, carry: nat, q: nat, d: nat, base: nat, factor: nat, addend: nat)
    requires |low| == |done| && carry + x * factor == q * base + d
    requires Eval(low, base) + carry * Pow(base, |low|) == Eval(done, base) * factor + addend
    ensures Eval(low + [d], base) + q * Pow(base, |low| + 1) == Eval(done + [x], base) * factor + addend
  {
    EvalAppend(low, d, base);
    EvalAppend(done, x, base);
    CarryAlgebra(Eval(low, base), Eval(done, base), x, carry, q, d, Pow(base, |low|), base, factor, addend);
  }

  lemma CarryAlgebra(lowV: int, doneV: int, x: int, carry: int, q: int, d: int, p: int, base: int, factor: int, addend: int)
    requires lowV + carry * p == doneV * factor + addend && carry + x * factor == q * base + d
    ensures lowV + d * p + q * (base * p) == (doneV + x * p) * factor + addend
  {
    assert d * p + q * (base * p) == (q * base + d) * p == (carry + x * factor) * p == carry * p + (x * factor) * p;
    assert (x * p) * factor == (x * factor) * p;
  }

  /** All digits are rewritten and `carry` is still to be pushed to make `value`. */
  ghost predicate Pushing(r: seq<nat>, carry: nat, base: nat, value: nat)
  {
    && r != [] && (forall k | 0 <= k < |r| :: r[k] < base)
    && Eval(r, base) + carry * Pow(base, |r|) == value
    && (carry == 0 && 1 < |r| ==> r[|r| - 1] != 0)
  }

  lemma CarryEnd(r: seq<nat>, before: seq<nat>, carry: nat, base: nat, factor: nat, addend: nat)
    requires before != [] && Carried(r, before, |before|, carry, base, factor, addend)
    ensures Pushing(r, carry, base, Eval(before, base) * factor + addend)
  {
    assert r[..|r|] == r && before[..|before|] == before;
  }

  lemma PushTurn(r: seq<nat>, carry: nat, q: nat, d: nat, base: nat, value: nat)
    requires Pushing(r, carry, base, value) && 0 < carry && carry == q * base + d && d < base
    ensures Pushing(r + [d], q, base, value)
  {
    EvalAppend(r, d, base);
    CarryAlgebra(Eval(r, base), value, 0, carry, q, d, Pow(base, |r|), base, 1, 0);
  }
}
