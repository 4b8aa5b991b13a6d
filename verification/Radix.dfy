/** Changing the radix of big-endian notation while keeping its leading zeros. */
module Radix {
  import opened Positional

  function Reverse(s: seq<nat>): seq<nat>
  {
    seq(|s|, i requires 0 <= i < |s| => s[|s| - 1 - i])
  }

  function Zeros(n: nat): seq<nat>
  {
    seq(n, _ => 0)
  }

  /** How many zeros lead s, its last element aside. */
  function Lead(s: seq<nat>): nat
  {
    if |s| <= 1 || s[0] != 0 then 0 else 1 + Lead(s[1..])
  }

  /** The number a big-endian notation denotes. */
  function BigEndian(s: seq<nat>, base: nat): nat
  {
    if s == [] then 0 else BigEndian(s[..|s| - 1], base) * base + s[|s| - 1]
  }

  lemma DivLess(n: nat, base: nat)
    requires 2 <= base <= n
    ensures 0 < n / base < n && 0 <= n % base < base && n == n % base + base * (n / base)
  {
    var q: int := n / base;
    assert n == base * q + n % base;
    if q <= 0 {
      Scaled(base, q, 0);
    } else {
      Scaled(q, 2, base);
    }
  }

  /** The canonical notation of n, least significant digit first. */
  function Digits(n: nat, base: nat): seq<nat>
    requires 2 <= base
    decreases n
  {
    if n < base then [n] else
      DivLess(n, base);
      [n % base] + Digits(n / base, base)
  }

  lemma {:induction false} DigitsCanonical(n: nat, base: nat)
    requires 2 <= base
    ensures Canonical(Digits(n, base), base) && Eval(Digits(n, base), base) == n
    ensures 0 < n ==> Digits(n, base)[|Digits(n, base)| - 1] != 0
    decreases n
  {
    if n < base {
      assert Eval([n], base) == n + base * Eval([n][1..], base);
    } else {
      DivLess(n, base);
      var low, high := n % base, n / base;
      var rest := Digits(high, base);
      DigitsCanonical(high, base);
      assert Digits(n, base) == [low] + rest;
      assert ([low] + rest)[1..] == rest;
    }
  }

  lemma {:induction false} EvalReverse(s: seq<nat>, base: nat)
    ensures Eval(Reverse(s), base) == BigEndian(s, base)
  {
    if s == [] {
    } else {
      var init := s[..|s| - 1];
      assert Reverse(s)[0] == s[|s| - 1] && Reverse(s)[1..] == Reverse(init);
      EvalReverse(init, base);
    }
  }

  /** The notation of the same number in another radix, with the same leading zeros. */
  function Convert(s: seq<nat>, from: nat, to: nat): seq<nat>
    requires 2 <= to
  {
    Zeros(Lead(s)) + Reverse(Digits(BigEndian(s, from), to))
  }

  lemma {:induction false} LeadZeros(n: nat, w: seq<nat>)
    requires |w| == 1 || (|w| > 1 && w[0] != 0)
    ensures Lead(Zeros(n) + w) == n
  {
    var s := Zeros(n) + w;
    if n == 0 {
      assert s == w;
    } else {
      assert s[1..] == Zeros(n - 1) + w;
      LeadZeros(n - 1, w);
    }
  }

  /** A non-empty notation is its leading zeros followed by a last digit or something starting above zero. */
  lemma {:induction false} LeadSplits(s: seq<nat>)
    requires s != []
    ensures Lead(s) < |s| && s == Zeros(Lead(s)) + s[Lead(s)..]
    ensures Lead(s) == |s| - 1 || s[Lead(s)] != 0
  {
    if |s| > 1 && s[0] == 0 {
      LeadSplits(s[1..]);
      assert s == [0] + s[1..];
    }
  }

  lemma {:induction false} LeadingZerosIgnored(n: nat, w: seq<nat>, base: nat)
    ensures BigEndian(Zeros(n) + w, base) == BigEndian(w, base)
    decreases |w|, n
  {
    var s := Zeros(n) + w;
    if w != [] {
      assert s[..|s| - 1] == Zeros(n) + w[..|w| - 1];
      LeadingZerosIgnored(n, w[..|w| - 1], base);
    } else if n > 0 {
      assert s[..|s| - 1] == Zeros(n - 1) + w;
      LeadingZerosIgnored(n - 1, w, base);
    }
  }

  lemma ReverseTwice(s: seq<nat>)
    ensures Reverse(Reverse(s)) == s
  {
  }

  lemma ReversedTail(s: seq<nat>, base: nat)
    requires s != [] && forall k | 0 <= k < |s| :: s[k] < base
    ensures Lead(s) < |s| && Canonical(Reverse(s[Lead(s)..]), base)
  {
    LeadSplits(s);
  }

  lemma ConvertShape(s: seq<nat>, from: nat, to: nat)
    requires 2 <= to
    ensures var c := Convert(s, from, to);
            && c != [] && (forall k | 0 <= k < |c| :: c[k] < to)
            && Lead(c) == Lead(s) && BigEndian(c, to) == BigEndian(s, from)
  {
    var d := Digits(BigEndian(s, from), to);
    DigitsCanonical(BigEndian(s, from), to);
    LeadZeros(Lead(s), Reverse(d));
    LeadingZerosIgnored(Lead(s), Reverse(d), to);
    ReverseTwice(d);
    EvalReverse(Reverse(d), to);
  }

  /** Converting there and back is the identity, except that the empty notation comes back as a zero. */
  lemma ConvertBack(s: seq<nat>, from: nat, to: nat)
    requires 2 <= from && 2 <= to && forall k | 0 <= k < |s| :: s[k] < from
    ensures Convert(Convert(s, from, to), to, from) == s <==> s != []
  {
    var c := Convert(s, from, to);
    ConvertShape(s, from, to);
    ConvertShape(c, to, from);
    if s != [] {
      LeadSplits(s);
      TailIsCanonical(s, from);
    }
  }

  /** Past its leading zeros a notation is the canonical one of its number. */
  lemma TailIsCanonical(s: seq<nat>, base: nat)
    requires 2 <= base && s != [] && forall k | 0 <= k < |s| :: s[k] < base
    ensures Lead(s) < |s| && s[Lead(s)..] == Reverse(Digits(BigEndian(s, base), base))
  {
    LeadSplits(s);
    var w := s[Lead(s)..];
    LeadingZerosIgnored(Lead(s), w, base);
    EvalReverse(w, base);
    ReversedTail(s, base);
    DigitsCanonical(BigEndian(s, base), base);
    Unique(Reverse(w), Digits(BigEndian(s, base), base), base);
    ReverseTwice(w);
  }
}
