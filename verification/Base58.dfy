/** The Base58 encoder and decoder of the settings route. */
module Base58 {
  import opened Positional
  import opened Radix

  /** Digits without 0, upper case without I and O, lower case without l. */
  const ALPHABET: string := "123456789" + "ABCDEFGH" + "JKLMN" + "PQRSTUVWXYZ" + "abcdefghijk" + "mnopqrstuvwxyz"

  type byte = x: int | 0 <= x < 256

  /** digits := digits * 256 + b in radix 58: one turn of the encoder's byte loop. */
  method TakeByte(digits: seq<nat>, b: byte) returns (r: seq<nat>)
    requires Canonical(digits, 58)
    ensures Canonical(r, 58) && Eval(r, 58) == Eval(digits, 58) * 256 + b
  {
    r := digits;
    var carry: nat := b;
    CarryStart(digits, 58, 256, b);
    for j := 0 to |digits|
      invariant Carried(r, digits, j, carry, 58, 256, b)
    {
      var sum := carry + r[j] * 256;
      assert sum <= 57 * 256 + 255;  // far below 2^31, so the 32-bit shift is exact
      CarryTurn(r, digits, j, carry, sum / 58, sum % 58, 58, 256, b);
      r := r[j := sum % 58];
      carry := sum / 58;
    }
    CarryEnd(r, digits, carry, 58, 256, b);
    while carry > 0
      invariant Pushing(r, carry, 58, Eval(digits, 58) * 256 + b)
      decreases carry
    {
      PushTurn(r, carry, carry / 58, carry % 58, 58, Eval(digits, 58) * 256 + b);
      r := r + [carry % 58];
      carry := carry / 58;
    }
  }

  /** bytes := bytes * 58 + d in radix 256: one turn of the decoder's character loop. */
  method TakeDigit(bytes: seq<nat>, d: nat) returns (r: seq<nat>)
    requires Canonical(bytes, 256) && d < 58
    ensures Canonical(r, 256) && Eval(r, 256) == Eval(bytes, 256) * 58 + d
  {
    r := bytes;
    var carry := d;
    CarryStart(bytes, 256, 58, d);
    for j := 0 to |bytes|
      invariant Carried(r, bytes, j, carry, 256, 58, d)
    {
      var sum := carry + r[j] * 58;
      assert sum <= 255 * 58 + 57;  // far below 2^31, so the 32-bit mask and shift are exact
      CarryTurn(r, bytes, j, carry, sum / 256, sum % 256, 256, 58, d);
      r := r[j := sum % 256];
      carry := sum / 256;
    }
    CarryEnd(r, bytes, carry, 256, 58, d);
    while carry > 0
      invariant Pushing(r, carry, 256, Eval(bytes, 256) * 58 + d)
      decreases carry
    {
      PushTurn(r, carry, carry / 256, carry % 256, 256, Eval(bytes, 256) * 58 + d);
      r := r + [carry % 256];
      carry := carry / 256;
    }
  }

  datatype Result<T> = Ok(value: T) | Invalid(character: char)

  // ---- The alphabet ----

  /** Position of c at or after k, as `indexOf` finds it. */
  function IndexFrom(c: char, k: nat): (i: int)
    requires k <= 58
    ensures i == -1 || (k <= i < 58 && ALPHABET[i] == c)
    ensures i == -1 ==> forall j | k <= j < 58 :: ALPHABET[j] != c
    decreases 58 - k
  {
    if k == 58 then -1 else if ALPHABET[k] == c then k else IndexFrom(c, k + 1)
  }

  function IndexOf(c: char): int
  {
    IndexFrom(c, 0)
  }

  predicate Consecutive(run: string, first: char)
  {
    forall k | 0 <= k < |run| :: run[k] as int == first as int + k
  }

  /** Code point of the i-th letter. */
  function Code(i: nat): int
  {
    if i < 9 then 49 + i
    else if i < 17 then 56 + i
    else if i < 22 then 57 + i
    else if i < 33 then 58 + i
    else if i < 44 then 64 + i
    else 65 + i
  }

  lemma LetterCode(i: nat)
    requires i < 58
    ensures ALPHABET[i] as int == Code(i)
  {
    assert Consecutive("123456789", '1') && Consecutive("ABCDEFGH", 'A') && Consecutive("JKLMN", 'J');
    assert Consecutive("PQRSTUVWXYZ", 'P') && Consecutive("abcdefghijk", 'a') && Consecutive("mnopqrstuvwxyz", 'm');
  }

  lemma AlphabetAscends(i: nat, j: nat)
    requires i < j < 58
    ensures ALPHABET[i] < ALPHABET[j]
  {
    LetterCode(i);
    LetterCode(j);
  }

  /** The letters are the 58 digits and letters without 0, I, O and l; with `AlphabetAscends` that fixes each one's value. */
  lemma LettersExact(c: char)
    ensures IndexOf(c) >= 0 <==>
            '1' <= c <= '9' || ('A' <= c <= 'Z' && c != 'I' && c != 'O') || ('a' <= c <= 'z' && c != 'l')
  {
    var i, n := IndexOf(c), c as int;
    if i >= 0 {
      LetterCode(i);
    } else {
      var k := if n <= 57 then n - 49 else if n <= 72 then n - 56 else if n <= 78 then n - 57
               else if n <= 90 then n - 58 else if n <= 107 then n - 64 else n - 65;
      if 0 <= k < 58 {
        LetterCode(k);
        assert ALPHABET[k] != c;
      }
    }
  }

  lemma IndexOfLetter(d: nat)
    requires d < 58
    ensures IndexOf(ALPHABET[d]) == d
  {
    var i := IndexOf(ALPHABET[d]);
    if i < d {
      AlphabetAscends(i, d);
    } else if d < i {
      AlphabetAscends(d, i);
    }
  }

  predicate Letters(s: string)
  {
    forall k | 0 <= k < |s| :: IndexOf(s[k]) >= 0
  }

  function Spell(digits: seq<nat>): string
    requires forall k | 0 <= k < |digits| :: digits[k] < 58
  {
    seq(|digits|, k requires 0 <= k < |digits| => ALPHABET[digits[k]])
  }

  function Values(s: string): (v: seq<nat>)
    requires Letters(s)
  {
    seq(|s|, k requires 0 <= k < |s| => IndexOf(s[k]))
  }

  lemma SpellValues(digits: seq<nat>)
    requires forall k | 0 <= k < |digits| :: digits[k] < 58
    ensures Letters(Spell(digits)) && Values(Spell(digits)) == digits
  {
    forall k | 0 <= k < |digits|
      ensures IndexOf(Spell(digits)[k]) == digits[k]
    {
      IndexOfLetter(digits[k]);
    }
  }

  // ---- What the two functions compute ----

  function Encoded(bytes: seq<byte>): string
  {
    ConvertShape(bytes, 256, 58);
    Spell(Convert(bytes, 256, 58))
  }

  /** The first character outside the alphabet, if any, decides the outcome. */
  function Decoded(s: string): (r: Result<seq<byte>>)
  {
    if Letters(s) then
      ConvertShape(Values(s), 58, 256);
      Ok(Convert(Values(s), 58, 256))
    else
      Invalid(s[FirstInvalid(s)])
  }

  function FirstInvalid(s: string): (k: nat)
    requires !Letters(s)
    ensures k < |s| && IndexOf(s[k]) < 0 && Letters(s[..k])
  {
    if IndexOf(s[0]) < 0 then 0 else
      assert !Letters(s[1..]) by {
        var k :| 0 <= k < |s| && IndexOf(s[k]) < 0;
        assert s[1..][k - 1] == s[k];
      }
      1 + FirstInvalid(s[1..])
  }

  /** Decoding an encoding returns the bytes, exactly when there are any. */
  lemma RoundTrip(bytes: seq<byte>)
    ensures Decoded(Encoded(bytes)) == Ok(bytes) <==> bytes != []
  {
    ConvertShape(bytes, 256, 58);
    SpellValues(Convert(bytes, 256, 58));
    ConvertBack(bytes, 256, 58);
  }

  /** Every non-empty string over the alphabet is the encoding of what it decodes to: encodings are canonical. */
  lemma Canonicity(s: string)
    requires Letters(s)
    ensures Decoded(s).Ok? && (Encoded(Decoded(s).value) == s <==> s != "")
  {
    var v := Values(s);
    ConvertBack(v, 58, 256);
    ConvertShape(v, 58, 256);
    var bytes: seq<byte> := Convert(v, 58, 256);
    assert Decoded(s) == Ok(bytes);
    ValuesSpell(s);
    if s == "" {
      ConvertShape(bytes, 256, 58);
    }
  }

  lemma ValuesSpell(s: string)
    requires Letters(s)
    ensures Spell(Values(s)) == s
  {
  }

  /** So no two byte strings share an encoding. */
  lemma Injective(a: seq<byte>, b: seq<byte>)
    requires a != [] && b != [] && Encoded(a) == Encoded(b)
    ensures a == b
  {
    RoundTrip(a);
    RoundTrip(b);
  }

  // ---- The two functions ----

  method Encode(bytes: seq<byte>) returns (s: string)
    ensures s == Encoded(bytes)
  {
    var digits := ToDigits(bytes);
    DigitsCanonical(BigEndian(bytes, 256), 58);
    s := LeadingOnes(bytes);
    ghost var ones := |s|;
    for i := |digits| downto 0
      invariant |s| == ones + |digits| - i
      invariant forall j | 0 <= j < ones :: s[j] == ALPHABET[0]
      invariant forall j | i <= j < |digits| :: s[ones + |digits| - 1 - j] == ALPHABET[digits[j]]
    {
      s := s + [ALPHABET[digits[i]]];
    }
    SpelledOut(s, ones, digits);
    ConvertShape(bytes, 256, 58);
  }

  lemma SpelledOut(s: string, ones: nat, digits: seq<nat>)
    requires |s| == ones + |digits| && forall j | 0 <= j < |digits| :: digits[j] < 58
    requires forall j | 0 <= j < ones :: s[j] == ALPHABET[0]
    requires forall j | 0 <= j < |digits| :: s[ones + |digits| - 1 - j] == ALPHABET[digits[j]]
    ensures s == Spell(Zeros(ones) + Reverse(digits))
  {
    var c := Zeros(ones) + Reverse(digits);
    forall j | 0 <= j < |s|
      ensures s[j] == ALPHABET[c[j]]
    {
      if ones <= j {
        assert s[ones + |digits| - 1 - (ones + |digits| - 1 - j)] == ALPHABET[digits[ones + |digits| - 1 - j]];
      }
    }
  }

  /** The radix-58 digits of the bytes, read as one big-endian number. */
  method ToDigits(bytes: seq<byte>) returns (digits: seq<nat>)
    ensures digits == Digits(BigEndian(bytes, 256), 58)
  {
    digits := [0];
    for i := 0 to |bytes|
      invariant Canonical(digits, 58) && Eval(digits, 58) == BigEndian(bytes[..i], 256)
    {
      digits := TakeByte(digits, bytes[i]);
      assert bytes[..i + 1][..i] == bytes[..i];
    }
    assert bytes[..|bytes|] == bytes;
    DigitsCanonical(BigEndian(bytes, 256), 58);
    Unique(digits, Digits(BigEndian(bytes, 256), 58), 58);
  }

  /** One letter for each leading zero byte but the last byte. */
  method LeadingOnes(bytes: seq<byte>) returns (s: string)
    ensures |s| == Lead(bytes) && forall j | 0 <= j < |s| :: s[j] == ALPHABET[0]
  {
    s := "";
    var k := 0;
    while k < |bytes| - 1 && bytes[k] == 0
      invariant 0 <= k <= |bytes| && |s| == k
      invariant forall j | 0 <= j < k :: s[j] == ALPHABET[0]
      invariant Lead(bytes) == k + Lead(bytes[k..])
    {
      s := s + [ALPHABET[0]];
      k := k + 1;
      assert bytes[k - 1..][1..] == bytes[k..];
    }
  }

  method Decode(s: string) returns (r: Result<seq<byte>>)
    ensures r == Decoded(s)
  {
    var number := ToBytes(s);
    if number.Invalid? {
      return Invalid(number.character);
    }
    var bytes := PadZeros(s, number.value);
    ghost var v := Values(s);
    ConvertShape(v, 58, 256);
    assert Reverse(bytes) == Zeros(Lead(v)) + Reverse(number.value);
    r := Ok(Reverse(bytes));
  }

  /** The radix-256 digits of the characters' values, unless one is not a letter. */
  method ToBytes(s: string) returns (r: Result<seq<nat>>)
    ensures r == if Letters(s) then Ok(Digits(BigEndian(Values(s), 58), 256)) else Invalid(s[FirstInvalid(s)])
  {
    var bytes: seq<nat> := [0];
    for i := 0 to |s|
      invariant Letters(s[..i])
      invariant Canonical(bytes, 256) && Eval(bytes, 256) == BigEndian(Values(s[..i]), 58)
    {
      var d := IndexOf(s[i]);
      if d < 0 {
        FirstInvalidAt(s, i);
        return Invalid(s[i]);
      }
      ValuesExtend(s, i);
      bytes := TakeDigit(bytes, d);
    }
    assert s[..|s|] == s;
    DigitsCanonical(BigEndian(Values(s), 58), 256);
    Unique(bytes, Digits(BigEndian(Values(s), 58), 256), 256);
    r := Ok(bytes);
  }

  lemma ValuesExtend(s: string, i: nat)
    requires i < |s| && Letters(s[..i]) && IndexOf(s[i]) >= 0
    ensures Letters(s[..i + 1])
    ensures BigEndian(Values(s[..i + 1]), 58) == BigEndian(Values(s[..i]), 58) * 58 + IndexOf(s[i])
  {
    var v := Values(s[..i + 1]);
    assert v[..|v| - 1] == Values(s[..i]);
  }

  /** One high-order zero byte for each leading '1' but the last character. */
  method PadZeros(s: string, bytes: seq<nat>) returns (r: seq<nat>)
    requires Letters(s)
    ensures r == bytes + Zeros(Lead(Values(s)))
  {
    ghost var v := Values(s);
    r := bytes;
    var k := 0;
    while k < |s| - 1 && s[k] == '1'
      invariant 0 <= k <= |s| && r == bytes + Zeros(k)
      invariant Lead(v) == k + Lead(v[k..])
    {
      OneIsZero(s[k]);
      r := r + [0];
      k := k + 1;
      assert v[k - 1..][1..] == v[k..];
    }
    if k < |s| {
      OneIsZero(s[k]);
    }
  }

  lemma OneIsZero(c: char)
    ensures IndexOf(c) == 0 <==> c == '1'
  {
    LetterCode(0);
    IndexOfLetter(0);
  }

  lemma {:induction false} FirstInvalidAt(s: string, i: nat)
    requires i < |s| && Letters(s[..i]) && IndexOf(s[i]) < 0
    ensures !Letters(s) && FirstInvalid(s) == i
  {
    if i == 0 {
    } else {
      assert s[..i][0] == s[0];
      assert s[1..][..i - 1] == s[..i][1..];
      FirstInvalidAt(s[1..], i - 1);
    }
  }
}
