/** Unpadded base32hex, section 7 of RFC 4648, as regrouping of bits. */
module Base32 {
  import opened Options

  type Byte = b: nat | b < 256
  type Digit = d: nat | d < 32

  // ---- Numbers and their bits, most significant first ----

  function Pow2(n: nat): (p: nat)
    ensures p > 0
  {
    if n == 0 then 1 else 2 * Pow2(n - 1)
  }

  function ToBits(x: nat, n: nat): (bits: seq<bool>)
    ensures |bits| == n
  {
    if n == 0 then [] else ToBits(x / 2, n - 1) + [x % 2 == 1]
  }

  function FromBits(bits: seq<bool>): (x: nat)
    ensures x < Pow2(|bits|)
  {
    if bits == [] then 0
    else 2 * FromBits(bits[..|bits| - 1]) + if bits[|bits| - 1] then 1 else 0
  }

  lemma {:induction false} BitsRoundTrip(bits: seq<bool>)
    ensures ToBits(FromBits(bits), |bits|) == bits
  {
    if bits != [] {
      BitsRoundTrip(bits[..|bits| - 1]);
    }
  }

  lemma {:induction false} NumberRoundTrip(x: nat, n: nat)
    requires x < Pow2(n)
    ensures FromBits(ToBits(x, n)) == x
  {
    if n > 0 {
      NumberRoundTrip(x / 2, n - 1);
      var bits := ToBits(x, n);
      assert bits[..n - 1] == ToBits(x / 2, n - 1);
    }
  }

  // ---- Bytes to groups of five bits and back ----

  function Zeros(n: nat): (z: seq<bool>)
    ensures |z| == n
  {
    seq(n, _ => false)
  }

  function ByteBits(bytes: seq<Byte>): seq<bool> {
    if bytes == [] then [] else ToBits(bytes[0], 8) + ByteBits(bytes[1..])
  }

  function DigitBits(digits: seq<Digit>): seq<bool> {
    if digits == [] then [] else ToBits(digits[0], 5) + DigitBits(digits[1..])
  }

  function Group(bits: seq<bool>): Digit
    requires |bits| == 5
  {
    assert Pow2(5) == 32;
    FromBits(bits)
  }

  function Octet(bits: seq<bool>): Byte
    requires |bits| == 8
  {
    assert Pow2(5) == 32;
    assert Pow2(8) == 8 * Pow2(5);
    FromBits(bits)
  }

  /** Groups of five, the last one filled up with zeros. */
  function Groups(bits: seq<bool>): seq<Digit> {
    if bits == [] then []
    else if |bits| < 5 then [Group(bits + Zeros(5 - |bits|))]
    else [Group(bits[..5])] + Groups(bits[5..])
  }

  /** Groups of eight; what is left over is filling. */
  function Octets(bits: seq<bool>): (bytes: seq<Byte>)
    ensures 8 * |bytes| <= |bits| < 8 * |bytes| + 8
  {
    if |bits| < 8 then [] else [Octet(bits[..8])] + Octets(bits[8..])
  }

  lemma {:induction false} GroupsHoldBits(bits: seq<bool>) returns (fill: nat)
    ensures fill < 5 && DigitBits(Groups(bits)) == bits + Zeros(fill)
  {
    if bits == [] {
      fill := 0;
    } else if |bits| < 5 {
      fill := 5 - |bits|;
      BitsRoundTrip(bits + Zeros(fill));
    } else {
      fill := GroupsHoldBits(bits[5..]);
      BitsRoundTrip(bits[..5]);
      assert Groups(bits)[1..] == Groups(bits[5..]);
      assert bits == bits[..5] + bits[5..];
    }
  }

  lemma {:induction false} OctetsHoldBytes(bytes: seq<Byte>, rest: seq<bool>)
    requires |rest| < 8
    ensures Octets(ByteBits(bytes) + rest) == bytes
  {
    if bytes == [] {
      assert ByteBits(bytes) + rest == rest;
    } else {
      var bits := ByteBits(bytes) + rest;
      assert bits[..8] == ToBits(bytes[0], 8);
      assert bits[8..] == ByteBits(bytes[1..]) + rest;
      assert Pow2(5) == 32;
      assert Pow2(8) == 8 * Pow2(5);
      NumberRoundTrip(bytes[0], 8);
      OctetsHoldBytes(bytes[1..], rest);
    }
  }

  // ---- The text ----

  function Letter(d: Digit): char {
    if d < 10 then '0' + d as char else 'a' + (d - 10) as char
  }

  /** The letter is put in upper case first, as Unicode has it: the dotless i is an I then
      and the long s an S. */
  function Value(c: char): Option<Digit> {
    if '0' <= c <= '9' then Some((c - '0') as int)
    else if 'a' <= c <= 'v' then Some((c - 'a') as int + 10)
    else if 'A' <= c <= 'V' then Some((c - 'A') as int + 10)
    else if c == '\U{0131}' then Some(18)
    else if c == '\U{017F}' then Some(28)
    else None
  }

  predicate LineBreak(c: char) {
    c == '\r' || c == '\n'
  }

  function Letters(digits: seq<Digit>): (s: string)
    ensures |s| == |digits| && forall i :: 0 <= i < |s| ==> s[i] == Letter(digits[i])
  {
    seq(|digits|, i requires 0 <= i < |digits| => Letter(digits[i]))
  }

  /** Line breaks are skipped. */
  function Values(s: string): Option<seq<Digit>> {
    if s == "" then Some([])
    else if LineBreak(s[0]) then Values(s[1..])
    else
      var first, rest := Value(s[0]), Values(s[1..]);
      if first.None? || rest.None? then None else Some([first.value] + rest.value)
  }

  function Encode(bytes: seq<Byte>): string {
    Letters(Groups(ByteBits(bytes)))
  }

  /** Eight digits are five bytes. A last group of a length that no bytes have counts for
      nothing. */
  function Whole(digits: seq<Digit>): seq<Digit> {
    var n := |digits| % 8;
    if n == 1 || n == 3 || n == 6 then digits[..|digits| - n] else digits
  }

  /** What Go's decoder makes of the text. */
  function Decode(s: string): Option<seq<Byte>> {
    var digits := Values(s);
    if digits.None? then None else Some(Octets(DigitBits(Whole(digits.value))))
  }

  lemma LastGroup(n: nat, m: nat, r: nat)
    requires 5 * n == 8 * m + r && r < 8
    ensures r < 5 <==> n % 8 != 1 && n % 8 != 3 && n % 8 != 6
  {
    var k, j := n % 8, n / 8;
    assert 5 * k == 8 * (m - 5 * j) + r;
  }

  /** No group is dropped exactly when fewer than five bits are left over. */
  lemma WholeIff(digits: seq<Digit>, m: nat, r: nat)
    requires 5 * |digits| == 8 * m + r && r < 8
    ensures Whole(digits) == digits <==> r < 5
  {
    LastGroup(|digits|, m, r);
  }

  lemma EncodedIsWhole(bytes: seq<Byte>)
    ensures Whole(Groups(ByteBits(bytes))) == Groups(ByteBits(bytes))
  {
    var digits := Groups(ByteBits(bytes));
    var fill := EncodesNumber(bytes, digits);
    WholeIff(digits, |bytes|, fill);
  }

  lemma ValueOfLetter(d: Digit)
    ensures Value(Letter(d)) == Some(d)
  {
  }

  lemma {:induction false} ValuesOfLetters(digits: seq<Digit>)
    ensures Values(Letters(digits)) == Some(digits)
  {
    if digits != [] {
      assert Letters(digits)[1..] == Letters(digits[1..]);
      ValuesOfLetters(digits[1..]);
      ValueOfLetter(digits[0]);
      assert digits == [digits[0]] + digits[1..];
    }
  }

  lemma RoundTrip(bytes: seq<Byte>)
    ensures Decode(Encode(bytes)) == Some(bytes)
  {
    ValuesOfLetters(Groups(ByteBits(bytes)));
    EncodedIsWhole(bytes);
    var fill := GroupsHoldBits(ByteBits(bytes));
    OctetsHoldBytes(bytes, Zeros(fill));
  }

  lemma Shifted(f: nat, p: nat, r: nat, b: nat)
    ensures 2 * (f * p + r) + b == f * (2 * p) + (2 * r + b)
  {
  }

  lemma LastBit(bits: seq<bool>, b: bool)
    ensures FromBits(bits + [b]) == 2 * FromBits(bits) + if b then 1 else 0
  {
  }

  lemma {:induction false} Joined(x: seq<bool>, y: seq<bool>)
    ensures FromBits(x + y) == FromBits(x) * Pow2(|y|) + FromBits(y)
  {
    if y == [] {
      assert x + y == x;
    } else {
      var rest, b := y[..|y| - 1], y[|y| - 1];
      Joined(x, rest);
      assert x + y == (x + rest) + [b] && y == rest + [b];
      LastBit(x + rest, b);
      LastBit(rest, b);
      Shifted(FromBits(x), Pow2(|rest|), FromBits(rest), if b then 1 else 0);
    }
  }

  /** A sequence of digits, each `width` bits wide, read as one big-endian number. */
  function Number(width: nat, xs: seq<nat>): nat {
    if xs == [] then 0 else xs[0] * Pow2(width * (|xs| - 1)) + Number(width, xs[1..])
  }

  lemma {:induction false} NumberOfBytes(bytes: seq<Byte>)
    ensures |ByteBits(bytes)| == 8 * |bytes| && FromBits(ByteBits(bytes)) == Number(8, bytes)
  {
    if bytes != [] {
      NumberOfBytes(bytes[1..]);
      Joined(ToBits(bytes[0], 8), ByteBits(bytes[1..]));
      assert Pow2(5) == 32;
      assert Pow2(8) == 8 * Pow2(5);
      NumberRoundTrip(bytes[0], 8);
    }
  }

  lemma {:induction false} NumberOfDigits(digits: seq<Digit>)
    ensures |DigitBits(digits)| == 5 * |digits| && FromBits(DigitBits(digits)) == Number(5, digits)
  {
    if digits != [] {
      NumberOfDigits(digits[1..]);
      Joined(ToBits(digits[0], 5), DigitBits(digits[1..]));
      assert Pow2(5) == 32;
      NumberRoundTrip(digits[0], 5);
    }
  }

  lemma {:induction false} NoBits(n: nat)
    ensures FromBits(Zeros(n)) == 0
  {
    if n > 0 {
      assert Zeros(n)[..n - 1] == Zeros(n - 1);
      NoBits(n - 1);
    }
  }

  /** The digits of the text are, as a number, the bytes shifted by the filling: fewer
      than five bits, enough to make the last group whole. */
  lemma EncodesNumber(bytes: seq<Byte>, digits: seq<Digit>) returns (fill: nat)
    requires digits == Groups(ByteBits(bytes))
    ensures Encode(bytes) == Letters(digits)
    ensures fill < 5 && 5 * |digits| == 8 * |bytes| + fill
    ensures Number(5, digits) == Number(8, bytes) * Pow2(fill)
  {
    var bits := ByteBits(bytes);
    fill := GroupsHoldBits(bits);
    NumberOfBytes(bytes);
    NumberOfDigits(digits);
    Joined(bits, Zeros(fill));
    NoBits(fill);
  }

  // ---- Which texts are their own encoding ----

  predicate LowerCase(s: string) {
    forall i :: 0 <= i < |s| ==> '0' <= s[i] <= '9' || 'a' <= s[i] <= 'v'
  }

  /** The bits that do not make up a whole byte. */
  function Leftover(digits: seq<Digit>): seq<bool> {
    DigitBits(digits)[8 * |Octets(DigitBits(digits))|..]
  }

  /** Lower case letters and digits only, and the bits left over are mere filling. */
  predicate Canonical(s: string) {
    LowerCase(s) && Values(s).Some? &&
    var rest := Leftover(Values(s).value);
    |rest| < 5 && rest == Zeros(|rest|)
  }

  lemma {:induction false} OctetsSplit(bits: seq<bool>)
    ensures ByteBits(Octets(bits)) == bits[..8 * |Octets(bits)|]
  {
    if |bits| >= 8 {
      OctetsSplit(bits[8..]);
      BitsRoundTrip(bits[..8]);
      var n := 8 * |Octets(bits[8..])|;
      assert bits[..8] + bits[8..][..n] == bits[..8 + n];
    }
  }

  lemma {:induction false} BitsDetermineDigits(a: seq<Digit>, b: seq<Digit>)
    requires DigitBits(a) == DigitBits(b)
    ensures a == b
  {
    assert a != [] ==> DigitBits(a)[..5] == ToBits(a[0], 5) && DigitBits(a)[5..] == DigitBits(a[1..]);
    assert b != [] ==> DigitBits(b)[..5] == ToBits(b[0], 5) && DigitBits(b)[5..] == DigitBits(b[1..]);
    if a != [] && b != [] {
      assert Pow2(5) == 32;
      NumberRoundTrip(a[0], 5);
      NumberRoundTrip(b[0], 5);
      BitsDetermineDigits(a[1..], b[1..]);
    }
  }

  lemma {:induction false} LettersOfValues(s: string)
    requires LowerCase(s) && Values(s).Some?
    ensures Letters(Values(s).value) == s
  {
    if s != "" {
      LettersOfValues(s[1..]);
      assert Letters(Values(s).value)[1..] == Letters(Values(s[1..]).value);
    }
  }

  lemma LettersAreLower(digits: seq<Digit>)
    ensures LowerCase(Letters(digits))
  {
    forall i | 0 <= i < |digits| ensures '0' <= Letter(digits[i]) <= '9' || 'a' <= Letter(digits[i]) <= 'v' {
      ValueOfLetter(digits[i]);
    }
  }

  lemma SameFilling(bits: nat, n: nat, a: nat, m: nat, b: nat)
    requires n < 5 && m < 5 && bits + n == 5 * a && bits + m == 5 * b
    ensures n == m
  {
  }

  /** The digits that hold these bytes and little filling are their encoding. */
  lemma GroupsOfFilled(bytes: seq<Byte>, digits: seq<Digit>, n: nat)
    requires n < 5 && DigitBits(digits) == ByteBits(bytes) + Zeros(n)
    ensures Groups(ByteBits(bytes)) == digits
  {
    var groups := Groups(ByteBits(bytes));
    var fill := GroupsHoldBits(ByteBits(bytes));
    NumberOfDigits(digits);
    NumberOfDigits(groups);
    SameFilling(|ByteBits(bytes)|, n, |digits|, fill, |groups|);
    BitsDetermineDigits(groups, digits);
  }

  /** Decoding is not one to one: a text is the encoding of what it decodes to if and
      only if it is canonical. */
  lemma CanonicalIff(s: string)
    requires Decode(s).Some?
    ensures Encode(Decode(s).value) == s <==> Canonical(s)
  {
    var digits, bytes := Values(s).value, Decode(s).value;
    if Canonical(s) {
      FewLeftOver(digits);
      OctetsSplit(DigitBits(digits));
      var rest := Leftover(digits);
      assert DigitBits(digits) == ByteBits(bytes) + rest;
      GroupsOfFilled(bytes, digits, |rest|);
      LettersOfValues(s);
    }
    if Encode(bytes) == s {
      var groups := Groups(ByteBits(bytes));
      LettersAreLower(groups);
      ValuesOfLetters(groups);
      EncodedIsWhole(bytes);
      OctetsSplit(DigitBits(groups));
      var fill := GroupsHoldBits(ByteBits(bytes));
      assert Leftover(groups) == DigitBits(groups)[|ByteBits(bytes)|..] == Zeros(fill);
    }
  }

  lemma FewLeftOver(digits: seq<Digit>)
    requires |Leftover(digits)| < 5
    ensures Whole(digits) == digits
  {
    var bits := DigitBits(digits);
    NumberOfDigits(digits);
    WholeIff(digits, |Octets(bits)|, |bits| - 8 * |Octets(bits)|);
  }

  lemma DigitsOfA()
    ensures Groups(ByteBits([0x61])) == [12, 4]
  {
    var digits := Groups(ByteBits([0x61]));
    var fill := EncodesNumber([0x61], digits);
    assert Pow2(2) == 4 && Pow2(0) == 1;
    assert Number(8, [0x61]) == 0x61 * Pow2(0) + Number(8, []);
    assert |digits| == 2 && fill == 2;
    TwoDigits(digits);
  }

  lemma TwoDigits(digits: seq<nat>)
    requires |digits| == 2
    ensures Number(5, digits) == digits[0] * 32 + digits[1]
  {
    assert Pow2(5) == 32 && Pow2(0) == 1;
    assert digits[1..][1..] == [];
  }

  lemma TwoLetters(a: char, b: char, x: Digit, y: Digit)
    requires Value(a) == Some(x) && Value(b) == Some(y)
    ensures Values([a, b]) == Some([x, y])
  {
    assert [a, b][1..] == [b] && [b][1..] == [];
    var one: seq<Digit> := [y] + [];
    assert Values([b]) == Some(one);
    assert [x] + one == [x, y];
  }

  /** Text in either case decodes to the same. */
  lemma BothCases()
    ensures Decode("c4") == Some([0x61]) && Decode("C4") == Some([0x61])
  {
    TwoLetters('c', '4', 12, 4);
    TwoLetters('C', '4', 12, 4);
    DigitsOfA();
    var fill := GroupsHoldBits(ByteBits([0x61]));
    OctetsHoldBytes([0x61], Zeros(fill));
  }
}
