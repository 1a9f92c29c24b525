/**
 * The base-36 to base-16 conversion behind the Ethereum ICAP address form:
 * the source's `String.base36to16` accumulates the number in a little-endian
 * byte array (multiply by 36, add the digit, propagate the carry) and prints
 * the bytes most significant first, two lower-case hex digits each.
 */
module Base36 {
  import opened Wrappers

  const Alphabet: string := "0123456789abcdefghijklmnopqrstuvwxyz"
  const HexAlphabet: string := "0123456789abcdef"

  /** The value of a base-36 digit (`0-9`, `a-z`), or None for any other character. */
  function DigitValue(c: char): Option<nat> {
    if '0' <= c <= '9' then Some(c as nat - '0' as nat)
    else if 'a' <= c <= 'z' then Some(c as nat - 'a' as nat + 10)
    else None
  }

  /** The alphabet lists the digits in order of value. */
  lemma AlphabetInOrder()
    ensures |Alphabet| == 36
    ensures forall i :: 0 <= i < 36 ==> Alphabet[i] == DigitChar(i)
  {
    assert Alphabet == seq(36, i requires 0 <= i < 36 => DigitChar(i));
  }

  lemma DigitCharValue(i: nat)
    requires i < 36
    ensures DigitValue(DigitChar(i)) == Some(i)
  {
  }

  lemma DigitValueChar(c: char)
    requires DigitValue(c).Some?
    ensures DigitValue(c).value < 36 && DigitChar(DigitValue(c).value) == c
  {
  }

  function DigitChar(i: nat): char
    requires i < 36
  {
    if i < 10 then ('0' as int + i) as char else ('a' as int + i - 10) as char
  }

  /** DigitValue is the inverse of indexing the alphabet. */
  lemma DigitValueInvertsAlphabet(c: char)
    ensures DigitValue(c).Some? ==> DigitValue(c).value < 36 && Alphabet[DigitValue(c).value] == c
    ensures forall i :: 0 <= i < |Alphabet| ==> DigitValue(Alphabet[i]) == Some(i)
  {
    AlphabetInOrder();
    forall i | 0 <= i < |Alphabet|
      ensures DigitValue(Alphabet[i]) == Some(i)
    {
      DigitCharValue(i);
    }
    if DigitValue(c).Some? {
      DigitValueChar(c);
    }
  }

  /**
   * The lookup table `base36AlphabetMap`, filled by one pass over the
   * alphabet: exactly the 36 digits are keys, each mapped to its value.
   */
  method BuildAlphabetMap() returns (m: map<char, nat>)
    ensures forall c :: c in m <==> DigitValue(c).Some?
    ensures forall c :: c in m ==> Some(m[c]) == DigitValue(c)
  {
    DigitValueInvertsAlphabet('0');
    m := map[];
    for i := 0 to |Alphabet|
      invariant forall c :: c in m <==> DigitValue(c).Some? && DigitValue(c).value < i
      invariant forall c :: c in m ==> Some(m[c]) == DigitValue(c)
    {
      forall c | DigitValue(c).Some? && DigitValue(c).value == i
        ensures c == Alphabet[i]
      {
        DigitValueInvertsAlphabet(c);
      }
      m := m[Alphabet[i] := i];
    }
  }

  predicate IsBase36(s: string) {
    forall i :: 0 <= i < |s| ==> DigitValue(s[i]).Some?
  }

  /** The natural number that a string of base-36 digits denotes, most significant digit first. */
  function Value36(s: string): nat
    requires IsBase36(s)
  {
    if s == [] then 0 else 36 * Value36(s[..|s| - 1]) + DigitValue(s[|s| - 1]).value
  }

  predicate IsBytes(b: seq<int>) {
    forall i :: 0 <= i < |b| ==> 0 <= b[i] < 256
  }

  /** The value of a little-endian byte sequence. */
  function LittleEndian(b: seq<int>): int {
    if b == [] then 0 else b[0] + 256 * LittleEndian(b[1..])
  }

  /** The value of a big-endian byte sequence. */
  function BigEndian(b: seq<int>): int {
    if b == [] then 0 else 256 * BigEndian(b[..|b| - 1]) + b[|b| - 1]
  }

  function Pow256(n: nat): nat {
    if n == 0 then 1 else 256 * Pow256(n - 1)
  }

  /** Bytes with no zero byte at the most significant end: the shortest representation. */
  predicate IsCanonical(b: seq<int>) {
    IsBytes(b) && (b == [] || b[|b| - 1] != 0)
  }

  /** The canonical little-endian bytes of `n`. */
  function CanonicalBytes(n: nat): (b: seq<int>)
    ensures IsCanonical(b) && LittleEndian(b) == n
    decreases n
  {
    if n == 0 then [] else [n % 256] + CanonicalBytes(n / 256)
  }

  function Reverse(b: seq<int>): (r: seq<int>)
    ensures |r| == |b|
  {
    if b == [] then [] else Reverse(b[1..]) + [b[0]]
  }

  /** Reversing bytes gives bytes, and puts the last one first. */
  lemma {:induction false} ReverseBytes(b: seq<int>)
    requires IsBytes(b)
    ensures IsBytes(Reverse(b))
    ensures b != [] ==> Reverse(b)[0] == b[|b| - 1]
  {
    if b != [] {
      ReverseBytes(b[1..]);
      assert Reverse(b) == Reverse(b[1..]) + [b[0]];
    }
  }

  /** Two lower-case hex digits for one byte (`%02hhx`). */
  function HexByte(b: int): (r: string)
    requires 0 <= b < 256
  {
    [HexAlphabet[b / 16], HexAlphabet[b % 16]]
  }

  /** The bytes, in the order given, printed as hex and joined. */
  function EncodeHex(b: seq<int>): (r: string)
    requires IsBytes(b)
  {
    if b == [] then [] else EncodeHex(b[..|b| - 1]) + HexByte(b[|b| - 1])
  }

  /** The value of a lower-case hex digit, or None. */
  function HexDigitValue(c: char): Option<nat> {
    if '0' <= c <= '9' then Some(c as nat - '0' as nat)
    else if 'a' <= c <= 'f' then Some(c as nat - 'a' as nat + 10)
    else None
  }

  /** The hex alphabet lists the hex digits in order of value. */
  lemma HexAlphabetInOrder()
    ensures |HexAlphabet| == 16
    ensures forall i :: 0 <= i < 16 ==> HexDigitValue(HexAlphabet[i]) == Some(i)
  {
    HexAlphabetChars();
    forall i | 0 <= i < 16
      ensures HexDigitValue(HexAlphabet[i]) == Some(i)
    {
      HexDigitCharValue(i);
    }
  }

  lemma HexAlphabetChars()
    ensures |HexAlphabet| == 16
    ensures forall i :: 0 <= i < 16 ==> HexAlphabet[i] == DigitChar(i)
  {
    assert HexAlphabet == seq(16, i requires 0 <= i < 16 => DigitChar(i));
  }

  lemma HexDigitCharValue(i: nat)
    requires i < 16
    ensures HexDigitValue(DigitChar(i)) == Some(i)
  {
  }

  predicate IsLowerHex(h: string) {
    forall i :: 0 <= i < |h| ==> HexDigitValue(h[i]).Some?
  }

  /** The natural number that a lower-case hex string denotes. */
  function HexValue(h: string): nat
    requires IsLowerHex(h)
  {
    if h == [] then 0 else 16 * HexValue(h[..|h| - 1]) + HexDigitValue(h[|h| - 1]).value
  }

  /**
   * What `base36to16` returns: None when some character is not a base-36
   * digit, otherwise the canonical bytes of the number, most significant first,
   * in hex.
   */
  function Base36ToHex(s: string): Option<string> {
    if IsBase36(s) then
      var b := CanonicalBytes(Value36(s));
      ReverseBytes(b);
      Some(EncodeHex(Reverse(b)))
    else None
  }

  // ---------------------------------------------------------------------
  // Arithmetic on byte sequences

  lemma {:induction false} LittleEndianAppend(b: seq<int>, x: int)
    ensures LittleEndian(b + [x]) == LittleEndian(b) + Pow256(|b|) * x
  {
    if b != [] {
      assert (b + [x])[1..] == b[1..] + [x];
      LittleEndianAppend(b[1..], x);
    }
  }

  lemma {:induction false} LittleEndianBound(b: seq<int>)
    requires IsBytes(b)
    ensures 0 <= LittleEndian(b) < Pow256(|b|)
  {
    if b != [] {
      LittleEndianBound(b[1..]);
    }
  }

  /** A canonical non-empty byte sequence is at least 256^(n-1). */
  lemma CanonicalLowerBound(b: seq<int>)
    requires IsCanonical(b) && b != []
    ensures LittleEndian(b) >= Pow256(|b| - 1)
  {
    var n := |b|;
    assert b == b[..n - 1] + [b[n - 1]];
    LittleEndianAppend(b[..n - 1], b[n - 1]);
    LittleEndianBound(b[..n - 1]);
  }

  /** Bytes whose value reaches 256^(n-1) have a non-zero most significant byte. */
  lemma TopByteNonZero(b: seq<int>)
    requires IsBytes(b) && b != [] && LittleEndian(b) >= Pow256(|b| - 1)
    ensures b[|b| - 1] != 0
  {
    var n := |b|;
    assert b == b[..n - 1] + [b[n - 1]];
    LittleEndianAppend(b[..n - 1], b[n - 1]);
    LittleEndianBound(b[..n - 1]);
  }

  /** The canonical representation is unique. */
  lemma {:induction false} CanonicalUnique(b: seq<int>)
    requires IsCanonical(b)
    ensures LittleEndian(b) >= 0 && b == CanonicalBytes(LittleEndian(b))
  {
    if b != [] {
      var rest := b[1..];
      assert IsCanonical(rest);
      CanonicalUnique(rest);
      LittleEndianBound(rest);
      if rest == [] {
        assert LittleEndian(b) == b[0];
      } else {
        CanonicalLowerBound(rest);
      }
      var n := LittleEndian(b);
      assert n == b[0] + 256 * LittleEndian(rest);
      assert n % 256 == b[0] && n / 256 == LittleEndian(rest);
    }
  }

  lemma {:induction false} BigEndianOfReverse(b: seq<int>)
    ensures BigEndian(Reverse(b)) == LittleEndian(b)
  {
    if b != [] {
      var r := Reverse(b);
      assert r[..|r| - 1] == Reverse(b[1..]);
      BigEndianOfReverse(b[1..]);
    }
  }

  /** Hex printing is exact: two lower-case digits per byte, denoting the big-endian value. */
  lemma {:induction false} EncodeHexValue(b: seq<int>)
    requires IsBytes(b)
    ensures |EncodeHex(b)| == 2 * |b|
    ensures IsLowerHex(EncodeHex(b))
    ensures HexValue(EncodeHex(b)) == BigEndian(b)
  {
    if b != [] {
      var init := b[..|b| - 1];
      EncodeHexValue(init);
      HexByteAppended(EncodeHex(init), b[|b| - 1]);
    }
  }

  /** Appending one printed byte multiplies the hex value by 256 and adds the byte. */
  lemma HexByteAppended(e: string, x: int)
    requires IsLowerHex(e) && 0 <= x < 256
    ensures IsLowerHex(e + HexByte(x))
    ensures HexValue(e + HexByte(x)) == 256 * HexValue(e) + x
  {
    var hi, lo := HexAlphabet[x / 16], HexAlphabet[x % 16];
    HexAlphabetInOrder();
    var h := e + [hi, lo];
    assert h == e + HexByte(x);
    assert h[..|h| - 1] == e + [hi];
    assert (e + [hi])[..|e|] == e;
    assert HexValue(e + [hi]) == 16 * HexValue(e) + x / 16;
    assert HexValue(h) == 16 * HexValue(e + [hi]) + x % 16;
    HexPairArith(HexValue(e), x);
  }

  lemma HexPairArith(v: int, x: int)
    requires 0 <= x < 256
    ensures 16 * (16 * v + x / 16) + x % 16 == 256 * v + x
  {
  }

  // ---------------------------------------------------------------------
  // Properties of the conversion

  /** The conversion fails exactly when some character is not a base-36 digit. */
  lemma Base36ToHexFailsIff(s: string)
    ensures Base36ToHex(s).None? <==> exists i :: 0 <= i < |s| && DigitValue(s[i]).None?
  {
  }

  /**
   * Value preservation: the hex output denotes the same number as the
   * base-36 input, it is lower-case hex of even length, and it never starts
   * with a zero byte.
   */
  lemma Base36ToHexPreservesValue(s: string)
    requires IsBase36(s)
    ensures Base36ToHex(s).Some?
    ensures var h := Base36ToHex(s).value;
      && IsLowerHex(h)
      && HexValue(h) == Value36(s)
      && |h| % 2 == 0
      && (|h| >= 2 ==> h[..2] != "00")
  {
    CanonicalHex(Value36(s));
    DoubleIsEven(|Reverse(CanonicalBytes(Value36(s)))|);
  }

  lemma DoubleIsEven(k: nat)
    ensures (2 * k) % 2 == 0
  {
  }

  /** The printed canonical bytes of `n`: lower-case hex, two digits per byte, value `n`, no leading "00". */
  lemma CanonicalHex(n: nat)
    ensures var b := Reverse(CanonicalBytes(n));
      && IsBytes(b)
      && var h := EncodeHex(b);
      && IsLowerHex(h)
      && HexValue(h) == n
      && |h| == 2 * |b|
      && (|h| >= 2 ==> h[..2] != "00")
  {
    var b := CanonicalBytes(n);
    var r := Reverse(b);
    ReverseBytes(b);
    EncodeHexValue(r);
    BigEndianOfReverse(b);
    if r != [] {
      LeadingDigitsNotZero(r);
    }
  }

  /** A non-zero leading byte never prints as "00". */
  lemma LeadingDigitsNotZero(r: seq<int>)
    requires IsBytes(r) && r != [] && r[0] != 0
    ensures |EncodeHex(r)| >= 2 && EncodeHex(r)[..2] != "00"
  {
    LeadingHexByte(r);
    HexAlphabetInOrder();
    var x := r[0];
    assert x / 16 != 0 || x % 16 != 0;
    assert HexAlphabet[x / 16] != '0' || HexAlphabet[x % 16] != '0';
  }

  /** The first two hex digits print the first byte. */
  lemma {:induction false} LeadingHexByte(b: seq<int>)
    requires IsBytes(b) && b != []
    ensures |EncodeHex(b)| >= 2 && EncodeHex(b)[..2] == HexByte(b[0])
  {
    EncodeHexValue(b);
    if |b| > 1 {
      LeadingHexByte(b[..|b| - 1]);
      EncodeHexValue(b[..|b| - 1]);
    }
  }

  /** Zero digits only (including the empty string) convert to the empty string. */
  lemma {:induction false} ZerosConvertToEmpty(s: string)
    requires forall i :: 0 <= i < |s| ==> s[i] == '0'
    ensures Base36ToHex(s) == Some("")
  {
    ZerosHaveValueZero(s);
  }

  lemma {:induction false} ZerosHaveValueZero(s: string)
    requires forall i :: 0 <= i < |s| ==> s[i] == '0'
    ensures IsBase36(s) && Value36(s) == 0
  {
    if s != [] {
      ZerosHaveValueZero(s[..|s| - 1]);
    }
  }

  // ---------------------------------------------------------------------
  // The conversion itself

  /**
   * `base36to16`: read the characters in order, looking each one up in the
   * alphabet map (None at the first character that is not a base-36 digit),
   * fold its value into the little-endian byte accumulator, and finally print
   * the bytes in reverse.
   */
  method Base36To16(s: string) returns (r: Option<string>)
    ensures r == Base36ToHex(s)
  {
    var digits := BuildAlphabetMap();
    var bytes: seq<int> := [];
    for k := 0 to |s|
      invariant IsBase36(s[..k])
      invariant IsCanonical(bytes) && LittleEndian(bytes) == Value36(s[..k])
    {
      var c := s[k];
      if c !in digits {
        return None;
      }
      Value36Snoc(s, k);
      bytes := MultiplyAdd(bytes, digits[c]);
    }
    assert s[..|s|] == s;
    CanonicalUnique(bytes);
    ReverseBytes(bytes);
    r := Some(EncodeHex(Reverse(bytes)));
  }

  /**
   * The body of the character loop of `base36to16`: multiply the byte
   * accumulator by 36 in place, starting from the digit as carry, then append
   * the carry's remaining bytes.
   */
  method MultiplyAdd(bytes: seq<int>, digit: nat) returns (r: seq<int>)
    requires IsCanonical(bytes) && digit < 36
    ensures IsCanonical(r) && LittleEndian(r) == 36 * LittleEndian(bytes) + digit
  {
    r := bytes;
    var carry: int := digit;
    for j := 0 to |r|
      invariant |r| == |bytes|
      invariant r[j..] == bytes[j..]
      invariant IsBytes(r)
      invariant carry >= 0
      invariant LittleEndian(r[..j]) + Pow256(j) * carry == 36 * LittleEndian(bytes[..j]) + digit
    {
      CarryStep(r[..j], bytes[..j], r[j], carry, digit);
      assert bytes[..j + 1] == bytes[..j] + [r[j]];
      carry := carry + r[j] * 36;
      r := r[j := carry % 256];
      assert r[..j + 1] == r[..j] + [carry % 256];
      carry := carry / 256;
    }
    assert r[..|r|] == r && bytes[..|bytes|] == bytes;
    if carry == 0 {
      NoCarryCanonical(r, bytes, digit);
    }
    while carry > 0
      invariant carry >= 0 && IsBytes(r)
      invariant carry == 0 ==> IsCanonical(r)
      invariant LittleEndian(r) + Pow256(|r|) * carry == 36 * LittleEndian(bytes) + digit
      decreases carry
    {
      AppendStep(r, carry);
      r := r + [carry % 256];
      carry := carry / 256;
    }
  }

  /** When the multiply pass leaves no carry, the bytes are still canonical. */
  lemma NoCarryCanonical(bytes: seq<int>, before: seq<int>, d: int)
    requires IsBytes(bytes) && IsCanonical(before) && |bytes| == |before| && d >= 0
    requires LittleEndian(bytes) == 36 * LittleEndian(before) + d
    ensures IsCanonical(bytes)
  {
    if bytes != [] {
      CanonicalLowerBound(before);
      TopByteNonZero(bytes);
    }
  }

  /** Reading one more digit multiplies the value so far by 36 and adds the digit. */
  lemma Value36Snoc(s: string, k: nat)
    requires k < |s| && IsBase36(s[..k]) && DigitValue(s[k]).Some?
    ensures IsBase36(s[..k + 1])
    ensures Value36(s[..k + 1]) == 36 * Value36(s[..k]) + DigitValue(s[k]).value
  {
    assert s[..k + 1][..k] == s[..k];
  }

  /** One step of the multiply-and-carry pass keeps the accumulated value exact. */
  lemma CarryStep(low: seq<int>, lowBefore: seq<int>, b: int, carry: int, d: int)
    requires |low| == |lowBefore|
    requires LittleEndian(low) + Pow256(|low|) * carry == 36 * LittleEndian(lowBefore) + d
    ensures LittleEndian(low + [(carry + b * 36) % 256]) + Pow256(|low| + 1) * ((carry + b * 36) / 256)
         == 36 * LittleEndian(lowBefore + [b]) + d
  {
    var t := carry + b * 36;
    LittleEndianAppend(low, t % 256);
    LittleEndianAppend(lowBefore, b);
    CarryArith(Pow256(|low|), Pow256(|low| + 1), LittleEndian(low), LittleEndian(lowBefore),
      LittleEndian(low + [t % 256]), LittleEndian(lowBefore + [b]), b, carry, d);
  }

  lemma CarryArith(p: int, p': int, x: int, y: int, x': int, y': int, b: int, carry: int, d: int)
    requires p' == 256 * p
    requires x + p * carry == 36 * y + d
    requires x' == x + p * ((carry + b * 36) % 256)
    requires y' == y + p * b
    ensures x' + p' * ((carry + b * 36) / 256) == 36 * y' + d
  {
    var t := carry + b * 36;
    DivModArith(p, t);
    assert p * t == p * carry + 36 * (p * b) by {
      assert p * (carry + b * 36) == p * carry + p * (b * 36);
    }
  }

  lemma DivModArith(p: int, t: int)
    ensures p * (t % 256) + (256 * p) * (t / 256) == p * t
  {
    var q, m := t / 256, t % 256;
    assert t == 256 * q + m;
    calc {
      p * t;
      p * (256 * q + m);
      p * (256 * q) + p * m;
      (256 * p) * q + p * m;
    }
  }

  /** Emitting the low byte of the carry keeps the accumulated value exact. */
  lemma AppendStep(bytes: seq<int>, carry: int)
    requires carry > 0
    ensures LittleEndian(bytes + [carry % 256]) + Pow256(|bytes| + 1) * (carry / 256)
         == LittleEndian(bytes) + Pow256(|bytes|) * carry
    ensures carry / 256 == 0 ==> carry % 256 != 0
  {
    LittleEndianAppend(bytes, carry % 256);
    assert Pow256(|bytes| + 1) == 256 * Pow256(|bytes|);
    DivModArith(Pow256(|bytes|), carry);
  }
}
