/**
 One-time codes: HOTP (RFC 4226 section 5.3) and TOTP (RFC 6238 sections 4.2 and 5.2).

 HMAC is a parameter of which only the digest length is known. Times are
 milliseconds; JavaScript's `Math.floor(a / b)` is Dafny's `a / b` for a positive `b`.
 */
module Totp {
  import opened Wrappers
  import opened Arithmetic
  import opened Base32

  const DEFAULT_STEP_SECONDS := 30
  const DEFAULT_DIGITS := 6

  datatype Error = InvalidDigits | CounterOutOfRange | EmptySecret | InvalidWindow

  type Hmac = (seq<Byte>, seq<Byte>) -> seq<Byte>

  /** SHA-1, SHA-256 and SHA-512 give 20, 32 and 64 bytes. */
  ghost predicate LongDigests(hmac: Hmac) {
    forall key, message :: |hmac(key, message)| >= 20
  }

  // ---------------------------------------------------------------------------
  // Decimal codes
  // ---------------------------------------------------------------------------

  function Digit(n: nat): char
    requires n < 10
  {
    '0' + n as char
  }

  predicate IsDigit(c: char) {
    '0' <= c <= '9'
  }

  predicate Digits(s: string) {
    forall i | 0 <= i < |s| :: IsDigit(s[i])
  }

  function Decimal(n: nat): string {
    if n < 10 then [Digit(n)] else Decimal(n / 10) + [Digit(n % 10)]
  }

  function PadStart(s: string, length: nat): string
    decreases length - |s|
  {
    if |s| >= length then s else PadStart("0" + s, length)
  }

  function Parse(s: string): nat
    requires Digits(s)
  {
    if s == "" then 0 else 10 * Parse(s[..|s| - 1]) + (s[|s| - 1] as int - '0' as int)
  }

  lemma {:induction false} DecimalParses(n: nat)
    ensures Digits(Decimal(n)) && Parse(Decimal(n)) == n && |Decimal(n)| > 0
  {
    if n >= 10 {
      DecimalParses(n / 10);
    }
  }

  lemma {:induction false} DecimalLength(n: nat, digits: nat)
    requires n < Pow(10, digits) && digits > 0
    ensures |Decimal(n)| <= digits
  {
    if n >= 10 {
      assert Pow(10, 1) == 10;
      DecimalLength(n / 10, digits - 1);
    }
  }

  lemma {:induction false} ZeroParses(s: string)
    requires Digits(s)
    ensures Digits("0" + s) && Parse("0" + s) == Parse(s)
  {
    if s == "" {
      assert Parse("0") == 0;
    } else {
      ZeroParses(s[..|s| - 1]);
      assert ("0" + s)[..|s|] == "0" + s[..|s| - 1];
    }
  }

  lemma {:induction false} PadParses(s: string, length: nat)
    requires Digits(s)
    ensures Digits(PadStart(s, length)) && Parse(PadStart(s, length)) == Parse(s)
    ensures |PadStart(s, length)| == if |s| >= length then |s| else length
    decreases length - |s|
  {
    if |s| < length {
      ZeroParses(s);
      PadParses("0" + s, length);
    }
  }

  // ---------------------------------------------------------------------------
  // HOTP
  // ---------------------------------------------------------------------------

  /** The counter as eight bytes, most significant first. */
  function CounterBytes(counter: nat): seq<Byte> {
    seq(8, i requires 0 <= i < 8 => (
      PowPositive(256, 7 - i);
      (counter / Pow(256, 7 - i) % 256) as Byte))
  }

  function ReadUInt32BE(bytes: seq<Byte>, offset: nat): nat
    requires offset + 4 <= |bytes|
  {
    bytes[offset] as int * 0x1000000 + bytes[offset + 1] as int * 0x10000
    + bytes[offset + 2] as int * 0x100 + bytes[offset + 3] as int
  }

  /** Dynamic truncation: the low four bits of the last byte choose where to read 31 bits. */
  function Truncate(digest: seq<Byte>): (binary: nat)
    requires |digest| >= 20
    ensures binary < 0x80000000
  {
    var offset := digest[|digest| - 1] as int % 16;
    ReadUInt32BE(digest, offset) % 0x80000000
  }

  /** The numeric one-time value before it is printed. */
  function HotpValue(hmac: Hmac, key: seq<Byte>, counter: nat, digits: nat): nat
    requires LongDigests(hmac)
  {
    PowPositive(10, digits);
    Truncate(hmac(key, CounterBytes(counter))) % Pow(10, digits)
  }

  function Print(value: nat, digits: nat): string {
    PadStart(Decimal(value), digits)
  }

  function GenerateHmacOtp(hmac: Hmac, secret: string, counter: int, digits: int): Result<string, Error>
    requires LongDigests(hmac) && Ascii(secret)
  {
    if digits < 6 || digits > 10 then Err(InvalidDigits)
    else if counter < 0 || counter >= 0x1_0000_0000_0000_0000 then Err(CounterOutOfRange)
    else
      var key := Decode(Clean(secret));
      if |key| == 0 then Err(EmptySecret)
      else Ok(Print(HotpValue(hmac, key, counter, digits), digits))
  }

  /** A code has exactly `digits` decimal characters and parses back to the value. */
  lemma PrintedCode(value: nat, digits: nat)
    requires digits > 0 && value < Pow(10, digits)
    ensures Digits(Print(value, digits)) && |Print(value, digits)| == digits
    ensures Parse(Print(value, digits)) == value
  {
    DecimalParses(value);
    DecimalLength(value, digits);
    PadParses(Decimal(value), digits);
  }

  // ---------------------------------------------------------------------------
  // Which number a code prints
  // ---------------------------------------------------------------------------

  /** The number that bits spell, most significant first. */
  function BitsValue(bits: seq<bool>): nat {
    if bits == [] then 0 else 2 * BitsValue(bits[..|bits| - 1]) + if bits[|bits| - 1] then 1 else 0
  }

  /** The number that bytes spell, most significant first. */
  function BytesValue(bytes: seq<Byte>): nat {
    if bytes == [] then 0 else 256 * BytesValue(bytes[..|bytes| - 1]) + bytes[|bytes| - 1] as int
  }

  /** `n` bits of the stream from bit `p` on. */
  function StreamBits(bytes: seq<Byte>, p: nat, n: nat): (bits: seq<bool>)
    ensures |bits| == n
  {
    seq(n, k => StreamBit(bytes, p + k))
  }

  /** The 31 bits RFC 4226 section 5.3 selects: they follow the first bit of the byte the last four bits name. */
  function SelectedBits(digest: seq<Byte>): seq<bool>
    requires |digest| >= 20
  {
    StreamBits(digest, 8 * BitsValue(StreamBits(digest, 8 * |digest| - 4, 4)) + 1, 31)
  }

  function Weight(b: bool, weight: nat): nat {
    if b then weight else 0
  }

  function BitWeight(b: Byte, k: nat, weight: nat): nat {
    Weight(ByteBit(b, k), weight)
  }

  function LowNibble(b: Byte): nat {
    BitWeight(b, 3, 8) + BitWeight(b, 2, 4) + BitWeight(b, 1, 2) + BitWeight(b, 0, 1)
  }

  function HighNibble(b: Byte): nat {
    BitWeight(b, 7, 8) + BitWeight(b, 6, 4) + BitWeight(b, 5, 2) + BitWeight(b, 4, 1)
  }

  function LowSeven(b: Byte): nat {
    BitWeight(b, 6, 64) + BitWeight(b, 5, 32) + BitWeight(b, 4, 16) + LowNibble(b)
  }

  lemma ByteIsBits(b: Byte)
    ensures b as int == BitWeight(b, 7, 128) + LowSeven(b)
  {
  }

  lemma Weights(b: Byte)
    ensures LowNibble(b) < 16 && LowSeven(b) < 128
    ensures LowSeven(b) == 16 * (BitWeight(b, 6, 4) + BitWeight(b, 5, 2) + BitWeight(b, 4, 1)) + LowNibble(b)
    ensures BitWeight(b, 7, 128) == 128 * BitWeight(b, 7, 1)
  {
    hide ByteBit;
  }

  lemma RemainderIs(x: nat, m: nat, q: nat, r: nat)
    requires r < m && x == m * q + r
    ensures x % m == r
  {
    DivUnique(x, m, q, r);
  }

  lemma ByteSpelled(b: Byte)
    ensures LowNibble(b) == b as int % 16 && LowSeven(b) == b as int % 128 && BitWeight(b, 7, 128) + LowSeven(b) == b as int
  {
    ByteIsBits(b);
    Weights(b);
    hide BitWeight, LowNibble, LowSeven;
    var x := b as int;
    RemainderIs(x, 128, BitWeight(b, 7, 1), LowSeven(b));
    RemainderIs(x, 16, 8 * BitWeight(b, 7, 1) + BitWeight(b, 6, 4) + BitWeight(b, 5, 2) + BitWeight(b, 4, 1), LowNibble(b));
  }

  lemma OneBitMore(bytes: seq<Byte>, p: nat, n: nat)
    ensures BitsValue(StreamBits(bytes, p, n + 1)) == 2 * BitsValue(StreamBits(bytes, p, n)) + Weight(StreamBit(bytes, p + n), 1)
  {
    hide StreamBit;
    assert StreamBits(bytes, p, n + 1)[..n] == StreamBits(bytes, p, n);
  }

  lemma FourBitsMore(bytes: seq<Byte>, p: nat, n: nat)
    ensures BitsValue(StreamBits(bytes, p, n + 4)) == 16 * BitsValue(StreamBits(bytes, p, n))
              + Weight(StreamBit(bytes, p + n), 8) + Weight(StreamBit(bytes, p + n + 1), 4)
              + Weight(StreamBit(bytes, p + n + 2), 2) + Weight(StreamBit(bytes, p + n + 3), 1)
  {
    hide StreamBit, BitsValue, StreamBits;
    OneBitMore(bytes, p, n);
    OneBitMore(bytes, p, n + 1);
    OneBitMore(bytes, p, n + 2);
    OneBitMore(bytes, p, n + 3);
  }

  lemma BitOfByte(bytes: seq<Byte>, i: nat, k: nat, weight: nat)
    requires i < |bytes| && k < 8
    ensures Weight(StreamBit(bytes, 8 * i + 7 - k), weight) == BitWeight(bytes[i], k, weight)
  {
    hide ByteBit;
    assert (8 * i + 7 - k) / 8 == i && (8 * i + 7 - k) % 8 == 7 - k;
  }

  lemma LastFourOfByte(bytes: seq<Byte>, p: nat, n: nat, i: nat)
    requires i < |bytes| && p + n == 8 * i + 4
    ensures BitsValue(StreamBits(bytes, p, n + 4)) == 16 * BitsValue(StreamBits(bytes, p, n)) + LowNibble(bytes[i])
  {
    hide StreamBit, BitsValue, StreamBits, ByteBit, Weight, BitWeight;
    FourBitsMore(bytes, p, n);
    BitOfByte(bytes, i, 3, 8);
    BitOfByte(bytes, i, 2, 4);
    BitOfByte(bytes, i, 1, 2);
    BitOfByte(bytes, i, 0, 1);
  }

  lemma FirstFourOfByte(bytes: seq<Byte>, p: nat, n: nat, i: nat)
    requires i < |bytes| && p + n == 8 * i
    ensures BitsValue(StreamBits(bytes, p, n + 4)) == 16 * BitsValue(StreamBits(bytes, p, n)) + HighNibble(bytes[i])
  {
    hide StreamBit, BitsValue, StreamBits, ByteBit, Weight, BitWeight;
    FourBitsMore(bytes, p, n);
    BitOfByte(bytes, i, 7, 8);
    BitOfByte(bytes, i, 6, 4);
    BitOfByte(bytes, i, 5, 2);
    BitOfByte(bytes, i, 4, 1);
  }

  lemma ByteMore(bytes: seq<Byte>, p: nat, n: nat, i: nat)
    requires i < |bytes| && p + n == 8 * i
    ensures BitsValue(StreamBits(bytes, p, n + 8)) == 256 * BitsValue(StreamBits(bytes, p, n)) + bytes[i] as int
  {
    hide *;
    FirstFourOfByte(bytes, p, n, i);
    LastFourOfByte(bytes, p, n + 4, i);
    ByteHalves(bytes[i]);
  }

  lemma TopWeights(b: Byte)
    ensures BitWeight(b, 7, 128) == 16 * BitWeight(b, 7, 8) && BitWeight(b, 6, 64) == 16 * BitWeight(b, 6, 4)
    ensures BitWeight(b, 5, 32) == 16 * BitWeight(b, 5, 2) && BitWeight(b, 4, 16) == 16 * BitWeight(b, 4, 1)
  {
    hide ByteBit;
  }

  lemma ByteHalves(b: Byte)
    ensures b as int == 16 * HighNibble(b) + LowNibble(b)
  {
    ByteIsBits(b);
    TopWeights(b);
    hide BitWeight, LowNibble;
  }

  lemma LowBitsOfByte(bytes: seq<Byte>, i: nat)
    requires i < |bytes|
    ensures BitsValue(StreamBits(bytes, 8 * i + 1, 7)) == bytes[i] as int % 128
    ensures BitsValue(StreamBits(bytes, 8 * i + 4, 4)) == bytes[i] as int % 16
  {
    ByteSpelled(bytes[i]);
    TopWeights(bytes[i]);
    FirstThree(bytes, i);
    hide StreamBit, BitsValue, StreamBits, ByteBit, Weight, BitWeight, LowNibble;
    NoBits(bytes, 8 * i + 4);
    LastFourOfByte(bytes, 8 * i + 4, 0, i);
    LastFourOfByte(bytes, 8 * i + 1, 3, i);
  }

  lemma NoBits(bytes: seq<Byte>, p: nat)
    ensures BitsValue(StreamBits(bytes, p, 0)) == 0
  {
    assert StreamBits(bytes, p, 0) == [];
  }

  lemma ScaledWeights(b: Byte)
    ensures BitWeight(b, 6, 4) == 4 * BitWeight(b, 6, 1) && BitWeight(b, 5, 2) == 2 * BitWeight(b, 5, 1)
  {
    hide ByteBit;
  }

  lemma FirstThree(bytes: seq<Byte>, i: nat)
    requires i < |bytes|
    ensures BitsValue(StreamBits(bytes, 8 * i + 1, 3)) == BitWeight(bytes[i], 6, 4) + BitWeight(bytes[i], 5, 2) + BitWeight(bytes[i], 4, 1)
  {
    hide *;
    NoBits(bytes, 8 * i + 1);
    ScaledWeights(bytes[i]);
    OneBitMore(bytes, 8 * i + 1, 0);
    OneBitMore(bytes, 8 * i + 1, 1);
    OneBitMore(bytes, 8 * i + 1, 2);
    BitOfByte(bytes, i, 6, 1);
    BitOfByte(bytes, i, 5, 1);
    BitOfByte(bytes, i, 4, 1);
  }

  lemma FourBytesRead(digest: seq<Byte>, o: nat)
    requires o + 4 <= |digest|
    ensures BitsValue(StreamBits(digest, 8 * o + 1, 31))
         == digest[o] as int % 128 * 0x1000000 + digest[o + 1] as int * 0x10000 + digest[o + 2] as int * 0x100 + digest[o + 3] as int
  {
    hide BitsValue, StreamBits, StreamBit;
    LowBitsOfByte(digest, o);
    ByteMore(digest, 8 * o + 1, 7, o + 1);
    ByteMore(digest, 8 * o + 1, 15, o + 2);
    ByteMore(digest, 8 * o + 1, 23, o + 3);
  }

  lemma TopBitDropped(top: nat, rest: nat)
    requires rest < 0x1000000
    ensures (top * 0x1000000 + rest) % 0x80000000 == top % 128 * 0x1000000 + rest
  {
    RemainderIs(top * 0x1000000 + rest, 0x80000000, top / 128, top % 128 * 0x1000000 + rest);
  }

  /** Truncation reads exactly the selected bits, in their order. */
  lemma TruncationSelects(digest: seq<Byte>)
    requires |digest| >= 20
    ensures Truncate(digest) == BitsValue(SelectedBits(digest))
  {
    hide BitsValue, StreamBits, StreamBit;
    LowBitsOfByte(digest, |digest| - 1);
    var o := digest[|digest| - 1] as int % 16;
    FourBytesRead(digest, o);
    TopBitDropped(digest[o] as int, digest[o + 1] as int * 0x10000 + digest[o + 2] as int * 0x100 + digest[o + 3] as int);
  }

  lemma {:induction false} BitOfValue(bits: seq<bool>, k: nat)
    requires k < |bits|
    ensures Pow(2, |bits| - 1 - k) > 0
    ensures BitsValue(bits) / Pow(2, |bits| - 1 - k) % 2 == 1 <==> bits[k]
  {
    PowPositive(2, |bits| - 1 - k);
    var init := bits[..|bits| - 1];
    if k < |bits| - 1 {
      BitOfValue(init, k);
      var m := Pow(2, |bits| - 2 - k);
      QuotientFirst(BitsValue(bits), 2, m);
      assert BitsValue(bits) / 2 == BitsValue(init);
    }
  }

  lemma QuotientFirst(x: nat, b: nat, m: nat)
    requires b > 0 && m > 0
    ensures b * m > 0 && x / (b * m) == x / b / m
  {
    var q, r := x / b / m, x / b % m;
    Regroup(x, b, m, x / b, x % b, q, r);
    DivUnique(x, b * m, q, r * b + x % b);
  }

  lemma Regroup(x: nat, b: nat, m: nat, y: nat, low: nat, q: nat, r: nat)
    requires x == y * b + low && y == q * m + r && low < b && r < m
    ensures b * m > 0 && x == q * (b * m) + (r * b + low) && r * b + low < b * m
  {
    Spread(q, m, r, b);
    Spread(1, r, m - 1 - r, b);
    Spread(1, m - 1, 1, b);
  }

  lemma Spread(q: nat, m: nat, r: nat, b: nat)
    ensures (q * m + r) * b == q * (b * m) + r * b && r * b >= 0
  {
    assert (q * m + r) * b == q * m * b + r * b;
    assert q * m * b == q * (b * m);
  }

  /** With `o` the low four bits of the last byte, bit `k` of the truncated number is bit `8 * o + 1 + k` of the digest. */
  lemma TruncatedBit(digest: seq<Byte>, k: nat)
    requires |digest| >= 20 && k < 31
    ensures Pow(2, 30 - k) > 0
    ensures Truncate(digest) / Pow(2, 30 - k) % 2 == 1
       <==> StreamBit(digest, 8 * (digest[|digest| - 1] as int % 16) + 1 + k)
  {
    hide Truncate, StreamBit;
    TruncationSelects(digest);
    LowBitsOfByte(digest, |digest| - 1);
    BitOfValue(SelectedBits(digest), k);
  }

  lemma {:induction false} CounterPrefix(counter: nat, i: nat)
    requires i <= 8 && counter < Pow(256, 8)
    ensures Pow(256, 8 - i) > 0 && BytesValue(CounterBytes(counter)[..i]) == counter / Pow(256, 8 - i)
  {
    PowPositive(256, 8 - i);
    assert i > 0 ==> Pow(256, 9 - i) == 256 * Pow(256, 8 - i);
    hide Pow, CounterBytes;
    var bytes := CounterBytes(counter);
    if i > 0 {
      CounterPrefix(counter, i - 1);
      CounterByte(counter, i - 1);
      assert bytes[..i][..i - 1] == bytes[..i - 1];
      NextQuotient(counter, Pow(256, 8 - i));
    } else {
      DivUnique(counter, Pow(256, 8), 0, counter);
    }
  }

  lemma CounterByte(counter: nat, i: nat)
    requires i < 8
    ensures Pow(256, 7 - i) > 0 && CounterBytes(counter)[i] as int == counter / Pow(256, 7 - i) % 256
  {
    PowPositive(256, 7 - i);
    hide Pow;
    var digit := counter / Pow(256, 7 - i) % 256;
    assert CounterBytes(counter)[i] == digit as Byte;
    ByteAsInt(digit);
  }

  lemma ByteAsInt(x: nat)
    requires x < 256
    ensures (x as Byte) as int == x
  {
    var a, b, c, d := InBaseFour(x);
    ByteOfDigits(x, a, b, c, d);
  }

  lemma InBaseFour(x: nat) returns (a: nat, b: nat, c: nat, d: nat)
    requires x < 256
    ensures x == 64 * a + 16 * b + 4 * c + d && a < 4 && b < 4 && c < 4 && d < 4
  {
    var y := x / 4;
    var z := y / 4;
    a, b, c, d := z / 4, z % 4, y % 4, x % 4;
  }

  lemma ByteOfDigits(x: nat, a: nat, b: nat, c: nat, d: nat)
    requires x == 64 * a + 16 * b + 4 * c + d && a < 4 && b < 4 && c < 4 && d < 4
    ensures (x as Byte) as int == x
  {
  }

  lemma NextQuotient(x: nat, m: nat)
    requires m > 0
    ensures x / m == 256 * (x / (256 * m)) + x / m % 256
  {
    QuotientFirst(x, m, 256);
  }

  lemma {:induction false} ByteOfValue(bytes: seq<Byte>, k: nat)
    requires k < |bytes|
    ensures Pow(256, |bytes| - 1 - k) > 0
    ensures BytesValue(bytes) / Pow(256, |bytes| - 1 - k) % 256 == bytes[k] as int
  {
    PowPositive(256, |bytes| - 1 - k);
    var init := bytes[..|bytes| - 1];
    if k < |bytes| - 1 {
      ByteOfValue(init, k);
      QuotientFirst(BytesValue(bytes), 256, Pow(256, |bytes| - 2 - k));
      assert BytesValue(bytes) / 256 == BytesValue(init);
    }
  }

  /** The message is the counter in eight bytes, most significant first, and no other eight bytes spell it. */
  lemma CounterSpelled(counter: nat, message: seq<Byte>)
    requires counter < 0x1_0000_0000_0000_0000
    ensures |CounterBytes(counter)| == 8
    ensures message == CounterBytes(counter) <==> |message| == 8 && BytesValue(message) == counter
  {
    PowersOf256();
    hide Pow, BytesValue;
    CounterPrefix(counter, 8);
    assert CounterBytes(counter)[..8] == CounterBytes(counter);
    hide CounterBytes;
    if |message| == 8 && BytesValue(message) == counter {
      forall k | 0 <= k < 8 ensures message[k] == CounterBytes(counter)[k] {
        ByteOfValue(message, k);
        CounterByte(counter, k);
      }
    }
  }

  lemma {:induction false} BytesBelow(bytes: seq<Byte>)
    ensures BytesValue(bytes) < Pow(256, |bytes|)
  {
    if bytes != [] {
      BytesBelow(bytes[..|bytes| - 1]);
    }
  }

  lemma EightBytesFit(message: seq<Byte>)
    requires |message| == 8
    ensures BytesValue(message) < 0x1_0000_0000_0000_0000
  {
    PowersOf256();
    hide BytesValue, Pow;
    BytesBelow(message);
  }

  lemma PowersOf256()
    ensures Pow(256, 8) == 0x1_0000_0000_0000_0000 && Pow(256, 0) == 1
  {
    assert Pow(256, 2) == 0x1_0000;
    assert Pow(256, 4) == 0x1_0000_0000;
    assert Pow(256, 6) == 0x1_0000_0000_0000;
  }

  /** Every answer of the generator: three ways to throw, and otherwise a code. */
  lemma GeneratesIff(hmac: Hmac, secret: string, counter: int, digits: int)
    requires LongDigests(hmac) && Ascii(secret)
    ensures var r := GenerateHmacOtp(hmac, secret, counter, digits);
            && (r == Err(InvalidDigits) <==> !(6 <= digits <= 10))
            && (r == Err(CounterOutOfRange) <==> 6 <= digits <= 10 && !(0 <= counter < 0x1_0000_0000_0000_0000))
            && (r == Err(EmptySecret) <==> 6 <= digits <= 10 && 0 <= counter < 0x1_0000_0000_0000_0000 && Decode(Clean(secret)) == [])
            && (r.Ok? <==> 6 <= digits <= 10 && 0 <= counter < 0x1_0000_0000_0000_0000 && Decode(Clean(secret)) != [])
  {
    hide CounterBytes, HotpValue, Print, Decode, Clean;
  }

  /**
   The code of a counter, said without the functions that compute it: the eight bytes that spell the
   counter are authenticated with the decoded key, and the code is the number of the selected bits of
   the digest, modulo a power of ten, in exactly `digits` decimal digits.
   */
  lemma CodeOfCounter(hmac: Hmac, secret: string, message: seq<Byte>, digits: int)
    requires LongDigests(hmac) && Ascii(secret) && 6 <= digits <= 10 && Decode(Clean(secret)) != []
    requires |message| == 8
    ensures Pow(10, digits) > 0
    ensures var r := GenerateHmacOtp(hmac, secret, BytesValue(message), digits);
            && r.Ok? && |r.value| == digits && Digits(r.value)
            && Parse(r.value) == BitsValue(SelectedBits(hmac(Decode(Clean(secret)), message))) % Pow(10, digits)
  {
    hide BytesValue, BitsValue, SelectedBits, HotpValue, Print, Decode, Clean, Digits, Parse, Pow;
    var key := Decode(Clean(secret));
    EightBytesFit(message);
    ValueOfMessage(hmac, key, message, digits);
    PrintedCode(HotpValue(hmac, key, BytesValue(message), digits), digits);
  }

  lemma ValueOfMessage(hmac: Hmac, key: seq<Byte>, message: seq<Byte>, digits: nat)
    requires LongDigests(hmac) && |message| == 8
    ensures Pow(10, digits) > 0
    ensures HotpValue(hmac, key, BytesValue(message), digits) == BitsValue(SelectedBits(hmac(key, message))) % Pow(10, digits)
  {
    hide BytesValue, BitsValue, SelectedBits, Truncate, CounterBytes, Pow;
    PowPositive(10, digits);
    EightBytesFit(message);
    CounterSpelled(BytesValue(message), message);
    TruncationSelects(hmac(key, message));
  }

  lemma {:induction false} SameNumberSameDigits(s: string, t: string)
    requires |s| == |t| && Digits(s) && Digits(t) && Parse(s) == Parse(t)
    ensures s == t
  {
    if s != "" {
      SameNumberSameDigits(s[..|s| - 1], t[..|t| - 1]);
      assert s == s[..|s| - 1] + [s[|s| - 1]] && t == t[..|t| - 1] + [t[|t| - 1]];
    }
  }

  /** `message` authenticated with the decoded secret gives the number that the text spells in `digits` digits. */
  ghost predicate SpellsCode(hmac: Hmac, secret: string, message: seq<Byte>, text: string, digits: nat)
    requires LongDigests(hmac) && Ascii(secret)
  {
    PowPositive(10, digits);
    && |text| == digits && Digits(text)
    && Parse(text) == BitsValue(SelectedBits(hmac(Decode(Clean(secret)), message))) % Pow(10, digits)
  }

  lemma CodeIffSpelled(hmac: Hmac, secret: string, message: seq<Byte>, text: string, digits: nat)
    requires LongDigests(hmac) && Ascii(secret) && 6 <= digits <= 10 && Decode(Clean(secret)) != []
    requires |message| == 8
    ensures GenerateHmacOtp(hmac, secret, BytesValue(message), digits) == Ok(text) <==> SpellsCode(hmac, secret, message, text, digits)
  {
    hide BytesValue, BitsValue, SelectedBits, GenerateHmacOtp, Decode, Clean, Parse, Pow;
    CodeOfCounter(hmac, secret, message, digits);
    var code := GenerateHmacOtp(hmac, secret, BytesValue(message), digits).value;
    if |text| == digits && Digits(text) && Parse(text) == Parse(code) {
      SameNumberSameDigits(text, code);
    }
  }

  /** The first value of RFC 4226 appendix D, from the digest given there. */
  lemma PublishedCode(hmac: Hmac, secret: string)
    requires LongDigests(hmac) && Ascii(secret) && Decode(Clean(secret)) != []
    requires hmac(Decode(Clean(secret)), [0, 0, 0, 0, 0, 0, 0, 0])
          == [0xcc, 0x93, 0xcf, 0x18, 0x50, 0x8d, 0x94, 0x93, 0x4c, 0x64,
              0xb6, 0x5d, 0x8b, 0xa7, 0x66, 0x7f, 0xb7, 0xcd, 0xe4, 0xb0]
    ensures GenerateHmacOtp(hmac, secret, 0, 6) == Ok("755224")
  {
    hide Decode, Clean, CounterBytes, Truncate, Print, BytesValue;
    var zeros: seq<Byte> := [0, 0, 0, 0, 0, 0, 0, 0];
    ZerosSpellZero();
    CounterSpelled(0, zeros);
    PowerOfTen();
    PublishedNumber();
    PrintedExample();
  }

  lemma PublishedNumber()
    ensures Truncate([0xcc, 0x93, 0xcf, 0x18, 0x50, 0x8d, 0x94, 0x93, 0x4c, 0x64,
                      0xb6, 0x5d, 0x8b, 0xa7, 0x66, 0x7f, 0xb7, 0xcd, 0xe4, 0xb0]) == 1284755224
  {
    var digest: seq<Byte> := [0xcc, 0x93, 0xcf, 0x18, 0x50, 0x8d, 0x94, 0x93, 0x4c, 0x64,
                              0xb6, 0x5d, 0x8b, 0xa7, 0x66, 0x7f, 0xb7, 0xcd, 0xe4, 0xb0];
    PublishedBytes(digest[0], digest[1], digest[2], digest[3], digest[19]);
    assert ReadUInt32BE(digest, 0) == 204 * 0x1000000 + 147 * 0x10000 + 207 * 0x100 + 24;
  }

  lemma PublishedBytes(a: Byte, b: Byte, c: Byte, d: Byte, last: Byte)
    requires a == 0xcc && b == 0x93 && c == 0xcf && d == 0x18 && last == 0xb0
    ensures a as int == 204 && b as int == 147 && c as int == 207 && d as int == 24 && last as int == 176
  {
  }

  lemma PowerOfTen()
    ensures Pow(10, 6) == 1000000
  {
    assert Pow(10, 3) == 1000;
  }

  lemma ZerosSpellZero()
    ensures BytesValue([0, 0, 0, 0, 0, 0, 0, 0]) == 0
  {
    var zeros: seq<Byte> := [0, 0, 0, 0, 0, 0, 0, 0];
    AllZeros(zeros);
  }

  lemma {:induction false} AllZeros(bytes: seq<Byte>)
    requires forall k | 0 <= k < |bytes| :: bytes[k] == 0
    ensures BytesValue(bytes) == 0
  {
    if bytes != [] {
      AllZeros(bytes[..|bytes| - 1]);
    }
  }

  lemma PrintedExample()
    ensures Print(755224, 6) == "755224"
  {
    assert Decimal(755) == "755";
    assert Decimal(755224) == "755224";
  }

  lemma CodeIsDigits(hmac: Hmac, secret: string, counter: int, digits: int)
    requires LongDigests(hmac) && Ascii(secret)
    ensures var r := GenerateHmacOtp(hmac, secret, counter, digits);
            r.Ok? ==> Digits(r.value) && |r.value| == digits
  {
    if GenerateHmacOtp(hmac, secret, counter, digits).Ok? {
      PowPositive(10, digits);
      PrintedCode(HotpValue(hmac, Decode(Clean(secret)), counter, digits), digits);
    }
  }

  /** Two counters have the same code exactly if the numbers selected from their digests agree modulo the power of ten. */
  lemma SameCodeIffSameResidue(hmac: Hmac, secret: string, a: seq<Byte>, b: seq<Byte>, digits: int)
    requires LongDigests(hmac) && Ascii(secret) && 6 <= digits <= 10 && Decode(Clean(secret)) != []
    requires |a| == 8 && |b| == 8
    ensures Pow(10, digits) > 0
    ensures GenerateHmacOtp(hmac, secret, BytesValue(a), digits) == GenerateHmacOtp(hmac, secret, BytesValue(b), digits) <==>
              BitsValue(SelectedBits(hmac(Decode(Clean(secret)), a))) % Pow(10, digits)
              == BitsValue(SelectedBits(hmac(Decode(Clean(secret)), b))) % Pow(10, digits)
  {
    hide BytesValue, BitsValue, SelectedBits, GenerateHmacOtp, Decode, Clean, Parse, Pow, Digits;
    CodeOfCounter(hmac, secret, a, digits);
    CodeOfCounter(hmac, secret, b, digits);
    var c, d := GenerateHmacOtp(hmac, secret, BytesValue(a), digits).value, GenerateHmacOtp(hmac, secret, BytesValue(b), digits).value;
    if Parse(c) == Parse(d) {
      SameNumberSameDigits(c, d);
    }
  }

  // ---------------------------------------------------------------------------
  // TOTP
  // ---------------------------------------------------------------------------

  function TimeToCounter(timestampSeconds: int, stepSeconds: int): int
    requires stepSeconds > 0
  {
    timestampSeconds / stepSeconds
  }

  function CounterAt(timestamp: int, stepSeconds: int): int
    requires stepSeconds > 0
  {
    TimeToCounter(timestamp / 1000, stepSeconds)
  }

  function GenerateTotp(hmac: Hmac, secret: string, timestamp: int, stepSeconds: int, digits: int)
    : Result<string, Error>
    requires LongDigests(hmac) && Ascii(secret) && stepSeconds > 0
  {
    GenerateHmacOtp(hmac, secret, CounterAt(timestamp, stepSeconds), digits)
  }

  /** The white space and line terminators that JavaScript's `trim` removes. */
  predicate IsSpace(c: char) {
    '\t' <= c <= '\r' || c == ' ' || c == '\U{A0}' || c == '\U{1680}' || '\U{2000}' <= c <= '\U{200A}'
    || c == '\U{2028}' || c == '\U{2029}' || c == '\U{202F}' || c == '\U{205F}' || c == '\U{3000}' || c == '\U{FEFF}'
  }

  function Trim(s: string): string {
    if |s| > 0 && IsSpace(s[0]) then Trim(s[1..])
    else if |s| > 0 && IsSpace(s[|s| - 1]) then Trim(s[..|s| - 1])
    else s
  }

  /** Tries the counters `i..hi` in order; the first that throws or matches decides. */
  function Scan(hmac: Hmac, secret: string, code: string, i: int, hi: int, digits: int): Result<bool, Error>
    requires LongDigests(hmac) && Ascii(secret)
    decreases hi - i
  {
    if i > hi then Ok(false)
    else
      match GenerateHmacOtp(hmac, secret, i, digits)
      case Err(e) => Err(e)
      case Ok(candidate) =>
        if candidate == code then Ok(true) else Scan(hmac, secret, code, i + 1, hi, digits)
  }

  function Verify(hmac: Hmac, secret: string, code: string, window: int, timestamp: int, stepSeconds: int, digits: nat)
    : Result<bool, Error>
    requires LongDigests(hmac) && Ascii(secret) && stepSeconds > 0
  {
    if window < 0 || window > 10 then Err(InvalidWindow)
    else if !(|Trim(code)| == digits && Digits(Trim(code))) then Ok(false)
    else
      var counter := CounterAt(timestamp, stepSeconds);
      Scan(hmac, secret, Trim(code), counter - window, counter + window, digits)
  }

  /** Verifies a code against the time steps around `timestamp`. */
  method VerifyTotp(hmac: Hmac, secret: string, code: string, window: int, timestamp: int, stepSeconds: int, digits: nat)
    returns (r: Result<bool, Error>)
    requires LongDigests(hmac) && Ascii(secret) && stepSeconds > 0
    ensures r == Verify(hmac, secret, code, window, timestamp, stepSeconds, digits)
  {
    hide GenerateHmacOtp, Trim, Digits, CounterAt;
    if window < 0 || window > 10 {
      return Err(InvalidWindow);
    }
    var normalized := Trim(code);
    if !(|normalized| == digits && Digits(normalized)) {
      return Ok(false);
    }
    var counter := CounterAt(timestamp, stepSeconds);
    var i := counter - window;
    while i <= counter + window
      invariant i <= counter + window + 1
      invariant Scan(hmac, secret, normalized, counter - window, counter + window, digits)
             == Scan(hmac, secret, normalized, i, counter + window, digits)
    {
      match GenerateHmacOtp(hmac, secret, i, digits)
      case Err(e) =>
        return Err(e);
      case Ok(candidate) =>
        if |candidate| == |normalized| && candidate == normalized {
          return Ok(true);
        }
      i := i + 1;
    }
    return Ok(false);
  }

  predicate NoThrow(secret: string, lo: int, hi: int, digits: int)
    requires Ascii(secret)
  {
    6 <= digits <= 10 && 0 <= lo && hi < 0x1_0000_0000_0000_0000 && |Decode(Clean(secret))| > 0
  }

  /** The counters of the window are all representable and the key is usable: no call can throw. */
  predicate WindowUsable(secret: string, window: int, timestamp: int, stepSeconds: int, digits: int)
    requires Ascii(secret) && stepSeconds > 0
  {
    var c := CounterAt(timestamp, stepSeconds);
    NoThrow(secret, c - window, c + window, digits)
  }

  lemma {:induction false} ScanExact(hmac: Hmac, secret: string, code: string, lo: int, hi: int, digits: int)
    requires LongDigests(hmac) && Ascii(secret) && NoThrow(secret, lo, hi, digits)
    ensures Scan(hmac, secret, code, lo, hi, digits)
         == Ok(exists i :: lo <= i <= hi && GenerateHmacOtp(hmac, secret, i, digits) == Ok(code))
    decreases hi - lo
  {
    hide GenerateHmacOtp, Decode, Clean;
    if lo <= hi {
      GeneratesIff(hmac, secret, lo, digits);
      if lo < hi {
        ScanExact(hmac, secret, code, lo + 1, hi, digits);
      }
      if GenerateHmacOtp(hmac, secret, lo, digits) != Ok(code) {
        assert forall i :: lo <= i <= hi && GenerateHmacOtp(hmac, secret, i, digits) == Ok(code) ==> lo + 1 <= i;
      }
    }
  }

  /**
   Acceptance is exact: while no counter of the window is negative or out of range,
   the answer is whether the trimmed code is the code of some counter in the window.
   A malformed code is the code of none.
   */
  lemma AcceptedIffInWindow(hmac: Hmac, secret: string, code: string, window: int,
                            timestamp: int, stepSeconds: int, digits: nat)
    requires LongDigests(hmac) && Ascii(secret) && stepSeconds > 0 && 0 <= window <= 10
    requires WindowUsable(secret, window, timestamp, stepSeconds, digits)
    ensures var c := CounterAt(timestamp, stepSeconds);
            && Verify(hmac, secret, code, window, timestamp, stepSeconds, digits)
            == Ok(exists i :: c - window <= i <= c + window && GenerateHmacOtp(hmac, secret, i, digits) == Ok(Trim(code)))
  {
    hide GenerateHmacOtp, CounterAt, Trim, Digits;
    var c := CounterAt(timestamp, stepSeconds);
    ScanExact(hmac, secret, Trim(code), c - window, c + window, digits);
    if i :| c - window <= i <= c + window && GenerateHmacOtp(hmac, secret, i, digits) == Ok(Trim(code)) {
      CodeIsDigits(hmac, secret, i, digits);
    }
  }

  lemma {:induction false} ScanKeepsWindow(hmac: Hmac, secret: string, code: string, lo: int, hi: int, digits: int)
    requires LongDigests(hmac) && Ascii(secret)
    ensures Scan(hmac, secret, code, lo, hi, digits) != Err(InvalidWindow)
    decreases hi - lo
  {
    GeneratesIff(hmac, secret, lo, digits);
    hide GenerateHmacOtp;
    if lo <= hi {
      ScanKeepsWindow(hmac, secret, code, lo + 1, hi, digits);
    }
  }

  /** Before any code is made: a window outside 0..10 throws, and otherwise text that is not `digits` digits is refused. */
  lemma RefusedUnread(hmac: Hmac, secret: string, code: string, window: int, timestamp: int, stepSeconds: int, digits: nat)
    requires LongDigests(hmac) && Ascii(secret) && stepSeconds > 0
    ensures var r := Verify(hmac, secret, code, window, timestamp, stepSeconds, digits);
            && (r == Err(InvalidWindow) <==> !(0 <= window <= 10))
            && (0 <= window <= 10 && (|Trim(code)| != digits || exists k | 0 <= k < |Trim(code)| :: !('0' <= Trim(code)[k] <= '9'))
                ==> r == Ok(false))
  {
    hide Trim, Scan, CounterAt;
    var c := CounterAt(timestamp, stepSeconds);
    ScanKeepsWindow(hmac, secret, Trim(code), c - window, c + window, digits);
  }

  /** The code points of the ECMAScript white space and line terminators. */
  const WHITE_SPACE: set<int> :=
    {9, 10, 11, 12, 13, 32, 160, 5760, 8192, 8193, 8194, 8195, 8196, 8197, 8198, 8199, 8200, 8201, 8202,
     8232, 8233, 8239, 8287, 12288, 65279}

  /** What is trimmed is white space at the two ends, and all of it. */
  lemma {:induction false} TrimStrips(s: string) returns (a: nat, b: nat)
    ensures a <= b <= |s| && Trim(s) == s[a..b]
    ensures forall k | 0 <= k < a || b <= k < |s| :: s[k] as int in WHITE_SPACE
    ensures a < b ==> s[a] as int !in WHITE_SPACE && s[b - 1] as int !in WHITE_SPACE
  {
    SpaceIsWhite();
    hide IsSpace;
    if |s| > 0 && IsSpace(s[0]) {
      a, b := TrimStrips(s[1..]);
      a, b := a + 1, b + 1;
    } else if |s| > 0 && IsSpace(s[|s| - 1]) {
      a, b := TrimStrips(s[..|s| - 1]);
    } else {
      a, b := 0, |s|;
    }
  }

  lemma SpaceIsWhite()
    ensures forall c :: IsSpace(c) <==> c as int in WHITE_SPACE
  {
  }

  /** A window that starts below counter zero makes every well-formed code throw. */
  lemma NegativeCounterThrows(hmac: Hmac, secret: string, code: string, window: int,
                              timestamp: int, stepSeconds: int, digits: nat)
    requires LongDigests(hmac) && Ascii(secret) && stepSeconds > 0 && 0 <= window <= 10
    requires 6 <= digits <= 10 && |Trim(code)| == digits && Digits(Trim(code))
    ensures CounterAt(timestamp, stepSeconds) < window
        ==> Verify(hmac, secret, code, window, timestamp, stepSeconds, digits) == Err(CounterOutOfRange)
  {
  }

  /** The nested floors of the two clocks, `w` steps apart. */
  lemma CountersWithin(t: int, u: int, w: int, stepSeconds: int)
    requires stepSeconds > 0
    ensures u <= t + w * stepSeconds * 1000 ==> CounterAt(u, stepSeconds) <= CounterAt(t, stepSeconds) + w
    ensures u >= t + w * stepSeconds * 1000 ==> CounterAt(u, stepSeconds) >= CounterAt(t, stepSeconds) + w
  {
    var n := w * stepSeconds;
    assert (t + n * 1000) / 1000 == t / 1000 + n;
    DivShift(t / 1000, stepSeconds, w);
    if u <= t + n * 1000 {
      DivMonotone(u / 1000, t / 1000 + n, stepSeconds);
    }
    if u >= t + n * 1000 {
      DivMonotone(t / 1000 + n, u / 1000, stepSeconds);
    }
  }

  /** How far apart two clocks are, in steps: within `w` steps, or at least `w` steps apart. */
  predicate Within(t: int, u: int, w: int, stepSeconds: int) {
    t - w * stepSeconds * 1000 <= u <= t + w * stepSeconds * 1000
  }

  predicate Apart(t: int, u: int, w: int, stepSeconds: int) {
    u <= t - w * stepSeconds * 1000 || u >= t + w * stepSeconds * 1000
  }

  lemma CounterDistance(t: int, u: int, w: int, stepSeconds: int)
    requires stepSeconds > 0
    ensures var c, d := CounterAt(t, stepSeconds), CounterAt(u, stepSeconds);
            && (Within(t, u, w, stepSeconds) ==> d - w <= c <= d + w)
            && (Apart(t, u, w, stepSeconds) ==> c <= d - w || c >= d + w)
  {
    hide CounterAt;
    assert (-w) * stepSeconds * 1000 == -(w * stepSeconds * 1000);
    CountersWithin(t, u, w, stepSeconds);
    CountersWithin(t, u, -w, stepSeconds);
  }

  /** A code made at `t` is accepted at `u` whenever the clocks differ by at most `window` steps. */
  lemma DriftTolerated(hmac: Hmac, secret: string, code: string, window: int, t: int, u: int, stepSeconds: int, digits: nat)
    requires LongDigests(hmac) && Ascii(secret) && stepSeconds > 0 && 0 <= window <= 10
    requires GenerateTotp(hmac, secret, t, stepSeconds, digits) == Ok(code)
    requires WindowUsable(secret, window, u, stepSeconds, digits)
    requires Within(t, u, window, stepSeconds)
    ensures Verify(hmac, secret, code, window, u, stepSeconds, digits) == Ok(true)
  {
    CodeIsDigits(hmac, secret, CounterAt(t, stepSeconds), digits);
    hide GenerateHmacOtp, CounterAt, Trim, Digits, Verify, Within, Apart, NoThrow;
    AcceptedIffInWindow(hmac, secret, code, window, u, stepSeconds, digits);
    CounterDistance(t, u, window, stepSeconds);
    TrimDigits(code);
  }

  lemma TrimDigits(s: string)
    requires Digits(s)
    ensures Trim(s) == s
  {
  }

  /** One step further apart it is rejected, unless a counter in the window shares the code. */
  lemma DriftRejected(hmac: Hmac, secret: string, code: string, window: int, t: int, u: int, stepSeconds: int, digits: nat)
    requires LongDigests(hmac) && Ascii(secret) && stepSeconds > 0 && 0 <= window <= 10
    requires GenerateTotp(hmac, secret, t, stepSeconds, digits) == Ok(code)
    requires WindowUsable(secret, window, u, stepSeconds, digits)
    requires Apart(t, u, window + 1, stepSeconds)
    requires var c, d := CounterAt(t, stepSeconds), CounterAt(u, stepSeconds);
             forall i :: d - window <= i <= d + window && i != c ==> GenerateHmacOtp(hmac, secret, i, digits) != Ok(code)
    ensures Verify(hmac, secret, code, window, u, stepSeconds, digits) == Ok(false)
  {
    CodeIsDigits(hmac, secret, CounterAt(t, stepSeconds), digits);
    hide GenerateHmacOtp, CounterAt, Trim, Digits, Verify, Within, Apart, NoThrow;
    AcceptedIffInWindow(hmac, secret, code, window, u, stepSeconds, digits);
    CounterDistance(t, u, window + 1, stepSeconds);
    TrimDigits(code);
  }

  lemma CounterReached(u: int, c: int, stepSeconds: int)
    requires stepSeconds > 0
    ensures CounterAt(u, stepSeconds) >= c <==> u >= c * stepSeconds * 1000
  {
    var n := c * stepSeconds;
    CountersWithin(0, u, c, stepSeconds);
    if u < n * 1000 {
      assert u / 1000 <= n - 1;
      DivMonotone(u / 1000, n - 1, stepSeconds);
      DivUnique(n - 1, stepSeconds, c - 1, stepSeconds - 1);
    }
  }

  /**
   Nothing is remembered of a code that was accepted: the code of counter `i` is accepted at
   every time from the start of step `i - window` to the end of step `i + window`, as often
   as it is presented, and, absent a collision, at no other.
   */
  lemma AcceptedThroughoutWindow(hmac: Hmac, secret: string, code: string, i: int, window: int, u: int, stepSeconds: int, digits: nat)
    requires LongDigests(hmac) && Ascii(secret) && stepSeconds > 0 && 0 <= window <= 10
    requires GenerateHmacOtp(hmac, secret, i, digits) == Ok(code) && WindowUsable(secret, window, u, stepSeconds, digits)
    requires var d := CounterAt(u, stepSeconds);
             forall j :: d - window <= j <= d + window && j != i ==> GenerateHmacOtp(hmac, secret, j, digits) != Ok(code)
    ensures Verify(hmac, secret, code, window, u, stepSeconds, digits)
         == Ok((i - window) * stepSeconds * 1000 <= u < (i + window + 1) * stepSeconds * 1000)
  {
    hide GenerateHmacOtp, CounterAt, Trim, Digits, Verify, NoThrow;
    CodeIsDigits(hmac, secret, i, digits);
    AcceptedIffInWindow(hmac, secret, code, window, u, stepSeconds, digits);
    TrimDigits(code);
    StepsReached(u, i, window, stepSeconds);
  }

  lemma StepsReached(u: int, i: int, window: int, stepSeconds: int)
    requires stepSeconds > 0
    ensures var d := CounterAt(u, stepSeconds);
            d - window <= i <= d + window <==> (i - window) * stepSeconds * 1000 <= u < (i + window + 1) * stepSeconds * 1000
  {
    hide CounterAt;
    CounterReached(u, i - window, stepSeconds);
    CounterReached(u, i + window + 1, stepSeconds);
  }
}
