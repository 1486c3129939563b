/**
 Base32 without padding (RFC 4648 section 6), as the authenticator secrets use it.

 The loops keep their accumulator in one 32-bit word that is never masked, so on
 longer inputs its high bits are shifted out. `bv32` has exactly that behaviour.
 The reference definition is the bit stream: bit `p` of a byte string is bit
 `7 - p % 8` of byte `p / 8`, and bit `p` of a symbol string is bit `4 - p % 5` of
 the value of symbol `p / 5`.
 */
module Base32 {
  import opened Wrappers

  type Byte = bv8

  const BASE32_ALPHABET: string := "ABCDEFGHIJKLMNOPQRSTUVWXYZ234567"

  // ---------------------------------------------------------------------------
  // Bits of a word
  // ---------------------------------------------------------------------------

  function Mask(k: nat): bv32 {
    if k == 0 then 1 else if k == 1 then 2 else if k == 2 then 4 else if k == 3 then 8
    else if k == 4 then 16 else if k == 5 then 32 else if k == 6 then 64 else if k == 7 then 128
    else if k == 8 then 256 else if k == 9 then 512 else if k == 10 then 1024
    else if k == 11 then 2048 else 0
  }

  /** Bit `k` of `v`, for the low twelve bits, the only ones that are ever read. */
  predicate Bit(v: bv32, k: nat) {
    v & Mask(k) != 0
  }

  function Pack5(b4: bool, b3: bool, b2: bool, b1: bool, b0: bool): bv32 {
    (if b4 then 16 else 0) | (if b3 then 8 else 0) | (if b2 then 4 else 0)
    | (if b1 then 2 else 0) | (if b0 then 1 else 0)
  }

  function Pack8(b7: bool, b6: bool, b5: bool, b4: bool, b3: bool, b2: bool, b1: bool, b0: bool): Byte {
    (if b7 then 128 else 0) | (if b6 then 64 else 0) | (if b5 then 32 else 0) | (if b4 then 16 else 0)
    | (if b3 then 8 else 0) | (if b2 then 4 else 0) | (if b1 then 2 else 0) | (if b0 then 1 else 0)
  }

  lemma Pack5Bits(b4: bool, b3: bool, b2: bool, b1: bool, b0: bool)
    ensures var x := Pack5(b4, b3, b2, b1, b0);
            && x < 32
            && Bit(x, 4) == b4 && Bit(x, 3) == b3 && Bit(x, 2) == b2 && Bit(x, 1) == b1 && Bit(x, 0) == b0
  {
  }

  lemma Pack5OfBits(x: bv32)
    requires x < 32
    ensures Pack5(Bit(x, 4), Bit(x, 3), Bit(x, 2), Bit(x, 1), Bit(x, 0)) == x
  {
  }

  predicate ByteBit(b: Byte, k: nat) {
    Bit(b as bv32, k)
  }

  lemma Pack8Bits(b7: bool, b6: bool, b5: bool, b4: bool, b3: bool, b2: bool, b1: bool, b0: bool)
    ensures var x := Pack8(b7, b6, b5, b4, b3, b2, b1, b0);
            && ByteBit(x, 7) == b7 && ByteBit(x, 6) == b6 && ByteBit(x, 5) == b5 && ByteBit(x, 4) == b4
            && ByteBit(x, 3) == b3 && ByteBit(x, 2) == b2 && ByteBit(x, 1) == b1 && ByteBit(x, 0) == b0
  {
  }

  lemma SameBitsSameByte(b: Byte, c: Byte)
    requires forall k: nat | k < 8 :: ByteBit(b, k) == ByteBit(c, k)
    ensures b == c
  {
    assert ByteBit(b, 0) == ByteBit(c, 0) && ByteBit(b, 1) == ByteBit(c, 1);
    assert ByteBit(b, 2) == ByteBit(c, 2) && ByteBit(b, 3) == ByteBit(c, 3);
    assert ByteBit(b, 4) == ByteBit(c, 4) && ByteBit(b, 5) == ByteBit(c, 5);
    assert ByteBit(b, 6) == ByteBit(c, 6) && ByteBit(b, 7) == ByteBit(c, 7);
  }

  /** Shifting a byte in: its bits become the low eight, the others move up, wherever the top wraps. */
  lemma ShiftInByte(v: bv32, b: Byte, k: nat)
    requires k < 12
    ensures Bit((v << 8) | (b as bv32), k) == if k < 8 then ByteBit(b, k) else Bit(v, k - 8)
  {
  }

  lemma ShiftInSymbol(v: bv32, x: bv32, k: nat)
    requires k < 12 && x < 32
    ensures Bit((v << 5) | x, k) == if k < 5 then Bit(x, k) else Bit(v, k - 5)
  {
  }

  /** The unsigned right shift `v >>> k`, one place at a time. */
  function Shr(v: bv32, k: nat): bv32 {
    if k == 0 then v else Shr(v, k - 1) >> 1
  }

  /** The left shift `v << k`, one place at a time; the top bit falls off the word. */
  function Shl(v: bv32, k: nat): bv32 {
    if k == 0 then v else Shl(v, k - 1) << 1
  }

  lemma ShrOneBit(v: bv32, k: nat)
    requires k < 11
    ensures Bit(v >> 1, k) == Bit(v, k + 1)
  {
  }

  lemma {:induction false} ShrBit(v: bv32, n: nat, k: nat)
    requires n + k < 12
    ensures Bit(Shr(v, n), k) == Bit(v, k + n)
  {
    hide Bit;
    if n > 0 {
      ShrOneBit(Shr(v, n - 1), k);
      ShrBit(v, n - 1, k + 1);
    }
  }

  lemma ShlOneBit(v: bv32, k: nat)
    requires k < 12
    ensures Bit(v << 1, k) == (k > 0 && Bit(v, k - 1))
  {
    if k < 4 {} else if k < 8 {} else {}
  }

  lemma {:induction false} ShlBit(v: bv32, n: nat, k: nat)
    requires k < 12
    ensures Bit(Shl(v, n), k) == (k >= n && Bit(v, k - n))
  {
    hide Bit;
    if n > 0 {
      ShlOneBit(Shl(v, n - 1), k);
      if k > 0 {
        ShlBit(v, n - 1, k - 1);
      }
    }
  }

  /** Masking with 31 keeps the five low bits, with 255 the eight low bits. */
  lemma LowSymbol(x: bv32)
    ensures x & 31 == Pack5(Bit(x, 4), Bit(x, 3), Bit(x, 2), Bit(x, 1), Bit(x, 0))
    ensures x & 31 < 32
  {
  }

  function LowByte(v: bv32): Byte {
    (v & 0xff) as Byte
  }

  lemma LowByteBit(v: bv32, k: nat)
    requires k < 8
    ensures ByteBit(LowByte(v), k) == Bit(v, k)
  {
  }

  // ---------------------------------------------------------------------------
  // The alphabet
  // ---------------------------------------------------------------------------

  function Symbol(x: bv32): char
    requires x < 32
  {
    BASE32_ALPHABET[(x as bv5) as int]
  }

  /** JavaScript's `indexOf`: the first position holding `c`, or none. */
  function IndexFrom(s: string, c: char, i: nat): (r: Option<nat>)
    requires i <= |s|
    ensures r.Some? ==> i <= r.value < |s| && s[r.value] == c
    ensures r.None? ==> c !in s[i..]
    decreases |s| - i
  {
    if i == |s| then None else if s[i] == c then Some(i) else IndexFrom(s, c, i + 1)
  }

  predicate InAlphabet(c: char) {
    'A' <= c <= 'Z' || '2' <= c <= '7'
  }

  lemma AlphabetAt(i: nat)
    requires i < 32
    ensures |BASE32_ALPHABET| == 32
    ensures BASE32_ALPHABET[i] == if i < 26 then 'A' + i as char else '2' + (i - 26) as char
  {
  }

  lemma AlphabetCovers(c: char)
    requires InAlphabet(c)
    ensures |BASE32_ALPHABET| == 32 && c in BASE32_ALPHABET
  {
    var i := if c >= 'A' then c as int - 'A' as int else 26 + (c as int - '2' as int);
    AlphabetAt(i);
    assert BASE32_ALPHABET[i] == c;
  }

  /** The alphabet lists exactly the letters and the digits two to seven, each once. */
  lemma IndexOfSymbol(c: char)
    ensures |BASE32_ALPHABET| == 32
    ensures InAlphabet(c) <==> IndexFrom(BASE32_ALPHABET, c, 0).Some?
    ensures forall i: nat | i < 32 && BASE32_ALPHABET[i] == c :: IndexFrom(BASE32_ALPHABET, c, 0) == Some(i)
  {
    AlphabetAt(0);
    var index := IndexFrom(BASE32_ALPHABET, c, 0);
    if index.Some? {
      AlphabetAt(index.value);
    }
    if InAlphabet(c) {
      AlphabetCovers(c);
    }
    forall i: nat | i < 32 && BASE32_ALPHABET[i] == c ensures index == Some(i) {
      AlphabetAt(i);
    }
  }

  function ToWord(i: nat): (x: bv32)
    requires i < 32
    ensures x < 32
  {
    (i as bv5) as bv32
  }

  function Value(c: char): (x: bv32)
    requires InAlphabet(c)
    ensures x < 32
  {
    IndexOfSymbol(c);
    ToWord(IndexFrom(BASE32_ALPHABET, c, 0).value)
  }

  lemma SymbolOfValue(c: char)
    requires InAlphabet(c)
    ensures Symbol(Value(c)) == c
  {
    hide InAlphabet;
    IndexOfSymbol(c);
    WordIndex(IndexFrom(BASE32_ALPHABET, c, 0).value);
  }

  lemma WordIndex(i: nat)
    requires i < 32
    ensures (ToWord(i) as bv5) as int == i
  {
  }

  lemma ValueOfSymbol(x: bv32)
    requires x < 32
    ensures InAlphabet(Symbol(x)) && Value(Symbol(x)) == x
  {
    IndexOfSymbol(Symbol(x));
  }

  // ---------------------------------------------------------------------------
  // The reference definition: bit streams
  // ---------------------------------------------------------------------------

  /** Bit `p` of a byte string, most significant first; zeros pad the end. */
  predicate StreamBit(bytes: seq<Byte>, p: int) {
    0 <= p < 8 * |bytes| && ByteBit(bytes[p / 8], 7 - p % 8)
  }

  /** Bit `p` of a string of five-bit values, most significant first. */
  predicate SymbolBit(values: seq<bv32>, p: int) {
    0 <= p < 5 * |values| && Bit(values[p / 5], 4 - p % 5)
  }

  function GroupAt(bytes: seq<Byte>, p: nat): (x: bv32)
    ensures x < 32
  {
    Pack5Bits(StreamBit(bytes, p), StreamBit(bytes, p + 1), StreamBit(bytes, p + 2),
              StreamBit(bytes, p + 3), StreamBit(bytes, p + 4));
    Pack5(StreamBit(bytes, p), StreamBit(bytes, p + 1), StreamBit(bytes, p + 2),
          StreamBit(bytes, p + 3), StreamBit(bytes, p + 4))
  }

  function ByteAt(values: seq<bv32>, p: nat): Byte {
    Pack8(SymbolBit(values, p), SymbolBit(values, p + 1), SymbolBit(values, p + 2), SymbolBit(values, p + 3),
          SymbolBit(values, p + 4), SymbolBit(values, p + 5), SymbolBit(values, p + 6), SymbolBit(values, p + 7))
  }

  /** The symbols needed for `n` bytes, rounding up. */
  function SymbolCount(n: nat): nat {
    (8 * n + 4) / 5
  }

  function Encode(bytes: seq<Byte>): string {
    seq(SymbolCount(|bytes|), q requires 0 <= q => Symbol(GroupAt(bytes, 5 * q)))
  }

  predicate Symbols(s: string) {
    forall i | 0 <= i < |s| :: InAlphabet(s[i])
  }

  function Values(s: string): seq<bv32>
    requires Symbols(s)
  {
    seq(|s|, q requires 0 <= q < |s| => Value(s[q]))
  }

  /** The whole bytes in the stream of symbol bits; what is left over is dropped. */
  function Decode(s: string): seq<Byte>
    requires Symbols(s)
  {
    seq(5 * |s| / 8, j requires 0 <= j => ByteAt(Values(s), 8 * j))
  }

  // ---------------------------------------------------------------------------
  // The loops
  // ---------------------------------------------------------------------------

  /** Encodes a buffer as upper-case Base32 without padding. */
  method Base32Encode(buffer: seq<Byte>) returns (out: string)
    ensures out == Encode(buffer)
  {
    hide Bit, ByteBit, Pack5, Symbol, GroupAt, StreamBit;
    var bits: int := 0;
    var value: bv32 := 0;
    out := "";
    for i := 0 to |buffer|
      invariant 0 <= bits < 5 && 5 * |out| == 8 * i - bits
      invariant forall k: nat | k < bits :: Bit(value, k) == StreamBit(buffer, 8 * i - 1 - k)
      invariant forall q | 0 <= q < |out| :: out[q] == Symbol(GroupAt(buffer, 5 * q))
    {
      ghost var before := value;
      value := (value << 8) | (buffer[i] as bv32);
      bits := bits + 8;
      ShiftedInByte(before, buffer[i], value);
      AppendByte(buffer, before, value, i, bits - 8);
      while bits >= 5
        invariant 0 <= bits <= 12 && 5 * |out| == 8 * (i + 1) - bits
        invariant forall k: nat | k < bits :: Bit(value, k) == StreamBit(buffer, 8 * (i + 1) - 1 - k)
        invariant forall q | 0 <= q < |out| :: out[q] == Symbol(GroupAt(buffer, 5 * q))
      {
        ReadGroup(buffer, value, bits, 5 * |out|);
        out := out + [Symbol(Shr(value, bits - 5) & 31)];
        bits := bits - 5;
      }
    }
    if bits > 0 {
      ReadPaddedGroup(buffer, value, bits, 5 * |out|);
      out := out + [Symbol(Shl(value, 5 - bits) & 31)];
    }
  }

  lemma ShiftedInByte(v: bv32, b: Byte, w: bv32)
    requires w == (v << 8) | (b as bv32)
    ensures forall k: nat | k < 12 :: Bit(w, k) == if k < 8 then ByteBit(b, k) else Bit(v, k - 8)
  {
    hide Bit, ByteBit;
    forall k: nat | k < 12 ensures Bit(w, k) == if k < 8 then ByteBit(b, k) else Bit(v, k - 8) {
      ShiftInByte(v, b, k);
    }
  }

  lemma AppendByte(bytes: seq<Byte>, v: bv32, w: bv32, i: nat, bits: nat)
    requires i < |bytes| && bits < 5
    requires forall k: nat | k < 12 :: Bit(w, k) == if k < 8 then ByteBit(bytes[i], k) else Bit(v, k - 8)
    requires forall k: nat | k < bits :: Bit(v, k) == StreamBit(bytes, 8 * i - 1 - k)
    ensures forall k: nat | k < bits + 8 :: Bit(w, k) == StreamBit(bytes, 8 * (i + 1) - 1 - k)
  {
    hide Bit, ByteBit;
    forall k: nat | k < bits + 8 ensures Bit(w, k) == StreamBit(bytes, 8 * (i + 1) - 1 - k) {
      var p := 8 * (i + 1) - 1 - k;
      if k < 8 {
        assert p / 8 == i && 7 - p % 8 == k;
      } else {
        assert Bit(v, k - 8) == StreamBit(bytes, 8 * i - 1 - (k - 8));
      }
    }
  }

  lemma ReadGroup(bytes: seq<Byte>, v: bv32, bits: nat, p: nat)
    requires 5 <= bits <= 12
    requires forall k: nat | k < bits :: Bit(v, k) == StreamBit(bytes, p + bits - 1 - k)
    ensures Shr(v, bits - 5) & 31 == GroupAt(bytes, p) < 32
  {
    hide Bit, ByteBit, Pack5, StreamBit;
    var x := Shr(v, bits - 5);
    LowSymbol(x);
    forall k: nat | k < 5 ensures Bit(x, k) == StreamBit(bytes, p + 4 - k) {
      ShrBit(v, bits - 5, k);
    }
  }

  lemma ReadPaddedGroup(bytes: seq<Byte>, v: bv32, bits: nat, p: nat)
    requires 1 <= bits <= 4 && p + bits == 8 * |bytes|
    requires forall k: nat | k < bits :: Bit(v, k) == StreamBit(bytes, p + bits - 1 - k)
    ensures Shl(v, 5 - bits) & 31 == GroupAt(bytes, p) < 32
  {
    hide Bit, ByteBit, Pack5;
    var x := Shl(v, 5 - bits);
    LowSymbol(x);
    forall k: nat | k < 5 ensures Bit(x, k) == StreamBit(bytes, p + 4 - k) {
      ShlBit(v, 5 - bits, k);
    }
  }

  predicate Ascii(s: string) {
    forall i | 0 <= i < |s| :: s[i] < '\U{80}'
  }

  function Upper(c: char): char {
    if 'a' <= c <= 'z' then (c as int - 32) as char else c
  }

  function ToUpper(s: string): string {
    seq(|s|, i requires 0 <= i < |s| => Upper(s[i]))
  }

  function StripPadding(s: string): string {
    if |s| > 0 && s[|s| - 1] == '=' then StripPadding(s[..|s| - 1]) else s
  }

  function KeepAlphabet(s: string): (r: string)
    ensures Symbols(r)
  {
    if s == "" then ""
    else if InAlphabet(s[|s| - 1]) then KeepAlphabet(s[..|s| - 1]) + [s[|s| - 1]]
    else KeepAlphabet(s[..|s| - 1])
  }

  function Clean(s: string): (r: string)
    ensures Symbols(r)
  {
    KeepAlphabet(StripPadding(ToUpper(s)))
  }

  /** Decodes a Base32 string; padding, mixed case and foreign characters are tolerated, and it never throws. */
  method Base32Decode(value: string) returns (bytes: seq<Byte>)
    requires Ascii(value)
    ensures bytes == Decode(Clean(value))
  {
    hide Bit, ByteBit, LowByte, Value, InAlphabet, ByteAt, ToWord, SymbolBit, IndexFrom, KeepAlphabet;
    var cleaned := Clean(value);
    if |cleaned| == 0 {
      return [];
    }
    ghost var values := Values(cleaned);
    var bits: int := 0;
    var current: bv32 := 0;
    bytes := [];
    for i := 0 to |cleaned|
      invariant 0 <= bits < 8 && 8 * |bytes| == 5 * i - bits
      invariant forall k: nat | k < bits :: Bit(current, k) == SymbolBit(values, 5 * i - 1 - k)
      invariant forall j | 0 <= j < |bytes| :: bytes[j] == ByteAt(values, 8 * j)
    {
      var index := IndexFrom(BASE32_ALPHABET, cleaned[i], 0);
      ValueIsIndex(cleaned[i]);
      if index.None? {
        assert false; // "Invalid base32 character": the cleaning has removed every such character
      }
      ghost var before := current;
      current := (current << 5) | ToWord(index.value);
      bits := bits + 5;
      ShiftedBits(before, values[i], current);
      AppendSymbol(values, before, current, i, bits - 5);
      if bits >= 8 {
        ReadByte(values, current, bits, 8 * |bytes|);
        bytes := bytes + [LowByte(Shr(current, bits - 8))];
        bits := bits - 8;
      }
    }
    assert bytes == Decode(cleaned);
  }

  lemma ValueIsIndex(c: char)
    requires InAlphabet(c)
    ensures var index := IndexFrom(BASE32_ALPHABET, c, 0);
            index.Some? && index.value < 32 && ToWord(index.value) == Value(c)
  {
    IndexOfSymbol(c);
  }

  lemma ShiftedBits(v: bv32, x: bv32, w: bv32)
    requires x < 32 && w == (v << 5) | x
    ensures forall k: nat | k < 12 :: Bit(w, k) == if k < 5 then Bit(x, k) else Bit(v, k - 5)
  {
    hide Bit;
    forall k: nat | k < 12 ensures Bit(w, k) == if k < 5 then Bit(x, k) else Bit(v, k - 5) {
      ShiftInSymbol(v, x, k);
    }
  }

  lemma AppendSymbol(values: seq<bv32>, v: bv32, w: bv32, i: nat, bits: nat)
    requires i < |values| && bits < 8
    requires forall k: nat | k < 12 :: Bit(w, k) == if k < 5 then Bit(values[i], k) else Bit(v, k - 5)
    requires forall k: nat | k < bits :: Bit(v, k) == SymbolBit(values, 5 * i - 1 - k)
    ensures forall k: nat | k < bits + 5 :: Bit(w, k) == SymbolBit(values, 5 * (i + 1) - 1 - k)
  {
    hide Bit;
    forall k: nat | k < bits + 5 ensures Bit(w, k) == SymbolBit(values, 5 * (i + 1) - 1 - k) {
      var p := 5 * (i + 1) - 1 - k;
      if k < 5 {
        assert p / 5 == i && 4 - p % 5 == k;
      } else {
        assert Bit(v, k - 5) == SymbolBit(values, 5 * i - 1 - (k - 5));
      }
    }
  }

  lemma ReadByte(values: seq<bv32>, v: bv32, bits: nat, p: nat)
    requires 8 <= bits <= 12
    requires forall k: nat | k < bits :: Bit(v, k) == SymbolBit(values, p + bits - 1 - k)
    ensures LowByte(Shr(v, bits - 8)) == ByteAt(values, p)
  {
    hide Bit, ByteBit, LowByte, Pack8, SymbolBit;
    var x := Shr(v, bits - 8);
    var b := ByteAt(values, p);
    Pack8Bits(SymbolBit(values, p), SymbolBit(values, p + 1), SymbolBit(values, p + 2), SymbolBit(values, p + 3),
              SymbolBit(values, p + 4), SymbolBit(values, p + 5), SymbolBit(values, p + 6), SymbolBit(values, p + 7));
    forall k: nat | k < 8 ensures ByteBit(LowByte(x), k) == ByteBit(b, k) {
      LowByteBit(x, k);
      ShrBit(v, bits - 8, k);
    }
    SameBitsSameByte(LowByte(x), b);
  }

  // ---------------------------------------------------------------------------
  // What the two promise
  // ---------------------------------------------------------------------------

  lemma GroupBits(bytes: seq<Byte>, p: nat, r: nat)
    requires r < 5
    ensures Bit(GroupAt(bytes, p), 4 - r) == StreamBit(bytes, p + r)
  {
    hide Bit, StreamBit, Pack5;
    Pack5Bits(StreamBit(bytes, p), StreamBit(bytes, p + 1), StreamBit(bytes, p + 2),
              StreamBit(bytes, p + 3), StreamBit(bytes, p + 4));
  }

  lemma ByteBits(values: seq<bv32>, p: nat, r: nat)
    requires r < 8
    ensures ByteBit(ByteAt(values, p), 7 - r) == SymbolBit(values, p + r)
  {
    hide ByteBit, SymbolBit, Pack8;
    Pack8Bits(SymbolBit(values, p), SymbolBit(values, p + 1), SymbolBit(values, p + 2), SymbolBit(values, p + 3),
              SymbolBit(values, p + 4), SymbolBit(values, p + 5), SymbolBit(values, p + 6), SymbolBit(values, p + 7));
  }

  lemma EncodeIsSymbols(bytes: seq<Byte>)
    ensures Symbols(Encode(bytes))
    ensures forall q: nat | q < SymbolCount(|bytes|) :: Values(Encode(bytes))[q] == GroupAt(bytes, 5 * q)
  {
    forall q: nat | q < SymbolCount(|bytes|)
      ensures InAlphabet(Encode(bytes)[q]) && Value(Encode(bytes)[q]) == GroupAt(bytes, 5 * q)
    {
      ValueOfSymbol(GroupAt(bytes, 5 * q));
    }
  }

  /** The symbol string carries the bits of the bytes, then zeros. */
  lemma EncodedBits(bytes: seq<Byte>, p: nat)
    requires p < 5 * SymbolCount(|bytes|)
    ensures Symbols(Encode(bytes))
    ensures SymbolBit(Values(Encode(bytes)), p) == StreamBit(bytes, p)
  {
    hide Bit, ByteBit, GroupAt;
    EncodeIsSymbols(bytes);
    GroupBits(bytes, 5 * (p / 5), p % 5);
  }

  /** The decoded bytes carry the bits of the symbols, up to the last whole byte. */
  lemma DecodedBits(s: string, p: nat)
    requires Symbols(s) && p < 8 * |Decode(s)|
    ensures StreamBit(Decode(s), p) == SymbolBit(Values(s), p)
  {
    hide Bit, ByteBit, ByteAt, SymbolBit;
    ByteBits(Values(s), 8 * (p / 8), p % 8);
  }

  lemma SameStreamSameBytes(a: seq<Byte>, b: seq<Byte>)
    requires |a| == |b|
    requires forall p: nat | p < 8 * |a| :: StreamBit(a, p) == StreamBit(b, p)
    ensures a == b
  {
    hide ByteBit;
    forall j | 0 <= j < |a| ensures a[j] == b[j] {
      forall k: nat | k < 8 ensures ByteBit(a[j], k) == ByteBit(b[j], k) {
        assert StreamBit(a, 8 * j + 7 - k) == StreamBit(b, 8 * j + 7 - k);
      }
      SameBitsSameByte(a[j], b[j]);
    }
  }

  /** Decoding inverts encoding, for every byte string of any length. */
  lemma RoundTrip(bytes: seq<Byte>)
    ensures Symbols(Encode(bytes)) && Decode(Encode(bytes)) == bytes
  {
    hide Bit, ByteBit, GroupAt, ByteAt;
    EncodeIsSymbols(bytes);
    var s := Encode(bytes);
    forall p: nat | p < 8 * |bytes| ensures StreamBit(Decode(s), p) == StreamBit(bytes, p) {
      DecodedBits(s, p);
      EncodedBits(bytes, p);
    }
    SameStreamSameBytes(Decode(s), bytes);
  }

  /** The leftover bits: those after the last whole byte. */
  predicate ZeroLeftover(s: string)
    requires Symbols(s)
  {
    forall p | 5 * |s| / 8 * 8 <= p < 5 * |s| :: !SymbolBit(Values(s), p)
  }

  predicate ValueBit(c: char, r: nat)
    requires InAlphabet(c) && r < 5
  {
    Bit(Value(c), 4 - r)
  }

  lemma SymbolBitAt(s: string, q: nat, r: nat)
    requires Symbols(s) && q < |s| && r < 5
    ensures SymbolBit(Values(s), 5 * q + r) == ValueBit(s[q], r)
  {
    hide Bit, Value;
    assert (5 * q + r) / 5 == q && (5 * q + r) % 5 == r;
  }

  lemma SameBitsSameValue(c: char, d: char)
    requires InAlphabet(c) && InAlphabet(d)
    requires forall r: nat | r < 5 :: ValueBit(c, r) == ValueBit(d, r)
    ensures Value(c) == Value(d)
  {
    hide Bit, Pack5, Value;
    assert ValueBit(c, 0) == ValueBit(d, 0) && ValueBit(c, 1) == ValueBit(d, 1);
    assert ValueBit(c, 2) == ValueBit(d, 2) && ValueBit(c, 3) == ValueBit(d, 3);
    assert ValueBit(c, 4) == ValueBit(d, 4);
    Pack5OfBits(Value(c));
    Pack5OfBits(Value(d));
  }

  lemma SameValuesSameSymbols(s: string, t: string)
    requires Symbols(s) && Symbols(t) && |s| == |t|
    requires forall p: nat | p < 5 * |s| :: SymbolBit(Values(s), p) == SymbolBit(Values(t), p)
    ensures s == t
  {
    hide Bit, Pack5, Value, Symbol, InAlphabet;
    forall q | 0 <= q < |s| ensures s[q] == t[q] {
      forall r: nat | r < 5 ensures ValueBit(s[q], r) == ValueBit(t[q], r) {
        SymbolBitAt(s, q, r);
        SymbolBitAt(t, q, r);
        assert SymbolBit(Values(s), 5 * q + r) == SymbolBit(Values(t), 5 * q + r);
      }
      SameBitsSameValue(s[q], t[q]);
      SymbolOfValue(s[q]);
      SymbolOfValue(t[q]);
    }
  }

  lemma ReencodedBits(s: string, p: nat)
    requires Symbols(s) && |Encode(Decode(s))| == |s| && p < 5 * |s|
    ensures Symbols(Encode(Decode(s)))
    ensures SymbolBit(Values(Encode(Decode(s))), p) == (p < 5 * |s| / 8 * 8 && SymbolBit(Values(s), p))
  {
    hide Bit, ByteBit, GroupAt, ByteAt, Values;
    EncodedBits(Decode(s), p);
    if p < 8 * |Decode(s)| {
      DecodedBits(s, p);
    }
  }

  lemma CanonicalLength(m: nat)
    ensures SymbolCount(5 * m / 8) == m <==> m % 8 in {0, 2, 4, 5, 7}
  {
    var q, r := m / 8, m % 8;
    assert 5 * m / 8 == 5 * q + 5 * r / 8;
    assert SymbolCount(5 * m / 8) == 8 * q + SymbolCount(5 * r / 8);
  }

  /**
   A symbol string is reproduced exactly when its length is one an encoder can
   produce and its leftover bits are zero (RFC 4648 sections 3.5 and 6).
   */
  lemma CanonicalForm(s: string)
    requires Symbols(s)
    ensures Encode(Decode(s)) == s <==> |s| % 8 in {0, 2, 4, 5, 7} && ZeroLeftover(s)
  {
    hide Bit, ByteBit, GroupAt, ByteAt, Values, SymbolBit;
    var t := Encode(Decode(s));
    EncodeIsSymbols(Decode(s));
    CanonicalLength(|s|);
    if |t| == |s| {
      forall p: nat | p < 5 * |s|
        ensures SymbolBit(Values(t), p) == (p < 5 * |s| / 8 * 8 && SymbolBit(Values(s), p))
      {
        ReencodedBits(s, p);
      }
      if ZeroLeftover(s) {
        SameValuesSameSymbols(s, t);
      }
    }
  }

  // Cleaning

  lemma {:induction false} KeepAlphabetAppend(a: string, b: string)
    ensures KeepAlphabet(a + b) == KeepAlphabet(a) + KeepAlphabet(b)
  {
    hide InAlphabet;
    if b == "" {
      assert a + b == a;
    } else {
      assert (a + b)[..|a + b| - 1] == a + b[..|b| - 1];
      KeepAlphabetAppend(a, b[..|b| - 1]);
    }
  }

  lemma {:induction false} KeepAlphabetOfSymbols(s: string)
    requires Symbols(s)
    ensures KeepAlphabet(s) == s
  {
    hide InAlphabet;
    if s != "" {
      KeepAlphabetOfSymbols(s[..|s| - 1]);
    }
  }

  /** Stripping the trailing padding first makes no difference to what is kept. */
  lemma {:induction false} PaddingIsForeign(s: string)
    ensures KeepAlphabet(StripPadding(s)) == KeepAlphabet(s)
  {
    if |s| > 0 && s[|s| - 1] == '=' {
      PaddingIsForeign(s[..|s| - 1]);
    }
  }

  /** Any character that is foreign in both cases can be put in anywhere, padding included. */
  lemma ForeignCharacterIgnored(a: string, c: char, b: string)
    requires Ascii(a + [c] + b) && !InAlphabet(Upper(c))
    ensures Clean(a + [c] + b) == Clean(a + b)
  {
    hide InAlphabet, Upper;
    PaddingIsForeign(ToUpper(a + [c] + b));
    PaddingIsForeign(ToUpper(a + b));
    assert ToUpper(a + [c] + b) == ToUpper(a) + ([Upper(c)] + ToUpper(b));
    assert ToUpper(a + b) == ToUpper(a) + ToUpper(b);
    KeepAlphabetAppend(ToUpper(a), [Upper(c)] + ToUpper(b));
    KeepAlphabetAppend([Upper(c)], ToUpper(b));
    KeepAlphabetAppend(ToUpper(a), ToUpper(b));
    assert [Upper(c)][..0] == [];
  }

  /** Strings that differ in letter case only decode alike, and an encoding decodes as it stands. */
  lemma CaseIgnored(s: string, t: string)
    requires Ascii(s) && Ascii(t) && |s| == |t|
    requires forall i | 0 <= i < |s| :: Upper(s[i]) == Upper(t[i])
    ensures Clean(s) == Clean(t)
    ensures Symbols(t) ==> Clean(s) == t
  {
    assert ToUpper(s) == ToUpper(t);
    if Symbols(t) {
      assert ToUpper(t) == t;
      PaddingIsForeign(t);
      KeepAlphabetOfSymbols(t);
    }
  }

  /** So what `Base32Encode` prints, `Base32Decode` reads back, in either letter case. */
  lemma RoundTripOfCalls(bytes: seq<Byte>, s: string)
    requires Ascii(s) && |s| == |Encode(bytes)|
    requires forall i | 0 <= i < |s| :: Upper(s[i]) == Encode(bytes)[i]
    ensures Decode(Clean(s)) == bytes
  {
    hide Encode, Decode, Clean, Upper;
    RoundTrip(bytes);
    UpperOfSymbols(Encode(bytes));
    CaseIgnored(s, Encode(bytes));
  }

  lemma UpperOfSymbols(s: string)
    requires Symbols(s)
    ensures Ascii(s) && forall i | 0 <= i < |s| :: Upper(s[i]) == s[i]
  {
  }
}
