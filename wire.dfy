/** The primitive codecs that every packet wrapper composes: varints, big-endian
    fixed-width integers, booleans, byte arrays and length-limited strings.

    Decoders are functions of (bytes, position) returning the value and the
    position after it, or the error the reader throws. Encoders return the bytes
    a writer appends. Every decoder is paired with its encoder by a round-trip
    lemma that holds whatever bytes follow the encoding. */
module Wire {
  import opened JavaTypes

  /** The failures a reader or writer can raise. */
  datatype Error =
    | EndOfBuffer                       // fewer readable bytes than the read needs
    | VarIntTooBig                      // a sixth varint byte was read
    | NegativeLength                    // a length prefix below zero
    | TooLong(length: int, max: int)    // a length above the caller's limit
    | NullValue                         // a null reference was dereferenced
    | WrongClass                        // a cast to a class the object does not have
    | Released                          // a buffer whose reference count is already zero
    | IndexOutOfBounds                  // a reader index set beyond the writer index

  /** The outcome of a decoder: the value and the position just after it. */
  datatype Parsed<+T> = Parsed(value: T, next: nat) | Failed(error: Error) {
    predicate IsFailure() { Failed? }
    function PropagateFailure<U>(): Parsed<U>
      requires Failed?
    {
      Failed(error)
    }
    function Extract(): (T, nat)
      requires Parsed?
    {
      (value, next)
    }

    /** What a reader call returns to its caller, the position left aside. */
    function ToResult(): (r: Result<T>)
      ensures r.Ok? <==> Parsed?
    {
      if Parsed? then Ok(value) else Err(error)
    }
  }

  /** The outcome of an operation that can throw. */
  datatype Result<+T> = Ok(value: T) | Err(error: Error) {
    predicate IsFailure() { Err? }
    function PropagateFailure<U>(): Result<U>
      requires Err?
    {
      Err(error)
    }
    function Extract(): T
      requires Ok?
    {
      value
    }
  }

  /** `r` is what a void reader method returns after the reads `p` stand
      for: normal completion exactly when they all succeed, and otherwise
      the exception of the first that failed. */
  predicate Reports<T>(r: Result<()>, p: Parsed<T>)
  {
    if p.Parsed? then r == Ok(()) else r == Err(p.error)
  }

  /** A Java byte[]: its length fits in an int. */
  type ByteArray = a: Bytes | |a| < 0x8000_0000

  // ------------------------------------------------------------- placement

  /** The bytes of `s` from `pos` on begin with `e`: `e` was written there. */
  predicate At(s: Bytes, pos: nat, e: Bytes)
  {
    pos + |e| <= |s| && forall i :: 0 <= i < |e| ==> s[pos + i] == e[i]
  }

  /** At as a slice equation. */
  lemma AtSlice(s: Bytes, pos: nat, e: Bytes)
    ensures At(s, pos, e) <==> pos + |e| <= |s| && s[pos..pos + |e|] == e
  {
    if pos + |e| <= |s| && s[pos..pos + |e|] == e {
      forall i | 0 <= i < |e|
        ensures s[pos + i] == e[i]
      {
        assert s[pos..pos + |e|][i] == s[pos + i];
      }
    }
  }

  lemma AtLength(s: Bytes, pos: nat, e: Bytes)
    requires At(s, pos, e)
    ensures pos + |e| <= |s|
  {
  }

  /** The first byte of an encoding, where it was written. */
  lemma AtFirst(s: Bytes, pos: nat, e: Bytes)
    requires At(s, pos, e) && |e| > 0
    ensures pos < |s| && s[pos] == e[0]
  {
    assert s[pos + 0] == e[0];
  }

  /** Two adjacent encodings: each one is at its own place. */
  lemma AtConcat(s: Bytes, pos: nat, a: Bytes, b: Bytes)
    requires At(s, pos, a + b)
    ensures At(s, pos, a) && At(s, pos + |a|, b)
  {
    forall i | 0 <= i < |a|
      ensures s[pos + i] == a[i]
    {
      assert (a + b)[i] == a[i];
    }
    forall i | 0 <= i < |b|
      ensures s[pos + |a| + i] == b[i]
    {
      assert (a + b)[|a| + i] == b[i];
    }
  }

  /** Three adjacent encodings. */
  lemma AtConcat3(s: Bytes, pos: nat, a: Bytes, b: Bytes, c: Bytes)
    requires At(s, pos, a + b + c)
    ensures At(s, pos, a) && At(s, pos + |a|, b) && At(s, pos + |a| + |b|, c)
  {
    AtConcat(s, pos, a + b, c);
    AtConcat(s, pos, a, b);
  }

  /** The converse: two encodings at adjacent places form their concatenation. */
  lemma AtJoin(s: Bytes, pos: nat, a: Bytes, b: Bytes)
    requires At(s, pos, a) && At(s, pos + |a|, b)
    ensures At(s, pos, a + b)
  {
    forall i | 0 <= i < |a + b|
      ensures s[pos + i] == (a + b)[i]
    {
      if i >= |a| {
        assert s[pos + |a| + (i - |a|)] == b[i - |a|];
      }
    }
  }

  // ---------------------------------------------------------------- varint

  /** The most bytes a varint may take. */
  const VARINT_MAX_BYTES: nat := 5

  /** 128 to the power k: the weight of the k-th varint byte. */
  function Pow128(k: nat): (r: nat)
    ensures r >= 1
  {
    if k == 0 then 1 else 128 * Pow128(k - 1)
  }

  /** Base-128 digits of u, least significant first, the high bit set on
      every byte but the last. */
  function EncodeVarUnsigned(u: nat): (e: Bytes)
    ensures |e| >= 1
    decreases u
  {
    if u < 0x80 then [u] else [u % 0x80 + 0x80] + EncodeVarUnsigned(u / 0x80)
  }

  /** writeVarInt: the 32-bit two's complement pattern of v, 7 bits a byte. */
  function EncodeVarInt(v: int32): (e: Bytes)
    ensures 1 <= |e| <= VARINT_MAX_BYTES
  {
    VarUnsignedLength(Unsigned32(v));
    EncodeVarUnsigned(Unsigned32(v))
  }

  /** The number of bytes writeVarInt uses for a 32-bit pattern. */
  function VarIntSize(u: uint32): (n: nat)
  {
    if u < 0x80 then 1
    else if u < 0x4000 then 2
    else if u < 0x20_0000 then 3
    else if u < 0x1000_0000 then 4
    else 5
  }

  lemma {:induction false} VarUnsignedLength(u: uint32)
    ensures |EncodeVarUnsigned(u)| == VarIntSize(u)
  {
    if u >= 0x80 {
      VarUnsignedLength(u / 0x80);
    }
  }

  /** A value from 0 to 127 is written as the single byte it is. */
  lemma SmallVarInt(v: int32)
    requires 0 <= v < 0x80
    ensures |EncodeVarInt(v)| == 1 && EncodeVarInt(v)[0] == v
  {
  }

  /** The byte count is minimal: 0 to 127 take one byte, every k-byte
      encoding holds a pattern of at least 128^(k-1), and every negative value
      takes all five bytes. */
  lemma VarIntSizeMinimal(v: int32)
    ensures |EncodeVarInt(v)| == VarIntSize(Unsigned32(v))
    ensures |EncodeVarInt(v)| == 1 <==> 0 <= v < 0x80
    ensures v < 0 ==> |EncodeVarInt(v)| == 5
    ensures |EncodeVarInt(v)| > 1 ==> Unsigned32(v) >= Pow128(|EncodeVarInt(v)| - 1)
  {
    VarUnsignedLength(Unsigned32(v));
    assert Pow128(1) == 0x80 && Pow128(2) == 0x4000 && Pow128(3) == 0x20_0000 && Pow128(4) == 0x1000_0000;
  }

  /** The loop of readVarInt from its k-th byte (k bytes already read) at
      `pos`: the value of the remaining base-128 digits. The reader reads a
      byte before it checks the count, so a sixth byte is read before the
      varint is rejected as too big, and a missing sixth byte is reported as
      the end of the buffer. */
  function DecodeVarDigits(s: Bytes, pos: nat, k: nat): (r: Parsed<nat>)
    requires k <= VARINT_MAX_BYTES
    ensures r.Parsed? ==> pos < r.next <= |s| && r.next - pos <= VARINT_MAX_BYTES - k
    decreases VARINT_MAX_BYTES - k
  {
    if pos >= |s| then Failed(EndOfBuffer)
    else if k + 1 > VARINT_MAX_BYTES then Failed(VarIntTooBig)
    else if s[pos] < 0x80 then Parsed(s[pos], pos + 1)
    else
      var (rest, next) :- DecodeVarDigits(s, pos + 1, k + 1);
      Parsed(s[pos] - 0x80 + 0x80 * rest, next)
  }

  /** readVarInt: the digits' low 32 bits, as an int. */
  function DecodeVarInt(s: Bytes, pos: nat): (r: Parsed<int32>)
  {
    var (u, next) :- DecodeVarDigits(s, pos, 0);
    Parsed(ToInt32(u), next)
  }

  lemma {:induction false} VarDigitsRoundTrip(s: Bytes, pos: nat, k: nat, u: nat)
    requires k < VARINT_MAX_BYTES && u < Pow128(VARINT_MAX_BYTES - k)
    requires At(s, pos, EncodeVarUnsigned(u))
    ensures DecodeVarDigits(s, pos, k) == Parsed(u, pos + |EncodeVarUnsigned(u)|)
    decreases u
  {
    assert Pow128(0) == 1 && Pow128(1) == 0x80;
    AtFirst(s, pos, EncodeVarUnsigned(u));
    if u >= 0x80 {
      var rest := EncodeVarUnsigned(u / 0x80);
      AtConcat(s, pos, [u % 0x80 + 0x80], rest);
      assert Pow128(VARINT_MAX_BYTES - k) == 0x80 * Pow128(VARINT_MAX_BYTES - (k + 1));
      VarDigitsRoundTrip(s, pos + 1, k + 1, u / 0x80);
    }
  }

  /** readVarInt after writeVarInt gives the value back and consumes exactly
      the written bytes, whatever follows them. */
  lemma {:induction false} VarIntRoundTrip(s: Bytes, pos: nat, v: int32)
    requires At(s, pos, EncodeVarInt(v))
    ensures DecodeVarInt(s, pos) == Parsed(v, pos + |EncodeVarInt(v)|)
  {
    assert Pow128(VARINT_MAX_BYTES) == 0x8_0000_0000 by {
      assert Pow128(2) == 0x4000;
    }
    VarDigitsRoundTrip(s, pos, 0, Unsigned32(v));
    SignedUnsigned32(v);
  }

  // ------------------------------------------------- big-endian fixed width

  /** n as `width` bytes, most significant first. */
  function EncodeBE(n: nat, width: nat): (e: Bytes)
    requires n < Pow256(width)
    ensures |e| == width
  {
    if width == 0 then []
    else
      assert n / 256 < Pow256(width - 1);
      EncodeBE(n / 256, width - 1) + [n % 256]
  }

  /** The unsigned number the `width` bytes at `pos` stand for, most
      significant first. */
  function DecodeBE(s: Bytes, pos: nat, width: nat): (n: nat)
    requires pos + width <= |s|
    ensures n < Pow256(width)
  {
    if width == 0 then 0 else DecodeBE(s, pos, width - 1) * 256 + s[pos + width - 1]
  }

  lemma {:induction false} DecodeEncodeBE(s: Bytes, pos: nat, n: nat, width: nat)
    requires n < Pow256(width)
    requires At(s, pos, EncodeBE(n, width))
    ensures pos + width <= |s| && DecodeBE(s, pos, width) == n
  {
    AtLength(s, pos, EncodeBE(n, width));
    if width > 0 {
      AtConcat(s, pos, EncodeBE(n / 256, width - 1), [n % 256]);
      AtFirst(s, pos + width - 1, [n % 256]);
      DecodeEncodeBE(s, pos, n / 256, width - 1);
    }
  }

  /** Every `width` bytes are the encoding of the number they stand for. */
  lemma {:induction false} EncodeDecodeBE(s: Bytes, pos: nat, width: nat)
    requires pos + width <= |s|
    ensures At(s, pos, EncodeBE(DecodeBE(s, pos, width), width))
  {
    if width > 0 {
      var n := DecodeBE(s, pos, width);
      EncodeDecodeBE(s, pos, width - 1);
      assert n / 256 == DecodeBE(s, pos, width - 1) && n % 256 == s[pos + width - 1];
      AtJoin(s, pos, EncodeBE(n / 256, width - 1), [n % 256]);
    }
  }

  /** Reads `width` bytes as an unsigned big-endian number. */
  function DecodeFixed(s: Bytes, pos: nat, width: nat): (r: Parsed<nat>)
    ensures r.Parsed? ==> r.next == pos + width <= |s| && r.value < Pow256(width)
  {
    if pos + width > |s| then Failed(EndOfBuffer)
    else Parsed(DecodeBE(s, pos, width), pos + width)
  }

  lemma FixedRoundTrip(s: Bytes, pos: nat, n: nat, width: nat)
    requires n < Pow256(width)
    requires At(s, pos, EncodeBE(n, width))
    ensures DecodeFixed(s, pos, width) == Parsed(n, pos + width)
  {
    DecodeEncodeBE(s, pos, n, width);
  }

  /** writeByte(int): the low 8 bits. */
  function EncodeByte(v: int): (e: Bytes)
    ensures |e| == 1
  {
    [v % 0x100]
  }

  /** readByte: one signed byte. */
  function DecodeByte(s: Bytes, pos: nat): (r: Parsed<int8>)
    ensures r.Parsed? ==> r.next == pos + 1 <= |s|
  {
    if pos >= |s| then Failed(EndOfBuffer) else Parsed(ToInt8(s[pos]), pos + 1)
  }

  /** readByte after writeByte(v) gives `(byte) v`: v itself when it is in
      byte range. */
  lemma ByteRoundTrip(s: Bytes, pos: nat, v: int)
    requires At(s, pos, EncodeByte(v))
    ensures DecodeByte(s, pos) == Parsed(ToInt8(v), pos + 1)
    ensures -0x80 <= v < 0x80 ==> DecodeByte(s, pos) == Parsed(v, pos + 1)
  {
    AtFirst(s, pos, EncodeByte(v));
  }

  /** writeBoolean: 1 for true, 0 for false. */
  function EncodeBool(b: bool): (e: Bytes)
    ensures |e| == 1
  {
    [if b then 1 else 0]
  }

  /** readBoolean: any non-zero byte reads as true. */
  function DecodeBool(s: Bytes, pos: nat): (r: Parsed<bool>)
    ensures r.Parsed? ==> r.next == pos + 1 <= |s|
  {
    if pos >= |s| then Failed(EndOfBuffer) else Parsed(s[pos] != 0, pos + 1)
  }

  lemma BoolRoundTrip(s: Bytes, pos: nat, b: bool)
    requires At(s, pos, EncodeBool(b))
    ensures DecodeBool(s, pos) == Parsed(b, pos + 1)
  {
    AtFirst(s, pos, EncodeBool(b));
  }

  /** writeShort: 16 bits, big-endian. */
  function EncodeShort(v: int16): (e: Bytes)
    ensures |e| == 2
  {
    Pow256Values();
    EncodeBE(Unsigned16(v), 2)
  }

  /** readShort. */
  function DecodeShort(s: Bytes, pos: nat): (r: Parsed<int16>)
    ensures r.Parsed? ==> r.next == pos + 2 <= |s|
  {
    var (u, next) :- DecodeFixed(s, pos, 2);
    Parsed(ToInt16(u), next)
  }

  lemma ShortRoundTrip(s: Bytes, pos: nat, v: int16)
    requires At(s, pos, EncodeShort(v))
    ensures DecodeShort(s, pos) == Parsed(v, pos + 2)
  {
    Pow256Values();
    FixedRoundTrip(s, pos, Unsigned16(v), 2);
    SignedUnsigned16(v);
  }

  /** writeInt: 32 bits, big-endian. */
  function EncodeInt(v: int32): (e: Bytes)
    ensures |e| == 4
  {
    Pow256Values();
    EncodeBE(Unsigned32(v), 4)
  }

  /** readInt. */
  function DecodeInt(s: Bytes, pos: nat): (r: Parsed<int32>)
    ensures r.Parsed? ==> r.next == pos + 4 <= |s|
  {
    var (u, next) :- DecodeFixed(s, pos, 4);
    Parsed(ToInt32(u), next)
  }

  lemma IntRoundTrip(s: Bytes, pos: nat, v: int32)
    requires At(s, pos, EncodeInt(v))
    ensures DecodeInt(s, pos) == Parsed(v, pos + 4)
  {
    Pow256Values();
    FixedRoundTrip(s, pos, Unsigned32(v), 4);
    SignedUnsigned32(v);
  }

  /** writeLong: 64 bits, big-endian. */
  function EncodeLong(v: int64): (e: Bytes)
    ensures |e| == 8
  {
    Pow256Values();
    EncodeBE(Unsigned64(v), 8)
  }

  /** readLong. */
  function DecodeLong(s: Bytes, pos: nat): (r: Parsed<int64>)
    ensures r.Parsed? ==> r.next == pos + 8 <= |s|
  {
    var (u, next) :- DecodeFixed(s, pos, 8);
    Parsed(ToInt64(u), next)
  }

  lemma LongRoundTrip(s: Bytes, pos: nat, v: int64)
    requires At(s, pos, EncodeLong(v))
    ensures DecodeLong(s, pos) == Parsed(v, pos + 8)
  {
    Pow256Values();
    FixedRoundTrip(s, pos, Unsigned64(v), 8);
    SignedUnsigned64(v);
  }

  /** writeFloat: the raw 32-bit pattern. */
  function EncodeFloat(f: FloatBits): (e: Bytes)
    ensures |e| == 4
  {
    Pow256Values();
    EncodeBE(f, 4)
  }

  /** readFloat. */
  function DecodeFloat(s: Bytes, pos: nat): (r: Parsed<FloatBits>)
    ensures r.Parsed? ==> r.next == pos + 4 <= |s|
  {
    Pow256Values();
    var (u, next) :- DecodeFixed(s, pos, 4);
    Parsed(u, next)
  }

  lemma FloatRoundTrip(s: Bytes, pos: nat, f: FloatBits)
    requires At(s, pos, EncodeFloat(f))
    ensures DecodeFloat(s, pos) == Parsed(f, pos + 4)
  {
    Pow256Values();
    FixedRoundTrip(s, pos, f, 4);
  }

  /** writeDouble: the raw 64-bit pattern. */
  function EncodeDouble(d: DoubleBits): (e: Bytes)
    ensures |e| == 8
  {
    Pow256Values();
    EncodeBE(d, 8)
  }

  /** readDouble. */
  function DecodeDouble(s: Bytes, pos: nat): (r: Parsed<DoubleBits>)
    ensures r.Parsed? ==> r.next == pos + 8 <= |s|
  {
    Pow256Values();
    var (u, next) :- DecodeFixed(s, pos, 8);
    Parsed(u, next)
  }

  lemma DoubleRoundTrip(s: Bytes, pos: nat, d: DoubleBits)
    requires At(s, pos, EncodeDouble(d))
    ensures DecodeDouble(s, pos) == Parsed(d, pos + 8)
  {
    Pow256Values();
    FixedRoundTrip(s, pos, d, 8);
  }

  // ------------------------------------------------------------ byte arrays

  /** writeByteArray: a varint length, then the bytes. */
  function EncodeByteArray(a: ByteArray): (e: Bytes)
    ensures |e| > |a|
  {
    EncodeVarInt(|a|) + a
  }

  /** readByteArray(max): a varint length of at most `max`, then that many
      bytes. */
  function DecodeByteArray(s: Bytes, pos: nat, max: int): (r: Parsed<ByteArray>)
  {
    var (len, p) :- DecodeVarInt(s, pos);
    if len > max then Failed(TooLong(len, max))
    else if len < 0 then Failed(NegativeLength)
    else if p + len > |s| then Failed(EndOfBuffer)
    else Parsed(s[p..p + len], p + len)
  }

  /** The bytes still readable from `pos`: the limit of readByteArray(). */
  function Readable(s: Bytes, pos: nat): nat
  {
    if pos <= |s| then |s| - pos else 0
  }

  lemma {:induction false} ByteArrayRoundTrip(s: Bytes, pos: nat, a: ByteArray, max: int)
    requires At(s, pos, EncodeByteArray(a))
    requires |a| <= max
    ensures DecodeByteArray(s, pos, max) == Parsed(a, pos + |EncodeByteArray(a)|)
  {
    AtConcat(s, pos, EncodeVarInt(|a|), a);
    AtSlice(s, pos + |EncodeVarInt(|a|)|, a);
    VarIntRoundTrip(s, pos, |a|);
  }

  /** Under the readable-bytes limit an encoded array always fits. */
  lemma {:induction false} ByteArrayRoundTripReadable(s: Bytes, pos: nat, a: ByteArray)
    requires At(s, pos, EncodeByteArray(a))
    ensures DecodeByteArray(s, pos, Readable(s, pos)) == Parsed(a, pos + |EncodeByteArray(a)|)
  {
    AtLength(s, pos, EncodeByteArray(a));
    ByteArrayRoundTrip(s, pos, a, Readable(s, pos));
  }

  /** A length prefix above the limit is refused before any byte is read. */
  lemma {:induction false} ByteArrayLimit(s: Bytes, pos: nat, a: ByteArray, max: int)
    requires At(s, pos, EncodeByteArray(a))
    requires |a| > max
    ensures DecodeByteArray(s, pos, max) == Failed(TooLong(|a|, max))
  {
    AtConcat(s, pos, EncodeVarInt(|a|), a);
    VarIntRoundTrip(s, pos, |a|);
  }

  // ---------------------------------------------------------------- strings

  /** A Java String, as its UTF-8 bytes. */
  type JString = ByteArray

  /** The default limit of readString and writeString. */
  const MAX_STRING_LEN: nat := 32767

  /** String.length() of the text the UTF-8 bytes spell: UTF-16 code units.
      A continuation byte (0x80 to 0xBF) adds none, the lead byte of a
      four-byte sequence (0xF0 to 0xF7) adds a surrogate pair, every other
      byte one. */
  function Utf16Length(s: Bytes): (n: nat)
    ensures n <= 2 * |s|
  {
    UnitsBefore(s, |s|)
  }

  /** The UTF-16 units of the first `i` bytes. */
  function UnitsBefore(s: Bytes, i: nat): (n: nat)
    requires i <= |s|
    ensures n <= 2 * i
  {
    if i == 0 then 0
    else UnitsBefore(s, i - 1) + (if 0x80 <= s[i - 1] < 0xC0 then 0 else if 0xF0 <= s[i - 1] < 0xF8 then 2 else 1)
  }

  /** The strings readString(maxLen) accepts once their length is read. */
  predicate FitsReadLimit(str: JString, maxLen: nat)
  {
    |str| <= maxLen * 4 && Utf16Length(str) <= maxLen
  }

  /** writeString(s, maxLen): refuses an encoding longer than `maxLen` bytes;
      otherwise a varint byte count, then the bytes. */
  function EncodeString(str: JString, maxLen: nat): (r: Result<Bytes>)
    ensures r.Ok? <==> |str| <= maxLen
    ensures r.Ok? ==> r.value == EncodeByteArray(str)
  {
    if |str| > maxLen then Err(TooLong(|str|, maxLen)) else Ok(EncodeVarInt(|str|) + str)
  }

  /** readString(maxLen): a varint byte count of at most 4 * maxLen, checked
      as readByteArray checks its limit, then bytes whose text has at most
      maxLen UTF-16 units. */
  function DecodeString(s: Bytes, pos: nat, maxLen: nat): (r: Parsed<JString>)
  {
    var (str, p) :- DecodeByteArray(s, pos, maxLen * 4);
    if Utf16Length(str) > maxLen then Failed(TooLong(|str|, maxLen)) else Parsed(str, p)
  }

  /** readString(maxLen) of a written string returns it exactly when it fits
      the read limit, and throws otherwise. */
  lemma {:induction false} StringRoundTrip(s: Bytes, pos: nat, str: JString, maxLen: nat)
    requires At(s, pos, EncodeByteArray(str))
    ensures FitsReadLimit(str, maxLen) ==> DecodeString(s, pos, maxLen) == Parsed(str, pos + |EncodeByteArray(str)|)
    ensures !FitsReadLimit(str, maxLen) ==> DecodeString(s, pos, maxLen).Failed?
  {
    if |str| <= maxLen * 4 {
      ByteArrayRoundTrip(s, pos, str, maxLen * 4);
    } else {
      ByteArrayLimit(s, pos, str, maxLen * 4);
    }
  }
}
