/** Netty's ByteBuf as the wrappers and the encoder see it: the bytes up to
    the writer index, a reader index, and a reference count that a buffer
    shares with its retained duplicates. */
module Buffers {
  import opened JavaTypes
  import opened Wire

  /** The reference count of one allocation. */
  class RefCount {
    var count: nat

    constructor ()
      ensures count == 1
    {
      count := 1;
    }
  }

  class ByteBuf {
    /** The written bytes: index 0 up to the writer index. */
    var data: Bytes
    var readerIndex: nat
    const refCnt: RefCount

    /** A fresh buffer holding `bytes`, with a count of one. */
    constructor (bytes: Bytes)
      ensures data == bytes && readerIndex == 0
      ensures fresh(refCnt) && refCnt.count == 1
    {
      data := bytes;
      readerIndex := 0;
      refCnt := new RefCount();
    }

    /** A buffer over `bytes` that shares the count `rc`. */
    constructor Sharing(bytes: Bytes, index: nat, rc: RefCount)
      ensures data == bytes && readerIndex == index && refCnt == rc
    {
      data := bytes;
      readerIndex := index;
      refCnt := rc;
    }

    function WriterIndex(): nat
      reads this
    {
      |data|
    }

    /** readableBytes(): the bytes between the reader and the writer index. */
    function ReadableBytes(): (n: nat)
      reads this
      ensures n == 0 || readerIndex + n == |data|
    {
      Readable(data, readerIndex)
    }

    /** The readable bytes themselves. */
    function Remaining(): (r: Bytes)
      reads this
      ensures |r| == ReadableBytes()
    {
      Unread(data, readerIndex)
    }

    /** isReadable(): at least one readable byte. */
    predicate IsReadable()
      reads this
    {
      readerIndex < |data|
    }

    /** readerIndex(i): moves the reader index; an index beyond the writer
        index throws and leaves the buffer as it was. */
    method SetReaderIndex(i: nat) returns (r: Result<()>)
      modifies this
      ensures data == old(data)
      ensures r.Ok? <==> i <= |data|
      ensures readerIndex == (if r.Ok? then i else old(readerIndex))
      ensures r.Err? ==> r.error == IndexOutOfBounds
    {
      if i > |data| {
        return Err(IndexOutOfBounds);
      }
      readerIndex := i;
      r := Ok(());
    }

    /** One reader call: `dec` at the reader index, which then moves past
        what it read. A failed read leaves the index where it was. */
    method Read<T>(dec: (Bytes, nat) -> Parsed<T>) returns (r: Result<T>)
      modifies this
      ensures data == old(data)
      ensures r == dec(old(data), old(readerIndex)).ToResult()
      ensures readerIndex == (if r.Ok? then dec(old(data), old(readerIndex)).next else old(readerIndex))
    {
      var p := dec(data, readerIndex);
      if p.Parsed? {
        readerIndex := p.next;
      }
      r := p.ToResult();
    }

    /** readVarInt: one byte at a time, seven bits each, until a byte
        without the continuation bit; the sixth byte is read before the
        varint is refused. */
    method ReadVarInt() returns (r: Result<int32>)
      modifies this
      ensures data == old(data)
      ensures r == DecodeVarInt(old(data), old(readerIndex)).ToResult()
      ensures r.Ok? ==> readerIndex == DecodeVarInt(old(data), old(readerIndex)).next
    {
      var digits, pos := ReadVarDigits(data, readerIndex);
      r := if digits.Parsed? then Ok(ToInt32(digits.value)) else Err(digits.error);
      readerIndex := pos;
    }

    /** readByte. */
    method ReadByte() returns (r: Result<int8>)
      modifies this
      ensures data == old(data)
      ensures r == DecodeByte(old(data), old(readerIndex)).ToResult()
      ensures r.Ok? ==> readerIndex == DecodeByte(old(data), old(readerIndex)).next
    {
      r := Read(DecodeByte);
    }

    /** readBoolean. */
    method ReadBool() returns (r: Result<bool>)
      modifies this
      ensures data == old(data)
      ensures r == DecodeBool(old(data), old(readerIndex)).ToResult()
      ensures r.Ok? ==> readerIndex == DecodeBool(old(data), old(readerIndex)).next
    {
      r := Read(DecodeBool);
    }

    /** readShort. */
    method ReadShort() returns (r: Result<int16>)
      modifies this
      ensures data == old(data)
      ensures r == DecodeShort(old(data), old(readerIndex)).ToResult()
      ensures r.Ok? ==> readerIndex == DecodeShort(old(data), old(readerIndex)).next
    {
      r := Read(DecodeShort);
    }

    /** readDouble. */
    method ReadDouble() returns (r: Result<DoubleBits>)
      modifies this
      ensures data == old(data)
      ensures r == DecodeDouble(old(data), old(readerIndex)).ToResult()
      ensures r.Ok? ==> readerIndex == DecodeDouble(old(data), old(readerIndex)).next
    {
      r := Read(DecodeDouble);
    }

    /** readByteArray(max). */
    method ReadByteArray(max: int) returns (r: Result<ByteArray>)
      modifies this
      ensures data == old(data)
      ensures r == DecodeByteArray(old(data), old(readerIndex), max).ToResult()
      ensures r.Ok? ==> readerIndex == DecodeByteArray(old(data), old(readerIndex), max).next
    {
      r := Read((s, p) => DecodeByteArray(s, p, max));
    }

    /** readString(maxLen). */
    method ReadString(maxLen: nat) returns (r: Result<JString>)
      modifies this
      ensures data == old(data)
      ensures r == DecodeString(old(data), old(readerIndex), maxLen).ToResult()
      ensures r.Ok? ==> readerIndex == DecodeString(old(data), old(readerIndex), maxLen).next
    {
      r := Read((s, p) => DecodeString(s, p, maxLen));
    }

    /** Appends bytes at the writer index. */
    method Write(e: Bytes)
      modifies this
      ensures data == old(data) + e && readerIndex == old(readerIndex)
    {
      data := data + e;
    }

    /** writeBytes(src): appends src's readable bytes, and src's reader
        index moves up to its writer index. */
    method WriteBytes(src: ByteBuf)
      requires src != this
      modifies this, src
      ensures data == old(data) + old(src.Remaining()) && readerIndex == old(readerIndex)
      ensures src.data == old(src.data) && src.readerIndex == (if old(src.readerIndex) <= |src.data| then |src.data| else old(src.readerIndex))
    {
      data := data + src.Remaining();
      if src.readerIndex <= |src.data| {
        src.readerIndex := |src.data|;
      }
    }

    /** writeVarInt: seven bits a byte from the low end of the 32-bit
        pattern, the high bit set while more follow. */
    method WriteVarInt(v: int32)
      modifies this
      ensures data == old(data) + EncodeVarInt(v) && readerIndex == old(readerIndex)
    {
      var u: nat := Unsigned32(v);
      var written: Bytes := [];
      while u >= 0x80
        invariant written + EncodeVarUnsigned(u) == EncodeVarInt(v)
        decreases u
      {
        written := written + [u % 0x80 + 0x80];
        u := u / 0x80;
      }
      data := data + (written + [u]);
    }

    /** clear(): both indices back to zero, so nothing is readable. */
    method Clear()
      modifies this
      ensures data == [] && readerIndex == 0
    {
      data := [];
      readerIndex := 0;
    }

    /** retainedDuplicate(): a new buffer with this buffer's bytes and
        reader index that shares this buffer's count, which goes up by one.
        A released buffer (count zero) cannot be duplicated: the access check
        throws and nothing changes. The duplicate's bytes are a snapshot
        taken here, not storage shared with this buffer. */
    method RetainedDuplicate() returns (r: Result<ByteBuf>)
      modifies refCnt
      ensures old(refCnt.count) == 0 ==> r == Err(Released) && refCnt.count == 0
      ensures old(refCnt.count) > 0 ==> r.Ok? && fresh(r.value) && r.value != this
      ensures r.Ok? ==> r.value.data == data && r.value.readerIndex == readerIndex && r.value.refCnt == refCnt
      ensures r.Ok? ==> refCnt.count == old(refCnt.count) + 1
    {
      if refCnt.count == 0 {
        return Err(Released);
      }
      refCnt.count := refCnt.count + 1;
      var d := new ByteBuf.Sharing(data, readerIndex, refCnt);
      r := Ok(d);
    }

    /** release(): the count goes down by one; true when it reaches zero and
        the memory is freed. Releasing a freed buffer throws. */
    method Release() returns (r: Result<bool>)
      modifies refCnt
      ensures old(refCnt.count) == 0 ==> r == Err(Released) && refCnt.count == 0
      ensures old(refCnt.count) > 0 ==> r == Ok(old(refCnt.count) == 1) && refCnt.count == old(refCnt.count) - 1
    {
      if refCnt.count == 0 {
        return Err(Released);
      }
      refCnt.count := refCnt.count - 1;
      r := Ok(refCnt.count == 0);
    }
  }

  /** The bytes of `s` from `pos` on, none when `pos` is past the end. */
  function Unread(s: Bytes, pos: nat): (r: Bytes)
    ensures |r| == Readable(s, pos)
    ensures pos <= |s| ==> r == s[pos..]
  {
    if pos <= |s| then s[pos..] else []
  }

  /** The byte loop of readVarInt over `s` from `start`: the digits' value
      (or the failure) and the position the loop stopped at. */
  method ReadVarDigits(s: Bytes, start: nat) returns (digits: Parsed<nat>, pos: nat)
    ensures digits == DecodeVarDigits(s, start, 0)
    ensures digits.Parsed? ==> pos == digits.next
  {
    var value: nat, length: nat := 0, 0;
    pos := start;
    while true
      invariant pos == start + length && length <= VARINT_MAX_BYTES
      invariant DecodeVarDigits(s, start, 0) == Shifted(DecodeVarDigits(s, pos, length), value, length)
      decreases VARINT_MAX_BYTES - length
    {
      if pos >= |s| {
        return Failed(EndOfBuffer), pos;
      }
      var b := s[pos];
      if length + 1 > VARINT_MAX_BYTES {
        return Failed(VarIntTooBig), pos + 1;
      }
      ShiftedStep(s, pos, length, value);
      if b < 0x80 {
        return Parsed(value + Scale(b, length), pos + 1), pos + 1;
      }
      value := value + Scale(b - 0x80, length);
      pos := pos + 1;
      length := length + 1;
    }
  }

  /** u shifted left by k varint digits: u * 128^k. */
  function Scale(u: nat, k: nat): nat
  {
    if k == 0 then u else 0x80 * Scale(u, k - 1)
  }

  lemma {:induction false} ScaleDigits(d: nat, u: nat, k: nat)
    ensures Scale(d + 0x80 * u, k) == Scale(d, k) + Scale(u, k + 1)
  {
    if k > 0 {
      ScaleDigits(d, u, k - 1);
    }
  }

  /** The digits read so far (`value`, `length` of them) in front of the
      remaining ones. */
  function Shifted(rest: Parsed<nat>, value: nat, length: nat): Parsed<nat>
  {
    match rest
    case Parsed(u, next) => Parsed(value + Scale(u, length), next)
    case Failed(e) => Failed(e)
  }

  /** One more byte moves from the remaining digits into the value. */
  lemma ShiftedStep(s: Bytes, pos: nat, length: nat, value: nat)
    requires pos < |s| && length < VARINT_MAX_BYTES
    ensures Shifted(DecodeVarDigits(s, pos, length), value, length)
         == if s[pos] < 0x80 then Parsed(value + Scale(s[pos], length), pos + 1)
            else Shifted(DecodeVarDigits(s, pos + 1, length + 1), value + Scale(s[pos] - 0x80, length), length + 1)
  {
    if s[pos] >= 0x80 {
      var rest := DecodeVarDigits(s, pos + 1, length + 1);
      if rest.Parsed? {
        ScaleDigits(s[pos] - 0x80, rest.value, length);
      }
    }
  }
}
