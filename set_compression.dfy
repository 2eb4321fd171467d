/** WrapperLoginServerSetCompression: the login packet that tells the client
    the size from which packets are compressed. */
module SetCompression {
  import opened JavaTypes
  import opened Wire
  import opened Buffers

  class WrapperLoginServerSetCompression {
    var threshold: int32

    constructor (threshold: int32)
      ensures this.threshold == threshold
    {
      this.threshold := threshold;
    }

    /** read(): the threshold is the packet's one varint. */
    method Read(buf: ByteBuf) returns (r: Result<()>)
      modifies this, buf
      ensures buf.data == old(buf.data)
      ensures Reports(r, DecodeVarInt(old(buf.data), old(buf.readerIndex)))
      ensures r.Ok? ==> Parsed(threshold, buf.readerIndex) == DecodeVarInt(old(buf.data), old(buf.readerIndex))
      ensures r.Err? ==> threshold == old(threshold)
    {
      threshold :- buf.ReadVarInt();
      r := Ok(());
    }

    /** write(): the threshold as one varint, and nothing else. */
    method Write(buf: ByteBuf)
      modifies buf
      ensures buf.data == old(buf.data) + EncodeVarInt(threshold)
      ensures buf.readerIndex == old(buf.readerIndex)
    {
      buf.WriteVarInt(threshold);
    }

    /** copy(): the threshold is the one field. */
    method Copy(w: WrapperLoginServerSetCompression)
      modifies this
      ensures threshold == w.threshold
    {
      threshold := w.threshold;
    }
  }
}
