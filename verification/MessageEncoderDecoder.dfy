/** The server's `MessageEncoderDecoderImpl`: the decoder with its growing byte array, and the text
    branch of `encode`. */
module MessageEncoderDecoder {
  import opened Options
  import opened Framing

  class MessageEncoderDecoderImpl {
    var bytes: array<char>
    var len: nat
    ghost var fed: Bytes // every byte given to decodeNextByte

    ghost predicate Valid()
      reads this, bytes
    {
      && 0 < bytes.Length && len <= bytes.Length
      && bytes[..len] == Rest(fed)
    }

    constructor ()
      ensures Valid() && fresh(bytes) && fed == []
    {
      bytes := new char[1024];
      len := 0;
      fed := [];
    }

    /** Returns the message that `nextByte` completes, if any; across any growth of the array the
        messages returned so far are the frames of the bytes fed so far. */
    method DecodeNextByte(nextByte: char) returns (message: Option<Bytes>)
      requires Valid()
      modifies this, bytes
      ensures Valid() && (bytes == old(bytes) || fresh(bytes))
      ensures fed == old(fed) + [nextByte]
      ensures Frames(fed) == Frames(old(fed)) + match message case None => [] case Some(m) => [m]
    {
      FramesSnoc(fed, nextByte);
      fed := fed + [nextByte];
      if nextByte == ';' {
        var result := PopString();
        return Some(result);
      }
      PushByte(nextByte);
      return None;
    }

    method PushByte(nextByte: char)
      requires 0 < bytes.Length && len <= bytes.Length
      modifies this`bytes, this`len, bytes
      ensures 0 < bytes.Length && len <= bytes.Length
      ensures bytes[..len] == old(bytes[..len]) + [nextByte]
      ensures bytes == old(bytes) || (fresh(bytes) && bytes.Length == 2 * old(len))
      ensures bytes != old(bytes) <==> old(len == bytes.Length)
    {
      if len >= bytes.Length {
        var copy := new char[len * 2];
        for i := 0 to len
          invariant bytes == old(bytes) && len == old(len) && bytes[..] == old(bytes[..])
          invariant copy[..i] == bytes[..i]
        {
          copy[i] := bytes[i];
        }
        bytes := copy;
      }
      bytes[len] := nextByte;
      len := len + 1;
    }

    method PopString() returns (result: Bytes)
      requires len <= bytes.Length
      modifies this`len
      ensures result == old(bytes[..len]) && len == 0
    {
      result := bytes[..len];
      len := 0;
    }
  }
}
