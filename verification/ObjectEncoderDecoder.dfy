/** The class `ObjectEncoderDecoder`: its buffers against the framing of `ObjectFraming`. */
module ObjectEncoderDecoder {
  import opened Options
  import opened ObjectFraming

  class ObjectEncoderDecoder<T> {
    const serialize: T -> seq<byte>
    const deserialize: seq<byte> -> Option<T>
    const lengthBuffer: array<byte>
    var position: nat // of lengthBuffer
    var limit: nat    // of lengthBuffer
    var objectBytes: array?<byte>
    var objectBytesIndex: nat

    ghost predicate Valid()
      reads this, objectBytes
    {
      && lengthBuffer.Length == 4 && position <= limit == 4
      && (objectBytes != null ==>
            objectBytes != lengthBuffer && objectBytesIndex <= objectBytes.Length && position == 0)
    }

    ghost function View(): State
      reads this, objectBytes, lengthBuffer
      requires Valid()
    {
      if objectBytes == null then
        if position < limit then ReadingLength(lengthBuffer[..position]) else Stuck
      else if objectBytesIndex < objectBytes.Length then
        ReadingObject(objectBytes[..objectBytesIndex], objectBytes.Length)
      else Stuck
    }

    constructor (serialize: T -> seq<byte>, deserialize: seq<byte> -> Option<T>)
      ensures Valid() && View() == START && fresh(lengthBuffer)
      ensures this.serialize == serialize && this.deserialize == deserialize
    {
      this.serialize, this.deserialize := serialize, deserialize;
      lengthBuffer := new byte[4];
      position, limit := 0, 4;
      objectBytes, objectBytesIndex := null, 0;
    }

    /** `lengthBuffer.put`: false stands for the BufferOverflowException. */
    method PutLength(nextByte: byte) returns (ok: bool)
      requires Valid() && objectBytes == null
      modifies this`position, lengthBuffer
      ensures Valid() && ok == (old(position) < limit)
      ensures ok ==>
                position == old(position) + 1 && lengthBuffer[..position] == old(lengthBuffer[..position]) + [nextByte]
      ensures !ok ==> position == old(position) && lengthBuffer[..] == old(lengthBuffer[..])
    {
      ok := position < limit;
      if ok {
        lengthBuffer[position] := nextByte;
        position := position + 1;
      }
    }

    /** `lengthBuffer.flip(); new byte[lengthBuffer.getInt()]; lengthBuffer.clear()`: false stands for the
        NegativeArraySizeException, which leaves the buffer where getInt left it. */
    method TakeLength() returns (ok: bool)
      requires Valid() && objectBytes == null && position == limit
      modifies this
      ensures Valid() && ok == (BigEndian(lengthBuffer[..]) >= 0)
      ensures !ok ==> objectBytes == null && position == limit
      ensures ok ==> objectBytes != null && fresh(objectBytes) && objectBytes.Length == BigEndian(lengthBuffer[..])
                     && objectBytesIndex == 0 && position == 0
    {
      limit, position := position, 0;
      var size := BigEndian(lengthBuffer[..]);
      position := position + 4;
      if size < 0 { return false; }
      objectBytes := new byte[size];
      objectBytesIndex := 0;
      position, limit := 0, 4;
      return true;
    }

    method DecodeNextByte(nextByte: byte) returns (result: Outcome<T>)
      requires Valid()
      modifies this, lengthBuffer, objectBytes
      ensures Valid() && Step(View(), result) == Feed(deserialize, old(View()), nextByte)
      ensures objectBytes == old(objectBytes) || objectBytes == null || fresh(objectBytes)
    {
      if objectBytes == null {
        var ok := PutLength(nextByte);
        if !ok { return Failed; }
        if position == limit {
          assert lengthBuffer[..] == lengthBuffer[..4];
          ok := TakeLength();
          if !ok { return Failed; }
          assert objectBytes[..0] == [];
        }
      } else {
        if objectBytesIndex >= objectBytes.Length { return Failed; }
        objectBytes[objectBytesIndex] := nextByte;
        objectBytesIndex := objectBytesIndex + 1;
        assert objectBytes[..objectBytesIndex] == old(objectBytes[..objectBytesIndex]) + [nextByte];
        if objectBytesIndex == objectBytes.Length {
          assert objectBytes[..] == objectBytes[..objectBytesIndex];
          var value := deserialize(objectBytes[..]);
          if value.None? { return Failed; }
          objectBytes := null;
          return Object(value.value);
        }
      }
      return Nothing;
    }

    /** Any stretch of bytes, fed one at a time. */
    method DecodeAll(bytes: seq<byte>) returns (results: seq<Outcome<T>>)
      requires Valid()
      modifies this, lengthBuffer, objectBytes
      ensures Valid() && Feeding(View(), results) == FeedAll(deserialize, old(View()), bytes)
    {
      results := [];
      for i := 0 to |bytes|
        invariant Valid() && (objectBytes == old(objectBytes) || objectBytes == null || fresh(objectBytes))
        invariant Feeding(View(), results) == FeedAll(deserialize, old(View()), bytes[..i])
      {
        FeedAppend(deserialize, old(View()), bytes[..i], [bytes[i]]);
        assert bytes[..i + 1] == bytes[..i] + [bytes[i]];
        FeedSingle(deserialize, View(), bytes[i]);
        var result := DecodeNextByte(bytes[i]);
        results := results + [result];
      }
      assert bytes[..|bytes|] == bytes;
    }

    /** Four placeholder bytes, the object, and then the size written over the placeholders. */
    method EncodeObject(message: T) returns (result: array<byte>)
      requires |serialize(message)| < 0x8000_0000
      ensures fresh(result) && result[..] == Encode(serialize, message)
    {
      var payload := serialize(message);
      result := new byte[4 + |payload|](_ => 0);
      for i := 0 to |payload|
        invariant result[4..4 + i] == payload[..i]
      {
        result[4 + i] := payload[i];
      }
      var size := LengthBytes(result.Length - 4);
      for i := 0 to 4
        invariant result[..i] == size[..i] && result[4..] == payload
      {
        result[i] := size[i];
      }
      assert result[..] == result[..4] + result[4..];
    }
  }

  lemma FeedSingle<T>(de: seq<byte> -> Option<T>, s: State, b: byte)
    ensures FeedAll(de, s, [b]) == Feeding(Feed(de, s, b).state, [Feed(de, s, b).outcome])
  {
    assert [b][1..] == [];
  }
}
