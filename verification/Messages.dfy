/** The 33-byte wire form of a dice message, and reading a stream of them. */
module Messages {
  import opened Bytes

  const COMMITMENT: byte := 1
  const SECRET: byte := 2
  const ROLL_CONFIRMATION: byte := 3

  datatype Message = Message(msgType: byte, data: Digest)

  predicate IsMsgType(t: byte) {
    t == COMMITMENT || t == SECRET || t == ROLL_CONFIRMATION
  }

  function Serialize(m: Message): (s: seq<byte>)
    ensures |s| == 33 && s[0] == m.msgType && s[1..] == m.data
  {
    [m.msgType] + m.data
  }

  datatype ReadResult = Read(message: Message) | EndOfStream | UnknownType(t: byte) | UnexpectedEnd

  /** One read: the result and what it leaves of the stream. */
  function Parse(data: seq<byte>): (ReadResult, seq<byte>) {
    if data == [] then (EndOfStream, [])
    else if !IsMsgType(data[0]) then (UnknownType(data[0]), data[1..])
    else if |data| == 1 then (EndOfStream, [])
    else if |data| < 33 then (UnexpectedEnd, [])
    else (Read(Message(data[0], data[1..33])), data[33..])
  }

  class Reader {
    var data: seq<byte>

    constructor (data: seq<byte>)
      ensures this.data == data
    {
      this.data := data;
    }

    /** Fills up to `n` bytes; fewer come back only at the end of the stream. */
    method ReadFull(n: nat) returns (got: seq<byte>)
      modifies this
      ensures |got| == if |old(data)| < n then |old(data)| else n
      ensures got == old(data)[..|got|] && data == old(data)[|got|..]
    {
      got := [];
      while |got| < n && data != []
        invariant |got| <= n && |got| <= |old(data)|
        invariant got == old(data)[..|got|] && data == old(data)[|got|..]
        decreases |data|
      {
        got := got + [data[0]];
        data := data[1..];
      }
    }

    method ReadMessage() returns (r: ReadResult)
      modifies this
      ensures (r, data) == Parse(old(data))
    {
      var head := ReadFull(1);
      if head == [] {
        return EndOfStream;
      }
      if !IsMsgType(head[0]) {
        return UnknownType(head[0]);
      }
      var body := ReadFull(32);
      if body == [] {
        return EndOfStream;
      }
      if |body| < 32 {
        return UnexpectedEnd;
      }
      assert body == old(data)[1..33];
      return Read(Message(head[0], body));
    }
  }

  function SerializeAll(ms: seq<Message>): seq<byte> {
    if ms == [] then [] else Serialize(ms[0]) + SerializeAll(ms[1..])
  }

  /** Reads until a read fails: the messages, the failure and the bytes left over. */
  function ReadAll(data: seq<byte>): (seq<Message>, ReadResult, seq<byte>)
    decreases |data|
  {
    var (r, rest) := Parse(data);
    match r
    case Read(m) =>
      var (ms, last, left) := ReadAll(rest);
      ([m] + ms, last, left)
    case _ => ([], r, rest)
  }

  /** A message that was read accounts for exactly the bytes it took. */
  lemma ParsedReserializes(data: seq<byte>)
    requires Parse(data).0.Read?
    ensures data == Serialize(Parse(data).0.message) + Parse(data).1
    ensures IsMsgType(Parse(data).0.message.msgType)
  {
    assert data == [data[0]] + data[1..33] + data[33..];
  }

  /** What a read takes and when it succeeds: 33 bytes of which the first is 1, 2 or 3; else all there is, or a bad type. */
  lemma ReadTakes(data: seq<byte>)
    ensures var (r, rest) := Parse(data);
            && (r.Read? <==> |data| >= 33 && data[0] in {1, 2, 3})
            && (r.UnknownType? <==> data != [] && data[0] !in {1, 2, 3})
            && (r.EndOfStream? <==> data == [] || (|data| == 1 && data[0] in {1, 2, 3}))
            && (r.Read? ==> rest == data[33..])
            && (r.UnknownType? ==> rest == data[1..])
            && (!r.Read? && !r.UnknownType? ==> rest == [])
  {
  }

  lemma ParseSerialized(m: Message, rest: seq<byte>)
    ensures Parse(Serialize(m) + rest) ==
            if IsMsgType(m.msgType) then (Read(m), rest) else (UnknownType(m.msgType), m.data + rest)
  {
    var data := Serialize(m) + rest;
    assert data[1..33] == m.data && data[33..] == rest && data[1..] == m.data + rest;
  }

  /** A stream of serialized messages reads back as itself exactly when every type is a known one. */
  lemma {:induction false} StreamRoundTrip(ms: seq<Message>)
    ensures ReadAll(SerializeAll(ms)) == (ms, EndOfStream, []) <==> forall m | m in ms :: IsMsgType(m.msgType)
    ensures ReadAll(SerializeAll(ms)).0 == ms <==> forall m | m in ms :: IsMsgType(m.msgType)
  {
    if ms != [] {
      ParseSerialized(ms[0], SerializeAll(ms[1..]));
      StreamRoundTrip(ms[1..]);
      assert ms == [ms[0]] + ms[1..];
      if IsMsgType(ms[0].msgType) {
        var (tail, last, left) := ReadAll(SerializeAll(ms[1..]));
        assert ReadAll(SerializeAll(ms)) == ([ms[0]] + tail, last, left);
        assert ([ms[0]] + tail)[1..] == tail;
      }
    }
  }
}
