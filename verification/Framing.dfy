/**
 * Control-message framing: a 32-bit big-endian length followed by the payload.
 * Payload encoding itself belongs to a library; here it is a parameter (see Codec).
 */
module Framing {
  import opened Messages

  type byte = x: int | 0 <= x < 256

  function EncodeU32(n: nat): (r: seq<byte>)
    requires n < U32_LIMIT
    ensures |r| == MESSAGE_LENGTH_SIZE_BYTES
  {
    [n / 0x100_0000, n / 0x1_0000 % 0x100, n / 0x100 % 0x100, n % 0x100]
  }

  function DecodeU32(b: seq<byte>): (n: nat)
    requires |b| == MESSAGE_LENGTH_SIZE_BYTES
    ensures n < U32_LIMIT
  {
    b[0] as int * 0x100_0000 + b[1] as int * 0x1_0000 + b[2] as int * 0x100 + b[3] as int
  }

  lemma U32RoundTrip(n: nat)
    requires n < U32_LIMIT
    ensures DecodeU32(EncodeU32(n)) == n
  {
    assert n / 0x100 / 0x100 == n / 0x1_0000;
    assert n / 0x1_0000 / 0x100 == n / 0x100_0000;
  }

  /** The two conversions are inverse: no two headers stand for the same length. */
  lemma U32Header(b: seq<byte>)
    requires |b| == MESSAGE_LENGTH_SIZE_BYTES
    ensures EncodeU32(DecodeU32(b)) == b
  {
    var n := DecodeU32(b);
    var high := b[0] as int * 0x1_0000 + b[1] as int * 0x100 + b[2] as int;
    assert n == high * 0x100 + b[3];
    assert n / 0x100 == high && n % 0x100 == b[3];
    var higher := b[0] as int * 0x100 + b[1] as int;
    assert high == higher * 0x100 + b[2];
    assert high / 0x100 == higher && high % 0x100 == b[2];
    assert n / 0x1_0000 == higher;
    assert higher / 0x100 == b[0] && higher % 0x100 == b[1];
    assert n / 0x100_0000 == b[0];
  }

  /** Headers are big-endian: the first byte in which two of them differ decides which length is smaller. */
  lemma U32BigEndian(a: seq<byte>, b: seq<byte>, k: nat)
    requires |a| == |b| == MESSAGE_LENGTH_SIZE_BYTES && k < MESSAGE_LENGTH_SIZE_BYTES
    requires a[..k] == b[..k] && a[k] < b[k]
    ensures DecodeU32(a) < DecodeU32(b)
  {
    assert forall i :: 0 <= i < k ==> a[i] == a[..k][i] == b[i];
  }

  /** What the writer puts on the wire for one payload. */
  function Frame(payload: seq<byte>): (r: seq<byte>)
    requires |payload| < U32_LIMIT
    ensures |r| == MESSAGE_LENGTH_SIZE_BYTES + |payload|
  {
    EncodeU32(|payload|) + payload
  }

  /**
   * The result of reading one frame from a connection that delivers `wire` and then ends;
   * `used` is the number of bytes taken from the connection.
   */
  datatype FrameRead =
    | Complete(payload: seq<byte>, used: nat)
    | TooLarge(size: nat, used: nat)
    | ShortHeader(used: nat)
    | ShortBody(used: nat)

  function ReadFrame(wire: seq<byte>): (r: FrameRead)
    ensures r.used <= |wire|
  {
    if |wire| < MESSAGE_LENGTH_SIZE_BYTES then ShortHeader(|wire|) else
    var size := DecodeU32(wire[..MESSAGE_LENGTH_SIZE_BYTES]);
    if size > MAX_CONTROL_MESSAGE_SIZE then TooLarge(size, MESSAGE_LENGTH_SIZE_BYTES)
    else if |wire| < MESSAGE_LENGTH_SIZE_BYTES + size then ShortBody(|wire|)
    else Complete(wire[MESSAGE_LENGTH_SIZE_BYTES..MESSAGE_LENGTH_SIZE_BYTES + size], MESSAGE_LENGTH_SIZE_BYTES + size)
  }

  /**
   * A read completes exactly when the wire starts with the frame of a payload within the limit,
   * and it then takes that frame and nothing after it.
   */
  lemma ReadFrameExact(wire: seq<byte>, payload: seq<byte>, tail: seq<byte>)
    requires |payload| < U32_LIMIT
    ensures wire == Frame(payload) + tail && |payload| <= MAX_CONTROL_MESSAGE_SIZE
            <==> ReadFrame(wire) == Complete(payload, |Frame(payload)|) && wire[|Frame(payload)|..] == tail
  {
    var r := ReadFrame(wire);
    if wire == Frame(payload) + tail {
      assert wire[..MESSAGE_LENGTH_SIZE_BYTES] == EncodeU32(|payload|);
      U32RoundTrip(|payload|);
      if |payload| <= MAX_CONTROL_MESSAGE_SIZE {
        assert wire[MESSAGE_LENGTH_SIZE_BYTES..|Frame(payload)|] == payload;
      }
    }
    if r == Complete(payload, |Frame(payload)|) && wire[r.used..] == tail {
      U32Header(wire[..MESSAGE_LENGTH_SIZE_BYTES]);
      assert wire == wire[..MESSAGE_LENGTH_SIZE_BYTES] + wire[MESSAGE_LENGTH_SIZE_BYTES..r.used] + wire[r.used..];
    }
  }

  /** A payload the writer accepts is readable if and only if it is within the reader's limit. */
  lemma ReadableIffWithinLimit(payload: seq<byte>, tail: seq<byte>)
    requires |payload| < U32_LIMIT
    ensures ReadFrame(Frame(payload) + tail).Complete? <==> |payload| <= MAX_CONTROL_MESSAGE_SIZE
    ensures |payload| > MAX_CONTROL_MESSAGE_SIZE ==>
              ReadFrame(Frame(payload) + tail) == TooLarge(|payload|, MESSAGE_LENGTH_SIZE_BYTES)
  {
    var wire := Frame(payload) + tail;
    assert wire[..MESSAGE_LENGTH_SIZE_BYTES] == EncodeU32(|payload|);
    U32RoundTrip(|payload|);
  }

  /** No strict prefix of a frame is ever decoded, whatever its payload. */
  lemma StrictPrefixNeverDecoded(payload: seq<byte>, cut: nat)
    requires |payload| < U32_LIMIT && cut < |Frame(payload)|
    ensures !ReadFrame(Frame(payload)[..cut]).Complete?
    ensures cut < MESSAGE_LENGTH_SIZE_BYTES ==> ReadFrame(Frame(payload)[..cut]) == ShortHeader(cut)
  {
    if cut >= MESSAGE_LENGTH_SIZE_BYTES {
      assert Frame(payload)[..cut][..MESSAGE_LENGTH_SIZE_BYTES] == EncodeU32(|payload|);
      U32RoundTrip(|payload|);
    }
  }

  function FrameAll(payloads: seq<seq<byte>>): seq<byte>
    requires forall p :: p in payloads ==> |p| <= MAX_CONTROL_MESSAGE_SIZE
  {
    if payloads == [] then [] else Frame(payloads[0]) + FrameAll(payloads[1..])
  }

  /** `count` successive reads: the payloads found and the bytes left, or nothing if a read fails. */
  function ReadMany(wire: seq<byte>, count: nat): Option<(seq<seq<byte>>, seq<byte>)>
    decreases count
  {
    if count == 0 then Some(([], wire)) else
    match ReadFrame(wire)
    case Complete(payload, used) =>
      (match ReadMany(wire[used..], count - 1)
       case Some((rest, left)) => Some(([payload] + rest, left))
       case None => None)
    case _ => None
  }

  lemma ReadManyStep(wire: seq<byte>, first: seq<byte>, rest: seq<byte>, count: nat)
    requires |first| <= MAX_CONTROL_MESSAGE_SIZE && wire == Frame(first) + rest
    requires ReadMany(rest, count).Some?
    ensures ReadMany(wire, count + 1) == Some(([first] + ReadMany(rest, count).value.0, ReadMany(rest, count).value.1))
  {
    ReadFrameExact(wire, first, rest);
  }

  lemma FrameAllStep(payloads: seq<seq<byte>>, tail: seq<byte>)
    requires payloads != [] && forall p :: p in payloads ==> |p| <= MAX_CONTROL_MESSAGE_SIZE
    ensures FrameAll(payloads) + tail == Frame(payloads[0]) + (FrameAll(payloads[1..]) + tail)
  {
  }

  /** Successive reads return exactly the payloads written, in order, and leave exactly the tail. */
  lemma {:induction false} FramesRoundTrip(payloads: seq<seq<byte>>, tail: seq<byte>)
    requires forall p :: p in payloads ==> |p| <= MAX_CONTROL_MESSAGE_SIZE
    ensures ReadMany(FrameAll(payloads) + tail, |payloads|) == Some((payloads, tail))
  {
    if payloads == [] {
      assert FrameAll(payloads) + tail == tail;
    } else {
      var first, others := payloads[0], payloads[1..];
      var rest, count := FrameAll(others) + tail, |others|;
      FramesRoundTrip(others, tail);
      FrameAllStep(payloads, tail);
      ReadManyStep(FrameAll(payloads) + tail, first, rest, count);
      assert [first] + others == payloads;
    }
  }

  /** How a connection ends once everything it carried has been read. */
  datatype ConnectionEnd = Closed | Reset

  datatype ReadError = ControlMessageTooLarge(size: nat) | ConnectionWasClosedByPeer | IoError

  datatype ReadResult = Ok(payload: seq<byte>) | Err(error: ReadError)

  /** What one frame read reports, given how the connection ends. */
  function Report(read: FrameRead, ending: ConnectionEnd): ReadResult {
    match read
    case Complete(payload, _) => Ok(payload)
    case TooLarge(size, _) => Err(ControlMessageTooLarge(size))
    case ShortHeader(_) => Err(IoError)
    case ShortBody(_) => Err(if ending.Closed? then ConnectionWasClosedByPeer else IoError)
  }

  /** The length a stream of bytes announces, if it is long enough to announce one. */
  function Announced(wire: seq<byte>): nat
    requires |wire| >= MESSAGE_LENGTH_SIZE_BYTES
  {
    DecodeU32(wire[..MESSAGE_LENGTH_SIZE_BYTES])
  }

  /** What a reader does with a stream of bytes and leaves of it, in every case, without reference to ReadFrame. */
  predicate ReadsWell(wire: seq<byte>, ending: ConnectionEnd, r: ReadResult, left: seq<byte>) {
    if |wire| < MESSAGE_LENGTH_SIZE_BYTES then r == Err(IoError) && left == []
    else if Announced(wire) > MAX_CONTROL_MESSAGE_SIZE then
      r == Err(ControlMessageTooLarge(Announced(wire))) && left == wire[MESSAGE_LENGTH_SIZE_BYTES..]
    else if |wire| < MESSAGE_LENGTH_SIZE_BYTES + Announced(wire) then
      left == [] && r == Err(match ending case Closed => ConnectionWasClosedByPeer case Reset => IoError)
    else
      r.Ok? && |r.payload| == Announced(wire) && wire == Frame(r.payload) + left
  }

  lemma ReportReadsWell(wire: seq<byte>, ending: ConnectionEnd)
    ensures ReadsWell(wire, ending, Report(ReadFrame(wire), ending), wire[ReadFrame(wire).used..])
  {
    var r := ReadFrame(wire);
    if r.Complete? {
      ReadFrameExact(wire, r.payload, wire[r.used..]);
    }
  }

  /** A reader that reads well returns exactly the payload of the frame at the head of the stream. */
  lemma ReadsWellExactly(wire: seq<byte>, ending: ConnectionEnd, r: ReadResult, left: seq<byte>)
    requires ReadsWell(wire, ending, r, left)
    ensures forall p, tail :: |p| <= MAX_CONTROL_MESSAGE_SIZE ==>
              (wire == Frame(p) + tail <==> r == Ok(p) && left == tail)
  {
    forall p, tail | |p| <= MAX_CONTROL_MESSAGE_SIZE ensures wire == Frame(p) + tail <==> r == Ok(p) && left == tail {
      ReadsOnlyThat(wire, ending, r, left, p, tail);
    }
  }

  lemma ReadsOnlyThat(wire: seq<byte>, ending: ConnectionEnd, r: ReadResult, left: seq<byte>, p: seq<byte>,
                      tail: seq<byte>)
    requires ReadsWell(wire, ending, r, left) && |p| <= MAX_CONTROL_MESSAGE_SIZE
    ensures wire == Frame(p) + tail <==> r == Ok(p) && left == tail
  {
    if wire == Frame(p) + tail {
      assert wire[..MESSAGE_LENGTH_SIZE_BYTES] == EncodeU32(|p|);
      U32RoundTrip(|p|);
      assert wire[MESSAGE_LENGTH_SIZE_BYTES..] == p + tail;
      assert wire[MESSAGE_LENGTH_SIZE_BYTES..] == r.payload + left;
      assert p == (p + tail)[..|p|] && r.payload == (r.payload + left)[..|p|];
      assert tail == (p + tail)[|p|..] && left == (r.payload + left)[|p|..];
    }
  }

  /** One direction of a reliable connection: bytes written, and bytes still to be delivered. */
  class ByteStream {
    var incoming: seq<byte>
    var outgoing: seq<byte>
    const ending: ConnectionEnd

    constructor (incoming: seq<byte>, ending: ConnectionEnd)
      ensures this.incoming == incoming && this.ending == ending && outgoing == []
    {
      this.incoming, this.ending, outgoing := incoming, ending, [];
    }

    /** One socket read of at most `limit` bytes: the network picks how many arrive together. */
    method ReadSome(limit: nat) returns (data: seq<byte>, ok: bool)
      modifies this`incoming
      ensures |data| <= limit && data + incoming == old(incoming)
      ensures data == [] <==> limit == 0 || old(incoming) == []
      ensures ok <==> limit == 0 || old(incoming) != [] || ending.Closed?
    {
      if limit == 0 || incoming == [] {
        data, ok := [], limit == 0 || ending.Closed?;
      } else {
        var n :| 1 <= n <= limit && n <= |incoming|;
        data, ok := incoming[..n], true;
        incoming := incoming[n..];
      }
    }

    /** Reads the length prefix; the only failure is a connection that ends inside it. */
    method ReadU32() returns (n: nat, ok: bool)
      modifies this`incoming
      ensures ok <==> |old(incoming)| >= MESSAGE_LENGTH_SIZE_BYTES
      ensures ok ==> n == DecodeU32(old(incoming)[..MESSAGE_LENGTH_SIZE_BYTES])
                     && incoming == old(incoming)[MESSAGE_LENGTH_SIZE_BYTES..]
      ensures !ok ==> incoming == []
    {
      var header: seq<byte> := [];
      n := 0;
      while |header| < MESSAGE_LENGTH_SIZE_BYTES
        invariant |header| <= MESSAGE_LENGTH_SIZE_BYTES
        invariant header + incoming == old(incoming)
      {
        var data, live := ReadSome(MESSAGE_LENGTH_SIZE_BYTES - |header|);
        if data == [] {
          return 0, false;
        }
        assert header + data + incoming == old(incoming);
        header := header + data;
      }
      assert old(incoming)[..MESSAGE_LENGTH_SIZE_BYTES] == header;
      n, ok := DecodeU32(header), true;
    }

    /**
     * Reads one control message. The result, and the bytes left for the next reader, are functions
     * of the bytes the peer sent: they do not depend on how the network cut those bytes up.
     */
    method ReadControlMessage() returns (r: ReadResult)
      modifies this`incoming
      ensures r == Report(ReadFrame(old(incoming)), ending)
      ensures incoming == old(incoming)[ReadFrame(old(incoming)).used..]
      ensures ReadsWell(old(incoming), ending, r, incoming)
      ensures forall p, tail :: |p| <= MAX_CONTROL_MESSAGE_SIZE ==>
                (old(incoming) == Frame(p) + tail <==> r == Ok(p) && incoming == tail)
    {
      ReportReadsWell(incoming, ending);
      ReadsWellExactly(incoming, ending, Report(ReadFrame(incoming), ending), incoming[ReadFrame(incoming).used..]);
      ghost var wire, read := incoming, ReadFrame(incoming);
      var messageSize, ok := ReadU32();
      if !ok {
        assert read == ShortHeader(|wire|);
        return Err(IoError);
      }
      if messageSize > MAX_CONTROL_MESSAGE_SIZE {
        assert read == TooLarge(messageSize, MESSAGE_LENGTH_SIZE_BYTES);
        return Err(ControlMessageTooLarge(messageSize));
      }
      ghost var body := incoming;
      var buf: seq<byte> := [];
      var remainingBytes := messageSize;
      while remainingBytes > 0
        invariant 0 <= remainingBytes && |buf| + remainingBytes == messageSize
        invariant buf + incoming == body
      {
        var data, live := ReadSome(remainingBytes);
        if data == [] {
          assert body == buf && read == ShortBody(|wire|);
          return Err(if live then ConnectionWasClosedByPeer else IoError);
        }
        assert buf + data + incoming == body;
        buf := buf + data;
        remainingBytes := remainingBytes - |data|;
      }
      assert |buf| == messageSize && body == buf + incoming;
      assert wire[MESSAGE_LENGTH_SIZE_BYTES..] == body;
      assert read == Complete(buf, MESSAGE_LENGTH_SIZE_BYTES + messageSize);
      r := Ok(buf);
    }

    /** Writes one control message. A write that fails may have sent any part of the frame. */
    method WriteControlMessage(payload: seq<byte>, sent: nat) returns (ok: bool)
      requires |payload| < U32_LIMIT
      modifies this`outgoing
      ensures ok <==> sent >= |Frame(payload)|
      ensures outgoing == old(outgoing) + if ok then Frame(payload) else Frame(payload)[..sent]
    {
      var buf := EncodeU32(|payload|);
      buf := buf + payload;
      ok := sent >= |buf|;
      outgoing := outgoing + if ok then buf else buf[..sent];
    }
  }

  /**
   * What one end writes the other end reads, in whatever pieces it arrives, and nothing of what follows;
   * only a payload beyond the reader's limit is refused, and then after its header.
   */
  method SendAndReceive(payload: seq<byte>, after: seq<byte>, ending: ConnectionEnd)
      returns (r: ReadResult, rest: seq<byte>)
    requires |payload| < U32_LIMIT
    ensures |payload| <= MAX_CONTROL_MESSAGE_SIZE ==> r == Ok(payload) && rest == after
    ensures |payload| > MAX_CONTROL_MESSAGE_SIZE ==>
              r == Err(ControlMessageTooLarge(|payload|)) && rest == payload + after
  {
    var sender := new ByteStream([], ending);
    var ok := sender.WriteControlMessage(payload, MESSAGE_LENGTH_SIZE_BYTES + |payload|);
    var receiver := new ByteStream(sender.outgoing + after, ending);
    ReadableIffWithinLimit(payload, after);
    ReadFrameExact(receiver.incoming, payload, after);
    assert receiver.incoming == Frame(payload) + after;
    assert receiver.incoming[MESSAGE_LENGTH_SIZE_BYTES..] == payload + after;
    r := receiver.ReadControlMessage();
    rest := receiver.incoming;
  }

  /** The payload encoding: any pair of functions of which the second undoes the first. */
  datatype Codec = Codec(
    encodeClient: ClientEnvelope -> seq<byte>,
    decodeClient: seq<byte> -> Option<ClientEnvelope>,
    encodeServer: ServerEnvelope -> seq<byte>,
    decodeServer: seq<byte> -> Option<ServerEnvelope>)

  ghost predicate Faithful(codec: Codec) {
    && (forall m :: codec.decodeClient(codec.encodeClient(m)) == Some(m))
    && (forall m :: codec.decodeServer(codec.encodeServer(m)) == Some(m))
  }

  /** What a client, or a server, makes of the next frame of a connection. */
  datatype Received<+M> = Message(message: M, used: nat) | Refused(error: ServerError, used: nat) | Unreadable

  function ClientReads(codec: Codec, wire: seq<byte>): Received<ServerMessage> {
    match ReadFrame(wire)
    case Complete(payload, used) =>
      (match codec.decodeServer(payload)
       case Some(ServerMessage(m)) => Message(m, used)
       case Some(ServerFailure(e)) => Refused(e, used)
       case None => Unreadable)
    case _ => Unreadable
  }

  function ServerReads(codec: Codec, wire: seq<byte>): Received<ClientMessage> {
    match ReadFrame(wire)
    case Complete(payload, used) =>
      (match codec.decodeClient(payload)
       case Some(ClientEnvelope(m)) => Message(m, used)
       case None => Unreadable)
    case _ => Unreadable
  }

  /** A message, and an error, arrive as what they were sent as; the bytes after them stay. */
  lemma EnvelopesRoundTrip(codec: Codec, fromServer: ServerEnvelope, fromClient: ClientMessage, tail: seq<byte>)
    requires Faithful(codec)
    requires |codec.encodeServer(fromServer)| <= MAX_CONTROL_MESSAGE_SIZE
    requires |codec.encodeClient(ClientEnvelope(fromClient))| <= MAX_CONTROL_MESSAGE_SIZE
    ensures var frame := Frame(codec.encodeServer(fromServer));
            ClientReads(codec, frame + tail) == match fromServer
                                                case ServerMessage(m) => Message(m, |frame|)
                                                case ServerFailure(e) => Refused(e, |frame|)
    ensures var frame := Frame(codec.encodeClient(ClientEnvelope(fromClient)));
            ServerReads(codec, frame + tail) == Message(fromClient, |frame|)
  {
    var s, c := codec.encodeServer(fromServer), codec.encodeClient(ClientEnvelope(fromClient));
    ReadFrameExact(Frame(s) + tail, s, tail);
    ReadFrameExact(Frame(c) + tail, c, tail);
  }
}
