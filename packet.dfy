/** Wire framing (internal/network/packet.go): a frame is a 4-byte big-endian
    length followed by exactly that many payload bytes. `BuildPacket` encodes,
    `ParsePacket` decodes from a stream, consuming exactly one frame. */
module Packet {

  import opened Wrappers

  type byte = x: int | 0 <= x < 256

  /** 2^32: Go's `uint32(len(payload))` keeps the length modulo this. */
  const Uint32Range: nat := 0x1_0000_0000

  type uint32 = x: int | 0 <= x < Uint32Range

  // ---------------------------------------------------------------------
  // encoding/binary.BigEndian
  // ---------------------------------------------------------------------

  /** `binary.BigEndian.PutUint32(buf, uint32(n))`: the four bytes of `n`
      truncated to 32 bits, most significant first. */
  function PutUint32(n: nat): (b: seq<byte>)
    ensures |b| == 4
  {
    var v := n % Uint32Range;
    [v / 0x100_0000, (v / 0x1_0000) % 0x100, (v / 0x100) % 0x100, v % 0x100]
  }

  /** `binary.BigEndian.Uint32(b)`. */
  function Uint32(b: seq<byte>): (n: uint32)
    requires |b| == 4
  {
    b[0] as int * 0x100_0000 + b[1] as int * 0x1_0000 + b[2] as int * 0x100 + b[3] as int
  }

  /** Decoding an encoded length gives the length back, truncated to 32 bits. */
  lemma {:induction false} DecodeEncode(n: nat)
    ensures Uint32(PutUint32(n)) == n % Uint32Range
  {
    var v := n % Uint32Range;
    var hi, lo := v / 0x1_0000, v % 0x1_0000;
    assert v == hi * 0x1_0000 + lo;
    assert hi == (hi / 0x100) * 0x100 + hi % 0x100;
    assert lo == (lo / 0x100) * 0x100 + lo % 0x100;
    assert v / 0x100_0000 == hi / 0x100;
    assert (v / 0x100) % 0x100 == lo / 0x100;
    assert v % 0x100 == lo % 0x100;
  }

  /** Every 4-byte header is the encoding of the length it declares. */
  lemma {:induction false} EncodeDecode(b: seq<byte>)
    requires |b| == 4
    ensures PutUint32(Uint32(b)) == b
  {
    var v := Uint32(b);
    var hi: int, lo: int := b[0] as int * 0x100 + b[1], b[2] as int * 0x100 + b[3];
    assert v == hi * 0x1_0000 + lo;
    assert v / 0x1_0000 == hi && v % 0x1_0000 == lo;
    assert v / 0x100_0000 == b[0];
    assert (v / 0x100) % 0x100 == b[2];
    assert (v / 0x1_0000) % 0x100 == b[1];
    assert v % 0x100 == b[3];
  }

  // ---------------------------------------------------------------------
  // Frames
  // ---------------------------------------------------------------------

  /** The frame `BuildPacket` produces for `payload`. */
  function Frame(payload: seq<byte>): (f: seq<byte>)
  {
    PutUint32(|payload|) + payload
  }

  /** A frame is 4 bytes longer than its payload, its header decodes to the
      payload length (modulo 2^32) and its tail is the payload itself. */
  lemma FrameShape(payload: seq<byte>)
    ensures |Frame(payload)| == 4 + |payload|
    ensures Uint32(Frame(payload)[..4]) == |payload| % Uint32Range
    ensures Frame(payload)[4..] == payload
  {
    assert Frame(payload)[..4] == PutUint32(|payload|);
    DecodeEncode(|payload|);
  }

  /** The concatenation of the frames of `payloads`, in order. */
  function Frames(payloads: seq<seq<byte>>): (s: seq<byte>)
  {
    if payloads == [] then [] else Frame(payloads[0]) + Frames(payloads[1..])
  }

  // ---------------------------------------------------------------------
  // io.ReadFull over a byte stream
  // ---------------------------------------------------------------------

  /** The two ways `io.ReadFull` fails: the stream was already at its end
      (`io.EOF`), or it ended part way (`io.ErrUnexpectedEOF`). */
  datatype ReadError = EOF | UnexpectedEOF

  /** What a read produced, paired with the bytes still unread afterwards. */
  datatype Consumed<T> = Consumed(result: T, rest: seq<byte>)

  /** `io.ReadFull(r, make([]byte, n))` on a reader holding `s`. A request
      for zero bytes always succeeds; a failed read drains the stream. */
  function FullRead(s: seq<byte>, n: nat): (r: Consumed<Result<seq<byte>, ReadError>>)
    ensures r.result.Success? <==> n <= |s|
    ensures r.result.Success? ==> |r.result.value| == n && r.result.value + r.rest == s
    ensures r.result.Failure? ==> r.rest == [] && (r.result.error == EOF <==> s == [])
  {
    if n <= |s| then Consumed(Success(s[..n]), s[n..])
    else if s == [] then Consumed(Failure(EOF), [])
    else Consumed(Failure(UnexpectedEOF), [])
  }

  /** Why `ParsePacket` failed: reading the header or reading the payload. */
  datatype FrameError =
    | LengthReadFailed(cause: ReadError)   // "failed to read length"
    | PayloadReadFailed(cause: ReadError)  // "failed to read payload"

  /** What `ParsePacket` returns on a reader holding `s`, and what it leaves
      unread: the header, then exactly the declared number of bytes. */
  function Unframe(s: seq<byte>): (r: Consumed<Result<seq<byte>, FrameError>>)
  {
    var header := FullRead(s, 4);
    if header.result.Failure? then Consumed(Failure(LengthReadFailed(header.result.error)), header.rest)
    else
      var body := FullRead(header.rest, Uint32(header.result.value));
      if body.result.Failure? then Consumed(Failure(PayloadReadFailed(body.result.error)), body.rest)
      else Consumed(Success(body.result.value), body.rest)
  }

  /** Decoding succeeds exactly when a whole header and the whole declared
      payload are present; fewer than 4 bytes is a header failure. */
  lemma UnframeSucceeds(s: seq<byte>)
    ensures Unframe(s).result.Success? <==> |s| >= 4 && Uint32(s[..4]) <= |s| - 4
    ensures |s| < 4 ==> Unframe(s).result.Failure? && Unframe(s).result.error.LengthReadFailed?
    ensures |s| >= 4 && Uint32(s[..4]) > |s| - 4 ==>
              Unframe(s).result.Failure? && Unframe(s).result.error.PayloadReadFailed?
  {
  }

  /** Round trip: decoding a frame followed by anything yields the payload
      and leaves exactly the following bytes unread. */
  lemma {:induction false} UnframeFrame(payload: seq<byte>, rest: seq<byte>)
    requires |payload| < Uint32Range
    ensures Unframe(Frame(payload) + rest) == Consumed(Success(payload), rest)
  {
    var s := Frame(payload) + rest;
    assert s[..4] == PutUint32(|payload|);
    DecodeEncode(|payload|);
    assert s[4..] == payload + rest;
  }

  /** Two frames back to back decode as their two payloads, in order. */
  lemma {:induction false} UnframeTwice(p1: seq<byte>, p2: seq<byte>)
    requires |p1| < Uint32Range && |p2| < Uint32Range
    ensures var first := Unframe(Frame(p1) + Frame(p2));
            && first == Consumed(Success(p1), Frame(p2))
            && Unframe(first.rest) == Consumed(Success(p2), [])
  {
    UnframeFrame(p1, Frame(p2));
    UnframeFrame(p2, []);
    assert Frame(p2) + [] == Frame(p2);
  }

  /** Decoding a run of frames one after another yields the payloads in order. */
  lemma {:induction false} UnframeAll(payloads: seq<seq<byte>>, rest: seq<byte>)
    requires forall i :: 0 <= i < |payloads| ==> |payloads[i]| < Uint32Range
    requires |payloads| > 0
    ensures Unframe(Frames(payloads) + rest) == Consumed(Success(payloads[0]), Frames(payloads[1..]) + rest)
  {
    assert Frames(payloads) + rest == Frame(payloads[0]) + (Frames(payloads[1..]) + rest);
    UnframeFrame(payloads[0], Frames(payloads[1..]) + rest);
  }

  // ---------------------------------------------------------------------
  // The imperative codec
  // ---------------------------------------------------------------------

  /** A byte stream read front to back, as an `io.Reader` over fixed data. */
  class Reader {
    const data: seq<byte>
    var pos: nat

    ghost predicate Valid()
      reads this
    {
      pos <= |data|
    }

    /** The bytes not yet read. */
    ghost function Remaining(): seq<byte>
      reads this
      requires Valid()
    {
      data[pos..]
    }

    constructor (data: seq<byte>)
      ensures Valid() && this.data == data && Remaining() == data
    {
      this.data := data;
      pos := 0;
    }

    /** `io.ReadFull` into a freshly made buffer of `n` bytes. */
    method ReadFull(n: nat) returns (r: Result<seq<byte>, ReadError>)
      requires Valid()
      modifies this
      ensures Valid()
      ensures Consumed(r, Remaining()) == FullRead(old(Remaining()), n)
    {
      var start := pos;
      if n <= |data| - start {
        var buf := new byte[n];
        for i := 0 to n
          invariant buf[..i] == data[start..start + i]
        {
          buf[i] := data[start + i];
        }
        assert buf[..] == buf[..n];
        r := Success(buf[..]);
        pos := start + n;
        assert data[start..][..n] == data[start..start + n];
        assert data[start..][n..] == data[pos..];
      } else {
        r := Failure(if start == |data| then EOF else UnexpectedEOF);
        pos := |data|;
      }
    }
  }

  /** `BuildPacket`: a buffer of 4 + |payload| bytes, the header written by
      `PutUint32` and the payload copied behind it. */
  method BuildPacket(payload: seq<byte>) returns (packet: seq<byte>)
    ensures packet == Frame(payload)
  {
    var buf := new byte[4 + |payload|];
    var header := PutUint32(|payload|);
    buf[0], buf[1], buf[2], buf[3] := header[0], header[1], header[2], header[3];
    for i := 0 to |payload|
      invariant buf[..4] == header
      invariant buf[4..4 + i] == payload[..i]
    {
      buf[4 + i] := payload[i];
    }
    packet := buf[..];
    assert packet == buf[..4] + buf[4..4 + |payload|];
  }

  /** `ParsePacket`: read the header, then exactly the declared payload. */
  method ParsePacket(reader: Reader) returns (r: Result<seq<byte>, FrameError>)
    requires reader.Valid()
    modifies reader
    ensures reader.Valid()
    ensures Consumed(r, reader.Remaining()) == Unframe(old(reader.Remaining()))
  {
    var header := reader.ReadFull(4);
    if header.Failure? {
      return Failure(LengthReadFailed(header.error));
    }
    var length := Uint32(header.value);
    var payload := reader.ReadFull(length);
    if payload.Failure? {
      return Failure(PayloadReadFailed(payload.error));
    }
    r := Success(payload.value);
  }
}
