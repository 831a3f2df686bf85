/** The per-connection frame loop of the TCP server
    (internal/network/tcp_server.go): read a header, refuse a declared length
    above the ceiling, read the payload, answer with one frame, repeat. The
    connection is a byte sequence read front to back; what the server writes
    to it is the returned output. */
module TcpServer {

  import opened Wrappers
  import opened Packet

  /** The ceiling `NewTCPServer` sets before any option is applied. */
  const DefaultMaxMessageSize: uint32 := 4096

  /** The function a connection hands every request payload to. */
  type Handler = seq<byte> -> seq<byte>

  /** The next request `handle` accepts from `input`, and the bytes after it:
      `None` when the header is incomplete, the declared length exceeds
      `maxMessageSize` (the payload is then never read) or the payload is
      truncated. */
  function NextRequest(input: seq<byte>, maxMessageSize: uint32): (next: Option<Consumed<seq<byte>>>)
    ensures next.Some? ==> |next.value.rest| < |input|
  {
    var header := FullRead(input, 4);
    if header.result.Failure? then None
    else if Uint32(header.result.value) > maxMessageSize then None
    else
      var body := FullRead(header.rest, Uint32(header.result.value));
      if body.result.Failure? then None
      else Some(Consumed(body.result.value, body.rest))
  }

  /** Everything `handle` writes to a connection whose incoming bytes are
      `input`: one response frame per accepted request, in order. */
  function Serve(input: seq<byte>, handler: Handler, maxMessageSize: uint32): (output: seq<byte>)
    decreases |input|
  {
    match NextRequest(input, maxMessageSize)
    case None => []
    case Some(request) => Frame(handler(request.result)) + Serve(request.rest, handler, maxMessageSize)
  }

  /** The handler's answers to `requests`, in order. */
  function Answers(handler: Handler, requests: seq<seq<byte>>): (answers: seq<seq<byte>>)
    ensures |answers| == |requests|
    ensures forall i :: 0 <= i < |requests| ==> answers[i] == handler(requests[i])
  {
    seq(|requests|, i requires 0 <= i < |requests| => handler(requests[i]))
  }

  /** A frame within the ceiling is accepted whatever follows it; its payload
      is exactly the frame's payload. */
  lemma {:induction false} NextRequestFrame(payload: seq<byte>, rest: seq<byte>, maxMessageSize: uint32)
    requires |payload| <= maxMessageSize
    ensures NextRequest(Frame(payload) + rest, maxMessageSize) == Some(Consumed(payload, rest))
  {
    UnframeFrame(payload, rest);
    FrameShape(payload);
    assert (Frame(payload) + rest)[..4] == Frame(payload)[..4];
  }

  /** The loop reads the same frame `ParsePacket` reads, unless its declared
      length is above the ceiling. */
  lemma {:induction false} NextRequestIsUnframe(input: seq<byte>, maxMessageSize: uint32)
    ensures NextRequest(input, maxMessageSize).Some? <==>
              Unframe(input).result.Success? && Uint32(input[..4]) <= maxMessageSize
    ensures NextRequest(input, maxMessageSize).Some? ==>
              NextRequest(input, maxMessageSize).value == Consumed(Unframe(input).result.value, Unframe(input).rest)
  {
    UnframeSucceeds(input);
  }

  /** A header declaring a length strictly above the ceiling ends the
      connection with nothing written, whatever follows it (the payload is
      never read, so it need not be there) and whatever the handler. */
  lemma ServeRefusesOversized(input: seq<byte>, handler: Handler, maxMessageSize: uint32)
    requires |input| >= 4 && Uint32(input[..4]) > maxMessageSize
    ensures Serve(input, handler, maxMessageSize) == []
  {
  }

  /** The 16 bytes of the text "malformed packet" sent as a request: the
      header "malf" declares 0x6d616c66 bytes, above the default ceiling, so
      nothing is written back. */
  lemma MalformedPacket(handler: Handler)
    ensures Serve([0x6d, 0x61, 0x6c, 0x66, 0x6f, 0x72, 0x6d, 0x65, 0x64, 0x20, 0x70, 0x61, 0x63, 0x6b, 0x65, 0x74],
                  handler, DefaultMaxMessageSize) == []
  {
    var input: seq<byte> := [0x6d, 0x61, 0x6c, 0x66, 0x6f, 0x72, 0x6d, 0x65, 0x64, 0x20, 0x70, 0x61, 0x63, 0x6b, 0x65, 0x74];
    assert input[..4] == [0x6d, 0x61, 0x6c, 0x66];
    ServeRefusesOversized(input, handler, DefaultMaxMessageSize);
  }

  /** Fewer than 4 bytes left: nothing more is written. */
  lemma ServeShortHeader(input: seq<byte>, handler: Handler, maxMessageSize: uint32)
    requires |input| < 4
    ensures Serve(input, handler, maxMessageSize) == []
  {
  }

  /** A truncated payload ends the connection without consulting the
      handler: any two handlers write the same nothing. */
  lemma ServeTruncated(input: seq<byte>, h1: Handler, h2: Handler, maxMessageSize: uint32)
    requires |input| >= 4 && Uint32(input[..4]) <= maxMessageSize && Uint32(input[..4]) > |input| - 4
    ensures Serve(input, h1, maxMessageSize) == [] && Serve(input, h2, maxMessageSize) == []
  {
  }

  /** An accepted frame is answered by exactly one frame holding the
      handler's answer, before whatever the rest of the stream yields. */
  lemma {:induction false} ServeFrame(payload: seq<byte>, rest: seq<byte>, handler: Handler, maxMessageSize: uint32)
    requires |payload| <= maxMessageSize
    ensures Serve(Frame(payload) + rest, handler, maxMessageSize) ==
              Frame(handler(payload)) + Serve(rest, handler, maxMessageSize)
  {
    NextRequestFrame(payload, rest, maxMessageSize);
  }

  /** A stream of frames within the ceiling is answered frame by frame, in
      order: the output is the concatenation of the answers' frames. */
  lemma {:induction false} ServeFrames(requests: seq<seq<byte>>, rest: seq<byte>, handler: Handler, maxMessageSize: uint32)
    requires forall i :: 0 <= i < |requests| ==> |requests[i]| <= maxMessageSize
    ensures Serve(Frames(requests) + rest, handler, maxMessageSize) ==
              Frames(Answers(handler, requests)) + Serve(rest, handler, maxMessageSize)
    decreases |requests|
  {
    if requests == [] {
      assert Frames(requests) + rest == rest;
    } else {
      var tail := Frames(requests[1..]) + rest;
      ConcatAssoc(Frame(requests[0]), Frames(requests[1..]), rest);
      ServeFrame(requests[0], tail, handler, maxMessageSize);
      ServeFrames(requests[1..], rest, handler, maxMessageSize);
      assert Answers(handler, requests)[1..] == Answers(handler, requests[1..]);
      ConcatAssoc(Frame(handler(requests[0])), Frames(Answers(handler, requests[1..])), Serve(rest, handler, maxMessageSize));
    }
  }

  /** A whole stream of acceptable frames: exactly one response frame each. */
  lemma {:induction false} ServeAll(requests: seq<seq<byte>>, handler: Handler, maxMessageSize: uint32)
    requires forall i :: 0 <= i < |requests| ==> |requests[i]| <= maxMessageSize
    ensures Serve(Frames(requests), handler, maxMessageSize) == Frames(Answers(handler, requests))
  {
    ServeFrames(requests, [], handler, maxMessageSize);
    assert Frames(requests) + [] == Frames(requests);
    assert Serve([], handler, maxMessageSize) == [];
  }

  /** With an echo handler a single request comes back unchanged. */
  lemma {:induction false} ServeEcho(payload: seq<byte>, maxMessageSize: uint32)
    requires |payload| <= maxMessageSize
    ensures Serve(Frame(payload), x => x, maxMessageSize) == Frame(payload)
  {
    ServeFrame(payload, [], x => x, maxMessageSize);
    assert Frame(payload) + [] == Frame(payload);
  }

  /** Under the default ceiling a 4096-byte request is answered (the
      comparison is strict) and a 4097-byte one ends the connection. */
  lemma {:induction false} DefaultCeiling(payload: seq<byte>, rest: seq<byte>, handler: Handler)
    requires |payload| == 4096 || |payload| == 4097
    ensures |payload| == 4096 ==>
              Serve(Frame(payload) + rest, handler, DefaultMaxMessageSize) ==
              Frame(handler(payload)) + Serve(rest, handler, DefaultMaxMessageSize)
    ensures |payload| == 4097 ==> Serve(Frame(payload) + rest, handler, DefaultMaxMessageSize) == []
  {
    if |payload| == 4096 {
      ServeFrame(payload, rest, handler, DefaultMaxMessageSize);
    } else {
      FrameShape(payload);
      assert (Frame(payload) + rest)[..4] == Frame(payload)[..4];
      ServeRefusesOversized(Frame(payload) + rest, handler, DefaultMaxMessageSize);
    }
  }

  lemma ConcatAssoc<T>(a: seq<T>, b: seq<T>, c: seq<T>)
    ensures (a + b) + c == a + (b + c)
  {
  }

  /** The server state `handle` reads: the handler and the size ceiling. The
      listener and the admission semaphore belong to the accept loop, which
      is not part of this model. */
  class TCPServer {
    const handler: Handler
    const maxMessageSize: uint32

    /** `NewTCPServer(addr, handler)` with no options. */
    constructor (handler: Handler)
      ensures this.handler == handler && maxMessageSize == DefaultMaxMessageSize
    {
      this.handler := handler;
      maxMessageSize := DefaultMaxMessageSize;
    }

    /** `handle(conn)`: serve one connection until its stream stops yielding
        acceptable frames. */
    method Handle(input: seq<byte>) returns (output: seq<byte>)
      ensures output == Serve(input, handler, maxMessageSize)
    {
      var r := new Reader(input);
      output := [];
      while true
        invariant r.Valid() && r.data == input
        invariant output + Serve(r.Remaining(), handler, maxMessageSize) == Serve(input, handler, maxMessageSize)
        decreases |input| - r.pos
      {
        ghost var before := r.Remaining();
        var header := r.ReadFull(4);
        if header.Failure? {
          assert output + [] == output;
          return;
        }
        var messageLength := Uint32(header.value);
        if messageLength > maxMessageSize {
          assert output + [] == output;
          return;
        }
        var payload := r.ReadFull(messageLength);
        if payload.Failure? {
          assert output + [] == output;
          return;
        }
        var result := handler(payload.value);
        var responsePacket := BuildPacket(result);
        assert NextRequest(before, maxMessageSize) == Some(Consumed(payload.value, r.Remaining()));
        ConcatAssoc(output, responsePacket, Serve(r.Remaining(), handler, maxMessageSize));
        output := output + responsePacket;
      }
    }
  }
}
