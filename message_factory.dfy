/**
 * The NetMQ message factory: the frame layouts of topic, request and response
 * envelopes. A message is a list of frames and a frame a list of bytes. The
 * package factory and the serializer are a `Codec` parameter; the embedding
 * of a request identifier into a frame is the four-byte network-order
 * (big-endian, two's complement) encoding NetMQ uses for integers.
 */
module NetMQMessages {
  import opened Common

  newtype byte = x: int | 0 <= x < 0x100

  /** A 32-bit signed integer, the type of request identifiers. */
  newtype int32 = x: int | -0x8000_0000 <= x < 0x8000_0000

  type Frame = seq<byte>

  /** A NetMQ message: its frames, in order. */
  type Message = seq<Frame>

  const EmptyFrame: Frame := []

  /**
   * The package factory and serializer, as functions: `pack`/`unpack` wrap an
   * object in a package of type P and back, `serialize`/`deserialize` turn a
   * package into a frame and back, and `text` is the frame of a string.
   */
  datatype Codec<!P> = Codec(pack: Obj -> P, unpack: P -> Obj, serialize: P -> Frame, deserialize: Frame -> P, text: string -> Frame)

  /** Serializing a packed object and then deserializing and unpacking it gives the object back. */
  ghost predicate RoundTrips<P>(c: Codec<P>)
  {
    forall o :: c.unpack(c.deserialize(c.serialize(c.pack(o)))) == o
  }

  /** The frame NetMQ appends for an integer: four bytes, most significant first, negative values in two's complement. */
  function Int32Frame(n: int32): (f: Frame)
    ensures |f| == 4
  {
    var u := if n < 0 then n as int + 0x1_0000_0000 else n as int;
    [(u / 0x100_0000) as byte, (u / 0x1_0000 % 0x100) as byte, (u / 0x100 % 0x100) as byte, (u % 0x100) as byte]
  }

  /** Reads an integer from the first four bytes of a frame; a shorter frame overruns its buffer. */
  function ConvertToInt32(f: Frame): (r: Result<int32>)
    ensures r.Err? <==> |f| < 4
    ensures r.Err? ==> r.error == IndexOutOfRange
  {
    if |f| < 4 then Err(IndexOutOfRange)
    else
      var u := ((f[0] as int * 0x100 + f[1] as int) * 0x100 + f[2] as int) * 0x100 + f[3] as int;
      Ok((if u >= 0x8000_0000 then u - 0x1_0000_0000 else u) as int32)
  }

  /** Every request identifier survives the trip through its frame. */
  lemma Int32RoundTrip(n: int32)
    ensures ConvertToInt32(Int32Frame(n)) == Ok(n)
  {
    var u := if n < 0 then n as int + 0x1_0000_0000 else n as int;
    var q1, b3 := u / 0x100, u % 0x100;
    var q2, b2 := q1 / 0x100, q1 % 0x100;
    var b0, b1 := q2 / 0x100, q2 % 0x100;
    assert u == q1 * 0x100 + b3 && q1 == q2 * 0x100 + b2 && q2 == b0 * 0x100 + b1;
    assert b0 == u / 0x100_0000 && b1 == u / 0x1_0000 % 0x100 && b2 == u / 0x100 % 0x100;
    var f := Int32Frame(n);
    assert f[0] as int == b0 && f[1] as int == b1 && f[2] as int == b2 && f[3] as int == b3;
    assert ((b0 * 0x100 + b1) * 0x100 + b2) * 0x100 + b3 == u;
  }

  /** A topic message: the full name of the event's type, then the serialized package. */
  function CreateTopicMessage<P>(c: Codec<P>, topicEvent: Obj): (m: Message)
    ensures |m| == 2
    ensures m[0] == c.text(topicEvent.runtimeType.fullName) && m[1] == c.serialize(c.pack(topicEvent))
  {
    [c.text(topicEvent.runtimeType.fullName), c.serialize(c.pack(topicEvent))]
  }

  /** The event in frame 1; a message with fewer frames fails at the frame indexer. */
  function ExtractTopic<P>(c: Codec<P>, m: Message): (r: Result<Obj>)
    ensures r.Err? <==> |m| < 2
    ensures r.Err? ==> r.error == ArgumentOutOfRange
    ensures r.Ok? ==> r.value == c.unpack(c.deserialize(m[1]))
  {
    if |m| < 2 then Err(ArgumentOutOfRange) else Ok(c.unpack(c.deserialize(m[1])))
  }

  /** A request message as the sending socket sees it: empty, identifier, empty, serialized package. */
  function CreateRequestMessage<P>(c: Codec<P>, request: Obj, requestId: int32): (m: Message)
    ensures |m| == 4
    ensures m[0] == EmptyFrame && m[1] == Int32Frame(requestId) && m[2] == EmptyFrame && m[3] == c.serialize(c.pack(request))
  {
    [EmptyFrame, Int32Frame(requestId), EmptyFrame, c.serialize(c.pack(request))]
  }

  /** What ExtractRequest returns: the object, the sender's address frame and the request identifier. */
  datatype ExtractedRequest = ExtractedRequest(request: Obj, address: Frame, requestId: int32)

  /**
   * Reads a request as the receiving socket delivers it, with the sender's
   * address frame in front: the address from frame 0, the identifier from
   * frame 2 and the package from frame 4.
   */
  function ExtractRequest<P>(c: Codec<P>, m: Message): (r: Result<ExtractedRequest>)
    ensures |m| < 3 ==> r == Err(ArgumentOutOfRange)
    ensures |m| >= 3 && |m[2]| < 4 ==> r == Err(IndexOutOfRange)
    ensures |m| >= 3 && |m[2]| >= 4 && |m| < 5 ==> r == Err(ArgumentOutOfRange)
    ensures r.Ok? <==> |m| >= 5 && |m[2]| >= 4
    ensures r.Ok? ==> r.value.address == m[0] && Ok(r.value.requestId) == ConvertToInt32(m[2])
                      && r.value.request == c.unpack(c.deserialize(m[4]))
  {
    if |m| < 3 then Err(ArgumentOutOfRange)
    else
      var id := ConvertToInt32(m[2]);
      if id.Err? then Err(id.error)
      else if |m| < 5 then Err(ArgumentOutOfRange)
      else Ok(ExtractedRequest(c.unpack(c.deserialize(m[4])), m[0], id.value))
  }

  /** A response message: the requester's address, empty, identifier, empty, serialized package. */
  function CreateResponseMessage<P>(c: Codec<P>, response: Obj, address: Frame, requestId: int32): (m: Message)
    ensures |m| == 5
    ensures m[0] == address && m[1] == EmptyFrame && m[2] == Int32Frame(requestId) && m[3] == EmptyFrame
            && m[4] == c.serialize(c.pack(response))
  {
    [address, EmptyFrame, Int32Frame(requestId), EmptyFrame, c.serialize(c.pack(response))]
  }

  /** A request message is valid when it is present and has exactly five frames. */
  predicate IsValidRequestMessage(m: Option<Message>)
  {
    m.Some? && |m.value| == 5
  }

  /**
   * A null message is not valid, and a valid one has every frame ExtractRequest
   * reads: extracting it fails only on an identifier frame under four bytes.
   */
  lemma ValidRequestIsExtractable<P>(c: Codec<P>, m: Message)
    ensures !IsValidRequestMessage(None)
    ensures IsValidRequestMessage(Some(m)) ==> (ExtractRequest(c, m).Ok? <==> |m[2]| >= 4)
    ensures IsValidRequestMessage(Some(m)) && ExtractRequest(c, m).Err? ==> ExtractRequest(c, m).error == IndexOutOfRange
  {
  }

  /** Extracting a topic message gives back the event it was made from. */
  lemma TopicRoundTrip<P>(c: Codec<P>, topicEvent: Obj)
    requires RoundTrips(c)
    ensures ExtractTopic(c, CreateTopicMessage(c, topicEvent)) == Ok(topicEvent)
  {
  }

  /**
   * A request message with the sender's address frame put in front of it,
   * as a routing socket delivers it, is valid, and extracting it gives back
   * the request, the address and the identifier.
   */
  lemma RoutedRequestRoundTrip<P>(c: Codec<P>, request: Obj, requestId: int32, address: Frame)
    requires RoundTrips(c)
    ensures IsValidRequestMessage(Some([address] + CreateRequestMessage(c, request, requestId)))
    ensures ExtractRequest(c, [address] + CreateRequestMessage(c, request, requestId))
            == Ok(ExtractedRequest(request, address, requestId))
  {
    var m := [address] + CreateRequestMessage(c, request, requestId);
    assert m[2] == Int32Frame(requestId) && m[4] == c.serialize(c.pack(request));
    Int32RoundTrip(requestId);
  }

  /** A response is laid out as a request message behind the requester's address frame. */
  lemma ResponseIsAddressedRequestLayout<P>(c: Codec<P>, response: Obj, address: Frame, requestId: int32)
    ensures CreateResponseMessage(c, response, address, requestId) == [address] + CreateRequestMessage(c, response, requestId)
  {
  }

  /**
   * The four-frame message a client sends is not a valid request; read
   * without the address frame, its frame 2 is the empty frame, which holds
   * no identifier.
   */
  lemma UnroutedRequestIsInvalid<P>(c: Codec<P>, request: Obj, requestId: int32)
    ensures !IsValidRequestMessage(Some(CreateRequestMessage(c, request, requestId)))
    ensures ExtractRequest(c, CreateRequestMessage(c, request, requestId)) == Err(IndexOutOfRange)
  {
  }
}
