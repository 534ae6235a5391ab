/** The way of one message's content: stored in a table, republished by the pipe, handled by a subscriber. */
module MessagePath {
  import opened Wrappers
  import opened Encoding
  import opened MetaData

  // The wire format of stored and published messages.
  datatype MessageWithMD = MessageWithMD(md: map<string, seq<Bytes>>, format: string, bytes: Bytes)

  datatype Wire = Wire(marshal: MessageWithMD -> Result<Bytes, string>, unmarshal: Bytes -> Result<MessageWithMD, string>) {
    ghost predicate Lossless() {
      forall m: MessageWithMD :: marshal(m).Success? ==> unmarshal(marshal(m).value) == Success(m)
    }
  }

  /** What binlogmsg's publisher stores, and what a DurConn publishes: the checked, encoded and marshalled message. */
  function Pack(lib: Library, wire: Wire, e: Encoder, msgType: Type, md: MD, msg: Data): Result<Bytes, string> {
    if TypeOf(msg) != msgType then Failure("got unexpected msg type")
    else
      match Encode(lib, e, msg, "")
      case Failure(err) => Failure(err)
      case Success(out) => wire.marshal(MessageWithMD(View(md), out.format, out.bytes))
  }

  /** What is stored or published is the marshalled message with the caller's metadata, in the encoder's own format; it fails
      exactly if the type is wrong, or encoding or marshalling fails. */
  lemma PackedMessage(lib: Library, wire: Wire, e: Encoder, msgType: Type, md: MD, msg: Data, packed: Bytes)
    ensures Pack(lib, wire, e, msgType, md, msg) == Success(packed) <==>
      && TypeOf(msg) == msgType
      && exists format, bytes ::
        && Encode(lib, e, msg, "") == Success(Encoded(format, bytes))
        && wire.marshal(MessageWithMD(View(md), format, bytes)) == Success(packed)
  {
    var encoded := Encode(lib, e, msg, "");
    if encoded.Success? {
      assert encoded == Success(Encoded(encoded.value.format, encoded.value.bytes));
    }
  }

  // The outgoing metadata of a flush: the message's own, or else what the context given to Run carries.
  function FlushMD(m: MessageWithMD, runMD: MD): MD {
    if m.md != map[] then MapMD(m.md) else runMD
  }

  /** flushMsgEntry into a DurConn publisher with a raw encoder; a row that does not unmarshal panics. */
  function Republish(lib: Library, wire: Wire, e: Encoder, runMD: MD, row: Bytes): Result<Bytes, string> {
    match wire.unmarshal(row)
    case Failure(err) => Failure(err)
    case Success(m) => Pack(lib, wire, e, RawType, FlushMD(m, runMD), RawData(m.format, m.bytes))
  }

  datatype Call = Call(md: map<string, seq<Bytes>>, msg: Data)

  /** What a subscriber's handler is called with; on an error there is no call and no acknowledgement. */
  function Receive(lib: Library, wire: Wire, d: Decoder, msgType: Type, baseMD: map<string, seq<Bytes>>, data: Bytes): Result<Call, string> {
    match wire.unmarshal(data)
    case Failure(err) => Failure(err)
    case Success(m) =>
      match Decode(lib, d, m.format, m.bytes, msgType)
      case Failure(err) => Failure(err)
      case Success(msg) => Success(Call(if m.md != map[] then m.md else baseMD, msg))
  }

  /** The pipe republishes the stored bytes unchanged, exactly if the message has metadata of its own or the context
      given to Run carries none. */
  lemma RepublishedUnchanged(lib: Library, wire: Wire, e: Encoder, msgType: Type, md: MD, msg: Data, raw: Encoder, runMD: MD)
    requires wire.Lossless() && raw.RawEncoder? && Pack(lib, wire, e, msgType, md, msg).Success?
    ensures var row := Pack(lib, wire, e, msgType, md, msg).value;
      Republish(lib, wire, raw, runMD, row) == Success(row) <==> View(md) != map[] || View(runMD) == map[]
  {
    var row := Pack(lib, wire, e, msgType, md, msg).value;
    var out := Encode(lib, e, msg, "").value;
    var m := MessageWithMD(View(md), out.format, out.bytes);
    assert wire.unmarshal(row) == Success(m);
    RawBypass(lib, raw, RawDecoder(None), m.format, m.bytes);
    var m' := MessageWithMD(View(FlushMD(m, runMD)), m.format, m.bytes);
    assert Republish(lib, wire, raw, runMD, row) == wire.marshal(m');
    if wire.marshal(m') == Success(row) { assert wire.unmarshal(row) == Success(m'); }
  }

  /** The metadata of Run's context does leak: a raw message stored without metadata is republished as other bytes. */
  lemma RunMetadataLeaks() returns (lib: Library, wire: Wire, raw: Encoder, runMD: MD, row: Bytes)
    ensures wire.Lossless() && raw.RawEncoder?
    ensures Pack(lib, wire, raw, RawType, NilMD, RawData("", [])) == Success(row)
    ensures Republish(lib, wire, raw, runMD, row).Success? && Republish(lib, wire, raw, runMD, row) != Success(row)
  {
    lib := Library(_ => Failure(""), (_, _) => Failure(""), _ => Failure(""), (_, _) => Failure(""), _ => Failure(""), (_, _) => Failure(""));
    // A wire format for just two messages: one without metadata, and the same one with some.
    var bare := MessageWithMD(map[], "", []);
    var tagged := MessageWithMD(map["k" := []], "", []);
    wire := Wire(m => if m == bare then Success([0]) else if m == tagged then Success([1]) else Failure(""),
                 b => if b == [0] then Success(bare) else if b == [1] then Success(tagged) else Failure(""));
    raw, runMD, row := RawEncoder(None), MapMD(map["k" := []]), [0];
    assert View(NilMD) == map[];
    assert tagged.md["k"] == [] && bare != tagged;
    RawBypass(lib, raw, RawDecoder(None), "", []);
    assert Republish(lib, wire, raw, runMD, row) == wire.marshal(tagged);
  }

  /** End to end: whatever the pipe republishes, a subscriber of the same message type is called with the original
      message exactly if its decoder suits the original encoder; the metadata is the original, or if that is empty
      the metadata of Run's context, or if that is empty too the subscriber's own. */
  lemma MessageArrives(lib: Library, wire: Wire, e: Encoder, d: Decoder, msgType: Type, md: MD, msg: Data,
                       raw: Encoder, runMD: MD, baseMD: map<string, seq<Bytes>>)
    requires lib.Lossless() && wire.Lossless() && raw.RawEncoder? && (msg.RawData? ==> RawAlike(e, d))
    requires Pack(lib, wire, e, msgType, md, msg).Success?
    requires Republish(lib, wire, raw, runMD, Pack(lib, wire, e, msgType, md, msg).value).Success?
    ensures var published := Republish(lib, wire, raw, runMD, Pack(lib, wire, e, msgType, md, msg).value).value;
      Receive(lib, wire, d, msgType, baseMD, published) ==
      Success(Call(if View(md) != map[] then View(md) else if View(runMD) != map[] then View(runMD) else baseMD, msg))
      <==> Compatible(e, d, msg)
  {
    var row := Pack(lib, wire, e, msgType, md, msg).value;
    var out := Encode(lib, e, msg, "").value;
    var m := MessageWithMD(View(md), out.format, out.bytes);
    assert wire.unmarshal(row) == Success(m);
    RawBypass(lib, raw, RawDecoder(None), m.format, m.bytes);
    var m' := MessageWithMD(View(FlushMD(m, runMD)), m.format, m.bytes);
    assert Republish(lib, wire, raw, runMD, row) == wire.marshal(m');
    EncodeDecode(lib, e, d, msg, "");
  }

  // The handler is called with this for the published bytes.
  ghost predicate CalledWith(lib: Library, wire: Wire, d: Decoder, msgType: Type, baseMD: map<string, seq<Bytes>>, data: Bytes, call: Call) {
    exists m ::
      && wire.unmarshal(data) == Success(m)
      && Decode(lib, d, m.format, m.bytes, msgType) == Success(call.msg)
      && call.md == if m.md == map[] then baseMD else m.md
  }

  /** A handler is called exactly for what unmarshals and decodes to its message type. */
  lemma ReceivedMessage(lib: Library, wire: Wire, d: Decoder, msgType: Type, baseMD: map<string, seq<Bytes>>, data: Bytes, call: Call)
    ensures Receive(lib, wire, d, msgType, baseMD, data) == Success(call) <==> CalledWith(lib, wire, d, msgType, baseMD, data, call)
  {
    var m := wire.unmarshal(data);
    if m.Success? { assert wire.unmarshal(data) == Success(m.value); }
  }

  datatype Answer = ReturnedNil | ReturnedError | HandlerPanicked

  /** The message handler of a subscription: it acknowledges exactly if the runner took the task, the message was
      decoded, and the handler returned nil. */
  method MsgHandler(lib: Library, wire: Wire, d: Decoder, msgType: Type, baseMD: map<string, seq<Bytes>>, data: Bytes,
                    submitted: bool, handler: Call -> Answer) returns (acks: nat)
    ensures acks <= 1
    ensures acks == 1 <==>
      && submitted
      && Receive(lib, wire, d, msgType, baseMD, data).Success?
      && handler(Receive(lib, wire, d, msgType, baseMD, data).value).ReturnedNil?
  {
    if !submitted { return 0; }
    var m := wire.unmarshal(data);
    if m.Failure? { return 0; }
    var msg := Decode(lib, d, m.value.format, m.value.bytes, msgType);
    if msg.Failure? { return 0; }
    var md := baseMD;
    if m.value.md != map[] { md := m.value.md; }
    var answer := handler(Call(md, msg.value));
    match answer
    case ReturnedNil => return 1;
    case _ => return 0;
  }
}
