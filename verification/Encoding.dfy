/** The encoders and decoders of enc/rawenc and enc/pjenc: which format is chosen, and what survives. */
module Encoding {
  import opened Wrappers

  type Bytes = seq<bv8>

  const JsonFormat := "json"
  const PbFormat := "pb"

  // The dynamic type of a Go value: *RawData, or a pointer to some other type, which may be a proto.Message.
  datatype Type = RawType | ValueType(name: string, isProto: bool)

  datatype Data = RawData(format: string, bytes: Bytes) | Value(name: string, isProto: bool, content: Bytes)

  function TypeOf(data: Data): Type {
    match data
    case RawData(_, _) => RawType
    case Value(name, isProto, _) => ValueType(name, isProto)
  }

  predicate IsProto(ty: Type) {
    ty.ValueType? && ty.isProto
  }

  // The protobuf library, its json mapping for protobuf messages, and the json library.
  datatype Library = Library(
    pbMarshal: Data -> Result<Bytes, string>,
    pbUnmarshal: (Bytes, Type) -> Result<Data, string>,
    protojsonMarshal: Data -> Result<Bytes, string>,
    protojsonUnmarshal: (Bytes, Type) -> Result<Data, string>,
    jsonMarshal: Data -> Result<Bytes, string>,
    jsonUnmarshal: (Bytes, Type) -> Result<Data, string>)
  {
    /** Unmarshal is a left inverse of Marshal. */
    ghost predicate Lossless() {
      && (forall d: Data :: pbMarshal(d).Success? ==> pbUnmarshal(pbMarshal(d).value, TypeOf(d)) == Success(d))
      && (forall d: Data :: protojsonMarshal(d).Success? ==> protojsonUnmarshal(protojsonMarshal(d).value, TypeOf(d)) == Success(d))
      && (forall d: Data :: jsonMarshal(d).Success? ==> jsonUnmarshal(jsonMarshal(d).value, TypeOf(d)) == Success(d))
    }
  }

  datatype Encoder = RawEncoder(inner: Option<Encoder>) | PbJsonEncoder(format: string)

  datatype Decoder = RawDecoder(inner: Option<Decoder>) | PbJsonDecoder

  datatype Encoded = Encoded(format: string, bytes: Bytes)

  /** EncodeData: what is written to the targets, given the format asked for ("" for any). */
  function Encode(lib: Library, e: Encoder, data: Data, target: string): Result<Encoded, string> {
    match e
    case RawEncoder(inner) =>
      if data.RawData? then
        if target != "" && data.format != target then
          Failure("TargetFormat is " + target + " but src RawData format is " + data.format)
        else Success(Encoded(data.format, data.bytes))
      else if inner.None? then Failure("No encoder to encode data")
      else Encode(lib, inner.value, data, target)
    case PbJsonEncoder(own) =>
      var format := if target != "" then target else own;
      if format == PbFormat then
        if !IsProto(TypeOf(data)) then Failure("PbJsonEncoder can't encode data using pb format")
        else WithFormat(PbFormat, lib.pbMarshal(data))
      else if format == JsonFormat then
        WithFormat(JsonFormat, if IsProto(TypeOf(data)) then lib.protojsonMarshal(data) else lib.jsonMarshal(data))
      else Failure("PbJsonEncoder does not support format " + format)
  }

  function WithFormat(format: string, bytes: Result<Bytes, string>): Result<Encoded, string> {
    match bytes
    case Success(b) => Success(Encoded(format, b))
    case Failure(err) => Failure(err)
  }

  /** DecodeData: what a target of the given type is filled with. */
  function Decode(lib: Library, d: Decoder, format: string, bytes: Bytes, ty: Type): Result<Data, string> {
    match d
    case RawDecoder(inner) =>
      if ty.RawType? then Success(RawData(format, bytes))
      else if inner.None? then Failure("No decoder to decode data")
      else Decode(lib, inner.value, format, bytes, ty)
    case PbJsonDecoder =>
      if format == PbFormat then
        if !IsProto(ty) then Failure("PbJsonDecoder can't decode data using pb format")
        else lib.pbUnmarshal(bytes, ty)
      else if format == JsonFormat then
        if IsProto(ty) then lib.protojsonUnmarshal(bytes, ty) else lib.jsonUnmarshal(bytes, ty)
      else Failure("PbJsonDecoder does not support format " + format)
  }

  // ----- format negotiation -----

  /** A requested format is honoured by any nesting of raw encoders over a pb/json encoder. */
  lemma {:induction false} RequestedFormatHonoured(lib: Library, e: Encoder, data: Data, target: string)
    requires target != "" && Encode(lib, e, data, target).Success?
    ensures Encode(lib, e, data, target).value.format == target
  {
    if e.RawEncoder? && !data.RawData? { RequestedFormatHonoured(lib, e.inner.value, data, target); }
  }

  // The format an encoder chooses by itself.
  function NativeFormat(e: Encoder, data: Data): string {
    match e
    case RawEncoder(inner) =>
      if data.RawData? then data.format else if inner.Some? then NativeFormat(inner.value, data) else ""
    case PbJsonEncoder(own) => own
  }

  lemma {:induction false} UnrequestedFormatIsNative(lib: Library, e: Encoder, data: Data)
    requires Encode(lib, e, data, "").Success?
    ensures Encode(lib, e, data, "").value.format == NativeFormat(e, data)
  {
    if e.RawEncoder? && !data.RawData? { UnrequestedFormatIsNative(lib, e.inner.value, data); }
  }

  // ----- round trip -----

  // The innermost encoder, if the nesting does not end in a raw one.
  function BaseEncoder(e: Encoder): (base: Option<Encoder>)
    ensures base.Some? ==> base.value.PbJsonEncoder?
  {
    match e
    case RawEncoder(None) => None
    case RawEncoder(Some(inner)) => BaseEncoder(inner)
    case PbJsonEncoder(_) => Some(e)
  }

  predicate RawAlike(e: Encoder, d: Decoder) {
    e.RawEncoder? <==> d.RawDecoder?
  }

  predicate HasBase(d: Decoder) {
    d.PbJsonDecoder? || (d.inner.Some? && HasBase(d.inner.value))
  }

  // For raw data both sides treat it alike; for any other data the decoder has a pb/json decoder inside.
  predicate Compatible(e: Encoder, d: Decoder, data: Data) {
    if data.RawData? then RawAlike(e, d) else HasBase(d)
  }

  lemma {:induction false} EncodeByBase(lib: Library, e: Encoder, data: Data, target: string)
    requires !(e.RawEncoder? && data.RawData?) && Encode(lib, e, data, target).Success?
    ensures BaseEncoder(e).Some?
    ensures Encode(lib, e, data, target) == Encode(lib, BaseEncoder(e).value, data, target)
  {
    if e.RawEncoder? { EncodeByBase(lib, e.inner.value, data, target); }
  }

  // A decoder treats a type that is not raw as its innermost decoder does, and fails if there is none.
  lemma {:induction false} DecodeByBase(lib: Library, d: Decoder, format: string, bytes: Bytes, ty: Type)
    requires !(d.RawDecoder? && ty.RawType?)
    ensures if HasBase(d) then Decode(lib, d, format, bytes, ty) == Decode(lib, PbJsonDecoder, format, bytes, ty)
            else Decode(lib, d, format, bytes, ty).Failure?
  {
    if d.RawDecoder? && d.inner.Some? { DecodeByBase(lib, d.inner.value, format, bytes, ty); }
  }

  // ----- formats mean libraries -----

  // These bytes are the data in this format: protobuf, or json in the mapping for its type.
  ghost predicate IsEncodingOf(lib: Library, format: string, bytes: Bytes, data: Data) {
    || (format == "pb" && IsProto(TypeOf(data)) && lib.pbMarshal(data) == Success(bytes))
    || (format == "json" && IsProto(TypeOf(data)) && lib.protojsonMarshal(data) == Success(bytes))
    || (format == "json" && !IsProto(TypeOf(data)) && lib.jsonMarshal(data) == Success(bytes))
  }

  /** What encoding yields and when it fails, for any nesting and data that does not bypass it: the bytes are made by the
      library that the format names, in the format asked for or else in that of the innermost encoder; and it
      fails exactly if there is no such encoder, or that library does not make the data into that format. */
  lemma {:induction false} EncodedByItsLibrary(lib: Library, e: Encoder, data: Data, target: string, format: string, bytes: Bytes)
    requires !(e.RawEncoder? && data.RawData?)
    ensures Encode(lib, e, data, target) == Success(Encoded(format, bytes)) <==>
      && BaseEncoder(e).Some?
      && (format == if target != "" then target else BaseEncoder(e).value.format)
      && IsEncodingOf(lib, format, bytes, data)
  {
    if e.RawEncoder? && e.inner.Some? { EncodedByItsLibrary(lib, e.inner.value, data, target, format, bytes); }
  }

  ghost predicate IsDecodingOf(lib: Library, format: string, bytes: Bytes, ty: Type, data: Data) {
    || (format == "pb" && IsProto(ty) && lib.pbUnmarshal(bytes, ty) == Success(data))
    || (format == "json" && IsProto(ty) && lib.protojsonUnmarshal(bytes, ty) == Success(data))
    || (format == "json" && !IsProto(ty) && lib.jsonUnmarshal(bytes, ty) == Success(data))
  }

  /** The same for decoding. */
  lemma {:induction false} DecodedByItsLibrary(lib: Library, d: Decoder, format: string, bytes: Bytes, ty: Type, data: Data)
    requires !(d.RawDecoder? && ty.RawType?)
    ensures Decode(lib, d, format, bytes, ty) == Success(data) <==> HasBase(d) && IsDecodingOf(lib, format, bytes, ty, data)
  {
    if d.RawDecoder? && d.inner.Some? { DecodedByItsLibrary(lib, d.inner.value, format, bytes, ty, data); }
  }

  /** Decoding what was encoded, into a target of the same type, gives the data back, whatever raw encoders and
      decoders are nested on the two sides; for data that is not raw, exactly if the decoder has a pb/json decoder. */
  lemma EncodeDecode(lib: Library, e: Encoder, d: Decoder, data: Data, target: string)
    requires lib.Lossless() && Encode(lib, e, data, target).Success?
    requires data.RawData? ==> RawAlike(e, d)
    ensures var out := Encode(lib, e, data, target).value;
      Decode(lib, d, out.format, out.bytes, TypeOf(data)) == Success(data) <==> Compatible(e, d, data)
  {
    if !(e.RawEncoder? && data.RawData?) {
      EncodeByBase(lib, e, data, target);
      var out := Encode(lib, e, data, target).value;
      DecodeByBase(lib, d, out.format, out.bytes, TypeOf(data));
    }
  }

  /** Raw data passes through: it is written as it is, and reading any bytes raw and writing them again, in the
      same format or in any, changes nothing. */
  lemma RawBypass(lib: Library, e: Encoder, d: Decoder, format: string, bytes: Bytes)
    requires e.RawEncoder? && d.RawDecoder?
    ensures Decode(lib, d, format, bytes, RawType) == Success(RawData(format, bytes))
    ensures Encode(lib, e, RawData(format, bytes), "") == Success(Encoded(format, bytes))
    ensures forall target :: target != "" ==>
      (Encode(lib, e, RawData(format, bytes), target).Success? <==> target == format)
  {
  }

  // ----- the code, writing through its targets -----

  class Target {
    var format: string
    var bytes: Bytes

    constructor (format: string)
      ensures this.format == format && bytes == []
    {
      this.format, bytes := format, [];
    }
  }

  // On an error the targets are left alone.
  method EncodeData(lib: Library, e: Encoder, data: Data, target: Target) returns (err: Option<string>)
    modifies target
    ensures match Encode(lib, e, data, old(target.format))
            case Success(out) => err.None? && target.format == out.format && target.bytes == out.bytes
            case Failure(msg) => err == Some(msg) && unchanged(target)
    decreases e
  {
    match e
    case RawEncoder(inner) =>
      if data.RawData? {
        if target.format != "" && data.format != target.format {
          return Some("TargetFormat is " + target.format + " but src RawData format is " + data.format);
        }
        target.format, target.bytes := data.format, data.bytes;
        return None;
      }
      if inner.None? {
        return Some("No encoder to encode data");
      }
      err := EncodeData(lib, inner.value, data, target);
    case PbJsonEncoder(own) =>
      var format := own;
      if target.format != "" { format := target.format; }
      var b: Result<Bytes, string>;
      if format == PbFormat {
        if !IsProto(TypeOf(data)) {
          return Some("PbJsonEncoder can't encode data using pb format");
        }
        b := lib.pbMarshal(data);
      } else if format == JsonFormat {
        if IsProto(TypeOf(data)) {
          b := lib.protojsonMarshal(data);
        } else {
          b := lib.jsonMarshal(data);
        }
      } else {
        return Some("PbJsonEncoder does not support format " + format);
      }
      if b.Failure? {
        return Some(b.error);
      }
      target.format, target.bytes := format, b.value;
      return None;
  }
}
