/**
 * Record framing (sn_protocol/src/storage/header.rs). A record value is a fixed
 * two-byte `RecordHeader { kind }` followed by the serialised payload.
 *
 * The header is written the way MessagePack writes a one-field struct and a unit
 * enum variant: a one-element array marker followed by the variant's index. The
 * payload codec is abstract: a pair of functions `Codec` that may fail, and whose
 * round-trip is a hypothesis of the lemmas that need it.
 */
module Header {
  import opened Wrappers
  import opened Types

  datatype RecordKind =
    | Chunk
    | ChunkWithPayment
    | Spend
    | Register
    | RegisterWithPayment
    | Scratchpad
    | ScratchpadWithPayment

  datatype RecordHeader = RecordHeader(kind: RecordKind)

  /** The two framing errors of `sn_protocol::Error`. */
  datatype Error = RecordHeaderParsingFailed | RecordParsingFailed

  /** `RecordHeader::SIZE`. */
  const SIZE: nat := 2

  /** MessagePack fixarray marker for an array of one element. */
  const ONE_ELEMENT_ARRAY: byte := 0x91

  /** The `#[repr(u32)]` discriminant, declaration order from 0. */
  function KindIndex(k: RecordKind): byte
  {
    match k
    case Chunk => 0
    case ChunkWithPayment => 1
    case Spend => 2
    case Register => 3
    case RegisterWithPayment => 4
    case Scratchpad => 5
    case ScratchpadWithPayment => 6
  }

  function KindOfIndex(i: byte): (r: Option<RecordKind>)
    ensures r.Some? <==> i < 7
    ensures r.Some? ==> KindIndex(r.value) == i
    ensures forall k :: KindIndex(k) == i ==> r == Some(k)
  {
    if i == 0 then Some(Chunk)
    else if i == 1 then Some(ChunkWithPayment)
    else if i == 2 then Some(Spend)
    else if i == 3 then Some(Register)
    else if i == 4 then Some(RegisterWithPayment)
    else if i == 5 then Some(Scratchpad)
    else if i == 6 then Some(ScratchpadWithPayment)
    else None
  }

  /** The bytes the header of kind `k` is written as. */
  function HeaderBytes(k: RecordKind): seq<byte>
  {
    [ONE_ELEMENT_ARRAY, KindIndex(k)]
  }

  /** `RecordHeader::try_serialize`: the encoding has exactly `SIZE` bytes for every kind. */
  function TrySerialize(h: RecordHeader): (r: Result<seq<byte>, Error>)
    ensures r.Ok? && |r.value| == SIZE
    ensures r.value == HeaderBytes(h.kind)
  {
    Ok([ONE_ELEMENT_ARRAY, KindIndex(h.kind)])
  }

  /**
   * `RecordHeader::try_deserialize`: decodes a header from the front of `bytes`,
   * ignoring what follows; any failure is `RecordHeaderParsingFailed`.
   */
  function TryDeserialize(bytes: seq<byte>): (r: Result<RecordHeader, Error>)
    ensures r.Err? ==> r.error == RecordHeaderParsingFailed
    ensures r.Ok? ==> |bytes| >= SIZE && bytes[..SIZE] == HeaderBytes(r.value.kind)
    ensures forall k :: |bytes| >= SIZE && bytes[..SIZE] == HeaderBytes(k) ==> r == Ok(RecordHeader(k))
  {
    if |bytes| < SIZE || bytes[0] != ONE_ELEMENT_ARRAY then Err(RecordHeaderParsingFailed)
    else match KindOfIndex(bytes[1])
      case Some(k) => Ok(RecordHeader(k))
      case None => Err(RecordHeaderParsingFailed)
  }

  /** `RecordHeader::from_record`: needs at least `SIZE + 1` bytes and reads only those. */
  function FromRecord(record: Record): (r: Result<RecordHeader, Error>)
    ensures |record.value| < SIZE + 1 ==> r == Err(RecordHeaderParsingFailed)
    ensures r.Err? ==> r.error == RecordHeaderParsingFailed
    ensures r.Ok? ==> record.value[0] == ONE_ELEMENT_ARRAY && KindIndex(r.value.kind) == record.value[1]
    ensures |record.value| >= SIZE + 1 ==> r == TryDeserialize(record.value[..SIZE + 1])
  {
    if |record.value| < SIZE + 1 then Err(RecordHeaderParsingFailed)
    else TryDeserialize(record.value[..SIZE + 1])
  }

  /** `RecordHeader::is_record_of_type_chunk`. */
  function IsRecordOfTypeChunk(record: Record): (r: Result<bool, Error>)
    ensures r.Err? <==> FromRecord(record).Err?
    ensures r.Err? ==> r.error == RecordHeaderParsingFailed
    ensures r.Ok? ==> (r.value <==> FromRecord(record).value.kind == Chunk)
  {
    match FromRecord(record)
    case Err(e) => Err(e)
    case Ok(h) => Ok(h.kind == Chunk)
  }

  /** A serde codec for payloads of type `T`, as `rmp_serde` provides one. */
  datatype Codec<!T> = Codec(encode: T -> Option<seq<byte>>, decode: seq<byte> -> Option<T>)

  /**
   * What the payload codec is trusted to do: every successful encoding is
   * non-empty and decodes back to the value encoded.
   */
  ghost predicate RoundTrips<T(!new)>(c: Codec<T>)
  {
    forall d {:trigger c.encode(d)} :: c.encode(d).Some? ==>
      |c.encode(d).value| > 0 && c.decode(c.encode(d).value) == Some(d)
  }

  /** `try_serialize_record`: the header of `kind` followed by the payload's encoding. */
  function TrySerializeRecord<T>(c: Codec<T>, data: T, kind: RecordKind): (r: Result<seq<byte>, Error>)
    ensures r.Ok? <==> c.encode(data).Some?
    ensures r.Err? ==> r.error == RecordParsingFailed
    ensures r.Ok? ==> r.value == HeaderBytes(kind) + c.encode(data).value
    ensures r.Ok? ==> |r.value| >= SIZE && r.value[..SIZE] == HeaderBytes(kind)
  {
    match TrySerialize(RecordHeader(kind))
    case Err(e) => Err(e)
    case Ok(header) =>
      match c.encode(data)
      case None => Err(RecordParsingFailed)
      case Some(payload) => Ok(header + payload)
  }

  /** `try_deserialize_record`: decodes only the bytes after offset `SIZE`. */
  function TryDeserializeRecord<T>(c: Codec<T>, record: Record): (r: Result<T, Error>)
    ensures |record.value| <= SIZE ==> r == Err(RecordParsingFailed)
    ensures r.Err? ==> r.error == RecordParsingFailed
    ensures r.Ok? <==> |record.value| > SIZE && c.decode(record.value[SIZE..]).Some?
    ensures r.Ok? ==> Some(r.value) == c.decode(record.value[SIZE..])
  {
    if |record.value| > SIZE then
      match c.decode(record.value[SIZE..])
      case None => Err(RecordParsingFailed)
      case Some(d) => Ok(d)
    else Err(RecordParsingFailed)
  }

  /** Distinct kinds have distinct headers, so the header alone identifies the kind. */
  lemma HeaderInjective(k1: RecordKind, k2: RecordKind)
    requires HeaderBytes(k1) == HeaderBytes(k2)
    ensures k1 == k2
  {
    assert HeaderBytes(k1)[1] == HeaderBytes(k2)[1];
  }

  /** Header round trip, for every kind. */
  lemma HeaderRoundTrip(h: RecordHeader)
    ensures TryDeserialize(TrySerialize(h).value) == Ok(h)
  {
    assert TrySerialize(h).value[..SIZE] == HeaderBytes(h.kind);
  }

  /**
   * The header of a serialised record is recovered by `from_record` whenever the
   * payload encoding is non-empty, and it does not depend on the payload.
   */
  lemma FromRecordOfSerialized<T>(c: Codec<T>, data: T, kind: RecordKind, key: RecordKey)
    requires c.encode(data).Some? && |c.encode(data).value| > 0
    ensures TrySerializeRecord(c, data, kind).Ok?
    ensures FromRecord(Record(key, TrySerializeRecord(c, data, kind).value)) == Ok(RecordHeader(kind))
  {
    var v := TrySerializeRecord(c, data, kind).value;
    assert v[..SIZE + 1][..SIZE] == HeaderBytes(kind);
  }

  /** Payload round trip: `try_deserialize_record(try_serialize_record(d, k)) == d`. */
  lemma PayloadRoundTrip<T(!new)>(c: Codec<T>, data: T, kind: RecordKind, key: RecordKey)
    requires RoundTrips(c)
    requires c.encode(data).Some?
    ensures TrySerializeRecord(c, data, kind).Ok?
    ensures TryDeserializeRecord(c, Record(key, TrySerializeRecord(c, data, kind).value)) == Ok(data)
  {
    var v := TrySerializeRecord(c, data, kind).value;
    assert v[SIZE..] == c.encode(data).value;
  }

  /** A record of kind `ChunkWithPayment` is not a chunk in the sense of `is_record_of_type_chunk`. */
  lemma IsChunkExactlyForChunk<T>(c: Codec<T>, data: T, kind: RecordKind, key: RecordKey)
    requires c.encode(data).Some? && |c.encode(data).value| > 0
    ensures IsRecordOfTypeChunk(Record(key, TrySerializeRecord(c, data, kind).value)) == Ok(kind == Chunk)
  {
    FromRecordOfSerialized(c, data, kind, key);
  }
}
