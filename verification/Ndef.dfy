/** The type-length-value area of a tag and the NDEF records in it. */
module Ndef {
  import opened Text
  import opened Bytes

  datatype Error =
    | MissingNdefTlv | InvalidTlv | InvalidNdef | ChunkedRecord | MissingOpenPrintTagRecord
    | InvalidCbor | InvalidMetaRegion | InvalidMainRegion | InvalidAuxRegion | MissingMaterialClass

  const MIME_TYPE: Octets := Ascii("application/vnd.openprinttag")

  const NULL_TLV: byte := 0x00
  const NDEF_TLV: byte := 0x03
  const TERMINATOR_TLV: byte := 0xfe

  // ---- Type-length-value blocks ----

  /** The length field of a block and its size, if complete. */
  function ReadLength(d: Octets): Option<(nat, nat)> {
    if d == [] then None
    else if d[0] == 0xff then if |d| < 3 then None else Some((BigEndian(d[1..3]), 3))
    else Some((d[0], 1))
  }

  datatype BlockView = BlockView(value: Octets, size: nat)

  /** The value of the block at the start, and the distance to the next one. */
  function ReadBlock(d: Octets): (r: Result<BlockView, Error>)
    requires d != []
    ensures r.Ok? ==> 0 < r.value.size <= |d|
  {
    match ReadLength(d[1..])
    case None => Err(InvalidTlv)
    case Some((length, size)) =>
      if 1 + size + length > |d| then Err(InvalidTlv)
      else Ok(BlockView(d[1 + size..1 + size + length], 1 + size + length))
  }

  /** The NDEF message in what is left of the area. */
  function MessageIn(d: Octets): Result<Octets, Error>
    decreases |d|
  {
    if d == [] then Err(MissingNdefTlv)
    else if d[0] == NULL_TLV then MessageIn(d[1..])
    else if d[0] == TERMINATOR_TLV then Err(MissingNdefTlv)
    else match ReadBlock(d)
      case Err(e) => Err(e)
      case Ok(block) => if d[0] == NDEF_TLV then Ok(block.value) else MessageIn(d[block.size..])
  }

  /** Where the area starts, after a capability container of four or eight bytes. */
  function AreaStart(memory: Octets): Option<nat> {
    if memory != [] && memory[0] == 0xe1 && |memory| >= 4 then Some(4)
    else if memory != [] && memory[0] == 0xe2 && |memory| >= 8 then Some(8)
    else None
  }

  function MessageOf(memory: Octets): Result<Octets, Error> {
    match AreaStart(memory)
    case None => Err(MissingNdefTlv)
    case Some(start) => MessageIn(memory[start..])
  }

  /** The turn of the loop for a block with a length. */
  method BlockAt(memory: Octets, at: nat) returns (r: Result<BlockView, Error>)
    requires at < |memory|
    ensures r == ReadBlock(memory[at..])
  {
    var cursor := at + 1;
    var length: nat, size: nat;
    TailOfTail(memory, at, 1);
    if cursor < |memory| && memory[cursor] == 0xff {
      if cursor + 3 > |memory| {
        return Err(InvalidTlv);
      }
      SliceOfTail(memory, cursor, 1, 3);
      length, size := BigEndian(memory[cursor + 1..cursor + 3]), 3;
    } else {
      if cursor >= |memory| {
        return Err(InvalidTlv);
      }
      length, size := memory[cursor], 1;
    }
    cursor := cursor + size;
    var end := cursor + length;
    if end > |memory| {
      return Err(InvalidTlv);
    }
    SliceOfTail(memory, at, 1 + size, 1 + size + length);
    return Ok(BlockView(memory[cursor..end], end - at));
  }

  /** `find_ndef_message` */
  method FindNdefMessage(memory: Octets) returns (r: Result<Octets, Error>)
    ensures r == MessageOf(memory)
  {
    var start := AreaStart(memory);
    if start.None? {
      return Err(MissingNdefTlv);
    }
    var cursor := start.value;
    ghost var d := memory[cursor..];
    while cursor < |memory|
      invariant cursor <= |memory|
      invariant MessageOf(memory) == MessageIn(d) && d == memory[cursor..]
    {
      var tag := memory[cursor];
      if tag == NULL_TLV {
        cursor := cursor + 1;
        d := d[1..];
        continue;
      }
      if tag == TERMINATOR_TLV {
        break;
      }
      var block := BlockAt(memory, cursor);
      if block.Err? {
        return Err(block.error);
      }
      if tag == NDEF_TLV {
        return Ok(block.value.value);
      }
      cursor := cursor + block.value.size;
      d := d[block.value.size..];
    }
    return Err(MissingNdefTlv);
  }

  /** A block to be written, with a one-byte or a three-byte length. */
  datatype Tlv = Null | Block(tag: byte, value: Octets, long: bool)

  predicate IsTlv(t: Tlv) {
    t.Block? ==>
      && t.tag != NULL_TLV && t.tag != TERMINATOR_TLV
      && |t.value| < (if t.long then 0x1_0000 else 0xff)
  }

  function PutTlv(t: Tlv): Octets {
    match t
    case Null => [NULL_TLV]
    case Block(tag, value, long) =>
      if long then [tag, 0xff] + ToBigEndian(|value|, 2) + value
      else [tag, if |value| < 0xff then |value| else 0] + value
  }

  function PutTlvs(ts: seq<Tlv>): Octets {
    if ts == [] then [] else PutTlv(ts[0]) + PutTlvs(ts[1..])
  }

  function LengthField(t: Tlv): Octets
    requires t.Block? && IsTlv(t)
  {
    if t.long then [0xff] + ToBigEndian(|t.value|, 2) else [|t.value|]
  }

  lemma LengthRoundTrip(t: Tlv, rest: Octets)
    requires t.Block? && IsTlv(t)
    ensures ReadLength(LengthField(t) + rest) == Some((|t.value|, |LengthField(t)|))
  {
    if t.long {
      Powers();
      BigEndianRoundTrip(|t.value|, 2);
      PartOfConcat([0xff], ToBigEndian(|t.value|, 2), rest);
      assert LengthField(t) + rest == [0xff] + (ToBigEndian(|t.value|, 2) + rest);
    }
  }

  lemma BlockRoundTrip(t: Tlv, rest: Octets)
    requires t.Block? && IsTlv(t)
    ensures ReadBlock(PutTlv(t) + rest) == Ok(BlockView(t.value, |PutTlv(t)|))
    ensures (PutTlv(t) + rest)[|PutTlv(t)|..] == rest
  {
    var head := [t.tag] + LengthField(t);
    assert PutTlv(t) + rest == head + (t.value + rest);
    PartOfConcat(head, t.value, rest);
    LengthRoundTrip(t, t.value + rest);
    assert (PutTlv(t) + rest)[1..] == LengthField(t) + (t.value + rest);
  }

  lemma {:induction false} OtherBlocksAreSkipped(ts: seq<Tlv>, rest: Octets)
    requires forall i :: 0 <= i < |ts| ==> IsTlv(ts[i]) && (ts[i].Block? ==> ts[i].tag != NDEF_TLV)
    ensures MessageIn(PutTlvs(ts) + rest) == MessageIn(rest)
  {
    if ts == [] {
      assert PutTlvs(ts) + rest == rest;
    } else {
      var after := PutTlvs(ts[1..]) + rest;
      assert PutTlvs(ts) + rest == PutTlv(ts[0]) + after;
      OtherBlocksAreSkipped(ts[1..], rest);
      if ts[0].Null? {
        assert (PutTlv(ts[0]) + after)[1..] == after;
      } else {
        BlockRoundTrip(ts[0], after);
      }
    }
  }

  /** Whatever other blocks and padding come first and whatever follows, the message that was written is
      the message that is found. */
  lemma MessageRoundTrip(container: Octets, others: seq<Tlv>, message: Octets, long: bool, rest: Octets)
    requires |container| > 0
    requires (container[0] == 0xe1 && |container| == 4) || (container[0] == 0xe2 && |container| == 8)
    requires forall i :: 0 <= i < |others| ==> IsTlv(others[i]) && (others[i].Block? ==> others[i].tag != NDEF_TLV)
    requires IsTlv(Block(NDEF_TLV, message, long))
    ensures MessageOf(container + (PutTlvs(others) + (PutTlv(Block(NDEF_TLV, message, long)) + rest))) == Ok(message)
  {
    var area := PutTlvs(others) + (PutTlv(Block(NDEF_TLV, message, long)) + rest);
    assert (container + area)[|container|..] == area;
    OtherBlocksAreSkipped(others, PutTlv(Block(NDEF_TLV, message, long)) + rest);
    BlockRoundTrip(Block(NDEF_TLV, message, long), rest);
  }

  // ---- Records ----

  predicate Flag(header: byte, bit: nat)
    requires bit > 0
  {
    header / bit % 2 == 1
  }

  /** What a walker sees of a record; `size` is the distance to the next one. */
  datatype View = View(tnf: nat, last: bool, recordType: Octets, payload: Octets, size: nat)

  /** The payload length field and where it ends. */
  function ReadPayloadLength(d: Octets, short: bool): Option<(nat, nat)> {
    if short then if |d| < 3 then None else Some((d[2], 3))
    else if |d| < 6 then None else Some((BigEndian(d[2..6]), 6))
  }

  /** The record at the start (section 3.2 of the NDEF 1.0 specification). */
  function ReadRecord(d: Octets): (r: Result<View, Error>)
    requires d != []
    ensures r.Ok? ==> 0 < r.value.size <= |d|
  {
    var header := d[0];
    if Flag(header, 0x20) then Err(ChunkedRecord)
    else if |d| < 2 then Err(InvalidNdef)
    else match ReadPayloadLength(d, Flag(header, 0x10))
      case None => Err(InvalidNdef)
      case Some((payloadLength, p)) =>
        if Flag(header, 0x08) && |d| <= p then Err(InvalidNdef)
        else
          var idLength := if Flag(header, 0x08) then d[p] else 0;
          var start := if Flag(header, 0x08) then p + 1 else p;
          var payloadStart := start + d[1] + idLength;
          if payloadStart + payloadLength > |d| then Err(InvalidNdef)
          else Ok(View(header % 8, Flag(header, 0x40), d[start..start + d[1]],
                       d[payloadStart..payloadStart + payloadLength], payloadStart + payloadLength))
  }

  datatype Walk = Walk(records: seq<View>, broken: Option<Error>)

  /** All records up to and including the first with the message-end flag, or up to the first that is
      malformed. */
  function WalkFrom(d: Octets): Walk
    decreases |d|
  {
    if d == [] then Walk([], None)
    else match ReadRecord(d)
      case Err(e) => Walk([], Some(e))
      case Ok(v) =>
        if v.last then Walk([v], None)
        else var rest := WalkFrom(d[v.size..]); Walk([v] + rest.records, rest.broken)
  }

  predicate IsOpenPrintTag(v: View) {
    v.tnf == 2 && v.recordType == MIME_TYPE
  }

  function FirstPayload(w: Walk): Result<Octets, Error>
    decreases |w.records|
  {
    if w.records == [] then Err(if w.broken.Some? then w.broken.value else MissingOpenPrintTagRecord)
    else if IsOpenPrintTag(w.records[0]) then Ok(w.records[0].payload)
    else FirstPayload(Walk(w.records[1..], w.broken))
  }

  /** One turn of the loop of `find_openprinttag_payload`. */
  method NextRecord(message: Octets, at: nat) returns (r: Result<View, Error>)
    requires at < |message|
    ensures r == ReadRecord(message[at..])
  {
    var cursor := at;
    var header := message[cursor];
    cursor := cursor + 1;
    if Flag(header, 0x20) {
      return Err(ChunkedRecord);
    }
    if cursor >= |message| {
      return Err(InvalidNdef);
    }
    var typeLength: nat := message[cursor];
    cursor := cursor + 1;
    var payloadLength: nat;
    if Flag(header, 0x10) {
      if cursor >= |message| {
        return Err(InvalidNdef);
      }
      payloadLength := message[cursor];
      cursor := cursor + 1;
    } else {
      if cursor + 4 > |message| {
        return Err(InvalidNdef);
      }
      SliceOfTail(message, at, 2, 6);
      payloadLength := BigEndian(message[cursor..cursor + 4]);
      cursor := cursor + 4;
    }
    var idLength: nat := 0;
    if Flag(header, 0x08) {
      if cursor >= |message| {
        return Err(InvalidNdef);
      }
      idLength := message[cursor];
      cursor := cursor + 1;
    }
    var recordEnd := cursor + typeLength + idLength + payloadLength;
    if recordEnd > |message| {
      return Err(InvalidNdef);
    }
    var recordType := message[cursor..cursor + typeLength];
    SliceOfTail(message, at, cursor - at, cursor - at + typeLength);
    cursor := cursor + typeLength + idLength;
    var payload := message[cursor..cursor + payloadLength];
    SliceOfTail(message, at, cursor - at, cursor - at + payloadLength);
    return Ok(View(header % 8, Flag(header, 0x40), recordType, payload, recordEnd - at));
  }

  /** The search from a record on, one record unfolded. */
  function PayloadFrom(d: Octets, record: Result<View, Error>): Result<Octets, Error>
    requires record.Ok? ==> record.value.size <= |d|
  {
    match record
    case Err(e) => Err(e)
    case Ok(v) =>
      if IsOpenPrintTag(v) then Ok(v.payload)
      else if v.last then Err(MissingOpenPrintTagRecord)
      else FirstPayload(WalkFrom(d[v.size..]))
  }

  lemma PayloadStep(d: Octets)
    requires d != []
    ensures FirstPayload(WalkFrom(d)) == PayloadFrom(d, ReadRecord(d))
  {
    if ReadRecord(d).Ok? {
      var v := ReadRecord(d).value;
      var rest := if v.last then Walk([], None) else WalkFrom(d[v.size..]);
      assert WalkFrom(d) == Walk([v] + rest.records, rest.broken);
      assert ([v] + rest.records)[1..] == rest.records;
    }
  }

  /** `find_openprinttag_payload` */
  method FindOpenPrintTagPayload(message: Octets) returns (r: Result<Octets, Error>)
    ensures r == FirstPayload(WalkFrom(message))
  {
    var cursor := 0;
    ghost var d := message;
    while cursor < |message|
      invariant cursor <= |message|
      invariant FirstPayload(WalkFrom(message)) == FirstPayload(WalkFrom(d)) && d == message[cursor..]
    {
      PayloadStep(d);
      var record := NextRecord(message, cursor);
      if record.Err? {
        return Err(record.error);
      }
      var v := record.value;
      TailOfTail(message, cursor, v.size);
      if IsOpenPrintTag(v) {
        return Ok(v.payload);
      }
      cursor := cursor + v.size;
      d := d[v.size..];
      if v.last {
        break;
      }
    }
    return Err(MissingOpenPrintTagRecord);
  }

  // ---- URI records ----

  function UriPrefix(code: byte): Option<string> {
    var prefixes := [
      "", "http://www.", "https://www.", "http://", "https://", "tel:", "mailto:", "ftp://anonymous:anonymous@",
      "ftp://ftp.", "ftps://", "sftp://", "smb://", "nfs://", "ftp://", "dav://", "news:", "telnet://", "imap:",
      "rtsp://", "urn:", "pop:", "sip:", "sips:", "tftp:", "btspp://", "btl2cap://", "btgoep://", "tcpobex://",
      "irdaobex://", "file://", "urn:epc:id:", "urn:epc:tag:", "urn:epc:pat:", "urn:epc:raw:", "urn:epc:", "urn:nfc:"];
    if code < |prefixes| then Some(prefixes[code]) else None
  }

  /** `decode_ndef_uri` */
  function DecodeUri(payload: Octets): Option<Octets> {
    if payload == [] || UriPrefix(payload[0]).None? || !IsUtf8(payload[1..]) then None
    else Some(Ascii(UriPrefix(payload[0]).value) + payload[1..])
  }

  /** What a record says about the tag's address. A smart poster holds records of its own, one level deep. */
  function UriIn(v: View, allowSmartPoster: bool): Option<Octets>
    decreases allowSmartPoster, 0
  {
    if v.tnf == 1 && v.recordType == Ascii("U") then DecodeUri(v.payload)
    else if allowSmartPoster && v.tnf == 1 && v.recordType == Ascii("Sp")
      then FirstUri(WalkFrom(v.payload).records, false)
    else None
  }

  function FirstUri(records: seq<View>, allowSmartPoster: bool): Option<Octets>
    decreases allowSmartPoster, 1, |records|
  {
    if records == [] then None
    else match UriIn(records[0], allowSmartPoster)
      case Some(uri) => Some(uri)
      case None => FirstUri(records[1..], allowSmartPoster)
  }

  function UriFrom(d: Octets, record: Result<View, Error>, allowSmartPoster: bool): Option<Octets>
    requires record.Ok? ==> record.value.size <= |d|
  {
    match record
    case Err(_) => None
    case Ok(v) =>
      if UriIn(v, allowSmartPoster).Some? then UriIn(v, allowSmartPoster)
      else if v.last then None
      else FirstUri(WalkFrom(d[v.size..]).records, allowSmartPoster)
  }

  lemma UriStep(d: Octets, allowSmartPoster: bool)
    requires d != []
    ensures FirstUri(WalkFrom(d).records, allowSmartPoster) == UriFrom(d, ReadRecord(d), allowSmartPoster)
  {
    if ReadRecord(d).Ok? {
      var v := ReadRecord(d).value;
      var rest := if v.last then [] else WalkFrom(d[v.size..]).records;
      assert WalkFrom(d).records == [v] + rest;
      assert ([v] + rest)[1..] == rest;
    }
  }

  /** One turn of the loop of `find_ndef_uri_inner`, which reads its records with code of its own. */
  method NextUriRecord(message: Octets, at: nat) returns (r: Option<View>)
    requires at < |message|
    ensures var record := ReadRecord(message[at..]); r == if record.Ok? then Some(record.value) else None
  {
    var cursor := at;
    var header := message[cursor];
    cursor := cursor + 1;
    if Flag(header, 0x20) {
      return None;
    }
    var short, hasId, tnf: nat := Flag(header, 0x10), Flag(header, 0x08), header % 8;
    if cursor >= |message| {
      return None;
    }
    var typeLength: nat := message[cursor];
    cursor := cursor + 1;
    var payloadLength: nat := 0;
    if short {
      if cursor >= |message| {
        return None;
      }
      payloadLength := message[cursor];
      cursor := cursor + 1;
    } else {
      if cursor + 4 > |message| {
        return None;
      }
      SliceOfTail(message, at, 2, 6);
      payloadLength := BigEndian(message[cursor..cursor + 4]);
      cursor := cursor + 4;
    }
    var idLength: nat := 0;
    if hasId {
      if cursor >= |message| {
        return None;
      }
      idLength := message[cursor];
      cursor := cursor + 1;
    }
    var recordEnd := cursor + typeLength + idLength + payloadLength;
    if recordEnd > |message| {
      return None;
    }
    var recordType := message[cursor..cursor + typeLength];
    SliceOfTail(message, at, cursor - at, cursor - at + typeLength);
    cursor := cursor + typeLength + idLength;
    var payload := message[cursor..cursor + payloadLength];
    SliceOfTail(message, at, cursor - at, cursor - at + payloadLength);
    return Some(View(tnf, Flag(header, 0x40), recordType, payload, recordEnd - at));
  }

  /** `find_ndef_uri_inner`: over every byte string it visits the records `find_openprinttag_payload` visits. */
  method FindNdefUri(message: Octets, allowSmartPoster: bool) returns (r: Option<Octets>)
    ensures r == FirstUri(WalkFrom(message).records, allowSmartPoster)
    decreases allowSmartPoster
  {
    var cursor := 0;
    ghost var d := message;
    while cursor < |message|
      invariant cursor <= |message|
      invariant FirstUri(WalkFrom(message).records, allowSmartPoster)
             == FirstUri(WalkFrom(d).records, allowSmartPoster) && d == message[cursor..]
    {
      UriStep(d, allowSmartPoster);
      var record := NextUriRecord(message, cursor);
      if record.None? {
        return None;
      }
      var v := record.value;
      TailOfTail(message, cursor, v.size);
      if v.tnf == 1 && v.recordType == Ascii("U") {
        var uri := DecodeUri(v.payload);
        if uri.Some? {
          return uri;
        }
      } else if allowSmartPoster && v.tnf == 1 && v.recordType == Ascii("Sp") {
        var uri := FindNdefUri(v.payload, false);
        if uri.Some? {
          return uri;
        }
      }
      cursor := cursor + v.size;
      d := d[v.size..];
      if v.last {
        break;
      }
    }
    return None;
  }

  // ---- Writing records ----

  datatype Record = Record(first: bool, last: bool, short: bool, tnf: nat, recordType: Octets, id: Option<Octets>,
                           payload: Octets)

  predicate IsRecord(r: Record) {
    && r.tnf < 8 && |r.recordType| < 0x100
    && (r.id.Some? ==> |r.id.value| < 0x100)
    && |r.payload| < (if r.short then 0x100 else 0x1_0000_0000)
  }

  function Bit(b: bool, value: nat): nat {
    if b then value else 0
  }

  function HeaderOf(r: Record): byte
    requires IsRecord(r)
  {
    Bit(r.first, 0x80) + Bit(r.last, 0x40) + Bit(r.short, 0x10) + Bit(r.id.Some?, 0x08) + r.tnf
  }

  /** Everything in front of the type. */
  function PutLengths(r: Record): Octets
    requires IsRecord(r)
  {
    [HeaderOf(r), |r.recordType|]
    + ToBigEndian(|r.payload|, if r.short then 1 else 4)
    + (if r.id.Some? then [|r.id.value|] else [])
  }

  function PutRecord(r: Record): Octets
    requires IsRecord(r)
  {
    PutLengths(r) + r.recordType + (if r.id.Some? then r.id.value else []) + r.payload
  }

  function PutRecords(rs: seq<Record>): Octets
    requires forall i :: 0 <= i < |rs| ==> IsRecord(rs[i])
  {
    if rs == [] then [] else PutRecord(rs[0]) + PutRecords(rs[1..])
  }

  function Seen(r: Record): View
    requires IsRecord(r)
  {
    View(r.tnf, r.last, r.recordType, r.payload, |PutRecord(r)|)
  }

  lemma HeaderBits(r: Record)
    requires IsRecord(r)
    ensures var h := HeaderOf(r);
      && !Flag(h, 0x20) && Flag(h, 0x40) == r.last && Flag(h, 0x10) == r.short && Flag(h, 0x08) == r.id.Some?
      && h % 8 == r.tnf
  {
    var h: nat := HeaderOf(r);
    var first, last, short, id := Bit(r.first, 1), Bit(r.last, 1), Bit(r.short, 1), Bit(r.id.Some?, 1);
    assert h == 0x80 * first + 0x40 * last + 0x10 * short + 0x08 * id + r.tnf;
    assert h / 0x40 == 2 * first + last;
    assert h / 0x20 == 2 * (2 * first + last);
    assert h / 0x10 == 2 * (4 * first + 2 * last) + short;
    assert h / 0x08 == 2 * (8 * first + 4 * last + short) + id;
  }

  lemma PayloadLengthRoundTrip(r: Record, tail: Octets)
    requires IsRecord(r)
    ensures var width := if r.short then 1 else 4;
      ReadPayloadLength([HeaderOf(r), |r.recordType|] + ToBigEndian(|r.payload|, width) + tail, r.short)
        == Some((|r.payload|, 2 + width))
  {
    var width := if r.short then 1 else 4;
    var d := [HeaderOf(r), |r.recordType|] + ToBigEndian(|r.payload|, width) + tail;
    Powers();
    BigEndianRoundTrip(|r.payload|, width);
    assert d[2..2 + width] == ToBigEndian(|r.payload|, width);
    if r.short {
      assert ToBigEndian(|r.payload|, 1) == [d[2]];
      assert BigEndian([d[2]]) == 256 * BigEndian([d[2]][..0]) + d[2];
    }
  }

  /** A written record around its type and around its payload. */
  lemma RecordParts(r: Record, rest: Octets)
    requires IsRecord(r)
    ensures var fields := PutLengths(r);
      var id := if r.id.Some? then r.id.value else [];
      && PutRecord(r) + rest == fields + (r.recordType + (id + r.payload + rest))
      && PutRecord(r) + rest == fields + r.recordType + id + (r.payload + rest)
      && |PutRecord(r)| == |fields + r.recordType + id| + |r.payload|
  {
  }

  lemma LengthsRoundTrip(r: Record, tail: Octets)
    requires IsRecord(r)
    ensures var d := PutLengths(r) + tail;
      var width := if r.short then 1 else 4;
      && |d| >= 2 && d[0] == HeaderOf(r) && d[1] == |r.recordType|
      && ReadPayloadLength(d, r.short) == Some((|r.payload|, 2 + width))
      && (r.id.Some? ==> d[2 + width] == |r.id.value|)
      && |PutLengths(r)| == 2 + width + if r.id.Some? then 1 else 0
  {
    var width := if r.short then 1 else 4;
    var idLength := if r.id.Some? then [|r.id.value|] else [];
    assert PutLengths(r) + tail == [HeaderOf(r), |r.recordType|] + ToBigEndian(|r.payload|, width) + (idLength + tail);
    PayloadLengthRoundTrip(r, idLength + tail);
  }

  lemma RecordRoundTrip(r: Record, rest: Octets)
    requires IsRecord(r)
    ensures ReadRecord(PutRecord(r) + rest) == Ok(Seen(r))
    ensures (PutRecord(r) + rest)[|PutRecord(r)|..] == rest
  {
    var id := if r.id.Some? then r.id.value else [];
    HeaderBits(r);
    RecordParts(r, rest);
    LengthsRoundTrip(r, r.recordType + (id + r.payload + rest));
    PartOfConcat(PutLengths(r), r.recordType, id + r.payload + rest);
    PartOfConcat(PutLengths(r) + r.recordType + id, r.payload, rest);
  }

  /** The records up to and including the first one flagged as last. */
  function UpToLast(rs: seq<Record>): (some: seq<Record>)
    ensures forall r :: r in some ==> r in rs
  {
    if rs == [] then [] else if rs[0].last then [rs[0]] else [rs[0]] + UpToLast(rs[1..])
  }

  function SeenAll(rs: seq<Record>): seq<View>
    requires forall i :: 0 <= i < |rs| ==> IsRecord(rs[i])
  {
    if rs == [] then [] else [Seen(rs[0])] + SeenAll(rs[1..])
  }

  /** Walking over written records sees exactly those up to the first message end. */
  lemma {:induction false} WalkRoundTrip(rs: seq<Record>)
    requires forall i :: 0 <= i < |rs| ==> IsRecord(rs[i])
    ensures forall i :: 0 <= i < |UpToLast(rs)| ==> IsRecord(UpToLast(rs)[i])
    ensures WalkFrom(PutRecords(rs)) == Walk(SeenAll(UpToLast(rs)), None)
  {
    if rs != [] {
      var after := PutRecords(rs[1..]);
      RecordRoundTrip(rs[0], after);
      if rs[0].last {
        assert SeenAll([rs[0]]) == [Seen(rs[0])] by {
          assert [rs[0]][1..] == [];
        }
      } else {
        WalkRoundTrip(rs[1..]);
        var up := [rs[0]] + UpToLast(rs[1..]);
        assert up[1..] == UpToLast(rs[1..]);
      }
    }
  }

  predicate IsOpenPrintTagRecord(r: Record) {
    r.tnf == 2 && r.recordType == MIME_TYPE
  }

  function FirstWritten(rs: seq<Record>): Result<Octets, Error> {
    if rs == [] then Err(MissingOpenPrintTagRecord)
    else if IsOpenPrintTagRecord(rs[0]) then Ok(rs[0].payload)
    else FirstWritten(rs[1..])
  }

  lemma {:induction false} FirstOfSeen(rs: seq<Record>)
    requires forall i :: 0 <= i < |rs| ==> IsRecord(rs[i])
    ensures FirstPayload(Walk(SeenAll(rs), None)) == FirstWritten(rs)
  {
    if rs != [] {
      FirstOfSeen(rs[1..]);
      assert SeenAll(rs)[1..] == SeenAll(rs[1..]);
    }
  }

  /** For every list of records, in short or long form, with or without ids: what is found is the payload
      of the first OpenPrintTag record at or before the first message end. */
  lemma PayloadRoundTrip(rs: seq<Record>)
    requires forall i :: 0 <= i < |rs| ==> IsRecord(rs[i])
    ensures FirstPayload(WalkFrom(PutRecords(rs))) == FirstWritten(UpToLast(rs))
  {
    WalkRoundTrip(rs);
    FirstOfSeen(UpToLast(rs));
  }
}
