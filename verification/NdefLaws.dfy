/** What becomes of a tag area or a message that ends early or is malformed, and which record gives the address. */
module NdefLaws {
  import opened Text
  import opened Bytes
  import opened Ndef

  // ---- The area ----

  /** Only two capability containers are known. */
  lemma OtherContainersAreRefused(memory: Octets)
    requires memory == [] || memory[0] !in {0xe1, 0xe2} || |memory| < 4 || (memory[0] == 0xe2 && |memory| < 8)
    ensures MessageOf(memory) == Err(MissingNdefTlv)
  {
  }

  ghost predicate IsContainer(container: Octets) {
    container != [] && ((container[0] == 0xe1 && |container| == 4) || (container[0] == 0xe2 && |container| == 8))
  }

  ghost predicate AreOthers(others: seq<Tlv>) {
    forall i :: 0 <= i < |others| ==> IsTlv(others[i]) && (others[i].Block? ==> others[i].tag != 0x03)
  }

  lemma AreaFollows(container: Octets, others: seq<Tlv>, rest: Octets)
    requires IsContainer(container) && AreOthers(others)
    ensures MessageOf(container + (PutTlvs(others) + rest)) == MessageIn(rest)
  {
    assert (container + (PutTlvs(others) + rest))[|container|..] == PutTlvs(others) + rest;
    OtherBlocksAreSkipped(others, rest);
  }

  /** Nothing behind a terminator is read, and an area without a message has none. */
  lemma AreaEnds(container: Octets, others: seq<Tlv>, rest: Octets)
    requires IsContainer(container) && AreOthers(others)
    ensures MessageOf(container + (PutTlvs(others) + ([0xfe] + rest))) == Err(MissingNdefTlv)
    ensures MessageOf(container + (PutTlvs(others) + [])) == Err(MissingNdefTlv)
  {
    AreaFollows(container, others, [0xfe] + rest);
    AreaFollows(container, others, []);
  }

  lemma CutLength(t: Tlv, n: nat)
    requires t.Block? && IsTlv(t) && n < |LengthField(t) + t.value|
    ensures var d := (LengthField(t) + t.value)[..n];
      ReadLength(d) == if n < |LengthField(t)| then None else Some((|t.value|, |LengthField(t)|))
  {
    var field := LengthField(t);
    var d := (field + t.value)[..n];
    if n >= |field| {
      assert d == field + t.value[..n - |field|];
      LengthRoundTrip(t, t.value[..n - |field|]);
    } else if n > 0 {
      assert d[0] == field[0];
    }
  }

  lemma BlockIs(t: Tlv)
    requires t.Block? && IsTlv(t)
    ensures PutTlv(t) == [t.tag] + (LengthField(t) + t.value)
  {
  }

  lemma CutTail(first: byte, d: Octets, n: nat)
    requires 0 < n <= 1 + |d|
    ensures ([first] + d)[..n][0] == first && ([first] + d)[..n][1..] == d[..n - 1]
  {
  }

  lemma CutBlock(t: Tlv, n: nat)
    requires t.Block? && IsTlv(t) && 0 < n < |PutTlv(t)|
    ensures ReadBlock(PutTlv(t)[..n]) == Err(InvalidTlv)
  {
    BlockIs(t);
    CutTail(t.tag, LengthField(t) + t.value, n);
    CutLength(t, n - 1);
  }

  /** A block that is cut short is an error, not an end. */
  lemma CutBlockIsInvalid(container: Octets, others: seq<Tlv>, t: Tlv, n: nat)
    requires IsContainer(container) && AreOthers(others) && t.Block? && IsTlv(t) && 0 < n < |PutTlv(t)|
    ensures MessageOf(container + (PutTlvs(others) + PutTlv(t)[..n])) == Err(InvalidTlv)
  {
    var d := PutTlv(t)[..n];
    CutBlock(t, n);
    assert d[0] == t.tag;
    AreaFollows(container, others, d);
  }

  // ---- Records ----

  lemma ChunkedIsRefused(d: Octets)
    requires d != [] && d[0] / 32 % 2 == 1
    ensures ReadRecord(d) == Err(ChunkedRecord)
  {
  }

  lemma HeaderOfCut(r: Record, n: nat)
    requires IsRecord(r) && 0 < n < |PutRecord(r)|
    ensures var d := PutRecord(r)[..n];
      && d[0] == HeaderOf(r) && (n >= 2 ==> d[1] == |r.recordType|)
      && var width := if r.short then 1 else 4;
         && (n >= 2 ==> ReadPayloadLength(d, r.short) == if n < 2 + width then None else Some((|r.payload|, 2 + width)))
         && (r.id.Some? && n > 2 + width ==> d[2 + width] == |r.id.value|)
  {
    var tail := r.recordType + ((if r.id.Some? then r.id.value else []) + r.payload + []);
    RecordParts(r, []);
    assert PutRecord(r) + [] == PutRecord(r);
    LengthsRoundTrip(r, tail);
    var d := PutRecord(r)[..n];
    assert forall i :: 0 <= i < n ==> d[i] == PutRecord(r)[i];
    if !r.short && n >= 6 {
      assert d[2..6] == PutRecord(r)[2..6];
    }
  }

  /** A record that is cut short is an error. */
  lemma CutRecordIsInvalid(r: Record, n: nat)
    requires IsRecord(r) && 0 < n < |PutRecord(r)|
    ensures ReadRecord(PutRecord(r)[..n]) == Err(InvalidNdef)
  {
    HeaderBits(r);
    HeaderOfCut(r, n);
    LengthsRoundTrip(r, []);
  }

  ghost predicate AreRecords(rs: seq<Record>) {
    forall i :: 0 <= i < |rs| ==> IsRecord(rs[i])
  }

  /** Behind records none of which is the last, a malformed one ends the walk with its error. */
  lemma {:induction false} BrokenWalk(rs: seq<Record>, d: Octets)
    requires AreRecords(rs) && (forall i :: 0 <= i < |rs| ==> !rs[i].last) && d != [] && ReadRecord(d).Err?
    ensures WalkFrom(PutRecords(rs) + d) == Walk(SeenAll(rs), Some(ReadRecord(d).error))
  {
    if rs == [] {
      assert PutRecords(rs) + d == d;
    } else {
      var after := PutRecords(rs[1..]) + d;
      assert PutRecords(rs) + d == PutRecord(rs[0]) + after;
      RecordRoundTrip(rs[0], after);
      BrokenWalk(rs[1..], d);
    }
  }

  lemma {:induction false} FirstOfBroken(rs: seq<Record>, error: Error)
    requires AreRecords(rs)
    ensures FirstPayload(Walk(SeenAll(rs), Some(error)))
         == if FirstWritten(rs).Ok? then FirstWritten(rs) else Err(error)
  {
    if rs != [] {
      FirstOfBroken(rs[1..], error);
      assert SeenAll(rs)[1..] == SeenAll(rs[1..]);
    }
  }

  /** A malformed record does not hide a payload in front of it, and is the error if there is none. */
  lemma PayloadBeforeTheError(rs: seq<Record>, d: Octets)
    requires AreRecords(rs) && (forall i :: 0 <= i < |rs| ==> !rs[i].last) && d != [] && ReadRecord(d).Err?
    ensures FirstPayload(WalkFrom(PutRecords(rs) + d))
         == if FirstWritten(rs).Ok? then FirstWritten(rs) else Err(ReadRecord(d).error)
  {
    BrokenWalk(rs, d);
    FirstOfBroken(rs, ReadRecord(d).error);
  }

  /** The payload is that of the first media record of the right type. */
  lemma {:induction false} FirstWrittenIs(rs: seq<Record>, i: nat)
    requires i <= |rs| && (i < |rs| ==> rs[i].tnf == 2 && rs[i].recordType == Ascii("application/vnd.openprinttag"))
    requires forall j :: 0 <= j < i ==> rs[j].tnf != 2 || rs[j].recordType != Ascii("application/vnd.openprinttag")
    ensures FirstWritten(rs) == if i < |rs| then Ok(rs[i].payload) else Err(MissingOpenPrintTagRecord)
  {
    if i > 0 {
      FirstWrittenIs(rs[1..], i - 1);
    }
  }

  // ---- Addresses ----

  /** The abbreviations of the NFC Forum's URI record type, section 3.2.2. */
  const ABBREVIATIONS: seq<string> := [
    "", "http://www.", "https://www.", "http://", "https://", "tel:", "mailto:", "ftp://anonymous:anonymous@",
    "ftp://ftp.", "ftps://", "sftp://", "smb://", "nfs://", "ftp://", "dav://", "news:", "telnet://", "imap:",
    "rtsp://", "urn:", "pop:", "sip:", "sips:", "tftp:", "btspp://", "btl2cap://", "btgoep://", "tcpobex://",
    "irdaobex://", "file://", "urn:epc:id:", "urn:epc:tag:", "urn:epc:pat:", "urn:epc:raw:", "urn:epc:", "urn:nfc:"]

  lemma AbbreviationsAreKnown(code: byte)
    ensures UriPrefix(code) == if code < |ABBREVIATIONS| then Some(ABBREVIATIONS[code]) else None
  {
  }

  /** An address record holds an abbreviation's code and UTF-8 text. */
  lemma UriRoundTrip(code: byte, suffix: Octets)
    ensures DecodeUri([code] + suffix)
         == if code < |ABBREVIATIONS| && IsUtf8(suffix) then Some(Ascii(ABBREVIATIONS[code]) + suffix) else None
    ensures DecodeUri([]) == None
  {
    AbbreviationsAreKnown(code);
    assert ([code] + suffix)[1..] == suffix;
  }

  predicate IsUriRecord(r: Record) {
    r.tnf == 1 && r.recordType == [0x55]
  }

  predicate IsPoster(r: Record) {
    r.tnf == 1 && r.recordType == [0x53, 0x70]
  }

  lemma Letters()
    ensures Ascii("U") == [0x55] && Ascii("Sp") == [0x53, 0x70]
  {
  }

  /** A record is an address, or a poster with records of its own, or says nothing. Posters in posters say nothing. */
  lemma RecordSays(r: Record, inner: seq<Record>, posters: bool)
    requires IsRecord(r) && AreRecords(inner) && (IsPoster(r) ==> r.payload == PutRecords(inner))
    ensures AreRecords(UpToLast(inner))
    ensures UriIn(Seen(r), posters)
         == if IsUriRecord(r) then DecodeUri(r.payload)
            else if IsPoster(r) && posters then FirstUri(SeenAll(UpToLast(inner)), false)
            else None
  {
    Letters();
    WalkRoundTrip(inner);
  }

  /** The address of a message is that of the first record that says one. */
  lemma {:induction false} FirstAddress(rs: seq<Record>, posters: bool, i: nat)
    requires AreRecords(rs) && i <= |rs| && (i < |rs| ==> UriIn(Seen(rs[i]), posters).Some?)
    requires forall j :: 0 <= j < i ==> UriIn(Seen(rs[j]), posters).None?
    ensures FirstUri(SeenAll(rs), posters) == if i < |rs| then UriIn(Seen(rs[i]), posters) else None
  {
    if i > 0 {
      FirstAddress(rs[1..], posters, i - 1);
      assert SeenAll(rs)[1..] == SeenAll(rs[1..]);
    }
  }
}
