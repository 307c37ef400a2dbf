/** Inputs with answers that are known from elsewhere: examples of the formats' own specifications, a whole tag byte by
    byte, and the numbers the program is built on. */
module KnownAnswers {
  import opened Text
  import opened Bytes
  import opened Cbor
  import opened Ndef
  import opened NdefLaws
  import opened OpenPrintTag
  import opened OpenPrintTagMeaning
  import opened OpenPrintTagForms
  import opened OpenPrintTagLaws
  import Inventory
  import OfflineStore
  import Documents
  import Identity
  import FilaManService
  import ScanTrace
  import Pn5180Scan
  import CatalogStore
  import WebInstaller
  import MaterialSlugs

  // ---- Numbers ----

  lemma Limits()
    ensures Inventory.PAGES == 100 && Inventory.PAGE_SIZE == 50 && Inventory.MAX_SPOOLS == 5000
    ensures Identity.BAMBU_PREFIX == "bambulab:" && Identity.OPENPRINTTAG_PREFIX == "openprinttag:"
    ensures OfflineStore.U64_MAX == 0xFFFF_FFFF_FFFF_FFFF && FilaManService.INVENTORY_REFRESH_HEARTBEATS == 15
    ensures OfflineStore.EMPTY_QUEUE == Documents.OfflineQueue(1, 1, []) && Documents.SCHEMA_VERSION == 1
    ensures CatalogStore.MAX_CATALOG_SIZE == 393216 && CatalogStore.MAX_ENTRIES == 1000
    ensures ScanTrace.TAG_REMOVAL_GRACE == 750 && ScanTrace.TRANSIENT_ERROR_RECOVERY_INTERVAL == 2000
    ensures ScanTrace.MAX_PAYLOAD_ATTEMPTS == 5 && ScanTrace.MAX_STALLED_ATTEMPTS == 2
    ensures ScanTrace.MAX_OPENPRINTTAG_MEMORY == 2048 && ScanTrace.OPENPRINTTAG_BLOCK_ATTEMPTS == 3
    ensures ScanTrace.PAYLOAD_BLOCKS == [1, 2, 4, 5, 6, 9, 10, 12, 13, 14, 16]
    ensures OpenPrintTag.MAX_SECTION_SIZE == 512 && OpenPrintTag.USIZE == 0x1_0000_0000
    ensures WebInstaller.SECTOR == 4096 && MaterialSlugs.PRIME == 0x01000193 && MaterialSlugs.MODULUS == 0x1_0000_0000
  {
  }

  /** The two ATQA of a MIFARE Classic 1K card, and the three errors that call for a reset of the reader. */
  lemma Kinds(c: ScanTrace.Card, e: Pn5180Scan.DriverError)
    ensures ScanTrace.IsMifareClassic1K(c) <==> c.sak == 8 && (c.atqa == [0, 4] || c.atqa == [0, 0x44])
    ensures Pn5180Scan.RequiresHardwareReset(e) <==> e.BusyTimeout? || e.Spi? || e.Pin?
  {
  }

  /** Payload blocks are data blocks: not the manufacturer's block, and not a sector's last, which holds its keys. */
  lemma PayloadIsData(i: nat)
    requires i < |ScanTrace.PAYLOAD_BLOCKS|
    ensures var block := ScanTrace.PAYLOAD_BLOCKS[i]; block > 0 && block % 4 != 3
    ensures i > 0 ==> ScanTrace.PAYLOAD_BLOCKS[i - 1] < ScanTrace.PAYLOAD_BLOCKS[i]
  {
  }

  // ---- CBOR ----

  lemma OneByte(n: nat)
    requires n < 256
    ensures ToBigEndian(n, 1) == [n]
  {
    assert ToBigEndian(n / 256, 0) == [];
  }

  lemma TwoBytes(n: nat)
    requires n < 0x1_0000
    ensures ToBigEndian(n, 2) == [n / 256, n % 256]
  {
    OneByte(n / 256);
  }

  /** Examples of appendix A of RFC 8949: 0, 23, 24, 100, 1000, -10, -100, 1.0, false, a byte string and a text. */
  lemma Rfc8949Scalars()
    ensures Put(Unsigned(0, 0)) == [0x00] && Put(Unsigned(23, 0)) == [0x17]
    ensures IsValue(Unsigned(24, 1)) && Put(Unsigned(24, 1)) == [0x18, 0x18]
    ensures IsValue(Unsigned(100, 1)) && Put(Unsigned(100, 1)) == [0x18, 0x64]
    ensures IsValue(Unsigned(1000, 2)) && Put(Unsigned(1000, 2)) == [0x19, 0x03, 0xe8]
    ensures Put(Negative(9, 0)) == [0x29]
    ensures IsValue(Negative(99, 1)) && Put(Negative(99, 1)) == [0x38, 0x63]
    ensures IsValue(Float(0x3c00, 2)) && Put(Float(0x3c00, 2)) == [0xf9, 0x3c, 0x00]
    ensures Put(Simple(20)) == [0xf4]
    ensures Put(ByteString([1, 2, 3, 4], 0)) == [0x44, 0x01, 0x02, 0x03, 0x04]
  {
    Powers();
    OneByte(24);
    OneByte(100);
    OneByte(99);
    TwoBytes(1000);
    TwoBytes(0x3c00);
  }

  function Small(n: nat): Value {
    Unsigned(n, 0)
  }

  /** [1, [2, 3], [4, 5]], in the appendix's definite form. */
  lemma Rfc8949Array()
    ensures var inner := Array(Cons(Small(2), Cons(Small(3), Nil)), 0);
      var last := Array(Cons(Small(4), Cons(Small(5), Nil)), 0);
      var v := Array(Cons(Small(1), Cons(inner, Cons(last, Nil))), 0);
      IsValue(v) && Put(v) == [0x83, 0x01, 0x82, 0x02, 0x03, 0x82, 0x04, 0x05]
  {
    PairOf(2, 3);
    PairOf(4, 5);
    var inner, last := Array(Cons(Small(2), Cons(Small(3), Nil)), 0), Array(Cons(Small(4), Cons(Small(5), Nil)), 0);
    assert AreValues(Nil) && PutAll(Nil) == [] && Length(Nil) == 0;
    ConsIs(last, Nil);
    ConsIs(inner, Cons(last, Nil));
    ConsIs(Small(1), Cons(inner, Cons(last, Nil)));
    assert Put(Small(1)) == [0x01];
  }

  lemma ConsIs(head: Value, tail: List)
    requires IsValue(head) && AreValues(tail)
    ensures AreValues(Cons(head, tail)) && Length(Cons(head, tail)) == 1 + Length(tail)
    ensures PutAll(Cons(head, tail)) == Put(head) + PutAll(tail)
  {
  }

  lemma PairOf(a: nat, b: nat)
    requires a < 24 && b < 24
    ensures var v := Array(Cons(Small(a), Cons(Small(b), Nil)), 0); IsValue(v) && Put(v) == [0x82, a, b]
  {
    assert AreValues(Nil) && PutAll(Nil) == [] && Length(Nil) == 0;
    ConsIs(Small(b), Nil);
    ConsIs(Small(a), Cons(Small(b), Nil));
    assert Put(Small(a)) == [a] && Put(Small(b)) == [b];
  }

  // ---- A whole tag ----

  const MIME: Octets := Ascii("application/vnd.openprinttag")

  function UriRecord(address: Octets): Record {
    Record(true, false, true, 1, [0x55], None, [0x04] + address)
  }

  const TAG_RECORD := Record(false, true, true, 2, MIME, None, [0xa0, 0xa1, 0x08, 0x00])

  /** A tag with an https address and a payload that says nothing but its class, byte by byte. */
  function TagMemory(address: Octets): Octets
    requires |address| < 200
  {
    [0xe1, 0x40, 0x28, 0x01]
    + ([0x03, 40 + |address|] + TagMessage(address) + [0xfe])
  }

  lemma UriRecordIsWritten(address: Octets)
    requires |address| < 200
    ensures IsRecord(UriRecord(address))
    ensures PutRecord(UriRecord(address)) == [0x91, 0x01, 1 + |address|, 0x55, 0x04] + address
  {
    var r := UriRecord(address);
    OneByte(1 + |address|);
    assert PutLengths(r) == [0x91, 0x01, 1 + |address|];
    assert PutRecord(r) == [0x91, 0x01, 1 + |address|] + [0x55] + [] + ([0x04] + address);
  }

  lemma TagRecordIsWritten()
    ensures IsRecord(TAG_RECORD)
    ensures PutRecord(TAG_RECORD) == [0x52, 0x1c, 0x04] + MIME + [0xa0, 0xa1, 0x08, 0x00]
  {
    assert |MIME| == 28;
    OneByte(4);
    assert PutLengths(TAG_RECORD) == [0x52, 0x1c, 0x04];
  }

  const CLASS_ENTRY: Entry := Entry(8, 0, Unsigned(0, 0))

  lemma ClassIsWritten()
    ensures IsMap(Counted(0), []) && PutMap(Counted(0), []) == [0xa0]
    ensures IsMap(Counted(0), [CLASS_ENTRY]) && PutMap(Counted(0), [CLASS_ENTRY]) == [0xa1, 0x08, 0x00]
  {
    assert [CLASS_ENTRY][1..] == [];
    assert PutEntries([]) == [];
    assert PutEntries([CLASS_ENTRY]) == [0x08] + ([0x00] + []);
  }

  lemma ClassIsMeant()
    ensures MainMeaningOf([CLASS_ENTRY], 3) == Ok(Tag(map[8 := Natural(0)], [], None, None, None))
  {
    var s := MainState(map[8 := Natural(0)], []);
    assert map[][8 := Natural(0)] == map[8 := Natural(0)];
    assert MainMeaning(EMPTY_MAIN, 8, Unsigned(0, 0)) == Ok(s);
    assert [CLASS_ENTRY][1..] == [] && Fold(MainStep, s, []) == Ok(s);
  }

  /** a0 is an empty meta map; a1 08 00 is a main map of one entry. */
  lemma ClassAlone()
    ensures PayloadOf([0xa0, 0xa1, 0x08, 0x00]) == Ok(Tag(map[8 := Natural(0)], [], None, None, None))
  {
    var main := Section(Counted(0), [CLASS_ENTRY], []);
    ClassIsWritten();
    ClassIsMeant();
    assert PutSection(main) == [0xa1, 0x08, 0x00];
    MainAlone(Counted(0), main);
    assert [0xa0] + [0xa1, 0x08, 0x00] == [0xa0, 0xa1, 0x08, 0x00];
  }

  lemma Https(address: Octets)
    requires IsUtf8(address)
    ensures DecodeUri([0x04] + address) == Some(Ascii("https://") + address)
  {
    UriRoundTrip(0x04, address);
    assert |ABBREVIATIONS| == 36 && ABBREVIATIONS[4] == "https://";
  }

  lemma AddressOfTag(rs: seq<Record>, address: Octets)
    requires IsUtf8(address) && AreRecords(rs) && rs != []
    requires IsUriRecord(rs[0]) && rs[0].payload == [0x04] + address
    ensures FirstUri(SeenAll(rs), true) == Some(Ascii("https://") + address)
  {
    Https(address);
    RecordSays(rs[0], [], true);
    FirstAddress(rs, true, 0);
  }

  /** The bytes of the message. */
  function TagMessage(address: Octets): Octets
    requires |address| < 200
  {
    [0x91, 0x01, 1 + |address|, 0x55, 0x04] + address + ([0x52, 0x1c, 0x04] + MIME + [0xa0, 0xa1, 0x08, 0x00])
  }

  ghost predicate AreTagRecords(rs: seq<Record>, address: Octets) {
    && AreRecords(rs) && |rs| == 2 && UpToLast(rs) == rs
    && IsUriRecord(rs[0]) && rs[0].payload == [0x04] + address
    && rs[1].tnf == 2 && rs[1].recordType == MIME && rs[1].payload == [0xa0, 0xa1, 0x08, 0x00]
  }

  lemma MessageOfTag(address: Octets) returns (rs: seq<Record>)
    requires |address| < 200
    ensures AreTagRecords(rs, address) && PutRecords(rs) == TagMessage(address)
  {
    rs := [UriRecord(address), TAG_RECORD];
    UriRecordIsWritten(address);
    TagRecordIsWritten();
    assert rs[1..] == [TAG_RECORD] && [TAG_RECORD][1..] == [];
    assert PutRecords([TAG_RECORD]) == PutRecord(TAG_RECORD) + [];
    assert PutRecords(rs) == PutRecord(UriRecord(address)) + PutRecord(TAG_RECORD);
    assert UpToLast([TAG_RECORD]) == [TAG_RECORD];
    assert [UriRecord(address)] + [TAG_RECORD] == rs;
  }

  lemma MemoryOfTag(address: Octets)
    requires |address| < 200
    ensures |TagMessage(address)| == 40 + |address|
    ensures TagMemory(address)
         == [0xe1, 0x40, 0x28, 0x01] + (PutTlvs([]) + (PutTlv(Block(0x03, TagMessage(address), false)) + [0xfe]))
  {
    assert |MIME| == 28;
    var block := PutTlv(Block(0x03, TagMessage(address), false));
    assert block == [0x03, 40 + |address|] + TagMessage(address);
    assert PutTlvs([]) + (block + [0xfe]) == block + [0xfe];
  }

  lemma RecordsOfTag(rs: seq<Record>, address: Octets)
    requires IsUtf8(address) && AreTagRecords(rs, address)
    ensures TagOf(rs) == Ok(Tag(map[8 := Natural(0)], [], None, None, Some(Ascii("https://") + address)))
  {
    FirstWrittenIs(rs, 1);
    ClassAlone();
    AddressOfTag(rs, address);
  }

  lemma MemoryIs(memory: Octets, rs: seq<Record>)
    requires AreRecords(rs) && UpToLast(rs) == rs && |PutRecords(rs)| < 255
    requires memory == [0xe1, 0x40, 0x28, 0x01] + (PutTlvs([]) + (PutTlv(Block(0x03, PutRecords(rs), false)) + [0xfe]))
    ensures MemoryOf(memory) == TagOf(rs)
  {
    MemoryRoundTrip([0xe1, 0x40, 0x28, 0x01], [], rs, false, [0xfe]);
  }

  /** The tag decodes to its class and its address. */
  lemma KnownTag(address: Octets)
    requires |address| < 200 && IsUtf8(address)
    ensures MemoryOf(TagMemory(address))
         == Ok(Tag(map[8 := Natural(0)], [], None, None, Some(Ascii("https://") + address)))
  {
    var rs := MessageOfTag(address);
    MemoryOfTag(address);
    MemoryIs(TagMemory(address), rs);
    RecordsOfTag(rs, address);
  }

  // ---- Explicit regions ----

  function NumberEntry(key: nat, n: nat): Entry {
    Entry(key, 0, Unsigned(n, 1))
  }

  lemma NumberIsWritten(entries: seq<Entry>, key: nat, n: nat)
    requires entries != [] && entries[0] == NumberEntry(key, n) && AreEntries(entries[1..]) && key < 24 && n < 256
    ensures AreEntries(entries) && PutEntries(entries) == [key, 0x18, n] + PutEntries(entries[1..])
  {
    Powers();
    OneByte(n);
    assert Put(Unsigned(n, 1)) == [0x18, n] && PutHead(0, key, 0) == [key];
    assert forall i :: 1 <= i < |entries| ==> entries[i] == entries[1..][i - 1];
  }

  /** Keys 1, 2 and 3 with numbers. */
  predicate AreThree(entries: seq<Entry>, a: nat, b: nat, c: nat) {
    && |entries| == 3
    && entries[0] == NumberEntry(1, a) && entries[1] == NumberEntry(2, b) && entries[2] == NumberEntry(3, c)
  }

  lemma TailsOfThree(entries: seq<Entry>, a: nat, b: nat, c: nat)
    requires a < 256 && b < 256 && c < 256 && AreThree(entries, a, b, c)
    ensures AreEntries(entries)
    ensures PutEntries(entries) == [1, 0x18, a] + ([2, 0x18, b] + ([3, 0x18, c] + []))
  {
    var tail := entries[1..];
    var last := tail[1..];
    assert last[1..] == [] && PutEntries([]) == [];
    NumberIsWritten(last, 3, c);
    NumberIsWritten(tail, 2, b);
    NumberIsWritten(entries, 1, a);
  }

  lemma HeadOfThree(entries: seq<Entry>)
    requires |entries| == 3 && AreEntries(entries)
    ensures IsMap(Counted(0), entries) && PutMap(Counted(0), entries) == [0xa3] + PutEntries(entries)
  {
    assert PutHead(5, 3, 0) == [0xa3];
  }

  lemma JoinedBytes(a: byte, b: byte, c: byte)
    ensures [0xa3] + ([1, 0x18, a] + ([2, 0x18, b] + ([3, 0x18, c] + []))) == [0xa3, 1, 0x18, a, 2, 0x18, b, 3, 0x18, c]
  {
  }

  lemma ThreeAreWritten(entries: seq<Entry>, a: byte, b: byte, c: byte)
    requires AreThree(entries, a, b, c)
    ensures IsMap(Counted(0), entries) && PutMap(Counted(0), entries) == [0xa3, 1, 0x18, a, 2, 0x18, b, 3, 0x18, c]
  {
    TailsOfThree(entries, a, b, c);
    HeadOfThree(entries);
    JoinedBytes(a, b, c);
  }

  lemma AskedByThree(entries: seq<Entry>, a: nat, b: nat, c: nat, length: nat)
    requires a < 256 && b < 256 && c < 256 && AreThree(entries, a, b, c)
    ensures AreNumbers(entries) && IsAsked(entries, 10, length, (10, a), Some((b, c)))
  {
    LastIsLast(entries, 0);
    LastIsLast(entries, 1);
    LastIsLast(entries, 2);
    NoLast(entries, 0);
  }

  /** A meta map with keys 1, 2 and 3 and nothing else: main follows it with its size, the auxiliary map has offset and
      size of its own. */
  lemma KnownRegions(a: nat, b: nat, c: nat, rest: Octets)
    requires a < 256 && b < 256 && c < 256
    requires 10 + a <= b && b + c <= 10 + |rest| < 0x1_0000_0000
    ensures RegionsOf([0xa3, 1, 0x18, a, 2, 0x18, b, 3, 0x18, c] + rest) == Ok(Regions(10, a, Some((b, c))))
  {
    var entries := [NumberEntry(1, a), NumberEntry(2, b), NumberEntry(3, c)];
    ThreeAreWritten(entries, a, b, c);
    AskedByThree(entries, a, b, c, 10 + |rest|);
    RegionsExactly(Counted(0), entries, rest, (10, a), Some((b, c)));
  }
}
