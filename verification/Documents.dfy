/** The two SD documents of the offline store, with a concrete writer and reader in place of serde_json.
    A document is a sequence of tokens. The reader skips blanks in front of a document; the writer never
    puts one there. `Broken` is what is left of a text that was cut short: its quote and some bytes more. */
module Documents {
  import opened Text
  import opened Identity
  import opened Inventory

  datatype Token = Blank | Number(n: nat) | Text(s: string) | Broken(more: nat)

  type Document = seq<Token>

  /** What is left after reading a value. */
  datatype Read<+T> = Read(value: T, rest: Document)

  datatype PendingStorage = PendingStorage(sequence: nat, spool: FilamentSpool, locationId: nat, locationName: string)

  datatype OfflineQueue = OfflineQueue(schema: nat, nextSequence: nat, operations: seq<PendingStorage>)

  datatype InventorySnapshot = InventorySnapshot(schema: nat, locations: seq<Location>, spools: seq<CachedSpool>)

  const SCHEMA_VERSION: nat := 1

  // ---- Writing ----

  function PutOptionalNumber(o: Option<nat>): Document {
    if o.None? then [Number(0)] else [Number(1), Number(o.value)]
  }

  function PutOptionalString(o: Option<string>): Document {
    if o.None? then [Number(0)] else [Number(1), Text(o.value)]
  }

  function PutProduct(p: ProductReference): Document {
    match p
    case Bambu(a, b, c, d) => [Number(0), Text(a), Text(b), Text(c), Text(d)]
    case OpenPrintTagProduct(uri) => [Number(1)] + PutOptionalString(uri)
  }

  /** `tag_uid` is not written. */
  function PutSpool(s: FilamentSpool): Document {
    [Number(if s.source == BambuLab then 0 else 1), Text(s.externalId), Text(s.materialName), Text(s.materialType)]
    + PutProduct(s.product)
  }

  function PutPending(p: PendingStorage): Document {
    [Number(p.sequence), Number(p.locationId), Text(p.locationName)] + PutSpool(p.spool)
  }

  function PutLocation(l: Location): Document {
    [Number(l.id), Text(l.name)]
  }

  function PutCached(c: CachedSpool): Document {
    [Text(c.externalId), Number(c.spoolId)] + PutOptionalNumber(c.locationId)
  }

  function PutAll<T>(items: seq<T>, put: T -> Document): Document {
    if items == [] then [] else put(items[0]) + PutAll(items[1..], put)
  }

  function PutList<T>(items: seq<T>, put: T -> Document): Document {
    [Number(|items|)] + PutAll(items, put)
  }

  function EncodeQueue(q: OfflineQueue): Document {
    [Number(q.schema), Number(q.nextSequence)] + PutList(q.operations, PutPending)
  }

  function EncodeInventory(s: InventorySnapshot): Document {
    [Number(s.schema)] + (PutList(s.locations, PutLocation) + PutList(s.spools, PutCached))
  }

  // ---- Reading ----

  predicate AtNumber(d: Document, i: nat) {
    i < |d| && d[i].Number?
  }

  predicate AtText(d: Document, i: nat) {
    i < |d| && d[i].Text?
  }

  function GetOptionalNumber(d: Document): Option<Read<Option<nat>>> {
    if !AtNumber(d, 0) || d[0].n > 1 then None
    else if d[0].n == 0 then Some(Read(None, d[1..]))
    else if !AtNumber(d, 1) then None
    else Some(Read(Some(d[1].n), d[2..]))
  }

  function GetOptionalString(d: Document): Option<Read<Option<string>>> {
    if !AtNumber(d, 0) || d[0].n > 1 then None
    else if d[0].n == 0 then Some(Read(None, d[1..]))
    else if !AtText(d, 1) then None
    else Some(Read(Some(d[1].s), d[2..]))
  }

  function GetProduct(d: Document): Option<Read<ProductReference>> {
    if !AtNumber(d, 0) || d[0].n > 1 then None
    else if d[0].n == 0 then
      if AtText(d, 1) && AtText(d, 2) && AtText(d, 3) && AtText(d, 4)
      then Some(Read(Bambu(d[1].s, d[2].s, d[3].s, d[4].s), d[5..]))
      else None
    else
      match GetOptionalString(d[1..])
      case None => None
      case Some(Read(uri, rest)) => Some(Read(OpenPrintTagProduct(uri), rest))
  }

  function GetSpool(d: Document): Option<Read<FilamentSpool>> {
    if !AtNumber(d, 0) || d[0].n > 1 || !AtText(d, 1) || !AtText(d, 2) || !AtText(d, 3) then None
    else match GetProduct(d[4..])
      case None => None
      case Some(Read(product, rest)) =>
        var source := if d[0].n == 0 then BambuLab else OpenPrintTag;
        Some(Read(FilamentSpool(source, d[1].s, "", d[2].s, d[3].s, product), rest))
  }

  function GetPending(d: Document): Option<Read<PendingStorage>> {
    if !AtNumber(d, 0) || !AtNumber(d, 1) || !AtText(d, 2) then None
    else match GetSpool(d[3..])
      case None => None
      case Some(Read(spool, rest)) => Some(Read(PendingStorage(d[0].n, spool, d[1].n, d[2].s), rest))
  }

  function GetLocation(d: Document): Option<Read<Location>> {
    if !AtNumber(d, 0) || !AtText(d, 1) then None else Some(Read(Location(d[0].n, d[1].s), d[2..]))
  }

  function GetCached(d: Document): Option<Read<CachedSpool>> {
    if !AtText(d, 0) || !AtNumber(d, 1) then None
    else match GetOptionalNumber(d[2..])
      case None => None
      case Some(Read(location, rest)) => Some(Read(CachedSpool(d[0].s, d[1].n, location), rest))
  }

  function GetAll<T>(count: nat, d: Document, get: Document -> Option<Read<T>>): Option<Read<seq<T>>> {
    if count == 0 then Some(Read([], d))
    else match get(d)
      case None => None
      case Some(first) => match GetAll(count - 1, first.rest, get)
        case None => None
        case Some(others) => Some(Read([first.value] + others.value, others.rest))
  }

  function GetList<T>(d: Document, get: Document -> Option<Read<T>>): Option<Read<seq<T>>> {
    if !AtNumber(d, 0) then None else GetAll(d[0].n, d[1..], get)
  }

  function SkipBlanks(d: Document): Document {
    if d != [] && d[0].Blank? then SkipBlanks(d[1..]) else d
  }

  function DecodeQueue(d: Document): Option<OfflineQueue> {
    var text := SkipBlanks(d);
    if !AtNumber(text, 0) || !AtNumber(text, 1) then None
    else match GetList(text[2..], GetPending)
      case None => None
      case Some(Read(operations, rest)) =>
        if rest == [] then Some(OfflineQueue(text[0].n, text[1].n, operations)) else None
  }

  function DecodeInventory(d: Document): Option<InventorySnapshot> {
    var text := SkipBlanks(d);
    if !AtNumber(text, 0) then None
    else match GetList(text[1..], GetLocation)
      case None => None
      case Some(Read(locations, spoolText)) => match GetList(spoolText, GetCached)
        case None => None
        case Some(Read(spools, rest)) =>
          if rest == [] then Some(InventorySnapshot(text[0].n, locations, spools)) else None
  }

  // ---- Reading undoes writing ----

  /** What of an operation survives on the SD card. */
  function Stored(p: PendingStorage): PendingStorage {
    p.(spool := p.spool.(tagUid := ""))
  }

  function StoredAll(operations: seq<PendingStorage>): (r: seq<PendingStorage>)
    ensures |r| == |operations|
  {
    seq(|operations|, i requires 0 <= i < |operations| => Stored(operations[i]))
  }

  function StoredQueue(q: OfflineQueue): OfflineQueue {
    q.(operations := StoredAll(q.operations))
  }

  lemma ProductRoundTrip(p: ProductReference, rest: Document)
    ensures GetProduct(PutProduct(p) + rest) == Some(Read(p, rest))
  {
    var d := PutProduct(p) + rest;
    match p
    case Bambu(_, _, _, _) =>
      assert d[5..] == rest;
    case OpenPrintTagProduct(uri) =>
      assert d[1..] == PutOptionalString(uri) + rest;
      assert d[1..][|PutOptionalString(uri)|..] == rest;
  }

  lemma SpoolRoundTrip(s: FilamentSpool, rest: Document)
    ensures GetSpool(PutSpool(s) + rest) == Some(Read(s.(tagUid := ""), rest))
  {
    assert (PutSpool(s) + rest)[4..] == PutProduct(s.product) + rest;
    ProductRoundTrip(s.product, rest);
  }

  lemma PendingRoundTrip(p: PendingStorage, rest: Document)
    ensures GetPending(PutPending(p) + rest) == Some(Read(Stored(p), rest))
  {
    assert (PutPending(p) + rest)[3..] == PutSpool(p.spool) + rest;
    SpoolRoundTrip(p.spool, rest);
  }

  lemma LocationRoundTrip(l: Location, rest: Document)
    ensures GetLocation(PutLocation(l) + rest) == Some(Read(l, rest))
  {
    assert (PutLocation(l) + rest)[2..] == rest;
  }

  lemma CachedRoundTrip(c: CachedSpool, rest: Document)
    ensures GetCached(PutCached(c) + rest) == Some(Read(c, rest))
  {
    var d := PutCached(c) + rest;
    assert d[2..] == PutOptionalNumber(c.locationId) + rest;
    assert d[2..][|PutOptionalNumber(c.locationId)|..] == rest;
  }

  lemma StoredAllCons(items: seq<PendingStorage>)
    requires items != []
    ensures StoredAll(items) == [Stored(items[0])] + StoredAll(items[1..])
  {
  }

  lemma PutAllCons<T>(items: seq<T>, put: T -> Document, rest: Document)
    requires items != []
    ensures PutAll(items, put) + rest == put(items[0]) + (PutAll(items[1..], put) + rest)
  {
  }

  lemma GetAllCons<T>(count: nat, d: Document, get: Document -> Option<Read<T>>, first: Read<T>, others: Read<seq<T>>)
    requires count > 0
    requires get(d) == Some(first) && GetAll(count - 1, first.rest, get) == Some(others)
    ensures GetAll(count, d, get) == Some(Read([first.value] + others.value, others.rest))
  {
  }

  lemma {:induction false} PendingsRoundTrip(items: seq<PendingStorage>, rest: Document)
    ensures GetAll(|items|, PutAll(items, PutPending) + rest, GetPending) == Some(Read(StoredAll(items), rest))
  {
    if items == [] {
      assert PutAll(items, PutPending) + rest == rest;
    } else {
      var after := PutAll(items[1..], PutPending) + rest;
      PutAllCons(items, PutPending, rest);
      PendingRoundTrip(items[0], after);
      PendingsRoundTrip(items[1..], rest);
      GetAllCons(|items|, PutPending(items[0]) + after, GetPending, Read(Stored(items[0]), after),
                 Read(StoredAll(items[1..]), rest));
      StoredAllCons(items);
    }
  }

  lemma {:induction false} LocationsRoundTrip(items: seq<Location>, rest: Document)
    ensures GetAll(|items|, PutAll(items, PutLocation) + rest, GetLocation) == Some(Read(items, rest))
  {
    if items == [] {
      assert PutAll(items, PutLocation) + rest == rest;
    } else {
      var after := PutAll(items[1..], PutLocation) + rest;
      PutAllCons(items, PutLocation, rest);
      LocationRoundTrip(items[0], after);
      LocationsRoundTrip(items[1..], rest);
      GetAllCons(|items|, PutLocation(items[0]) + after, GetLocation, Read(items[0], after), Read(items[1..], rest));
      assert [items[0]] + items[1..] == items;
    }
  }

  lemma {:induction false} CachedsRoundTrip(items: seq<CachedSpool>, rest: Document)
    ensures GetAll(|items|, PutAll(items, PutCached) + rest, GetCached) == Some(Read(items, rest))
  {
    if items == [] {
      assert PutAll(items, PutCached) + rest == rest;
    } else {
      var after := PutAll(items[1..], PutCached) + rest;
      PutAllCons(items, PutCached, rest);
      CachedRoundTrip(items[0], after);
      CachedsRoundTrip(items[1..], rest);
      GetAllCons(|items|, PutCached(items[0]) + after, GetCached, Read(items[0], after), Read(items[1..], rest));
      assert [items[0]] + items[1..] == items;
    }
  }

  lemma PendingListRoundTrip(items: seq<PendingStorage>)
    ensures GetList(PutList(items, PutPending), GetPending) == Some(Read(StoredAll(items), []))
  {
    assert PutList(items, PutPending)[1..] == PutAll(items, PutPending) + [];
    PendingsRoundTrip(items, []);
  }

  lemma LocationListRoundTrip(items: seq<Location>, rest: Document)
    ensures GetList(PutList(items, PutLocation) + rest, GetLocation) == Some(Read(items, rest))
  {
    assert (PutList(items, PutLocation) + rest)[1..] == PutAll(items, PutLocation) + rest;
    LocationsRoundTrip(items, rest);
  }

  lemma CachedListRoundTrip(items: seq<CachedSpool>)
    ensures GetList(PutList(items, PutCached), GetCached) == Some(Read(items, []))
  {
    assert PutList(items, PutCached)[1..] == PutAll(items, PutCached) + [];
    CachedsRoundTrip(items, []);
  }

  /** Reloading the queue gives back everything but the tag UIDs. */
  lemma QueueRoundTrip(q: OfflineQueue)
    ensures DecodeQueue(EncodeQueue(q)) == Some(StoredQueue(q))
  {
    PendingListRoundTrip(q.operations);
    assert EncodeQueue(q)[2..] == PutList(q.operations, PutPending);
  }

  /** Reloading the inventory gives back the snapshot. */
  lemma InventoryRoundTrip(s: InventorySnapshot)
    ensures DecodeInventory(EncodeInventory(s)) == Some(s)
  {
    var spoolText := PutList(s.spools, PutCached);
    LocationListRoundTrip(s.locations, spoolText);
    CachedListRoundTrip(s.spools);
    assert EncodeInventory(s)[1..] == PutList(s.locations, PutLocation) + spoolText;
  }

  lemma {:induction false} PutAllIgnoresTag(items: seq<PendingStorage>)
    ensures PutAll(StoredAll(items), PutPending) == PutAll(items, PutPending)
  {
    if items != [] {
      assert StoredAll(items)[1..] == StoredAll(items[1..]);
      PutAllIgnoresTag(items[1..]);
    }
  }

  /** Two queues have the same bytes exactly when they agree on everything but the tag UIDs. */
  lemma SameBytesSameQueue(a: OfflineQueue, b: OfflineQueue)
    ensures EncodeQueue(a) == EncodeQueue(b) <==> StoredQueue(a) == StoredQueue(b)
  {
    QueueRoundTrip(a);
    QueueRoundTrip(b);
    PutAllIgnoresTag(a.operations);
    PutAllIgnoresTag(b.operations);
    assert EncodeQueue(StoredQueue(a)) == EncodeQueue(a);
    assert EncodeQueue(StoredQueue(b)) == EncodeQueue(b);
  }

  lemma {:induction false} ReadPendingsAreStored(count: nat, d: Document)
    ensures var r := GetAll(count, d, GetPending); r.Some? ==> StoredAll(r.value.value) == r.value.value
  {
    if count > 0 && GetPending(d).Some? {
      ReadPendingsAreStored(count - 1, GetPending(d).value.rest);
      var r := GetAll(count, d, GetPending);
      if r.Some? {
        StoredAllCons(r.value.value);
        assert Stored(GetPending(d).value.value) == GetPending(d).value.value;
      }
    }
  }

  /** A queue read from a document has no tag UIDs to lose. */
  lemma DecodedIsStored(d: Document)
    ensures DecodeQueue(d).Some? ==> StoredQueue(DecodeQueue(d).value) == DecodeQueue(d).value
  {
    var text := SkipBlanks(d);
    if |text| > 2 && AtNumber(text, 2) {
      ReadPendingsAreStored(text[2].n, text[2..][1..]);
    }
  }

  /** Of a queue that is written and read back only the tag UIDs are lost. */
  lemma OnlyTagUidsAreLost(q: OfflineQueue)
    ensures DecodeQueue(EncodeQueue(q)).Some?
    ensures var r := DecodeQueue(EncodeQueue(q)).value;
      && r.schema == q.schema && r.nextSequence == q.nextSequence && |r.operations| == |q.operations|
      && forall i :: 0 <= i < |q.operations| ==>
           && r.operations[i].sequence == q.operations[i].sequence
           && r.operations[i].locationId == q.operations[i].locationId
           && r.operations[i].locationName == q.operations[i].locationName
           && r.operations[i].spool == q.operations[i].spool.(tagUid := "")
  {
    QueueRoundTrip(q);
  }
}
