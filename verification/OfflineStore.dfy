/** The offline store: one queue of storage requests and one inventory snapshot, both mirrored on SD. */
module OfflineStore {
  import opened Text
  import opened Identity
  import opened CanonicalList
  import opened Inventory
  import opened Documents

  const U64_MAX: nat := 0xFFFF_FFFF_FFFF_FFFF

  const EMPTY_QUEUE := OfflineQueue(SCHEMA_VERSION, 1, [])

  function IdOfOperation(p: PendingStorage): string {
    CanonicalId(p.spool)
  }

  /** The position of the first operation for an id, or the length of the list. */
  function FindOperation(operations: seq<PendingStorage>, id: string): (i: nat)
    ensures i <= |operations|
    ensures i < |operations| ==> IdOfOperation(operations[i]) == id
    ensures forall j :: 0 <= j < i ==> IdOfOperation(operations[j]) != id
  {
    if operations == [] || IdOfOperation(operations[0]) == id then 0
    else 1 + FindOperation(operations[1..], id)
  }

  /** Where the queue wants a spool to be. */
  function Wanted(operations: seq<PendingStorage>, id: string): Option<nat> {
    var i := FindOperation(operations, id);
    if i < |operations| then Some(operations[i].locationId) else None
  }

  function SaturatingNext(n: nat): nat {
    if n >= U64_MAX then U64_MAX else n + 1
  }

  /** The queue after a request: the spool's own operation is replaced where it stands, or a new one is
      appended with the next sequence number. */
  function Requested(q: OfflineQueue, spool: FilamentSpool, locationId: nat, locationName: string): OfflineQueue {
    var i := FindOperation(q.operations, CanonicalId(spool));
    if i < |q.operations| then
      q.(operations := q.operations[i := PendingStorage(q.operations[i].sequence, spool, locationId, locationName)])
    else
      q.(nextSequence := SaturatingNext(q.nextSequence),
         operations := q.operations + [PendingStorage(q.nextSequence, spool, locationId, locationName)])
  }

  ghost predicate DistinctIds(operations: seq<PendingStorage>) {
    forall i, j :: 0 <= i < j < |operations| ==> IdOfOperation(operations[i]) != IdOfOperation(operations[j])
  }

  /** Sequence numbers grow along the list until they saturate. */
  ghost predicate InSequence(operations: seq<PendingStorage>) {
    forall i, j :: 0 <= i < j < |operations| ==>
      operations[i].sequence < operations[j].sequence || operations[j].sequence == U64_MAX
  }

  ghost predicate BelowNext(operations: seq<PendingStorage>, next: nat) {
    forall i :: 0 <= i < |operations| ==> operations[i].sequence < next || operations[i].sequence == next == U64_MAX
  }

  /** What every queue this device writes satisfies. */
  ghost predicate QueueOk(q: OfflineQueue) {
    && q.schema == SCHEMA_VERSION
    && q.nextSequence <= U64_MAX
    && DistinctIds(q.operations)
    && InSequence(q.operations)
    && BelowNext(q.operations, q.nextSequence)
  }

  lemma WantedIsUnique(operations: seq<PendingStorage>, i: nat)
    requires DistinctIds(operations) && i < |operations|
    ensures FindOperation(operations, IdOfOperation(operations[i])) == i
    ensures Wanted(operations, IdOfOperation(operations[i])) == Some(operations[i].locationId)
  {
  }

  /** A request keeps the queue well-formed, changes the wish for its own spool and no other, and a
      replacement keeps its place and number. */
  lemma RequestIsPrecise(q: OfflineQueue, spool: FilamentSpool, locationId: nat, locationName: string)
    requires QueueOk(q)
    ensures var r := Requested(q, spool, locationId, locationName);
      && QueueOk(r)
      && (forall id :: Wanted(r.operations, id)
                    == if id == CanonicalId(spool) then Some(locationId) else Wanted(q.operations, id))
      && |q.operations| <= |r.operations| <= |q.operations| + 1
      && (forall i :: 0 <= i < |q.operations| ==>
            && IdOfOperation(r.operations[i]) == IdOfOperation(q.operations[i])
            && r.operations[i].sequence == q.operations[i].sequence)
  {
    var r := Requested(q, spool, locationId, locationName);
    var n := FindOperation(q.operations, CanonicalId(spool));
    forall i | 0 <= i < |q.operations|
      ensures IdOfOperation(r.operations[i]) == IdOfOperation(q.operations[i])
      ensures r.operations[i].sequence == q.operations[i].sequence
      ensures i != n ==> r.operations[i] == q.operations[i]
    {
    }
    forall id
      ensures Wanted(r.operations, id)
           == if id == CanonicalId(spool) then Some(locationId) else Wanted(q.operations, id)
    {
      FindUnderRequest(q.operations, r.operations, CanonicalId(spool), id);
    }
  }

  /** The second queue is the first with one request: the spool's own operation is this one, with its old number, or
      it is added at the end with the next number. Nothing else differs. */
  ghost predicate HasRequest(q: OfflineQueue, r: OfflineQueue, spool: FilamentSpool, locationId: nat,
                             locationName: string) {
    var before, after := q.operations, r.operations;
    && r.schema == q.schema
    && |before| <= |after|
    && exists i :: 0 <= i < |after|
         && after[i].spool == spool && after[i].locationId == locationId && after[i].locationName == locationName
         && (forall j :: 0 <= j < |before| && j != i ==> after[j] == before[j])
         && (if i < |before| then
               |after| == |before| && IdOfOperation(before[i]) == CanonicalId(spool)
               && after[i].sequence == before[i].sequence && r.nextSequence == q.nextSequence
             else
               && |after| == |before| + 1
               && (forall j :: 0 <= j < |before| ==> IdOfOperation(before[j]) != CanonicalId(spool))
               && after[i].sequence == q.nextSequence
               && r.nextSequence == q.nextSequence + if q.nextSequence < 0xFFFF_FFFF_FFFF_FFFF then 1 else 0)
  }

  lemma RequestIsWhole(q: OfflineQueue, spool: FilamentSpool, locationId: nat, locationName: string)
    requires q.nextSequence <= U64_MAX
    ensures HasRequest(q, Requested(q, spool, locationId, locationName), spool, locationId, locationName)
  {
    var r := Requested(q, spool, locationId, locationName);
    var i := FindOperation(q.operations, CanonicalId(spool));
    assert r.operations[i].spool == spool;
  }

  lemma FirstMatchIs(operations: seq<PendingStorage>, id: string, i: nat)
    requires i <= |operations|
    requires i < |operations| ==> IdOfOperation(operations[i]) == id
    requires forall j :: 0 <= j < i ==> IdOfOperation(operations[j]) != id
    ensures FindOperation(operations, id) == i
  {
  }

  /** A request for the id keeps the ids in front, and adds one only if it was not there. */
  ghost predicate KeepsIds(before: seq<PendingStorage>, after: seq<PendingStorage>, own: string) {
    && |before| <= |after| <= |before| + 1
    && (forall i :: 0 <= i < |before| ==> IdOfOperation(after[i]) == IdOfOperation(before[i]))
    && (if |after| == |before| then FindOperation(before, own) < |before| else IdOfOperation(after[|before|]) == own)
  }

  lemma {:induction false} FindUnderRequest(before: seq<PendingStorage>, after: seq<PendingStorage>, own: string,
                                            id: string)
    requires KeepsIds(before, after, own)
    ensures FindOperation(after, id)
         == if id == own || FindOperation(before, id) < |before| then FindOperation(before, id) else |after|
  {
    var n := FindOperation(before, id);
    FirstMatchIs(after, id, if id == own || n < |before| then n else |after|);
  }

  lemma StoredWants(operations: seq<PendingStorage>, id: string)
    ensures Wanted(StoredAll(operations), id) == Wanted(operations, id)
  {
    var stored := StoredAll(operations);
    var n := FindOperation(operations, id);
    assert forall i :: 0 <= i < |operations| ==> IdOfOperation(stored[i]) == IdOfOperation(operations[i]);
    assert FindOperation(stored, id) == n;
  }

  /** The text believed to be on the card decodes to the queue in memory; with no text, both are empty. */
  ghost predicate TextFits(q: OfflineQueue, text: Document) {
    if text == [] then q == EMPTY_QUEUE else DecodeQueue(text) == Some(StoredQueue(q))
  }

  /** Exactly when a prepared queue counts as changed: something other than a tag UID differs, or the text
      on the card is not the one this device would write. A real difference is never overlooked. */
  lemma ChangedExactly(before: OfflineQueue, text: Document, after: OfflineQueue)
    requires text != [] && TextFits(before, text)
    ensures EncodeQueue(after) != text <==> StoredQueue(after) != StoredQueue(before) || text != EncodeQueue(before)
  {
    SameBytesSameQueue(before, after);
    QueueRoundTrip(after);
  }

  ghost predicate CardFits(card: Option<Document>, text: Document) {
    card == if text == [] then None else Some(text)
  }

  datatype SpoolRegistration =
    | Existing(spoolId: nat, locationId: Option<nat>, locationName: Option<string>, locations: seq<Location>,
               offline: bool)
    | New(locations: seq<Location>, offline: bool, inventoryKnown: bool)
    | Pending(pendingLocation: nat, pendingName: string, locations: seq<Location>)

  datatype PreparedInventory = PreparedInventory(snapshot: InventorySnapshot, serialized: Document, changed: bool)

  datatype PreparedQueue = PreparedQueue(queue: OfflineQueue, serialized: Document, changed: bool)

  datatype OfflineStatus = OfflineStatus(cachedSpools: nat, cachedLocations: nat, pendingOperations: nat)

  function NameOf(locations: seq<Location>, id: nat): Option<string> {
    if locations == [] then None
    else if locations[0].id == id then Some(locations[0].name)
    else NameOf(locations[1..], id)
  }

  /** The index belonging to a snapshot. */
  function IndexOfInventory(inventory: Option<InventorySnapshot>): map<string, CachedSpool> {
    if inventory.None? then map[] else IndexOf(inventory.value.spools)
  }

  /** What the store says about a spool: a pending request hides the inventory. */
  function Registration(inventory: Option<InventorySnapshot>, operations: seq<PendingStorage>, spool: FilamentSpool,
                        offline: bool)
    : SpoolRegistration
  {
    var id := CanonicalId(spool);
    var locations := if inventory.Some? then inventory.value.locations else [];
    var index := IndexOfInventory(inventory);
    var i := FindOperation(operations, id);
    if i < |operations| then Pending(operations[i].locationId, operations[i].locationName, locations)
    else if id in index then
      var found := index[id];
      Existing(found.spoolId, found.locationId,
               if found.locationId.Some? then NameOf(locations, found.locationId.value) else None, locations, offline)
    else New(locations, offline, inventory.Some?)
  }

  /** A queued request is what the user is shown, whatever the inventory says: its place, and the name it was
      queued with. */
  lemma PendingIsShown(inventory: Option<InventorySnapshot>, operations: seq<PendingStorage>, spool: FilamentSpool,
                       offline: bool, k: nat)
    requires k < |operations| && IdOfOperation(operations[k]) == CanonicalId(spool)
    requires forall j :: 0 <= j < k ==> IdOfOperation(operations[j]) != CanonicalId(spool)
    ensures Wanted(operations, CanonicalId(spool)) == Some(operations[k].locationId)
    ensures var answer := Registration(inventory, operations, spool, offline);
      && answer.Pending? && answer.pendingLocation == operations[k].locationId
      && answer.pendingName == operations[k].locationName
      && answer.locations == if inventory.Some? then inventory.value.locations else []
  {
    FirstMatchIs(operations, CanonicalId(spool), k);
  }

  /** Exactly the wishes of the queue are shown as pending. */
  lemma PendingExactly(inventory: Option<InventorySnapshot>, operations: seq<PendingStorage>, spool: FilamentSpool,
                       offline: bool)
    ensures var answer := Registration(inventory, operations, spool, offline);
      && (answer.Pending? <==> Wanted(operations, CanonicalId(spool)).Some?)
      && (answer.Pending? ==> Wanted(operations, CanonicalId(spool)) == Some(answer.pendingLocation))
  {
  }

  /** Right after a request the user is shown what was requested. */
  lemma RequestIsShown(inventory: Option<InventorySnapshot>, q: OfflineQueue, spool: FilamentSpool, locationId: nat,
                       locationName: string, offline: bool)
    ensures Registration(inventory, Requested(q, spool, locationId, locationName).operations, spool, offline)
         == Pending(locationId, locationName, if inventory.Some? then inventory.value.locations else [])
  {
    var operations := Requested(q, spool, locationId, locationName).operations;
    var i := FindOperation(q.operations, CanonicalId(spool));
    FirstMatchIs(operations, CanonicalId(spool), i);
  }

  lemma {:induction false} NameIsFirst(locations: seq<Location>, id: nat, i: nat)
    requires i <= |locations| && (i < |locations| ==> locations[i].id == id)
    requires forall j :: 0 <= j < i ==> locations[j].id != id
    ensures NameOf(locations, id) == if i < |locations| then Some(locations[i].name) else None
  {
    if i > 0 {
      NameIsFirst(locations[1..], id, i - 1);
    }
  }

  lemma {:induction false} IndexHoldsLast(spools: seq<CachedSpool>, k: string, i: nat)
    requires i < |spools| && spools[i].externalId == k
    requires forall j :: i < j < |spools| ==> spools[j].externalId != k
    ensures k in IndexOf(spools) && IndexOf(spools)[k] == spools[i]
  {
    if i + 1 < |spools| {
      IndexHoldsLast(spools[..|spools| - 1], k, i);
    }
  }

  lemma {:induction false} IndexHoldsKeys(spools: seq<CachedSpool>, k: string)
    requires forall j :: 0 <= j < |spools| ==> spools[j].externalId != k
    ensures k !in IndexOf(spools)
  {
    if spools != [] {
      IndexHoldsKeys(spools[..|spools| - 1], k);
    }
  }

  /** With nothing queued for the spool, its last entry in the snapshot is shown, with the name of the first location
      that has the entry's place. */
  lemma InventoryIsShown(snapshot: InventorySnapshot, operations: seq<PendingStorage>, spool: FilamentSpool,
                         offline: bool, i: nat, n: nat)
    requires Wanted(operations, CanonicalId(spool)).None?
    requires i < |snapshot.spools| && snapshot.spools[i].externalId == CanonicalId(spool)
    requires forall j :: i < j < |snapshot.spools| ==> snapshot.spools[j].externalId != CanonicalId(spool)
    requires n <= |snapshot.locations|
    requires n < |snapshot.locations| ==> snapshot.spools[i].locationId == Some(snapshot.locations[n].id)
    requires forall j :: 0 <= j < n ==> snapshot.spools[i].locationId != Some(snapshot.locations[j].id)
    ensures var answer := Registration(Some(snapshot), operations, spool, offline);
      && answer.Existing? && answer.spoolId == snapshot.spools[i].spoolId
      && answer.locationId == snapshot.spools[i].locationId && answer.locations == snapshot.locations
      && answer.offline == offline
      && answer.locationName == if n < |snapshot.locations| then Some(snapshot.locations[n].name) else None
  {
    IndexHoldsLast(snapshot.spools, CanonicalId(spool), i);
    if snapshot.spools[i].locationId.Some? {
      NameIsFirst(snapshot.locations, snapshot.spools[i].locationId.value, n);
    }
  }

  /** A spool that is neither queued nor listed is new, and the user is told whether there was a list. */
  lemma NewIsShown(inventory: Option<InventorySnapshot>, operations: seq<PendingStorage>, spool: FilamentSpool,
                   offline: bool)
    requires Wanted(operations, CanonicalId(spool)).None?
    requires inventory.Some? ==>
      forall j :: 0 <= j < |inventory.value.spools| ==> inventory.value.spools[j].externalId != CanonicalId(spool)
    ensures var answer := Registration(inventory, operations, spool, offline);
      && answer.New? && answer.offline == offline && answer.inventoryKnown == inventory.Some?
      && answer.locations == if inventory.Some? then inventory.value.locations else []
  {
    if inventory.Some? {
      IndexHoldsKeys(inventory.value.spools, CanonicalId(spool));
    }
  }

  /** With no request pending, a refreshed store identifies a spool as the plain scan of the same server
      list does. */
  lemma RegistrationAgreesWithScan(list: seq<RemoteSpool>, locations: seq<Location>, operations: seq<PendingStorage>,
                                   spool: FilamentSpool, offline: bool)
    requires IsStorable(spool)
    requires |list| <= MAX_SPOOLS && forall i :: 0 <= i < |list| ==> IsWellFormed(list[i])
    requires Wanted(operations, CanonicalId(spool)).None?
    ensures var loaded := LoadFrom(Served(list), 1);
      && loaded.Ok?
      && var snapshot :=
           InventorySnapshot(SCHEMA_VERSION, CanonicalLocations(locations), CanonicalSpools(loaded.value));
         var answer := Registration(Some(snapshot), operations, spool, offline);
         match ScanFrom(spool, Served(list), 1)
         case Ok(Some(existing)) =>
           answer.Existing? && answer.spoolId == existing.id && answer.locationId == existing.locationId
         case Ok(None) => answer.New? && answer.inventoryKnown
         case Err(_) => false
  {
    CacheAgreesWithScan(list, spool);
  }

  class OfflineState {
    var inventory: Option<InventorySnapshot>
    var inventoryIndex: map<string, CachedSpool>
    var inventorySerialized: Document
    var queue: OfflineQueue
    var queueSerialized: Document

    /** The index always belongs to the snapshot. */
    ghost predicate Valid()
      reads this
    {
      inventoryIndex == IndexOfInventory(inventory)
    }

    constructor ()
      ensures Valid()
      ensures inventory == None && inventorySerialized == []
      ensures queue == EMPTY_QUEUE && queueSerialized == []
    {
      inventory := None;
      inventoryIndex := map[];
      inventorySerialized := [];
      queue := EMPTY_QUEUE;
      queueSerialized := [];
    }

    method Status() returns (s: OfflineStatus)
      requires Valid()
      ensures s.pendingOperations == |queue.operations|
      ensures inventory.Some? ==>
                s.cachedSpools == |inventory.value.spools| && s.cachedLocations == |inventory.value.locations|
      ensures inventory.None? ==> s.cachedSpools == 0 && s.cachedLocations == 0
    {
      s := if inventory.Some?
           then OfflineStatus(|inventory.value.spools|, |inventory.value.locations|, |queue.operations|)
           else OfflineStatus(0, 0, |queue.operations|);
    }

    method LoadInventory(bytes: Document) returns (r: Result<OfflineStatus, string>)
      requires Valid()
      modifies this
      ensures Valid() && queue == old(queue) && queueSerialized == old(queueSerialized)
      ensures var decoded := DecodeInventory(bytes);
        r.Ok? <==> decoded.Some? && decoded.value.schema == SCHEMA_VERSION
      ensures r.Ok? ==> inventory == DecodeInventory(bytes) && inventorySerialized == bytes
      ensures r.Err? ==> inventory == old(inventory) && inventorySerialized == old(inventorySerialized)
    {
      var decoded := DecodeInventory(bytes);
      if decoded.None? {
        return Err("inventory deserialization failed");
      }
      if decoded.value.schema != SCHEMA_VERSION {
        return Err("unsupported inventory schema");
      }
      CommitInventory(PreparedInventory(decoded.value, bytes, false));
      var status := Status();
      return Ok(status);
    }

    method LoadQueue(bytes: Document) returns (r: Result<nat, string>)
      requires Valid()
      modifies `queue, `queueSerialized
      ensures Valid()
      ensures var decoded := DecodeQueue(bytes);
        r.Ok? <==> decoded.Some? && decoded.value.schema == SCHEMA_VERSION
      ensures r.Ok? ==> Some(queue) == DecodeQueue(bytes) && queueSerialized == bytes && r.value == |queue.operations|
      ensures r.Err? ==> queue == old(queue) && queueSerialized == old(queueSerialized)
    {
      var decoded := DecodeQueue(bytes);
      if decoded.None? {
        return Err("queue deserialization failed");
      }
      if decoded.value.schema != SCHEMA_VERSION {
        return Err("unsupported queue schema");
      }
      queue := decoded.value;
      queueSerialized := bytes;
      return Ok(|queue.operations|);
    }

    method Resolve(spool: FilamentSpool, offline: bool) returns (r: SpoolRegistration)
      requires Valid()
      ensures r == Registration(inventory, queue.operations, spool, offline)
    {
      var id := CanonicalId(spool);
      var locations := if inventory.Some? then inventory.value.locations else [];
      var i := FindOperation(queue.operations, id);
      if i < |queue.operations| {
        return Pending(queue.operations[i].locationId, queue.operations[i].locationName, locations);
      }
      if id in inventoryIndex {
        var existing := inventoryIndex[id];
        var name := if existing.locationId.Some? then NameOf(locations, existing.locationId.value) else None;
        return Existing(existing.spoolId, existing.locationId, name, locations, offline);
      }
      return New(locations, offline, inventory.Some?);
    }

    method PrepareInventory(locations: seq<Location>, spools: seq<CachedSpool>) returns (p: PreparedInventory)
      requires Valid()
      ensures p.snapshot == InventorySnapshot(SCHEMA_VERSION, CanonicalLocations(locations), CanonicalSpools(spools))
      ensures p.serialized == EncodeInventory(p.snapshot)
      ensures p.changed <==> p.serialized != inventorySerialized
    {
      var sortedLocations := StableSort(locations, IdOf, ByNumber);
      var sortedSpools := StableSort(spools, ExternalIdOf, ByText);
      var snapshot :=
        InventorySnapshot(SCHEMA_VERSION, Dedup(sortedLocations, IdOf), Dedup(sortedSpools, ExternalIdOf));
      var serialized := EncodeInventory(snapshot);
      p := PreparedInventory(snapshot, serialized, serialized != inventorySerialized);
    }

    method CommitInventory(prepared: PreparedInventory)
      modifies `inventory, `inventoryIndex, `inventorySerialized
      ensures Valid()
      ensures inventory == Some(prepared.snapshot) && inventorySerialized == prepared.serialized
    {
      var spools := prepared.snapshot.spools;
      var index: map<string, CachedSpool> := map[];
      var i := 0;
      while i < |spools|
        invariant 0 <= i <= |spools|
        invariant index == IndexOf(spools[..i])
      {
        assert spools[..i + 1][..i] == spools[..i];
        index := index[spools[i].externalId := spools[i]];
        i := i + 1;
      }
      assert spools[..i] == spools;
      inventoryIndex := index;
      inventory := Some(prepared.snapshot);
      inventorySerialized := prepared.serialized;
    }

    method PrepareStorage(spool: FilamentSpool, locationId: nat, locationName: string) returns (p: PreparedQueue)
      ensures p.queue == Requested(queue, spool, locationId, locationName)
      ensures p.serialized == EncodeQueue(p.queue)
      ensures p.changed <==> p.serialized != queueSerialized
    {
      var id := CanonicalId(spool);
      var next := queue;
      var i := 0;
      while i < |next.operations| && IdOfOperation(next.operations[i]) != id
        invariant 0 <= i <= |next.operations|
        invariant forall j :: 0 <= j < i ==> IdOfOperation(next.operations[j]) != id
      {
        i := i + 1;
      }
      if i < |next.operations| {
        var existing := next.operations[i].(spool := spool, locationId := locationId, locationName := locationName);
        next := next.(operations := next.operations[i := existing]);
      } else {
        var sequence := next.nextSequence;
        next := next.(nextSequence := SaturatingNext(next.nextSequence));
        next := next.(operations := next.operations + [PendingStorage(sequence, spool, locationId, locationName)]);
      }
      p := PrepareQueue(next);
    }

    method PrepareRemaining(operations: seq<PendingStorage>) returns (p: PreparedQueue)
      ensures p.queue == queue.(operations := operations)
      ensures p.serialized == EncodeQueue(p.queue)
      ensures p.changed <==> p.serialized != queueSerialized
    {
      p := PrepareQueue(queue.(operations := operations));
    }

    method PrepareQueue(q: OfflineQueue) returns (p: PreparedQueue)
      ensures p.queue == q && p.serialized == EncodeQueue(q)
      ensures p.changed <==> p.serialized != queueSerialized
    {
      var serialized := EncodeQueue(q);
      p := PreparedQueue(q, serialized, serialized != queueSerialized);
    }

    method CommitQueue(prepared: PreparedQueue)
      modifies `queue, `queueSerialized
      ensures queue == prepared.queue && queueSerialized == prepared.serialized
    {
      queue := prepared.queue;
      queueSerialized := prepared.serialized;
    }
  }

  /** Refreshing from a server whose entries have distinct keys writes the same bytes whatever order the
      server lists them in, and preparing a snapshot's own lists again changes nothing. */
  lemma SnapshotIsCanonical(locations: seq<Location>, spools: seq<CachedSpool>,
                            shuffledLocations: seq<Location>, shuffledSpools: seq<CachedSpool>)
    requires DistinctKeys(locations, IdOf) && DistinctKeys(shuffledLocations, IdOf)
    requires DistinctKeys(spools, ExternalIdOf) && DistinctKeys(shuffledSpools, ExternalIdOf)
    requires multiset(locations) == multiset(shuffledLocations) && multiset(spools) == multiset(shuffledSpools)
    ensures EncodeInventory(InventorySnapshot(SCHEMA_VERSION, CanonicalLocations(locations), CanonicalSpools(spools)))
         == EncodeInventory(InventorySnapshot(SCHEMA_VERSION, CanonicalLocations(shuffledLocations),
                                              CanonicalSpools(shuffledSpools)))
    ensures CanonicalLocations(CanonicalLocations(locations)) == CanonicalLocations(locations)
    ensures CanonicalSpools(CanonicalSpools(spools)) == CanonicalSpools(spools)
  {
    OrdersAreTotal();
    PermutationsAgree(locations, shuffledLocations, IdOf, ByNumber);
    PermutationsAgree(spools, shuffledSpools, ExternalIdOf, ByText);
    CanonicalIsIdempotent(locations, IdOf, ByNumber);
    CanonicalIsIdempotent(spools, ExternalIdOf, ByText);
  }
}
