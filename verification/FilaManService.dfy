/** The service methods, each run to its end without interruption. What the network, the card and the
    clock decide comes in as parameters. */
module FilaManService {
  import opened Text
  import opened Identity
  import opened Inventory
  import opened Documents
  import opened OfflineStore
  import opened FilaManServer
  import opened FilaManAnswers

  const ALREADY_RUNNING := "Another FilaMan request is already running"
  const WRITE_FAILED := "SD write failed"
  const NEEDS_CARD := "Offline storage requires an SD card"
  const UNREACHED := "FilaMan request failed"
  const INVENTORY_REFRESH_HEARTBEATS: nat := 15
  const U16_MAX: nat := 0xFFFF

  datatype StorageOutcome = Applied(spoolId: nat, locationId: nat) | Queued(locationId: nat)

  /** The queue in memory, the text it is believed to have on the card, and the card. */
  datatype Durable = Durable(queue: OfflineQueue, text: Document, card: Option<Document>)

  /** `persist_queue`: an unchanged text is not written again. */
  function Persisted(d: Durable, q: OfflineQueue, writes: bool): (Durable, Result<bool, string>) {
    var text := EncodeQueue(q);
    if text == d.text then (Durable(q, text, d.card), Ok(false))
    else if writes then (Durable(q, text, Some(text)), Ok(true))
    else (d, Err(WRITE_FAILED))
  }

  /** `enqueue_storage` */
  function Enqueued(d: Durable, hasCard: bool, spool: FilamentSpool, locationId: nat, locationName: string,
                    writes: bool)
    : (Durable, Result<bool, string>)
  {
    if !hasCard then (d, Err(NEEDS_CARD))
    else Persisted(d, Requested(d.queue, spool, locationId, locationName), writes)
  }

  /** `synchronize_offline_queue` with the lock free. */
  function Synchronized(d: Durable, s: Server, links: seq<Links>, writes: bool): (Durable, Server, bool)
    requires |links| == |d.queue.operations|
  {
    var p := SyncPass(s, d.queue.operations, links);
    if p.completed == [] then (d, p.server, false)
    else
      var (after, written) := Persisted(d, d.queue.(operations := p.remaining), writes);
      (after, p.server, written == Ok(true))
  }

  /** Text and queue belong together, and the card holds the text. */
  ghost predicate InOrder(d: Durable) {
    && QueueOk(d.queue)
    && TextFits(d.queue, d.text)
    && CardFits(d.card, d.text)
  }

  lemma PersistedInOrder(d: Durable, q: OfflineQueue, writes: bool)
    requires InOrder(d) && QueueOk(q)
    ensures InOrder(Persisted(d, q, writes).0)
  {
    QueueRoundTrip(q);
  }

  /** A request the user is told is queued is on the card, for every outcome of the write; a refused
      request leaves memory and card as they were. */
  lemma EnqueuedIsDurable(d: Durable, hasCard: bool, spool: FilamentSpool, locationId: nat, locationName: string,
                          writes: bool)
    requires InOrder(d)
    ensures var (after, r) := Enqueued(d, hasCard, spool, locationId, locationName, writes);
      && InOrder(after)
      && (r.Err? ==> after == d)
      && (r.Ok? ==> after.card.Some? && DecodeQueue(after.card.value) == Some(StoredQueue(after.queue)))
      && (r.Ok? ==> Wanted(StoredQueue(after.queue).operations, CanonicalId(spool)) == Some(locationId))
  {
    var q := Requested(d.queue, spool, locationId, locationName);
    RequestIsPrecise(d.queue, spool, locationId, locationName);
    PersistedInOrder(d, q, writes);
    QueueRoundTrip(q);
    StoredWants(q.operations, CanonicalId(spool));
  }

  class Card {
    var queue: Option<Document>
    var inventory: Option<Document>
  }

  class Backend {
    var server: Server
    constructor (s: Server)
      ensures server == s
    {
      server := s;
    }
  }

  class Service {
    const offline: OfflineState
    const card: Card
    const backend: Backend
    const hasCard: bool
    var importEnabled: bool
    var busy: bool
    var connected: bool
    var heartbeatSucceeded: bool
    var heartbeatFailureActive: bool
    var refreshTicks: nat

    constructor (store: OfflineState, cardSlot: Card, remote: Backend, hasCardNow: bool)
      requires store.Valid()
      ensures Valid() && !busy && offline == store && card == cardSlot && backend == remote && hasCard == hasCardNow
      ensures UsesOfflineInventory() && refreshTicks == 0 && !importEnabled
    {
      offline, card, backend, hasCard, importEnabled := store, cardSlot, remote, hasCardNow, false;
      busy, connected, heartbeatSucceeded, heartbeatFailureActive, refreshTicks := false, false, false, false, 0;
    }

    ghost predicate Valid()
      reads this, offline
    {
      offline.Valid() && refreshTicks <= U16_MAX
    }

    /** `use_offline_inventory`: the server is asked only while connected, after a heartbeat, and with none failing. */
    predicate UsesOfflineInventory(): (offline: bool)
      reads this
      ensures !connected ==> offline
      ensures !heartbeatSucceeded ==> offline
      ensures heartbeatFailureActive ==> offline
      ensures connected && heartbeatSucceeded && !heartbeatFailureActive ==> !offline
    {
      !connected || !heartbeatSucceeded || heartbeatFailureActive
    }

    ghost function State(): Durable
      reads this, offline, card
    {
      Durable(offline.queue, offline.queueSerialized, card.queue)
    }

    method PersistQueue(prepared: PreparedQueue, writes: bool) returns (r: Result<bool, string>)
      requires Valid()
      requires prepared.serialized == EncodeQueue(prepared.queue)
      requires prepared.changed <==> prepared.serialized != offline.queueSerialized
      modifies offline`queue, offline`queueSerialized, card`queue
      ensures Valid()
      ensures (State(), r) == Persisted(old(State()), prepared.queue, writes)
    {
      if !prepared.changed {
        offline.CommitQueue(prepared);
        return Ok(false);
      }
      if !writes {
        return Err(WRITE_FAILED);
      }
      card.queue := Some(prepared.serialized);
      offline.CommitQueue(prepared);
      return Ok(true);
    }

    method EnqueueStorage(spool: FilamentSpool, locationId: nat, locationName: string, writes: bool)
      returns (r: Result<bool, string>)
      requires Valid()
      modifies offline`queue, offline`queueSerialized, card`queue
      ensures Valid()
      ensures (State(), r) == Enqueued(old(State()), hasCard, spool, locationId, locationName, writes)
    {
      if !hasCard {
        return Err(NEEDS_CARD);
      }
      var prepared := offline.PrepareStorage(spool, locationId, locationName);
      r := PersistQueue(prepared, writes);
    }

    /** One request to the server, and the check of its answer. */
    method Request(spool: FilamentSpool, locationId: nat, call: Call, link: Link) returns (progress: Progress)
      modifies backend
      ensures (backend.server, progress) == Respond(old(backend.server), CanonicalId(spool), locationId, call, link)
    {
      if link == NotSent {
        return Failed(true);
      }
      if link == Refused {
        return ReadAnswer(spool, locationId, call, Unusable);
      }
      var answer := AnswerOf(backend.server, CanonicalId(spool), locationId, call);
      OwnAnswersAreBelieved(backend.server, spool, locationId, call);
      backend.server := Serve(backend.server, CanonicalId(spool), locationId, call).0;
      if link == AnswerLost {
        return Failed(true);
      }
      return ReadAnswer(spool, locationId, call, if link == Garbled then Unusable else answer);
    }

    method ApplyStorageOnline(spool: FilamentSpool, locationId: nat, links: Links) returns (progress: Progress)
      modifies backend
      ensures (backend.server, progress) == ApplyOnline(old(backend.server), CanonicalId(spool), locationId, links)
    {
      progress := Request(spool, locationId, Find, links.first);
      if progress.Next? {
        progress := Request(spool, locationId, progress.call, links.second);
        if progress.Next? {
          progress := Request(spool, locationId, progress.call, links.third);
        }
      }
    }

    /** The loop of `synchronize_offline_queue`. */
    method ApplyAll(operations: seq<PendingStorage>, links: seq<Links>)
      returns (remaining: seq<PendingStorage>, completed: nat)
      requires |links| == |operations|
      modifies backend
      ensures var p := SyncPass(old(backend.server), operations, links);
        backend.server == p.server && remaining == p.remaining && completed == |p.completed|
    {
      remaining := [];
      ghost var done: seq<PendingStorage> := [];
      completed := 0;
      var stopAfterFailure := false;
      var i := 0;
      while i < |operations|
        invariant 0 <= i <= |operations|
        invariant completed == |done|
        invariant PassFrom(old(backend.server), operations, links)
               == if stopAfterFailure then Pass(backend.server, done, remaining + operations[i..])
                  else Joined(done, remaining, PassFrom(backend.server, operations[i..], links[i..]))
      {
        var operation := operations[i];
        if stopAfterFailure {
          assert remaining + operations[i..] == remaining + [operation] + operations[i + 1..];
          remaining := remaining + [operation];
        } else {
          ghost var before := backend.server;
          PassUnfolds(before, operations, links, i);
          var progress := ApplyStorageOnline(operation.spool, operation.locationId, links[i]);
          JoinedStep(done, remaining, PassFrom(backend.server, operations[i + 1..], links[i + 1..]), operation);
          match progress {
            case Done(_) =>
              completed := completed + 1;
              done := done + [operation];
            case Failed(transport) =>
              stopAfterFailure := transport;
              assert remaining + operations[i..] == remaining + [operation] + operations[i + 1..];
              remaining := remaining + [operation];
            case Next(_) =>
              assert false;
          }
        }
        i := i + 1;
      }
      assert remaining + operations[i..] == remaining;
      JoinedNothing(done, remaining, backend.server);
    }

    method SynchronizeOfflineQueue(links: seq<Links>, writes: bool) returns (changed: bool)
      requires Valid() && |links| == |offline.queue.operations|
      modifies this`busy, offline`queue, offline`queueSerialized, card`queue, backend
      ensures Valid() && busy == old(busy)
      ensures old(busy) ==> !changed && State() == old(State()) && backend.server == old(backend.server)
      ensures !old(busy) ==>
                (State(), backend.server, changed) == Synchronized(old(State()), old(backend.server), links, writes)
    {
      var operations := offline.queue.operations;
      if operations == [] || busy {
        return false;
      }
      busy := true;
      var remaining, completed := ApplyAll(operations, links);
      if completed == 0 {
        busy := false;
        return false;
      }
      var prepared := offline.PrepareRemaining(remaining);
      var result := PersistQueue(prepared, writes);
      changed := result == Ok(true);
      busy := false;
    }

    method StoreSpoolAt(spool: FilamentSpool, known: Option<nat>, locationId: nat, locationName: string, links: Links,
                        writes: bool)
      returns (r: Result<StorageOutcome, string>)
      requires Valid()
      modifies this`busy, this`heartbeatFailureActive, offline`queue, offline`queueSerialized, card`queue, backend
      ensures Valid() && busy == old(busy)
      ensures var refused :=
                !importEnabled || ValidateSpool(spool).Err? || locationId == 0 || Trim(locationName) == "" || old(busy);
        refused ==> r.Err? && State() == old(State()) && backend.server == old(backend.server)
      ensures var accepted :=
                importEnabled && ValidateSpool(spool).Ok? && locationId != 0 && Trim(locationName) != "" && !old(busy);
        var queued := Enqueued(old(State()), hasCard, spool, locationId, locationName, writes);
        var online := OnlineStore(old(backend.server), spool, known, locationId, links);
        && (accepted && old(UsesOfflineInventory()) ==>
              State() == queued.0 && backend.server == old(backend.server)
              && r == if queued.1.Ok? then Ok(Queued(locationId)) else Err(queued.1.error))
        && (accepted && !old(UsesOfflineInventory()) ==>
              && backend.server == online.0
              && match online.1
                 case Done(spoolId) => State() == old(State()) && r == Ok(Applied(spoolId, locationId))
                 case Failed(transport) =>
                   if transport then
                     UsesOfflineInventory() && State() == queued.0
                     && r == if queued.1.Ok? then Ok(Queued(locationId)) else Err(queued.1.error)
                   else State() == old(State()) && r.Err?
                 case Next(_) => false)
      ensures importEnabled && ValidateSpool(spool).Ok? && locationId != 0 && Trim(locationName) != "" && !old(busy) ==>
        (State(), backend.server, UsesOfflineInventory())
          == StoreLeaves(old(State()), old(backend.server), old(UsesOfflineInventory()), hasCard, spool, known,
                         locationId, locationName, links, writes)
    {
      if !importEnabled {
        return Err("FilaMan location-assisted import is disabled");
      }
      var valid := ValidateSpool(spool);
      if valid.Err? {
        return Err(valid.error);
      }
      if locationId == 0 || Trim(locationName) == "" {
        return Err("FilaMan location is invalid");
      }
      if busy {
        return Err(ALREADY_RUNNING);
      }
      busy := true;
      if UsesOfflineInventory() {
        var queued := EnqueueStorage(spool, locationId, locationName, writes);
        busy := false;
        return if queued.Ok? then Ok(Queued(locationId)) else Err(queued.error);
      }
      var progress: Progress;
      if known.Some? {
        progress := Request(spool, locationId, Move(known.value), links.first);
      } else {
        progress := ApplyStorageOnline(spool, locationId, links);
      }
      match progress {
        case Done(spoolId) =>
          r := Ok(Applied(spoolId, locationId));
        case Failed(transport) =>
          if transport {
            heartbeatFailureActive := true;
            var queued := EnqueueStorage(spool, locationId, locationName, writes);
            r := if queued.Ok? then Ok(Queued(locationId)) else Err(queued.error);
          } else {
            r := Err(UNREACHED);
          }
        case Next(_) =>
          assert false;
      }
      busy := false;
    }

    /** The list pages and locations the server sends are parameters. An unchanged snapshot is not written. */
    method RefreshInventory(locations: Result<seq<Location>, string>, page: nat -> PageReply, writes: bool)
      returns (r: Result<(), string>)
      requires Valid()
      modifies this`busy, offline`inventory, offline`inventoryIndex, offline`inventorySerialized, card`inventory
      ensures Valid() && busy == old(busy)
      ensures r.Ok? <==>
        && !old(busy) && locations.Ok? && LoadFrom(page, 1).Ok?
        && (writes || !hasCard
            || old(offline.inventorySerialized) == EncodeInventory(Snapshot(locations.value, LoadFrom(page, 1).value)))
      ensures r.Ok? ==>
        && offline.inventory == Some(Snapshot(locations.value, LoadFrom(page, 1).value))
        && offline.inventorySerialized == EncodeInventory(offline.inventory.value)
      ensures r.Err? ==> offline.inventory == old(offline.inventory)
                         && offline.inventorySerialized == old(offline.inventorySerialized)
      ensures card.inventory == if r.Ok? && hasCard && offline.inventorySerialized != old(offline.inventorySerialized)
                                then Some(offline.inventorySerialized) else old(card.inventory)
    {
      if busy {
        return Err(ALREADY_RUNNING);
      }
      busy := true;
      if locations.Err? {
        busy := false;
        return Err(locations.error);
      }
      var loaded := LoadInventorySpools(page);
      if loaded.Err? {
        busy := false;
        return Err(loaded.error);
      }
      var prepared := offline.PrepareInventory(locations.value, loaded.value);
      if prepared.changed && hasCard {
        if !writes {
          busy := false;
          return Err(WRITE_FAILED);
        }
        card.inventory := Some(prepared.serialized);
      }
      offline.CommitInventory(prepared);
      busy := false;
      return Ok(());
    }

    /** Synchronise, then refresh when asked to, after a change, or every fifteenth time. */
    method RunOnlineMaintenance(force: bool, links: seq<Links>, writes: bool,
                                locations: Result<seq<Location>, string>, page: nat -> PageReply, inventoryWrites: bool)
      returns (ghost changed: bool)
      requires Valid() && |links| == |offline.queue.operations|
      modifies this`busy, this`refreshTicks, offline, card, backend
      ensures Valid() && busy == old(busy)
      ensures !old(busy) ==>
                (State(), backend.server, changed) == Synchronized(old(State()), old(backend.server), links, writes)
      ensures old(busy) ==> State() == old(State()) && backend.server == old(backend.server) && !changed
      ensures var due := force || changed || old(refreshTicks) + 1 >= INVENTORY_REFRESH_HEARTBEATS;
        && (due ==> refreshTicks == 0)
        && (!due ==> refreshTicks == old(refreshTicks) + 1 && offline.inventory == old(offline.inventory)
                     && card.inventory == old(card.inventory))
        && (due && !old(busy) && locations.Ok? && LoadFrom(page, 1).Ok? && (inventoryWrites || !hasCard) ==>
              offline.inventory == Some(Snapshot(locations.value, LoadFrom(page, 1).value)))
    {
      var queueChanged := SynchronizeOfflineQueue(links, writes);
      changed := queueChanged;
      var ticks := if refreshTicks < U16_MAX then refreshTicks + 1 else U16_MAX;
      if force || queueChanged || ticks >= INVENTORY_REFRESH_HEARTBEATS {
        refreshTicks := 0;
        var _ := RefreshInventory(locations, page, inventoryWrites);
      } else {
        refreshTicks := ticks;
      }
    }
  }

  function Snapshot(locations: seq<Location>, spools: seq<CachedSpool>): InventorySnapshot {
    InventorySnapshot(SCHEMA_VERSION, CanonicalLocations(locations), CanonicalSpools(spools))
  }

  /** A store with the server reachable: a known spool is moved directly. */
  function OnlineStore(s: Server, spool: FilamentSpool, known: Option<nat>, locationId: nat, links: Links)
      : (Server, Progress)
  {
    if known.Some? then Respond(s, CanonicalId(spool), locationId, Move(known.value), links.first)
    else ApplyOnline(s, CanonicalId(spool), locationId, links)
  }

  /** What `store_spool_at` leaves behind with the lock free, and whether the server counts as out of reach: the request
      is queued if the server is out of reach or falls silent, and the queue stays as it is otherwise. */
  function StoreLeaves(d: Durable, s: Server, unreachable: bool, hasCard: bool, spool: FilamentSpool,
                       known: Option<nat>, locationId: nat, locationName: string, links: Links, writes: bool)
    : (Durable, Server, bool)
  {
    var queued := Enqueued(d, hasCard, spool, locationId, locationName, writes).0;
    var online := OnlineStore(s, spool, known, locationId, links);
    if unreachable then (queued, s, true)
    else if online.1 == Failed(true) then (queued, online.0, true)
    else (d, online.0, false)
  }

  // ---- The loop of a pass, from its end ----

  function PassFrom(s: Server, operations: seq<PendingStorage>, links: seq<Links>): Pass {
    if |links| == |operations| then SyncPass(s, operations, links) else Pass(s, [], [])
  }

  function Joined(done: seq<PendingStorage>, remaining: seq<PendingStorage>, rest: Pass): Pass {
    Pass(rest.server, done + rest.completed, remaining + rest.remaining)
  }

  lemma PassUnfolds(s: Server, operations: seq<PendingStorage>, links: seq<Links>, i: nat)
    requires i < |operations| == |links|
    ensures var (after, progress) := Outcome(s, operations[i], links[i]);
      var rest := PassFrom(after, operations[i + 1..], links[i + 1..]);
      PassFrom(s, operations[i..], links[i..])
      == if progress == Failed(true) then Pass(after, [], operations[i..])
         else if progress.Done? then rest.(completed := [operations[i]] + rest.completed)
         else rest.(remaining := [operations[i]] + rest.remaining)
  {
    assert operations[i..][1..] == operations[i + 1..];
    assert links[i..][1..] == links[i + 1..];
  }

  lemma JoinedStep(done: seq<PendingStorage>, remaining: seq<PendingStorage>, rest: Pass, op: PendingStorage)
    ensures Joined(done, remaining, rest.(completed := [op] + rest.completed)) == Joined(done + [op], remaining, rest)
    ensures Joined(done, remaining, rest.(remaining := [op] + rest.remaining)) == Joined(done, remaining + [op], rest)
    ensures forall tail: seq<PendingStorage>, s: Server ::
      Joined(done, remaining, Pass(s, [], tail)) == Pass(s, done, remaining + tail)
  {
    assert done + ([op] + rest.completed) == done + [op] + rest.completed;
    assert remaining + ([op] + rest.remaining) == remaining + [op] + rest.remaining;
    forall tail: seq<PendingStorage>, s: Server
      ensures Joined(done, remaining, Pass(s, [], tail)) == Pass(s, done, remaining + tail)
    {
      assert done + [] == done;
    }
  }

  lemma JoinedNothing(done: seq<PendingStorage>, remaining: seq<PendingStorage>, s: Server)
    ensures Joined(done, remaining, PassFrom(s, [], [])) == Pass(s, done, remaining)
  {
    assert done + [] == done && remaining + [] == remaining;
  }
}
