/** The offline store under interleaving and crashes. A step is what one task does between two awaits;
    the network, the SD card and other clients of the server are chosen by the step's label. */
module SyncProtocol {
  import opened Text
  import opened Identity
  import opened Documents
  import opened OfflineStore
  import opened FilaManServer

  /** What a task does when it is next scheduled. */
  datatype Task =
    | Waiting(spool: FilamentSpool, known: Option<nat>, locationId: nat, locationName: string)
    | Requesting(awaits: nat)
    | Storing(spool: FilamentSpool, locationId: nat, locationName: string, call: Call)
    | Enqueueing(spool: FilamentSpool, locationId: nat, locationName: string, prepared: OfflineQueue, written: bool)
    | Syncing(snapshot: seq<PendingStorage>, index: nat, remaining: seq<PendingStorage>, completed: nat, call: Call)
    | Persisting(prepared: OfflineQueue, written: bool)

  /** `busy` is the lock; only a store waiting for the first heartbeat runs without it. */
  predicate Holds(task: Task) {
    !task.Waiting?
  }

  datatype World = World(
    busy: bool,
    tasks: map<nat, Task>,
    unreachable: bool,
    hasCard: bool,
    queue: OfflineQueue,
    queueText: Document,
    card: Option<Document>,
    server: Server)

  datatype Action =
    | StartStore(t: nat, spool: FilamentSpool, known: Option<nat>, locationId: nat, locationName: string)
    | Proceed(t: nat)
    | StartRequest(t: nat, awaits: nat)
    | StartSync(t: nat)
    | Reply(t: nat, link: Link)
    | CardWrite(t: nat, ok: bool)
    | Resume(t: nat)
    | SetUnreachable(value: bool)
    | OthersChange(server: Server)
    | Crash

  datatype Report = Silent | Rejected | Moved(id: string, locationId: nat) | Queued(id: string, locationId: nat)

  predicate IsWriting(task: Task) {
    task.Enqueueing? || task.Persisting?
  }

  /** The card already holds what this task has yet to commit in memory. */
  predicate IsDirty(task: Task) {
    IsWriting(task) && task.written
  }

  ghost predicate Enabled(w: World, a: Action) {
    match a
    case StartStore(t, spool, _, locationId, locationName) =>
      t !in w.tasks && ValidateSpool(spool).Ok? && locationId > 0 && Trim(locationName) != ""
    case Proceed(t) => t in w.tasks && w.tasks[t].Waiting?
    case StartRequest(t, _) => t !in w.tasks
    case StartSync(t) => t !in w.tasks
    case Reply(t, _) => t in w.tasks && (w.tasks[t].Requesting? || w.tasks[t].Storing? || w.tasks[t].Syncing?)
    case CardWrite(t, _) => t in w.tasks && IsWriting(w.tasks[t]) && !w.tasks[t].written
    case Resume(t) => t in w.tasks && IsDirty(w.tasks[t])
    case SetUnreachable(_) => true
    case OthersChange(server) => ServerOk(server) && OwnersKept(w.server, server)
    case Crash => true
  }

  function Release(w: World, t: nat): World {
    w.(busy := false, tasks := w.tasks - {t})
  }

  function Hold(w: World, t: nat, task: Task): World {
    w.(busy := true, tasks := w.tasks[t := task])
  }

  function Commit(w: World, q: OfflineQueue): World {
    w.(queue := q, queueText := EncodeQueue(q))
  }

  function WithServer(w: World, s: Server): World {
    w.(server := s)
  }

  /** `enqueue_storage` up to its first await, by the holder of the lock. */
  function BeginEnqueue(w: World, t: nat, spool: FilamentSpool, locationId: nat, locationName: string): World {
    var q := Requested(w.queue, spool, locationId, locationName);
    if !w.hasCard then Release(w, t)
    else if EncodeQueue(q) == w.queueText then Release(Commit(w, q), t)
    else Hold(w, t, Enqueueing(spool, locationId, locationName, q, false))
  }

  function EnqueueReport(w: World, spool: FilamentSpool, locationId: nat, locationName: string): Report {
    if !w.hasCard then Rejected
    else if EncodeQueue(Requested(w.queue, spool, locationId, locationName)) == w.queueText
    then Queued(CanonicalId(spool), locationId)
    else Silent
  }

  /** What a pass would leave if it stopped here. */
  function Outstanding(task: Task): seq<PendingStorage>
    requires task.Syncing? && task.index <= |task.snapshot|
  {
    task.remaining + task.snapshot[task.index..]
  }

  /** The end of a synchronisation pass. */
  function FinishSync(w: World, t: nat, remaining: seq<PendingStorage>, completed: nat): World {
    var q := w.queue.(operations := remaining);
    if completed == 0 then Release(w, t)
    else if EncodeQueue(q) == w.queueText then Release(Commit(w, q), t)
    else Hold(w, t, Persisting(q, false))
  }

  /** The pass moves on to its next operation, or ends. */
  function Advance(w: World, t: nat, task: Task, remaining: seq<PendingStorage>, completed: nat): World
    requires task.Syncing?
  {
    if task.index + 1 < |task.snapshot|
    then Hold(w, t, Syncing(task.snapshot, task.index + 1, remaining, completed, Find))
    else FinishSync(w, t, remaining, completed)
  }

  function SyncProgress(w: World, t: nat, task: Task, progress: Progress): World
    requires task.Syncing? && task.index < |task.snapshot|
  {
    match progress
    case Next(call) => Hold(w, t, Syncing(task.snapshot, task.index, task.remaining, task.completed, call))
    case Done(_) => Advance(w, t, task, task.remaining, task.completed + 1)
    case Failed(transport) =>
      if transport then FinishSync(w, t, Outstanding(task), task.completed)
      else Advance(w, t, task, task.remaining + [task.snapshot[task.index]], task.completed)
  }

  function SyncReply(w: World, t: nat, task: Task, link: Link): World
    requires task.Syncing? && task.index < |task.snapshot|
  {
    var op := task.snapshot[task.index];
    var (s, progress) := Respond(w.server, IdOfOperation(op), op.locationId, task.call, link);
    SyncProgress(WithServer(w, s), t, task, progress)
  }

  function StoreReply(w: World, t: nat, task: Task, link: Link): World
    requires task.Storing?
  {
    var (s, progress) := Respond(w.server, CanonicalId(task.spool), task.locationId, task.call, link);
    var v := WithServer(w, s);
    match progress
    case Next(call) => Hold(v, t, Storing(task.spool, task.locationId, task.locationName, call))
    case Done(_) => Release(v, t)
    case Failed(transport) =>
      if transport then BeginEnqueue(v.(unreachable := true), t, task.spool, task.locationId, task.locationName)
      else Release(v, t)
  }

  /** What `load_queue` makes of the card. */
  function Loaded(card: Option<Document>): (OfflineQueue, Document) {
    match card
    case None => (EMPTY_QUEUE, [])
    case Some(text) =>
      match DecodeQueue(text)
      case None => (EMPTY_QUEUE, [])
      case Some(q) => if q.schema == SCHEMA_VERSION then (q, text) else (EMPTY_QUEUE, [])
  }

  function Rebooted(w: World): World {
    var (q, text) := Loaded(w.card);
    w.(busy := false, tasks := map[], unreachable := true, queue := q, queueText := text)
  }

  /** Any other request under the lock: it ends with its last await, or at the first failure. */
  function RequestReply(w: World, t: nat, task: Task, link: Link): World
    requires task.Requesting?
  {
    if link == Answered && task.awaits > 0 then Hold(w, t, Requesting(task.awaits - 1)) else Release(w, t)
  }

  function Written(w: World, t: nat, task: Task): World
    requires IsWriting(task)
  {
    Hold(w.(card := Some(EncodeQueue(task.prepared))), t,
         if task.Enqueueing? then Enqueueing(task.spool, task.locationId, task.locationName, task.prepared, true)
         else Persisting(task.prepared, true))
  }

  function Resumed(w: World, t: nat, task: Task): World
    requires IsWriting(task)
  {
    Release(Commit(w, task.prepared), t)
  }

  /** One step. */
  function Step(w: World, a: Action): World {
    match a
    case StartStore(t, spool, known, locationId, locationName) =>
      w.(tasks := w.tasks[t := Waiting(spool, known, locationId, locationName)])
    case Proceed(t) =>
      if t !in w.tasks || !w.tasks[t].Waiting? then w
      else
        var task := w.tasks[t];
        if w.busy then w.(tasks := w.tasks - {t})
        else if w.unreachable then BeginEnqueue(w, t, task.spool, task.locationId, task.locationName)
        else Hold(w, t, Storing(task.spool, task.locationId, task.locationName,
                                if task.known.Some? then Move(task.known.value) else Find))
    case StartRequest(t, awaits) => if w.busy then w else Hold(w, t, Requesting(awaits))
    case StartSync(t) =>
      if w.busy || w.queue.operations == [] then w else Hold(w, t, Syncing(w.queue.operations, 0, [], 0, Find))
    case Reply(t, link) =>
      if t !in w.tasks then w
      else
        var task := w.tasks[t];
        if task.Requesting? then RequestReply(w, t, task, link)
        else if task.Storing? then StoreReply(w, t, task, link)
        else if task.Syncing? && task.index < |task.snapshot| then SyncReply(w, t, task, link)
        else w
    case CardWrite(t, ok) =>
      if t !in w.tasks || !IsWriting(w.tasks[t]) then w
      else if ok then Written(w, t, w.tasks[t])
      else Release(w, t)
    case Resume(t) =>
      if t !in w.tasks || !IsDirty(w.tasks[t]) then w else Resumed(w, t, w.tasks[t])
    case SetUnreachable(value) => w.(unreachable := value)
    case OthersChange(server) => WithServer(w, server)
    case Crash => Rebooted(w)
  }

  function StoreReport(w: World, task: Task, link: Link): Report
    requires task.Storing?
  {
    var (_, progress) := Respond(w.server, CanonicalId(task.spool), task.locationId, task.call, link);
    match progress
    case Next(_) => Silent
    case Done(_) => Moved(CanonicalId(task.spool), task.locationId)
    case Failed(transport) =>
      if transport then EnqueueReport(w, task.spool, task.locationId, task.locationName) else Rejected
  }

  /** What the step tells the user. */
  function ReportOf(w: World, a: Action): Report {
    match a
    case Proceed(t) =>
      if t !in w.tasks || !w.tasks[t].Waiting? then Silent
      else if w.busy then Rejected
      else if w.unreachable then EnqueueReport(w, w.tasks[t].spool, w.tasks[t].locationId, w.tasks[t].locationName)
      else Silent
    case Reply(t, link) =>
      if t !in w.tasks || !w.tasks[t].Storing? then Silent
      else StoreReport(w, w.tasks[t], link)
    case CardWrite(t, ok) =>
      if t in w.tasks && w.tasks[t].Enqueueing? && !ok then Rejected else Silent
    case Resume(t) =>
      if t in w.tasks && IsDirty(w.tasks[t]) && w.tasks[t].Enqueueing?
      then Queued(CanonicalId(w.tasks[t].spool), w.tasks[t].locationId) else Silent
    case _ => Silent
  }

  // ---- The invariant ----

  /** `busy` is set exactly while one task is inside its critical section, and never two are. */
  ghost predicate LockOk(w: World) {
    && (w.busy <==> exists t :: t in w.tasks && Holds(w.tasks[t]))
    && forall t, u :: t in w.tasks && u in w.tasks && Holds(w.tasks[t]) && Holds(w.tasks[u]) ==> t == u
  }

  /** The text the device believes to be on the card decodes to the queue in memory. */
  ghost predicate TextOk(w: World) {
    TextFits(w.queue, w.queueText)
  }

  ghost predicate CardMatches(w: World) {
    CardFits(w.card, w.queueText)
  }

  ghost predicate CardOk(w: World) {
    && (forall t :: t in w.tasks && IsDirty(w.tasks[t]) ==> w.card == Some(EncodeQueue(w.tasks[t].prepared)))
    && ((forall t :: t in w.tasks ==> !IsDirty(w.tasks[t])) ==> CardMatches(w))
  }

  ghost predicate TaskOk(w: World, task: Task) {
    match task
    case Waiting(_, _, _, _) => true
    case Requesting(_) => true
    case Storing(_, _, _, _) => true
    case Enqueueing(spool, locationId, locationName, prepared, _) =>
      prepared == Requested(w.queue, spool, locationId, locationName)
    case Syncing(snapshot, index, remaining, _, call) =>
      && snapshot == w.queue.operations
      && index < |snapshot|
      && QueueOk(w.queue.(operations := Outstanding(task)))
      && CallOk(w.server, IdOfOperation(snapshot[index]), call)
    case Persisting(prepared, _) => QueueOk(prepared)
  }

  ghost predicate Safe(w: World) {
    && LockOk(w)
    && ServerOk(w.server)
    && QueueOk(w.queue)
    && TextOk(w)
    && CardOk(w)
    && forall t :: t in w.tasks ==> TaskOk(w, w.tasks[t])
  }

  ghost predicate Initial(w: World) {
    && !w.busy && w.tasks == map[]
    && ServerOk(w.server)
    && (w.queue, w.queueText) == Loaded(w.card)
    && QueueOk(w.queue)
    && CardMatches(w)
  }

  /** Accepted requests that no pass has carried out yet. */
  type Promises = map<string, nat>

  ghost predicate AllWanted(operations: seq<PendingStorage>, owed: Promises) {
    forall id :: id in owed ==> Wanted(operations, id) == Some(owed[id])
  }

  ghost predicate TaskKeeps(task: Task, owed: Promises) {
    match task
    case Syncing(snapshot, index, _, _, _) => index <= |snapshot| && AllWanted(Outstanding(task), owed)
    case Persisting(prepared, _) => AllWanted(prepared.operations, owed)
    case Enqueueing(spool, _, _, _, written) => written ==> CanonicalId(spool) !in owed
    case _ => true
  }

  ghost predicate Kept(w: World, owed: Promises) {
    && AllWanted(w.queue.operations, owed)
    && forall t :: t in w.tasks ==> TaskKeeps(w.tasks[t], owed)
  }

  /** A step that puts another request for the id on the card. */
  predicate Overwrites(w: World, a: Action, id: string) {
    match a
    case CardWrite(t, ok) =>
      t in w.tasks && w.tasks[t].Enqueueing? && ok && CanonicalId(w.tasks[t].spool) == id
    case _ => false
  }

  /** The answer that ends the device's own operation for the id and the place: the spool is there. */
  predicate Completes(w: World, a: Action, id: string, locationId: nat) {
    a.Reply? && a.t in w.tasks && w.tasks[a.t].Syncing? && w.tasks[a.t].index < |w.tasks[a.t].snapshot|
    && var task := w.tasks[a.t];
       var op := task.snapshot[task.index];
       && IdOfOperation(op) == id && op.locationId == locationId
       && Respond(w.server, id, locationId, task.call, a.link).1.Done?
  }

  /** The promises an operation does not fulfil. */
  ghost function Without(owed: Promises, op: PendingStorage): Promises {
    map id | id in owed && (id != IdOfOperation(op) || owed[id] != op.locationId) :: owed[id]
  }

  /** A promise begins when the user is told. It ends when another request for the spool is written over it,
      or when a synchronisation pass carries out its operation. */
  ghost function Promised(w: World, a: Action, owed: Promises): Promises {
    var open := map id | id in owed && !Overwrites(w, a, id) && !Completes(w, a, id, owed[id]) :: owed[id];
    if ReportOf(w, a).Queued? then open[ReportOf(w, a).id := ReportOf(w, a).locationId] else open
  }

  // ---- The queue under removal ----

  lemma RemovalKeepsOrder(q: OfflineQueue, a: seq<PendingStorage>, x: PendingStorage, b: seq<PendingStorage>)
    requires QueueOk(q.(operations := a + [x] + b))
    ensures QueueOk(q.(operations := a + b))
  {
    var all, fewer := a + [x] + b, a + b;
    assert forall i :: 0 <= i < |fewer| ==> fewer[i] == all[if i < |a| then i else i + 1];
  }

  lemma RemovalKeepsWishes(a: seq<PendingStorage>, x: PendingStorage, b: seq<PendingStorage>, id: string)
    requires DistinctIds(a + [x] + b) && DistinctIds(a + b) && id != IdOfOperation(x)
    ensures Wanted(a + b, id) == Wanted(a + [x] + b, id)
  {
    var all, fewer := a + [x] + b, a + b;
    var n := FindOperation(all, id);
    if n < |all| {
      assert fewer[if n < |a| then n else n - 1] == all[n];
      WantedIsUnique(fewer, if n < |a| then n else n - 1);
    } else {
      forall i | 0 <= i < |fewer| ensures IdOfOperation(fewer[i]) != id {
        assert fewer[i] == all[if i < |a| then i else i + 1];
      }
    }
  }

  lemma RemovalKeepsQueue(q: OfflineQueue, a: seq<PendingStorage>, x: PendingStorage, b: seq<PendingStorage>)
    requires QueueOk(q.(operations := a + [x] + b))
    ensures QueueOk(q.(operations := a + b))
    ensures forall id :: id != IdOfOperation(x) ==> Wanted(a + b, id) == Wanted(a + [x] + b, id)
  {
    RemovalKeepsOrder(q, a, x, b);
    forall id | id != IdOfOperation(x) ensures Wanted(a + b, id) == Wanted(a + [x] + b, id) {
      RemovalKeepsWishes(a, x, b, id);
    }
  }

  /** Where the card wants a spool to be. */
  function CardWants(card: Option<Document>, id: string): Option<nat> {
    Wanted(Loaded(card).0.operations, id)
  }

  lemma EncodedWants(q: OfflineQueue, id: string)
    requires q.schema == SCHEMA_VERSION
    ensures CardWants(Some(EncodeQueue(q)), id) == Wanted(q.operations, id)
  {
    QueueRoundTrip(q);
    StoredWants(q.operations, id);
  }

  /** The same bytes want the same places. */
  lemma UnchangedWants(w: World, q: OfflineQueue, id: string)
    requires TextOk(w) && EncodeQueue(q) == w.queueText
    ensures Wanted(q.operations, id) == Wanted(w.queue.operations, id)
  {
    QueueRoundTrip(q);
    StoredWants(q.operations, id);
    StoredWants(w.queue.operations, id);
  }

  // ---- Every step keeps the invariant ----

  /** Everything is in order and only `t` can be inside its critical section. */
  ghost predicate Calm(w: World, t: nat) {
    && ServerOk(w.server)
    && QueueOk(w.queue)
    && TextOk(w)
    && CardMatches(w)
    && Alone(w, t)
  }

  /** Only `t` can be inside its critical section. */
  ghost predicate Alone(w: World, t: nat) {
    forall u :: u in w.tasks && u != t ==> w.tasks[u].Waiting?
  }

  lemma HolderIsAlone(w: World, t: nat)
    requires LockOk(w) && t in w.tasks && Holds(w.tasks[t])
    ensures Alone(w, t)
  {
  }

  lemma ReleaseIsSafe(w: World, t: nat)
    requires Calm(w, t)
    ensures Safe(Release(w, t))
  {
  }

  lemma HoldIsSafe(w: World, t: nat, task: Task)
    requires Calm(w, t) && Holds(task) && !IsDirty(task) && TaskOk(w, task)
    ensures Safe(Hold(w, t, task))
  {
    var v := Hold(w, t, task);
    assert t in v.tasks && v.tasks[t] == task;
    assert forall u :: u in v.tasks ==> u == t || v.tasks[u].Waiting?;
  }

  lemma CommitIsCalm(w: World, t: nat, q: OfflineQueue)
    requires Calm(w, t) && QueueOk(q) && EncodeQueue(q) == w.queueText
    ensures Calm(Commit(w, q), t)
  {
    QueueRoundTrip(q);
  }

  lemma BeginEnqueueIsSafe(w: World, t: nat, spool: FilamentSpool, locationId: nat, locationName: string)
    requires Calm(w, t)
    ensures Safe(BeginEnqueue(w, t, spool, locationId, locationName))
  {
    var q := Requested(w.queue, spool, locationId, locationName);
    RequestIsPrecise(w.queue, spool, locationId, locationName);
    if !w.hasCard {
      ReleaseIsSafe(w, t);
    } else if EncodeQueue(q) == w.queueText {
      CommitIsCalm(w, t, q);
      ReleaseIsSafe(Commit(w, q), t);
    } else {
      HoldIsSafe(w, t, Enqueueing(spool, locationId, locationName, q, false));
    }
  }

  lemma FinishSyncIsSafe(w: World, t: nat, remaining: seq<PendingStorage>, completed: nat)
    requires Calm(w, t) && QueueOk(w.queue.(operations := remaining))
    ensures Safe(FinishSync(w, t, remaining, completed))
  {
    var q := w.queue.(operations := remaining);
    if completed == 0 {
      ReleaseIsSafe(w, t);
    } else if EncodeQueue(q) == w.queueText {
      CommitIsCalm(w, t, q);
      ReleaseIsSafe(Commit(w, q), t);
    } else {
      HoldIsSafe(w, t, Persisting(q, false));
    }
  }

  lemma AdvanceIsSafe(w: World, t: nat, task: Task, remaining: seq<PendingStorage>, completed: nat)
    requires Calm(w, t) && task.Syncing? && task.index < |task.snapshot| && task.snapshot == w.queue.operations
    requires QueueOk(w.queue.(operations := remaining + task.snapshot[task.index + 1..]))
    ensures Safe(Advance(w, t, task, remaining, completed))
  {
    if task.index + 1 < |task.snapshot| {
      HoldIsSafe(w, t, Syncing(task.snapshot, task.index + 1, remaining, completed, Find));
    } else {
      assert remaining + task.snapshot[task.index + 1..] == remaining;
      FinishSyncIsSafe(w, t, remaining, completed);
    }
  }

  /** The three ways to write what is outstanding around the current operation. */
  lemma OutstandingSplits(task: Task)
    requires task.Syncing? && task.index < |task.snapshot|
    ensures Outstanding(task) == task.remaining + [task.snapshot[task.index]] + task.snapshot[task.index + 1..]
  {
    assert task.snapshot[task.index..] == [task.snapshot[task.index]] + task.snapshot[task.index + 1..];
  }

  lemma SyncProgressIsSafe(w: World, t: nat, task: Task, progress: Progress)
    requires Calm(w, t) && task.Syncing? && TaskOk(w, task)
    requires progress.Next? ==> CallOk(w.server, IdOfOperation(task.snapshot[task.index]), progress.call)
    ensures Safe(SyncProgress(w, t, task, progress))
  {
    var op := task.snapshot[task.index];
    OutstandingSplits(task);
    match progress
    case Next(call) =>
      var task' := Syncing(task.snapshot, task.index, task.remaining, task.completed, call);
      assert Outstanding(task') == Outstanding(task);
      HoldIsSafe(w, t, task');
    case Done(_) =>
      RemovalKeepsQueue(w.queue, task.remaining, op, task.snapshot[task.index + 1..]);
      AdvanceIsSafe(w, t, task, task.remaining, task.completed + 1);
    case Failed(transport) =>
      if transport {
        FinishSyncIsSafe(w, t, Outstanding(task), task.completed);
      } else {
        AdvanceIsSafe(w, t, task, task.remaining + [op], task.completed);
      }
  }

  lemma SyncReplyIsSafe(w: World, t: nat, task: Task, link: Link)
    requires Calm(w, t) && task.Syncing? && TaskOk(w, task)
    ensures Safe(SyncReply(w, t, task, link))
  {
    var op := task.snapshot[task.index];
    var (s, progress) := Respond(w.server, IdOfOperation(op), op.locationId, task.call, link);
    RespondIsSafe(w.server, IdOfOperation(op), op.locationId, task.call, link);
    var v := WithServer(w, s);
    assert Calm(v, t);
    assert TaskOk(v, task);
    SyncProgressIsSafe(v, t, task, progress);
  }

  lemma RespondKeepsServer(s: Server, id: string, locationId: nat, call: Call, link: Link)
    requires ServerOk(s)
    ensures ServerOk(Respond(s, id, locationId, call, link).0)
            && OwnersKept(s, Respond(s, id, locationId, call, link).0)
  {
  }

  lemma StoreReplyIsSafe(w: World, t: nat, task: Task, link: Link)
    requires Calm(w, t) && task.Storing?
    ensures Safe(StoreReply(w, t, task, link))
  {
    var (s, progress) := Respond(w.server, CanonicalId(task.spool), task.locationId, task.call, link);
    RespondKeepsServer(w.server, CanonicalId(task.spool), task.locationId, task.call, link);
    var v := WithServer(w, s);
    match progress
    case Next(call) => HoldIsSafe(v, t, Storing(task.spool, task.locationId, task.locationName, call));
    case Done(_) => ReleaseIsSafe(v, t);
    case Failed(transport) =>
      if transport {
        BeginEnqueueIsSafe(v.(unreachable := true), t, task.spool, task.locationId, task.locationName);
      } else {
        ReleaseIsSafe(v, t);
      }
  }

  lemma WriteIsSafe(w: World, t: nat, task: Task)
    requires Safe(w) && t in w.tasks && w.tasks[t] == task && IsWriting(task)
    ensures Safe(Written(w, t, task))
  {
    HolderIsAlone(w, t);
    var v := Written(w, t, task);
    assert t in v.tasks && IsDirty(v.tasks[t]) && v.tasks[t].prepared == task.prepared;
    assert forall u :: u in v.tasks ==> u == t || v.tasks[u].Waiting?;
  }

  lemma ResumeIsSafe(w: World, t: nat, task: Task)
    requires Safe(w) && t in w.tasks && w.tasks[t] == task && IsDirty(task)
    ensures Safe(Resumed(w, t, task))
  {
    HolderIsAlone(w, t);
    if task.Enqueueing? {
      RequestIsPrecise(w.queue, task.spool, task.locationId, task.locationName);
    }
    QueueRoundTrip(task.prepared);
    ReleaseIsSafe(Commit(w, task.prepared), t);
  }

  /** A queue the device wrote comes back from the card. */
  lemma LoadedIsOk(q: OfflineQueue, text: Document)
    requires QueueOk(q) && DecodeQueue(text) == Some(StoredQueue(q))
    ensures Loaded(Some(text)) == (StoredQueue(q), text) && QueueOk(StoredQueue(q))
    ensures StoredQueue(StoredQueue(q)) == StoredQueue(q)
  {
    assert forall i :: 0 <= i < |q.operations| ==>
             IdOfOperation(Stored(q.operations[i])) == IdOfOperation(q.operations[i]);
    assert StoredAll(StoredAll(q.operations)) == StoredAll(q.operations);
  }

  /** Whatever the card holds, it is a queue this device wrote, and reloading it restores order. */
  lemma CrashIsSafe(w: World)
    requires Safe(w)
    ensures Safe(Rebooted(w))
  {
    if t :| t in w.tasks && IsDirty(w.tasks[t]) {
      var prepared := w.tasks[t].prepared;
      if w.tasks[t].Enqueueing? {
        RequestIsPrecise(w.queue, w.tasks[t].spool, w.tasks[t].locationId, w.tasks[t].locationName);
      }
      QueueRoundTrip(prepared);
      LoadedIsOk(prepared, EncodeQueue(prepared));
    } else if w.queueText != [] {
      LoadedIsOk(w.queue, w.queueText);
    }
  }

  lemma SafeHolderIsCalm(w: World, t: nat)
    requires Safe(w) && t in w.tasks && Holds(w.tasks[t]) && !IsDirty(w.tasks[t])
    ensures Calm(w, t)
  {
    HolderIsAlone(w, t);
  }

  lemma SafeUnlockedIsCalm(w: World, t: nat)
    requires Safe(w) && !w.busy
    ensures Calm(w, t)
  {
  }

  lemma ReplyIsSafe(w: World, t: nat, link: Link)
    requires Safe(w) && Enabled(w, Reply(t, link))
    ensures Safe(Step(w, Reply(t, link)))
  {
    SafeHolderIsCalm(w, t);
    var task := w.tasks[t];
    if task.Requesting? {
      if link == Answered && task.awaits > 0 {
        HoldIsSafe(w, t, Requesting(task.awaits - 1));
      } else {
        ReleaseIsSafe(w, t);
      }
    } else if task.Storing? {
      StoreReplyIsSafe(w, t, task, link);
    } else {
      SyncReplyIsSafe(w, t, task, link);
    }
  }

  lemma AcquireIsSafe(w: World, a: Action)
    requires Safe(w) && Enabled(w, a) && (a.Proceed? || a.StartRequest? || a.StartSync?)
    ensures Safe(Step(w, a))
  {
    if !w.busy {
      SafeUnlockedIsCalm(w, a.t);
      match a
      case Proceed(t) =>
        var task := w.tasks[t];
        if w.unreachable {
          BeginEnqueueIsSafe(w, t, task.spool, task.locationId, task.locationName);
        } else {
          HoldIsSafe(w, t, Storing(task.spool, task.locationId, task.locationName,
                                   if task.known.Some? then Move(task.known.value) else Find));
        }
      case StartRequest(t, awaits) => HoldIsSafe(w, t, Requesting(awaits));
      case StartSync(t) =>
        if w.queue.operations != [] {
          assert [] + w.queue.operations[0..] == w.queue.operations;
          HoldIsSafe(w, t, Syncing(w.queue.operations, 0, [], 0, Find));
        }
    } else if a.Proceed? {
      LeaveIsSafe(w, a.t);
    }
  }

  lemma LeaveIsSafe(w: World, t: nat)
    requires Safe(w) && t in w.tasks && w.tasks[t].Waiting?
    ensures Safe(w.(tasks := w.tasks - {t}))
  {
    var v := w.(tasks := w.tasks - {t});
    if w.busy {
      var u :| u in w.tasks && Holds(w.tasks[u]);
      assert u in v.tasks;
    }
    if forall u :: u in v.tasks ==> !IsDirty(v.tasks[u]) {
      assert forall u :: u in w.tasks ==> u == t || u in v.tasks;
    }
  }

  lemma EnterKeepsLock(w: World, t: nat, task: Task)
    requires LockOk(w) && t !in w.tasks && task.Waiting?
    ensures LockOk(w.(tasks := w.tasks[t := task]))
  {
    var v := w.(tasks := w.tasks[t := task]);
    if w.busy {
      var u :| u in w.tasks && Holds(w.tasks[u]);
      assert u in v.tasks && v.tasks[u] == w.tasks[u];
    }
  }

  lemma EnterKeepsCard(w: World, t: nat, task: Task)
    requires CardOk(w) && t !in w.tasks && task.Waiting?
    ensures CardOk(w.(tasks := w.tasks[t := task]))
  {
    var v := w.(tasks := w.tasks[t := task]);
    assert forall u :: u in w.tasks ==> u in v.tasks && v.tasks[u] == w.tasks[u];
  }

  lemma EnterIsSafe(w: World, t: nat, task: Task)
    requires Safe(w) && t !in w.tasks && task.Waiting?
    ensures Safe(w.(tasks := w.tasks[t := task]))
  {
    EnterKeepsLock(w, t, task);
    EnterKeepsCard(w, t, task);
  }

  lemma CardWriteIsSafe(w: World, t: nat, ok: bool)
    requires Safe(w) && Enabled(w, CardWrite(t, ok))
    ensures Safe(Step(w, CardWrite(t, ok)))
  {
    if ok {
      WriteIsSafe(w, t, w.tasks[t]);
    } else {
      SafeHolderIsCalm(w, t);
      ReleaseIsSafe(w, t);
    }
  }

  lemma OthersAreSafe(w: World, server: Server)
    requires Safe(w) && ServerOk(server) && OwnersKept(w.server, server)
    ensures Safe(WithServer(w, server))
  {
  }

  /** Every step of every task, every choice of the network and the card, every change by other clients
      and every crash keeps the lock, the queue and the card in order. */
  lemma StepIsSafe(w: World, a: Action)
    requires Safe(w) && Enabled(w, a)
    ensures Safe(Step(w, a))
  {
    match a
    case StartStore(t, spool, known, locationId, locationName) =>
      EnterIsSafe(w, t, Waiting(spool, known, locationId, locationName));
    case Proceed(_) => AcquireIsSafe(w, a);
    case StartRequest(_, _) => AcquireIsSafe(w, a);
    case StartSync(_) => AcquireIsSafe(w, a);
    case Reply(t, link) => ReplyIsSafe(w, t, link);
    case CardWrite(t, ok) => CardWriteIsSafe(w, t, ok);
    case Resume(t) => ResumeIsSafe(w, t, w.tasks[t]);
    case SetUnreachable(_) =>
    case OthersChange(server) => OthersAreSafe(w, server);
    case Crash => CrashIsSafe(w);
  }

  // ---- Every step keeps the promises ----

  ghost predicate Fewer(some: Promises, all: Promises) {
    forall id :: id in some ==> id in all && some[id] == all[id]
  }

  lemma FewerIsKept(w: World, some: Promises, all: Promises)
    requires Kept(w, all) && Fewer(some, all)
    ensures Kept(w, some)
  {
  }

  lemma ReleaseKeeps(w: World, t: nat, owed: Promises)
    requires Alone(w, t) && AllWanted(w.queue.operations, owed)
    ensures Kept(Release(w, t), owed)
  {
  }

  lemma HoldKeeps(w: World, t: nat, task: Task, owed: Promises)
    requires Alone(w, t) && AllWanted(w.queue.operations, owed)
    requires TaskKeeps(task, owed)
    ensures Kept(Hold(w, t, task), owed)
  {
    var v := Hold(w, t, task);
    assert forall u :: u in v.tasks ==> (u == t && v.tasks[u] == task) || v.tasks[u].Waiting?;
  }

  /** Accepting a request keeps every other promise and, if it is told at once, the new one. */
  lemma BeginEnqueueKeeps(w: World, t: nat, spool: FilamentSpool, locationId: nat, locationName: string, owed: Promises)
    requires Calm(w, t) && AllWanted(w.queue.operations, owed)
    ensures var report := EnqueueReport(w, spool, locationId, locationName);
      Kept(BeginEnqueue(w, t, spool, locationId, locationName),
           if report.Queued? then owed[report.id := report.locationId] else owed)
  {
    var q := Requested(w.queue, spool, locationId, locationName);
    RequestIsPrecise(w.queue, spool, locationId, locationName);
    if !w.hasCard {
      ReleaseKeeps(w, t, owed);
    } else if EncodeQueue(q) == w.queueText {
      forall id ensures Wanted(q.operations, id) == Wanted(w.queue.operations, id) {
        UnchangedWants(w, q, id);
      }
      ReleaseKeeps(Commit(w, q), t, owed[CanonicalId(spool) := locationId]);
    } else {
      HoldKeeps(w, t, Enqueueing(spool, locationId, locationName, q, false), owed);
    }
  }

  lemma FinishSyncKeeps(w: World, t: nat, remaining: seq<PendingStorage>, completed: nat, owed: Promises)
    requires Alone(w, t) && AllWanted(w.queue.operations, owed)
    requires AllWanted(remaining, owed)
    ensures Kept(FinishSync(w, t, remaining, completed), owed)
  {
    var q := w.queue.(operations := remaining);
    if completed == 0 {
      ReleaseKeeps(w, t, owed);
    } else if EncodeQueue(q) == w.queueText {
      ReleaseKeeps(Commit(w, q), t, owed);
    } else {
      HoldKeeps(w, t, Persisting(q, false), owed);
    }
  }

  lemma AdvanceKeeps(w: World, t: nat, task: Task, remaining: seq<PendingStorage>, completed: nat, owed: Promises)
    requires Alone(w, t) && task.Syncing? && task.index < |task.snapshot|
    requires AllWanted(w.queue.operations, owed)
    requires AllWanted(remaining + task.snapshot[task.index + 1..], owed)
    ensures Kept(Advance(w, t, task, remaining, completed), owed)
  {
    if task.index + 1 < |task.snapshot| {
      var next := Syncing(task.snapshot, task.index + 1, remaining, completed, Find);
      assert Outstanding(next) == remaining + task.snapshot[task.index + 1..];
      HoldKeeps(w, t, next, owed);
    } else {
      assert remaining + task.snapshot[task.index + 1..] == remaining;
      FinishSyncKeeps(w, t, remaining, completed, owed);
    }
  }

  lemma KeptByHolder(w: World, t: nat, owed: Promises)
    requires Kept(w, owed) && t in w.tasks
    ensures AllWanted(w.queue.operations, owed) && TaskKeeps(w.tasks[t], owed)
  {
  }

  lemma FewerIsWanted(operations: seq<PendingStorage>, some: Promises, all: Promises)
    requires AllWanted(operations, all) && Fewer(some, all)
    ensures AllWanted(operations, some)
  {
  }

  /** Taking a completed operation out of the list breaks no promise that is still open. */
  lemma CompletionKeeps(q: OfflineQueue, a: seq<PendingStorage>, op: PendingStorage, b: seq<PendingStorage>,
                        owed: Promises)
    requires QueueOk(q.(operations := a + [op] + b)) && AllWanted(a + [op] + b, owed)
    ensures QueueOk(q.(operations := a + b)) && AllWanted(a + b, Without(owed, op))
  {
    RemovalKeepsQueue(q, a, op, b);
    WantedIsUnique(a + [op] + b, |a|);
    assert IdOfOperation(op) in owed ==> owed[IdOfOperation(op)] == op.locationId;
  }

  lemma SyncDoneKeeps(w: World, t: nat, task: Task, progress: Progress, owed: Promises)
    requires Alone(w, t) && task.Syncing? && task.index < |task.snapshot| && progress.Done?
    requires QueueOk(w.queue.(operations := Outstanding(task)))
    requires AllWanted(w.queue.operations, owed) && AllWanted(Outstanding(task), owed)
    ensures Kept(SyncProgress(w, t, task, progress), Without(owed, task.snapshot[task.index]))
  {
    OutstandingSplits(task);
    var op, rest := task.snapshot[task.index], task.snapshot[task.index + 1..];
    CompletionKeeps(w.queue, task.remaining, op, rest, owed);
    FewerIsWanted(w.queue.operations, Without(owed, op), owed);
    AdvanceKeeps(w, t, task, task.remaining, task.completed + 1, Without(owed, op));
    assert SyncProgress(w, t, task, progress) == Advance(w, t, task, task.remaining, task.completed + 1);
  }

  lemma SyncOtherKeeps(w: World, t: nat, task: Task, progress: Progress, owed: Promises)
    requires Alone(w, t) && task.Syncing? && task.index < |task.snapshot| && !progress.Done?
    requires AllWanted(w.queue.operations, owed) && AllWanted(Outstanding(task), owed)
    ensures Kept(SyncProgress(w, t, task, progress), owed)
  {
    match progress
    case Next(call) =>
      var next := Syncing(task.snapshot, task.index, task.remaining, task.completed, call);
      assert Outstanding(next) == Outstanding(task);
      HoldKeeps(w, t, next, owed);
    case Failed(transport) =>
      if transport {
        FinishSyncKeeps(w, t, Outstanding(task), task.completed, owed);
      } else {
        OutstandingSplits(task);
        AdvanceKeeps(w, t, task, task.remaining + [task.snapshot[task.index]], task.completed, owed);
      }
  }

  lemma SyncProgressKeeps(w: World, t: nat, task: Task, progress: Progress, owed: Promises)
    requires Alone(w, t) && task.Syncing? && task.index < |task.snapshot|
    requires QueueOk(w.queue.(operations := Outstanding(task)))
    requires AllWanted(w.queue.operations, owed) && AllWanted(Outstanding(task), owed)
    ensures Kept(SyncProgress(w, t, task, progress),
                 if progress.Done? then Without(owed, task.snapshot[task.index]) else owed)
  {
    if progress.Done? {
      SyncDoneKeeps(w, t, task, progress, owed);
    } else {
      SyncOtherKeeps(w, t, task, progress, owed);
    }
  }

  lemma SyncMovesNoSpool(w: World, t: nat, task: Task, progress: Progress)
    requires task.Syncing? && task.index < |task.snapshot|
    ensures SyncProgress(w, t, task, progress).server == w.server
  {
  }

  /** An operation leaves the outstanding list only when it is carried out. */
  lemma SyncReplyKeeps(w: World, t: nat, task: Task, link: Link, owed: Promises)
    requires Calm(w, t) && task.Syncing? && TaskOk(w, task)
    requires AllWanted(w.queue.operations, owed) && TaskKeeps(task, owed)
    ensures var op := task.snapshot[task.index];
      var done := Respond(w.server, IdOfOperation(op), op.locationId, task.call, link).1.Done?;
      Kept(SyncReply(w, t, task, link), if done then Without(owed, op) else owed)
  {
    var op := task.snapshot[task.index];
    var (s, progress) := Respond(w.server, IdOfOperation(op), op.locationId, task.call, link);
    SyncProgressKeeps(WithServer(w, s), t, task, progress, owed);
  }

  lemma StoreReplyKeeps(w: World, t: nat, task: Task, link: Link, owed: Promises)
    requires Calm(w, t) && task.Storing? && AllWanted(w.queue.operations, owed)
    ensures var report := StoreReport(w, task, link);
      Kept(StoreReply(w, t, task, link), if report.Queued? then owed[report.id := report.locationId] else owed)
  {
    var (s, progress) := Respond(w.server, CanonicalId(task.spool), task.locationId, task.call, link);
    RespondKeepsServer(w.server, CanonicalId(task.spool), task.locationId, task.call, link);
    var v := WithServer(w, s);
    assert Calm(v, t);
    match progress
    case Next(call) => HoldKeeps(v, t, Storing(task.spool, task.locationId, task.locationName, call), owed);
    case Done(_) => ReleaseKeeps(v, t, owed);
    case Failed(transport) =>
      if transport {
        BeginEnqueueKeeps(v.(unreachable := true), t, task.spool, task.locationId, task.locationName, owed);
      } else {
        ReleaseKeeps(v, t, owed);
      }
  }

  /** What is promised is on the card, at every moment. */
  lemma CardHasPromises(w: World, owed: Promises)
    requires Safe(w) && Kept(w, owed)
    ensures forall id :: id in owed ==> CardWants(w.card, id) == Some(owed[id])
  {
    forall id | id in owed ensures CardWants(w.card, id) == Some(owed[id]) {
      if t :| t in w.tasks && IsDirty(w.tasks[t]) {
        var task := w.tasks[t];
        if task.Enqueueing? {
          RequestIsPrecise(w.queue, task.spool, task.locationId, task.locationName);
        }
        assert TaskKeeps(task, owed);
        EncodedWants(task.prepared, id);
      } else if w.queueText != [] {
        LoadedIsOk(w.queue, w.queueText);
        StoredWants(w.queue.operations, id);
      }
    }
  }

  lemma CrashKeeps(w: World, owed: Promises)
    requires Safe(w) && Kept(w, owed)
    ensures Kept(Rebooted(w), owed)
  {
    CardHasPromises(w, owed);
  }

  lemma WriteKeeps(w: World, t: nat, task: Task, owed: Promises)
    requires LockOk(w) && Kept(w, owed) && t in w.tasks && w.tasks[t] == task && IsWriting(task)
    requires task.Enqueueing? ==> CanonicalId(task.spool) !in owed
    ensures Kept(Written(w, t, task), owed)
  {
    HolderIsAlone(w, t);
    var v := Written(w, t, task);
    assert TaskKeeps(task, owed);
    assert forall u :: u in v.tasks ==> u == t || v.tasks[u].Waiting?;
  }

  lemma ResumeKeeps(w: World, t: nat, task: Task, owed: Promises)
    requires Safe(w) && Kept(w, owed) && t in w.tasks && w.tasks[t] == task && IsDirty(task)
    ensures Kept(Resumed(w, t, task),
                 if task.Enqueueing? then owed[CanonicalId(task.spool) := task.locationId] else owed)
  {
    HolderIsAlone(w, t);
    assert TaskKeeps(task, owed);
    if task.Enqueueing? {
      RequestIsPrecise(w.queue, task.spool, task.locationId, task.locationName);
    }
  }

  lemma RequestReplyKeeps(w: World, t: nat, task: Task, link: Link, owed: Promises)
    requires Alone(w, t) && task.Requesting? && AllWanted(w.queue.operations, owed)
    ensures Kept(RequestReply(w, t, task, link), owed)
  {
    if link == Answered && task.awaits > 0 {
      HoldKeeps(w, t, Requesting(task.awaits - 1), owed);
    } else {
      ReleaseKeeps(w, t, owed);
    }
  }

  lemma SyncingIsCalm(w: World, t: nat)
    requires Safe(w) && t in w.tasks && w.tasks[t].Syncing?
    ensures Calm(w, t) && TaskOk(w, w.tasks[t])
  {
    SafeHolderIsCalm(w, t);
  }

  lemma SyncStepKeeps(w: World, t: nat, link: Link, owed: Promises)
    requires Safe(w) && Kept(w, owed) && t in w.tasks && w.tasks[t].Syncing?
    ensures Kept(Step(w, Reply(t, link)), Promised(w, Reply(t, link), owed))
  {
    var a := Reply(t, link);
    var task := w.tasks[t];
    SyncingIsCalm(w, t);
    KeptByHolder(w, t, owed);
    SyncReplyKeeps(w, t, task, link, owed);
    PaidIsFewer(w, t, task, link, owed);
    var op := task.snapshot[task.index];
    var progress := Respond(w.server, IdOfOperation(op), op.locationId, task.call, link).1;
    assert Step(w, a) == SyncReply(w, t, task, link);
    FewerIsKept(SyncReply(w, t, task, link), Promised(w, a, owed), if progress.Done? then Without(owed, op) else owed);
  }

  lemma PaidIsFewer(w: World, t: nat, task: Task, link: Link, owed: Promises)
    requires t in w.tasks && w.tasks[t] == task && task.Syncing? && task.index < |task.snapshot|
    ensures var op := task.snapshot[task.index];
      var progress := Respond(w.server, IdOfOperation(op), op.locationId, task.call, link).1;
      Fewer(Promised(w, Reply(t, link), owed), if progress.Done? then Without(owed, op) else owed)
  {
  }

  lemma ReplyKeeps(w: World, t: nat, link: Link, owed: Promises)
    requires Safe(w) && Kept(w, owed) && Enabled(w, Reply(t, link))
    ensures Kept(Step(w, Reply(t, link)), Promised(w, Reply(t, link), owed))
  {
    var a := Reply(t, link);
    var task := w.tasks[t];
    SafeHolderIsCalm(w, t);
    KeptByHolder(w, t, owed);
    if task.Requesting? {
      RequestReplyKeeps(w, t, task, link, owed);
      FewerIsKept(Step(w, a), Promised(w, a, owed), owed);
    } else if task.Storing? {
      StoreReplyKeeps(w, t, task, link, owed);
      var report := StoreReport(w, task, link);
      FewerIsKept(Step(w, a), Promised(w, a, owed),
                  if report.Queued? then owed[report.id := report.locationId] else owed);
    } else {
      SyncStepKeeps(w, t, link, owed);
    }
  }

  lemma AcquireKeeps(w: World, a: Action, owed: Promises)
    requires Safe(w) && Kept(w, owed) && Enabled(w, a) && (a.Proceed? || a.StartRequest? || a.StartSync?)
    ensures Kept(Step(w, a), Promised(w, a, owed))
  {
    var report := ReportOf(w, a);
    var told := if report.Queued? then owed[report.id := report.locationId] else owed;
    if !w.busy {
      SafeUnlockedIsCalm(w, a.t);
      match a
      case Proceed(t) =>
        var task := w.tasks[t];
        if w.unreachable {
          BeginEnqueueKeeps(w, t, task.spool, task.locationId, task.locationName, owed);
        } else {
          HoldKeeps(w, t, Storing(task.spool, task.locationId, task.locationName,
                                  if task.known.Some? then Move(task.known.value) else Find), owed);
        }
      case StartRequest(t, awaits) => HoldKeeps(w, t, Requesting(awaits), owed);
      case StartSync(t) =>
        if w.queue.operations != [] {
          var task := Syncing(w.queue.operations, 0, [], 0, Find);
          assert Outstanding(task) == w.queue.operations;
          HoldKeeps(w, t, task, owed);
        }
    }
    FewerIsKept(Step(w, a), Promised(w, a, owed), told);
  }

  lemma CardWriteKeeps(w: World, t: nat, ok: bool, owed: Promises)
    requires Safe(w) && Kept(w, owed) && Enabled(w, CardWrite(t, ok))
    ensures Kept(Step(w, CardWrite(t, ok)), Promised(w, CardWrite(t, ok), owed))
  {
    var a := CardWrite(t, ok);
    if ok {
      var open := map id | id in owed && !Overwrites(w, a, id) :: owed[id];
      FewerIsKept(w, open, owed);
      WriteKeeps(w, t, w.tasks[t], open);
      FewerIsKept(Step(w, a), Promised(w, a, owed), open);
    } else {
      SafeHolderIsCalm(w, t);
      KeptByHolder(w, t, owed);
      ReleaseKeeps(w, t, owed);
      FewerIsKept(Step(w, a), Promised(w, a, owed), owed);
    }
  }

  lemma ResumeStepKeeps(w: World, t: nat, owed: Promises)
    requires Safe(w) && Kept(w, owed) && Enabled(w, Resume(t))
    ensures Kept(Step(w, Resume(t)), Promised(w, Resume(t), owed))
  {
    var task := w.tasks[t];
    ResumeKeeps(w, t, task, owed);
    FewerIsKept(Step(w, Resume(t)), Promised(w, Resume(t), owed),
                if task.Enqueueing? then owed[CanonicalId(task.spool) := task.locationId] else owed);
  }

  /** No step breaks a promise: a request stays on the card until another request for the spool is
      written over it or a pass has carried it out. */
  lemma StepKeepsPromises(w: World, a: Action, owed: Promises)
    requires Safe(w) && Kept(w, owed) && Enabled(w, a)
    ensures Kept(Step(w, a), Promised(w, a, owed))
  {
    match a
    case StartStore(_, _, _, _, _) => FewerIsKept(Step(w, a), Promised(w, a, owed), owed);
    case Proceed(_) => AcquireKeeps(w, a, owed);
    case StartRequest(_, _) => AcquireKeeps(w, a, owed);
    case StartSync(_) => AcquireKeeps(w, a, owed);
    case Reply(t, link) => ReplyKeeps(w, t, link, owed);
    case CardWrite(t, ok) =>
      CardWriteKeeps(w, t, ok, owed);
    case Resume(t) => ResumeStepKeeps(w, t, owed);
    case SetUnreachable(_) => FewerIsKept(Step(w, a), Promised(w, a, owed), owed);
    case OthersChange(_) => FewerIsKept(Step(w, a), Promised(w, a, owed), owed);
    case Crash =>
      CrashKeeps(w, owed);
      FewerIsKept(Step(w, a), Promised(w, a, owed), owed);
  }

  // ---- Whole runs ----

  ghost predicate IsRun(worlds: seq<World>, actions: seq<Action>) {
    && |worlds| == |actions| + 1
    && Initial(worlds[0])
    && forall i :: 0 <= i < |actions| ==> Enabled(worlds[i], actions[i]) && worlds[i + 1] == Step(worlds[i], actions[i])
  }

  /** The promises open after the first `n` steps. */
  ghost function PromisesAt(worlds: seq<World>, actions: seq<Action>, n: nat): Promises
    requires n <= |actions| < |worlds|
  {
    if n == 0 then map[]
    else Promised(worlds[n - 1], actions[n - 1], PromisesAt(worlds, actions, n - 1))
  }

  lemma InitialIsSafe(w: World)
    requires Initial(w)
    ensures Safe(w)
  {
    if w.queueText != [] {
      var q := w.queue;
      assert DecodeQueue(w.queueText) == Some(q);
      DecodedIsStored(w.queueText);
    }
  }

  /** Every reachable world is safe and keeps its promises. */
  lemma {:induction false} RunIsSafe(worlds: seq<World>, actions: seq<Action>, n: nat)
    requires IsRun(worlds, actions) && n <= |actions|
    ensures Safe(worlds[n]) && Kept(worlds[n], PromisesAt(worlds, actions, n))
  {
    if n == 0 {
      InitialIsSafe(worlds[0]);
    } else {
      RunIsSafe(worlds, actions, n - 1);
      StepIsSafe(worlds[n - 1], actions[n - 1]);
      StepKeepsPromises(worlds[n - 1], actions[n - 1], PromisesAt(worlds, actions, n - 1));
    }
  }

  /** A later request for the spool: written to the card, or confirmed because it changes nothing. */
  predicate Requests(w: World, a: Action, id: string) {
    Overwrites(w, a, id) || (ReportOf(w, a).Queued? && ReportOf(w, a).id == id)
  }

  lemma {:induction false} PromiseStays(worlds: seq<World>, actions: seq<Action>, i: nat, j: nat, id: string,
                                        locationId: nat)
    requires |worlds| == |actions| + 1 && i < j <= |actions|
    requires ReportOf(worlds[i], actions[i]) == Queued(id, locationId)
    requires forall k :: i < k < j ==>
               !Requests(worlds[k], actions[k], id) && !Completes(worlds[k], actions[k], id, locationId)
    ensures var owed := PromisesAt(worlds, actions, j); id in owed && owed[id] == locationId
  {
    if j > i + 1 {
      PromiseStays(worlds, actions, i, j - 1, id, locationId);
    }
  }

  lemma PromiseIsOnTheCard(worlds: seq<World>, actions: seq<Action>, i: nat, j: nat, id: string, locationId: nat)
    requires IsRun(worlds, actions) && i < j <= |actions|
    requires ReportOf(worlds[i], actions[i]) == Queued(id, locationId)
    requires forall k :: i < k < j ==>
               !Requests(worlds[k], actions[k], id) && !Completes(worlds[k], actions[k], id, locationId)
    ensures CardWants(worlds[j].card, id) == Some(locationId)
  {
    PromiseStays(worlds, actions, i, j, id, locationId);
    RunIsSafe(worlds, actions, j);
    CardHasPromises(worlds[j], PromisesAt(worlds, actions, j));
  }

  lemma CompletionPlaces(w: World, a: Action, id: string, locationId: nat)
    requires Safe(w) && Completes(w, a, id, locationId)
    ensures IsAt(Step(w, a).server, id, locationId)
  {
    var task := w.tasks[a.t];
    assert TaskOk(w, task);
    RespondIsSafe(w.server, id, locationId, task.call, a.link);
    var (s, progress) := Respond(w.server, id, locationId, task.call, a.link);
    SyncMovesNoSpool(WithServer(w, s), a.t, task, progress);
  }

  /** What a pass counts as carried out is where it was asked to be. */
  lemma CompletedIsPlaced(worlds: seq<World>, actions: seq<Action>, k: nat, id: string, locationId: nat)
    requires IsRun(worlds, actions) && k < |actions| && Completes(worlds[k], actions[k], id, locationId)
    ensures IsAt(worlds[k + 1].server, id, locationId)
  {
    RunIsSafe(worlds, actions, k);
    CompletionPlaces(worlds[k], actions[k], id, locationId);
  }

  /** In every interleaving, with crashes anywhere and other clients changing the server at will: once the
      user is told that a request is queued, the card asks for that place at every later moment, until
      another request for the spool is accepted or a pass carries out this one, which puts the spool there. */
  lemma AcceptedRequestsAreNotLost(worlds: seq<World>, actions: seq<Action>, i: nat, j: nat, id: string,
                                   locationId: nat)
    requires IsRun(worlds, actions) && i < j <= |actions|
    requires ReportOf(worlds[i], actions[i]) == Queued(id, locationId)
    ensures || CardWants(worlds[j].card, id) == Some(locationId)
            || (exists k :: i < k < j && Requests(worlds[k], actions[k], id))
            || (exists k :: i < k < j && Completes(worlds[k], actions[k], id, locationId)
                            && IsAt(worlds[k + 1].server, id, locationId))
  {
    if k :| i < k < j && Completes(worlds[k], actions[k], id, locationId) {
      CompletedIsPlaced(worlds, actions, k, id, locationId);
    } else if forall k :: i < k < j ==> !Requests(worlds[k], actions[k], id) {
      PromiseIsOnTheCard(worlds, actions, i, j, id, locationId);
    }
  }

  /** A run goes on by any two steps. */
  lemma RunGrows(worlds: seq<World>, actions: seq<Action>, a: Action, b: Action)
    requires IsRun(worlds, actions)
    requires Enabled(worlds[|actions|], a) && Enabled(Step(worlds[|actions|], a), b)
    ensures var v := Step(worlds[|actions|], a);
      var longer, more := worlds + [v, Step(v, b)], actions + [a, b];
      && IsRun(longer, more) && |more| == |actions| + 2
      && longer[0] == worlds[0] && longer[|actions| + 1] == v && more[|actions| + 1] == b
  {
    var v := Step(worlds[|actions|], a);
    var longer, more := worlds + [v, Step(v, b)], actions + [a, b];
    forall i | 0 <= i < |more| ensures Enabled(longer[i], more[i]) && longer[i + 1] == Step(longer[i], more[i]) {
      assert i <= |actions| ==> longer[i] == worlds[i];
    }
  }

  /** The first two steps of a store that finds the lock free and the server out of reach. */
  lemma StoreBegins(w: World, spool: FilamentSpool, locationId: nat, locationName: string)
    requires !w.busy && w.tasks == map[] && w.unreachable
    ensures var waiting := Step(w, StartStore(0, spool, None, locationId, locationName));
      && Enabled(waiting, Proceed(0))
      && Step(waiting, Proceed(0)) == BeginEnqueue(waiting, 0, spool, locationId, locationName)
      && ReportOf(waiting, Proceed(0)) == EnqueueReport(waiting, spool, locationId, locationName)
  {
  }

  /** Its last two steps if the file has to be written. */
  lemma StoreEnds(w: World, spool: FilamentSpool, locationId: nat, locationName: string)
    requires w.hasCard && EnqueueReport(w, spool, locationId, locationName) == Silent
    ensures var begun := BeginEnqueue(w, 0, spool, locationId, locationName);
      var written := Step(begun, CardWrite(0, true));
      && Enabled(begun, CardWrite(0, true)) && Enabled(written, Resume(0))
      && ReportOf(written, Resume(0)) == Queued(CanonicalId(spool), locationId)
  {
  }

  /** Any request can be queued: with a card in the slot and the server out of reach, a run from the boot
      tells the user so, at once if the file already asks for it and after one write otherwise. */
  lemma RequestsGetQueued(w: World, spool: FilamentSpool, locationId: nat, locationName: string)
      returns (worlds: seq<World>, actions: seq<Action>)
    requires Initial(w) && w.hasCard && w.unreachable
    requires ValidateSpool(spool).Ok? && locationId > 0 && Trim(locationName) != ""
    ensures IsRun(worlds, actions) && worlds[0] == w && actions != []
    ensures ReportOf(worlds[|actions| - 1], actions[|actions| - 1]) == Queued(CanonicalId(spool), locationId)
  {
    var store := StartStore(0, spool, None, locationId, locationName);
    var waiting := Step(w, store);
    StoreBegins(w, spool, locationId, locationName);
    RunGrows([w], [], store, Proceed(0));
    worlds, actions := [w] + [waiting, Step(waiting, Proceed(0))], [] + [store, Proceed(0)];
    if EnqueueReport(waiting, spool, locationId, locationName) == Silent {
      StoreEnds(waiting, spool, locationId, locationName);
      var begun := worlds[2];
      var written := Step(begun, CardWrite(0, true));
      RunGrows(worlds, actions, CardWrite(0, true), Resume(0));
      worlds, actions := worlds + [written, Step(written, Resume(0))], actions + [CardWrite(0, true), Resume(0)];
    }
  }
}
