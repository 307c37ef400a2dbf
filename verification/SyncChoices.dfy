/** Which choice wins: an online choice lasts exactly when no other place is still queued for the spool. */
module SyncChoices {
  import opened Text
  import opened Identity
  import opened Documents
  import opened OfflineStore
  import opened FilaManServer
  import opened SyncProtocol
  import opened SyncConvergence

  /** The world after some steps. */
  function After(w: World, actions: seq<Action>): World
    decreases |actions|
  {
    if actions == [] then w else After(Step(w, actions[0]), actions[1..])
  }

  /** The step is no request for another place for the spool, under its own name or its spool id, and no
      change to it by another client. */
  predicate Spares(w: World, a: Action, id: string, record: Record) {
    match a
    case StartStore(_, spool, known, locationId, _) =>
      Some(locationId) == record.locationId || (CanonicalId(spool) != id && known != Some(record.spoolId))
    case OthersChange(server) => id in server.records && server.records[id] == record
    case _ => true
  }

  ghost predicate Undisturbed(w: World, actions: seq<Action>, id: string, record: Record)
    decreases |actions|
  {
    actions == [] ||
    (Enabled(w, actions[0]) && Spares(w, actions[0], id, record)
     && Undisturbed(Step(w, actions[0]), actions[1..], id, record))
  }

  /** The list asks for no other place. */
  predicate Agrees(operations: seq<PendingStorage>, id: string, record: Record) {
    Wanted(operations, id).None? || Wanted(operations, id) == record.locationId
  }

  predicate CallSpares(own: bool, call: Call, locationId: nat, record: Record) {
    Some(locationId) == record.locationId || (!own && call != Move(record.spoolId))
  }

  ghost predicate TaskStands(task: Task, id: string, record: Record) {
    match task
    case Waiting(spool, known, locationId, _) =>
      Some(locationId) == record.locationId || (CanonicalId(spool) != id && known != Some(record.spoolId))
    case Requesting(_) => true
    case Storing(spool, locationId, _, call) => CallSpares(CanonicalId(spool) == id, call, locationId, record)
    case Enqueueing(spool, locationId, _, prepared, _) => Agrees(prepared.operations, id, record)
    case Syncing(snapshot, index, _, _, call) =>
      && index < |snapshot|
      && Agrees(Outstanding(task), id, record)
      && CallSpares(IdOfOperation(snapshot[index]) == id, call, snapshot[index].locationId, record)
    case Persisting(prepared, _) => Agrees(prepared.operations, id, record)
  }

  ghost predicate Stands(w: World, id: string, record: Record) {
    && record.locationId.Some?
    && id in w.server.records && w.server.records[id] == record
    && Agrees(w.queue.operations, id, record)
    && forall t :: t in w.tasks ==> TaskStands(w.tasks[t], id, record)
  }

  /** A sparing call leaves the spool's record alone, and so does the call that follows it. */
  lemma SparingCall(s: Server, id: string, locationId: nat, call: Call, link: Link, kept: string, record: Record)
    requires ServerOk(s) && kept in s.records && s.records[kept] == record && record.locationId.Some?
    requires CallSpares(id == kept, call, locationId, record)
    ensures var (after, progress) := Respond(s, id, locationId, call, link);
      && kept in after.records && after.records[kept] == record
      && (progress.Next? ==> CallSpares(id == kept, progress.call, locationId, record))
  {
  }

  lemma HoldStands(w: World, t: nat, task: Task, id: string, record: Record)
    requires Stands(w, id, record) && TaskStands(task, id, record)
    ensures Stands(Hold(w, t, task), id, record)
  {
    var v := Hold(w, t, task);
    assert forall u :: u in v.tasks ==> (u == t && v.tasks[u] == task) || (u in w.tasks && v.tasks[u] == w.tasks[u]);
  }

  lemma ReleaseStands(w: World, t: nat, id: string, record: Record)
    requires Stands(w, id, record)
    ensures Stands(Release(w, t), id, record)
  {
  }

  lemma CommitStands(w: World, q: OfflineQueue, id: string, record: Record)
    requires Stands(w, id, record) && Agrees(q.operations, id, record)
    ensures Stands(Commit(w, q), id, record)
  {
  }

  lemma RequestAgrees(q: OfflineQueue, spool: FilamentSpool, locationId: nat, locationName: string, id: string,
                      record: Record)
    requires QueueOk(q) && Agrees(q.operations, id, record)
    requires Some(locationId) == record.locationId || CanonicalId(spool) != id
    ensures Agrees(Requested(q, spool, locationId, locationName).operations, id, record)
  {
    RequestIsPrecise(q, spool, locationId, locationName);
  }

  lemma EnqueueStands(w: World, t: nat, spool: FilamentSpool, locationId: nat, locationName: string, id: string,
                      record: Record)
    requires QueueOk(w.queue) && Stands(w, id, record)
    requires Some(locationId) == record.locationId || CanonicalId(spool) != id
    ensures Stands(BeginEnqueue(w, t, spool, locationId, locationName), id, record)
  {
    var q := Requested(w.queue, spool, locationId, locationName);
    RequestAgrees(w.queue, spool, locationId, locationName, id, record);
    ReleaseStands(w, t, id, record);
    CommitStands(w, q, id, record);
    ReleaseStands(Commit(w, q), t, id, record);
    HoldStands(w, t, Enqueueing(spool, locationId, locationName, q, false), id, record);
  }

  lemma FinishStands(w: World, t: nat, remaining: seq<PendingStorage>, completed: nat, id: string, record: Record)
    requires Stands(w, id, record) && Agrees(remaining, id, record)
    ensures Stands(FinishSync(w, t, remaining, completed), id, record)
  {
    var q := w.queue.(operations := remaining);
    ReleaseStands(w, t, id, record);
    CommitStands(w, q, id, record);
    ReleaseStands(Commit(w, q), t, id, record);
    HoldStands(w, t, Persisting(q, false), id, record);
  }

  /** What agrees as a whole agrees at each of its operations. */
  lemma AgreesEverywhere(operations: seq<PendingStorage>, i: nat, id: string, record: Record)
    requires DistinctIds(operations) && Agrees(operations, id, record) && i < |operations|
    ensures IdOfOperation(operations[i]) == id ==> Some(operations[i].locationId) == record.locationId
  {
    WantedIsUnique(operations, i);
  }

  lemma AdvanceStands(w: World, t: nat, task: Task, remaining: seq<PendingStorage>, completed: nat, id: string,
                      record: Record)
    requires Stands(w, id, record) && task.Syncing? && task.index < |task.snapshot|
    requires var rest := remaining + task.snapshot[task.index + 1..]; Agrees(rest, id, record) && DistinctIds(rest)
    ensures Stands(Advance(w, t, task, remaining, completed), id, record)
  {
    var rest := remaining + task.snapshot[task.index + 1..];
    if task.index + 1 < |task.snapshot| {
      var next := Syncing(task.snapshot, task.index + 1, remaining, completed, Find);
      assert Outstanding(next) == rest;
      AgreesEverywhere(rest, |remaining|, id, record);
      HoldStands(w, t, next, id, record);
    } else {
      assert rest == remaining;
      FinishStands(w, t, remaining, completed, id, record);
    }
  }

  lemma RemovalAgrees(a: seq<PendingStorage>, x: PendingStorage, b: seq<PendingStorage>, id: string, record: Record)
    requires DistinctIds(a + [x] + b) && DistinctIds(a + b) && Agrees(a + [x] + b, id, record)
    ensures Agrees(a + b, id, record)
  {
    if id != IdOfOperation(x) {
      RemovalKeepsWishes(a, x, b, id);
    } else {
      var all, fewer := a + [x] + b, a + b;
      forall i | 0 <= i < |fewer| ensures IdOfOperation(fewer[i]) != id {
        assert fewer[i] == all[if i < |a| then i else i + 1];
        assert all[|a|] == x;
      }
    }
  }

  lemma SyncProgressStands(w: World, t: nat, task: Task, progress: Progress, id: string, record: Record)
    requires Stands(w, id, record) && task.Syncing? && TaskStands(task, id, record)
    requires QueueOk(w.queue.(operations := Outstanding(task)))
    requires var op := task.snapshot[task.index];
      progress.Next? ==> CallSpares(IdOfOperation(op) == id, progress.call, op.locationId, record)
    ensures Stands(SyncProgress(w, t, task, progress), id, record)
  {
    var op, rest := task.snapshot[task.index], task.snapshot[task.index + 1..];
    OutstandingSplits(task);
    match progress
    case Next(call) =>
      var next := Syncing(task.snapshot, task.index, task.remaining, task.completed, call);
      assert Outstanding(next) == Outstanding(task);
      HoldStands(w, t, next, id, record);
    case Done(_) =>
      RemovalKeepsOrder(w.queue, task.remaining, op, rest);
      RemovalAgrees(task.remaining, op, rest, id, record);
      AdvanceStands(w, t, task, task.remaining, task.completed + 1, id, record);
    case Failed(transport) =>
      if transport {
        FinishStands(w, t, Outstanding(task), task.completed, id, record);
      } else {
        AdvanceStands(w, t, task, task.remaining + [op], task.completed, id, record);
      }
  }

  lemma SyncReplyStands(w: World, t: nat, task: Task, link: Link, id: string, record: Record)
    requires Safe(w) && Stands(w, id, record) && task.Syncing? && TaskOk(w, task) && TaskStands(task, id, record)
    ensures Stands(SyncReply(w, t, task, link), id, record)
  {
    var op := task.snapshot[task.index];
    var (s, progress) := Respond(w.server, IdOfOperation(op), op.locationId, task.call, link);
    SparingCall(w.server, IdOfOperation(op), op.locationId, task.call, link, id, record);
    SyncProgressStands(WithServer(w, s), t, task, progress, id, record);
  }

  lemma StoreReplyStands(w: World, t: nat, task: Task, link: Link, id: string, record: Record)
    requires Safe(w) && Stands(w, id, record) && task.Storing? && TaskStands(task, id, record)
    ensures Stands(StoreReply(w, t, task, link), id, record)
  {
    var (s, progress) := Respond(w.server, CanonicalId(task.spool), task.locationId, task.call, link);
    SparingCall(w.server, CanonicalId(task.spool), task.locationId, task.call, link, id, record);
    var v := WithServer(w, s);
    match progress
    case Next(call) => HoldStands(v, t, Storing(task.spool, task.locationId, task.locationName, call), id, record);
    case Done(_) => ReleaseStands(v, t, id, record);
    case Failed(_) =>
      ReleaseStands(v, t, id, record);
      EnqueueStands(v.(unreachable := true), t, task.spool, task.locationId, task.locationName, id, record);
  }

  lemma CrashStands(w: World, id: string, record: Record)
    requires Safe(w) && Stands(w, id, record)
    ensures Stands(Rebooted(w), id, record)
  {
    if t :| t in w.tasks && IsDirty(w.tasks[t]) {
      var task := w.tasks[t];
      if task.Enqueueing? {
        RequestIsPrecise(w.queue, task.spool, task.locationId, task.locationName);
      }
      assert TaskStands(task, id, record);
      EncodedWants(task.prepared, id);
    } else if w.queueText != [] {
      LoadedIsOk(w.queue, w.queueText);
      StoredWants(w.queue.operations, id);
    }
  }

  lemma AcquireStands(w: World, a: Action, id: string, record: Record)
    requires Safe(w) && Enabled(w, a) && Stands(w, id, record) && (a.Proceed? || a.StartRequest? || a.StartSync?)
    ensures Stands(Step(w, a), id, record)
  {
    if !w.busy {
      match a
      case Proceed(t) =>
        var task := w.tasks[t];
        assert TaskStands(task, id, record);
        EnqueueStands(w, t, task.spool, task.locationId, task.locationName, id, record);
        HoldStands(w, t, Storing(task.spool, task.locationId, task.locationName,
                                 if task.known.Some? then Move(task.known.value) else Find), id, record);
      case StartRequest(t, awaits) => HoldStands(w, t, Requesting(awaits), id, record);
      case StartSync(t) =>
        if w.queue.operations != [] {
          var task := Syncing(w.queue.operations, 0, [], 0, Find);
          assert Outstanding(task) == w.queue.operations;
          AgreesEverywhere(w.queue.operations, 0, id, record);
          HoldStands(w, t, task, id, record);
        }
    }
  }

  lemma ReplyStands(w: World, t: nat, link: Link, id: string, record: Record)
    requires Safe(w) && Enabled(w, Reply(t, link)) && Stands(w, id, record)
    ensures Stands(Step(w, Reply(t, link)), id, record)
  {
    var task := w.tasks[t];
    assert TaskStands(task, id, record) && TaskOk(w, task);
    if task.Requesting? {
      HoldStands(w, t, Requesting(if task.awaits > 0 then task.awaits - 1 else 0), id, record);
      ReleaseStands(w, t, id, record);
    } else if task.Storing? {
      StoreReplyStands(w, t, task, link, id, record);
    } else {
      SyncReplyStands(w, t, task, link, id, record);
    }
  }

  lemma CardStands(w: World, a: Action, id: string, record: Record)
    requires Safe(w) && Enabled(w, a) && Stands(w, id, record) && (a.CardWrite? || a.Resume?)
    ensures Stands(Step(w, a), id, record)
  {
    var task := w.tasks[a.t];
    assert TaskStands(task, id, record);
    if a.Resume? {
      CommitStands(w, task.prepared, id, record);
      ReleaseStands(Commit(w, task.prepared), a.t, id, record);
    } else if a.ok {
      var v := w.(card := Some(EncodeQueue(task.prepared)));
      var dirty :=
        if task.Enqueueing? then Enqueueing(task.spool, task.locationId, task.locationName, task.prepared, true)
        else Persisting(task.prepared, true);
      HoldStands(v, a.t, dirty, id, record);
    } else {
      ReleaseStands(w, a.t, id, record);
    }
  }

  lemma StepStands(w: World, a: Action, id: string, record: Record)
    requires Safe(w) && Enabled(w, a) && Spares(w, a, id, record) && Stands(w, id, record)
    ensures Stands(Step(w, a), id, record)
  {
    match a
    case StartStore(_, _, _, _, _) =>
    case Proceed(_) => AcquireStands(w, a, id, record);
    case StartRequest(_, _) => AcquireStands(w, a, id, record);
    case StartSync(_) => AcquireStands(w, a, id, record);
    case Reply(t, link) => ReplyStands(w, t, link, id, record);
    case CardWrite(_, _) => CardStands(w, a, id, record);
    case Resume(_) => CardStands(w, a, id, record);
    case SetUnreachable(_) =>
    case OthersChange(_) =>
    case Crash => CrashStands(w, id, record);
  }

  lemma {:induction false} ChoiceStands(w: World, actions: seq<Action>, id: string, record: Record)
    requires Safe(w) && Stands(w, id, record) && Undisturbed(w, actions, id, record)
    ensures Stands(After(w, actions), id, record)
    decreases |actions|
  {
    if actions != [] {
      StepIsSafe(w, actions[0]);
      StepStands(w, actions[0], id, record);
      ChoiceStands(Step(w, actions[0]), actions[1..], id, record);
    }
  }

  // ---- The other direction: a queued wish is carried out ----

  lemma {:induction false} AfterCons(w: World, a: Action, rest: seq<Action>)
    ensures After(w, [a] + rest) == After(Step(w, a), rest)
  {
    assert ([a] + rest)[1..] == rest;
  }

  lemma UndisturbedCons(w: World, a: Action, rest: seq<Action>, id: string, record: Record)
    requires Enabled(w, a) && Spares(w, a, id, record) && Undisturbed(Step(w, a), rest, id, record)
    ensures Undisturbed(w, [a] + rest, id, record)
  {
    assert ([a] + rest)[1..] == rest;
  }

  /** The state of `t` after its operation was answered. */
  lemma AnsweredSync(w: World, t: nat)
    requires Safe(w) && t in w.tasks && w.tasks[t].Syncing?
    requires CallFits(w.server, w.tasks[t].snapshot[w.tasks[t].index], w.tasks[t].call)
    ensures var task := w.tasks[t];
      var op := task.snapshot[task.index];
      var v := Step(w, Reply(t, Answered));
      || (IsAt(v.server, IdOfOperation(op), op.locationId)
          && (task.index + 1 < |task.snapshot| ==>
                t in v.tasks && v.tasks[t].Syncing? && v.tasks[t].snapshot == task.snapshot
                && v.tasks[t].index == task.index + 1 && v.tasks[t].call == Find))
      || (t in v.tasks && v.tasks[t].Syncing? && v.tasks[t].snapshot == task.snapshot && v.tasks[t].index == task.index
          && CallFits(v.server, op, v.tasks[t].call) && CallEffort(v.tasks[t].call) < CallEffort(task.call))
  {
    var task := w.tasks[t];
    var op := task.snapshot[task.index];
    AnswerIsAtomic(w.server, op, task.call, Answered);
    RespondIsSafe(w.server, IdOfOperation(op), op.locationId, task.call, Answered);
    ProgressShrinks(w.server, IdOfOperation(op), op.locationId, task.call, Answered);
    var (s, progress) := Respond(w.server, IdOfOperation(op), op.locationId, task.call, Answered);
    SyncMovesNoSpool(WithServer(w, s), t, task, progress);
  }

  /** A pass whose requests are all answered reaches each of its operations. */
  lemma DriveSync(w: World, t: nat, i: nat, id: string, record: Record) returns (actions: seq<Action>)
    requires Safe(w) && t in w.tasks && w.tasks[t].Syncing?
    requires w.tasks[t].index <= i < |w.tasks[t].snapshot|
    requires CallFits(w.server, w.tasks[t].snapshot[w.tasks[t].index], w.tasks[t].call)
    ensures Undisturbed(w, actions, id, record)
    ensures var op := w.tasks[t].snapshot[i]; IsAt(After(w, actions).server, IdOfOperation(op), op.locationId)
    decreases i - w.tasks[t].index, CallEffort(w.tasks[t].call)
  {
    var a := Reply(t, Answered);
    var v := Step(w, a);
    StepIsSafe(w, a);
    AnsweredSync(w, t);
    var op := w.tasks[t].snapshot[w.tasks[t].index];
    var rest: seq<Action> := [];
    if w.tasks[t].index < i || !IsAt(v.server, IdOfOperation(op), op.locationId) {
      rest := DriveSync(v, t, i, id, record);
    }
    actions := [a] + rest;
    AfterCons(w, a, rest);
    UndisturbedCons(w, a, rest, id, record);
  }

  /** An online choice is undone by the device itself as soon as it synchronises, if another place for the
      spool was still queued: `store_spool_at` does not look at the queue. */
  lemma QueuedWishWins(w: World, id: string, record: Record) returns (actions: seq<Action>)
    requires Safe(w) && !w.busy && w.tasks == map[]
    requires Wanted(w.queue.operations, id).Some?
    ensures Undisturbed(w, actions, id, record)
    ensures IsAt(After(w, actions).server, id, Wanted(w.queue.operations, id).value)
  {
    var a := StartSync(0);
    var v := Step(w, a);
    StepIsSafe(w, a);
    assert v.tasks[0] == Syncing(w.queue.operations, 0, [], 0, Find);
    var rest := DriveSync(v, 0, FindOperation(w.queue.operations, id), id, record);
    actions := [a] + rest;
    AfterCons(w, a, rest);
    UndisturbedCons(w, a, rest, id, record);
  }

  /** Right after the server confirmed a place for a spool, that place outlives every further step that is
      not itself about the spool, exactly when the queue holds no request for another place. */
  lemma LastChoiceWinsExactly(w: World, id: string, record: Record)
    requires Safe(w) && !w.busy && w.tasks == map[]
    requires id in w.server.records && w.server.records[id] == record && record.locationId.Some?
    ensures (forall actions :: Undisturbed(w, actions, id, record) ==>
               IsAt(After(w, actions).server, id, record.locationId.value))
      <==> (Wanted(w.queue.operations, id).None? || Wanted(w.queue.operations, id) == record.locationId)
  {
    if Agrees(w.queue.operations, id, record) {
      forall actions | Undisturbed(w, actions, id, record)
        ensures IsAt(After(w, actions).server, id, record.locationId.value)
      {
        ChoiceStands(w, actions, id, record);
      }
    } else {
      var actions := QueuedWishWins(w, id, record);
      assert Undisturbed(w, actions, id, record);
      assert !IsAt(After(w, actions).server, id, record.locationId.value);
    }
  }
}
