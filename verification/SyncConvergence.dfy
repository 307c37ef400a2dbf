/** What synchronisation achieves: the lock is always given back, a known spool is never imported again,
    and crashes in the middle of passes do not change where the server ends up. */
module SyncConvergence {
  import opened Identity
  import opened Documents
  import opened OfflineStore
  import opened FilaManServer
  import opened SyncProtocol

  // ---- The lock is always given back ----

  function CallEffort(call: Call): nat {
    match call
    case Find => 3
    case Import => 2
    case Move(_) => 1
  }

  /** An upper bound on the steps a task still takes inside its critical section. */
  function Effort(task: Task): nat {
    match task
    case Waiting(_, _, _, _) => 0
    case Requesting(awaits) => awaits + 1
    case Storing(_, _, _, call) => 2 + CallEffort(call)
    case Enqueueing(_, _, _, _, written) => if written then 1 else 2
    case Syncing(snapshot, index, _, _, call) =>
      2 + CallEffort(call) + (if index < |snapshot| then 3 * (|snapshot| - index - 1) else 0)
    case Persisting(_, written) => if written then 1 else 2
  }

  predicate IsStepOf(a: Action, t: nat) {
    (a.Reply? || a.CardWrite? || a.Resume?) && a.t == t
  }

  /** `t` has left its critical section, or is nearer to its end. */
  predicate Nearer(after: World, t: nat, effort: nat) {
    if t in after.tasks then after.busy && Effort(after.tasks[t]) < effort else !after.busy
  }

  lemma ProgressShrinks(s: Server, id: string, locationId: nat, call: Call, link: Link)
    ensures var progress := Respond(s, id, locationId, call, link).1;
      progress.Next? ==> CallEffort(progress.call) < CallEffort(call)
  {
  }

  lemma AdvanceShrinks(w: World, t: nat, task: Task, remaining: seq<PendingStorage>, completed: nat)
    requires task.Syncing? && task.index < |task.snapshot|
    ensures Nearer(Advance(w, t, task, remaining, completed), t, Effort(task))
  {
  }

  lemma SyncProgressShrinks(w: World, t: nat, task: Task, progress: Progress)
    requires task.Syncing? && task.index < |task.snapshot|
    requires progress.Next? ==> CallEffort(progress.call) < CallEffort(task.call)
    ensures Nearer(SyncProgress(w, t, task, progress), t, Effort(task))
  {
    if progress.Done? {
      AdvanceShrinks(w, t, task, task.remaining, task.completed + 1);
    } else if progress == Failed(false) {
      AdvanceShrinks(w, t, task, task.remaining + [task.snapshot[task.index]], task.completed);
    }
  }

  lemma SyncReplyShrinks(w: World, t: nat, task: Task, link: Link)
    requires task.Syncing? && task.index < |task.snapshot|
    ensures Nearer(SyncReply(w, t, task, link), t, Effort(task))
  {
    var op := task.snapshot[task.index];
    var (s, progress) := Respond(w.server, IdOfOperation(op), op.locationId, task.call, link);
    ProgressShrinks(w.server, IdOfOperation(op), op.locationId, task.call, link);
    SyncProgressShrinks(WithServer(w, s), t, task, progress);
  }

  lemma StoreReplyShrinks(w: World, t: nat, task: Task, link: Link)
    requires task.Storing?
    ensures Nearer(StoreReply(w, t, task, link), t, Effort(task))
  {
    ProgressShrinks(w.server, CanonicalId(task.spool), task.locationId, task.call, link);
  }

  lemma HolderStepShrinks(w: World, a: Action, t: nat)
    requires Safe(w) && t in w.tasks && IsStepOf(a, t) && Enabled(w, a)
    ensures Nearer(Step(w, a), t, Effort(w.tasks[t]))
  {
    var task := w.tasks[t];
    if a.Reply? && task.Storing? {
      StoreReplyShrinks(w, t, task, a.link);
    } else if a.Reply? && task.Syncing? {
      SyncReplyShrinks(w, t, task, a.link);
    }
  }

  /** Whatever the network and the card do, the holder of the lock can always take a step, and every step
      it takes either ends its critical section with the lock released or brings that end nearer. */
  lemma HolderAlwaysLeaves(w: World, t: nat)
    requires Safe(w) && t in w.tasks && Holds(w.tasks[t])
    ensures exists a :: IsStepOf(a, t) && Enabled(w, a)
    ensures forall a :: IsStepOf(a, t) && Enabled(w, a) ==> Nearer(Step(w, a), t, Effort(w.tasks[t]))
  {
    var task := w.tasks[t];
    var a := if IsDirty(task) then Resume(t) else if IsWriting(task) then CardWrite(t, true) else Reply(t, Answered);
    assert IsStepOf(a, t) && Enabled(w, a);
    forall b | IsStepOf(b, t) && Enabled(w, b) ensures Nearer(Step(w, b), t, Effort(task)) {
      HolderStepShrinks(w, b, t);
    }
  }

  /** Only the task inside its critical section, or a crash, clears `busy`. */
  lemma OnlyTheHolderReleases(w: World, a: Action)
    requires Safe(w) && Enabled(w, a) && w.busy && !Step(w, a).busy
    ensures a.Crash? || exists t :: t in w.tasks && Holds(w.tasks[t]) && IsStepOf(a, t)
  {
  }

  // ---- A known spool is never imported again ----

  predicate TaskImportsNew(task: Task, s: Server) {
    match task
    case Storing(spool, _, _, call) => call.Import? ==> CanonicalId(spool) !in s.records
    case Syncing(snapshot, index, _, _, call) =>
      call.Import? ==> index < |snapshot| && IdOfOperation(snapshot[index]) !in s.records
    case _ => true
  }

  /** A task about to import has a spool the server does not know. */
  ghost predicate ImportsAreNew(w: World) {
    forall t :: t in w.tasks ==> TaskImportsNew(w.tasks[t], w.server)
  }

  lemma ImportFollowsFind(s: Server, id: string, locationId: nat, call: Call, link: Link)
    ensures var (after, progress) := Respond(s, id, locationId, call, link);
      progress.Next? && progress.call.Import? ==> id !in after.records
  {
  }

  lemma HoldImportsNew(w: World, t: nat, task: Task)
    requires Alone(w, t) && TaskImportsNew(task, w.server)
    ensures ImportsAreNew(Hold(w, t, task))
  {
    var v := Hold(w, t, task);
    assert forall u :: u in v.tasks ==> (u == t && v.tasks[u] == task) || v.tasks[u].Waiting?;
  }

  lemma ReleaseImportsNew(w: World, t: nat)
    requires Alone(w, t)
    ensures ImportsAreNew(Release(w, t))
  {
  }

  lemma FinishImportsNew(w: World, t: nat, remaining: seq<PendingStorage>, completed: nat)
    requires Alone(w, t)
    ensures ImportsAreNew(FinishSync(w, t, remaining, completed))
  {
    var q := w.queue.(operations := remaining);
    ReleaseImportsNew(w, t);
    ReleaseImportsNew(Commit(w, q), t);
    HoldImportsNew(w, t, Persisting(q, false));
  }

  lemma AdvanceImportsNew(w: World, t: nat, task: Task, remaining: seq<PendingStorage>, completed: nat)
    requires Alone(w, t) && task.Syncing?
    ensures ImportsAreNew(Advance(w, t, task, remaining, completed))
  {
    if task.index + 1 < |task.snapshot| {
      HoldImportsNew(w, t, Syncing(task.snapshot, task.index + 1, remaining, completed, Find));
    } else {
      FinishImportsNew(w, t, remaining, completed);
    }
  }

  lemma SyncReplyImportsNew(w: World, t: nat, task: Task, link: Link)
    requires Alone(w, t) && task.Syncing? && task.index < |task.snapshot|
    ensures ImportsAreNew(SyncReply(w, t, task, link))
  {
    var op := task.snapshot[task.index];
    var (s, progress) := Respond(w.server, IdOfOperation(op), op.locationId, task.call, link);
    ImportFollowsFind(w.server, IdOfOperation(op), op.locationId, task.call, link);
    var v := WithServer(w, s);
    match progress
    case Next(call) => HoldImportsNew(v, t, Syncing(task.snapshot, task.index, task.remaining, task.completed, call));
    case Done(_) => AdvanceImportsNew(v, t, task, task.remaining, task.completed + 1);
    case Failed(transport) =>
      FinishImportsNew(v, t, Outstanding(task), task.completed);
      AdvanceImportsNew(v, t, task, task.remaining + [op], task.completed);
  }

  lemma EnqueueImportsNew(w: World, t: nat, spool: FilamentSpool, locationId: nat, locationName: string)
    requires Alone(w, t)
    ensures ImportsAreNew(BeginEnqueue(w, t, spool, locationId, locationName))
  {
    var q := Requested(w.queue, spool, locationId, locationName);
    ReleaseImportsNew(w, t);
    ReleaseImportsNew(Commit(w, q), t);
    HoldImportsNew(w, t, Enqueueing(spool, locationId, locationName, q, false));
  }

  lemma StoreReplyImportsNew(w: World, t: nat, task: Task, link: Link)
    requires Alone(w, t) && task.Storing?
    ensures ImportsAreNew(StoreReply(w, t, task, link))
  {
    var (s, progress) := Respond(w.server, CanonicalId(task.spool), task.locationId, task.call, link);
    ImportFollowsFind(w.server, CanonicalId(task.spool), task.locationId, task.call, link);
    var v := WithServer(w, s);
    match progress
    case Next(call) => HoldImportsNew(v, t, Storing(task.spool, task.locationId, task.locationName, call));
    case Done(_) => ReleaseImportsNew(v, t);
    case Failed(_) =>
      ReleaseImportsNew(v, t);
      EnqueueImportsNew(v.(unreachable := true), t, task.spool, task.locationId, task.locationName);
  }

  lemma ReplyImportsNew(w: World, t: nat, link: Link)
    requires Safe(w) && Enabled(w, Reply(t, link))
    ensures ImportsAreNew(Step(w, Reply(t, link)))
  {
    var task := w.tasks[t];
    HolderIsAlone(w, t);
    if task.Storing? {
      StoreReplyImportsNew(w, t, task, link);
    } else if task.Syncing? {
      SyncReplyImportsNew(w, t, task, link);
    }
  }

  lemma AcquireImportsNew(w: World, a: Action)
    requires Safe(w) && Enabled(w, a) && ImportsAreNew(w) && (a.Proceed? || a.StartRequest? || a.StartSync?)
    ensures ImportsAreNew(Step(w, a))
  {
    if !w.busy {
      SafeUnlockedIsCalm(w, a.t);
      match a
      case Proceed(t) =>
        var task := w.tasks[t];
        EnqueueImportsNew(w, t, task.spool, task.locationId, task.locationName);
        HoldImportsNew(w, t, Storing(task.spool, task.locationId, task.locationName,
                                     if task.known.Some? then Move(task.known.value) else Find));
      case StartRequest(t, awaits) => HoldImportsNew(w, t, Requesting(awaits));
      case StartSync(t) => HoldImportsNew(w, t, Syncing(w.queue.operations, 0, [], 0, Find));
    }
  }

  lemma StepImportsNew(w: World, a: Action)
    requires Safe(w) && Enabled(w, a) && ImportsAreNew(w) && !a.OthersChange?
    ensures ImportsAreNew(Step(w, a))
  {
    match a
    case Proceed(_) => AcquireImportsNew(w, a);
    case StartRequest(_, _) => AcquireImportsNew(w, a);
    case StartSync(_) => AcquireImportsNew(w, a);
    case Reply(t, link) => ReplyImportsNew(w, t, link);
    case CardWrite(t, _) => HolderIsAlone(w, t);
    case Resume(t) => HolderIsAlone(w, t);
    case _ =>
  }

  /** While no other client writes, every import creates a spool the server does not have: two spools for
      one canonical id never come from this device, lost answers, retries and crashes included. */
  lemma {:induction false} ImportsStayNew(worlds: seq<World>, actions: seq<Action>, n: nat)
    requires IsRun(worlds, actions) && n <= |actions|
    requires forall i :: 0 <= i < |actions| ==> !actions[i].OthersChange?
    ensures ImportsAreNew(worlds[n])
  {
    if n > 0 {
      ImportsStayNew(worlds, actions, n - 1);
      RunIsSafe(worlds, actions, n - 1);
      StepImportsNew(worlds[n - 1], actions[n - 1]);
    }
  }

  // ---- Crashes do not change the outcome ----

  /** Steps of the synchroniser, the card, the network and the power supply: any but a refusal by either side, a new
      request by the user, or a write by another client. */
  predicate IsReplay(a: Action) {
    match a
    case StartStore(_, _, _, _, _) => false
    case Proceed(_) => false
    case OthersChange(_) => false
    case Reply(_, link) => IsUndisputed(link)
    case _ => true
  }

  /** A call in progress for an operation the server has not applied yet. */
  ghost predicate CallFits(s: Server, op: PendingStorage, call: Call) {
    match call
    case Find => true
    case Import => IdOfOperation(op) !in s.records
    case Move(spoolId) =>
      && IdOfOperation(op) in s.records && s.records[IdOfOperation(op)].spoolId == spoolId
      && !IsAt(s, IdOfOperation(op), op.locationId)
  }

  ghost predicate TaskConverges(task: Task, s: Server, all: seq<PendingStorage>, done: nat, applied: nat)
    requires done <= applied <= |all|
  {
    match task
    case Requesting(_) => true
    case Syncing(snapshot, index, remaining, completed, call) =>
      && snapshot == all[done..] && index < |snapshot| && remaining == [] && completed == index
      && done + index <= applied
      && (done + index < applied ==> call == Find)
      && (done + index == applied ==> CallFits(s, all[applied], call))
    case Persisting(prepared, _) =>
      && done <= |all| - |prepared.operations| <= applied
      && prepared.operations == all[|all| - |prepared.operations|..]
    case _ => false
  }

  /** The server has the first `applied` operations, the queue in memory is short of the first `done`. */
  ghost predicate Converges(w: World, s0: Server, all: seq<PendingStorage>, done: nat, applied: nat) {
    && done <= applied <= |all|
    && w.queue.operations == all[done..]
    && w.server == AppliedAll(s0, all[..applied])
    && forall t :: t in w.tasks ==> TaskConverges(w.tasks[t], w.server, all, done, applied)
  }

  ghost predicate Converging(w: World, s0: Server, all: seq<PendingStorage>) {
    exists done: nat, applied: nat :: Converges(w, s0, all, done, applied)
  }

  ghost predicate Fixed(s0: Server, all: seq<PendingStorage>) {
    ServerOk(s0) && DistinctIds(all) && StoredAll(all) == all
  }

  lemma AppliedNext(s0: Server, all: seq<PendingStorage>, n: nat)
    requires n < |all|
    ensures AppliedAll(s0, all[..n + 1]) == Applied(AppliedAll(s0, all[..n]), all[n])
  {
    assert all[..n + 1] == all[..n] + [all[n]];
    AppliedAllOfConcat(s0, all[..n], [all[n]]);
    assert AppliedAll(Applied(AppliedAll(s0, all[..n]), all[n]), []) == Applied(AppliedAll(s0, all[..n]), all[n]);
    assert [all[n]][1..] == [];
  }

  lemma PrefixIsApplied(s0: Server, all: seq<PendingStorage>, n: nat)
    requires Fixed(s0, all) && n <= |all|
    ensures var s := AppliedAll(s0, all[..n]);
      ServerOk(s) && forall i :: 0 <= i < n ==> IsAt(s, IdOfOperation(all[i]), all[i].locationId)
  {
    var prefix := all[..n];
    AppliedAllMeaning(s0, prefix);
    forall i | 0 <= i < n ensures IsAt(AppliedAll(s0, prefix), IdOfOperation(all[i]), all[i].locationId) {
      assert prefix[i] == all[i];
    }
  }

  /** One answer for the next operation either leaves the server alone or applies the operation in full. */
  lemma AnswerIsAtomic(s: Server, op: PendingStorage, call: Call, link: Link)
    requires CallFits(s, op, call) && IsUndisputed(link)
    ensures var (after, progress) := Respond(s, IdOfOperation(op), op.locationId, call, link);
      match progress
      case Next(next) => after == s && CallFits(s, op, next)
      case Done(_) => after == Applied(s, op)
      case Failed(transport) => transport && (after == s || after == Applied(s, op))
  {
  }

  /** For an operation the server already has, the answer is that it is done, or nothing. */
  lemma AnswerForApplied(s: Server, op: PendingStorage, link: Link)
    requires IsAt(s, IdOfOperation(op), op.locationId) && IsUndisputed(link)
    ensures var (after, progress) := Respond(s, IdOfOperation(op), op.locationId, Find, link);
      after == s && (progress.Done? || progress == Failed(true))
  {
  }

  lemma HoldConverges(w: World, t: nat, task: Task, s0: Server, all: seq<PendingStorage>, done: nat, applied: nat)
    requires Converges(w, s0, all, done, applied) && TaskConverges(task, w.server, all, done, applied)
    ensures Converges(Hold(w, t, task), s0, all, done, applied)
  {
    var v := Hold(w, t, task);
    assert forall u :: u in v.tasks ==> (u == t && v.tasks[u] == task) || (u in w.tasks && v.tasks[u] == w.tasks[u]);
  }

  lemma ReleaseConverges(w: World, t: nat, s0: Server, all: seq<PendingStorage>, done: nat, applied: nat)
    requires Converges(w, s0, all, done, applied)
    ensures Converges(Release(w, t), s0, all, done, applied)
  {
  }

  /** Nothing but `t` runs, and memory and server are in step. */
  ghost predicate InStep(w: World, t: nat, s0: Server, all: seq<PendingStorage>, done: nat, applied: nat) {
    && done <= applied <= |all|
    && w.queue.operations == all[done..]
    && w.server == AppliedAll(s0, all[..applied])
    && forall u :: u in w.tasks ==> u == t
  }

  lemma FinishConverges(w: World, t: nat, s0: Server, all: seq<PendingStorage>, done: nat, applied: nat, index: nat)
    requires InStep(w, t, s0, all, done, applied) && done + index <= applied
    ensures Converging(FinishSync(w, t, all[done + index..], index), s0, all)
  {
    var q := w.queue.(operations := all[done + index..]);
    var v := FinishSync(w, t, all[done + index..], index);
    if index == 0 {
      assert Converges(v, s0, all, done, applied);
    } else if EncodeQueue(q) == w.queueText {
      assert Converges(v, s0, all, done + index, applied);
    } else {
      assert forall u :: u in v.tasks ==> v.tasks[u] == Persisting(q, false);
      assert Converges(v, s0, all, done, applied);
    }
  }

  lemma AdvanceConverges(w: World, t: nat, task: Task, s0: Server, all: seq<PendingStorage>, done: nat, applied: nat)
    requires InStep(w, t, s0, all, done, applied)
    requires task.Syncing? && task.index < |task.snapshot| && task.snapshot == all[done..]
    requires task.remaining == [] && task.completed == task.index && done + task.index < applied
    ensures Converging(Advance(w, t, task, task.remaining, task.completed + 1), s0, all)
  {
    var v := Advance(w, t, task, task.remaining, task.completed + 1);
    if task.index + 1 < |task.snapshot| {
      var next := Syncing(task.snapshot, task.index + 1, [], task.completed + 1, Find);
      assert forall u :: u in v.tasks ==> v.tasks[u] == next;
      assert Converges(v, s0, all, done, applied);
    } else {
      assert all[done + (task.index + 1)..] == [];
      FinishConverges(w, t, s0, all, done, applied, task.index + 1);
    }
  }

  /** What the next operation's answer makes of the server. */
  lemma AnswerApplies(s0: Server, all: seq<PendingStorage>, task: Task, done: nat, applied: nat, link: Link)
    returns (now: nat)
    requires Fixed(s0, all) && done <= applied <= |all| && IsUndisputed(link)
    requires task.Syncing? && TaskConverges(task, AppliedAll(s0, all[..applied]), all, done, applied)
    ensures applied <= now <= |all|
    ensures var op := task.snapshot[task.index];
      var (s, progress) := Respond(AppliedAll(s0, all[..applied]), IdOfOperation(op), op.locationId, task.call, link);
      && s == AppliedAll(s0, all[..now])
      && match progress
         case Next(call) => now == applied == done + task.index && CallFits(s, op, call)
         case Done(_) => done + task.index < now
         case Failed(transport) => transport
  {
    var server, op := AppliedAll(s0, all[..applied]), task.snapshot[task.index];
    var p := done + task.index;
    assert op == all[p];
    if p < applied {
      PrefixIsApplied(s0, all, applied);
      AnswerForApplied(server, op, link);
      now := applied;
    } else {
      AnswerIsAtomic(server, op, task.call, link);
      AppliedNext(s0, all, applied);
      var (s, progress) := Respond(server, IdOfOperation(op), op.locationId, task.call, link);
      now := if progress.Done? || (s != server && progress.Failed?) then applied + 1 else applied;
    }
  }

  lemma NextConverges(w: World, t: nat, next: Task, s0: Server, all: seq<PendingStorage>, done: nat, now: nat)
    requires InStep(w, t, s0, all, done, now) && TaskConverges(next, w.server, all, done, now)
    ensures Converging(Hold(w, t, next), s0, all)
  {
    var v := Hold(w, t, next);
    assert forall u :: u in v.tasks ==> v.tasks[u] == next;
    assert Converges(v, s0, all, done, now);
  }

  lemma SyncProgressConverges(w: World, t: nat, task: Task, progress: Progress, s0: Server, all: seq<PendingStorage>,
                              done: nat, now: nat)
    requires InStep(w, t, s0, all, done, now)
    requires task.Syncing? && task.index < |task.snapshot| && task.snapshot == all[done..]
    requires task.remaining == [] && task.completed == task.index
    requires match progress
             case Next(call) => now == done + task.index && CallFits(w.server, all[now], call)
             case Done(_) => done + task.index < now
             case Failed(transport) => transport && done + task.index <= now
    ensures Converging(SyncProgress(w, t, task, progress), s0, all)
  {
    match progress
    case Next(call) =>
      var next := Syncing(task.snapshot, task.index, task.remaining, task.completed, call);
      NextConverges(w, t, next, s0, all, done, now);
    case Done(_) => AdvanceConverges(w, t, task, s0, all, done, now);
    case Failed(_) =>
      assert Outstanding(task) == all[done + task.index..];
      FinishConverges(w, t, s0, all, done, now, task.index);
  }

  lemma SyncReplyConverges(w: World, t: nat, task: Task, link: Link, s0: Server, all: seq<PendingStorage>, done: nat,
                           applied: nat)
    requires Fixed(s0, all) && InStep(w, t, s0, all, done, applied) && IsUndisputed(link)
    requires task.Syncing? && TaskConverges(task, w.server, all, done, applied)
    ensures Converging(SyncReply(w, t, task, link), s0, all)
  {
    var op := task.snapshot[task.index];
    var (s, progress) := Respond(w.server, IdOfOperation(op), op.locationId, task.call, link);
    var now := AnswerApplies(s0, all, task, done, applied, link);
    SyncProgressConverges(WithServer(w, s), t, task, progress, s0, all, done, now);
  }

  lemma NobodyElseRuns(w: World, t: nat, s0: Server, all: seq<PendingStorage>, done: nat, applied: nat)
    requires LockOk(w) && Converges(w, s0, all, done, applied)
    requires if t in w.tasks then Holds(w.tasks[t]) else !w.busy
    ensures InStep(w, t, s0, all, done, applied)
  {
  }

  /** What the card gives back after a crash. */
  lemma DirtyRebootConverges(w: World, t: nat, s0: Server, all: seq<PendingStorage>, done: nat, applied: nat)
    requires Safe(w) && Fixed(s0, all) && Converges(w, s0, all, done, applied) && t in w.tasks && IsDirty(w.tasks[t])
    ensures Converging(Rebooted(w), s0, all)
  {
    var prepared := w.tasks[t].prepared;
    assert TaskConverges(w.tasks[t], w.server, all, done, applied) && TaskOk(w, w.tasks[t]);
    QueueRoundTrip(prepared);
    LoadedIsOk(prepared, EncodeQueue(prepared));
    StoredTail(all, |all| - |prepared.operations|);
    TailConverges(Rebooted(w), s0, all, |all| - |prepared.operations|, applied);
  }

  lemma TailConverges(w: World, s0: Server, all: seq<PendingStorage>, done: nat, applied: nat)
    requires done <= applied <= |all| && w.tasks == map[]
    requires w.queue.operations == all[done..] && w.server == AppliedAll(s0, all[..applied])
    ensures Converging(w, s0, all)
  {
    assert Converges(w, s0, all, done, applied);
  }

  lemma RebootConverges(w: World, s0: Server, all: seq<PendingStorage>, done: nat, applied: nat)
    requires Safe(w) && Fixed(s0, all) && Converges(w, s0, all, done, applied)
    ensures Converging(Rebooted(w), s0, all)
  {
    if t :| t in w.tasks && IsDirty(w.tasks[t]) {
      DirtyRebootConverges(w, t, s0, all, done, applied);
    } else {
      if w.queueText != [] {
        LoadedIsOk(w.queue, w.queueText);
        StoredTail(all, done);
      }
      assert Converges(Rebooted(w), s0, all, done, applied);
    }
  }

  lemma StoredTail(all: seq<PendingStorage>, n: nat)
    requires StoredAll(all) == all && n <= |all|
    ensures StoredAll(all[n..]) == all[n..]
  {
    forall i | 0 <= i < |all| - n ensures StoredAll(all[n..])[i] == all[n..][i] {
      assert StoredAll(all)[n + i] == all[n + i];
    }
  }

  lemma AcquireConverges(w: World, a: Action, s0: Server, all: seq<PendingStorage>, done: nat, applied: nat)
    requires Safe(w) && Enabled(w, a) && Converges(w, s0, all, done, applied) && (a.StartRequest? || a.StartSync?)
    ensures Converging(Step(w, a), s0, all)
  {
    if a.StartRequest? && !w.busy {
      HoldConverges(w, a.t, Requesting(a.awaits), s0, all, done, applied);
    } else if a.StartSync? && !w.busy && w.queue.operations != [] {
      var task := Syncing(w.queue.operations, 0, [], 0, Find);
      assert TaskConverges(task, w.server, all, done, applied);
      HoldConverges(w, a.t, task, s0, all, done, applied);
    }
    assert Converges(Step(w, a), s0, all, done, applied);
  }

  lemma ReplyConverges(w: World, t: nat, link: Link, s0: Server, all: seq<PendingStorage>, done: nat, applied: nat)
    requires Safe(w) && Enabled(w, Reply(t, link)) && Fixed(s0, all) && Converges(w, s0, all, done, applied)
             && IsUndisputed(link)
    ensures Converging(Step(w, Reply(t, link)), s0, all)
  {
    var task := w.tasks[t];
    NobodyElseRuns(w, t, s0, all, done, applied);
    if task.Syncing? {
      SyncReplyConverges(w, t, task, link, s0, all, done, applied);
    } else {
      if link == Answered && task.awaits > 0 {
        HoldConverges(w, t, Requesting(task.awaits - 1), s0, all, done, applied);
      } else {
        ReleaseConverges(w, t, s0, all, done, applied);
      }
      assert Converges(Step(w, Reply(t, link)), s0, all, done, applied);
    }
  }

  lemma CardConverges(w: World, a: Action, s0: Server, all: seq<PendingStorage>, done: nat, applied: nat)
    requires Safe(w) && Enabled(w, a) && Converges(w, s0, all, done, applied) && (a.CardWrite? || a.Resume?)
    ensures Converging(Step(w, a), s0, all)
  {
    var task := w.tasks[a.t];
    NobodyElseRuns(w, a.t, s0, all, done, applied);
    assert TaskConverges(task, w.server, all, done, applied);
    if a.Resume? {
      assert Converges(Resumed(w, a.t, task), s0, all, |all| - |task.prepared.operations|, applied);
    } else if a.ok {
      var v := Written(w, a.t, task);
      assert forall u :: u in v.tasks ==> v.tasks[u] == Persisting(task.prepared, true);
      assert Converges(v, s0, all, done, applied);
    } else {
      ReleaseConverges(w, a.t, s0, all, done, applied);
      assert Converges(Release(w, a.t), s0, all, done, applied);
    }
  }

  lemma StepConverges(w: World, a: Action, s0: Server, all: seq<PendingStorage>)
    requires Safe(w) && Enabled(w, a) && IsReplay(a) && Fixed(s0, all) && Converging(w, s0, all)
    ensures Converging(Step(w, a), s0, all)
  {
    var done: nat, applied: nat :| Converges(w, s0, all, done, applied);
    match a
    case StartRequest(_, _) => AcquireConverges(w, a, s0, all, done, applied);
    case StartSync(_) => AcquireConverges(w, a, s0, all, done, applied);
    case Reply(t, link) => ReplyConverges(w, t, link, s0, all, done, applied);
    case CardWrite(_, _) => CardConverges(w, a, s0, all, done, applied);
    case Resume(_) => CardConverges(w, a, s0, all, done, applied);
    case SetUnreachable(_) => assert Converges(Step(w, a), s0, all, done, applied);
    case Crash => RebootConverges(w, s0, all, done, applied);
  }

  lemma StartConverges(w: World)
    requires Initial(w)
    ensures Fixed(w.server, w.queue.operations) && Converging(w, w.server, w.queue.operations)
  {
    InitialQueueIsStored(w);
    var all := w.queue.operations;
    assert all[0..] == all && all[..0] == [];
    assert Converges(w, w.server, all, 0, 0);
  }

  lemma {:induction false} RunConverges(worlds: seq<World>, actions: seq<Action>, n: nat)
    requires IsRun(worlds, actions) && n <= |actions|
    requires forall i :: 0 <= i < |actions| ==> IsReplay(actions[i])
    ensures Fixed(worlds[0].server, worlds[0].queue.operations)
    ensures Converging(worlds[n], worlds[0].server, worlds[0].queue.operations)
  {
    if n == 0 {
      StartConverges(worlds[0]);
    } else {
      RunConverges(worlds, actions, n - 1);
      RunIsSafe(worlds, actions, n - 1);
      StepConverges(worlds[n - 1], actions[n - 1], worlds[0].server, worlds[0].queue.operations);
    }
  }

  lemma InitialQueueIsStored(w: World)
    requires Initial(w)
    ensures Fixed(w.server, w.queue.operations)
  {
    if w.queueText != [] {
      DecodedIsStored(w.queueText);
    }
  }

  /** From a card with any queue: however passes are interrupted by lost connections, lost answers, failed
      card writes and crashes, and however often they are repeated, once the queue in memory is empty the
      server is exactly where one undisturbed pass over the original queue would have put it. */
  lemma CrashesDoNotChangeTheOutcome(worlds: seq<World>, actions: seq<Action>, n: nat)
    requires IsRun(worlds, actions) && n <= |actions|
    requires forall i :: 0 <= i < |actions| ==> IsReplay(actions[i])
    requires worlds[n].queue.operations == []
    ensures worlds[n].server == AppliedAll(worlds[0].server, worlds[0].queue.operations)
    ensures AllAt(worlds[n].server, worlds[0].queue.operations)
  {
    var s0, all := worlds[0].server, worlds[0].queue.operations;
    RunConverges(worlds, actions, n);
    var done: nat, applied: nat :| Converges(worlds[n], s0, all, done, applied);
    assert all[..applied] == all;
    AppliedAllMeaning(s0, all);
  }
}
