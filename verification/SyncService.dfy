/** The steps of the interleaved protocol, taken one after the other without disturbance, are the methods of the
    service: the same queue, text, card and server afterwards. */
module SyncService {
  import opened Text
  import opened Identity
  import opened Documents
  import opened OfflineStore
  import opened FilaManServer
  import opened FilaManService
  import opened SyncProtocol
  import opened SyncChoices
  import opened SyncRefinement

  function DurableOf(w: World): Durable {
    Durable(w.queue, w.queueText, w.card)
  }

  /** The steps of a task that has something to write. */
  function Writes(w: World, t: nat, writes: bool): seq<Action> {
    if t !in w.tasks || !IsWriting(w.tasks[t]) then []
    else if writes then [CardWrite(t, true), Resume(t)]
    else [CardWrite(t, false)]
  }

  /** The task is over: the lock is free, and no other task, nor anything of the world that it does not own, changed. */
  predicate IsOver(w: World, after: World, t: nat) {
    !after.busy && after.tasks == w.tasks - {t} && after.hasCard == w.hasCard
  }

  lemma WrittenAndResumed(w: World, t: nat, task: Task)
    requires IsWriting(task) && !task.written
    ensures var v := Hold(w, t, task);
      var after := After(v, [CardWrite(t, true), Resume(t)]);
      && Writes(v, t, true) == [CardWrite(t, true), Resume(t)]
      && DurableOf(after) == Durable(task.prepared, EncodeQueue(task.prepared), Some(EncodeQueue(task.prepared)))
      && IsOver(w, after, t) && after.server == w.server && after.unreachable == w.unreachable
  {
    var v := Hold(w, t, task);
    var written := Step(v, CardWrite(t, true));
    var after := Step(written, Resume(t));
    assert [CardWrite(t, true), Resume(t)][1..] == [Resume(t)] && [Resume(t)][1..] == [];
    assert After(after, []) == after;
    assert After(written, [Resume(t)]) == after;
    assert written.tasks[t].prepared == task.prepared;
    assert after.tasks == w.tasks - {t};
  }

  lemma WriteFails(w: World, t: nat, task: Task)
    requires IsWriting(task)
    ensures var v := Hold(w, t, task);
      var after := After(v, [CardWrite(t, false)]);
      && Writes(v, t, false) == [CardWrite(t, false)]
      && DurableOf(after) == DurableOf(w) && IsOver(w, after, t) && after.server == w.server
      && after.unreachable == w.unreachable
  {
    var v := Hold(w, t, task);
    var after := Step(v, CardWrite(t, false));
    assert [CardWrite(t, false)][1..] == [] && After(after, []) == after;
    ReleaseHeld(w, t, task);
  }

  /** A queue to be persisted, from the moment it is prepared. */
  lemma PersistSteps(w: World, v: World, t: nat, task: Task, q: OfflineQueue, writes: bool)
    requires v == (if EncodeQueue(q) == w.queueText then Release(Commit(w, q), t) else Hold(w, t, task))
    requires IsWriting(task) && !task.written && task.prepared == q
    ensures var after := After(v, Writes(v, t, writes));
      && DurableOf(after) == Persisted(DurableOf(w), q, writes).0
      && IsOver(w, after, t) && after.server == w.server && after.unreachable == w.unreachable
  {
    if EncodeQueue(q) == w.queueText {
      assert t !in v.tasks && After(v, []) == v;
    } else if writes {
      WrittenAndResumed(w, t, task);
    } else {
      WriteFails(w, t, task);
    }
  }

  /** Queueing a request is `enqueue_storage`. */
  lemma EnqueueStepsAreTheMethod(w: World, t: nat, spool: FilamentSpool, locationId: nat, locationName: string,
                                 writes: bool)
    ensures var v := BeginEnqueue(w, t, spool, locationId, locationName);
      var after := After(v, Writes(v, t, writes));
      && DurableOf(after) == Enqueued(DurableOf(w), w.hasCard, spool, locationId, locationName, writes).0
      && IsOver(w, after, t) && after.server == w.server && after.unreachable == w.unreachable
  {
    var v := BeginEnqueue(w, t, spool, locationId, locationName);
    if w.hasCard {
      var q := Requested(w.queue, spool, locationId, locationName);
      PersistSteps(w, v, t, Enqueueing(spool, locationId, locationName, q, false), q, writes);
    } else {
      assert t !in v.tasks && After(v, []) == v;
    }
  }

  /** Persisting what a pass left is the end of `synchronize_offline_queue`. */
  lemma FinishStepsAreTheMethod(w: World, t: nat, links: seq<Links>, writes: bool)
    requires |links| == |w.queue.operations|
    ensures var p := SyncPass(w.server, w.queue.operations, links);
      var v := LoopEnd(w, t, [], 0, p);
      var after := After(v, Writes(v, t, writes));
      var (durable, server, _) := Synchronized(DurableOf(w), w.server, links, writes);
      && DurableOf(after) == durable && after.server == server
      && IsOver(w, after, t) && after.unreachable == w.unreachable
  {
    var p := SyncPass(w.server, w.queue.operations, links);
    var v := LoopEnd(w, t, [], 0, p);
    var u := WithServer(w, p.server);
    assert [] + p.remaining == p.remaining;
    if p.completed == [] {
      assert v == Release(u, t) && t !in v.tasks && After(v, []) == v;
    } else {
      var q := w.queue.(operations := p.remaining);
      PersistSteps(u, v, t, Persisting(q, false), q, writes);
    }
  }

  /** A whole pass. */
  function SyncSteps(w: World, t: nat, links: seq<Links>): seq<Action>
    requires |links| == |w.queue.operations|
  {
    [StartSync(t)] + Replies(t, PassReplies(w.server, w.queue.operations, links))
  }

  /** Synchronising with the lock free and something queued is `synchronize_offline_queue`. */
  lemma SyncStepsAreTheMethod(w: World, t: nat, links: seq<Links>, writes: bool)
    requires !w.busy && w.queue.operations != [] && |links| == |w.queue.operations|
    ensures var v := After(w, SyncSteps(w, t, links));
      var after := After(v, Writes(v, t, writes));
      var (durable, server, _) := Synchronized(DurableOf(w), w.server, links, writes);
      && DurableOf(after) == durable && after.server == server
      && IsOver(w, after, t) && after.unreachable == w.unreachable
  {
    var operations := w.queue.operations;
    var task := Syncing(operations, 0, [], 0, Find);
    var u := Hold(w, t, task);
    assert Step(w, StartSync(t)) == u;
    assert SyncSteps(w, t, links)[1..] == Replies(t, PassReplies(w.server, operations, links));
    assert operations[0..] == operations;
    UndisturbedPassIsTheLoop(u, t, task, operations, links);
    LoopEndHeld(w, t, task, [], 0, SyncPass(w.server, operations, links));
    FinishStepsAreTheMethod(w, t, links, writes);
  }

  /** A boot: a new store, which loads the queue if the card gave a file. */
  method Boot(file: Option<Document>) returns (store: OfflineState)
    ensures fresh(store) && store.Valid() && store.inventory.None?
    ensures (store.queue, store.queueSerialized) == Loaded(file)
  {
    store := new OfflineState();
    if file.Some? {
      var _ := store.LoadQueue(file.value);
    }
  }

  // ---- Storing ----

  /** What a store does with an answer. */
  function Settled(w: World, t: nat, op: PendingStorage, outcome: (Server, Progress)): World {
    var v := WithServer(w, outcome.0);
    match outcome.1
    case Next(call) => Hold(v, t, Storing(op.spool, op.locationId, op.locationName, call))
    case Done(_) => Release(v, t)
    case Failed(transport) =>
      if transport then BeginEnqueue(v.(unreachable := true), t, op.spool, op.locationId, op.locationName)
      else Release(v, t)
  }

  lemma EnqueueHeld(w: World, t: nat, a: Task, spool: FilamentSpool, locationId: nat, locationName: string)
    ensures BeginEnqueue(Hold(w, t, a), t, spool, locationId, locationName)
         == BeginEnqueue(w, t, spool, locationId, locationName)
  {
    var q := Requested(w.queue, spool, locationId, locationName);
    ReleaseHeld(w, t, a);
    ReleaseHeld(Commit(w, q), t, a);
    HoldTwice(w, t, a, Enqueueing(spool, locationId, locationName, q, false));
  }

  function Asking(op: PendingStorage, call: Call): Task {
    Storing(op.spool, op.locationId, op.locationName, call)
  }

  lemma StoreAnswer(w: World, t: nat, op: PendingStorage, call: Call, link: Link)
    ensures Step(Hold(w, t, Asking(op, call)), Reply(t, link))
         == Settled(w, t, op, Respond(w.server, IdOfOperation(op), op.locationId, call, link))
  {
    var task := Asking(op, call);
    var (s, progress) := Respond(w.server, IdOfOperation(op), op.locationId, call, link);
    var v := WithServer(w, s);
    assert WithServer(Hold(w, t, task), s) == Hold(v, t, task);
    ReleaseHeld(v, t, task);
    assert Hold(v, t, task).(unreachable := true) == Hold(v.(unreachable := true), t, task);
    EnqueueHeld(v.(unreachable := true), t, task, op.spool, op.locationId, op.locationName);
    if progress.Next? {
      HoldTwice(v, t, task, Asking(op, progress.call));
    }
  }

  lemma SettledServer(w: World, s: Server, t: nat, op: PendingStorage, outcome: (Server, Progress))
    ensures Settled(WithServer(w, s), t, op, outcome) == Settled(w, t, op, outcome)
  {
    assert WithServer(WithServer(w, s), outcome.0) == WithServer(w, outcome.0);
  }

  /** Up to three answers, one step each, amount to one application. */
  lemma StoreIsItsAnswers(w: World, t: nat, op: PendingStorage, links: Links)
    ensures After(Hold(w, t, Asking(op, Find)), Replies(t, AnswersTo(w.server, op, links)))
         == Settled(w, t, op, Outcome(w.server, op, links))
  {
    var id := IdOfOperation(op);
    var one := Respond(w.server, id, op.locationId, Find, links.first);
    var answers := AnswersTo(w.server, op, links);
    StoreAnswer(w, t, op, Find, links.first);
    AfterFirst(Hold(w, t, Asking(op, Find)), t, answers);
    if one.1.Next? {
      var two := Respond(one.0, id, op.locationId, one.1.call, links.second);
      var v := WithServer(w, one.0);
      StoreAnswer(v, t, op, one.1.call, links.second);
      SettledServer(w, one.0, t, op, two);
      AfterFirst(Hold(v, t, Asking(op, one.1.call)), t, answers[1..]);
      if two.1.Next? {
        var u := WithServer(w, two.0);
        StoreAnswer(u, t, op, two.1.call, links.third);
        SettledServer(w, two.0, t, op, Respond(two.0, id, op.locationId, two.1.call, links.third));
        AfterFirst(Hold(u, t, Asking(op, two.1.call)), t, answers[2..]);
        assert answers[1..][1..] == answers[2..];
      }
    }
  }

  /** The answers a store waits for: one if the spool id is known. */
  function StoreAnswers(s: Server, op: PendingStorage, known: Option<nat>, links: Links): seq<Link> {
    if known.Some? then [links.first] else AnswersTo(s, op, links)
  }

  lemma OnlineStoreSteps(w: World, t: nat, op: PendingStorage, known: Option<nat>, links: Links)
    ensures var call := if known.Some? then Move(known.value) else Find;
      After(Hold(w, t, Asking(op, call)), Replies(t, StoreAnswers(w.server, op, known, links)))
      == Settled(w, t, op, OnlineStore(w.server, op.spool, known, op.locationId, links))
  {
    if known.Some? {
      StoreAnswer(w, t, op, Move(known.value), links.first);
      AfterFirst(Hold(w, t, Asking(op, Move(known.value))), t, [links.first]);
    } else {
      StoreIsItsAnswers(w, t, op, links);
    }
  }

  /** The steps of a store that is waiting: it takes the lock, and asks the server unless that is out of reach. */
  function StoreSteps(w: World, t: nat, op: PendingStorage, known: Option<nat>, links: Links): seq<Action> {
    [Proceed(t)] + if w.unreachable then [] else Replies(t, StoreAnswers(w.server, op, known, links))
  }

  /** Where the store stands before it writes. */
  lemma StoreStepsLeadTo(w: World, t: nat, op: PendingStorage, known: Option<nat>, links: Links)
    requires !w.busy && t in w.tasks && w.tasks[t] == Waiting(op.spool, known, op.locationId, op.locationName)
    ensures After(w, StoreSteps(w, t, op, known, links))
         == if w.unreachable then BeginEnqueue(w, t, op.spool, op.locationId, op.locationName)
            else Settled(w, t, op, OnlineStore(w.server, op.spool, known, op.locationId, links))
  {
    var v := Step(w, Proceed(t));
    var rest := if w.unreachable then [] else Replies(t, StoreAnswers(w.server, op, known, links));
    assert StoreSteps(w, t, op, known, links)[1..] == rest;
    assert After(v, []) == v;
    if !w.unreachable {
      OnlineStoreSteps(w, t, op, known, links);
    }
  }

  lemma OnlineStoreEnds(s: Server, spool: FilamentSpool, known: Option<nat>, locationId: nat, links: Links)
    ensures !OnlineStore(s, spool, known, locationId, links).1.Next?
  {
  }

  /** Storing is `store_spool_at`. */
  lemma StoreStepsAreTheMethod(w: World, t: nat, op: PendingStorage, known: Option<nat>, links: Links, writes: bool)
    requires !w.busy && t in w.tasks && w.tasks[t] == Waiting(op.spool, known, op.locationId, op.locationName)
    ensures var v := After(w, StoreSteps(w, t, op, known, links));
      var after := After(v, Writes(v, t, writes));
      (DurableOf(after), after.server, after.unreachable)
        == StoreLeaves(DurableOf(w), w.server, w.unreachable, w.hasCard, op.spool, known, op.locationId,
                       op.locationName, links, writes)
      && IsOver(w, after, t)
  {
    StoreStepsLeadTo(w, t, op, known, links);
    OnlineStoreEnds(w.server, op.spool, known, op.locationId, links);
    var online := OnlineStore(w.server, op.spool, known, op.locationId, links);
    if w.unreachable {
      EnqueueStepsAreTheMethod(w, t, op.spool, op.locationId, op.locationName, writes);
    } else if online.1 == Failed(true) {
      var u := WithServer(w, online.0).(unreachable := true);
      EnqueueStepsAreTheMethod(u, t, op.spool, op.locationId, op.locationName, writes);
    } else {
      var v := Release(WithServer(w, online.0), t);
      assert t !in v.tasks && After(v, []) == v;
    }
  }

  // ---- What the user is told ----

  function Say(r: Report): seq<Report> {
    if r == Silent then [] else [r]
  }

  /** Everything the user is told along some steps. */
  function Heard(w: World, actions: seq<Action>): seq<Report>
    decreases |actions|
  {
    if actions == [] then [] else Say(ReportOf(w, actions[0])) + Heard(Step(w, actions[0]), actions[1..])
  }

  lemma {:induction false} HeardConcat(w: World, a: seq<Action>, b: seq<Action>)
    ensures Heard(w, a + b) == Heard(w, a) + Heard(After(w, a), b)
    decreases |a|
  {
    if a == [] {
      assert a + b == b;
    } else {
      assert (a + b)[1..] == a[1..] + b;
      HeardConcat(Step(w, a[0]), a[1..], b);
    }
  }

  lemma HeardFirst(w: World, t: nat, links: seq<Link>)
    requires links != []
    ensures Heard(w, Replies(t, links))
         == Say(ReportOf(w, Reply(t, links[0]))) + Heard(Step(w, Reply(t, links[0])), Replies(t, links[1..]))
  {
    assert Replies(t, links)[1..] == Replies(t, links[1..]);
  }

  /** A request is confirmed once, and only when it is on the card. */
  lemma EnqueueIsHeard(w: World, t: nat, op: PendingStorage, writes: bool)
    ensures var v := BeginEnqueue(w, t, op.spool, op.locationId, op.locationName);
      var queued := Enqueued(DurableOf(w), w.hasCard, op.spool, op.locationId, op.locationName, writes).1;
      Say(EnqueueReport(w, op.spool, op.locationId, op.locationName)) + Heard(v, Writes(v, t, writes))
        == [if queued.Ok? then Report.Queued(IdOfOperation(op), op.locationId) else Rejected]
  {
    var v := BeginEnqueue(w, t, op.spool, op.locationId, op.locationName);
    var q := Requested(w.queue, op.spool, op.locationId, op.locationName);
    if w.hasCard && EncodeQueue(q) != w.queueText {
      assert v.tasks[t] == Enqueueing(op.spool, op.locationId, op.locationName, q, false);
      if writes {
        var written := Step(v, CardWrite(t, true));
        assert written.tasks[t] == Enqueueing(op.spool, op.locationId, op.locationName, q, true);
        assert Writes(v, t, true)[1..] == [Resume(t)] && [Resume(t)][1..] == [];
        assert Heard(Step(written, Resume(t)), []) == [];
        assert Heard(written, [Resume(t)]) == [Report.Queued(IdOfOperation(op), op.locationId)];
      } else {
        assert Writes(v, t, false)[1..] == [];
        assert Heard(Step(v, CardWrite(t, false)), []) == [];
      }
    } else {
      assert Writes(v, t, writes) == [] && Heard(v, []) == [];
    }
  }

  function ReportFor(w: World, op: PendingStorage, progress: Progress): Report {
    match progress
    case Next(_) => Silent
    case Done(_) => Report.Moved(IdOfOperation(op), op.locationId)
    case Failed(transport) =>
      if transport then EnqueueReport(w, op.spool, op.locationId, op.locationName) else Rejected
  }

  lemma AnswerIsHeard(w: World, t: nat, op: PendingStorage, call: Call, link: Link)
    ensures ReportOf(Hold(w, t, Asking(op, call)), Reply(t, link))
         == ReportFor(w, op, Respond(w.server, IdOfOperation(op), op.locationId, call, link).1)
  {
  }

  /** The second answer, and the third if it is waited for. */
  lemma LaterAnswersAreHeard(w: World, t: nat, op: PendingStorage, one: (Server, Progress), links: Links)
    requires one == Respond(w.server, IdOfOperation(op), op.locationId, Find, links.first) && one.1.Next?
    ensures var later := AnswersTo(w.server, op, links)[1..];
      Heard(Hold(WithServer(w, one.0), t, Asking(op, one.1.call)), Replies(t, later))
         == Say(ReportFor(w, op, Outcome(w.server, op, links).1))
  {
    var id, answers := IdOfOperation(op), AnswersTo(w.server, op, links);
    var two := Respond(one.0, id, op.locationId, one.1.call, links.second);
    var v := WithServer(w, one.0);
    StoreAnswer(v, t, op, one.1.call, links.second);
    AnswerIsHeard(v, t, op, one.1.call, links.second);
    HeardFirst(Hold(v, t, Asking(op, one.1.call)), t, answers[1..]);
    SettledServer(w, one.0, t, op, two);
    if two.1.Next? {
      var u := WithServer(w, two.0);
      StoreAnswer(u, t, op, two.1.call, links.third);
      AnswerIsHeard(u, t, op, two.1.call, links.third);
      HeardFirst(Hold(u, t, Asking(op, two.1.call)), t, answers[1..][1..]);
    }
  }

  lemma AnswersAreHeard(w: World, t: nat, op: PendingStorage, links: Links)
    ensures Heard(Hold(w, t, Asking(op, Find)), Replies(t, AnswersTo(w.server, op, links)))
         == Say(ReportFor(w, op, Outcome(w.server, op, links).1))
  {
    var one := Respond(w.server, IdOfOperation(op), op.locationId, Find, links.first);
    StoreAnswer(w, t, op, Find, links.first);
    AnswerIsHeard(w, t, op, Find, links.first);
    HeardFirst(Hold(w, t, Asking(op, Find)), t, AnswersTo(w.server, op, links));
    if one.1.Next? {
      LaterAnswersAreHeard(w, t, op, one, links);
    }
  }

  /** What `store_spool_at` answers. */
  function StoreSays(d: Durable, s: Server, unreachable: bool, hasCard: bool, op: PendingStorage, known: Option<nat>,
                     links: Links, writes: bool): Report
  {
    var queued := Enqueued(d, hasCard, op.spool, op.locationId, op.locationName, writes).1;
    var online := OnlineStore(s, op.spool, known, op.locationId, links).1;
    if unreachable || online == Failed(true) then
      if queued.Ok? then Report.Queued(IdOfOperation(op), op.locationId) else Rejected
    else if online.Done? then Report.Moved(IdOfOperation(op), op.locationId)
    else Rejected
  }

  lemma OnlineIsHeard(w: World, t: nat, op: PendingStorage, known: Option<nat>, links: Links)
    ensures var call := if known.Some? then Move(known.value) else Find;
      Heard(Hold(w, t, Asking(op, call)), Replies(t, StoreAnswers(w.server, op, known, links)))
      == Say(ReportFor(w, op, OnlineStore(w.server, op.spool, known, op.locationId, links).1))
  {
    if known.Some? {
      AnswerIsHeard(w, t, op, Move(known.value), links.first);
      HeardFirst(Hold(w, t, Asking(op, Move(known.value))), t, [links.first]);
    } else {
      AnswersAreHeard(w, t, op, links);
    }
  }

  lemma StoreStepsSay(w: World, t: nat, op: PendingStorage, known: Option<nat>, links: Links)
    requires !w.busy && t in w.tasks && w.tasks[t] == Waiting(op.spool, known, op.locationId, op.locationName)
    ensures Heard(w, StoreSteps(w, t, op, known, links))
         == Say(if w.unreachable then EnqueueReport(w, op.spool, op.locationId, op.locationName)
                else ReportFor(w, op, OnlineStore(w.server, op.spool, known, op.locationId, links).1))
  {
    var v := Step(w, Proceed(t));
    var rest := if w.unreachable then [] else Replies(t, StoreAnswers(w.server, op, known, links));
    assert StoreSteps(w, t, op, known, links)[1..] == rest;
    assert Heard(v, []) == [];
    if !w.unreachable {
      OnlineIsHeard(w, t, op, known, links);
    }
  }

  /** Along an undisturbed store the user is told exactly once, and what the method answers. */
  lemma StoreIsHeardOnce(w: World, t: nat, op: PendingStorage, known: Option<nat>, links: Links, writes: bool)
    requires !w.busy && t in w.tasks && w.tasks[t] == Waiting(op.spool, known, op.locationId, op.locationName)
    ensures var steps := StoreSteps(w, t, op, known, links);
      Heard(w, steps + Writes(After(w, steps), t, writes))
        == [StoreSays(DurableOf(w), w.server, w.unreachable, w.hasCard, op, known, links, writes)]
  {
    var steps := StoreSteps(w, t, op, known, links);
    var v := After(w, steps);
    HeardConcat(w, steps, Writes(v, t, writes));
    StoreStepsSay(w, t, op, known, links);
    StoreStepsLeadTo(w, t, op, known, links);
    OnlineStoreEnds(w.server, op.spool, known, op.locationId, links);
    var online := OnlineStore(w.server, op.spool, known, op.locationId, links);
    if w.unreachable {
      EnqueueIsHeard(w, t, op, writes);
    } else if online.1 == Failed(true) {
      EnqueueIsHeard(WithServer(w, online.0).(unreachable := true), t, op, writes);
    } else {
      assert Writes(v, t, writes) == [] && Heard(v, []) == [];
    }
  }
}
