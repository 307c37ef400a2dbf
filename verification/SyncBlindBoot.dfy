/** A boot that cannot read the queue: the device starts with an empty one. What that costs, exactly. */
module SyncBlindBoot {
  import opened Text
  import opened Identity
  import opened Documents
  import opened OfflineStore
  import opened FilaManServer
  import opened SyncProtocol
  import opened SyncChoices

  /** A boot whose read of the queue failed. The card is as it was. */
  function BlindlyRebooted(w: World): World {
    w.(busy := false, tasks := map[], unreachable := true, queue := EMPTY_QUEUE, queueText := [])
  }

  /** The step writes a queue to the card. */
  predicate Writes(w: World, a: Action) {
    a.CardWrite? && a.ok && a.t in w.tasks && IsWriting(w.tasks[a.t])
  }

  ghost predicate WritesNothing(w: World, actions: seq<Action>)
    decreases |actions|
  {
    actions == []
    || (Enabled(w, actions[0]) && !Writes(w, actions[0]) && WritesNothing(Step(w, actions[0]), actions[1..]))
  }

  lemma AdvanceKeepsCard(w: World, t: nat, task: Task, progress: Progress)
    requires task.Syncing? && task.index < |task.snapshot|
    ensures SyncProgress(w, t, task, progress).card == w.card
  {
  }

  lemma OnlyWritesTouchTheCard(w: World, a: Action)
    requires !Writes(w, a)
    ensures Step(w, a).card == w.card
  {
    if a.Reply? && a.t in w.tasks {
      var task := w.tasks[a.t];
      if task.Syncing? && task.index < |task.snapshot| {
        var op := task.snapshot[task.index];
        var (s, progress) := Respond(w.server, IdOfOperation(op), op.locationId, task.call, a.link);
        AdvanceKeepsCard(WithServer(w, s), a.t, task, progress);
      }
    }
  }

  /** As long as no queue is written, a later boot that can read the card finds everything. */
  lemma {:induction false} NothingIsLostUntilAWrite(w: World, actions: seq<Action>)
    requires WritesNothing(w, actions)
    ensures After(w, actions).card == w.card
    ensures Rebooted(After(w, actions)).queue == Rebooted(w).queue
    decreases |actions|
  {
    if actions != [] {
      OnlyWritesTouchTheCard(w, actions[0]);
      NothingIsLostUntilAWrite(Step(w, actions[0]), actions[1..]);
    }
  }

  lemma StepKeepsServer(w: World, a: Action)
    requires ServerOk(w.server) && Enabled(w, a)
    ensures ServerOk(Step(w, a).server) && Step(w, a).hasCard == w.hasCard
  {
    if a.Reply? {
      var task := w.tasks[a.t];
      if task.Storing? {
        RespondKeepsServer(w.server, CanonicalId(task.spool), task.locationId, task.call, a.link);
      } else if task.Syncing? && task.index < |task.snapshot| {
        var op := task.snapshot[task.index];
        var (s, progress) := Respond(w.server, IdOfOperation(op), op.locationId, task.call, a.link);
        RespondKeepsServer(w.server, IdOfOperation(op), op.locationId, task.call, a.link);
        SyncMovesNoSpool(WithServer(w, s), a.t, task, progress);
        ProgressKeepsSlot(WithServer(w, s), a.t, task, progress);
      }
    }
  }

  lemma ProgressKeepsSlot(w: World, t: nat, task: Task, progress: Progress)
    requires task.Syncing? && task.index < |task.snapshot|
    ensures SyncProgress(w, t, task, progress).hasCard == w.hasCard
  {
  }

  lemma {:induction false} StepsKeepServer(w: World, actions: seq<Action>)
    requires ServerOk(w.server) && WritesNothing(w, actions)
    ensures ServerOk(After(w, actions).server) && After(w, actions).hasCard == w.hasCard
    decreases |actions|
  {
    if actions != [] {
      StepKeepsServer(w, actions[0]);
      StepsKeepServer(Step(w, actions[0]), actions[1..]);
    }
  }

  lemma BootsAlike(w: World, v: World, owed: Promises)
    requires Safe(w) && Kept(w, owed) && ServerOk(v.server) && v.hasCard == w.hasCard && v.card == w.card
    ensures Safe(Rebooted(v)) && Kept(Rebooted(v), owed)
  {
    CrashIsSafe(w);
    CrashKeeps(w, owed);
    assert Rebooted(v) == Rebooted(w).(server := v.server);
  }

  /** So a boot that cannot read the queue is harmless if the next one can and no queue was written in between:
      the device is back in a state that is safe and keeps every promise. */
  lemma BlindBootIsForgiven(w: World, actions: seq<Action>, owed: Promises)
    requires Safe(w) && Kept(w, owed) && WritesNothing(BlindlyRebooted(w), actions)
    ensures var v := Rebooted(After(BlindlyRebooted(w), actions)); Safe(v) && Kept(v, owed)
  {
    NothingIsLostUntilAWrite(BlindlyRebooted(w), actions);
    StepsKeepServer(BlindlyRebooted(w), actions);
    BootsAlike(w, After(BlindlyRebooted(w), actions), owed);
  }

  // ---- The first write ----

  ghost predicate BlindTask(task: Task) {
    match task
    case Enqueueing(spool, locationId, locationName, prepared, written) =>
      !written && prepared == Requested(EMPTY_QUEUE, spool, locationId, locationName)
    case Syncing(_, _, _, _, _) => false
    case Persisting(_, _) => false
    case _ => true
  }

  /** Nothing was requested or written since a boot that read nothing. */
  ghost predicate Blind(w: World) {
    w.queue == EMPTY_QUEUE && w.queueText == [] && forall t :: t in w.tasks ==> BlindTask(w.tasks[t])
  }

  lemma HoldIsBlind(w: World, t: nat, task: Task)
    requires Blind(w) && BlindTask(task)
    ensures Blind(Hold(w, t, task))
  {
  }

  lemma ReleaseIsBlind(w: World, t: nat)
    requires Blind(w)
    ensures Blind(Release(w, t))
  {
  }

  lemma EnqueueIsBlind(w: World, t: nat, spool: FilamentSpool, locationId: nat, locationName: string)
    requires Blind(w)
    ensures Blind(BeginEnqueue(w, t, spool, locationId, locationName))
  {
    var q := Requested(w.queue, spool, locationId, locationName);
    assert EncodeQueue(q) != [];
    if w.hasCard {
      HoldIsBlind(w, t, Enqueueing(spool, locationId, locationName, q, false));
    } else {
      ReleaseIsBlind(w, t);
    }
  }

  lemma ReplyIsBlind(w: World, t: nat, link: Link)
    requires Blind(w) && Enabled(w, Reply(t, link))
    ensures Blind(Step(w, Reply(t, link)))
  {
    var task := w.tasks[t];
    if task.Requesting? {
      if link == Answered && task.awaits > 0 {
        HoldIsBlind(w, t, Requesting(task.awaits - 1));
      } else {
        ReleaseIsBlind(w, t);
      }
    } else {
      var (s, progress) := Respond(w.server, CanonicalId(task.spool), task.locationId, task.call, link);
      var v := WithServer(w, s);
      match progress
      case Next(call) => HoldIsBlind(v, t, Storing(task.spool, task.locationId, task.locationName, call));
      case Done(_) => ReleaseIsBlind(v, t);
      case Failed(transport) =>
        if transport {
          EnqueueIsBlind(v.(unreachable := true), t, task.spool, task.locationId, task.locationName);
        } else {
          ReleaseIsBlind(v, t);
        }
    }
  }

  lemma StepIsBlind(w: World, a: Action)
    requires Blind(w) && Enabled(w, a) && !Writes(w, a) && !a.Crash?
    ensures Blind(Step(w, a))
  {
    match a
    case Reply(t, link) => ReplyIsBlind(w, t, link);
    case Proceed(t) =>
      var task := w.tasks[t];
      if !w.busy {
        if w.unreachable {
          EnqueueIsBlind(w, t, task.spool, task.locationId, task.locationName);
        } else {
          HoldIsBlind(w, t, Storing(task.spool, task.locationId, task.locationName,
                                    if task.known.Some? then Move(task.known.value) else Find));
        }
      }
    case StartRequest(t, awaits) => HoldIsBlind(w, t, Requesting(awaits));
    case CardWrite(t, _) => ReleaseIsBlind(w, t);
    case _ =>
  }

  /** Steps up to the next boot, none of which writes a queue. */
  ghost predicate IsBlindRun(w: World, actions: seq<Action>)
    decreases |actions|
  {
    actions == []
    || (Enabled(w, actions[0]) && !Writes(w, actions[0]) && !actions[0].Crash?
        && IsBlindRun(Step(w, actions[0]), actions[1..]))
  }

  lemma {:induction false} BlindRunsWriteNothing(w: World, actions: seq<Action>)
    requires IsBlindRun(w, actions)
    ensures WritesNothing(w, actions)
    decreases |actions|
  {
    if actions != [] {
      BlindRunsWriteNothing(Step(w, actions[0]), actions[1..]);
    }
  }

  lemma {:induction false} StepsAreBlind(w: World, actions: seq<Action>)
    requires Blind(w) && IsBlindRun(w, actions)
    ensures Blind(After(w, actions))
    decreases |actions|
  {
    if actions != [] {
      StepIsBlind(w, actions[0]);
      StepsAreBlind(Step(w, actions[0]), actions[1..]);
    }
  }

  lemma OnlyWish(spool: FilamentSpool, locationId: nat, locationName: string, id: string)
    ensures Wanted(Requested(EMPTY_QUEUE, spool, locationId, locationName).operations, id)
         == if id == CanonicalId(spool) then Some(locationId) else None
  {
    RequestIsPrecise(EMPTY_QUEUE, spool, locationId, locationName);
  }

  /** The first write replaces the whole file by its one request. */
  lemma FirstWriteForgets(w: World, a: Action, id: string)
    requires Blind(w) && Writes(w, a)
    ensures var task := w.tasks[a.t];
      && task.Enqueueing?
      && CardWants(Step(w, a).card, id) == if id == CanonicalId(task.spool) then Some(task.locationId) else None
  {
    var task := w.tasks[a.t];
    assert BlindTask(task);
    OnlyWish(task.spool, task.locationId, task.locationName, id);
    EncodedWants(task.prepared, id);
  }

  /** The step writes this very request. */
  predicate WritesRequest(w: World, a: Action, id: string, locationId: nat) {
    Writes(w, a) && var task := w.tasks[a.t];
      task.Enqueueing? && CanonicalId(task.spool) == id && task.locationId == locationId
  }

  /** After a boot that could not read the queue, and until the next boot, a request on the card survives a step
      exactly if the step writes no queue, or writes this very request again. */
  lemma BlindBootForgetsExactly(w: World, actions: seq<Action>, a: Action, id: string, locationId: nat)
    requires CardWants(w.card, id) == Some(locationId) && IsBlindRun(BlindlyRebooted(w), actions)
    ensures var v := After(BlindlyRebooted(w), actions);
      CardWants(Step(v, a).card, id) == Some(locationId) <==> !Writes(v, a) || WritesRequest(v, a, id, locationId)
  {
    var v := After(BlindlyRebooted(w), actions);
    StepsAreBlind(BlindlyRebooted(w), actions);
    BlindRunsWriteNothing(BlindlyRebooted(w), actions);
    NothingIsLostUntilAWrite(BlindlyRebooted(w), actions);
    if Writes(v, a) {
      FirstWriteForgets(v, a, id);
    } else {
      OnlyWritesTouchTheCard(v, a);
    }
  }

  /** A store of any spool right after such a boot. */
  function StoreAtOnce(spool: FilamentSpool, locationId: nat, locationName: string): seq<Action> {
    [StartStore(0, spool, None, locationId, locationName), Proceed(0)]
  }

  lemma StoreAtOnceRuns(w: World, spool: FilamentSpool, locationId: nat, locationName: string)
    requires w.hasCard && ValidateSpool(spool).Ok? && locationId > 0 && Trim(locationName) != ""
    ensures var v := BlindlyRebooted(w);
      var actions := StoreAtOnce(spool, locationId, locationName);
      && IsBlindRun(v, actions)
      && 0 in After(v, actions).tasks
      && After(v, actions).tasks[0]
         == Enqueueing(spool, locationId, locationName, Requested(EMPTY_QUEUE, spool, locationId, locationName), false)
  {
    var v := BlindlyRebooted(w);
    var first, second := StartStore(0, spool, None, locationId, locationName), Proceed(0);
    var waiting := Step(v, first);
    assert waiting.tasks[0] == Waiting(spool, None, locationId, locationName);
    var q := Requested(EMPTY_QUEUE, spool, locationId, locationName);
    assert EncodeQueue(q) != [];
    assert Step(waiting, second) == Hold(waiting, 0, Enqueueing(spool, locationId, locationName, q, false));
    var actions := StoreAtOnce(spool, locationId, locationName);
    assert actions[1..] == [second] && [second][1..] == [];
    assert IsBlindRun(Step(waiting, second), []);
    assert IsBlindRun(waiting, [second]);
    assert After(waiting, [second]) == After(Step(waiting, second), []);
  }

  /** And such a loss can happen: storing another spool, and the write going through, is enough. */
  lemma OneStoreLosesTheOthers(w: World, spool: FilamentSpool, locationId: nat, locationName: string, id: string)
    requires w.hasCard && ValidateSpool(spool).Ok? && locationId > 0 && Trim(locationName) != ""
    requires CardWants(w.card, id).Some? && id != CanonicalId(spool)
    ensures var v := After(BlindlyRebooted(w), StoreAtOnce(spool, locationId, locationName));
      Enabled(v, CardWrite(0, true)) && CardWants(Step(v, CardWrite(0, true)).card, id).None?
  {
    StoreAtOnceRuns(w, spool, locationId, locationName);
    StepsAreBlind(BlindlyRebooted(w), StoreAtOnce(spool, locationId, locationName));
    FirstWriteForgets(After(BlindlyRebooted(w), StoreAtOnce(spool, locationId, locationName)), CardWrite(0, true), id);
  }

  // ---- Whole runs with such boots ----

  datatype Event = Plain(a: Action) | BlindBoot

  function Happened(w: World, e: Event): World {
    match e
    case Plain(a) => Step(w, a)
    case BlindBoot => BlindlyRebooted(w)
  }

  /** The last boot before the event could not read the queue. */
  predicate BlindAt(events: seq<Event>, n: nat)
    requires n <= |events|
  {
    n > 0 && (events[n - 1].BlindBoot? || (events[n - 1].a != Crash && BlindAt(events, n - 1)))
  }

  /** The event can happen, and leads there. While the queue on the card is unknown, none is written. */
  ghost predicate Occurs(w: World, e: Event, blind: bool, after: World) {
    && after == Happened(w, e)
    && (e.Plain? ==> Enabled(w, e.a) && (blind ==> !Writes(w, e.a)))
  }

  /** A run from a readable boot, with boots of both kinds anywhere; between a boot that cannot read the queue and
      the next that can, no queue is written. */
  ghost predicate IsLongRun(worlds: seq<World>, events: seq<Event>) {
    && |worlds| == |events| + 1 && Initial(worlds[0])
    && forall i {:trigger BlindAt(events, i)} :: 0 <= i < |events| ==>
         Occurs(worlds[i], events[i], BlindAt(events, i), worlds[i + 1])
  }

  function PlainEvents(actions: seq<Action>): seq<Event> {
    seq(|actions|, i requires 0 <= i < |actions| => Plain(actions[i]))
  }

  lemma {:induction false} PlainIsNotBlind(actions: seq<Action>, n: nat)
    requires n <= |actions|
    ensures !BlindAt(PlainEvents(actions), n)
  {
    if n > 0 {
      PlainIsNotBlind(actions, n - 1);
    }
  }

  /** The runs of the protocol are the long runs in which every boot can read the queue. */
  lemma RunsAreLong(worlds: seq<World>, actions: seq<Action>)
    ensures IsRun(worlds, actions) <==> IsLongRun(worlds, PlainEvents(actions))
  {
    var events := PlainEvents(actions);
    forall i | 0 <= i < |actions| ensures !BlindAt(events, i) {
      PlainIsNotBlind(actions, i);
    }
    if IsLongRun(worlds, events) {
      forall i | 0 <= i < |actions|
        ensures Enabled(worlds[i], actions[i]) && worlds[i + 1] == Step(worlds[i], actions[i])
      {
        assert !BlindAt(events, i);
        assert Occurs(worlds[i], events[i], false, worlds[i + 1]);
      }
    }
  }

  predicate Acknowledges(w: World, e: Event, id: string, locationId: nat) {
    e.Plain? && ReportOf(w, e.a) == Queued(id, locationId)
  }

  predicate RequestsAgain(w: World, e: Event, id: string) {
    e.Plain? && Requests(w, e.a, id)
  }

  predicate CarriesOut(w: World, e: Event, id: string, locationId: nat) {
    e.Plain? && Completes(w, e.a, id, locationId)
  }

  ghost function Owing(w: World, e: Event, owed: Promises): Promises {
    if e.Plain? then Promised(w, e.a, owed) else owed
  }

  ghost function OwedAt(worlds: seq<World>, events: seq<Event>, n: nat): Promises
    requires n <= |events| < |worlds|
  {
    if n == 0 then map[] else Owing(worlds[n - 1], events[n - 1], OwedAt(worlds, events, n - 1))
  }

  /** In order, or one boot away from it. */
  ghost predicate Sound(w: World, blind: bool, owed: Promises) {
    && (!blind ==> Safe(w) && Kept(w, owed))
    && (blind ==> Blind(w) && Safe(Rebooted(w)) && Kept(Rebooted(w), owed))
  }

  /** A boot that reads nothing leaves everything to the next one. */
  lemma BlindBootIsSound(w: World, blind: bool, owed: Promises)
    requires Sound(w, blind, owed)
    ensures Sound(BlindlyRebooted(w), true, owed)
  {
    if !blind {
      CrashIsSafe(w);
      CrashKeeps(w, owed);
    }
    assert Rebooted(BlindlyRebooted(w)) == Rebooted(w);
  }

  /** Nothing is owed or paid while the queue is unknown. */
  lemma BlindStepOwesNothing(w: World, a: Action, owed: Promises)
    requires Blind(w) && Enabled(w, a) && !Writes(w, a)
    ensures Promised(w, a, owed) == owed && !ReportOf(w, a).Queued?
  {
    assert forall spool, locationId, locationName ::
        EncodeQueue(Requested(EMPTY_QUEUE, spool, locationId, locationName)) != [];
    if a.Reply? || a.Resume? {
      assert BlindTask(w.tasks[a.t]);
    }
  }

  lemma BlindStepIsSound(w: World, a: Action, owed: Promises)
    requires Sound(w, true, owed) && Enabled(w, a) && !Writes(w, a)
    ensures Sound(Step(w, a), a != Crash, owed)
  {
    if a != Crash {
      StepIsBlind(w, a);
      OnlyWritesTouchTheCard(w, a);
      StepKeepsServer(w, a);
      BootsAlike(Rebooted(w), Step(w, a), owed);
    }
  }

  lemma EventIsSound(w: World, blind: bool, e: Event, owed: Promises)
    requires Sound(w, blind, owed)
    requires e.Plain? ==> Enabled(w, e.a) && (blind ==> !Writes(w, e.a))
    ensures Sound(Happened(w, e), e.BlindBoot? || (e.a != Crash && blind), Owing(w, e, owed))
  {
    if e.BlindBoot? {
      BlindBootIsSound(w, blind, owed);
    } else if blind {
      BlindStepOwesNothing(w, e.a, owed);
      BlindStepIsSound(w, e.a, owed);
    } else {
      StepIsSafe(w, e.a);
      StepKeepsPromises(w, e.a, owed);
    }
  }

  lemma {:induction false} LongRunIsSound(worlds: seq<World>, events: seq<Event>, n: nat)
    requires IsLongRun(worlds, events) && n <= |events|
    ensures Sound(worlds[n], BlindAt(events, n), OwedAt(worlds, events, n))
  {
    if n == 0 {
      InitialIsSafe(worlds[0]);
    } else {
      LongRunIsSound(worlds, events, n - 1);
      EventIsSound(worlds[n - 1], BlindAt(events, n - 1), events[n - 1], OwedAt(worlds, events, n - 1));
    }
  }

  lemma SoundHasPromises(w: World, blind: bool, owed: Promises)
    requires Sound(w, blind, owed)
    ensures forall id :: id in owed ==> CardWants(w.card, id) == Some(owed[id])
  {
    CardHasPromises(if blind then Rebooted(w) else w, owed);
  }

  lemma {:induction false} StaysOwed(worlds: seq<World>, events: seq<Event>, i: nat, j: nat, id: string,
                                     locationId: nat)
    requires |worlds| == |events| + 1 && i < j <= |events|
    requires Acknowledges(worlds[i], events[i], id, locationId)
    requires forall k :: i < k < j ==>
               !RequestsAgain(worlds[k], events[k], id) && !CarriesOut(worlds[k], events[k], id, locationId)
    ensures var owed := OwedAt(worlds, events, j); id in owed && owed[id] == locationId
  {
    if j > i + 1 {
      StaysOwed(worlds, events, i, j - 1, id, locationId);
      assert !RequestsAgain(worlds[j - 1], events[j - 1], id);
    }
  }

  lemma OwedIsOnTheCard(worlds: seq<World>, events: seq<Event>, i: nat, j: nat, id: string, locationId: nat)
    requires IsLongRun(worlds, events) && i < j <= |events|
    requires Acknowledges(worlds[i], events[i], id, locationId)
    requires forall k :: i < k < j ==>
               !RequestsAgain(worlds[k], events[k], id) && !CarriesOut(worlds[k], events[k], id, locationId)
    ensures CardWants(worlds[j].card, id) == Some(locationId)
  {
    StaysOwed(worlds, events, i, j, id, locationId);
    LongRunIsSound(worlds, events, j);
    SoundHasPromises(worlds[j], BlindAt(events, j), OwedAt(worlds, events, j));
  }

  lemma PlacesAtOnce(w: World, blind: bool, e: Event, owed: Promises, id: string, locationId: nat)
    requires Sound(w, blind, owed) && CarriesOut(w, e, id, locationId)
    ensures IsAt(Happened(w, e).server, id, locationId)
  {
    assert !blind by {
      assert blind ==> BlindTask(w.tasks[e.a.t]);
    }
    CompletionPlaces(w, e.a, id, locationId);
  }

  lemma CarriedOutIsPlaced(worlds: seq<World>, events: seq<Event>, k: nat, id: string, locationId: nat)
    requires IsLongRun(worlds, events) && k < |events| && CarriesOut(worlds[k], events[k], id, locationId)
    ensures IsAt(worlds[k + 1].server, id, locationId)
  {
    LongRunIsSound(worlds, events, k);
    PlacesAtOnce(worlds[k], BlindAt(events, k), events[k], OwedAt(worlds, events, k), id, locationId);
  }

  /** Boots that cannot read the queue change nothing about the promise, as long as no queue is written before one
      can: an accepted request stays on the card until another for the spool is accepted or a pass carries it out. */
  lemma AcceptedRequestsSurviveBlindBoots(worlds: seq<World>, events: seq<Event>, i: nat, j: nat, id: string,
                                          locationId: nat)
    requires IsLongRun(worlds, events) && i < j <= |events|
    requires Acknowledges(worlds[i], events[i], id, locationId)
    ensures || CardWants(worlds[j].card, id) == Some(locationId)
            || (exists k :: i < k < j && RequestsAgain(worlds[k], events[k], id))
            || (exists k :: i < k < j && CarriesOut(worlds[k], events[k], id, locationId)
                            && IsAt(worlds[k + 1].server, id, locationId))
  {
    if k :| i < k < j && CarriesOut(worlds[k], events[k], id, locationId) {
      CarriedOutIsPlaced(worlds, events, k, id, locationId);
    } else if forall k :: i < k < j ==> !RequestsAgain(worlds[k], events[k], id) {
      OwedIsOnTheCard(worlds, events, i, j, id, locationId);
    }
  }
}
