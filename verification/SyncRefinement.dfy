/** A pass of the interleaved protocol that nobody disturbs is the loop of `synchronize_offline_queue`. */
module SyncRefinement {
  import opened Documents
  import opened OfflineStore
  import opened FilaManServer
  import opened SyncProtocol
  import opened SyncChoices

  /** The answers an operation actually waits for. */
  function AnswersTo(s: Server, op: PendingStorage, links: Links): seq<Link> {
    var id := IdOfOperation(op);
    var one := Respond(s, id, op.locationId, Find, links.first);
    if !one.1.Next? then [links.first]
    else
      var two := Respond(one.0, id, op.locationId, one.1.call, links.second);
      if !two.1.Next? then [links.first, links.second] else [links.first, links.second, links.third]
  }

  function Replies(t: nat, links: seq<Link>): seq<Action> {
    seq(|links|, i requires 0 <= i < |links| => Reply(t, links[i]))
  }

  lemma {:induction false} AfterConcat(w: World, a: seq<Action>, b: seq<Action>)
    ensures After(w, a + b) == After(After(w, a), b)
    decreases |a|
  {
    if a == [] {
      assert a + b == b;
    } else {
      assert (a + b)[1..] == a[1..] + b;
      AfterConcat(Step(w, a[0]), a[1..], b);
    }
  }

  /** The task `t` alone holds the lock and is about to ask for its next operation. */
  ghost predicate Asks(w: World, t: nat, task: Task) {
    t in w.tasks && w.tasks[t] == task && task.Syncing? && task.index < |task.snapshot| && w.busy
  }

  lemma HoldTwice(w: World, t: nat, a: Task, b: Task)
    ensures Hold(Hold(w, t, a), t, b) == Hold(w, t, b)
  {
    assert w.tasks[t := a][t := b] == w.tasks[t := b];
  }

  lemma ReleaseHeld(w: World, t: nat, a: Task)
    ensures Release(Hold(w, t, a), t) == Release(w, t)
  {
    assert w.tasks[t := a] - {t} == w.tasks - {t};
  }

  lemma FinishHeld(w: World, t: nat, a: Task, remaining: seq<PendingStorage>, completed: nat)
    ensures FinishSync(Hold(w, t, a), t, remaining, completed) == FinishSync(w, t, remaining, completed)
  {
    var q := w.queue.(operations := remaining);
    ReleaseHeld(w, t, a);
    ReleaseHeld(Commit(w, q), t, a);
    HoldTwice(w, t, a, Persisting(q, false));
  }

  lemma ProgressHeld(w: World, t: nat, a: Task, task: Task, progress: Progress)
    requires task.Syncing? && task.index < |task.snapshot|
    ensures SyncProgress(Hold(w, t, a), t, task, progress) == SyncProgress(w, t, task, progress)
  {
    match progress
    case Next(call) => HoldTwice(w, t, a, Syncing(task.snapshot, task.index, task.remaining, task.completed, call));
    case Done(_) => AdvanceHeld(w, t, a, task, task.remaining, task.completed + 1);
    case Failed(_) =>
      FinishHeld(w, t, a, Outstanding(task), task.completed);
      AdvanceHeld(w, t, a, task, task.remaining + [task.snapshot[task.index]], task.completed);
  }

  lemma AdvanceHeld(w: World, t: nat, a: Task, task: Task, remaining: seq<PendingStorage>, completed: nat)
    requires task.Syncing?
    ensures Advance(Hold(w, t, a), t, task, remaining, completed) == Advance(w, t, task, remaining, completed)
  {
    if task.index + 1 < |task.snapshot| {
      HoldTwice(w, t, a, Syncing(task.snapshot, task.index + 1, remaining, completed, Find));
    } else {
      FinishHeld(w, t, a, remaining, completed);
    }
  }

  /** What the task does once the next operation has its outcome. */
  function Settle(w: World, t: nat, task: Task, outcome: (Server, Progress)): World
    requires task.Syncing? && task.index < |task.snapshot|
  {
    SyncProgress(WithServer(w, outcome.0), t, task, outcome.1)
  }

  lemma OneAnswer(w: World, t: nat, task: Task, link: Link)
    requires Asks(w, t, task)
    ensures var op := task.snapshot[task.index];
      Step(w, Reply(t, link))
        == Settle(w, t, task, Respond(w.server, IdOfOperation(op), op.locationId, task.call, link))
  {
  }

  /** Up to three answers, one step each, amount to one application of the operation. */
  lemma OperationIsItsAnswers(w: World, t: nat, task: Task, links: Links)
    requires Asks(w, t, task) && task.call == Find
    ensures var op := task.snapshot[task.index];
      After(w, Replies(t, AnswersTo(w.server, op, links))) == Settle(w, t, task, Outcome(w.server, op, links))
  {
    var op := task.snapshot[task.index];
    var id := IdOfOperation(op);
    var one := Respond(w.server, id, op.locationId, Find, links.first);
    OneAnswer(w, t, task, links.first);
    AfterFirst(w, t, AnswersTo(w.server, op, links));
    if one.1.Next? {
      var asking := Syncing(task.snapshot, task.index, task.remaining, task.completed, one.1.call);
      var v := Step(w, Reply(t, links.first));
      assert v == Hold(WithServer(w, one.0), t, asking);
      SecondAnswers(w, v, t, task, asking, one, links);
    }
  }

  lemma AfterFirst(w: World, t: nat, links: seq<Link>)
    requires links != []
    ensures After(w, Replies(t, links)) == After(Step(w, Reply(t, links[0])), Replies(t, links[1..]))
    ensures |links| == 1 ==> After(w, Replies(t, links)) == Step(w, Reply(t, links[0]))
  {
    assert Replies(t, links)[1..] == Replies(t, links[1..]);
  }

  lemma SecondAnswers(w: World, v: World, t: nat, task: Task, asking: Task, one: (Server, Progress), links: Links)
    requires Asks(w, t, task) && task.call == Find && one.1.Next?
    requires one == Respond(w.server, IdOfOperation(task.snapshot[task.index]), task.snapshot[task.index].locationId,
                            Find, links.first)
    requires asking == Syncing(task.snapshot, task.index, task.remaining, task.completed, one.1.call)
    requires v == Hold(WithServer(w, one.0), t, asking)
    ensures var op := task.snapshot[task.index];
      After(v, Replies(t, AnswersTo(w.server, op, links)[1..])) == Settle(w, t, task, Outcome(w.server, op, links))
  {
    var op := task.snapshot[task.index];
    var id := IdOfOperation(op);
    var answers := AnswersTo(w.server, op, links)[1..];
    var two := Respond(one.0, id, op.locationId, one.1.call, links.second);
    OneAnswer(v, t, asking, links.second);
    AfterFirst(v, t, answers);
    SettleAfterHold(w, t, task, asking, one.0, two);
    if two.1.Next? {
      var last := Syncing(task.snapshot, task.index, task.remaining, task.completed, two.1.call);
      var u := Step(v, Reply(t, links.second));
      assert u == Hold(WithServer(w, two.0), t, last);
      OneAnswer(u, t, last, links.third);
      AfterFirst(u, t, answers[1..]);
      SettleAfterHold(w, t, task, last, two.0, Respond(two.0, id, op.locationId, two.1.call, links.third));
    }
  }

  lemma SettleAfterHold(w: World, t: nat, task: Task, asking: Task, s: Server, outcome: (Server, Progress))
    requires task.Syncing? && task.index < |task.snapshot|
    requires asking.Syncing?
             && asking == Syncing(task.snapshot, task.index, task.remaining, task.completed, asking.call)
    ensures Settle(Hold(WithServer(w, s), t, asking), t, asking, outcome) == Settle(w, t, task, outcome)
  {
    var v := WithServer(w, outcome.0);
    assert WithServer(Hold(WithServer(w, s), t, asking), outcome.0) == Hold(v, t, asking);
    ProgressHeld(v, t, asking, task, outcome.1);
    assert Outstanding(asking) == Outstanding(task);
    assert SyncProgress(Hold(v, t, asking), t, asking, outcome.1)
           == SyncProgress(Hold(v, t, asking), t, task, outcome.1);
  }

  /** The steps of a whole pass: one per answer, stopping at the first outage. */
  function PassReplies(s: Server, operations: seq<PendingStorage>, links: seq<Links>): seq<Link>
    requires |links| == |operations|
    decreases |operations|
  {
    if operations == [] then []
    else
      var (after, progress) := Outcome(s, operations[0], links[0]);
      AnswersTo(s, operations[0], links[0])
      + if progress == Failed(true) then [] else PassReplies(after, operations[1..], links[1..])
  }

  lemma RepliesConcat(t: nat, a: seq<Link>, b: seq<Link>)
    ensures Replies(t, a + b) == Replies(t, a) + Replies(t, b)
  {
  }

  /** The first operation's answers, then the rest. */
  lemma PassSplits(w: World, t: nat, task: Task, links: Links, later: seq<Link>)
    requires Asks(w, t, task) && task.call == Find
    ensures var op := task.snapshot[task.index];
      After(w, Replies(t, AnswersTo(w.server, op, links) + later))
      == After(Settle(w, t, task, Outcome(w.server, op, links)), Replies(t, later))
  {
    var first := AnswersTo(w.server, task.snapshot[task.index], links);
    OperationIsItsAnswers(w, t, task, links);
    RepliesConcat(t, first, later);
    AfterConcat(w, Replies(t, first), Replies(t, later));
  }

  /** The end of a pass over some operations, for a task that already has `remaining` and `completed`. */
  function LoopEnd(w: World, t: nat, remaining: seq<PendingStorage>, completed: nat, p: Pass): World {
    FinishSync(WithServer(w, p.server), t, remaining + p.remaining, completed + |p.completed|)
  }

  lemma LoopEndHeld(w: World, t: nat, a: Task, remaining: seq<PendingStorage>, completed: nat, p: Pass)
    ensures LoopEnd(Hold(w, t, a), t, remaining, completed, p) == LoopEnd(w, t, remaining, completed, p)
  {
    assert WithServer(Hold(w, t, a), p.server) == Hold(WithServer(w, p.server), t, a);
    FinishHeld(WithServer(w, p.server), t, a, remaining + p.remaining, completed + |p.completed|);
  }

  lemma LoopEndWithServer(w: World, s: Server, t: nat, remaining: seq<PendingStorage>, completed: nat, p: Pass)
    ensures LoopEnd(WithServer(w, s), t, remaining, completed, p) == LoopEnd(w, t, remaining, completed, p)
  {
  }

  lemma LoopEndAfterDone(w: World, t: nat, remaining: seq<PendingStorage>, completed: nat, p: Pass, op: PendingStorage)
    ensures LoopEnd(w, t, remaining, completed, p.(completed := [op] + p.completed))
            == LoopEnd(w, t, remaining, completed + 1, p)
  {
    assert completed + |[op] + p.completed| == completed + 1 + |p.completed|;
  }

  lemma LoopEndAfterRefusal(w: World, t: nat, remaining: seq<PendingStorage>, completed: nat, p: Pass,
                            op: PendingStorage)
    ensures LoopEnd(w, t, remaining, completed, p.(remaining := [op] + p.remaining))
            == LoopEnd(w, t, remaining + [op], completed, p)
  {
    assert remaining + ([op] + p.remaining) == remaining + [op] + p.remaining;
  }

  lemma LoopEndOfNothing(w: World, t: nat, remaining: seq<PendingStorage>, completed: nat)
    ensures LoopEnd(w, t, remaining, completed, Pass(w.server, [], [])) == FinishSync(w, t, remaining, completed)
  {
    assert remaining + [] == remaining;
    assert WithServer(w, w.server) == w;
  }

  /** One round of both recursions, for any outcome of the first operation. */
  lemma PassRound(s: Server, rest: seq<PendingStorage>, links: seq<Links>, after: Server, progress: Progress)
    requires rest != [] && |links| == |rest| && (after, progress) == Outcome(s, rest[0], links[0])
    ensures PassReplies(s, rest, links)
         == AnswersTo(s, rest[0], links[0])
            + if progress == Failed(true) then [] else PassReplies(after, rest[1..], links[1..])
    ensures progress == Failed(true) ==> SyncPass(s, rest, links) == Pass(after, [], rest)
    ensures progress == Failed(false) ==>
      var p := SyncPass(after, rest[1..], links[1..]);
      SyncPass(s, rest, links) == p.(remaining := [rest[0]] + p.remaining)
    ensures progress.Done? ==>
      var p := SyncPass(after, rest[1..], links[1..]);
      SyncPass(s, rest, links) == p.(completed := [rest[0]] + p.completed)
    ensures !progress.Next?
  {
  }

  lemma DoneAdvances(w: World, t: nat, task: Task, spoolId: nat)
    requires task.Syncing? && task.index < |task.snapshot|
    ensures SyncProgress(w, t, task, Done(spoolId)) == Advance(w, t, task, task.remaining, task.completed + 1)
  {
  }

  /** After a completed operation the pass goes on with the rest. */
  lemma DoneEnds(w: World, t: nat, task: Task, tail: seq<PendingStorage>, links: seq<Links>, after: Server,
                 spoolId: nat)
    requires task.Syncing? && task.index < |task.snapshot| && tail == task.snapshot[task.index + 1..]
             && |links| == |tail|
    ensures var p := SyncPass(after, tail, links);
      After(SyncProgress(WithServer(w, after), t, task, Done(spoolId)), Replies(t, PassReplies(after, tail, links)))
      == LoopEnd(w, t, task.remaining, task.completed, p.(completed := [task.snapshot[task.index]] + p.completed))
    decreases |links|, 3
  {
    var p := SyncPass(after, tail, links);
    var completed := task.completed + 1;
    DoneAdvances(WithServer(w, after), t, task, spoolId);
    ContinuedPass(WithServer(w, after), t, task, task.remaining, completed, tail, links);
    LoopEndWithServer(w, after, t, task.remaining, completed, p);
    LoopEndAfterDone(w, t, task.remaining, task.completed, p, task.snapshot[task.index]);
  }

  /** After a refused operation it goes on as well, keeping the operation. */
  lemma RefusedEnds(w: World, t: nat, task: Task, tail: seq<PendingStorage>, links: seq<Links>, after: Server)
    requires task.Syncing? && task.index < |task.snapshot| && tail == task.snapshot[task.index + 1..]
             && |links| == |tail|
    ensures var p := SyncPass(after, tail, links);
      After(SyncProgress(WithServer(w, after), t, task, Failed(false)), Replies(t, PassReplies(after, tail, links)))
      == LoopEnd(w, t, task.remaining, task.completed, p.(remaining := [task.snapshot[task.index]] + p.remaining))
    decreases |links|, 3
  {
    var p, op := SyncPass(after, tail, links), task.snapshot[task.index];
    ContinuedPass(WithServer(w, after), t, task, task.remaining + [op], task.completed, tail, links);
    LoopEndWithServer(w, after, t, task.remaining + [op], task.completed, p);
    LoopEndAfterRefusal(w, t, task.remaining, task.completed, p, op);
  }

  lemma OutageEnds(w: World, t: nat, task: Task, after: Server)
    requires task.Syncing? && task.index < |task.snapshot|
    ensures SyncProgress(WithServer(w, after), t, task, Failed(true))
         == LoopEnd(w, t, task.remaining, task.completed, Pass(after, [], task.snapshot[task.index..]))
  {
  }

  /** From any point of a pass, the undisturbed steps end where the loop over the rest of the queue ends:
      with the loop's server, remaining operations and number of completed ones. */
  lemma {:induction false} UndisturbedPassIsTheLoop(w: World, t: nat, task: Task, rest: seq<PendingStorage>,
                                                    links: seq<Links>)
    requires Asks(w, t, task) && task.call == Find
    requires rest == task.snapshot[task.index..] && |links| == |rest|
    ensures After(w, Replies(t, PassReplies(w.server, rest, links)))
         == LoopEnd(w, t, task.remaining, task.completed, SyncPass(w.server, rest, links))
    decreases |links|, 1
  {
    var (after, progress) := Outcome(w.server, rest[0], links[0]);
    PassRound(w.server, rest, links, after, progress);
    if progress == Failed(true) {
      PassSplits(w, t, task, links[0], []);
      OutageEnds(w, t, task, after);
    } else {
      PassSplits(w, t, task, links[0], PassReplies(after, rest[1..], links[1..]));
      if progress.Done? {
        DoneEnds(w, t, task, rest[1..], links[1..], after, progress.spoolId);
      } else {
        RefusedEnds(w, t, task, rest[1..], links[1..], after);
      }
    }
  }

  lemma {:induction false} ContinuedPass(v: World, t: nat, task: Task, remaining: seq<PendingStorage>, completed: nat,
                                         rest: seq<PendingStorage>, links: seq<Links>)
    requires task.Syncing? && task.index < |task.snapshot|
    requires rest == task.snapshot[task.index + 1..] && |links| == |rest|
    ensures After(Advance(v, t, task, remaining, completed), Replies(t, PassReplies(v.server, rest, links)))
         == LoopEnd(v, t, remaining, completed, SyncPass(v.server, rest, links))
    decreases |links|, 2
  {
    if rest == [] {
      LoopEndOfNothing(v, t, remaining, completed);
    } else {
      var next := Syncing(task.snapshot, task.index + 1, remaining, completed, Find);
      UndisturbedPassIsTheLoop(Hold(v, t, next), t, next, rest, links);
      LoopEndHeld(v, t, next, remaining, completed, SyncPass(v.server, rest, links));
    }
  }
}
