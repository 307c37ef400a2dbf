/** What the service's operations come to, in terms of the queue, the card and the server before and after. */
module ServiceLaws {
  import opened Text
  import opened Identity
  import opened Documents
  import opened OfflineStore
  import opened FilaManServer
  import opened FilaManService

  // ---- What is left of a queue ----

  lemma {:induction false} SubsequenceMembers(a: seq<PendingStorage>, b: seq<PendingStorage>)
    requires IsSubsequence(a, b)
    ensures forall x :: x in a ==> x in b
    decreases |b|
  {
    if a != [] {
      assert forall x :: x in a <==> x == a[0] || x in a[1..];
      if a[0] == b[0] && IsSubsequence(a[1..], b[1..]) {
        SubsequenceMembers(a[1..], b[1..]);
      } else {
        SubsequenceMembers(a, b[1..]);
      }
    }
  }

  lemma HeadAndTail(a: seq<PendingStorage>, b: seq<PendingStorage>, next: nat)
    requires a != [] && b != [] && a[0] == b[0] && (forall x :: x in a[1..] ==> x in b[1..])
    requires DistinctIds(b) && InSequence(b) && BelowNext(b, next)
    requires DistinctIds(a[1..]) && InSequence(a[1..]) && BelowNext(a[1..], next)
    ensures DistinctIds(a) && InSequence(a) && BelowNext(a, next)
  {
    assert forall j :: 1 <= j < |a| ==> a[j] == a[1..][j - 1];
    forall j | 1 <= j < |a|
      ensures IdOfOperation(a[0]) != IdOfOperation(a[j])
      ensures a[0].sequence < a[j].sequence || a[j].sequence == U64_MAX
    {
      assert a[j] in b[1..];
      var k :| 0 <= k < |b[1..]| && b[1..][k] == a[j];
      assert b[k + 1] == a[j];
    }
  }

  lemma {:induction false} SubsequenceIsOk(a: seq<PendingStorage>, b: seq<PendingStorage>, next: nat)
    requires IsSubsequence(a, b) && DistinctIds(b) && InSequence(b) && BelowNext(b, next)
    ensures DistinctIds(a) && InSequence(a) && BelowNext(a, next)
    decreases |b|
  {
    if a != [] {
      if a[0] == b[0] && IsSubsequence(a[1..], b[1..]) {
        SubsequenceIsOk(a[1..], b[1..], next);
        SubsequenceMembers(a[1..], b[1..]);
        HeadAndTail(a, b, next);
      } else {
        SubsequenceIsOk(a, b[1..], next);
      }
    }
  }

  /** A queue with fewer operations is another text. */
  lemma FewerIsAnotherText(d: Durable, q: OfflineQueue)
    requires InOrder(d) && |q.operations| < |d.queue.operations|
    ensures EncodeQueue(q) != d.text
  {
    QueueRoundTrip(q);
    assert |StoredQueue(q).operations| == |q.operations|;
    assert |StoredQueue(d.queue).operations| == |d.queue.operations|;
  }

  lemma PassSizes(s: Server, operations: seq<PendingStorage>, links: seq<Links>)
    requires |links| == |operations|
    ensures var p := SyncPass(s, operations, links); |p.completed| + |p.remaining| == |operations|
    ensures var p := SyncPass(s, operations, links);
      forall op :: op in operations ==> op in p.completed || op in p.remaining
  {
    PassPartitions(s, operations, links);
    var p := SyncPass(s, operations, links);
    assert |multiset(p.completed) + multiset(p.remaining)| == |multiset(operations)|;
    forall op | op in operations ensures op in p.completed || op in p.remaining {
      assert op in multiset(p.completed) + multiset(p.remaining);
    }
  }

  // ---- Synchronising ----

  /** Nothing changed, or the queue is shorter and on the card. */
  ghost predicate IsSynced(d: Durable, after: Durable, changed: bool) {
    && InOrder(after)
    && after.queue == d.queue.(operations := after.queue.operations)
    && IsSubsequence(after.queue.operations, d.queue.operations)
    && (changed <==> |after.queue.operations| < |d.queue.operations|)
    && (changed ==> after.card == Some(EncodeQueue(after.queue)))
    && (!changed ==> after == d)
  }

  lemma PersistedPass(d: Durable, remaining: seq<PendingStorage>)
    requires InOrder(d) && IsSubsequence(remaining, d.queue.operations) && |remaining| < |d.queue.operations|
    ensures var (after, written) := Persisted(d, d.queue.(operations := remaining), true);
      written == Ok(true) && IsSynced(d, after, true) && after.queue.operations == remaining
    ensures var (after, written) := Persisted(d, d.queue.(operations := remaining), false);
      written.Err? && after == d
  {
    var q := d.queue.(operations := remaining);
    FewerIsAnotherText(d, q);
    SubsequenceIsOk(remaining, d.queue.operations, d.queue.nextSequence);
    PersistedInOrder(d, q, true);
  }

  /** The queue afterwards: what the pass left if something was completed and could be written, the old one
      otherwise. */
  lemma SyncedIs(d: Durable, s: Server, links: seq<Links>, writes: bool)
    requires InOrder(d) && |links| == |d.queue.operations|
    ensures var (after, server, changed) := Synchronized(d, s, links, writes);
      var p := SyncPass(s, d.queue.operations, links);
      && IsSynced(d, after, changed) && server == p.server
      && (changed <==> writes && p.completed != [])
      && (changed ==> after.queue.operations == p.remaining)
  {
    var p := SyncPass(s, d.queue.operations, links);
    PassConserves(s, d.queue.operations, links);
    PassSizes(s, d.queue.operations, links);
    SubsequenceOfSelf(d.queue.operations);
    assert d.queue.(operations := d.queue.operations) == d.queue;
    if p.completed != [] {
      PersistedPass(d, p.remaining);
    }
  }

  /** Whatever the network and the card do: the queue afterwards is in order, holds operations of the queue before in
      their order and no others, and every operation that is gone is at its place on the server. A failed write
      changes nothing on the device. */
  lemma NothingUnfinishedIsDropped(d: Durable, s: Server, links: seq<Links>, writes: bool)
    requires InOrder(d) && ServerOk(s) && |links| == |d.queue.operations|
    ensures var (after, server, changed) := Synchronized(d, s, links, writes);
      && IsSynced(d, after, changed)
      && (!writes ==> !changed)
      && OthersUntouched(s, server, IdsOf(d.queue.operations))
      && forall op :: op in d.queue.operations && op !in after.queue.operations ==>
           IsAt(server, IdOfOperation(op), op.locationId)
  {
    SyncedIs(d, s, links, writes);
    PassIsEffective(s, d.queue.operations, links);
    PassSizes(s, d.queue.operations, links);
  }

  lemma {:induction false} UnansweredRemains(s: Server, operations: seq<PendingStorage>, links: seq<Links>, i: nat)
    requires |links| == |operations| && i < |links| && links[i].first != Answered
    ensures operations[i] in SyncPass(s, operations, links).remaining
    decreases |operations|
  {
    var (after, progress) := Outcome(s, operations[0], links[0]);
    if i > 0 && progress != Failed(true) {
      UnansweredRemains(after, operations[1..], links[1..], i - 1);
    }
  }

  lemma AnsweredIsDone(s: Server, op: PendingStorage)
    ensures Outcome(s, op, ANSWERED).1.Done?
  {
  }

  predicate IsDelivered(link: Link) {
    link == Answered || link == Refused || link == Garbled
  }

  predicate NoOutage(links: Links) {
    IsDelivered(links.first) && IsDelivered(links.second) && IsDelivered(links.third)
  }

  lemma NoOutageGoesOn(s: Server, op: PendingStorage, links: Links)
    requires NoOutage(links)
    ensures Outcome(s, op, links).1 != Failed(true)
  {
  }

  lemma {:induction false} AnsweredIsCompleted(s: Server, operations: seq<PendingStorage>, links: seq<Links>, i: nat)
    requires |links| == |operations| && i < |links| && links[i] == ANSWERED
    requires forall j :: 0 <= j < i ==> NoOutage(links[j])
    ensures operations[i] in SyncPass(s, operations, links).completed
    decreases |operations|
  {
    var (after, progress) := Outcome(s, operations[0], links[0]);
    if i == 0 {
      AnsweredIsDone(s, operations[0]);
    } else {
      NoOutageGoesOn(s, operations[0], links[0]);
      AnsweredIsCompleted(after, operations[1..], links[1..], i - 1);
    }
  }

  lemma OccursOnce(operations: seq<PendingStorage>, i: nat)
    requires DistinctIds(operations) && i < |operations|
    ensures multiset(operations)[operations[i]] == 1
  {
    var before, after := operations[..i], operations[i + 1..];
    assert operations == before + [operations[i]] + after;
    assert forall j :: 0 <= j < |after| ==> after[j] == operations[i + 1 + j];
    assert operations[i] !in before && operations[i] !in after;
  }

  lemma CompletedIsGone(s: Server, operations: seq<PendingStorage>, links: seq<Links>, i: nat)
    requires DistinctIds(operations) && |links| == |operations| && i < |operations|
    requires operations[i] in SyncPass(s, operations, links).completed
    ensures operations[i] !in SyncPass(s, operations, links).remaining
  {
    var p := SyncPass(s, operations, links);
    PassPartitions(s, operations, links);
    OccursOnce(operations, i);
    assert multiset(p.completed)[operations[i]] + multiset(p.remaining)[operations[i]] == 1;
    assert multiset(p.completed)[operations[i]] > 0;
  }

  /** An operation stays in the queue if its first answer does not come. It leaves the queue if it is answered in full,
      no request before it met an outage, and the card takes the write. */
  lemma WhatStaysAndWhatGoes(d: Durable, s: Server, links: seq<Links>, writes: bool, i: nat)
    requires InOrder(d) && |links| == |d.queue.operations| && i < |links|
    ensures var (after, _, changed) := Synchronized(d, s, links, writes);
      var op := d.queue.operations[i];
      && (links[i].first != Answered ==> op in after.queue.operations)
      && (links[i] == ANSWERED && writes && (forall j :: 0 <= j < i ==> NoOutage(links[j])) ==>
            changed && op !in after.queue.operations)
  {
    SyncedIs(d, s, links, writes);
    if links[i].first != Answered {
      UnansweredRemains(s, d.queue.operations, links, i);
    } else if links[i] == ANSWERED && writes && forall j :: 0 <= j < i ==> NoOutage(links[j]) {
      AnsweredIsCompleted(s, d.queue.operations, links, i);
      CompletedIsGone(s, d.queue.operations, links, i);
    }
  }

  lemma {:induction false} AnsweredPass(s: Server, operations: seq<PendingStorage>, links: seq<Links>)
    requires |links| == |operations| && forall i :: 0 <= i < |links| ==> links[i] == ANSWERED
    ensures SyncPass(s, operations, links).remaining == []
    ensures SyncPass(s, operations, links).completed == operations
    decreases |operations|
  {
    if operations != [] {
      AnsweredIsDone(s, operations[0]);
      AnsweredPass(Outcome(s, operations[0], links[0]).0, operations[1..], links[1..]);
    }
  }

  /** With every request answered and the write going through, the queue is empty in memory and on the card, and every
      spool is at its place. */
  lemma AnsweredPassEmptiesTheQueue(d: Durable, s: Server, links: seq<Links>)
    requires InOrder(d) && ServerOk(s) && |links| == |d.queue.operations| && links != []
    requires forall i :: 0 <= i < |links| ==> links[i] == ANSWERED
    ensures var (after, server, changed) := Synchronized(d, s, links, true);
      && changed && after.queue.operations == []
      && after.card.Some? && DecodeQueue(after.card.value) == Some(d.queue.(operations := []))
      && AllAt(server, d.queue.operations)
  {
    var operations := d.queue.operations;
    var (after, server, changed) := Synchronized(d, s, links, true);
    NothingUnfinishedIsDropped(d, s, links, true);
    SyncedIs(d, s, links, true);
    AnsweredPass(s, operations, links);
    QueueRoundTrip(after.queue);
  }

  // ---- Storing ----

  /** A request is queued exactly if there is a card and a needed write goes through; then the queue holds this spool,
      place and name under the spool's id, and every other operation as before. */
  lemma EnqueueOutcome(d: Durable, hasCard: bool, spool: FilamentSpool, locationId: nat, locationName: string,
                       writes: bool)
    requires InOrder(d)
    ensures var (after, r) := Enqueued(d, hasCard, spool, locationId, locationName, writes);
      && (!hasCard ==> r == Err(NEEDS_CARD))
      && (hasCard && writes ==> r.Ok?)
      && (r.Err? ==> after == d)
      && (r == Ok(false) ==> after.card == d.card && after.text == d.text)
      && (r == Ok(true) ==> writes && after.card == Some(EncodeQueue(after.queue)) && after.card != d.card)
      && (hasCard && r.Err? ==>
            d.card != Some(EncodeQueue(Requested(d.queue, spool, locationId, locationName))))
      && (r.Ok? ==> HasRequest(d.queue, after.queue, spool, locationId, locationName))
  {
    RequestIsWhole(d.queue, spool, locationId, locationName);
    QueueRoundTrip(Requested(d.queue, spool, locationId, locationName));
  }

  /** A spool the server is known to have is moved by one request, and never imported. */
  lemma KnownSpoolIsMoved(s: Server, spool: FilamentSpool, spoolId: nat, locationId: nat, links: Links)
    ensures var (after, progress) := OnlineStore(s, spool, Some(spoolId), locationId, links);
      && (links.first == Answered && HasSpool(s, spoolId) ==>
            progress == Done(spoolId)
            && forall k :: k in s.records && s.records[k].spoolId == spoolId ==> IsAt(after, k, locationId))
      && (!HasSpool(s, spoolId) ==> after.records == s.records && progress.Failed?)
      && after.records.Keys == s.records.Keys
  {
  }

  /** A spool it is not known to have is looked for first, and imported if it is not there. */
  lemma UnknownSpoolIsLookedFor(s: Server, spool: FilamentSpool, locationId: nat)
    requires ServerOk(s)
    ensures var (after, progress) := OnlineStore(s, spool, None, locationId, ANSWERED);
      && progress.Done? && IsAt(after, CanonicalId(spool), locationId)
      && (CanonicalId(spool) in s.records ==> after.records.Keys == s.records.Keys)
      && OthersUntouched(s, after, {CanonicalId(spool)})
  {
    ApplyOnlineIsSafe(s, CanonicalId(spool), locationId, ANSWERED);
  }
}
