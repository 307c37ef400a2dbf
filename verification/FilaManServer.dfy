/** The FilaMan server as the device sees it, and what applying queued operations does to it. */
module FilaManServer {
  import opened Text
  import opened Identity
  import opened Documents
  import opened OfflineStore

  datatype Record = Record(spoolId: nat, locationId: Option<nat>)

  /** The active spools by canonical id. `owner` remembers whom every spool id ever given out belongs to. */
  datatype Server = Server(records: map<string, Record>, owner: map<nat, string>, nextId: nat)

  ghost predicate ServerOk(s: Server) {
    && (forall k :: k in s.records ==> s.records[k].spoolId in s.owner && s.owner[s.records[k].spoolId] == k)
    && (forall n :: n in s.owner ==> n < s.nextId)
  }

  predicate IsAt(s: Server, id: string, locationId: nat) {
    id in s.records && s.records[id].locationId == Some(locationId)
  }

  /** What becomes of one request: carried out and answered, carried out with the answer lost, not sent,
      refused by the server, or carried out with an answer that the device refuses. */
  datatype Link = Answered | AnswerLost | NotSent | Refused | Garbled

  /** Neither side refuses the other's message. */
  predicate IsUndisputed(link: Link) {
    link != Refused && link != Garbled
  }

  /** One request of `apply_storage_online`. */
  datatype Call = Find | Import | Move(spoolId: nat)

  datatype Progress = Next(call: Call) | Done(spoolId: nat) | Failed(transport: bool)

  function Relocate(s: Server, spoolId: nat, locationId: nat): Server {
    s.(records := map k | k in s.records ::
      if s.records[k].spoolId == spoolId then s.records[k].(locationId := Some(locationId)) else s.records[k])
  }

  function Create(s: Server, id: string, locationId: nat): Server {
    s.(records := s.records[id := Record(s.nextId, Some(locationId))],
       owner := s.owner[s.nextId := id],
       nextId := s.nextId + 1)
  }

  predicate HasSpool(s: Server, spoolId: nat) {
    exists k :: k in s.records && s.records[k].spoolId == spoolId
  }

  /** The effect of a request that reaches the server, and the answer it sends. */
  function Serve(s: Server, id: string, locationId: nat, call: Call): (Server, Progress) {
    match call
    case Find =>
      if id !in s.records then (s, Next(Import))
      else if s.records[id].locationId == Some(locationId) then (s, Done(s.records[id].spoolId))
      else (s, Next(Move(s.records[id].spoolId)))
    case Import =>
      if id in s.records then (s, Next(Move(s.records[id].spoolId)))
      else (Create(s, id, locationId), Done(s.nextId))
    case Move(spoolId) =>
      if HasSpool(s, spoolId) then (Relocate(s, spoolId, locationId), Done(spoolId))
      else (s, Failed(false))
  }

  /** The server afterwards, and what the device learns. */
  function Respond(s: Server, id: string, locationId: nat, call: Call, link: Link): (Server, Progress) {
    match link
    case Answered => Serve(s, id, locationId, call)
    case AnswerLost => (Serve(s, id, locationId, call).0, Failed(true))
    case NotSent => (s, Failed(true))
    case Refused => (s, Failed(false))
    case Garbled => (Serve(s, id, locationId, call).0, Failed(false))
  }

  /** A spool id the device was given for this very spool. */
  ghost predicate CallOk(s: Server, id: string, call: Call) {
    call.Move? ==> call.spoolId in s.owner && s.owner[call.spoolId] == id
  }

  ghost predicate OthersUntouched(before: Server, after: Server, ids: set<string>) {
    forall k :: k !in ids ==>
      (k in before.records <==> k in after.records) && (k in before.records ==> before.records[k] == after.records[k])
  }

  ghost predicate OwnersKept(before: Server, after: Server) {
    && before.nextId <= after.nextId
    && forall n :: n in before.owner ==> n in after.owner && after.owner[n] == before.owner[n]
  }

  /** One request touches only its own spool, and completion means the spool is where it was asked to be. */
  lemma RespondIsSafe(s: Server, id: string, locationId: nat, call: Call, link: Link)
    requires ServerOk(s) && CallOk(s, id, call)
    ensures var (after, progress) := Respond(s, id, locationId, call, link);
      && ServerOk(after) && OwnersKept(s, after) && OthersUntouched(s, after, {id})
      && (progress.Done? ==> IsAt(after, id, locationId))
      && (progress.Next? ==> CallOk(after, id, progress.call))
  {
  }

  /** The up to three answers one operation can meet. */
  datatype Links = Links(first: Link, second: Link, third: Link)

  const ANSWERED := Links(Answered, Answered, Answered)

  function Continue(step: (Server, Progress), id: string, locationId: nat, link: Link): (Server, Progress) {
    if step.1.Next? then Respond(step.0, id, locationId, step.1.call, link) else step
  }

  /** `apply_storage_online`: find, then move or import, then move what turned out to exist. */
  function ApplyOnline(s: Server, id: string, locationId: nat, links: Links): (r: (Server, Progress))
    ensures !r.1.Next?
  {
    var one := Respond(s, id, locationId, Find, links.first);
    Continue(Continue(one, id, locationId, links.second), id, locationId, links.third)
  }

  lemma ApplyOnlineIsSafe(s: Server, id: string, locationId: nat, links: Links)
    requires ServerOk(s)
    ensures var (after, progress) := ApplyOnline(s, id, locationId, links);
      && ServerOk(after) && OwnersKept(s, after) && OthersUntouched(s, after, {id})
      && (progress.Done? ==> IsAt(after, id, locationId))
  {
    var one := Respond(s, id, locationId, Find, links.first);
    RespondIsSafe(s, id, locationId, Find, links.first);
    if one.1.Next? {
      var two := Respond(one.0, id, locationId, one.1.call, links.second);
      RespondIsSafe(one.0, id, locationId, one.1.call, links.second);
      if two.1.Next? {
        RespondIsSafe(two.0, id, locationId, two.1.call, links.third);
      }
    }
  }

  /** What a synchronisation pass leaves behind. */
  datatype Pass = Pass(server: Server, completed: seq<PendingStorage>, remaining: seq<PendingStorage>)

  function Outcome(s: Server, op: PendingStorage, links: Links): (Server, Progress) {
    ApplyOnline(s, IdOfOperation(op), op.locationId, links)
  }

  /** The loop of `synchronize_offline_queue`, one operation after another. */
  function SyncPass(s: Server, operations: seq<PendingStorage>, links: seq<Links>): Pass
    requires |links| == |operations|
    decreases |operations|
  {
    if operations == [] then Pass(s, [], [])
    else
      var (after, progress) := Outcome(s, operations[0], links[0]);
      if progress == Failed(true) then Pass(after, [], operations)
      else
        var rest := SyncPass(after, operations[1..], links[1..]);
        if progress.Done? then rest.(completed := [operations[0]] + rest.completed)
        else rest.(remaining := [operations[0]] + rest.remaining)
  }

  /** The position of the first transport failure, or the length of the list. */
  function FirstOutage(s: Server, operations: seq<PendingStorage>, links: seq<Links>): (n: nat)
    requires |links| == |operations|
    ensures n <= |operations|
    decreases |operations|
  {
    if operations == [] then 0
    else
      var (after, progress) := Outcome(s, operations[0], links[0]);
      if progress == Failed(true) then 0 else 1 + FirstOutage(after, operations[1..], links[1..])
  }

  ghost predicate IsSubsequence<T>(a: seq<T>, b: seq<T>)
    decreases |b|
  {
    if a == [] then true
    else if b == [] then false
    else (a[0] == b[0] && IsSubsequence(a[1..], b[1..])) || IsSubsequence(a, b[1..])
  }

  lemma {:induction false} SubsequenceOfSelf<T>(a: seq<T>)
    ensures IsSubsequence(a, a)
  {
    if a != [] {
      SubsequenceOfSelf(a[1..]);
    }
  }

  function IdsOf(operations: seq<PendingStorage>): set<string> {
    set i | 0 <= i < |operations| :: IdOfOperation(operations[i])
  }

  lemma IdsOfCons(operations: seq<PendingStorage>)
    requires operations != []
    ensures IdsOf(operations) == {IdOfOperation(operations[0])} + IdsOf(operations[1..])
    ensures DistinctIds(operations) ==>
              DistinctIds(operations[1..]) && IdOfOperation(operations[0]) !in IdsOf(operations[1..])
  {
    forall id | id in IdsOf(operations) ensures id in {IdOfOperation(operations[0])} + IdsOf(operations[1..]) {
      var i :| 0 <= i < |operations| && IdOfOperation(operations[i]) == id;
      if i > 0 {
        assert operations[1..][i - 1] == operations[i];
      }
    }
    forall id | id in IdsOf(operations[1..]) ensures id in IdsOf(operations) {
      var i :| 0 <= i < |operations[1..]| && IdOfOperation(operations[1..][i]) == id;
      assert operations[i + 1] == operations[1..][i];
    }
  }

  lemma {:induction false} PassPartitions(s: Server, operations: seq<PendingStorage>, links: seq<Links>)
    requires |links| == |operations|
    ensures var p := SyncPass(s, operations, links);
      multiset(p.completed) + multiset(p.remaining) == multiset(operations)
    decreases |operations|
  {
    if operations != [] {
      var (after, progress) := Outcome(s, operations[0], links[0]);
      assert operations == [operations[0]] + operations[1..];
      if progress != Failed(true) {
        PassPartitions(after, operations[1..], links[1..]);
      }
    }
  }

  lemma {:induction false} PassKeepsOrder(s: Server, operations: seq<PendingStorage>, links: seq<Links>)
    requires |links| == |operations|
    ensures var p := SyncPass(s, operations, links);
      && IsSubsequence(p.completed, operations[..FirstOutage(s, operations, links)])
      && IsSubsequence(p.remaining, operations)
    decreases |operations|
  {
    if operations != [] {
      var (after, progress) := Outcome(s, operations[0], links[0]);
      if progress == Failed(true) {
        SubsequenceOfSelf(operations);
      } else {
        PassKeepsOrder(after, operations[1..], links[1..]);
        var cut := FirstOutage(after, operations[1..], links[1..]);
        assert operations[..cut + 1][1..] == operations[1..][..cut];
        var p := SyncPass(s, operations, links);
        var rest := SyncPass(after, operations[1..], links[1..]);
        assert p.completed == if progress.Done? then [operations[0]] + rest.completed else rest.completed;
        assert p.remaining == if progress.Done? then rest.remaining else [operations[0]] + rest.remaining;
        assert ([operations[0]] + rest.completed)[1..] == rest.completed;
        assert ([operations[0]] + rest.remaining)[1..] == rest.remaining;
      }
    }
  }

  ghost predicate EndsWith(a: seq<PendingStorage>, tail: seq<PendingStorage>) {
    |tail| <= |a| && a[|a| - |tail|..] == tail
  }

  lemma {:induction false} PassKeepsTail(s: Server, operations: seq<PendingStorage>, links: seq<Links>)
    requires |links| == |operations|
    ensures EndsWith(SyncPass(s, operations, links).remaining, operations[FirstOutage(s, operations, links)..])
    decreases |operations|
  {
    if operations != [] {
      var (after, progress) := Outcome(s, operations[0], links[0]);
      if progress != Failed(true) {
        PassKeepsTail(after, operations[1..], links[1..]);
        var cut := FirstOutage(after, operations[1..], links[1..]);
        assert operations[cut + 1..] == operations[1..][cut..];
      }
    }
  }

  /** A pass never loses or invents an operation: what is completed and what remains are together the
      queue, each in queue order; everything from the first outage on remains. */
  lemma PassConserves(s: Server, operations: seq<PendingStorage>, links: seq<Links>)
    requires |links| == |operations|
    ensures var p := SyncPass(s, operations, links);
      var cut := FirstOutage(s, operations, links);
      && multiset(p.completed) + multiset(p.remaining) == multiset(operations)
      && IsSubsequence(p.completed, operations[..cut])
      && IsSubsequence(p.remaining, operations)
      && EndsWith(p.remaining, operations[cut..])
  {
    PassPartitions(s, operations, links);
    PassKeepsOrder(s, operations, links);
    PassKeepsTail(s, operations, links);
  }

  /** After a pass each completed spool is where it was asked to be, and no spool outside the queue moved. */
  lemma {:induction false} PassIsEffective(s: Server, operations: seq<PendingStorage>, links: seq<Links>)
    requires ServerOk(s) && DistinctIds(operations) && |links| == |operations|
    ensures var p := SyncPass(s, operations, links);
      && ServerOk(p.server) && OwnersKept(s, p.server)
      && OthersUntouched(s, p.server, IdsOf(operations))
      && forall op :: op in p.completed ==> op in operations && IsAt(p.server, IdOfOperation(op), op.locationId)
    decreases |operations|
  {
    if operations != [] {
      var (after, progress) := Outcome(s, operations[0], links[0]);
      ApplyOnlineIsSafe(s, IdOfOperation(operations[0]), operations[0].locationId, links[0]);
      IdsOfCons(operations);
      if progress != Failed(true) {
        PassIsEffective(after, operations[1..], links[1..]);
      }
    }
  }

  // ---- Replay after a crash ----

  /** An operation the server accepts in full. */
  function Applied(s: Server, op: PendingStorage): Server {
    Outcome(s, op, ANSWERED).0
  }

  function AppliedAll(s: Server, operations: seq<PendingStorage>): Server
    decreases |operations|
  {
    if operations == [] then s else AppliedAll(Applied(s, operations[0]), operations[1..])
  }

  lemma AppliedMeaning(s: Server, op: PendingStorage)
    requires ServerOk(s)
    ensures var after := Applied(s, op);
      && ServerOk(after) && OwnersKept(s, after) && OthersUntouched(s, after, {IdOfOperation(op)})
      && IsAt(after, IdOfOperation(op), op.locationId)
    ensures IsAt(s, IdOfOperation(op), op.locationId) ==> Applied(s, op) == s
  {
    ApplyOnlineIsSafe(s, IdOfOperation(op), op.locationId, ANSWERED);
  }

  lemma {:induction false} AppliedAllOfConcat(s: Server, a: seq<PendingStorage>, b: seq<PendingStorage>)
    ensures AppliedAll(s, a + b) == AppliedAll(AppliedAll(s, a), b)
    decreases |a|
  {
    if a == [] {
      assert a + b == b;
    } else {
      assert (a + b)[1..] == a[1..] + b;
      AppliedAllOfConcat(Applied(s, a[0]), a[1..], b);
    }
  }

  ghost predicate AllAt(s: Server, operations: seq<PendingStorage>) {
    forall i :: 0 <= i < |operations| ==> IsAt(s, IdOfOperation(operations[i]), operations[i].locationId)
  }

  lemma {:induction false} AppliedAllMeaning(s: Server, operations: seq<PendingStorage>)
    requires ServerOk(s) && DistinctIds(operations)
    ensures var after := AppliedAll(s, operations);
      ServerOk(after) && OthersUntouched(s, after, IdsOf(operations)) && AllAt(after, operations)
    decreases |operations|
  {
    if operations != [] {
      var first := Applied(s, operations[0]);
      AppliedMeaning(s, operations[0]);
      IdsOfCons(operations);
      AppliedAllMeaning(first, operations[1..]);
      var after := AppliedAll(s, operations);
      forall i | 0 <= i < |operations| ensures IsAt(after, IdOfOperation(operations[i]), operations[i].locationId) {
        if i > 0 {
          assert operations[i] == operations[1..][i - 1];
        }
      }
    }
  }

  lemma {:induction false} AppliedAllIsIdle(s: Server, operations: seq<PendingStorage>)
    requires ServerOk(s) && AllAt(s, operations)
    ensures AppliedAll(s, operations) == s
    decreases |operations|
  {
    if operations != [] {
      AppliedMeaning(s, operations[0]);
      AppliedAllIsIdle(s, operations[1..]);
    }
  }

  /** Applying a prefix first changes nothing about the end result. */
  lemma PrefixIsHarmless(s: Server, prefix: seq<PendingStorage>, suffix: seq<PendingStorage>)
    requires ServerOk(s) && DistinctIds(prefix)
    ensures AppliedAll(AppliedAll(s, prefix), prefix + suffix) == AppliedAll(s, prefix + suffix)
  {
    var partial := AppliedAll(s, prefix);
    AppliedAllMeaning(s, prefix);
    AppliedAllIsIdle(partial, prefix);
    AppliedAllOfConcat(partial, prefix, suffix);
    AppliedAllOfConcat(s, prefix, suffix);
  }

  /** Any number of interrupted passes, each cut after some prefix. */
  function Interrupted(s: Server, operations: seq<PendingStorage>, cuts: seq<nat>): Server
    requires forall i :: 0 <= i < |cuts| ==> cuts[i] <= |operations|
    decreases |cuts|
  {
    if cuts == [] then s else Interrupted(AppliedAll(s, operations[..cuts[0]]), operations, cuts[1..])
  }

  /** However often the device crashes in the middle of a pass and starts over from the same queue, the
      pass that finishes leaves the server as a single undisturbed pass would have. */
  lemma {:induction false} ReplayConverges(s: Server, operations: seq<PendingStorage>, cuts: seq<nat>)
    requires ServerOk(s) && DistinctIds(operations)
    requires forall i :: 0 <= i < |cuts| ==> cuts[i] <= |operations|
    ensures AppliedAll(Interrupted(s, operations, cuts), operations) == AppliedAll(s, operations)
    decreases |cuts|
  {
    if cuts != [] {
      var prefix := operations[..cuts[0]];
      assert DistinctIds(prefix);
      AppliedAllMeaning(s, prefix);
      ReplayConverges(AppliedAll(s, prefix), operations, cuts[1..]);
      PrefixIsHarmless(s, prefix, operations[cuts[0]..]);
      assert prefix + operations[cuts[0]..] == operations;
    }
  }
}
