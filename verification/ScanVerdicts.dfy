/** What a run announces about a card is what the driver's answers say: a card that can be read is read, and one is
    given up only if it cannot. */
module ScanVerdicts {
  import opened Text
  import opened Bytes
  import opened ScanTrace
  import opened ScanPlacements
  import opened Pn5180Scan
  import opened ScanRuns

  // ---- NFC-V cards ----

  /** The first of three tries at a block that is answered. */
  function BlockOf(v: Vicinity, block: nat): Option<Octets> {
    if v.block(block, 1).Ok? then Some(v.block(block, 1).value)
    else if v.block(block, 2).Ok? then Some(v.block(block, 2).value)
    else if v.block(block, 3).Ok? then Some(v.block(block, 3).value)
    else None
  }

  /** The first blocks of the card, one after the other. */
  function DumpOf(v: Vicinity, count: nat): Option<Octets> {
    if count == 0 then Some([])
    else if DumpOf(v, count - 1).None? || BlockOf(v, count - 1).None? then None
    else Some(DumpOf(v, count - 1).value + BlockOf(v, count - 1).value)
  }

  /** What the card holds, if it reports a memory of at most 2048 bytes and every block is answered. */
  function ContentsOf(v: Vicinity): Option<Octets> {
    if v.info.Err? || v.info.value.blockSize * v.info.value.blockCount > 2048 then None
    else DumpOf(v, v.info.value.blockCount)
  }

  lemma {:induction false} LongerDump(v: Vicinity, count: nat, n: nat)
    requires n <= count && DumpOf(v, n).None?
    ensures DumpOf(v, count).None?
  {
    if n < count {
      LongerDump(v, count - 1, n);
    }
  }

  /** The card being looked at. */
  function InHand(p: Phase): Option<Octets> {
    match p
    case Found(uid) => Some(uid)
    case Judged(uid, _) => Some(uid)
    case Dumping(uid, _, _, _, _) => Some(uid)
    case _ => None
  }

  /** What is known of the card is what the round answered. */
  ghost predicate IsToldBy(p: Phase, v: Vicinity) {
    match p
    case Judged(_, info) => info == if v.info.Ok? then Some((v.info.value.blockSize, v.info.value.blockCount)) else None
    case Dumping(_, count, memory, next, misses) =>
      && v.info.Ok? && count == v.info.value.blockCount && v.info.value.blockSize * count <= 2048
      && next <= count && DumpOf(v, next) == Some(memory) && misses <= 3
      && (misses > 0 ==> next < count)
      && forall k :: 1 <= k <= misses ==> v.block(next, k).Err?
    case _ => true
  }

  lemma StaysTold(m: Monitor, e: Entry, r: Round, prefetched: Option<Card>)
    requires Permitted(m, e) && Truthful(e, r, prefetched) && IsToldBy(m.phase, r.vicinity)
    ensures IsToldBy(Next(m, e).phase, r.vicinity)
  {
    if e.ReadV? && e.data.Some? {
      assert BlockOf(r.vicinity, e.block) == e.data;
    }
  }

  /** The steps that end with a verdict, and which one. */
  lemma Verdict(m: Monitor, e: Entry, r: Round, prefetched: Option<Card>, uid: Octets)
    requires Permitted(m, e) && Truthful(e, r, prefetched) && IsToldBy(m.phase, r.vicinity)
    requires InHand(m.phase) == Some(uid) && InHand(Next(m, e).phase) != Some(uid)
    ensures var contents := ContentsOf(r.vicinity);
      e == Event(if contents.Some? then TagReadV(uid, contents.value) else ReadFailed(uid))
  {
    var v := r.vicinity;
    if m.phase.Dumping? && e == Event(ReadFailed(uid)) {
      assert BlockOf(v, m.phase.next).None?;
      LongerDump(v, m.phase.blockCount, m.phase.next + 1);
    }
  }

  // ---- Along a turn ----

  lemma InTurn(log: Log, from: nat, to: nat, r: Round, prefetched: Option<Card>, i: nat)
    requires Conforms(log) && IsTurn(log, from, to, r, prefetched) && from < i < to
    ensures Permitted(After(log[..i]), log[i]) && After(log[..i + 1]) == Next(After(log[..i]), log[i])
    ensures Truthful(log[i], r, prefetched)
  {
    Onward(log, i);
  }

  /** Before the first entry of a turn nothing is in hand. */
  lemma TurnStarts(log: Log, from: nat, to: nat, r: Round, prefetched: Option<Card>)
    requires Conforms(log) && IsTurn(log, from, to, r, prefetched)
    ensures var m := After(log[..from + 1]); IsSettled(m) && m.awaiting && InHand(m.phase).None?
  {
    Onward(log, from);
  }

  lemma {:induction false} ToldAlong(log: Log, from: nat, to: nat, r: Round, prefetched: Option<Card>, i: nat)
    requires Conforms(log) && IsTurn(log, from, to, r, prefetched) && from < i <= to
    ensures IsToldBy(After(log[..i]).phase, r.vicinity)
  {
    if i == from + 1 {
      TurnStarts(log, from, to, r, prefetched);
    } else {
      ToldAlong(log, from, to, r, prefetched, i - 1);
      InTurn(log, from, to, r, prefetched, i - 1);
      StaysTold(After(log[..i - 1]), log[i - 1], r, prefetched);
    }
  }

  /** The entry with which a card leaves the hand. */
  lemma {:induction false} Leaves(log: Log, i: nat, end: nat, uid: Octets) returns (n: nat)
    requires i < end <= |log|
    requires InHand(After(log[..i]).phase) == Some(uid) && InHand(After(log[..end]).phase) != Some(uid)
    ensures i <= n < end && InHand(After(log[..n]).phase) == Some(uid) && InHand(After(log[..n + 1]).phase) != Some(uid)
    decreases end - i
  {
    n := i;
    if InHand(After(log[..i + 1]).phase) == Some(uid) {
      n := Leaves(log, i + 1, end, uid);
    }
  }

  lemma TurnIsSettled(rounds: seq<Round>, s: Scanner, log: Log, marks: seq<nat>, aheads: seq<Option<Card>>, j: nat)
    requires IsRun(rounds, s, log, marks, aheads) && Conforms(log) && j < |rounds|
    ensures marks[j] < marks[j + 1] <= |log|
    ensures var m := After(log[..marks[j + 1]]); IsSettled(m) && (m.due.Nothing? || m.due.Take?)
  {
    assert IsTurn(log, marks[j], marks[j + 1], rounds[j], aheads[j]);
    if j + 1 < |rounds| {
      assert IsTurn(log, marks[j + 1], marks[j + 2], rounds[j + 1], aheads[j + 1]);
      Onward(log, marks[j + 1]);
    } else {
      assert log[..|log|] == log;
    }
  }

  /** In every run: once a scan finds an NFC-V card, the same turn announces its contents, if it reports a memory of at
      most 2048 bytes and each block is answered within three tries, and its failure otherwise. */
  lemma FoundCardIsReadOrFails(rounds: seq<Round>, s: Scanner, log: Log, marks: seq<nat>, aheads: seq<Option<Card>>,
                               j: nat, i: nat, uid: Octets) returns (n: nat)
    requires IsRun(rounds, s, log, marks, aheads) && Conforms(log)
    requires j < |rounds| && marks[j] < i < marks[j + 1] <= |log| && log[i] == Scan(Some(uid))
    ensures i < n < marks[j + 1]
    ensures var contents := ContentsOf(rounds[j].vicinity);
      log[n] == Event(if contents.Some? then TagReadV(uid, contents.value) else ReadFailed(uid))
  {
    assert IsTurn(log, marks[j], marks[j + 1], rounds[j], aheads[j]);
    InTurn(log, marks[j], marks[j + 1], rounds[j], aheads[j], i);
    TurnIsSettled(rounds, s, log, marks, aheads, j);
    n := Leaves(log, i + 1, marks[j + 1], uid);
    ToldAlong(log, marks[j], marks[j + 1], rounds[j], aheads[j], n);
    InTurn(log, marks[j], marks[j + 1], rounds[j], aheads[j], n);
    Verdict(After(log[..n]), log[n], rounds[j], aheads[j], uid);
  }

  lemma ScanIsNext(m: Monitor, e: Entry)
    requires Permitted(m, Seen(None)) && m.phase.Free? && m.empties == 1
    ensures !IsSettled(Next(m, Seen(None)))
    ensures Permitted(Next(m, Seen(None)), e) ==> e.Scan?
  {
  }

  lemma IdlePollScans(log: Log, start: nat, end: nat, r: Round, prefetched: Option<Card>, i: nat)
    requires Conforms(log) && IsTurn(log, start, end, r, prefetched) && start < i < end
    requires IsSettled(After(log[..end]))
    requires log[i] == Seen(None) && After(log[..i]).phase.Free? && After(log[..i]).empties == 1
    ensures i + 1 < end && log[i + 1] == Scan(FoundBy(r.vicinity))
  {
    InTurn(log, start, end, r, prefetched, i);
    ScanIsNext(After(log[..i]), if i + 1 < end then log[i + 1] else Begin);
    InTurn(log, start, end, r, prefetched, i + 1);
  }

  /** The second idle poll in a row is followed by a scan, which finds what the driver found. */
  lemma SecondIdlePollScans(rounds: seq<Round>, s: Scanner, log: Log, marks: seq<nat>, aheads: seq<Option<Card>>,
                            j: nat, i: nat)
    requires IsRun(rounds, s, log, marks, aheads) && Conforms(log)
    requires j < |rounds| && marks[j] < i < marks[j + 1] <= |log| && log[i] == Seen(None)
    requires After(log[..i]).phase.Free? && After(log[..i]).empties == 1
    ensures i + 1 < marks[j + 1]
    ensures var v := rounds[j].vicinity;
      log[i + 1] == Scan(if v.initialized && v.inventory.Ok? then v.inventory.value else None)
  {
    TurnIsSettled(rounds, s, log, marks, aheads, j);
    IdlePollScans(log, marks[j], marks[j + 1], rounds[j], aheads[j], i);
  }

  // ---- What the driver's answers mean ----

  /** A card is acquired again directly, or, after an error that calls for it, by a reset that succeeds and an
      activation after that. */
  lemma ReacquiredExactly(v: Recovery, c: Card)
    ensures Reacquired(v) == Some(c) <==>
      || v.reacquired == Ok(Some(c))
      || (v.reacquired.Err? && (v.reacquired.error.BusyTimeout? || v.reacquired.error.Spi? || v.reacquired.error.Pin?)
          && v.reset && v.activated == Ok(Some(c)))
  {
  }

  /** A latched card is present if the poll shows any card; a failed poll is no answer. */
  lemma PresenceExactly(poll: Reply<Option<Octets>>)
    ensures PresenceOf(poll).Present? <==> poll.Ok? && poll.value.Some?
    ensures PresenceOf(poll).Unanswered? <==> poll.Err?
  {
  }

  // ---- MIFARE cards ----

  const BLOCKS: set<nat> := {1, 2, 4, 5, 6, 9, 10, 12, 13, 14, 16}

  /** Every payload block can be authenticated and read. */
  ghost predicate AnswersAll(r: Round) {
    forall b :: b in BLOCKS ==> r.authenticate(b).None? && r.read(b).Ok?
  }

  /** The payload blocks, as the round answered them. */
  ghost predicate IsAnswered(blocks: map<nat, Octets>, r: Round) {
    blocks.Keys == BLOCKS && forall b :: b in blocks ==> r.read(b) == Ok(blocks[b])
  }

  ghost predicate IsReading(m: Monitor, uid: Octets) {
    m.phase.Trying? && m.phase.busy && m.phase.card.uid == uid && m.silence.Broken?
  }

  ghost predicate IsReadBy(p: Phase, r: Round) {
    p.Trying? && p.busy ==> !p.failed && forall b :: b in p.got ==> b in BLOCKS && r.read(b) == Ok(p.got[b])
  }

  lemma BlocksAreBlocks()
    ensures forall b :: b in PAYLOAD_BLOCKS <==> b in BLOCKS
  {
  }

  lemma StaysRead(m: Monitor, e: Entry, r: Round, prefetched: Option<Card>, uid: Octets)
    requires Permitted(m, e) && Truthful(e, r, prefetched) && AnswersAll(r) && IsReadBy(m.phase, r)
    requires IsReading(m, uid)
    ensures IsReadBy(Next(m, e).phase, r)
    ensures !IsReading(Next(m, e), uid) ==>
      e.Event? && e.event.TagRead? && e.event.card.uid == uid && IsAnswered(e.event.blocks, r)
  {
    BlocksAreBlocks();
  }

  lemma {:induction false} ReadsOn(log: Log, start: nat, end: nat, r: Round, prefetched: Option<Card>, i: nat,
                                   uid: Octets)
    returns (n: nat)
    requires Conforms(log) && IsTurn(log, start, end, r, prefetched) && AnswersAll(r)
    requires start < i < end
    requires IsReading(After(log[..i]), uid) && IsReadBy(After(log[..i]).phase, r)
    requires IsSettled(After(log[..end]))
    ensures i <= n < end && log[n].Event? && log[n].event.TagRead?
    ensures log[n].event.card.uid == uid && IsAnswered(log[n].event.blocks, r)
    decreases end - i
  {
    InTurn(log, start, end, r, prefetched, i);
    StaysRead(After(log[..i]), log[i], r, prefetched, uid);
    n := i;
    if IsReading(After(log[..i + 1]), uid) {
      n := ReadsOn(log, start, end, r, prefetched, i + 1, uid);
    }
  }

  /** A card of the right kind is announced as soon as it is seen on the free reader. */
  lemma SeenIsAnnounced(m: Monitor, c: Card, e: Entry)
    requires Permitted(m, Seen(Some(c))) && m.phase.Free?
    requires c.sak == 8 && (c.atqa == [0, 4] || c.atqa == [0, 0x44])
    ensures var n := Next(m, Seen(Some(c)));
      && n.due == Announce(c)
      && (Permitted(n, e) ==> e == Event(Reading(c)))
      && IsReading(Next(n, Event(Reading(c))), c.uid) && Next(n, Event(Reading(c))).phase.got == map[]
      && !Next(n, Event(Reading(c))).phase.failed
  {
  }

  lemma SeenIsRead(log: Log, start: nat, end: nat, r: Round, prefetched: Option<Card>, i: nat, c: Card)
    requires Conforms(log) && IsTurn(log, start, end, r, prefetched) && start < i < end
    requires var m := After(log[..end]); IsSettled(m) && (m.due.Nothing? || m.due.Take?)
    requires log[i] == Seen(Some(c)) && After(log[..i]).phase.Free?
    requires c.sak == 8 && (c.atqa == [0, 4] || c.atqa == [0, 0x44])
    ensures i + 2 < end && IsReading(After(log[..i + 2]), c.uid) && IsReadBy(After(log[..i + 2]).phase, r)
  {
    InTurn(log, start, end, r, prefetched, i);
    SeenIsAnnounced(After(log[..i]), c, if i + 1 < end then log[i + 1] else Begin);
    InTurn(log, start, end, r, prefetched, i + 1);
  }

  lemma AnsweringCardIsRead(log: Log, start: nat, end: nat, r: Round, prefetched: Option<Card>, i: nat, c: Card)
    returns (n: nat)
    requires Conforms(log) && IsTurn(log, start, end, r, prefetched) && start < i < end && AnswersAll(r)
    requires var m := After(log[..end]); IsSettled(m) && (m.due.Nothing? || m.due.Take?)
    requires log[i] == Seen(Some(c)) && After(log[..i]).phase.Free?
    requires c.sak == 8 && (c.atqa == [0, 4] || c.atqa == [0, 0x44])
    ensures i < n < end && log[n].Event? && log[n].event.TagRead?
    ensures log[n].event.card.uid == c.uid && IsAnswered(log[n].event.blocks, r)
  {
    SeenIsRead(log, start, end, r, prefetched, i, c);
    n := ReadsOn(log, start, end, r, prefetched, i + 2, c.uid);
  }

  /** In every run: a MIFARE Classic 1K card on the free reader whose payload blocks can all be authenticated and read
      is read in the turn that first sees it, with exactly the answered blocks. */
  lemma AnsweringSpoolIsRead(rounds: seq<Round>, s: Scanner, log: Log, marks: seq<nat>, aheads: seq<Option<Card>>,
                             j: nat, i: nat, c: Card) returns (n: nat)
    requires IsRun(rounds, s, log, marks, aheads) && Conforms(log)
    requires j < |rounds| && marks[j] < i < marks[j + 1] <= |log| && log[i] == Seen(Some(c))
    requires After(log[..i]).phase.Free? && AnswersAll(rounds[j])
    requires c.sak == 8 && (c.atqa == [0, 4] || c.atqa == [0, 0x44])
    ensures i < n < marks[j + 1]
    ensures log[n].Event? && log[n].event.TagRead? && log[n].event.card.uid == c.uid
    ensures IsAnswered(log[n].event.blocks, rounds[j])
  {
    TurnIsSettled(rounds, s, log, marks, aheads, j);
    n := AnsweringCardIsRead(log, marks[j], marks[j + 1], rounds[j], aheads[j], i, c);
  }
}
