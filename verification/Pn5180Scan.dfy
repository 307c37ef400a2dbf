/** The PN5180 scan loop. The driver and the clock are a script of answers, one round for each turn of the
    loop; the log records what the loop asked, was told and announced. */
module Pn5180Scan {
  import opened Text
  import opened Bytes
  import opened ScanTrace

  // ---- The driver ----

  datatype DriverError =
    | Spi | Pin | BusyTimeout | ResponseTimeout | InvalidResponse
    | ReceiveStatus(status: nat) | Authentication(code: byte) | TagStatus(tag: byte)

  predicate RequiresHardwareReset(e: DriverError) {
    e.BusyTimeout? || e.Spi? || e.Pin?
  }

  type Reply<T> = Result<T, DriverError>

  /** Block size and count of an NFC-V card, as its driver reports them: 1 to 32 and 1 to 256. */
  datatype SystemInfo = SystemInfo(blockSize: nat, blockCount: nat)

  type CardInfo = i: SystemInfo | 1 <= i.blockSize <= 32 && 1 <= i.blockCount <= 256 witness SystemInfo(1, 1)

  /** Answers to an NFC-V scan. A block's answer depends on the attempt. */
  datatype Vicinity = Vicinity(initialized: bool, inventory: Reply<Option<Octets>>, info: Reply<CardInfo>,
                               block: (nat, nat) -> Reply<Octets>)

  /** Answers to `reacquire_with_recovery`. */
  datatype Recovery = Recovery(reacquired: Reply<Option<Card>>, reset: bool, activated: Reply<Option<Card>>)

  /** Everything one turn may be told. A clock reading is named after what it is compared with. */
  datatype Round = Round(presence: Reply<Option<Octets>>, activated: Reply<Option<Card>>,
                         refreshed: Reply<Option<Card>>,
                         error: nat, errorLater: nat, now: nat, later: nat, vicinity: Vicinity,
                         authenticate: nat -> Option<DriverError>, read: nat -> Reply<Octets>, recovery: Recovery)

  function SaturatingInc(n: nat): nat {
    if n < 255 then n + 1 else 255
  }

  function Elapsed(since: nat, now: nat): nat {
    if now < since then 0 else now - since
  }

  function ValueOf<T>(r: Reply<T>): Option<T> {
    if r.Ok? then Some(r.value) else None
  }

  function FoundBy(v: Vicinity): Option<Octets> {
    if v.initialized && v.inventory.Ok? then v.inventory.value else None
  }

  function MemoryOf(v: Vicinity): Option<(nat, nat)> {
    if v.info.Ok? then Some((v.info.value.blockSize, v.info.value.blockCount)) else None
  }

  /** `reacquire_with_recovery` */
  function Reacquired(v: Recovery): Option<Card> {
    match v.reacquired
    case Ok(target) => target
    case Err(e) => if RequiresHardwareReset(e) && v.reset && v.activated.Ok? then v.activated.value else None
  }

  function PresenceOf(r: Reply<Option<Octets>>): Presence {
    match r
    case Err(_) => Unanswered
    case Ok(card) => if card.Some? then Present else Absent
  }

  /** An entry of a turn that reports what the round answered; `prefetched` is a card acquired at the end of the
      turn before. */
  ghost predicate Truthful(e: Entry, r: Round, prefetched: Option<Card>) {
    match e
    case Begin => false
    case Seen(card) =>
      if prefetched.Some? then card == prefetched
      else if r.activated.Ok? then card == r.activated.value
      else r.refreshed == Ok(card)
    case Noise(hard) => prefetched.None? && r.activated.Err? && (hard <==> RequiresHardwareReset(r.activated.error))
    case Refresh(ok, hard) =>
      (ok <==> r.refreshed.Ok?) && (hard <==> r.refreshed.Err? && RequiresHardwareReset(r.refreshed.error))
    case Reset => true
    case Regained(card) => card == Reacquired(r.recovery)
    case SeenV(presence) => presence == PresenceOf(r.presence)
    case Clock(t) => t == r.error || t == r.errorLater || t == r.now || t == r.later
    case Scan(found) => found == FoundBy(r.vicinity)
    case Auth(_, block, ok) => ok <==> r.authenticate(block).None?
    case Read(block, data) => data == ValueOf(r.read(block))
    case Info(info) => info == MemoryOf(r.vicinity)
    case ReadV(block, try, data) => data == ValueOf(r.vicinity.block(block, try))
    case Event(_) => true
  }

  /** Everything logged since reports what the round answered. */
  ghost predicate Told(before: Log, log: Log, r: Round, prefetched: Option<Card>) {
    before <= log && forall i :: |before| <= i < |log| ==> Truthful(log[i], r, prefetched)
  }

  method Tell(ghost before: Log, log: Log, e: Entry, ghost r: Round, ghost prefetched: Option<Card>)
      returns (longer: Log)
    requires Told(before, log, r, prefetched) && Truthful(e, r, prefetched)
    ensures longer == log + [e] && Told(before, longer, r, prefetched)
    ensures After(longer) == Next(After(log), e)
    ensures Conforms(longer) <==> Conforms(log) && Permitted(After(log), e)
    ensures EverShifts(longer) <==> EverShifts(log) || (Conforms(log) && Shifts(After(log), e))
  {
    longer := Record(log, e);
  }

  lemma ToldTogether(a: Log, b: Log, c: Log, r: Round, prefetched: Option<Card>)
    requires Told(a, b, r, prefetched) && Told(b, c, r, prefetched)
    ensures Told(a, c, r, prefetched)
  {
    forall i | |a| <= i < |c| ensures Truthful(c[i], r, prefetched) {
      if i < |b| {
        assert c[i] == b[i];
      }
    }
  }

  // ---- Reading a spool ----

  /** An attempt at the card with this identifier that has not asked anything yet. */
  ghost predicate Attempting(p: Phase, uid: Octets, blocks: map<nat, Octets>) {
    && p.Trying? && p.busy && p.card.uid == uid && p.got == blocks
    && p.sector.None? && p.tried == {} && !p.gained && !p.failed
  }

  /** How an attempt leaves the phase: what it read is kept, and it stopped at its first failure. */
  ghost predicate Attempted(p: Phase, q: Phase, blocks: map<nat, Octets>, ok: bool) {
    && p.Trying? && q.Trying? && q.busy && q.card == p.card && q.attempt == p.attempt && q.stalled == p.stalled
    && q.got == blocks && q.failed == !ok && (q.gained <==> |blocks| > |p.got|)
  }

  /** In the middle of an attempt, with nothing failed yet. */
  ghost predicate Underway(p: Phase, q: Phase, blocks: map<nat, Octets>, authenticated: Option<nat>) {
    && Attempted(p, q, blocks, true) && |blocks| >= |p.got|
    && q.sector == authenticated
    && (forall x :: x in q.tried ==> authenticated.Some? && x <= authenticated.value)
  }

  ghost predicate OnlyPayload(blocks: map<nat, Octets>) {
    forall b :: b in blocks ==> b in PAYLOAD_BLOCKS
  }

  /** The log goes on without breaking the rules or showing a card, and only the phase moves. */
  ghost predicate Carries(before: Log, log: Log) {
    && (EverShifts(log) <==> EverShifts(before)) && (Conforms(log) <==> Conforms(before))
    && After(log) == After(before).(phase := After(log).phase)
  }

  lemma PayloadSectors(i: nat)
    requires i < |PAYLOAD_BLOCKS|
    ensures i + 1 < |PAYLOAD_BLOCKS| ==> PAYLOAD_BLOCKS[i] / 4 <= PAYLOAD_BLOCKS[i + 1] / 4
  {
  }

  lemma AuthKeeps(p: Phase, m: Monitor, block: nat, ok: bool, blocks: map<nat, Octets>, authenticated: Option<nat>)
    requires Underway(p, m.phase, blocks, authenticated) && IsNext(blocks, block)
    requires authenticated.Some? ==> authenticated.value < block / 4
    ensures Permitted(m, Auth(p.card.uid, block, ok))
    ensures var n := Next(m, Auth(p.card.uid, block, ok));
      && n == m.(phase := n.phase)
      && (if ok then Underway(p, n.phase, blocks, Some(block / 4)) else Attempted(p, n.phase, blocks, false))
  {
  }

  lemma ReadKeeps(p: Phase, m: Monitor, block: nat, data: Option<Octets>, blocks: map<nat, Octets>)
    requires Underway(p, m.phase, blocks, Some(block / 4)) && IsNext(blocks, block)
    ensures Permitted(m, Read(block, data))
    ensures var n := Next(m, Read(block, data));
      && n == m.(phase := n.phase)
      && (if data.Some? then Underway(p, n.phase, blocks[block := data.value], Some(block / 4))
          else Attempted(p, n.phase, blocks, false))
  {
    if data.Some? {
      assert |blocks[block := data.value]| == |blocks| + 1;
    }
  }

  /** Ready for a block: what `ReadBlock` needs to keep to the rules. */
  ghost predicate Ready(p: Phase, q: Phase, uid: Octets, blocks: map<nat, Octets>, authenticated: Option<nat>,
                        block: nat) {
    && Underway(p, q, blocks, authenticated) && p.card.uid == uid && IsNext(blocks, block)
    && (authenticated.Some? ==> authenticated.value <= block / 4)
  }

  /** Authenticates for a block unless its sector is already open. */
  method OpenSector(block: nat, blocks: map<nat, Octets>, authenticated0: Option<nat>, uid: Octets, r: Round,
                    ghost prefetched: Option<Card>, log0: Log, ghost p: Phase)
    returns (ok: bool, authenticated: Option<nat>, log: Log)
    ensures Told(log0, log, r, prefetched)
    ensures EverShifts(log) <==> EverShifts(log0)
    ensures !Conforms(log0) ==> !Conforms(log)
    ensures ok ==> authenticated == Some(block / 4)
    ensures Ready(p, After(log0).phase, uid, blocks, authenticated0, block) ==>
      && Carries(log0, log)
      && (if ok then Underway(p, After(log).phase, blocks, authenticated)
          else Attempted(p, After(log).phase, blocks, false))
  {
    ok, authenticated, log := true, authenticated0, log0;
    var sector := block / 4;
    if authenticated != Some(sector) {
      var answer := r.authenticate(block);
      if Ready(p, After(log0).phase, uid, blocks, authenticated0, block) {
        AuthKeeps(p, After(log), block, answer.None?, blocks, authenticated);
      }
      log := Tell(log0, log, Auth(uid, block, answer.None?), r, prefetched);
      if answer.Some? {
        return false, authenticated, log;
      }
      authenticated := Some(sector);
    }
  }

  /** One turn of the loop of `read_payload`; `p` is the phase the attempt began in. */
  method ReadBlock(block: nat, before: map<nat, Octets>, authenticated0: Option<nat>, uid: Octets, r: Round,
                   ghost prefetched: Option<Card>, log0: Log, ghost p: Phase)
    returns (ok: bool, blocks: map<nat, Octets>, authenticated: Option<nat>, log: Log)
    requires block !in before
    ensures Told(log0, log, r, prefetched)
    ensures EverShifts(log) <==> EverShifts(log0)
    ensures !Conforms(log0) ==> !Conforms(log)
    ensures ok ==> authenticated == Some(block / 4) && block in blocks && blocks == before[block := blocks[block]]
    ensures !ok ==> blocks == before
    ensures Ready(p, After(log0).phase, uid, before, authenticated0, block) ==>
      && Carries(log0, log)
      && (if ok then Underway(p, After(log).phase, blocks, authenticated)
          else Attempted(p, After(log).phase, blocks, false))
  {
    blocks := before;
    ok, authenticated, log := OpenSector(block, before, authenticated0, uid, r, prefetched, log0, p);
    if !ok {
      return;
    }
    var data := r.read(block);
    if Ready(p, After(log0).phase, uid, before, authenticated0, block) {
      ReadKeeps(p, After(log), block, ValueOf(data), before);
    }
    log := Tell(log0, log, Read(block, ValueOf(data)), r, prefetched);
    if data.Err? {
      return false, blocks, authenticated, log;
    }
    blocks := blocks[block := data.value];
  }

  /** `read_payload` */
  method ReadPayload(uid: Octets, before: map<nat, Octets>, r: Round, ghost prefetched: Option<Card>, log0: Log)
    returns (ok: bool, blocks: map<nat, Octets>, log: Log)
    ensures Told(log0, log, r, prefetched)
    ensures EverShifts(log) <==> EverShifts(log0)
    ensures !Conforms(log0) ==> !Conforms(log)
    ensures Attempting(After(log0).phase, uid, before) && OnlyPayload(before) ==>
      && Carries(log0, log)
      && Attempted(After(log0).phase, After(log).phase, blocks, ok) && OnlyPayload(blocks)
      && (ok ==> IsPayload(blocks))
  {
    ghost var p := After(log0).phase;
    ghost var ready := Attempting(p, uid, before) && OnlyPayload(before);
    blocks, log, ok := before, log0, true;
    var authenticated: Option<nat> := None;
    for i := 0 to |PAYLOAD_BLOCKS|
      invariant Told(log0, log, r, prefetched)
      invariant EverShifts(log) <==> EverShifts(log0)
      invariant !Conforms(log0) ==> !Conforms(log)
      invariant ready ==>
                  Carries(log0, log) && Underway(p, After(log).phase, blocks, authenticated) && OnlyPayload(blocks)
      invariant authenticated.Some? && i < |PAYLOAD_BLOCKS| ==> authenticated.value <= PAYLOAD_BLOCKS[i] / 4
      invariant forall j :: 0 <= j < i ==> PAYLOAD_BLOCKS[j] in blocks
    {
      PayloadSectors(i);
      var block := PAYLOAD_BLOCKS[i];
      if block in blocks {
        continue;
      }
      assert IsNext(blocks, block);
      ghost var log1 := log;
      ok, blocks, authenticated, log := ReadBlock(block, blocks, authenticated, uid, r, prefetched, log, p);
      ToldTogether(log0, log1, log, r, prefetched);
      if !ok {
        return;
      }
    }
  }

  // ---- Reading an NFC-V card ----

  ghost predicate AtBlock(p: Phase, block: nat, misses: nat) {
    p.Dumping? && p.next == block < p.blockCount && p.misses == misses
  }

  /** Up to three tries at one block of an NFC-V card. */
  method ReadVBlock(block: nat, r: Round, ghost prefetched: Option<Card>, log0: Log)
      returns (data: Option<Octets>, log: Log)
    ensures Told(log0, log, r, prefetched)
    ensures EverShifts(log) <==> EverShifts(log0)
    ensures !Conforms(log0) ==> !Conforms(log)
    ensures AtBlock(After(log0).phase, block, 0) ==>
      && Carries(log0, log)
      && var p := After(log0).phase;
         After(log).phase == if data.Some? then p.(memory := p.memory + data.value, next := p.next + 1, misses := 0)
                             else p.(misses := OPENPRINTTAG_BLOCK_ATTEMPTS)
  {
    ghost var p := After(log0).phase;
    ghost var ready := AtBlock(p, block, 0);
    log := log0;
    for attempt := 1 to OPENPRINTTAG_BLOCK_ATTEMPTS + 1
      invariant Told(log0, log, r, prefetched)
      invariant EverShifts(log) <==> EverShifts(log0)
      invariant !Conforms(log0) ==> !Conforms(log)
      invariant ready ==> Carries(log0, log) && After(log).phase == p.(misses := attempt - 1)
    {
      var answer := r.vicinity.block(block, attempt);
      log := Tell(log0, log, ReadV(block, attempt, ValueOf(answer)), r, prefetched);
      if answer.Ok? {
        return Some(answer.value), log;
      }
    }
    return None, log;
  }

  ghost predicate ScanIsDue(m: Monitor) {
    m.phase.Free? && m.empties >= 2
  }

  /** What a scan comes to: a card that was found is latched, whether it could be read or not. */
  function Scanned(m: Monitor, found: bool): Monitor {
    if found then m.(phase := DoneV, silence := Broken, empties := 0) else m.(empties := 0)
  }

  lemma DumpEnds(m: Monitor, uid: Octets, blockCount: nat, memory: Octets, next: nat, misses: nat)
    requires m.phase == Dumping(uid, blockCount, memory, next, misses)
    ensures misses == OPENPRINTTAG_BLOCK_ATTEMPTS ==> Permitted(m, Event(ReadFailed(uid)))
    ensures next == blockCount ==> Permitted(m, Event(TagReadV(uid, memory)))
    ensures Next(m, Event(ReadFailed(uid))) == Next(m, Event(TagReadV(uid, memory)))
                                            == m.(phase := DoneV, silence := Broken)
  {
  }

  /** From an announced NFC-V card to the end of its dump. */
  method DumpCard(uid: Octets, blockCount: nat, r: Round, ghost prefetched: Option<Card>, log0: Log) returns (log: Log)
    ensures Told(log0, log, r, prefetched)
    ensures EverShifts(log) <==> EverShifts(log0)
    ensures !Conforms(log0) ==> !Conforms(log)
    ensures After(log0).phase == Dumping(uid, blockCount, [], 0, 0) ==>
      (Conforms(log) <==> Conforms(log0)) && After(log) == After(log0).(phase := DoneV, silence := Broken)
  {
    ghost var ready := After(log0).phase == Dumping(uid, blockCount, [], 0, 0);
    var memory: Octets := [];
    log := log0;
    for block := 0 to blockCount
      invariant Told(log0, log, r, prefetched)
      invariant EverShifts(log) <==> EverShifts(log0)
      invariant !Conforms(log0) ==> !Conforms(log)
      invariant ready ==> Carries(log0, log) && After(log).phase == Dumping(uid, blockCount, memory, block, 0)
    {
      ghost var log1 := log;
      var data;
      data, log := ReadVBlock(block, r, prefetched, log);
      ToldTogether(log0, log1, log, r, prefetched);
      if data.None? {
        if ready {
          DumpEnds(After(log), uid, blockCount, memory, block, OPENPRINTTAG_BLOCK_ATTEMPTS);
        }
        log := Tell(log0, log, Event(ReadFailed(uid)), r, prefetched);
        return;
      }
      memory := memory + data.value;
    }
    if ready {
      DumpEnds(After(log), uid, blockCount, memory, blockCount, 0);
    }
    log := Tell(log0, log, Event(TagReadV(uid, memory)), r, prefetched);
  }

  /** A card that was found is announced, or has failed. */
  lemma CardFound(m: Monitor, uid: Octets, info: Option<(nat, nat)>)
    requires ScanIsDue(m)
    ensures Permitted(m, Scan(Some(uid))) && Permitted(m, Scan(None)) && Next(m, Scan(None)) == Scanned(m, false)
    ensures Permitted(Next(m, Scan(Some(uid))), Info(info))
    ensures var n := Next(Next(m, Scan(Some(uid))), Info(info));
      if !IsReadable(info) then
        Permitted(n, Event(ReadFailed(uid))) && Next(n, Event(ReadFailed(uid))) == Scanned(m, true)
      else
        var (size, count) := info.value;
        var o := Next(n, Event(ReadingV(uid, size, count)));
        && Permitted(n, Event(ReadingV(uid, size, count))) && o.phase == Dumping(uid, count, [], 0, 0)
        && o.(phase := DoneV, silence := Broken) == Scanned(m, true)
  {
  }

  /** `try_read_openprinttag` */
  method TryReadOpenPrintTag(r: Round, ghost prefetched: Option<Card>, log0: Log)
      returns (found: Reply<Option<Octets>>, log: Log)
    ensures Told(log0, log, r, prefetched)
    ensures EverShifts(log) <==> EverShifts(log0)
    ensures !Conforms(log0) ==> !Conforms(log)
    ensures ScanIsDue(After(log0)) ==>
      && (Conforms(log) <==> Conforms(log0))
      && After(log) == Scanned(After(log0), ValueOf(found).Some? && found.value.Some?)
  {
    var v := r.vicinity;
    if ScanIsDue(After(log0)) {
      CardFound(After(log0), if FoundBy(v).Some? then FoundBy(v).value else [], MemoryOf(v));
    }
    log := Tell(log0, log0, Scan(FoundBy(v)), r, prefetched);
    if !v.initialized {
      return Err(InvalidResponse), log;
    }
    if v.inventory.Err? {
      return Err(v.inventory.error), log;
    }
    if v.inventory.value.None? {
      return Ok(None), log;
    }
    var uid := v.inventory.value.value;
    log := Tell(log0, log, Info(MemoryOf(v)), r, prefetched);
    if v.info.Err? {
      log := Tell(log0, log, Event(ReadFailed(uid)), r, prefetched);
      return Ok(Some(uid)), log;
    }
    var info := v.info.value;
    if info.blockSize * info.blockCount > MAX_OPENPRINTTAG_MEMORY {
      log := Tell(log0, log, Event(ReadFailed(uid)), r, prefetched);
      return Ok(Some(uid)), log;
    }
    log := Tell(log0, log, Event(ReadingV(uid, info.blockSize, info.blockCount)), r, prefetched);
    ghost var log1 := log;
    log := DumpCard(uid, info.blockCount, r, prefetched, log);
    ToldTogether(log0, log1, log, r, prefetched);
    return Ok(Some(uid)), log;
  }

  // ---- The loop ----

  /** The variables of the loop. */
  datatype Scanner = Scanner(completed: Option<Octets>, pending: Option<Octets>, blocks: map<nat, Octets>, attempt: nat,
                             stalled: nat, prefetched: Option<Card>, missing: Option<nat>, errorSince: Option<nat>,
                             completedV: Option<Octets>, emptyPolls: nat)

  const INITIAL_SCANNER := Scanner(None, None, map[], 0, 0, None, None, None, None, 0)

  function SilenceSince(missing: Option<nat>): Silence {
    if missing.Some? then Since(missing.value) else Broken
  }

  /** The three ways to hold a card. */
  predicate HoldsAtMostOne(s: Scanner) {
    && !(s.completed.Some? && s.pending.Some?)
    && !(s.completed.Some? && s.completedV.Some?)
    && !(s.pending.Some? && s.completedV.Some?)
  }

  ghost predicate IsPending(p: Phase, s: Scanner) {
    && p.Trying? && s.pending == Some(p.card.uid) && !p.busy && p.got == s.blocks && OnlyPayload(s.blocks)
    && p.attempt == s.attempt + 1 <= MAX_PAYLOAD_ATTEMPTS && p.stalled == s.stalled < MAX_STALLED_ATTEMPTS
    && p.sector.None? && p.tried == {} && !p.gained && !p.failed
  }

  /** The variables say what is on the reader, and how long nothing was seen. */
  ghost predicate Fits(m: Monitor, s: Scanner) {
    && IsSettled(m) && HoldsAtMostOne(s) && m.empties == s.emptyPolls
    && (s.completedV.Some? <==> m.phase.DoneV?)
    && (s.completed.Some? <==> m.phase.Done?)
    && (s.pending.Some? <==> m.phase.Trying?)
    && (s.pending.Some? ==> IsPending(m.phase, s))
    && (IsPlacement(m.phase) ==> m.silence == SilenceSince(s.missing))
  }

  /** And which card comes next, and how long activations have been failing. */
  ghost predicate Agrees(m: Monitor, s: Scanner) {
    && Fits(m, s) && m.unrest == SilenceSince(s.errorSince) && (s.completedV.Some? ==> s.errorSince.None?)
    && m.due == (if s.prefetched.Some? then Take(s.prefetched.value) else Nothing)
  }

  /** The log keeps to the rules unless a card changed its kind. */
  ghost predicate KeepsRules(log: Log) {
    Conforms(log) <==> !EverShifts(log)
  }

  /** Between two turns. */
  ghost predicate Sound(s: Scanner, log: Log) {
    KeepsRules(log) && (Conforms(log) ==> Agrees(After(log), s) && !After(log).awaiting)
  }

  /** At the top of the loop. */
  ghost predicate Begun(s: Scanner, log: Log) {
    KeepsRules(log) && (Conforms(log) ==> Agrees(After(log), s) && After(log).awaiting)
  }

  predicate IsReadyFor(m: Monitor, card: Option<Card>) {
    (m.awaiting || m.due.Look?) && MayLook(m.due, card)
  }

  /** Just before a target is looked at. */
  ghost predicate Facing(s: Scanner, card: Option<Card>, log: Log) {
    && KeepsRules(log) && (Conforms(log) ==> Fits(After(log), s) && IsReadyFor(After(log), card))
    && s.completedV.None? && s.prefetched.None? && s.errorSince.None?
  }

  /** The silence after another poll that saw nothing. */
  function SilenceSoFar(missing: Option<nat>): Silence {
    if missing.Some? then Since(missing.value) else Silent
  }

  /** Notes since when nothing was seen, and whether that is long enough. */
  method Missed(missing0: Option<nat>, r: Round, ghost prefetched: Option<Card>, log0: Log)
    returns (missing: Option<nat>, gone: bool, log: Log)
    ensures Told(log0, log, r, prefetched) && missing.Some? && |log| > |log0|
    ensures EverShifts(log) <==> EverShifts(log0)
    ensures !Conforms(log0) ==> !Conforms(log)
    ensures var m := After(log0);
      IsIdle(m) && !m.awaiting && m.unrest.Broken? && !m.silence.Broken?
        && (IsPlacement(m.phase) ==> m.silence == SilenceSoFar(missing0)) ==>
        && (Conforms(log) <==> Conforms(log0))
        && After(log) == m.(silence := After(log).silence, now := r.later)
        && (IsPlacement(m.phase) ==> After(log).silence == Since(missing.value) && (gone <==> RemovalIsDue(After(log))))
  {
    missing, log := missing0, log0;
    if missing.None? {
      missing := Some(r.now);
      log := Tell(log0, log, Clock(r.now), r, prefetched);
    }
    log := Tell(log0, log, Clock(r.later), r, prefetched);
    gone := Elapsed(missing.value, r.later) >= TAG_REMOVAL_GRACE;
  }

  lemma LatchedPoll(m: Monitor, s: Scanner, presence: Presence)
    requires Agrees(m, s) && m.awaiting && s.completedV.Some? && s.prefetched.None?
    ensures Permitted(m, SeenV(presence)) && !Shifts(m, SeenV(presence))
    ensures var n := Next(m, SeenV(presence));
      if presence.Present? then Agrees(n, s.(missing := None)) && !n.awaiting
      else
        && n == m.(awaiting := false, silence := n.silence) && IsIdle(n)
        && n.unrest.Broken? && n.silence == SilenceSoFar(s.missing)
  {
  }

  lemma StillLatched(m: Monitor, n: Monitor, s: Scanner, missing: nat, gone: bool)
    requires Agrees(m, s) && s.completedV.Some? && s.prefetched.None?
    requires n == m.(awaiting := false, silence := Since(missing), now := n.now) && (gone <==> RemovalIsDue(n))
    ensures !gone ==> Agrees(n, s.(missing := Some(missing)))
    ensures gone ==> Permitted(n, Event(TagRemoved))
                     && Agrees(Next(n, Event(TagRemoved)), s.(completedV := None, missing := None))
  {
  }

  /** A turn while an NFC-V card is latched. */
  method Latched(s0: Scanner, r: Round, log0: Log) returns (s: Scanner, log: Log)
    requires Begun(s0, log0) && s0.completedV.Some? && s0.prefetched.None?
    ensures Sound(s, log) && Told(log0, log, r, s0.prefetched) && |log| > |log0| && s.prefetched == s0.prefetched
  {
    s := s0;
    ghost var m := After(log0);
    var presence := PresenceOf(r.presence);
    if Conforms(log0) {
      LatchedPoll(m, s, presence);
    }
    log := Tell(log0, log0, SeenV(presence), r, s0.prefetched);
    if presence.Present? {
      s := s.(missing := None);
      return;
    }
    ghost var log1 := log;
    var missing, gone;
    missing, gone, log := Missed(s.missing, r, s0.prefetched, log);
    ToldTogether(log0, log1, log, r, s0.prefetched);
    if Conforms(log0) {
      StillLatched(m, After(log), s, missing.value, gone);
    }
    s := s.(missing := missing);
    if gone {
      log := Tell(log0, log, Event(TagRemoved), r, s0.prefetched);
      s := s.(completedV := None, missing := None);
    }
  }

  datatype Activation = Again | Target(card: Option<Card>)

  /** From the top of the loop to a target, or to the next turn after an error. */
  method Activate(s0: Scanner, r: Round, log0: Log) returns (a: Activation, s: Scanner, log: Log)
    requires Begun(s0, log0) && s0.completedV.None?
    ensures Told(log0, log, r, s0.prefetched) && s.prefetched.None? && s.completedV.None?
    ensures a.Again? ==> Sound(s, log) && |log| > |log0|
    ensures a.Target? ==> Facing(s, a.card, log) && Truthful(Seen(a.card), r, s0.prefetched)
  {
    s, log := s0, log0;
    if s.prefetched.Some? {
      a := Target(s.prefetched);
      s := s.(prefetched := None, errorSince := None);
      return;
    }
    if r.activated.Ok? {
      s := s.(errorSince := None);
      return Target(r.activated.value), s, log;
    }
    var hard := RequiresHardwareReset(r.activated.error);
    log := Tell(log0, log, Noise(hard), r, s0.prefetched);
    s := s.(missing := None);
    if hard {
      log := Tell(log0, log, Reset, r, s0.prefetched);
      s := s.(errorSince := None);
      return Again, s, log;
    }
    ghost var log1 := log;
    a, s, log := Recover(s, r, s0.prefetched, log);
    ToldTogether(log0, log1, log, r, s0.prefetched);
  }

  /** Right after a soft error. */
  ghost predicate Troubled(s: Scanner, m: Monitor) {
    Fits(m, s) && !m.awaiting && m.due.Nothing? && m.unrest == SilenceSoFar(s.errorSince) && m.silence.Broken?
  }

  /** Notes since when activations have been failing, and whether that is long enough. */
  method Failing(errorSince0: Option<nat>, r: Round, ghost prefetched: Option<Card>, log0: Log)
    returns (errorSince: Option<nat>, long: bool, log: Log)
    ensures Told(log0, log, r, prefetched) && errorSince.Some? && |log| > |log0|
    ensures EverShifts(log) <==> EverShifts(log0)
    ensures !Conforms(log0) ==> !Conforms(log)
    ensures var m := After(log0);
      IsIdle(m) && !m.awaiting && m.silence.Broken? && m.unrest == SilenceSoFar(errorSince0) ==>
        && (Conforms(log) <==> Conforms(log0))
        && After(log) == m.(unrest := Since(errorSince.value), now := r.errorLater)
        && (long <==> RefreshIsDue(After(log)))
  {
    errorSince, log := errorSince0, log0;
    if errorSince.None? {
      errorSince := Some(r.error);
      log := Tell(log0, log, Clock(r.error), r, prefetched);
    }
    log := Tell(log0, log, Clock(r.errorLater), r, prefetched);
    long := Elapsed(errorSince.value, r.errorLater) >= TRANSIENT_ERROR_RECOVERY_INTERVAL;
  }

  lemma StillTroubled(m: Monitor, n: Monitor, s: Scanner, errorSince: nat, long: bool)
    requires Troubled(s, m) && s.missing.None? && s.prefetched.None? && s.completedV.None?
    requires n == m.(unrest := Since(errorSince), now := n.now) && (long <==> RefreshIsDue(n))
    ensures !long ==> Agrees(n, s.(errorSince := Some(errorSince)))
    ensures long ==>
      forall ok, hard :: Permitted(n, Refresh(ok, hard)) && Refreshed(Next(n, Refresh(ok, hard)), s, ok, hard)
  {
  }

  ghost predicate Refreshed(m: Monitor, s: Scanner, ok: bool, hard: bool) {
    && Fits(m, s) && !m.awaiting && m.silence.Broken? && m.unrest.Broken?
    && m.due == (if ok then Look else if hard then ResetReader else Nothing)
  }

  /** After a soft error: wait, or refresh the field once errors have lasted for two seconds. */
  method Recover(s0: Scanner, r: Round, ghost prefetched: Option<Card>, log0: Log)
      returns (a: Activation, s: Scanner, log: Log)
    requires KeepsRules(log0) && s0.missing.None? && s0.prefetched.None? && s0.completedV.None?
    requires Conforms(log0) ==> Troubled(s0, After(log0))
    ensures Told(log0, log, r, prefetched) && s.prefetched.None? && s.completedV.None? && |log| > |log0|
    ensures a.Again? ==> Sound(s, log)
    ensures a.Target? ==> Facing(s, a.card, log) && r.refreshed == Ok(a.card)
  {
    s := s0;
    var errorSince, long;
    errorSince, long, log := Failing(s.errorSince, r, prefetched, log0);
    if Conforms(log0) {
      StillTroubled(After(log0), After(log), s, errorSince.value, long);
    }
    s := s.(errorSince := errorSince);
    if !long {
      return Again, s, log;
    }
    s := s.(errorSince := None);
    var hard := r.refreshed.Err? && RequiresHardwareReset(r.refreshed.error);
    log := Tell(log0, log, Refresh(r.refreshed.Ok?, hard), r, prefetched);
    if r.refreshed.Ok? {
      return Target(r.refreshed.value), s, log;
    }
    if hard {
      log := Tell(log0, log, Reset, r, prefetched);
    }
    return Again, s, log;
  }

  /** After two empty polls with no placement, a scan for NFC-V. */
  method MaybeScan(s0: Scanner, r: Round, ghost prefetched: Option<Card>, log0: Log)
      returns (found: bool, s: Scanner, log: Log)
    requires Facing(s0, None, log0) && Truthful(Seen(None), r, prefetched)
    ensures Told(log0, log, r, prefetched) && |log| > |log0|
    ensures EverShifts(log) <==> EverShifts(log0)
    ensures !Conforms(log0) ==> !Conforms(log)
    ensures found ==> Sound(s, log) && s.prefetched == s0.prefetched
    ensures !found ==> s == s0.(emptyPolls := s.emptyPolls)
    ensures !found && Conforms(log0) ==>
      && Conforms(log)
      && After(log) == SawNoCard(After(log0)).(empties := s.emptyPolls) && s.emptyPolls < 2
  {
    s, found := s0, false;
    log := Tell(log0, log0, Seen(None), r, prefetched);
    if s.completed.None? && s.pending.None? {
      s := s.(emptyPolls := SaturatingInc(s.emptyPolls));
      if s.emptyPolls >= 2 {
        s := s.(emptyPolls := 0);
        ghost var log1 := log;
        var card;
        card, log := TryReadOpenPrintTag(r, prefetched, log);
        ToldTogether(log0, log1, log, r, prefetched);
        if card.Ok? && card.value.Some? {
          s := s.(completedV := card.value, missing := None);
          found := true;
        }
      }
    }
  }

  function Cleared(s: Scanner): Scanner {
    s.(blocks := map[], attempt := 0, stalled := 0, missing := None)
  }

  /** `completed_uid.take().is_some() || pending_uid.take().is_some()`: the second is not reached after the first. */
  function Taken(s: Scanner): Scanner {
    if s.completed.Some? then s.(completed := None) else s.(pending := None)
  }

  lemma StillThere(m: Monitor, n: Monitor, s: Scanner, missing: nat, gone: bool)
    requires Fits(m.(silence := SilenceSince(s.missing)), s) && IsIdle(m) && !m.awaiting && m.unrest.Broken?
    requires s.completedV.None? && s.prefetched.None? && s.errorSince.None?
    requires n == m.(silence := n.silence, now := n.now)
    requires IsPlacement(m.phase) ==> n.silence == Since(missing) && (gone <==> RemovalIsDue(n))
    ensures !gone ==> Agrees(n, s.(missing := Some(missing)))
    ensures gone && (s.completed.Some? || s.pending.Some?) ==>
      Permitted(n, Event(TagRemoved)) && Agrees(Next(n, Event(TagRemoved)), Cleared(Taken(s)))
    ensures gone && s.completed.None? && s.pending.None? ==> Agrees(n, Cleared(s))
  {
  }

  /** No target: scan for NFC-V now and then, and end a placement after enough silence. */
  method NoTarget(s0: Scanner, r: Round, ghost prefetched: Option<Card>, log0: Log) returns (s: Scanner, log: Log)
    requires Facing(s0, None, log0) && Truthful(Seen(None), r, prefetched)
    ensures Sound(s, log) && Told(log0, log, r, prefetched) && |log| > |log0| && s.prefetched == s0.prefetched
  {
    var found;
    found, s, log := MaybeScan(s0, r, prefetched, log0);
    if found {
      return;
    }
    ghost var log1 := log;
    var missing, gone;
    missing, gone, log := Missed(s.missing, r, prefetched, log);
    ToldTogether(log0, log1, log, r, prefetched);
    if Conforms(log0) {
      StillThere(After(log1), After(log), s, missing.value, gone);
    }
    s := s.(missing := missing);
    if gone {
      if s.completed.Some? || s.pending.Some? {
        log := Tell(log0, log, Event(TagRemoved), r, prefetched);
        s := Taken(s);
      }
      s := Cleared(s);
    }
  }

  /** Just before an attempt at the pending card. */
  ghost predicate AboutToRead(s: Scanner, c: Card, m: Monitor) {
    && Attempting(m.phase, c.uid, s.blocks) && OnlyPayload(s.blocks)
    && m.phase.attempt == s.attempt + 1 <= MAX_PAYLOAD_ATTEMPTS && m.phase.stalled == s.stalled < MAX_STALLED_ATTEMPTS
    && !m.awaiting && m.silence.Broken? && m.unrest.Broken? && m.due.Nothing? && m.empties == 0
  }

  predicate HoldsOnlyPending(s: Scanner, c: Card) {
    && s.pending == Some(c.uid) && s.completed.None? && s.completedV.None?
    && s.missing.None? && s.emptyPolls == 0 && s.prefetched.None? && s.errorSince.None?
  }

  /** After an attempt: `gained` says whether it read a block. */
  ghost predicate HasTried(s: Scanner, c: Card, ok: bool, gained: bool, m: Monitor) {
    && m.phase.Trying? && m.phase.busy && m.phase.card.uid == c.uid
    && m.phase.got == s.blocks && OnlyPayload(s.blocks) && (ok ==> IsPayload(s.blocks))
    && m.phase.failed == !ok && m.phase.gained == gained
    && m.phase.attempt == s.attempt <= MAX_PAYLOAD_ATTEMPTS && m.phase.stalled == s.stalled < MAX_STALLED_ATTEMPTS
    && !m.awaiting && m.silence.Broken? && m.unrest.Broken? && m.due.Nothing? && m.empties == 0
  }

  function Completed(s: Scanner, c: Card): Scanner {
    s.(completed := Some(c.uid), pending := None, blocks := map[], attempt := 0, stalled := 0)
  }

  /** After a failed attempt the automaton allows exactly one of the two: another attempt, or giving up. */
  lemma NextAttempt(s: Scanner, c: Card, gained: bool, m: Monitor, card: Option<Card>)
    requires HoldsOnlyPending(s, c) && HasTried(s, c, false, gained, m)
    ensures var t := s.(stalled := if gained then 0 else s.stalled + 1);
      if s.attempt < MAX_PAYLOAD_ATTEMPTS && t.stalled < MAX_STALLED_ATTEMPTS
      then var n := Next(m, Event(Retrying(c.uid, s.attempt + 1)));
        Permitted(m, Event(Retrying(c.uid, s.attempt + 1))) && Permitted(n, Regained(card))
        && Agrees(Next(n, Regained(card)), t.(prefetched := card))
      else Permitted(m, Event(ReadFailed(c.uid))) && Agrees(Next(m, Event(ReadFailed(c.uid))), Completed(t, c))
  {
  }

  /** A failed attempt: try again, unless it was the last one or a second one without progress. */
  method RetryOrGiveUp(s0: Scanner, c: Card, gained: bool, r: Round, ghost prefetched: Option<Card>, log0: Log)
    returns (s: Scanner, log: Log)
    requires HoldsOnlyPending(s0, c)
    requires KeepsRules(log0)
    requires Conforms(log0) ==> HasTried(s0, c, false, gained, After(log0))
    ensures Sound(s, log) && Told(log0, log, r, prefetched)
    ensures s.prefetched == s0.prefetched || s.prefetched == Reacquired(r.recovery)
    ensures s.completedV.None?
  {
    s := s0.(stalled := if gained then 0 else SaturatingInc(s0.stalled));
    if Conforms(log0) {
      NextAttempt(s0, c, gained, After(log0), Reacquired(r.recovery));
    }
    if s.attempt < MAX_PAYLOAD_ATTEMPTS && s.stalled < MAX_STALLED_ATTEMPTS {
      log := Tell(log0, log0, Event(Retrying(c.uid, s.attempt + 1)), r, prefetched);
      s := s.(prefetched := Reacquired(r.recovery));
      log := Tell(log0, log, Regained(s.prefetched), r, prefetched);
    } else {
      log := Tell(log0, log0, Event(ReadFailed(c.uid)), r, prefetched);
      s := Completed(s, c);
    }
  }

  /** One attempt at the pending card, and what follows from it. */
  method Attempt(s0: Scanner, c: Card, r: Round, ghost prefetched: Option<Card>, log0: Log)
      returns (s: Scanner, log: Log)
    requires HoldsOnlyPending(s0, c) && IsMifareClassic1K(c)
    requires KeepsRules(log0)
    requires Conforms(log0) ==> AboutToRead(s0, c, After(log0))
    ensures Sound(s, log) && Told(log0, log, r, prefetched)
    ensures s.prefetched == s0.prefetched || s.prefetched == Reacquired(r.recovery)
    ensures s.completedV.None?
  {
    s := s0.(attempt := s0.attempt + 1);
    var before := |s.blocks|;
    var ok, blocks;
    ok, blocks, log := ReadPayload(c.uid, s.blocks, r, prefetched, log0);
    s := s.(blocks := blocks);
    assert Conforms(log) ==> HasTried(s, c, ok, |s.blocks| > before, After(log));
    if ok {
      log := Tell(log0, log, Event(TagRead(c, s.blocks)), r, prefetched);
      s := Completed(s, c);
      return;
    }
    ghost var log1 := log;
    s, log := RetryOrGiveUp(s, c, |s.blocks| > before, r, prefetched, log);
    ToldTogether(log0, log1, log, r, prefetched);
  }

  /** What a card in the field leads to. */
  lemma CardSeen(m: Monitor, s: Scanner, c: Card)
    requires Fits(m, s) && IsReadyFor(m, Some(c)) && s.completedV.None? && s.prefetched.None? && s.errorSince.None?
    ensures Permitted(m, Seen(Some(c)))
    ensures var n := Next(m, Seen(Some(c)));
      var t := s.(missing := None, emptyPolls := 0);
      if s.completed.Some? || (s.pending.Some? && s.pending != Some(c.uid)) then
        !Shifts(m, Seen(Some(c))) && Agrees(n, t) && !n.awaiting
      else if !IsMifareClassic1K(c) then
        var u := Next(n, Event(UnsupportedTag(c)));
        (Shifts(m, Seen(Some(c))) <==> s.pending.Some?)
        && (Permitted(n, Event(UnsupportedTag(c))) <==> s.pending.None?)
        && (s.pending.None? ==> Agrees(u, t.(completed := Some(c.uid))) && !u.awaiting)
      else if s.pending.None? then
        !Shifts(m, Seen(Some(c))) && Permitted(n, Event(Reading(c)))
        && AboutToRead(t.(pending := Some(c.uid), blocks := map[], attempt := 0, stalled := 0), c,
                       Next(n, Event(Reading(c))))
      else !Shifts(m, Seen(Some(c))) && AboutToRead(t, c, n)
  {
  }

  /** A target: keep a latched placement, refuse an unknown card, or go on reading a spool. */
  method WithTarget(s0: Scanner, c: Card, r: Round, ghost prefetched: Option<Card>, log0: Log)
      returns (s: Scanner, log: Log)
    requires Facing(s0, Some(c), log0) && Truthful(Seen(Some(c)), r, prefetched)
    ensures Sound(s, log) && Told(log0, log, r, prefetched) && |log| > |log0|
    ensures s.prefetched == s0.prefetched || s.prefetched == Reacquired(r.recovery)
    ensures s.completedV.None?
  {
    s := s0.(missing := None, emptyPolls := 0);
    if Conforms(log0) {
      CardSeen(After(log0), s0, c);
    }
    log := Tell(log0, log0, Seen(Some(c)), r, prefetched);
    if s.completed.Some? {
      return;
    }
    if s.pending.Some? && s.pending != Some(c.uid) {
      return;
    }
    if !IsMifareClassic1K(c) {
      log := Tell(log0, log, Event(UnsupportedTag(c)), r, prefetched);
      s := s.(completed := Some(c.uid));
      return;
    }
    if s.pending != Some(c.uid) {
      s := s.(pending := Some(c.uid), blocks := map[], attempt := 0, stalled := 0);
      log := Tell(log0, log, Event(Reading(c)), r, prefetched);
    }
    ghost var log1 := log;
    s, log := Attempt(s, c, r, prefetched, log);
    ToldTogether(log0, log1, log, r, prefetched);
  }

  /** A turn of the log: it begins once, and every other entry in it reports an answer of its round. */
  ghost predicate IsTurn(log: Log, from: nat, to: nat, r: Round, prefetched: Option<Card>) {
    && from < to <= |log| && log[from] == Begin
    && forall i :: from < i < to ==> Truthful(log[i], r, prefetched)
  }

  function AheadOf(m: Monitor): Option<Card> {
    if m.due.Take? then Some(m.due.card) else None
  }

  /** What is acquired ahead comes from the round before, and is what the automaton says is to be taken. */
  ghost predicate IsAhead(log: Log, at: nat, rounds: seq<Round>, k: nat, prefetched: Option<Card>) {
    && (prefetched.Some? ==> 0 < k <= |rounds| && prefetched == Reacquired(rounds[k - 1].recovery))
    && (at <= |log| && Conforms(log[..at]) ==> prefetched == AheadOf(After(log[..at])))
  }

  /** The log has one turn for each round. */
  ghost predicate IsLogOf(log: Log, marks: seq<nat>, aheads: seq<Option<Card>>, rounds: seq<Round>) {
    && |marks| == |rounds| + 1 && |aheads| == |rounds| && marks[0] == 0 && marks[|rounds|] == |log|
    && forall k :: 0 <= k < |rounds| ==>
         IsTurn(log, marks[k], marks[k + 1], rounds[k], aheads[k]) && IsAhead(log, marks[k], rounds, k, aheads[k])
  }

  lemma AnotherTurn(log: Log, marks: seq<nat>, aheads: seq<Option<Card>>, rounds: seq<Round>, k: nat, longer: Log,
                    prefetched: Option<Card>)
    requires k < |rounds| && IsLogOf(log, marks, aheads, rounds[..k]) && IsAhead(log, |log|, rounds, k, prefetched)
    requires log <= longer && IsTurn(longer, |log|, |longer|, rounds[k], prefetched)
    ensures IsLogOf(longer, marks + [|longer|], aheads + [prefetched], rounds[..k + 1])
  {
    var now, more, all := rounds[..k + 1], marks + [|longer|], aheads + [prefetched];
    forall j | 0 <= j < |now|
      ensures IsTurn(longer, more[j], more[j + 1], now[j], all[j]) && IsAhead(longer, more[j], now, j, all[j])
    {
      if j < k {
        var before := rounds[..k];
        assert IsTurn(log, marks[j], marks[j + 1], before[j], aheads[j])
               && IsAhead(log, marks[j], before, j, aheads[j]);
        assert forall i :: marks[j] <= i < marks[j + 1] ==> longer[i] == log[i];
        assert longer[..marks[j]] == log[..marks[j]];
      } else {
        assert longer[..|log|] == log[..|log|];
      }
    }
  }

  /** The body of the loop after its beginning. */
  method Body(s0: Scanner, r: Round, log0: Log) returns (s: Scanner, log: Log)
    requires Begun(s0, log0) && (s0.prefetched.Some? ==> s0.completedV.None?)
    ensures Sound(s, log) && Told(log0, log, r, s0.prefetched)
    ensures s.prefetched.Some? ==> s.prefetched == Reacquired(r.recovery) && s.completedV.None?
  {
    if s0.completedV.Some? {
      s, log := Latched(s0, r, log0);
      return;
    }
    var a;
    a, s, log := Activate(s0, r, log0);
    if a.Again? {
      return;
    }
    ghost var log1 := log;
    if a.card.None? {
      s, log := NoTarget(s, r, s0.prefetched, log);
    } else {
      s, log := WithTarget(s, a.card.value, r, s0.prefetched, log);
    }
    ToldTogether(log0, log1, log, r, s0.prefetched);
  }

  lemma TurnIsTold(log0: Log, log: Log, r: Round, prefetched: Option<Card>)
    requires Told(log0 + [Begin], log, r, prefetched)
    ensures log0 <= log && IsTurn(log, |log0|, |log|, r, prefetched)
  {
    assert (log0 + [Begin])[|log0|] == Begin;
  }

  /** One turn of the loop. */
  method Turn(s0: Scanner, r: Round, log0: Log) returns (s: Scanner, log: Log)
    requires Sound(s0, log0) && (s0.prefetched.Some? ==> s0.completedV.None?)
    ensures Sound(s, log) && log0 <= log && IsTurn(log, |log0|, |log|, r, s0.prefetched)
    ensures s.prefetched.Some? ==> s.prefetched == Reacquired(r.recovery) && s.completedV.None?
  {
    log := Record(log0, Begin);
    s, log := Body(s0, r, log);
    TurnIsTold(log0, log, r, s0.prefetched);
  }

  /** A run over all the rounds: a log that keeps to the rules of the automaton exactly if the card being read is
      never seen as another kind of card, and that reports the answers of the rounds turn by turn. */
  ghost predicate IsRun(rounds: seq<Round>, s: Scanner, log: Log, marks: seq<nat>, aheads: seq<Option<Card>>) {
    Sound(s, log) && IsLogOf(log, marks, aheads, rounds)
  }

  /** `run`, for as many turns as there are rounds. */
  method Run(started: bool, rounds: seq<Round>)
      returns (s: Scanner, log: Log, ghost marks: seq<nat>, ghost aheads: seq<Option<Card>>)
    ensures Conforms(log) <==> !EverShifts(log)
    ensures Conforms(log) ==> HoldsAtMostOne(s)
    ensures if started then IsRun(rounds, s, log, marks, aheads) else log == []
  {
    s, log, marks, aheads := INITIAL_SCANNER, [], [0], [];
    if !started {
      return;
    }
    for k := 0 to |rounds|
      invariant Sound(s, log) && IsLogOf(log, marks, aheads, rounds[..k])
      invariant s.prefetched.Some? ==> 0 < k && s.prefetched == Reacquired(rounds[k - 1].recovery) && s.completedV.None?
    {
      ghost var s1, log1 := s, log;
      s, log := Turn(s, rounds[k], log);
      assert log1[..|log1|] == log1;
      AnotherTurn(log1, marks, aheads, rounds, k, log, s1.prefetched);
      marks, aheads := marks + [|log|], aheads + [s1.prefetched];
    }
    assert rounds[..|rounds|] == rounds;
  }
}
