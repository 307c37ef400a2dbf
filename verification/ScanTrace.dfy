/** What a tag reader may tell its observers and ask of its driver, as an automaton over the log of a run,
    and what every log the automaton accepts looks like. */
module ScanTrace {
  import opened Text
  import opened Bytes

  // ---- The log of a run ----

  /** An ISO-A card in the field. */
  datatype Card = Card(uid: Octets, atqa: Octets, sak: byte)

  predicate IsMifareClassic1K(c: Card) {
    c.sak == 0x08 && (c.atqa == [0x00, 0x04] || c.atqa == [0x00, 0x44])
  }

  datatype ReaderEvent =
    | Reading(card: Card)
    | ReadingV(uid: Octets, blockSize: nat, blockCount: nat)
    | Retrying(uid: Octets, nextAttempt: nat)
    | TagRead(card: Card, blocks: map<nat, Octets>)
    | TagReadV(uid: Octets, memory: Octets)
    | UnsupportedTag(card: Card)
    | ReadFailed(uid: Octets)
    | TagRemoved

  /** What a presence poll for a latched NFC-V card came to. */
  datatype Presence = Present | Absent | Unanswered

  datatype Entry =
    /** A turn of the loop begins. */
    | Begin
    /** A turn's ISO-A target, or none. */
    | Seen(card: Option<Card>)
    /** An ISO-A activation that failed, perhaps in a way that calls for a hardware reset. */
    | Noise(hard: bool)
    /** The field was switched off and on, and what the activation after that came to. */
    | Refresh(ok: bool, hard: bool)
    | Reset
    /** The card acquired again after a failed attempt. */
    | Regained(card: Option<Card>)
    | SeenV(presence: Presence)
    | Clock(t: nat)
    | Auth(uid: Octets, block: nat, ok: bool)
    | Read(block: nat, data: Option<Octets>)
    /** A scan for an NFC-V card, and the one it found. */
    | Scan(found: Option<Octets>)
    /** The block size and count an NFC-V card reports, if it does. */
    | Info(info: Option<(nat, nat)>)
    /** A try at a block of an NFC-V card, counted from 1. */
    | ReadV(block: nat, try: nat, data: Option<Octets>)
    | Event(event: ReaderEvent)

  type Log = seq<Entry>

  const TAG_REMOVAL_GRACE: nat := 750
  const TRANSIENT_ERROR_RECOVERY_INTERVAL: nat := 2000
  const MAX_PAYLOAD_ATTEMPTS: nat := 5
  const MAX_STALLED_ATTEMPTS: nat := 2
  const MAX_OPENPRINTTAG_MEMORY: nat := 2 * 1024
  const OPENPRINTTAG_BLOCK_ATTEMPTS: nat := 3
  const PAYLOAD_BLOCKS: seq<nat> := [1, 2, 4, 5, 6, 9, 10, 12, 13, 14, 16]

  ghost predicate IsPayload(blocks: map<nat, Octets>) {
    forall b :: b in blocks <==> b in PAYLOAD_BLOCKS
  }

  /** The first payload block that is not there yet. */
  ghost predicate IsNext(blocks: map<nat, Octets>, block: nat) {
    exists i :: 0 <= i < |PAYLOAD_BLOCKS| && PAYLOAD_BLOCKS[i] == block && block !in blocks
      && forall j :: 0 <= j < i ==> PAYLOAD_BLOCKS[j] in blocks
  }

  // ---- The automaton ----

  datatype Phase =
    | Free
    /** A spool is being read: its card, what earlier attempts and this one brought, whether an attempt is
        under way, and this attempt's authentications. */
    | Trying(card: Card, attempt: nat, stalled: nat, got: map<nat, Octets>, busy: bool, sector: Option<nat>,
             tried: set<nat>, gained: bool, failed: bool)
    | Done
    | Found(uid: Octets)
    | Judged(uid: Octets, info: Option<(nat, nat)>)
    | Dumping(id: Octets, blockCount: nat, memory: Octets, next: nat, misses: nat)
    | DoneV

  /** How long something has been going on: since the clock was first read after it began. */
  datatype Silence = Broken | Silent | Since(start: nat)

  /** What must happen next: announcing a card, resetting the reader, acquiring the card again, looking at the
      refreshed field, or taking the card acquired before. */
  datatype Due = Nothing | Announce(card: Card) | ResetReader | Reacquire | Look | Take(card: Card)

  /** `awaiting` is set from the beginning of a turn to its poll; `silence` times polls that see nothing, `unrest`
      activations that fail; `empties` counts idle polls towards the next NFC-V scan. */
  datatype Monitor = Monitor(phase: Phase, awaiting: bool, silence: Silence, unrest: Silence, now: nat, due: Due,
                             empties: nat)

  const INITIAL := Monitor(Free, false, Broken, Broken, 0, Nothing, 0)

  predicate Exhausted(p: Phase)
    requires p.Trying?
  {
    p.attempt >= MAX_PAYLOAD_ATTEMPTS || (!p.gained && p.stalled + 1 >= MAX_STALLED_ATTEMPTS)
  }

  predicate IsPlacement(p: Phase) {
    p.Trying? || p.Done? || p.DoneV?
  }

  predicate RemovalIsDue(m: Monitor) {
    IsPlacement(m.phase) && m.silence.Since? && m.silence.start + TAG_REMOVAL_GRACE <= m.now
  }

  predicate RefreshIsDue(m: Monitor) {
    m.unrest.Since? && m.unrest.start + TRANSIENT_ERROR_RECOVERY_INTERVAL <= m.now
  }

  /** The card reported its memory, and it is not too large. */
  predicate IsReadable(info: Option<(nat, nat)>) {
    info.Some? && info.value.0 * info.value.1 <= MAX_OPENPRINTTAG_MEMORY
  }

  ghost predicate Announces(m: Monitor, e: ReaderEvent) {
    var p := m.phase;
    match e
    case Reading(card) => p.Free? && m.due == Announce(card) && IsMifareClassic1K(card)
    case UnsupportedTag(card) => p.Free? && m.due == Announce(card) && !IsMifareClassic1K(card)
    case Retrying(uid, n) => p.Trying? && p.busy && uid == p.card.uid && p.failed && n == p.attempt + 1 && !Exhausted(p)
    case TagRead(card, blocks) =>
      p.Trying? && p.busy && card.uid == p.card.uid && !p.failed && blocks == p.got && IsPayload(blocks)
    case ReadFailed(uid) =>
      || (p.Trying? && p.busy && uid == p.card.uid && p.failed && Exhausted(p))
      || (p.Judged? && uid == p.uid && !IsReadable(p.info))
      || (p.Dumping? && uid == p.id && p.misses == OPENPRINTTAG_BLOCK_ATTEMPTS)
    case ReadingV(uid, blockSize, blockCount) =>
      p.Judged? && uid == p.uid && p.info == Some((blockSize, blockCount)) && IsReadable(p.info)
    case TagReadV(uid, memory) => p.Dumping? && uid == p.id && p.next == p.blockCount && memory == p.memory
    case TagRemoved => RemovalIsDue(m)
  }

  /** Nothing is left to announce or to finish. */
  predicate IsSettled(m: Monitor) {
    && m.empties < 2 && !RemovalIsDue(m) && !RefreshIsDue(m)
    && !m.phase.Found? && !m.phase.Judged? && !m.phase.Dumping? && (m.phase.Trying? ==> !m.phase.busy)
  }

  predicate IsIdle(m: Monitor) {
    m.due.Nothing? && IsSettled(m)
  }

  predicate MayLook(due: Due, card: Option<Card>) {
    due.Nothing? || due.Look? || (due.Take? && card == Some(due.card))
  }

  ghost predicate Permitted(m: Monitor, e: Entry) {
    var p := m.phase;
    match e
    case Begin => IsSettled(m) && !m.awaiting && (m.due.Nothing? || m.due.Take?)
    case Seen(card) => IsSettled(m) && (m.awaiting || m.due.Look?) && MayLook(m.due, card) && !p.DoneV?
    case Noise(_) => IsIdle(m) && m.awaiting && !p.DoneV?
    case Refresh(_, _) => m.due.Nothing? && RefreshIsDue(m) && !p.DoneV?
    case Reset => m.due.ResetReader?
    case Regained(_) => m.due.Reacquire?
    case SeenV(_) => IsIdle(m) && m.awaiting && p.DoneV?
    case Clock(_) => IsIdle(m) && !m.awaiting && (!m.silence.Broken? || !m.unrest.Broken?)
    case Scan(_) => p.Free? && m.empties >= 2
    case Auth(uid, block, _) =>
      p.Trying? && p.busy && !p.failed && uid == p.card.uid && IsNext(p.got, block) && block / 4 !in p.tried
    case Read(block, _) =>
      p.Trying? && p.busy && !p.failed && IsNext(p.got, block) && p.sector == Some(block / 4)
    case Info(_) => p.Found?
    case ReadV(block, try, _) =>
      p.Dumping? && block == p.next < p.blockCount && try == p.misses + 1 <= OPENPRINTTAG_BLOCK_ATTEMPTS
    case Event(event) => Announces(m, event)
  }

  function Hushed(s: Silence): Silence {
    if s.Broken? then Silent else s
  }

  function NewAttempt(p: Phase): Phase
    requires p.Trying?
  {
    p.(attempt := p.attempt + 1, stalled := if p.gained then 0 else p.stalled + 1,
       busy := false, sector := None, tried := {},
       gained := false, failed := false)
  }

  function Announced(m: Monitor, e: ReaderEvent): Monitor {
    var p := m.phase;
    match e
    case Reading(card) => m.(phase := Trying(card, 1, 0, map[], true, None, {}, false, false), due := Nothing)
    case UnsupportedTag(_) => m.(phase := Done, due := Nothing)
    case Retrying(_, _) => if p.Trying? then m.(phase := NewAttempt(p), due := Reacquire) else m
    case TagRead(_, _) => m.(phase := Done)
    case ReadFailed(_) => if p.Trying? then m.(phase := Done) else m.(phase := DoneV, silence := Broken)
    case ReadingV(uid, _, blockCount) => m.(phase := Dumping(uid, blockCount, [], 0, 0))
    case TagReadV(_, _) => m.(phase := DoneV, silence := Broken)
    case TagRemoved => m.(phase := Free)
  }

  /** A card in the field: it is due if the field was free, and an attempt starts if it is the one being read. */
  function SawCard(m: Monitor, c: Card): Monitor {
    var p := m.phase;
    m.(awaiting := false, silence := Broken, unrest := Broken, empties := 0,
       due := if p.Free? then Announce(c) else Nothing,
       phase := if p.Trying? && c.uid == p.card.uid then p.(busy := true) else p)
  }

  function SawNoCard(m: Monitor): Monitor {
    m.(awaiting := false, silence := Hushed(m.silence), unrest := Broken, due := Nothing,
       empties := if m.phase.Free? then m.empties + 1 else m.empties)
  }

  function Timed(s: Silence, t: nat): Silence {
    if s.Silent? then Since(t) else s
  }

  function Next(m: Monitor, e: Entry): Monitor {
    var p := m.phase;
    match e
    case Begin => m.(awaiting := true)
    case Seen(card) => if card.Some? then SawCard(m, card.value) else SawNoCard(m)
    case Noise(hard) =>
      if hard then m.(awaiting := false, silence := Broken, unrest := Broken, due := ResetReader)
      else m.(awaiting := false, silence := Broken, unrest := Hushed(m.unrest))
    case Refresh(ok, hard) =>
      m.(silence := Broken, unrest := Broken, due := if ok then Look else if hard then ResetReader else Nothing)
    case Reset => m.(silence := Broken, due := Nothing)
    case Regained(card) => m.(due := if card.Some? then Take(card.value) else Nothing)
    case SeenV(presence) => m.(awaiting := false, silence := if presence.Present? then Broken else Hushed(m.silence))
    case Clock(t) => m.(now := t, silence := Timed(m.silence, t), unrest := Timed(m.unrest, t))
    case Scan(found) => m.(empties := 0, phase := if found.Some? then Found(found.value) else p)
    case Auth(_, block, ok) =>
      if !p.Trying? then m
      else m.(phase := p.(sector := if ok then Some(block / 4) else None,
                          tried := p.tried + {block / 4}, failed := !ok))
    case Read(block, data) =>
      if !p.Trying? then m
      else m.(phase := if data.Some? then p.(got := p.got[block := data.value], gained := true) else p.(failed := true))
    case Info(info) => if p.Found? then m.(phase := Judged(p.uid, info)) else m
    case ReadV(_, _, data) =>
      if !p.Dumping? then m
      else m.(phase := if data.Some? then p.(memory := p.memory + data.value, next := p.next + 1, misses := 0)
                       else p.(misses := p.misses + 1))
    case Event(event) => Announced(m, event)
  }

  function Before(log: Log): Log
    requires log != []
  {
    log[..|log| - 1]
  }

  function Last(log: Log): Entry
    requires log != []
  {
    log[|log| - 1]
  }

  function After(log: Log): Monitor {
    if log == [] then INITIAL else Next(After(Before(log)), Last(log))
  }

  ghost predicate Conforms(log: Log) {
    log == [] || (Conforms(Before(log)) && Permitted(After(Before(log)), Last(log)))
  }

  /** The card being read shows up as another kind of card. */
  predicate Shifts(m: Monitor, e: Entry) {
    m.phase.Trying? && e.Seen? && e.card.Some? && e.card.value.uid == m.phase.card.uid
      && !IsMifareClassic1K(e.card.value)
  }

  /** At some point, with the rules kept until then, the card being read showed up as another kind of card. */
  ghost predicate EverShifts(log: Log) {
    log != [] && (EverShifts(Before(log)) || (Conforms(Before(log)) && Shifts(After(Before(log)), Last(log))))
  }

  lemma BeforeAppend(log: Log, e: Entry)
    ensures Before(log + [e]) == log && Last(log + [e]) == e
  {
  }

  /** Appending an entry to the log of a run. */
  method Record(log: Log, e: Entry) returns (longer: Log)
    ensures longer == log + [e]
    ensures After(longer) == Next(After(log), e)
    ensures Conforms(longer) <==> Conforms(log) && Permitted(After(log), e)
    ensures EverShifts(longer) <==> EverShifts(log) || (Conforms(log) && Shifts(After(log), e))
  {
    longer := log + [e];
    BeforeAppend(log, e);
  }
}
