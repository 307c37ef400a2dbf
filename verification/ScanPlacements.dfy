/** What every log that keeps to the reader's rules looks like. */
module ScanPlacements {
  import opened Text
  import opened Bytes
  import opened ScanTrace

  lemma {:induction false} PrefixConforms(log: Log, i: nat)
    requires Conforms(log) && i <= |log|
    ensures Conforms(log[..i])
    ensures i < |log| ==> Permitted(After(log[..i]), log[i])
  {
    if i == |log| {
      assert log[..i] == log;
    } else if i + 1 == |log| {
      assert Before(log) == log[..i];
    } else {
      PrefixConforms(Before(log), i);
      assert Before(log)[..i] == log[..i];
    }
  }

  // ---- Placements ----

  datatype Ending = Open | WasRead(card: Card, blocks: map<nat, Octets>) | WasDumped(memory: Octets) | Failed

  /** What is said about something that is put on the reader, until it is taken away. */
  datatype Placement =
    | Refused(card: Card)
    | Spool(card: Card, retries: nat, ending: Ending)
    | Vicinity(uid: Octets, layout: Option<(nat, nat)>, ending: Ending)

  function Retries(uid: Octets, n: nat): seq<ReaderEvent> {
    if n == 0 then [] else Retries(uid, n - 1) + [Retrying(uid, n + 1)]
  }

  function EndingEvents(uid: Octets, e: Ending): seq<ReaderEvent> {
    match e
    case Open => []
    case WasRead(card, blocks) => [TagRead(card, blocks)]
    case WasDumped(memory) => [TagReadV(uid, memory)]
    case Failed => [ReadFailed(uid)]
  }

  function EventsOf(p: Placement): seq<ReaderEvent> {
    match p
    case Refused(card) => [UnsupportedTag(card)]
    case Spool(card, retries, ending) => [Reading(card)] + Retries(card.uid, retries) + EndingEvents(card.uid, ending)
    case Vicinity(uid, layout, ending) =>
      (if layout.Some? then [ReadingV(uid, layout.value.0, layout.value.1)] else []) + EndingEvents(uid, ending)
  }

  /** A 1K card is read in at most five attempts; any other ISO-A card is refused; an NFC-V card fails or is
      announced and dumped. */
  ghost predicate IsPlacementOf(p: Placement) {
    match p
    case Refused(card) => !IsMifareClassic1K(card)
    case Spool(card, retries, ending) =>
      && IsMifareClassic1K(card) && retries + 1 <= MAX_PAYLOAD_ATTEMPTS && !ending.WasDumped?
      && (ending.WasRead? ==> ending.card.uid == card.uid && IsPayload(ending.blocks))
    case Vicinity(_, layout, ending) =>
      && !ending.WasRead?
      && (if layout.Some? then layout.value.0 * layout.value.1 <= MAX_OPENPRINTTAG_MEMORY else ending.Failed?)
  }

  datatype History = History(past: seq<Placement>, current: Option<Placement>)

  function Ended(p: Placement, ending: Ending): Placement {
    match p
    case Refused(_) => p
    case Spool(card, retries, _) => Spool(card, retries, ending)
    case Vicinity(uid, layout, _) => Vicinity(uid, layout, ending)
  }

  function Told(h: History, e: ReaderEvent): History {
    match e
    case Reading(card) => h.(current := Some(Spool(card, 0, Open)))
    case UnsupportedTag(card) => h.(current := Some(Refused(card)))
    case ReadingV(uid, blockSize, blockCount) => h.(current := Some(Vicinity(uid, Some((blockSize, blockCount)), Open)))
    case TagRemoved => if h.current.Some? then History(h.past + [h.current.value], None) else h
    case Retrying(_, _) =>
      if h.current.Some? && h.current.value.Spool?
      then h.(current := Some(h.current.value.(retries := h.current.value.retries + 1)))
      else h
    case TagRead(card, blocks) =>
      if h.current.Some? then h.(current := Some(Ended(h.current.value, WasRead(card, blocks)))) else h
    case TagReadV(_, memory) =>
      if h.current.Some? then h.(current := Some(Ended(h.current.value, WasDumped(memory)))) else h
    case ReadFailed(uid) =>
      if h.current.Some? then h.(current := Some(Ended(h.current.value, Failed)))
      else h.(current := Some(Vicinity(uid, None, Failed)))
  }

  function Events(log: Log): seq<ReaderEvent> {
    if log == [] then [] else Events(Before(log)) + (if Last(log).Event? then [Last(log).event] else [])
  }

  function HistoryOf(log: Log): History {
    if log == [] then History([], None)
    else if Last(log).Event? then Told(HistoryOf(Before(log)), Last(log).event)
    else HistoryOf(Before(log))
  }

  function PastEvents(ps: seq<Placement>): seq<ReaderEvent> {
    if ps == [] then [] else PastEvents(ps[..|ps| - 1]) + (EventsOf(ps[|ps| - 1]) + [TagRemoved])
  }

  function AllEvents(h: History): seq<ReaderEvent> {
    PastEvents(h.past) + CurrentEvents(h)
  }

  /** How the placement under way follows from the automaton's phase. */
  ghost predicate Follows(p: Phase, current: Option<Placement>) {
    && (p.Free? || p.Found? || p.Judged? <==> current.None?)
    && (p.Trying? ==> 1 <= p.attempt && current == Some(Spool(p.card, p.attempt - 1, Open)))
    && (p.Done? ==> current.Some? && !current.value.Vicinity? && (current.value.Spool? ==> !current.value.ending.Open?))
    && (p.Dumping? ==>
          current.Some? && current.value.Vicinity? && current.value.uid == p.id && current.value.ending.Open?
            && current.value.layout.Some?)
    && (p.DoneV? ==> current.Some? && current.value.Vicinity? && !current.value.ending.Open?)
  }

  ghost predicate Regular(log: Log) {
    var h := HistoryOf(log);
    && Events(log) == AllEvents(h)
    && Follows(After(log).phase, h.current)
    && (h.current.Some? ==> IsPlacementOf(h.current.value))
    && (forall i :: 0 <= i < |h.past| ==> IsPlacementOf(h.past[i]) && (h.past[i].Vicinity? ==> !h.past[i].ending.Open?))
  }

  lemma FollowsOn(m: Monitor, current: Option<Placement>, e: Entry)
    requires Permitted(m, e) && !e.Event? && Follows(m.phase, current)
    ensures Follows(Next(m, e).phase, current)
  {
  }

  lemma ToldFollows(m: Monitor, h: History, e: ReaderEvent)
    requires Announces(m, e) && Follows(m.phase, h.current) && (h.current.Some? ==> IsPlacementOf(h.current.value))
    ensures var k := Told(h, e);
      && Follows(Announced(m, e).phase, k.current) && (k.current.Some? ==> IsPlacementOf(k.current.value))
      && (e.TagRemoved? ==> h.current.Some? && (h.current.value.Vicinity? ==> !h.current.value.ending.Open?))
      && (!e.TagRemoved? ==> k.past == h.past)
  {
  }

  lemma EndedEvents(p: Placement, ending: Ending)
    requires !p.Refused? && p.ending.Open?
    ensures EventsOf(Ended(p, ending))
         == EventsOf(p) + EndingEvents(if p.Spool? then p.card.uid else p.uid, ending)
  {
  }

  lemma RetriedEvents(card: Card, retries: nat)
    ensures EventsOf(Spool(card, retries + 1, Open))
            == EventsOf(Spool(card, retries, Open)) + [Retrying(card.uid, retries + 2)]
  {
  }

  function CurrentEvents(h: History): seq<ReaderEvent> {
    if h.current.Some? then EventsOf(h.current.value) else []
  }

  lemma ToldCurrent(m: Monitor, h: History, e: ReaderEvent)
    requires Announces(m, e) && Follows(m.phase, h.current) && !e.TagRemoved?
    ensures CurrentEvents(Told(h, e)) == CurrentEvents(h) + [e] && Told(h, e).past == h.past
  {
    match e
    case Retrying(_, _) => RetriedEvents(h.current.value.card, h.current.value.retries);
    case TagRead(card, blocks) => EndedEvents(h.current.value, WasRead(card, blocks));
    case TagReadV(_, memory) => EndedEvents(h.current.value, WasDumped(memory));
    case ReadFailed(_) =>
      if h.current.Some? {
        EndedEvents(h.current.value, Failed);
      }
    case _ =>
  }

  lemma PastGrows(ps: seq<Placement>, p: Placement)
    ensures PastEvents(ps + [p]) == PastEvents(ps) + (EventsOf(p) + [TagRemoved])
  {
    assert (ps + [p])[..|ps + [p]| - 1] == ps;
  }

  lemma RemovedEvents(h: History)
    requires h.current.Some?
    ensures AllEvents(Told(h, TagRemoved)) == AllEvents(h) + [TagRemoved]
  {
    var events := EventsOf(h.current.value);
    PastGrows(h.past, h.current.value);
    assert PastEvents(h.past) + (events + [TagRemoved]) == (PastEvents(h.past) + events) + [TagRemoved];
  }

  lemma ToldEvents(m: Monitor, h: History, e: ReaderEvent)
    requires Announces(m, e) && Follows(m.phase, h.current)
    ensures AllEvents(Told(h, e)) == AllEvents(h) + [e]
  {
    if e.TagRemoved? {
      RemovedEvents(h);
    } else {
      ToldCurrent(m, h, e);
    }
  }

  /** Every run is a sequence of placements, each closed by exactly one removal before the next may start, and
      at most one still under way. */
  lemma {:induction false} EventsArePlacements(log: Log)
    requires Conforms(log)
    ensures Regular(log)
  {
    if log != [] {
      var before, e, m := Before(log), Last(log), After(Before(log));
      EventsArePlacements(before);
      var h := HistoryOf(before);
      if e.Event? {
        ToldFollows(m, h, e.event);
        ToldEvents(m, h, e.event);
      } else {
        FollowsOn(m, h.current, e);
        assert Events(log) == Events(before);
      }
    }
  }

  // ---- Removal ----

  /** A poll that saw nothing. A presence poll of a latched NFC-V card that failed counts as one. */
  predicate SawNothing(e: Entry) {
    e == Seen(None) || (e.SeenV? && !e.presence.Present?)
  }

  /** Neither a card nor an ISO-A error nor a reset. */
  predicate IsQuiet(e: Entry) {
    (e.Seen? || e.SeenV? ==> SawNothing(e)) && !e.Noise? && !e.Refresh? && !e.Reset?
  }

  /** A poll that saw nothing at `from`, and nothing but quiet since. */
  ghost predicate QuietFrom(log: Log, from: nat) {
    from < |log| && SawNothing(log[from]) && forall k :: from <= k < |log| ==> IsQuiet(log[k])
  }

  ghost predicate QuietSince(log: Log, from: nat, clock: nat, start: nat) {
    QuietFrom(log, from) && from < clock < |log| && log[clock] == Clock(start)
  }

  /** In an ISO-A placement, the quiet was heard on ISO-A. */
  ghost predicate HeardBy(p: Phase, log: Log, from: nat) {
    p.Trying? || p.Done? ==> forall k :: from <= k < |log| ==> !log[k].SeenV?
  }

  ghost predicate SilenceIsTrue(log: Log, m: Monitor) {
    && (m.silence.Silent? ==> exists from :: QuietFrom(log, from) && HeardBy(m.phase, log, from))
    && (m.silence.Since? ==>
          exists from, clock :: QuietSince(log, from, clock, m.silence.start) && HeardBy(m.phase, log, from))
  }

  lemma {:induction false} DueBreaksSilence(log: Log)
    requires Conforms(log) && After(log).due.Announce?
    ensures After(log).phase.Free? && After(log).silence.Broken? && After(log).empties == 0
  {
    if After(Before(log)).due.Announce? {
      DueBreaksSilence(Before(log));
    }
  }

  /** A silence that goes on is heard by the same kind of placement. */
  lemma SilenceGoesOn(m: Monitor, e: Entry)
    requires Permitted(m, e) && !m.silence.Broken? && !Next(m, e).silence.Broken?
    requires m.due.Announce? ==> m.silence.Broken?
    ensures IsQuiet(e)
    ensures Next(m, e).phase.Trying? || Next(m, e).phase.Done? ==> (m.phase.Trying? || m.phase.Done?) && !e.SeenV?
    ensures m.silence.Silent? ==> Next(m, e).silence == (if e.Clock? then Since(e.t) else Silent)
    ensures m.silence.Since? ==> Next(m, e).silence == m.silence
  {
  }

  lemma SilenceBegins(m: Monitor, e: Entry)
    requires Permitted(m, e) && m.silence.Broken? && !Next(m, e).silence.Broken?
    ensures SawNothing(e) && Next(m, e).silence.Silent?
    ensures Next(m, e).phase.Trying? || Next(m, e).phase.Done? ==> !e.SeenV?
  {
  }

  lemma {:induction false} SilenceHolds(log: Log)
    requires Conforms(log)
    ensures SilenceIsTrue(log, After(log))
  {
    if log != [] && !After(log).silence.Broken? {
      var before, e := Before(log), Last(log);
      var m := After(before);
      if m.silence.Broken? {
        SilenceBegins(m, e);
        assert QuietFrom(log, |before|) && HeardBy(After(log).phase, log, |before|);
      } else {
        SilenceHolds(before);
        if m.due.Announce? {
          DueBreaksSilence(before);
        }
        SilenceGoesOn(m, e);
        QuietGoesOn(before, e, m, After(log));
        assert before + [e] == log;
      }
    }
  }

  lemma QuietGoesOn(before: Log, e: Entry, m: Monitor, n: Monitor)
    requires SilenceIsTrue(before, m) && !m.silence.Broken? && IsQuiet(e)
    requires n.phase.Trying? || n.phase.Done? ==> (m.phase.Trying? || m.phase.Done?) && !e.SeenV?
    requires m.silence.Silent? ==> n.silence == (if e.Clock? then Since(e.t) else Silent)
    requires m.silence.Since? ==> n.silence == m.silence
    ensures SilenceIsTrue(before + [e], n)
  {
    var log := before + [e];
    if m.silence.Silent? {
      var from :| QuietFrom(before, from) && HeardBy(m.phase, before, from);
      assert QuietFrom(log, from) && HeardBy(n.phase, log, from);
      if n.silence.Since? {
        assert QuietSince(log, from, |before|, n.silence.start);
      }
    } else {
      var from, clock :| QuietSince(before, from, clock, m.silence.start) && HeardBy(m.phase, before, from);
      assert QuietSince(log, from, clock, n.silence.start) && HeardBy(n.phase, log, from);
    }
  }

  function LastClock(log: Log): Option<nat> {
    if log == [] then None
    else if Last(log).Clock? then Some(Last(log).t)
    else LastClock(Before(log))
  }

  lemma {:induction false} NowHolds(log: Log)
    ensures After(log).now == if LastClock(log).Some? then LastClock(log).value else 0
  {
    if log != [] {
      NowHolds(Before(log));
    }
  }

  /** A removal is announced only when, since a poll that saw nothing and the clock reading after it, no poll
      saw a card and no ISO-A activation failed, and the last clock reading is at least 750 ms later. For an ISO-A
      placement all those polls are ISO-A activations; for a latched NFC-V card a failed presence poll counts as
      seeing nothing. */
  lemma RemovalFollowsSilence(log: Log, i: nat)
    requires Conforms(log) && i < |log| && log[i] == Event(TagRemoved)
    ensures exists from: nat, clock: nat, start: nat ::
      && QuietSince(log[..i], from, clock, start) && HeardBy(After(log[..i]).phase, log[..i], from)
      && LastClock(log[..i]).Some? && start + TAG_REMOVAL_GRACE <= LastClock(log[..i]).value
  {
    PrefixConforms(log, i);
    SilenceHolds(log[..i]);
    NowHolds(log[..i]);
  }

  // ---- Refreshing the field ----

  /** A soft error at `from`, and nothing but soft errors since. */
  ghost predicate TroubleFrom(log: Log, from: nat) {
    && from < |log| && log[from] == Noise(false)
    && forall k :: from <= k < |log| ==> !log[k].Seen? && !log[k].Refresh? && log[k] != Noise(true)
  }

  ghost predicate TroubleSince(log: Log, from: nat, clock: nat, start: nat) {
    TroubleFrom(log, from) && from < clock < |log| && log[clock] == Clock(start)
  }

  ghost predicate UnrestIsTrue(log: Log, s: Silence) {
    && (s.Silent? ==> exists from :: TroubleFrom(log, from))
    && (s.Since? ==> exists from, clock :: TroubleSince(log, from, clock, s.start))
  }

  lemma {:induction false} UnrestHolds(log: Log)
    ensures UnrestIsTrue(log, After(log).unrest)
  {
    if log != [] {
      var before, e := Before(log), Last(log);
      UnrestHolds(before);
      var old_, new_ := After(before).unrest, After(log).unrest;
      if new_.Silent? {
        if old_.Silent? {
          var from :| TroubleFrom(before, from);
          assert TroubleFrom(log, from);
        } else {
          assert TroubleFrom(log, |before|);
        }
      } else if new_.Since? {
        if old_.Since? {
          var from, clock :| TroubleSince(before, from, clock, old_.start);
          assert TroubleSince(log, from, clock, new_.start);
        } else {
          var from :| TroubleFrom(before, from);
          assert TroubleSince(log, from, |before|, new_.start);
        }
      }
    }
  }

  /** The field is refreshed only when, since a soft error and the clock reading after it, every activation
      failed softly, and the last clock reading is at least two seconds later. */
  lemma RefreshFollowsTrouble(log: Log, i: nat)
    requires Conforms(log) && i < |log| && log[i].Refresh?
    ensures exists from: nat, clock: nat, start: nat ::
      && TroubleSince(log[..i], from, clock, start)
      && LastClock(log[..i]).Some? && start + TRANSIENT_ERROR_RECOVERY_INTERVAL <= LastClock(log[..i]).value
  {
    PrefixConforms(log, i);
    UnrestHolds(log[..i]);
    NowHolds(log[..i]);
  }

  // ---- What a read spool was read from ----

  function ReadOf(e: Entry, block: nat): seq<Octets> {
    if e.Read? && e.block == block && e.data.Some? then [e.data.value] else []
  }

  predicate StartsSpool(e: Entry) {
    e.Event? && e.event.Reading?
  }

  /** What was read of a block since the spool was announced. */
  function SuccessfulReads(log: Log, block: nat): seq<Octets> {
    if log == [] || StartsSpool(Last(log)) then [] else SuccessfulReads(Before(log), block) + ReadOf(Last(log), block)
  }

  function GotOf(got: map<nat, Octets>, block: nat): seq<Octets> {
    if block in got then [got[block]] else []
  }

  lemma ReadsAreGot(m: Monitor, e: Entry, block: nat)
    requires Permitted(m, e) && Next(m, e).phase.Trying? && !StartsSpool(e)
    ensures m.phase.Trying? && GotOf(Next(m, e).phase.got, block) == GotOf(m.phase.got, block) + ReadOf(e, block)
  {
  }

  lemma {:induction false} GotIsRead(log: Log, block: nat)
    requires Conforms(log) && After(log).phase.Trying?
    ensures SuccessfulReads(log, block) == GotOf(After(log).phase.got, block)
  {
    if !StartsSpool(Last(log)) {
      ReadsAreGot(After(Before(log)), Last(log), block);
      GotIsRead(Before(log), block);
    }
  }

  /** A spool that was read carries exactly the payload blocks, each read successfully exactly once since the
      spool was announced, over all attempts. */
  lemma EveryBlockIsReadOnce(log: Log, i: nat)
    requires Conforms(log) && i < |log| && log[i].Event? && log[i].event.TagRead?
    ensures var blocks := log[i].event.blocks;
      IsPayload(blocks) && forall b :: b in PAYLOAD_BLOCKS ==> SuccessfulReads(log[..i], b) == [blocks[b]]
  {
    PrefixConforms(log, i);
    forall b | b in PAYLOAD_BLOCKS ensures SuccessfulReads(log[..i], b) == [log[i].event.blocks[b]] {
      GotIsRead(log[..i], b);
    }
  }

  // ---- Authentication ----

  /** The last authentication of an attempt. */
  function LastAuth(log: Log): Option<Entry> {
    if log == [] || Last(log).Event? then None
    else if Last(log).Auth? then Some(Last(log))
    else LastAuth(Before(log))
  }

  /** The sectors an attempt has asked for. */
  function SectorsAsked(log: Log): seq<nat> {
    if log == [] || Last(log).Event? then []
    else SectorsAsked(Before(log)) + if Last(log).Auth? then [Last(log).block / 4] else []
  }

  ghost predicate Authenticated(log: Log) {
    var p := After(log).phase;
    p.Trying? ==>
      && (p.sector.Some? ==>
            exists block: nat :: LastAuth(log) == Some(Auth(p.card.uid, block, true)) && block / 4 == p.sector.value)
      && (forall x :: x in SectorsAsked(log) ==> x in p.tried)
      && (forall j, k :: 0 <= j < k < |SectorsAsked(log)| ==> SectorsAsked(log)[j] != SectorsAsked(log)[k])
  }

  lemma {:induction false} AuthenticationHolds(log: Log)
    requires Conforms(log)
    ensures Authenticated(log)
  {
    if log != [] {
      AuthenticationHolds(Before(log));
      var e := Last(log);
      if e.Auth? && e.ok {
        assert LastAuth(log) == Some(Auth(e.uid, e.block, true));
      }
    }
  }

  /** A block is read only while the attempt's last authentication is a success, with the identifier of the
      card being read, for the block's sector. */
  lemma ReadsAreAuthenticated(log: Log, i: nat)
    requires Conforms(log) && i < |log| && log[i].Read?
    ensures After(log[..i]).phase.Trying?
    ensures exists block: nat ::
              && LastAuth(log[..i]) == Some(Auth(After(log[..i]).phase.card.uid, block, true))
              && block / 4 == log[i].block / 4
  {
    PrefixConforms(log, i);
    AuthenticationHolds(log[..i]);
  }

  /** An attempt authenticates no sector twice. */
  lemma SectorsAreAskedOnce(log: Log, i: nat)
    requires Conforms(log) && i < |log| && log[i].Auth?
    ensures log[i].block / 4 !in SectorsAsked(log[..i])
  {
    PrefixConforms(log, i);
    AuthenticationHolds(log[..i]);
  }

  // ---- Giving up ----

  predicate StartsAttempt(e: Entry) {
    e.Event? && e.event.Retrying?
  }

  function Counted(gains: seq<nat>, e: Entry): seq<nat> {
    if gains != [] && e.Read? && e.data.Some? then gains[|gains| - 1 := gains[|gains| - 1] + 1] else gains
  }

  /** How many blocks each attempt at the spool has brought so far. */
  function Gains(log: Log): seq<nat> {
    if log == [] then []
    else if StartsSpool(Last(log)) then [0]
    else if StartsAttempt(Last(log)) then Gains(Before(log)) + [0]
    else Counted(Gains(Before(log)), Last(log))
  }

  predicate NoGain(gains: seq<nat>, back: nat) {
    |gains| >= back > 0 && gains[|gains| - back] == 0
  }

  ghost predicate GainsFit(p: Phase, g: seq<nat>) {
    p.Trying? && |g| == p.attempt > 0 && (!p.gained <==> NoGain(g, 1)) && (p.stalled > 0 <==> NoGain(g, 2))
  }

  function MoreGains(g: seq<nat>, e: Entry): seq<nat> {
    if StartsAttempt(e) then g + [0] else Counted(g, e)
  }

  lemma GainsStep(m: Monitor, g: seq<nat>, e: Entry)
    requires Permitted(m, e) && !StartsSpool(e) && GainsFit(m.phase, g) && Next(m, e).phase.Trying?
    ensures GainsFit(Next(m, e).phase, MoreGains(g, e))
  {
  }

  lemma TryingContinues(m: Monitor, e: Entry)
    requires Permitted(m, e) && Next(m, e).phase.Trying? && !StartsSpool(e)
    ensures m.phase.Trying?
  {
  }

  lemma {:induction false} GainsHold(log: Log)
    requires Conforms(log) && After(log).phase.Trying?
    ensures GainsFit(After(log).phase, Gains(log))
  {
    if !StartsSpool(Last(log)) {
      TryingContinues(After(Before(log)), Last(log));
      GainsHold(Before(log));
      GainsStep(After(Before(log)), Gains(Before(log)), Last(log));
    }
  }

  /** After a failed attempt the reader gives up exactly if it was the fifth, or neither it nor the one before
      brought a block; otherwise it tries again. */
  lemma GivesUpExactly(log: Log, i: nat)
    requires Conforms(log) && i < |log| && log[i].Event? && After(log[..i]).phase.Trying?
    ensures var g := Gains(log[..i]);
      var hopeless := |g| >= MAX_PAYLOAD_ATTEMPTS || (NoGain(g, 1) && NoGain(g, 2));
      && (log[i].event.ReadFailed? ==> hopeless)
      && (log[i].event.Retrying? ==> !hopeless && log[i].event.nextAttempt == |g| + 1)
  {
    PrefixConforms(log, i);
    GainsHold(log[..i]);
  }

  // ---- Cards that keep their kind ----

  /** A card answers with the same kind whenever it is seen. */
  ghost predicate CardsKeepTheirKind(log: Log) {
    forall c, d :: HasSeen(log, c) && HasSeen(log, d) && c.uid == d.uid ==>
      (IsMifareClassic1K(c) <==> IsMifareClassic1K(d))
  }

  ghost predicate HasSeen(log: Log, c: Card) {
    exists i :: 0 <= i < |log| && log[i] == Seen(Some(c))
  }

  lemma HasStillSeen(log: Log, c: Card)
    requires log != [] && HasSeen(Before(log), c)
    ensures HasSeen(log, c)
  {
    var i :| 0 <= i < |Before(log)| && Before(log)[i] == Seen(Some(c));
    assert log[i] == Seen(Some(c));
  }

  lemma {:induction false} SpoolsWereSeen(log: Log)
    requires Conforms(log)
    ensures After(log).due.Announce? ==> HasSeen(log, After(log).due.card)
    ensures After(log).phase.Trying? ==> HasSeen(log, After(log).phase.card) && IsMifareClassic1K(After(log).phase.card)
  {
    if log != [] {
      var m := After(Before(log));
      SpoolsWereSeen(Before(log));
      if m.due.Announce? {
        HasStillSeen(log, m.due.card);
      }
      if m.phase.Trying? {
        HasStillSeen(log, m.phase.card);
      }
      assert Last(log) == log[|log| - 1];
    }
  }

  /** As long as cards keep their kind, none shifts. */
  lemma {:induction false} KeptKindsDoNotShift(log: Log)
    requires CardsKeepTheirKind(log)
    ensures !EverShifts(log)
  {
    if log != [] {
      var before, e := Before(log), Last(log);
      KeptKindsDoNotShift(before);
      assert e.Seen? && e.card.Some? ==> HasSeen(log, e.card.value) by {
        assert log[|log| - 1] == e;
      }
      if Conforms(before) && Shifts(After(before), e) {
        SpoolsWereSeen(before);
        HasStillSeen(log, After(before).phase.card);
      }
    }
  }
}
