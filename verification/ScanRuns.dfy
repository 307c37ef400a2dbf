/** Whole runs of the PN5180 loop: what every run with steady cards announces, and a run in which a card that
    changes its kind breaks the rules. */
module ScanRuns {
  import opened Text
  import opened ScanTrace
  import opened ScanPlacements
  import opened Pn5180Scan

  // ---- Steady cards ----

  /** The driver may show this card in the round, or at its end. */
  ghost predicate Shows(r: Round, c: Card) {
    r.activated == Ok(Some(c)) || r.refreshed == Ok(Some(c)) || Reacquired(r.recovery) == Some(c)
  }

  /** The rounds never show one identifier as two kinds of card. */
  ghost predicate ShowSteadyCards(rounds: seq<Round>) {
    forall i, j, c, d :: 0 <= i < |rounds| && 0 <= j < |rounds| && Shows(rounds[i], c) && Shows(rounds[j], d)
      && c.uid == d.uid
      ==> (IsMifareClassic1K(c) <==> IsMifareClassic1K(d))
  }

  /** The turn an entry belongs to. */
  lemma {:induction false} TurnOf(log: Log, marks: seq<nat>, aheads: seq<Option<Card>>, rounds: seq<Round>, i: nat,
                                  n: nat)
    returns (k: nat)
    requires IsLogOf(log, marks, aheads, rounds) && n <= |rounds| && i < marks[n]
    ensures k < n && marks[k] <= i < marks[k + 1]
  {
    assert IsTurn(log, marks[n - 1], marks[n], rounds[n - 1], aheads[n - 1]);
    if marks[n - 1] <= i {
      k := n - 1;
    } else {
      k := TurnOf(log, marks, aheads, rounds, i, n - 1);
    }
  }

  /** Every card in the log was shown by some round. */
  lemma SeenWasShown(log: Log, marks: seq<nat>, aheads: seq<Option<Card>>, rounds: seq<Round>, c: Card)
    requires IsLogOf(log, marks, aheads, rounds) && HasSeen(log, c)
    ensures exists k :: 0 <= k < |rounds| && Shows(rounds[k], c)
  {
    var i :| 0 <= i < |log| && log[i] == Seen(Some(c));
    var k := TurnOf(log, marks, aheads, rounds, i, |rounds|);
    assert IsTurn(log, marks[k], marks[k + 1], rounds[k], aheads[k]) && IsAhead(log, marks[k], rounds, k, aheads[k]);
    assert Truthful(log[i], rounds[k], aheads[k]);
    if aheads[k].Some? {
      assert Shows(rounds[k - 1], c);
    } else {
      assert Shows(rounds[k], c);
    }
  }

  /** Over any rounds that show steady cards, every run keeps to the rules, announces placements one after the
      other, each closed by one removal before the next, and holds at most one card. */
  lemma RunsArePlacements(rounds: seq<Round>, s: Scanner, log: Log, marks: seq<nat>, aheads: seq<Option<Card>>)
    requires IsRun(rounds, s, log, marks, aheads) && ShowSteadyCards(rounds)
    ensures Conforms(log) && Regular(log) && HoldsAtMostOne(s)
  {
    forall c, d | HasSeen(log, c) && HasSeen(log, d) && c.uid == d.uid
      ensures IsMifareClassic1K(c) <==> IsMifareClassic1K(d)
    {
      SeenWasShown(log, marks, aheads, rounds, c);
      SeenWasShown(log, marks, aheads, rounds, d);
    }
    KeptKindsDoNotShift(log);
    EventsArePlacements(log);
  }

  // ---- A card that changes ----

  /** Two rounds: a 1K card whose first block cannot be authenticated, then another kind of card with its
      identifier. */
  ghost predicate ShowChange(first: Round, second: Round, c: Card, d: Card) {
    && IsMifareClassic1K(c) && !IsMifareClassic1K(d) && c.uid == d.uid
    && first.activated == Ok(Some(c)) && first.authenticate(1).Some? && first.recovery.reacquired == Ok(None)
    && second.activated == Ok(Some(d))
  }

  function QuietRound(card: Option<Card>): Round {
    Round(Ok(None), Ok(card), Ok(None), 0, 0, 0, 0,
          Pn5180Scan.Vicinity(false, Ok(None), Err(InvalidResponse), (_, _) => Err(InvalidResponse)),
          _ => Some(Authentication(1)), _ => Err(ResponseTimeout), Recovery(Ok(None), false, Ok(None)))
  }

  lemma ChangeCanBeShown(c: Card, d: Card)
    requires IsMifareClassic1K(c) && !IsMifareClassic1K(d) && c.uid == d.uid
    ensures ShowChange(QuietRound(Some(c)), QuietRound(Some(d)), c, d)
  {
  }

  /** The automaton one entry further. */
  lemma Onward(log: Log, i: nat)
    requires Conforms(log) && i < |log|
    ensures Permitted(After(log[..i]), log[i]) && After(log[..i + 1]) == Next(After(log[..i]), log[i])
            && Conforms(log[..i])
  {
    PrefixConforms(log, i);
    assert Before(log[..i + 1]) == log[..i] && Last(log[..i + 1]) == log[i];
  }

  lemma {:induction false} ShiftStays(log: Log, i: nat)
    requires i <= |log| && EverShifts(log[..i])
    ensures EverShifts(log)
  {
    if i < |log| {
      assert Before(log)[..i] == log[..i];
      ShiftStays(Before(log), i);
    } else {
      assert log[..i] == log;
    }
  }

  /** Inside the first turn: whatever comes next is an answer of the first round. */
  lemma InFirstTurn(log: Log, marks: seq<nat>, aheads: seq<Option<Card>>, rounds: seq<Round>, i: nat)
    requires IsLogOf(log, marks, aheads, rounds) && |rounds| == 2 && Conforms(log) && 0 < i <= marks[1]
    requires !Permitted(After(log[..i]), Begin)
    ensures i < |log| && Truthful(log[i], rounds[0], None) && Permitted(After(log[..i]), log[i])
    ensures After(log[..i + 1]) == Next(After(log[..i]), log[i]) && i + 1 <= marks[1]
  {
    assert IsTurn(log, marks[0], marks[1], rounds[0], aheads[0]) && IsAhead(log, marks[0], rounds, 0, aheads[0]);
    assert IsTurn(log, marks[1], marks[2], rounds[1], aheads[1]);
    Onward(log, i);
  }

  /** The monitor while the first round is answered. */
  function ChangingAt(c: Card, n: nat): Monitor
    requires 1 <= n <= 6
  {
    if n == 1 then INITIAL.(awaiting := true)
    else if n == 2 then INITIAL.(due := Announce(c))
    else if n == 3 then INITIAL.(phase := Trying(c, 1, 0, map[], true, None, {}, false, false))
    else if n == 4 then INITIAL.(phase := Trying(c, 1, 0, map[], true, None, {0}, false, true))
    else if n == 5 then INITIAL.(phase := Trying(c, 2, 1, map[], false, None, {}, false, false), due := Reacquire)
    else INITIAL.(phase := Trying(c, 2, 1, map[], false, None, {}, false, false))
  }

  function ChangingEntry(c: Card, n: nat): Entry
    requires 1 <= n <= 5
  {
    if n == 1 then Seen(Some(c)) else if n == 2 then Event(Reading(c)) else if n == 3 then Auth(c.uid, 1, false)
    else if n == 4 then Event(Retrying(c.uid, 2)) else Regained(None)
  }

  lemma FirstBlock(block: nat)
    ensures IsNext(map[], block) <==> block == 1
    ensures !IsPayload(map[])
  {
    assert PAYLOAD_BLOCKS[0] == 1 && 1 in PAYLOAD_BLOCKS;
  }

  /** Each entry of the first turn is forced. */
  lemma Forced(r: Round, c: Card, n: nat, e: Entry)
    requires 1 <= n <= 5 && Permitted(ChangingAt(c, n), e) && Truthful(e, r, None)
    requires IsMifareClassic1K(c) && r.activated == Ok(Some(c)) && r.authenticate(1).Some?
             && r.recovery.reacquired == Ok(None)
    ensures e == ChangingEntry(c, n) && Next(ChangingAt(c, n), e) == ChangingAt(c, n + 1)
  {
    FirstBlock(if e.Auth? then e.block else 1);
    if n == 3 {
      var tried: set<nat> := {};
      assert tried + {0} == {0};
    }
  }

  lemma {:induction false} FirstTurnIsForced(log: Log, marks: seq<nat>, aheads: seq<Option<Card>>, rounds: seq<Round>,
                                             c: Card, n: nat)
    requires IsLogOf(log, marks, aheads, rounds) && |rounds| == 2 && Conforms(log) && 1 <= n <= 6
    requires IsMifareClassic1K(c) && rounds[0].activated == Ok(Some(c)) && rounds[0].authenticate(1).Some?
      && rounds[0].recovery.reacquired == Ok(None)
    ensures n <= marks[1] && After(log[..n]) == ChangingAt(c, n)
  {
    if n == 1 {
      assert IsTurn(log, marks[0], marks[1], rounds[0], aheads[0])
             && IsTurn(log, marks[1], marks[2], rounds[1], aheads[1]);
      Onward(log, 0);
      assert log[..0] == [];
    } else {
      FirstTurnIsForced(log, marks, aheads, rounds, c, n - 1);
      InFirstTurn(log, marks, aheads, rounds, n - 1);
      Forced(rounds[0], c, n - 1, log[n - 1]);
    }
  }

  /** Between the turns, the log cannot but begin the second one. */
  lemma SecondTurnBegins(log: Log, marks: seq<nat>, aheads: seq<Option<Card>>, rounds: seq<Round>, c: Card)
    requires IsLogOf(log, marks, aheads, rounds) && |rounds| == 2 && Conforms(log) && 6 <= marks[1]
    requires After(log[..6]) == ChangingAt(c, 6)
    ensures marks[1] == 6 && |log| > 6 && After(log[..7]) == ChangingAt(c, 6).(awaiting := true) && aheads[1].None?
  {
    assert IsTurn(log, marks[0], marks[1], rounds[0], aheads[0])
           && IsTurn(log, marks[1], marks[2], rounds[1], aheads[1]);
    assert IsAhead(log, marks[1], rounds, 1, aheads[1]);
    Onward(log, 6);
  }

  /** No run over such rounds keeps to the rules: the card is announced as unsupported in the middle of its own
      placement. */
  lemma TheCardShifts(first: Round, second: Round, c: Card, d: Card, s: Scanner, log: Log, marks: seq<nat>,
                      aheads: seq<Option<Card>>)
    requires ShowChange(first, second, c, d) && IsRun([first, second], s, log, marks, aheads)
    ensures EverShifts(log) && !Conforms(log)
  {
    var rounds := [first, second];
    if Conforms(log) {
      FirstTurnIsForced(log, marks, aheads, rounds, c, 6);
      SecondTurnBegins(log, marks, aheads, rounds, c);
      assert IsTurn(log, marks[1], marks[2], rounds[1], aheads[1]);
      assert log[..|log|] == log;
      Onward(log, 7);
      assert Before(log[..8]) == log[..7] && Last(log[..8]) == log[7];
      ShiftStays(log, 8);
    }
  }
}
