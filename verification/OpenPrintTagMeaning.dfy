/** What a tag means, independent of how its maps were written, and that decoding finds that meaning. */
module OpenPrintTagMeaning {
  import opened Text
  import opened Bytes
  import opened Cbor
  import opened Ndef
  import opened OpenPrintTag

  /** A map entry with the width its key was written in. */
  datatype Entry = Entry(key: nat, width: nat, value: Value)

  predicate IsEntry(e: Entry) {
    Fits(e.key, e.width) && IsValue(e.value)
  }

  ghost predicate AreEntries(entries: seq<Entry>) {
    forall i :: 0 <= i < |entries| ==> IsEntry(entries[i])
  }

  function PutEntries(entries: seq<Entry>): Octets
    requires AreEntries(entries)
  {
    if entries == [] then []
    else PutHead(0, entries[0].key, entries[0].width) + (Put(entries[0].value) + PutEntries(entries[1..]))
  }

  /** Definite length with a count of some width, or indefinite length. */
  datatype Form = Counted(width: nat) | Uncounted

  ghost predicate IsMap(form: Form, entries: seq<Entry>) {
    AreEntries(entries) && (form.Counted? ==> Fits(|entries|, form.width))
  }

  function PutMap(form: Form, entries: seq<Entry>): Octets
    requires IsMap(form, entries)
  {
    match form
    case Counted(width) => PutHead(5, |entries|, width) + PutEntries(entries)
    case Uncounted => [0xbf] + (PutEntries(entries) + [BREAK])
  }

  // ---- Visiting a written map is folding over its entries ----

  type Step<!S> = (S, nat, Value) -> Result<S, Error>

  function Fold<S>(step: Step<S>, s: S, entries: seq<Entry>): Result<S, Error>
    decreases |entries|
  {
    if entries == [] then Ok(s)
    else match step(s, entries[0].key, entries[0].value)
      case Err(e) => Err(e)
      case Ok(next) => Fold(step, next, entries[1..])
  }

  function Lifted<S>(r: Result<S, Error>, rest: Octets): Result<(S, Octets), Error> {
    match r
    case Err(e) => Err(e)
    case Ok(s) => Ok((s, rest))
  }

  /** On a written value the visitor does what the step does to the value, and consumes exactly the value. */
  ghost predicate Mirrors<S(!new)>(visit: Visit<S>, step: Step<S>) {
    forall s, key, v, rest :: IsValue(v) ==> visit(s, key, Put(v) + rest) == Lifted(step(s, key, v), rest)
  }

  lemma KeyRoundTrip(key: nat, width: nat, rest: Octets)
    requires Fits(key, width)
    ensures ReadUnsigned(PutHead(0, key, width) + rest) == Some((key, rest))
    ensures (PutHead(0, key, width) + rest)[0] < 32
  {
    HeadRoundTrip(0, key, width, rest);
  }

  lemma EntryRoundTrip<S(!new)>(visit: Visit<S>, step: Step<S>, s: S, e: Entry, rest: Octets)
    requires Mirrors(visit, step) && IsEntry(e)
    ensures VisitEntry(visit, s, PutHead(0, e.key, e.width) + (Put(e.value) + rest))
            == Lifted(step(s, e.key, e.value), rest)
  {
    KeyRoundTrip(e.key, e.width, Put(e.value) + rest);
  }

  lemma EntriesSplit(entries: seq<Entry>, rest: Octets)
    requires AreEntries(entries) && entries != []
    ensures AreEntries(entries[1..])
    ensures PutEntries(entries) + rest
         == PutHead(0, entries[0].key, entries[0].width) + (Put(entries[0].value) + (PutEntries(entries[1..]) + rest))
  {
  }

  lemma CountedEntry<S(!new)>(visit: Visit<S>, s: S, d: Octets, count: nat)
    requires count > 0
    ensures VisitCounted(visit, s, d, count)
         == match VisitEntry(visit, s, d)
            case Err(e) => Err(e)
            case Ok(next) => VisitCounted(visit, next.0, next.1, count - 1)
  {
  }

  lemma {:induction false} CountedEntries<S(!new)>(visit: Visit<S>, step: Step<S>, s: S, entries: seq<Entry>,
                                                   rest: Octets)
    requires Mirrors(visit, step) && AreEntries(entries)
    ensures VisitCounted(visit, s, PutEntries(entries) + rest, |entries|) == Lifted(Fold(step, s, entries), rest)
    decreases |entries|
  {
    if entries == [] {
      assert PutEntries(entries) + rest == rest;
    } else {
      var e := entries[0];
      EntriesSplit(entries, rest);
      CountedEntry(visit, s, PutEntries(entries) + rest, |entries|);
      EntryRoundTrip(visit, step, s, e, PutEntries(entries[1..]) + rest);
      if step(s, e.key, e.value).Ok? {
        CountedEntries(visit, step, step(s, e.key, e.value).value, entries[1..], rest);
      }
    }
  }

  lemma OpenEntry<S(!new)>(visit: Visit<S>, s: S, d: Octets)
    requires Consuming(visit) && d != [] && d[0] != BREAK
    ensures VisitOpen(visit, s, d)
         == match VisitEntry(visit, s, d)
            case Err(e) => Err(e)
            case Ok(next) => VisitOpen(visit, next.0, next.1)
  {
  }

  lemma {:induction false} OpenEntries<S(!new)>(visit: Visit<S>, step: Step<S>, s: S, entries: seq<Entry>,
                                                close: Octets, rest: Octets)
    requires Consuming(visit) && Mirrors(visit, step) && AreEntries(entries) && close == [BREAK] + rest
    ensures VisitOpen(visit, s, PutEntries(entries) + close) == Lifted(Fold(step, s, entries), rest)
    decreases |entries|
  {
    if entries == [] {
      assert PutEntries(entries) + close == close;
      assert close[1..] == rest;
    } else {
      var e := entries[0];
      var after := PutEntries(entries[1..]) + close;
      EntriesSplit(entries, close);
      KeyRoundTrip(e.key, e.width, Put(e.value) + after);
      OpenEntry(visit, s, PutEntries(entries) + close);
      EntryRoundTrip(visit, step, s, e, after);
      if step(s, e.key, e.value).Ok? {
        OpenEntries(visit, step, step(s, e.key, e.value).value, entries[1..], close, rest);
      }
    }
  }

  lemma CountedMapHead(width: nat, entries: seq<Entry>, rest: Octets)
    requires IsMap(Counted(width), entries)
    ensures ReadMap(PutMap(Counted(width), entries) + rest) == Some((Some(|entries|), PutEntries(entries) + rest))
  {
    var head, body := PutHead(5, |entries|, width), PutEntries(entries);
    HeadOfConcat(5, |entries|, width, body, rest);
    HeadRoundTrip(5, |entries|, width, body + rest);
    ConcatOfThree(head, body, [], rest);
  }

  lemma UncountedMapHead(body: Octets, rest: Octets)
    ensures ReadMap([0xbf] + (body + [BREAK]) + rest) == Some((None, body + ([BREAK] + rest)))
  {
    IndefiniteHead(0xbf, body + [BREAK], rest);
    assert ([0xbf] + (body + [BREAK]) + rest)[1..] == body + ([BREAK] + rest);
  }

  function AfterHead(form: Form, entries: seq<Entry>, rest: Octets): (Option<nat>, Octets)
    requires IsMap(form, entries)
  {
    match form
    case Counted(_) => (Some(|entries|), PutEntries(entries) + rest)
    case Uncounted => (None, PutEntries(entries) + ([BREAK] + rest))
  }

  lemma MapHead(form: Form, entries: seq<Entry>, rest: Octets)
    requires IsMap(form, entries)
    ensures ReadMap(PutMap(form, entries) + rest) == Some(AfterHead(form, entries, rest))
  {
    match form
    case Counted(width) => CountedMapHead(width, entries, rest);
    case Uncounted => UncountedMapHead(PutEntries(entries), rest);
  }

  /** Definite or indefinite, a written map is visited entry by entry and left exactly at its end. */
  lemma MapRoundTrip<S(!new)>(visit: Visit<S>, step: Step<S>, s: S, form: Form, entries: seq<Entry>, rest: Octets)
    requires Consuming(visit) && Mirrors(visit, step) && IsMap(form, entries)
    ensures var head := ReadMap(PutMap(form, entries) + rest);
      && head.Some?
      && VisitAll(visit, s, head.value.1, head.value.0) == Lifted(Fold(step, s, entries), rest)
  {
    MapHead(form, entries, rest);
    match form
    case Counted(_) => CountedEntries(visit, step, s, entries, rest);
    case Uncounted => OpenEntries(visit, step, s, entries, [BREAK] + rest, rest);
  }

  // ---- Fields of values ----

  function NumberOf(v: Value): Option<Number> {
    match v
    case Unsigned(n, _) => Some(Whole(n))
    case Negative(n, _) => if n < Power256(8) / 2 then Some(Whole(-1 - n)) else None
    case Float(bits, width) => Some(Binary(bits, width))
    case _ => None
  }

  function FieldOf(kind: Kind, v: Value): Option<Field> {
    match kind
    case Uuid => if v.ByteString? && |v.b| == 16 then Some(Identifier(v.b)) else None
    case Word => if v.Unsigned? then Some(Natural(v.n)) else None
    case Short => if v.Unsigned? && v.n < 0x1_0000 then Some(Natural(v.n)) else None
    case Label => if v.TextString? then Some(Characters(v.b)) else None
    case Quantity => if NumberOf(v).Some? then Some(Measure(NumberOf(v).value)) else None
    case Tint => if v.ByteString? && ColorOf(v.b).Some? then Some(Shade(ColorOf(v.b).value)) else None
    case Unknown => None
  }

  function MajorOf(v: Value): nat {
    match v
    case Unsigned(_, _) => 0
    case Negative(_, _) => 1
    case ByteString(_, _) => 2
    case TextString(_, _) => 3
    case ChunkedString(text, _) => if text then 3 else 2
    case Array(_, _) => 4
    case OpenArray(_) => 4
    case Map(_, _) => 5
    case OpenMap(_) => 5
    case Tagged(_, _, _) => 6
    case Simple(_) => 7
    case Float(_, _) => 7
  }

  predicate IsIndefinite(v: Value) {
    v.ChunkedString? || v.OpenArray? || v.OpenMap?
  }

  lemma IndefiniteHead(first: byte, body: Octets, rest: Octets)
    requires first == 0x5f || first == 0x7f || first == 0x9f || first == 0xbf
    ensures ReadHead([first] + body + rest) == Some(Head(first / 32, INDEFINITE, 0, 1))
  {
  }

  lemma SimpleHead(code: nat, rest: Octets)
    requires IsValue(Simple(code))
    ensures var h := ReadHead(Put(Simple(code)) + rest); h.Some? && h.value.major == 7 && h.value.info <= 24
  {
    if code < 24 {
      ShortHead(7, code, rest);
    } else {
      WideHead(7, 24, [code], rest);
    }
  }

  /** The head of a written value tells its kind. */
  lemma HeadOfValue(v: Value, rest: Octets)
    requires IsValue(v)
    ensures var h := ReadHead(Put(v) + rest);
      h.Some? && h.value.major == MajorOf(v) && (h.value.info == INDEFINITE <==> IsIndefinite(v))
    ensures v.Simple? ==> ReadHead(Put(v) + rest).value.info <= 24
  {
    match v
    case Unsigned(n, width) => HeadRoundTrip(0, n, width, rest);
    case Negative(n, width) => HeadRoundTrip(1, n, width, rest);
    case ByteString(b, width) => HeadOfConcat(2, |b|, width, b, rest);
    case TextString(b, width) => HeadOfConcat(3, |b|, width, b, rest);
    case ChunkedString(text, chunks) =>
      IndefiniteHead(if text then 0x7f else 0x5f, PutChunks(text, chunks), rest);
    case Array(items, width) => HeadOfConcat(4, Length(items), width, PutAll(items), rest);
    case OpenArray(items) => IndefiniteHead(0x9f, PutAll(items) + [BREAK], rest);
    case Map(entries, width) => HeadOfConcat(5, Length(entries) / 2, width, PutAll(entries), rest);
    case OpenMap(entries) => IndefiniteHead(0xbf, PutAll(entries) + [BREAK], rest);
    case Tagged(tag, width, content) => HeadOfConcat(6, tag, width, Put(content), rest);
    case Simple(code) => SimpleHead(code, rest);
    case Float(bits, width) => HeadRoundTrip(7, bits, width, rest);
  }

  lemma HeadOfConcat(major: nat, n: nat, width: nat, body: Octets, rest: Octets)
    requires major < 8 && Fits(n, width)
    ensures ReadHead(PutHead(major, n, width) + body + rest) == Some(Head(major, InfoFor(n, width), n, 1 + width))
    ensures InfoFor(n, width) != INDEFINITE
  {
    HeadRoundTrip(major, n, width, body + rest);
    ConcatOfThree(PutHead(major, n, width), body, [], rest);
  }

  lemma StringOfValue(v: Value, major: nat, rest: Octets)
    requires IsValue(v) && (major == 2 || major == 3)
    ensures ReadString(Put(v) + rest, major)
         == if MajorOf(v) == major && !IsIndefinite(v) then Some((v.b, rest)) else None
  {
    HeadOfValue(v, rest);
    if v.ByteString? {
      StringRoundTrip(2, v.b, v.width, rest);
    } else if v.TextString? {
      StringRoundTrip(3, v.b, v.width, rest);
    }
  }

  lemma UnsignedOfValue(v: Value, rest: Octets)
    requires IsValue(v)
    ensures ReadUnsigned(Put(v) + rest) == if v.Unsigned? then Some((v.n, rest)) else None
  {
    HeadOfValue(v, rest);
    if v.Unsigned? {
      HeadRoundTrip(0, v.n, v.width, rest);
    }
  }

  lemma NumberOfValue(v: Value, rest: Octets)
    requires IsValue(v)
    ensures ReadNumber(Put(v) + rest) == if NumberOf(v).Some? then Some((NumberOf(v).value, rest)) else None
  {
    HeadOfValue(v, rest);
    match v
    case Unsigned(n, width) => HeadRoundTrip(0, n, width, rest);
    case Negative(n, width) => HeadRoundTrip(1, n, width, rest);
    case Float(bits, width) => HeadRoundTrip(7, bits, width, rest);
    case _ =>
  }

  lemma FieldRoundTrip(kind: Kind, v: Value, rest: Octets)
    requires IsValue(v)
    ensures ReadField(kind, Put(v) + rest)
         == if FieldOf(kind, v).Some? then Some((FieldOf(kind, v).value, rest)) else None
  {
    match kind
    case Uuid => StringOfValue(v, 2, rest);
    case Word => UnsignedOfValue(v, rest);
    case Short => UnsignedOfValue(v, rest);
    case Label => StringOfValue(v, 3, rest);
    case Quantity => NumberOfValue(v, rest);
    case Tint => StringOfValue(v, 2, rest);
    case Unknown =>
  }

  // ---- The three meanings ----

  const MainStep: Step<MainState> := (s: MainState, key: nat, v: Value) => MainMeaning(s, key, v)

  function MainMeaning(s: MainState, key: nat, v: Value): Result<MainState, Error> {
    if KindOf(key) == Unknown then Ok(s)
    else match FieldOf(KindOf(key), v)
      case None => Err(InvalidCbor)
      case Some(f) => Ok(OpenPrintTag.Stored(s, key, f))
  }

  const AuxStep: Step<AuxState> := (s: AuxState, key: nat, v: Value) => AuxMeaning(s, key, v)

  function AuxMeaning(s: AuxState, key: nat, v: Value): Result<AuxState, Error> {
    if AuxKind(key) == Unknown then Ok(s)
    else match FieldOf(AuxKind(key), v)
      case None => Err(InvalidCbor)
      case Some(f) => Ok(AuxStored(s, f))
  }

  const MetaStep: Step<MetaState> := (s: MetaState, key: nat, v: Value) => MetaMeaning(s, key, v)

  function MetaMeaning(s: MetaState, key: nat, v: Value): Result<MetaState, Error> {
    if key > 3 then Ok(s) else if v.Unsigned? then Ok(Placed(s, key, v.n % USIZE)) else Err(InvalidCbor)
  }

  lemma MainMirrors()
    ensures Mirrors(VisitMain, MainStep)
  {
    forall s, key, v, rest | IsValue(v) ensures VisitMain(s, key, Put(v) + rest) == Lifted(MainStep(s, key, v), rest) {
      ItemRoundTrip(v, rest);
      FieldRoundTrip(KindOf(key), v, rest);
    }
  }

  lemma AuxMirrors()
    ensures Mirrors(VisitAux, AuxStep)
  {
    forall s, key, v, rest | IsValue(v) ensures VisitAux(s, key, Put(v) + rest) == Lifted(AuxStep(s, key, v), rest) {
      ItemRoundTrip(v, rest);
      FieldRoundTrip(AuxKind(key), v, rest);
    }
  }

  lemma MetaMirrors()
    ensures Mirrors(VisitMeta, MetaStep)
  {
    forall s, key, v, rest | IsValue(v) ensures VisitMeta(s, key, Put(v) + rest) == Lifted(MetaStep(s, key, v), rest) {
      ItemRoundTrip(v, rest);
      UnsignedOfValue(v, rest);
    }
  }

  /** What a main map with these entries says, if it takes `size` bytes. */
  function MainMeaningOf(entries: seq<Entry>, size: nat): Result<Tag, Error> {
    match Fold(MainStep, EMPTY_MAIN, entries)
    case Err(e) => Err(e)
    case Ok(s) => FinishMain(s, size)
  }

  function AuxMeaningOf(entries: seq<Entry>, size: nat, tag: Tag): Result<Tag, Error> {
    match Fold(AuxStep, EMPTY_AUX, entries)
    case Err(e) => Err(e)
    case Ok(s) => FinishAux(tag, s, size)
  }

  /** Every written main map, whatever follows it in its region, decodes to the meaning of its entries. */
  lemma MainRoundTrip(form: Form, entries: seq<Entry>, rest: Octets)
    requires IsMap(form, entries)
    ensures MainOf(PutMap(form, entries) + rest) == MainMeaningOf(entries, |PutMap(form, entries)|)
  {
    VisitorsConsume();
    MainMirrors();
    MapRoundTrip(VisitMain, MainStep, EMPTY_MAIN, form, entries, rest);
  }

  lemma AuxRoundTrip(form: Form, entries: seq<Entry>, rest: Octets, tag: Tag)
    requires IsMap(form, entries)
    ensures AuxOf(PutMap(form, entries) + rest, tag) == AuxMeaningOf(entries, |PutMap(form, entries)|, tag)
  {
    VisitorsConsume();
    AuxMirrors();
    MapRoundTrip(VisitAux, AuxStep, EMPTY_AUX, form, entries, rest);
  }

  /** The regions of a payload that starts with a written meta map are those its entries ask for. */
  lemma MetaRoundTrip(form: Form, entries: seq<Entry>, rest: Octets)
    requires IsMap(form, entries)
    ensures RegionsOf(PutMap(form, entries) + rest)
         == match Fold(MetaStep, NO_REGIONS, entries)
            case Err(e) => Err(e)
            case Ok(s) => Arrange(|PutMap(form, entries) + rest|, |PutMap(form, entries)|, s)
  {
    VisitorsConsume();
    MetaMirrors();
    MapRoundTrip(VisitMeta, MetaStep, NO_REGIONS, form, entries, rest);
  }
}
