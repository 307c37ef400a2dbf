/** What a tag means does not depend on how it was written: on widths and forms, on keys nobody knows, on the
    order of entries, or on what surrounds the record. */
module OpenPrintTagForms {
  import opened Text
  import opened Bytes
  import opened Cbor
  import opened Ndef
  import opened OpenPrintTag
  import opened OpenPrintTagMeaning

  // ---- What an entry contributes ----

  /** A known key with the field it holds, if its value has the right type. */
  datatype Reading = Reading(key: nat, field: Option<Field>)

  function ReadingsOf(e: Entry): seq<Reading> {
    if KindOf(e.key) == Unknown then [] else [Reading(e.key, FieldOf(KindOf(e.key), e.value))]
  }

  function Readings(entries: seq<Entry>): seq<Reading> {
    if entries == [] then [] else ReadingsOf(entries[0]) + Readings(entries[1..])
  }

  predicate AllRead(rs: seq<Reading>) {
    forall i :: 0 <= i < |rs| ==> rs[i].field.Some?
  }

  /** The keys that collect a list instead of replacing a field. */
  predicate Collects(r: Reading) {
    IsSecondary(r.key) && r.field.Some? && r.field.value.Shade?
  }

  function FieldsIn(rs: seq<Reading>): map<nat, Field> {
    if rs == [] then map[]
    else if Collects(rs[0]) || rs[0].field.None? then FieldsIn(rs[1..])
    else map[rs[0].key := rs[0].field.value] + FieldsIn(rs[1..])
  }

  function ColorsIn(rs: seq<Reading>): seq<Color> {
    if rs == [] then []
    else if Collects(rs[0]) then [rs[0].field.value.color] + ColorsIn(rs[1..])
    else ColorsIn(rs[1..])
  }

  function Collected(s: MainState, rs: seq<Reading>): Result<MainState, Error> {
    if AllRead(rs) then Ok(MainState(s.fields + FieldsIn(rs), s.secondary + ColorsIn(rs))) else Err(InvalidCbor)
  }

  lemma CollectedStep(s: MainState, r: Reading, rest: seq<Reading>)
    ensures Collected(s, [r] + rest)
         == if r.field.None? then Err(InvalidCbor) else Collected(OpenPrintTag.Stored(s, r.key, r.field.value), rest)
  {
    var rs := [r] + rest;
    assert rs[0] == r && rs[1..] == rest;
    if r.field.Some? {
      assert AllRead(rs) <==> AllRead(rest) by {
        assert forall i :: 0 <= i < |rest| ==> rest[i] == rs[i + 1];
      }
      if Collects(r) {
        assert s.secondary + ColorsIn(rs) == (s.secondary + [r.field.value.color]) + ColorsIn(rest);
      } else {
        assert s.fields + FieldsIn(rs) == s.fields[r.key := r.field.value] + FieldsIn(rest);
      }
    }
  }

  /** Folding over entries collects their readings, the last of a key winning. */
  lemma {:induction false} FoldCollects(s: MainState, entries: seq<Entry>)
    ensures Fold(MainStep, s, entries) == Collected(s, Readings(entries))
    decreases |entries|
  {
    if entries == [] {
      assert s.fields + map[] == s.fields && s.secondary + [] == s.secondary;
    } else {
      var e := entries[0];
      var rest := Readings(entries[1..]);
      if KindOf(e.key) == Unknown {
        assert Readings(entries) == rest;
        FoldCollects(s, entries[1..]);
      } else {
        var r := Reading(e.key, FieldOf(KindOf(e.key), e.value));
        assert Readings(entries) == [r] + rest;
        CollectedStep(s, r, rest);
        if r.field.Some? {
          FoldCollects(OpenPrintTag.Stored(s, e.key, r.field.value), entries[1..]);
        }
      }
    }
  }

  /** The verdict on a main map of a given size that holds these readings. */
  function Verdict(rs: seq<Reading>, size: nat): Result<Tag, Error> {
    if !AllRead(rs) then Err(InvalidCbor)
    else if size > MAX_SECTION_SIZE then Err(InvalidMainRegion)
    else if MATERIAL_CLASS !in FieldsIn(rs) then Err(MissingMaterialClass)
    else Ok(Tag(FieldsIn(rs), ColorsIn(rs), None, None, None))
  }

  lemma MeaningIsVerdict(entries: seq<Entry>, size: nat)
    ensures MainMeaningOf(entries, size) == Verdict(Readings(entries), size)
  {
    FoldCollects(EMPTY_MAIN, entries);
    var rs := Readings(entries);
    assert map[] + FieldsIn(rs) == FieldsIn(rs) && [] + ColorsIn(rs) == ColorsIn(rs);
  }

  ghost predicate FitsSection(form: Form, entries: seq<Entry>) {
    IsMap(form, entries) && |PutMap(form, entries)| <= MAX_SECTION_SIZE
  }

  lemma DecodedVerdict(form: Form, entries: seq<Entry>, rest: Octets)
    requires FitsSection(form, entries)
    ensures MainOf(PutMap(form, entries) + rest) == Verdict(Readings(entries), 0)
  {
    MainRoundTrip(form, entries, rest);
    MeaningIsVerdict(entries, |PutMap(form, entries)|);
  }

  /** Definite or indefinite, in any widths, with any bytes after the map: maps with the same readings decode
      to the same tag, or fail the same way. */
  lemma FormDoesNotMatter(form: Form, entries: seq<Entry>, rest: Octets, form': Form, entries': seq<Entry>,
                          rest': Octets)
    requires FitsSection(form, entries) && FitsSection(form', entries') && Readings(entries) == Readings(entries')
    ensures MainOf(PutMap(form, entries) + rest) == MainOf(PutMap(form', entries') + rest')
  {
    DecodedVerdict(form, entries, rest);
    DecodedVerdict(form', entries', rest');
  }

  lemma {:induction false} ReadingsOfConcat(a: seq<Entry>, b: seq<Entry>)
    ensures Readings(a + b) == Readings(a) + Readings(b)
  {
    if a == [] {
      assert a + b == b;
    } else {
      assert (a + b)[1..] == a[1..] + b;
      ReadingsOfConcat(a[1..], b);
    }
  }

  lemma {:induction false} UnknownIsUnread(entries: seq<Entry>)
    requires forall i :: 0 <= i < |entries| ==> KindOf(entries[i].key) == Unknown
    ensures Readings(entries) == []
  {
    if entries != [] {
      UnknownIsUnread(entries[1..]);
    }
  }

  /** Unknown keys, with values nested as deeply as one likes, change nothing wherever they are inserted. */
  lemma UnknownKeysAddNothing(form: Form, before: seq<Entry>, unknown: seq<Entry>, after: seq<Entry>, rest: Octets,
                              form': Form, rest': Octets)
    requires FitsSection(form, before + unknown + after) && FitsSection(form', before + after)
    requires forall i :: 0 <= i < |unknown| ==> KindOf(unknown[i].key) == Unknown
    ensures MainOf(PutMap(form, before + unknown + after) + rest) == MainOf(PutMap(form', before + after) + rest')
  {
    UnknownIsUnread(unknown);
    ReadingsOfConcat(before + unknown, after);
    ReadingsOfConcat(before, unknown);
    ReadingsOfConcat(before, after);
    assert Readings(before) + [] == Readings(before);
    FormDoesNotMatter(form, before + unknown + after, rest, form', before + after, rest');
  }

  // ---- Order ----

  predicate IsKnown(e: Entry) {
    KindOf(e.key) != Unknown
  }

  function TheReading(e: Entry): Reading {
    Reading(e.key, FieldOf(KindOf(e.key), e.value))
  }

  ghost predicate ComesFrom(r: Reading, entries: seq<Entry>) {
    exists e :: e in entries && IsKnown(e) && TheReading(e) == r
  }

  lemma {:induction false} ReadingsMembers(entries: seq<Entry>, r: Reading)
    ensures r in Readings(entries) <==> ComesFrom(r, entries)
  {
    if entries != [] {
      var e, rest := entries[0], entries[1..];
      assert forall x :: x in entries <==> x == e || x in rest;
      assert r in Readings(entries) <==> r in ReadingsOf(e) || r in Readings(rest);
      ReadingsMembers(rest, r);
      if r in ReadingsOf(e) {
        assert TheReading(e) == r && IsKnown(e) && e in entries;
      }
    }
  }

  /** No key that replaces a field occurs with two different readings. */
  ghost predicate Consistent(rs: seq<Reading>) {
    forall x, y :: x in rs && y in rs && x.key == y.key && !Collects(x) && !Collects(y) ==> x == y
  }

  lemma {:induction false} FieldsAreMembers(rs: seq<Reading>, k: nat)
    requires AllRead(rs) && Consistent(rs)
    ensures k in FieldsIn(rs) <==> exists r :: r in rs && !Collects(r) && r.key == k
    ensures forall r :: r in rs && !Collects(r) && r.key == k ==> k in FieldsIn(rs) && FieldsIn(rs)[k] == r.field.value
  {
    if rs != [] {
      var rest := rs[1..];
      assert forall x :: x in rs <==> x == rs[0] || x in rest;
      FieldsAreMembers(rest, k);
    }
  }

  predicate SameMembers(a: seq<Reading>, b: seq<Reading>) {
    (forall r :: r in a ==> r in b) && (forall r :: r in b ==> r in a)
  }

  lemma AllReadByMembers(a: seq<Reading>, b: seq<Reading>)
    requires SameMembers(a, b) && AllRead(a)
    ensures AllRead(b)
  {
    forall i | 0 <= i < |b| ensures b[i].field.Some? {
      assert b[i] in a;
    }
  }

  lemma FieldsByMembers(a: seq<Reading>, b: seq<Reading>)
    requires SameMembers(a, b) && AllRead(a) && AllRead(b) && Consistent(a)
    ensures FieldsIn(a) == FieldsIn(b)
  {
    forall k | k in FieldsIn(a) || k in FieldsIn(b)
      ensures k in FieldsIn(a) && k in FieldsIn(b) && FieldsIn(a)[k] == FieldsIn(b)[k]
    {
      FieldsAreMembers(a, k);
      FieldsAreMembers(b, k);
    }
    assert forall k :: k in FieldsIn(a) <==> k in FieldsIn(b);
  }

  /** No known key outside 20 to 24 occurs twice. */
  ghost predicate DistinctKeys(entries: seq<Entry>) {
    forall x, y :: x in entries && y in entries && x.key == y.key && IsKnown(x) && !IsSecondary(x.key) ==> x == y
  }

  lemma PermutedReadings(a: seq<Entry>, b: seq<Entry>)
    requires multiset(a) == multiset(b)
    ensures SameMembers(Readings(a), Readings(b))
  {
    assert forall e :: e in a <==> e in multiset(a);
    assert forall e :: e in b <==> e in multiset(b);
    forall r | r in Readings(a) ensures r in Readings(b) {
      ReadingsMembers(a, r);
      ReadingsMembers(b, r);
    }
    forall r | r in Readings(b) ensures r in Readings(a) {
      ReadingsMembers(a, r);
      ReadingsMembers(b, r);
    }
  }

  lemma ColorsCollect(e: Entry)
    requires IsSecondary(e.key) && TheReading(e).field.Some?
    ensures Collects(TheReading(e))
  {
  }

  lemma DistinctIsConsistent(entries: seq<Entry>)
    requires DistinctKeys(entries) && AllRead(Readings(entries))
    ensures Consistent(Readings(entries))
  {
    var rs := Readings(entries);
    forall x, y | x in rs && y in rs && x.key == y.key && !Collects(x) && !Collects(y) ensures x == y {
      ReadingsMembers(entries, x);
      ReadingsMembers(entries, y);
      var e :| e in entries && IsKnown(e) && TheReading(e) == x;
      var f :| f in entries && IsKnown(f) && TheReading(f) == y;
      if IsSecondary(e.key) {
        ColorsCollect(e);
      }
    }
  }

  /** Any order of the same entries, with distinct keys outside 20 to 24: both orders are accepted or both
      rejected, and an accepted tag is the same exactly if the secondary colours come in the same order. */
  lemma OrderMattersForColoursOnly(form: Form, a: seq<Entry>, rest: Octets, form': Form, b: seq<Entry>, rest': Octets)
    requires FitsSection(form, a) && FitsSection(form', b) && multiset(a) == multiset(b) && DistinctKeys(a)
    ensures var x, y := MainOf(PutMap(form, a) + rest), MainOf(PutMap(form', b) + rest');
      && (x.Err? || y.Err? ==> x == y)
      && (x.Ok? ==> (x == y <==> ColorsIn(Readings(a)) == ColorsIn(Readings(b))))
  {
    DecodedVerdict(form, a, rest);
    DecodedVerdict(form', b, rest');
    PermutedReadings(a, b);
    if AllRead(Readings(a)) {
      AllReadByMembers(Readings(a), Readings(b));
      DistinctIsConsistent(a);
      FieldsByMembers(Readings(a), Readings(b));
    } else if AllRead(Readings(b)) {
      AllReadByMembers(Readings(b), Readings(a));
    }
  }

  // ---- A whole tag ----

  /** The entries of a meta map with one entry, which says where the auxiliary map is. */
  function MetaEntries(auxOffset: nat, width: nat): seq<Entry> {
    [Entry(2, 0, Unsigned(auxOffset, width))]
  }

  lemma MetaFold(auxOffset: nat, width: nat)
    requires auxOffset < USIZE
    ensures GivesAuxOffset(MetaEntries(auxOffset, width), auxOffset)
  {
    var s := MetaState(None, None, Some(auxOffset), None);
    assert MetaMeaning(NO_REGIONS, 2, Unsigned(auxOffset, width)) == Ok(s);
    assert MetaEntries(auxOffset, width)[1..] == [];
    assert Fold(MetaStep, s, []) == Ok(s);
  }

  lemma LaidOut(meta: Octets, main: Octets, aux: Octets)
    ensures var payload := meta + (main + aux);
      && Part(payload, |meta|, |main|) == main
      && Part(payload, |meta| + |main|, |aux|) == aux
  {
    PartOfConcat(meta, main, aux);
    var payload := meta + (main + aux);
    assert payload[|meta| + |main|..|meta| + |main| + |aux|] == payload[|meta| + |main|..];
  }

  /** A written map, padded to the size of its region. */
  datatype Section = Section(form: Form, entries: seq<Entry>, padding: Octets)

  ghost predicate IsSection(s: Section) {
    IsMap(s.form, s.entries)
  }

  function PutSection(s: Section): Octets
    requires IsSection(s)
  {
    PutMap(s.form, s.entries) + s.padding
  }

  /** What the sections of a payload say together. */
  ghost function Together(main: Section, aux: Option<Section>): Result<Tag, Error>
    requires IsSection(main) && (aux.Some? ==> IsSection(aux.value))
  {
    match MainMeaningOf(main.entries, |PutMap(main.form, main.entries)|)
    case Err(e) => Err(e)
    case Ok(tag) =>
      if aux.None? then Ok(tag) else AuxMeaningOf(aux.value.entries, |PutMap(aux.value.form, aux.value.entries)|, tag)
  }

  /** The regions the entries of a meta map ask for, sizes and offsets explicit or omitted, in either order. */
  function LayoutOf(meta: seq<Entry>, metaEnd: nat, length: nat): Result<Regions, Error> {
    match Fold(MetaStep, NO_REGIONS, meta)
    case Err(e) => Err(e)
    case Ok(s) => Arrange(length, metaEnd, s)
  }

  /** The sections stand where the regions are. */
  ghost predicate AreLaidOut(payload: Octets, regions: Regions, main: Section, aux: Option<Section>)
    requires IsSection(main) && (aux.Some? ==> IsSection(aux.value))
  {
    && Part(payload, regions.mainOffset, regions.mainSize) == PutSection(main)
    && (aux.Some? <==> regions.aux.Some?)
    && (aux.Some? ==> Part(payload, regions.aux.value.0, regions.aux.value.1) == PutSection(aux.value))
  }

  lemma PartsMeaning(payload: Octets, regions: Regions, main: Section, aux: Option<Section>)
    requires IsSection(main) && (aux.Some? ==> IsSection(aux.value)) && AreLaidOut(payload, regions, main, aux)
    ensures PartsOf(payload, regions) == Together(main, aux)
  {
    MainRoundTrip(main.form, main.entries, main.padding);
    var decoded := MainMeaningOf(main.entries, |PutMap(main.form, main.entries)|);
    if decoded.Ok? && aux.Some? {
      AuxRoundTrip(aux.value.form, aux.value.entries, aux.value.padding, decoded.value);
    }
  }

  lemma PayloadByParts(payload: Octets)
    ensures PayloadOf(payload)
         == match RegionsOf(payload)
            case Err(e) => Err(e)
            case Ok(regions) => PartsOf(payload, regions)
  {
  }

  lemma RegionsAreLaidOut(form: Form, meta: seq<Entry>, rest: Octets)
    requires IsMap(form, meta)
    ensures RegionsOf(PutMap(form, meta) + rest) == LayoutOf(meta, |PutMap(form, meta)|, |PutMap(form, meta) + rest|)
  {
    MetaRoundTrip(form, meta, rest);
  }

  /** Every payload that starts with a written meta map, whatever layout it asks for: a layout that is refused
      is the payload's error; otherwise, with written sections in its regions, the payload decodes to what their
      entries mean. */
  lemma PayloadMeaning(form: Form, meta: seq<Entry>, rest: Octets, main: Section, aux: Option<Section>)
    requires IsMap(form, meta) && IsSection(main) && (aux.Some? ==> IsSection(aux.value))
    requires var layout := LayoutOf(meta, |PutMap(form, meta)|, |PutMap(form, meta) + rest|);
      layout.Ok? ==> AreLaidOut(PutMap(form, meta) + rest, layout.value, main, aux)
    ensures var layout := LayoutOf(meta, |PutMap(form, meta)|, |PutMap(form, meta) + rest|);
      PayloadOf(PutMap(form, meta) + rest) == if layout.Err? then Err(layout.error) else Together(main, aux)
  {
    var payload := PutMap(form, meta) + rest;
    var layout := LayoutOf(meta, |PutMap(form, meta)|, |payload|);
    RegionsAreLaidOut(form, meta, rest);
    PayloadByParts(payload);
    if layout.Ok? {
      PartsMeaning(payload, layout.value, main, aux);
    }
  }

  lemma SectionIsNotEmpty(s: Section)
    requires IsSection(s)
    ensures |PutSection(s)| > 0
  {
  }

  /** An empty meta map: the main map takes all the rest. */
  lemma MainAlone(form: Form, main: Section)
    requires IsMap(form, []) && IsSection(main)
    requires |PutMap(form, [])| <= MAX_SECTION_SIZE && |PutMap(form, [])| + |PutSection(main)| < USIZE
    ensures PayloadOf(PutMap(form, []) + PutSection(main)) == Together(main, None)
  {
    var meta, part := PutMap(form, []), PutSection(main);
    LaidOut(meta, part, []);
    assert part + [] == part;
    assert LayoutOf([], |meta|, |meta + part|) == Ok(Regions(|meta|, |part|, None));
    PayloadMeaning(form, [], part, main, None);
  }

  lemma ArrangeInARow(metaEnd: nat, mainSize: nat, auxSize: nat)
    requires metaEnd <= MAX_SECTION_SIZE && mainSize > 0 && metaEnd + mainSize + auxSize < USIZE
    ensures Arrange(metaEnd + mainSize + auxSize, metaEnd, MetaState(None, None, Some(metaEnd + mainSize), None))
         == Ok(Regions(metaEnd, mainSize, Some((metaEnd + mainSize, auxSize))))
  {
  }

  /** The meta map gives the auxiliary offset, and neither sizes nor the main offset. */
  ghost predicate GivesAuxOffset(meta: seq<Entry>, auxOffset: nat) {
    Fold(MetaStep, NO_REGIONS, meta) == Ok(MetaState(None, None, Some(auxOffset), None))
  }

  lemma LaidOutInARow(meta: Octets, main: Section, aux: Section)
    requires IsSection(main) && IsSection(aux)
    ensures var regions := Regions(|meta|, |PutSection(main)|, Some((|meta| + |PutSection(main)|, |PutSection(aux)|)));
      AreLaidOut(meta + (PutSection(main) + PutSection(aux)), regions, main, Some(aux))
  {
    LaidOut(meta, PutSection(main), PutSection(aux));
  }

  lemma LayoutInARow(meta: seq<Entry>, auxOffset: nat, metaEnd: nat, mainSize: nat, auxSize: nat)
    requires GivesAuxOffset(meta, auxOffset) && auxOffset == metaEnd + mainSize
    requires mainSize > 0 && metaEnd <= MAX_SECTION_SIZE && auxOffset + auxSize < USIZE
    ensures LayoutOf(meta, metaEnd, metaEnd + mainSize + auxSize)
            == Ok(Regions(metaEnd, mainSize, Some((auxOffset, auxSize))))
  {
    ArrangeInARow(metaEnd, mainSize, auxSize);
  }

  /** Meta, main and auxiliary maps one after the other. */
  lemma InARow(form: Form, meta: seq<Entry>, main: Section, aux: Section, auxOffset: nat)
    requires IsMap(form, meta) && IsSection(main) && IsSection(aux) && GivesAuxOffset(meta, auxOffset)
    requires auxOffset == |PutMap(form, meta)| + |PutSection(main)|
    requires |PutMap(form, meta)| <= MAX_SECTION_SIZE && auxOffset + |PutSection(aux)| < USIZE
    ensures PayloadOf(PutMap(form, meta) + (PutSection(main) + PutSection(aux))) == Together(main, Some(aux))
  {
    SectionIsNotEmpty(main);
    LayoutInARow(meta, auxOffset, |PutMap(form, meta)|, |PutSection(main)|, |PutSection(aux)|);
    LaidOutInARow(PutMap(form, meta), main, aux);
    PayloadMeaning(form, meta, PutSection(main) + PutSection(aux), main, Some(aux));
  }

  /** The tag in a message of written records. */
  function TagOf(rs: seq<Record>): Result<Tag, Error>
    requires forall i :: 0 <= i < |rs| ==> IsRecord(rs[i])
  {
    match FirstWritten(rs)
    case Err(e) => Err(e)
    case Ok(payload) =>
      match PayloadOf(payload)
      case Err(e) => Err(e)
      case Ok(tag) => Ok(tag.(ndefUri := FirstUri(SeenAll(rs), true)))
  }

  /** A whole tag memory: container, other blocks and padding, the NDEF message, anything after it. */
  lemma MemoryRoundTrip(container: Octets, others: seq<Tlv>, rs: seq<Record>, long: bool, rest: Octets)
    requires |container| > 0
    requires (container[0] == 0xe1 && |container| == 4) || (container[0] == 0xe2 && |container| == 8)
    requires forall i :: 0 <= i < |others| ==> IsTlv(others[i]) && (others[i].Block? ==> others[i].tag != NDEF_TLV)
    requires forall i :: 0 <= i < |rs| ==> IsRecord(rs[i])
    requires |PutRecords(rs)| < (if long then 0x1_0000 else 0xff)
    ensures forall i :: 0 <= i < |UpToLast(rs)| ==> IsRecord(UpToLast(rs)[i])
    ensures MemoryOf(container + (PutTlvs(others) + (PutTlv(Block(NDEF_TLV, PutRecords(rs), long)) + rest)))
         == TagOf(UpToLast(rs))
  {
    MessageRoundTrip(container, others, PutRecords(rs), long, rest);
    WalkRoundTrip(rs);
    PayloadRoundTrip(rs);
  }
}
