/** What each key of a tag says, found by a search for its last entry, and which regions a meta map gives. */
module OpenPrintTagLaws {
  import opened Text
  import opened Bytes
  import opened Cbor
  import opened Ndef
  import opened OpenPrintTag
  import opened OpenPrintTagMeaning
  import opened OpenPrintTagForms

  /** The value of the last entry with a key. */
  function LastOf(entries: seq<Entry>, key: nat): Option<Value> {
    if entries == [] then None
    else if LastOf(entries[1..], key).Some? then LastOf(entries[1..], key)
    else if entries[0].key == key then Some(entries[0].value)
    else None
  }

  lemma {:induction false} LastIsLast(entries: seq<Entry>, i: nat)
    requires i < |entries| && forall j :: i < j < |entries| ==> entries[j].key != entries[i].key
    ensures LastOf(entries, entries[i].key) == Some(entries[i].value)
  {
    if i > 0 {
      LastIsLast(entries[1..], i - 1);
    } else {
      NoLast(entries[1..], entries[0].key);
    }
  }

  lemma {:induction false} NoLast(entries: seq<Entry>, key: nat)
    ensures LastOf(entries, key).None? <==> forall j :: 0 <= j < |entries| ==> entries[j].key != key
  {
    if entries != [] {
      NoLast(entries[1..], key);
      assert forall j :: 1 <= j < |entries| ==> entries[j] == entries[1..][j - 1];
      assert forall j :: 0 <= j < |entries| - 1 ==> entries[1..][j] == entries[j + 1];
    }
  }

  // ---- The meta map ----

  /** A 64-bit number as the device's 32-bit `usize`. */
  function Low32(v: Option<Value>): Option<nat> {
    if v.Some? && v.value.Unsigned? then Some(v.value.n % 0x1_0000_0000) else None
  }

  ghost predicate AreNumbers(meta: seq<Entry>) {
    forall i :: 0 <= i < |meta| && meta[i].key <= 3 ==> meta[i].value.Unsigned?
  }

  function Or(a: Option<nat>, b: Option<nat>): Option<nat> {
    if a.Some? then a else b
  }

  lemma {:induction false} MetaKeysFrom(s: MetaState, meta: seq<Entry>)
    ensures Fold(MetaStep, s, meta)
         == if AreNumbers(meta) then
              Ok(MetaState(Or(Low32(LastOf(meta, 0)), s.mainOffset), Or(Low32(LastOf(meta, 1)), s.mainSize),
                           Or(Low32(LastOf(meta, 2)), s.auxOffset), Or(Low32(LastOf(meta, 3)), s.auxSize)))
            else Err(InvalidCbor)
    decreases |meta|
  {
    if meta != [] {
      var e := meta[0];
      assert AreNumbers(meta) <==> (e.key <= 3 ==> e.value.Unsigned?) && AreNumbers(meta[1..]) by {
        assert forall i :: 1 <= i < |meta| ==> meta[i] == meta[1..][i - 1];
        assert forall i :: 0 <= i < |meta| - 1 ==> meta[1..][i] == meta[i + 1];
      }
      if e.key > 3 || e.value.Unsigned? {
        LastNumbers(meta[1..]);
        MetaKeysFrom(MetaMeaning(s, e.key, e.value).value, meta[1..]);
      }
    }
  }

  lemma {:induction false} LastNumbers(meta: seq<Entry>)
    ensures AreNumbers(meta) ==>
      forall key :: 0 <= key <= 3 && LastOf(meta, key).Some? ==> LastOf(meta, key).value.Unsigned?
  {
    if meta != [] {
      LastNumbers(meta[1..]);
      assert AreNumbers(meta) ==> AreNumbers(meta[1..]) by {
        assert forall i :: 0 <= i < |meta| - 1 ==> meta[1..][i] == meta[i + 1];
      }
    }
  }

  /** Keys 0 to 3 are the offset and size of the main map, then those of the auxiliary map, each from the last entry
      with the key. */
  lemma MetaKeys(meta: seq<Entry>)
    ensures Fold(MetaStep, NO_REGIONS, meta)
         == if AreNumbers(meta) then
              Ok(MetaState(Low32(LastOf(meta, 0)), Low32(LastOf(meta, 1)),
                           Low32(LastOf(meta, 2)), Low32(LastOf(meta, 3))))
            else Err(InvalidCbor)
  {
    MetaKeysFrom(NO_REGIONS, meta);
  }

  /** The offsets and sizes a meta map asks for: what it gives, and otherwise: main right after meta, each map up to the
      other if that comes later, or to the end. */
  ghost predicate IsAsked(meta: seq<Entry>, metaEnd: nat, length: nat, main: (nat, nat), aux: Option<(nat, nat)>) {
    var mainOffset, mainSize := Low32(LastOf(meta, 0)), Low32(LastOf(meta, 1));
    var auxOffset, auxSize := Low32(LastOf(meta, 2)), Low32(LastOf(meta, 3));
    && main.0 == (if mainOffset.Some? then mainOffset.value else metaEnd)
    && main.1 == (if mainSize.Some? then mainSize.value
                  else if auxOffset.Some? && auxOffset.value > main.0 then auxOffset.value - main.0
                  else if length > main.0 then length - main.0
                  else 0)
    && (aux.Some? <==> auxOffset.Some?)
    && (aux.Some? ==>
          && aux.value.0 == auxOffset.value
          && aux.value.1 == if auxSize.Some? then auxSize.value
                            else if aux.value.0 < main.0 then main.0 - aux.value.0
                            else if length > aux.value.0 then length - aux.value.0
                            else 0)
  }

  /** Meta, main and auxiliary lie in the payload; main and auxiliary after meta and apart. */
  predicate AreApart(metaEnd: nat, length: nat, main: (nat, nat), aux: Option<(nat, nat)>) {
    && metaEnd <= 512 && metaEnd <= main.0 && main.0 + main.1 <= length
    && (aux.Some? ==>
          && metaEnd <= aux.value.0 && aux.value.0 + aux.value.1 <= length
          && (main.0 + main.1 <= aux.value.0 || aux.value.0 + aux.value.1 <= main.0))
  }

  lemma ArrangedExactly(meta: seq<Entry>, metaEnd: nat, length: nat, main: (nat, nat), aux: Option<(nat, nat)>)
    requires AreNumbers(meta) && length < 0x1_0000_0000 && IsAsked(meta, metaEnd, length, main, aux)
    ensures LayoutOf(meta, metaEnd, length)
         == if AreApart(metaEnd, length, main, aux) then Ok(Regions(main.0, main.1, aux)) else Err(InvalidMetaRegion)
  {
    LastNumbers(meta);
    MetaKeys(meta);
  }

  /** Exactly the regions that are asked for, if they are apart; a refusal otherwise. */
  lemma RegionsExactly(form: Form, meta: seq<Entry>, rest: Octets, main: (nat, nat), aux: Option<(nat, nat)>)
    requires IsMap(form, meta) && AreNumbers(meta) && |PutMap(form, meta) + rest| < 0x1_0000_0000
    requires IsAsked(meta, |PutMap(form, meta)|, |PutMap(form, meta) + rest|, main, aux)
    ensures RegionsOf(PutMap(form, meta) + rest)
         == if AreApart(|PutMap(form, meta)|, |PutMap(form, meta) + rest|, main, aux)
            then Ok(Regions(main.0, main.1, aux)) else Err(InvalidMetaRegion)
  {
    RegionsAreLaidOut(form, meta, rest);
    ArrangedExactly(meta, |PutMap(form, meta)|, |PutMap(form, meta) + rest|, main, aux);
  }

  /** Something is asked for by every meta map of numbers; any other is malformed. */
  lemma SomethingIsAsked(form: Form, meta: seq<Entry>, rest: Octets) returns (main: (nat, nat), aux: Option<(nat, nat)>)
    requires IsMap(form, meta)
    ensures AreNumbers(meta) ==> IsAsked(meta, |PutMap(form, meta)|, |PutMap(form, meta) + rest|, main, aux)
    ensures !AreNumbers(meta) ==> RegionsOf(PutMap(form, meta) + rest) == Err(InvalidCbor)
  {
    var metaEnd, length := |PutMap(form, meta)|, |PutMap(form, meta) + rest|;
    RegionsAreLaidOut(form, meta, rest);
    MetaKeys(meta);
    LastNumbers(meta);
    var mainOffset := GetOr(Low32(LastOf(meta, 0)), metaEnd);
    var auxOffset := Low32(LastOf(meta, 2));
    var end := if auxOffset.Some? && auxOffset.value > mainOffset then auxOffset.value else length;
    main := (mainOffset, GetOr(Low32(LastOf(meta, 1)), if end < mainOffset then 0 else end - mainOffset));
    aux := None;
    if auxOffset.Some? {
      var auxEnd := if mainOffset > auxOffset.value then mainOffset else length;
      aux := Some((auxOffset.value,
                   GetOr(Low32(LastOf(meta, 3)), if auxEnd < auxOffset.value then 0 else auxEnd - auxOffset.value)));
    }
  }

  // ---- The main map ----

  /** Integers of 64 signed bits, and binary floating point. */
  function AsNumber(v: Value): Option<Number> {
    if v.Unsigned? then Some(Whole(v.n))
    else if v.Negative? && v.n < 0x8000_0000_0000_0000 then Some(Whole(-1 - v.n))
    else if v.Float? then Some(Binary(v.bits, v.width))
    else None
  }

  /** Three bytes are an opaque colour, four have their own alpha. */
  function AsColor(v: Value): Option<Color> {
    if !v.ByteString? then None
    else if |v.b| == 3 then Some(Color(v.b[0], v.b[1], v.b[2], 0xff))
    else if |v.b| == 4 then Some(Color(v.b[0], v.b[1], v.b[2], v.b[3]))
    else None
  }

  const UUIDS: set<nat> := {0, 1, 2, 3}
  const GTIN: nat := 4
  const TEXTS: set<nat> := {5, 6, 7, 10, 11, 52}
  const CLASSES: set<nat> := {8, 9}
  const MEASURES: set<nat> := {16, 17, 18, 34, 35, 37, 38, 53, 54, 57, 58, 61, 62}
  const PRIMARY_COLOR: nat := 19
  const SECONDARY_COLORS: set<nat> := {20, 21, 22, 23, 24}

  predicate IsField(key: nat) {
    key in UUIDS || key == GTIN || key in TEXTS || key in CLASSES || key in MEASURES || key == PRIMARY_COLOR
    || key in SECONDARY_COLORS
  }

  /** What a value says under a key, if it has the key's type. */
  function Says(key: nat, v: Value): Option<Field> {
    if key in UUIDS && v.ByteString? && |v.b| == 16 then Some(Identifier(v.b))
    else if key == GTIN && v.Unsigned? then Some(Natural(v.n))
    else if key in TEXTS && v.TextString? then Some(Characters(v.b))
    else if key in CLASSES && v.Unsigned? && v.n <= 0xffff then Some(Natural(v.n))
    else if key in MEASURES && AsNumber(v).Some? then Some(Measure(AsNumber(v).value))
    else if (key == PRIMARY_COLOR || key in SECONDARY_COLORS) && AsColor(v).Some? then Some(Shade(AsColor(v).value))
    else None
  }

  lemma KeysOfKinds(key: nat)
    ensures KindOf(key)
         == if key in UUIDS then Uuid else if key == GTIN then Word else if key in TEXTS then Label
            else if key in CLASSES then Short else if key in MEASURES then Quantity
            else if key == PRIMARY_COLOR || key in SECONDARY_COLORS then Tint else Unknown
  {
  }

  lemma KeysAndTypes(e: Entry)
    ensures IsKnown(e) <==> IsField(e.key)
    ensures IsKnown(e) ==> TheReading(e) == Reading(e.key, Says(e.key, e.value))
    ensures IsSecondary(e.key) <==> e.key in SECONDARY_COLORS
  {
    NumbersAgree(e.value);
    KeysOfKinds(e.key);
    KeysAreApart(e.key);
  }

  /** No key has two types. */
  lemma KeysAreApart(key: nat)
    ensures key in UUIDS ==> key != GTIN && key !in TEXTS && key !in CLASSES && key !in MEASURES
    ensures key == GTIN ==> key !in TEXTS && key !in CLASSES && key !in MEASURES
    ensures key in TEXTS ==> key !in CLASSES && key !in MEASURES
    ensures key in CLASSES ==> key !in MEASURES
    ensures key == PRIMARY_COLOR || key in SECONDARY_COLORS ==>
      key !in UUIDS && key != GTIN && key !in TEXTS && key !in CLASSES && key !in MEASURES
  {
  }

  lemma NumbersAgree(v: Value)
    ensures NumberOf(v) == AsNumber(v)
    ensures v.ByteString? ==> ColorOf(v.b) == AsColor(v)
  {
    Powers();
  }

  ghost predicate AreTyped(entries: seq<Entry>) {
    forall i :: 0 <= i < |entries| && IsField(entries[i].key) ==> Says(entries[i].key, entries[i].value).Some?
  }

  /** The secondary colours, in the order of their entries. */
  function ColorsSaid(entries: seq<Entry>): seq<Color> {
    if entries == [] then []
    else
      var said := Says(entries[0].key, entries[0].value);
      (if entries[0].key in SECONDARY_COLORS && said.Some? && said.value.Shade? then [said.value.color] else [])
      + ColorsSaid(entries[1..])
  }

  ghost predicate HoldsLast(fields: map<nat, Field>, entries: seq<Entry>) {
    forall key: nat ::
      if IsField(key) && key !in SECONDARY_COLORS && LastOf(entries, key).Some?
      then key in fields && Says(key, LastOf(entries, key).value) == Some(fields[key])
      else key !in fields
  }

  lemma TypedStep(entries: seq<Entry>)
    requires entries != []
    ensures var e := entries[0];
      AreTyped(entries) <==> (IsField(e.key) ==> Says(e.key, e.value).Some?) && AreTyped(entries[1..])
  {
    assert forall i :: 1 <= i < |entries| ==> entries[i] == entries[1..][i - 1];
    assert forall i :: 0 <= i < |entries| - 1 ==> entries[1..][i] == entries[i + 1];
  }

  lemma ReadStep(r: Reading, rs: seq<Reading>)
    ensures AllRead([r] + rs) <==> r.field.Some? && AllRead(rs)
    ensures FieldsIn([r] + rs)
         == if Collects(r) || r.field.None? then FieldsIn(rs) else map[r.key := r.field.value] + FieldsIn(rs)
    ensures ColorsIn([r] + rs) == if Collects(r) then [r.field.value.color] + ColorsIn(rs) else ColorsIn(rs)
  {
    var all := [r] + rs;
    assert all[0] == r && all[1..] == rs;
    assert forall i :: 0 <= i < |rs| ==> rs[i] == all[i + 1];
  }

  lemma HeldLonger(fields: map<nat, Field>, entries: seq<Entry>)
    requires entries != [] && HoldsLast(fields, entries[1..])
    requires IsField(entries[0].key) ==> Says(entries[0].key, entries[0].value).Some?
    ensures var e := entries[0];
      if !IsField(e.key) || e.key in SECONDARY_COLORS then HoldsLast(fields, entries)
      else HoldsLast(map[e.key := Says(e.key, e.value).value] + fields, entries)
  {
  }

  lemma {:induction false} ReadingsSay(entries: seq<Entry>)
    ensures AllRead(Readings(entries)) <==> AreTyped(entries)
    ensures AreTyped(entries) ==> HoldsLast(FieldsIn(Readings(entries)), entries)
    ensures AreTyped(entries) ==> ColorsIn(Readings(entries)) == ColorsSaid(entries)
  {
    if entries != [] {
      var e, rest := entries[0], Readings(entries[1..]);
      ReadingsSay(entries[1..]);
      TypedStep(entries);
      KeysAndTypes(e);
      if IsKnown(e) {
        assert Readings(entries) == [TheReading(e)] + rest;
        ReadStep(TheReading(e), rest);
      } else {
        assert Readings(entries) == rest;
      }
      if AreTyped(entries) {
        HeldLonger(FieldsIn(rest), entries);
      }
    }
  }

  /** Every written main map: a value of a wrong type is malformed, then more than 512 bytes are refused, then a missing
      class; otherwise every field is what the last entry with its key says, under no other keys, and the secondary
      colours come in order. */
  lemma MainSays(form: Form, entries: seq<Entry>, rest: Octets)
    requires IsMap(form, entries)
    ensures var r := MainOf(PutMap(form, entries) + rest);
      if !AreTyped(entries) then r == Err(InvalidCbor)
      else if |PutMap(form, entries)| > 512 then r == Err(InvalidMainRegion)
      else if LastOf(entries, 8).None? then r == Err(MissingMaterialClass)
      else
        && r.Ok? && HoldsLast(r.value.fields, entries) && r.value.secondary == ColorsSaid(entries)
        && r.value.consumed.None? && r.value.location.None? && r.value.ndefUri.None?
  {
    MainRoundTrip(form, entries, rest);
    MeaningIsVerdict(entries, |PutMap(form, entries)|);
    VerdictSays(entries, |PutMap(form, entries)|);
  }

  lemma VerdictSays(entries: seq<Entry>, size: nat)
    ensures var r := Verdict(Readings(entries), size);
      if !AreTyped(entries) then r == Err(InvalidCbor)
      else if size > 512 then r == Err(InvalidMainRegion)
      else if LastOf(entries, 8).None? then r == Err(MissingMaterialClass)
      else
        && r.Ok? && HoldsLast(r.value.fields, entries) && r.value.secondary == ColorsSaid(entries)
        && r.value.consumed.None? && r.value.location.None? && r.value.ndefUri.None?
  {
    ReadingsSay(entries);
  }

  // ---- The auxiliary map ----

  function TextIn(v: Option<Value>): Option<Octets> {
    if v.Some? && v.value.TextString? then Some(v.value.b) else None
  }

  function NumberIn(v: Option<Value>): Option<Number> {
    if v.Some? then AsNumber(v.value) else None
  }

  predicate AuxTyped(e: Entry) {
    (e.key == 0 ==> AsNumber(e.value).Some?) && (e.key == 4 ==> e.value.TextString?)
  }

  function OrNumber(a: Option<Number>, b: Option<Number>): Option<Number> {
    if a.Some? then a else b
  }

  function OrText(a: Option<Octets>, b: Option<Octets>): Option<Octets> {
    if a.Some? then a else b
  }

  lemma {:induction false} AuxKeysFrom(s: AuxState, entries: seq<Entry>)
    ensures Fold(AuxStep, s, entries)
         == if forall i :: 0 <= i < |entries| ==> AuxTyped(entries[i]) then
              Ok(AuxState(OrNumber(NumberIn(LastOf(entries, 0)), s.consumed),
                          OrText(TextIn(LastOf(entries, 4)), s.location)))
            else Err(InvalidCbor)
    ensures (forall i :: 0 <= i < |entries| ==> AuxTyped(entries[i])) ==>
      && NumberIn(LastOf(entries, 0)).Some? == LastOf(entries, 0).Some?
      && TextIn(LastOf(entries, 4)).Some? == LastOf(entries, 4).Some?
    decreases |entries|
  {
    if entries != [] {
      var e, tail := entries[0], entries[1..];
      NumbersAgree(e.value);
      assert (forall i :: 0 <= i < |entries| ==> AuxTyped(entries[i]))
        <==> AuxTyped(e) && forall i :: 0 <= i < |tail| ==> AuxTyped(tail[i]) by {
        assert forall i :: 1 <= i < |entries| ==> entries[i] == tail[i - 1];
        assert forall i :: 0 <= i < |tail| ==> tail[i] == entries[i + 1];
      }
      if AuxTyped(e) {
        AuxKeysFrom(AuxMeaning(s, e.key, e.value).value, tail);
      }
    }
  }

  /** Key 0 of an auxiliary map is the weight used up, key 4 the storage place, each from its last entry; nothing else
      of the tag changes. */
  lemma AuxSays(form: Form, entries: seq<Entry>, rest: Octets, tag: Tag)
    requires IsMap(form, entries)
    ensures AuxOf(PutMap(form, entries) + rest, tag)
         == if exists i :: 0 <= i < |entries| && !AuxTyped(entries[i]) then Err(InvalidCbor)
            else if |PutMap(form, entries)| > 512 then Err(InvalidAuxRegion)
            else Ok(tag.(consumed := NumberIn(LastOf(entries, 0)), location := TextIn(LastOf(entries, 4))))
  {
    AuxRoundTrip(form, entries, rest, tag);
    AuxKeysFrom(EMPTY_AUX, entries);
  }
}
