/** The OpenPrintTag payload: a meta map that places a main map and an optional auxiliary map. */
module OpenPrintTag {
  import opened Text
  import opened Bytes
  import opened Cbor
  import opened Ndef

  const MAX_SECTION_SIZE: nat := 512
  const USIZE: nat := 0x1_0000_0000

  // ---- Visiting a map ----

  /** What a visitor makes of a key and the bytes after it. */
  type Visit<!S> = (S, nat, Octets) -> Result<(S, Octets), Error>

  /** A visitor never gives back more than it was given. */
  ghost predicate Consuming<S(!new)>(visit: Visit<S>) {
    forall s, key, d :: visit(s, key, d).Ok? ==> |visit(s, key, d).value.1| <= |d|
  }

  /** One key and what the visitor makes of it. */
  function VisitEntry<S>(visit: Visit<S>, s: S, d: Octets): Result<(S, Octets), Error> {
    match ReadUnsigned(d)
    case None => Err(InvalidCbor)
    case Some((key, rest)) => visit(s, key, rest)
  }

  function VisitCounted<S>(visit: Visit<S>, s: S, d: Octets, count: nat): Result<(S, Octets), Error>
    decreases count
  {
    if count == 0 then Ok((s, d))
    else match VisitEntry(visit, s, d)
      case Err(e) => Err(e)
      case Ok((next, rest)) => VisitCounted(visit, next, rest, count - 1)
  }

  function VisitOpen<S(!new)>(visit: Visit<S>, s: S, d: Octets): Result<(S, Octets), Error>
    requires Consuming(visit)
    decreases |d|
  {
    if d == [] then Err(InvalidCbor)
    else if d[0] == BREAK then Ok((s, d[1..]))
    else match VisitEntry(visit, s, d)
      case Err(e) => Err(e)
      case Ok((next, rest)) => VisitOpen(visit, next, rest)
  }

  /** The head of a map: its count, unless the length is indefinite, and what follows. */
  function ReadMap(d: Octets): Option<(Option<nat>, Octets)> {
    match ReadHead(d)
    case None => None
    case Some(h) =>
      if h.major != 5 then None
      else Some((if h.info == INDEFINITE then None else Some(h.argument), d[h.size..]))
  }

  function VisitAll<S(!new)>(visit: Visit<S>, s: S, d: Octets, count: Option<nat>): Result<(S, Octets), Error>
    requires Consuming(visit)
  {
    if count.Some? then VisitCounted(visit, s, d, count.value) else VisitOpen(visit, s, d)
  }

  /** `visit_map` */
  method VisitMap<S(!new)>(visit: Visit<S>, initial: S, data: Octets, count: Option<nat>)
      returns (r: Result<(S, Octets), Error>)
    requires Consuming(visit)
    ensures r == VisitAll(visit, initial, data, count)
  {
    var s, d := initial, data;
    match count {
      case Some(n) =>
        var i := 0;
        while i < n
          invariant 0 <= i <= n
          invariant VisitAll(visit, initial, data, count) == VisitCounted(visit, s, d, n - i)
        {
          var entry := VisitEntry(visit, s, d);
          if entry.Err? {
            return Err(entry.error);
          }
          s, d := entry.value.0, entry.value.1;
          i := i + 1;
        }
      case None =>
        while true
          invariant VisitAll(visit, initial, data, count) == VisitOpen(visit, s, d)
          decreases |d|
        {
          if d == [] {
            return Err(InvalidCbor);
          }
          if d[0] == BREAK {
            d := d[1..];
            break;
          }
          var entry := VisitEntry(visit, s, d);
          if entry.Err? {
            return Err(entry.error);
          }
          s, d := entry.value.0, entry.value.1;
        }
    }
    return Ok((s, d));
  }

  // ---- Typed fields ----

  datatype Kind = Uuid | Word | Short | Label | Quantity | Tint | Unknown

  datatype Number = Whole(n: int) | Binary(bits: nat, width: nat)

  datatype Color = Color(red: byte, green: byte, blue: byte, alpha: byte)

  datatype Field =
    | Identifier(b: Octets) | Natural(n: nat) | Characters(b: Octets) | Measure(value: Number) | Shade(color: Color)

  /** The type `decode_main` reads for each key. */
  function KindOf(key: nat): Kind {
    if key <= 3 then Uuid
    else if key == 4 then Word
    else if key in {5, 6, 7, 10, 11, 52} then Label
    else if key in {8, 9} then Short
    else if 19 <= key <= 24 then Tint
    else if key in {16, 17, 18, 34, 35, 37, 38, 53, 54, 57, 58, 61, 62} then Quantity
    else Unknown
  }

  predicate IsSecondary(key: nat) {
    20 <= key <= 24
  }

  function ColorOf(b: Octets): Option<Color> {
    if |b| == 3 then Some(Color(b[0], b[1], b[2], 255))
    else if |b| == 4 then Some(Color(b[0], b[1], b[2], b[3]))
    else None
  }

  /** `decode_number`: integers up to 64 signed bits and binary floating point of three widths. */
  function ReadNumber(d: Octets): Option<(Number, Octets)> {
    match ReadHead(d)
    case None => None
    case Some(h) =>
      if h.info == INDEFINITE then None
      else if h.major == 0 then Some((Whole(h.argument), d[h.size..]))
      else if h.major == 1 && h.argument < Power256(8) / 2 then Some((Whole(-1 - h.argument), d[h.size..]))
      else if h.major == 7 && h.info > 24 then Some((Binary(h.argument, ArgumentWidth(h.info)), d[h.size..]))
      else None
  }

  function ReadField(kind: Kind, d: Octets): Option<(Field, Octets)> {
    match kind
    case Uuid =>
      (match ReadString(d, 2)
       case None => None
       case Some((b, rest)) => if |b| == 16 then Some((Identifier(b), rest)) else None)
    case Word =>
      (match ReadUnsigned(d)
       case None => None
       case Some((n, rest)) => Some((Natural(n), rest)))
    case Short =>
      (match ReadUnsigned(d)
       case None => None
       case Some((n, rest)) => if n < 0x1_0000 then Some((Natural(n), rest)) else None)
    case Label =>
      (match ReadString(d, 3)
       case None => None
       case Some((b, rest)) => if IsUtf8(b) then Some((Characters(b), rest)) else None)
    case Quantity =>
      (match ReadNumber(d)
       case None => None
       case Some((n, rest)) => Some((Measure(n), rest)))
    case Tint =>
      (match ReadString(d, 2)
       case None => None
       case Some((b, rest)) => if ColorOf(b).Some? then Some((Shade(ColorOf(b).value), rest)) else None)
    case Unknown => None
  }

  lemma FieldsConsume(kind: Kind, d: Octets)
    ensures ReadField(kind, d).Some? ==> |ReadField(kind, d).value.1| <= |d|
  {
  }

  // ---- The three visitors ----

  datatype MainState = MainState(fields: map<nat, Field>, secondary: seq<Color>)

  function Stored(s: MainState, key: nat, f: Field): MainState {
    if IsSecondary(key) && f.Shade? then s.(secondary := s.secondary + [f.color]) else s.(fields := s.fields[key := f])
  }

  const VisitMain: Visit<MainState> := (s: MainState, key: nat, d: Octets) => MainVisit(s, key, d)

  function MainVisit(s: MainState, key: nat, d: Octets): Result<(MainState, Octets), Error> {
    if KindOf(key) == Unknown then
      match SkipItem(d)
      case None => Err(InvalidCbor)
      case Some(rest) => Ok((s, rest))
    else
      match ReadField(KindOf(key), d)
      case None => Err(InvalidCbor)
      case Some((f, rest)) => Ok((Stored(s, key, f), rest))
  }

  datatype AuxState = AuxState(consumed: Option<Number>, location: Option<Octets>)

  function AuxKind(key: nat): Kind {
    if key == 0 then Quantity else if key == 4 then Label else Unknown
  }

  function AuxStored(s: AuxState, f: Field): AuxState {
    match f
    case Measure(n) => s.(consumed := Some(n))
    case Characters(b) => s.(location := Some(b))
    case _ => s
  }

  const VisitAux: Visit<AuxState> := (s: AuxState, key: nat, d: Octets) => AuxVisit(s, key, d)

  function AuxVisit(s: AuxState, key: nat, d: Octets): Result<(AuxState, Octets), Error> {
    if AuxKind(key) == Unknown then
      match SkipItem(d)
      case None => Err(InvalidCbor)
      case Some(rest) => Ok((s, rest))
    else
      match ReadField(AuxKind(key), d)
      case None => Err(InvalidCbor)
      case Some((f, rest)) => Ok((AuxStored(s, f), rest))
  }

  datatype MetaState = MetaState(mainOffset: Option<nat>, mainSize: Option<nat>, auxOffset: Option<nat>,
                                 auxSize: Option<nat>)

  function Placed(s: MetaState, key: nat, n: nat): MetaState {
    if key == 0 then s.(mainOffset := Some(n))
    else if key == 1 then s.(mainSize := Some(n))
    else if key == 2 then s.(auxOffset := Some(n))
    else s.(auxSize := Some(n))
  }

  const VisitMeta: Visit<MetaState> := (s: MetaState, key: nat, d: Octets) => MetaVisit(s, key, d)

  /** `u64 as usize` keeps the low 32 bits. */
  function MetaVisit(s: MetaState, key: nat, d: Octets): Result<(MetaState, Octets), Error> {
    if key > 3 then
      match SkipItem(d)
      case None => Err(InvalidCbor)
      case Some(rest) => Ok((s, rest))
    else
      match ReadUnsigned(d)
      case None => Err(InvalidCbor)
      case Some((n, rest)) => Ok((Placed(s, key, n % USIZE), rest))
  }

  lemma VisitorsConsume()
    ensures Consuming(VisitMain) && Consuming(VisitAux) && Consuming(VisitMeta)
  {
    forall s: MainState, key: nat, d: Octets | VisitMain(s, key, d).Ok? ensures |VisitMain(s, key, d).value.1| <= |d| {
      FieldsConsume(KindOf(key), d);
    }
    forall s: AuxState, key: nat, d: Octets | VisitAux(s, key, d).Ok? ensures |VisitAux(s, key, d).value.1| <= |d| {
      FieldsConsume(AuxKind(key), d);
    }
  }

  // ---- Regions ----

  datatype Regions = Regions(mainOffset: nat, mainSize: nat, aux: Option<(nat, nat)>)

  function CheckedAdd(a: nat, b: nat): Option<nat> {
    if a + b < USIZE then Some(a + b) else None
  }

  function SaturatingSub(a: nat, b: nat): nat {
    if a < b then 0 else a - b
  }

  function GetOr(o: Option<nat>, default: nat): nat {
    if o.Some? then o.value else default
  }

  /** The arithmetic of `decode_regions`, after the map. */
  function Arrange(length: nat, metaEnd: nat, s: MetaState): Result<Regions, Error> {
    var mainOffset := GetOr(s.mainOffset, metaEnd);
    var afterMain := if s.auxOffset.Some? && s.auxOffset.value > mainOffset then s.auxOffset.value else length;
    var mainSize := GetOr(s.mainSize, SaturatingSub(afterMain, mainOffset));
    if metaEnd > MAX_SECTION_SIZE || mainOffset < metaEnd || mainOffset > length then Err(InvalidMetaRegion)
    else if s.auxOffset.Some? && (s.auxOffset.value < metaEnd || s.auxOffset.value > length) then Err(InvalidMetaRegion)
    else
      var mainEnd := CheckedAdd(mainOffset, mainSize);
      if mainEnd.None? || mainEnd.value > length then Err(InvalidMetaRegion)
      else match s.auxOffset
        case None => Ok(Regions(mainOffset, mainSize, None))
        case Some(auxOffset) =>
          var afterAux := if auxOffset < mainOffset then mainOffset else length;
          var auxSize := GetOr(s.auxSize, SaturatingSub(afterAux, auxOffset));
          var auxEnd := CheckedAdd(auxOffset, auxSize);
          if auxEnd.None? || auxEnd.value > length then Err(InvalidMetaRegion)
          else if mainOffset < auxEnd.value && auxOffset < mainEnd.value then Err(InvalidMetaRegion)
          else Ok(Regions(mainOffset, mainSize, Some((auxOffset, auxSize))))
  }

  const NO_REGIONS := MetaState(None, None, None, None)

  /** The meta map and where it ends. */
  function MetaOf(payload: Octets): Result<(MetaState, nat), Error> {
    VisitorsConsume();
    match ReadMap(payload)
    case None => Err(InvalidCbor)
    case Some((count, d)) =>
      match VisitAll(VisitMeta, NO_REGIONS, d, count)
      case Err(e) => Err(e)
      case Ok((s, rest)) => Ok((s, SaturatingSub(|payload|, |rest|)))
  }

  function RegionsOf(payload: Octets): Result<Regions, Error> {
    match MetaOf(payload)
    case Err(e) => Err(e)
    case Ok((s, metaEnd)) => Arrange(|payload|, metaEnd, s)
  }

  /** `decode_regions` */
  method DecodeRegions(payload: Octets) returns (r: Result<Regions, Error>)
    ensures r == RegionsOf(payload)
  {
    VisitorsConsume();
    var map_ := ReadMap(payload);
    if map_.None? {
      return Err(InvalidCbor);
    }
    var (count, d) := map_.value;
    var visited := VisitMap(VisitMeta, NO_REGIONS, d, count);
    if visited.Err? {
      return Err(visited.error);
    }
    var (s, rest) := visited.value;
    var metaEnd := SaturatingSub(|payload|, |rest|);
    var mainOffset := GetOr(s.mainOffset, metaEnd);
    var nextRegion := if s.auxOffset.Some? && s.auxOffset.value > mainOffset then s.auxOffset.value else |payload|;
    var mainSize := GetOr(s.mainSize, SaturatingSub(nextRegion, mainOffset));
    if metaEnd > MAX_SECTION_SIZE || mainOffset < metaEnd || mainOffset > |payload| {
      return Err(InvalidMetaRegion);
    }
    var aux: Option<(nat, nat)> := None;
    if s.auxOffset.Some? {
      var offset := s.auxOffset.value;
      nextRegion := if offset < mainOffset then mainOffset else |payload|;
      var size := GetOr(s.auxSize, SaturatingSub(nextRegion, offset));
      if offset < metaEnd || offset > |payload| {
        return Err(InvalidMetaRegion);
      }
      aux := Some((offset, size));
    }
    var mainEnd := CheckedAdd(mainOffset, mainSize);
    if mainEnd.None? || mainEnd.value > |payload| {
      return Err(InvalidMetaRegion);
    }
    if aux.Some? {
      var (auxOffset, auxSize) := aux.value;
      var auxEnd := CheckedAdd(auxOffset, auxSize);
      if auxEnd.None? || auxEnd.value > |payload| {
        return Err(InvalidMetaRegion);
      }
      if mainOffset < auxEnd.value && auxOffset < mainEnd.value {
        return Err(InvalidMetaRegion);
      }
    }
    return Ok(Regions(mainOffset, mainSize, aux));
  }

  /** Two stretches of the payload without a byte in common. */
  predicate Disjoint(a: nat, aSize: nat, b: nat, bSize: nat) {
    a + aSize <= b || b + bSize <= a
  }

  /** For every byte string: accepted regions lie inside the payload, after the meta map, and no two of
      meta, main and auxiliary share a byte. */
  lemma AcceptedRegionsAreSound(payload: Octets)
    requires RegionsOf(payload).Ok?
    ensures var r := RegionsOf(payload).value;
      var metaEnd := MetaOf(payload).value.1;
      && metaEnd <= MAX_SECTION_SIZE
      && r.mainOffset + r.mainSize <= |payload|
      && Disjoint(0, metaEnd, r.mainOffset, r.mainSize)
      && (r.aux.Some? ==>
            && r.aux.value.0 + r.aux.value.1 <= |payload|
            && Disjoint(0, metaEnd, r.aux.value.0, r.aux.value.1)
            && Disjoint(r.mainOffset, r.mainSize, r.aux.value.0, r.aux.value.1))
  {
  }

  /** The sums `decode_payload` forms again do not overflow. */
  lemma SumsStayInside(payload: Octets)
    requires RegionsOf(payload).Ok?
    ensures var r := RegionsOf(payload).value;
      && CheckedAdd(r.mainOffset, r.mainSize) == Some(r.mainOffset + r.mainSize)
      && r.mainOffset + r.mainSize <= |payload|
      && (r.aux.Some? ==>
            CheckedAdd(r.aux.value.0, r.aux.value.1) == Some(r.aux.value.0 + r.aux.value.1)
            && r.aux.value.0 + r.aux.value.1 <= |payload|)
  {
  }

  /** With both sizes omitted and the offsets distinct, main and auxiliary tile the payload from the lower
      offset to its end, whichever comes first. */
  lemma OmittedSizesTile(length: nat, metaEnd: nat, s: MetaState)
    requires s.mainSize.None? && s.auxSize.None? && s.auxOffset.Some?
             && s.auxOffset.value != GetOr(s.mainOffset, metaEnd)
    requires length < USIZE
    ensures Arrange(length, metaEnd, s).Ok? <==>
      && metaEnd <= MAX_SECTION_SIZE
      && metaEnd <= GetOr(s.mainOffset, metaEnd) <= length && metaEnd <= s.auxOffset.value <= length
    ensures Arrange(length, metaEnd, s).Ok? ==>
      var r := Arrange(length, metaEnd, s).value;
      && r.mainOffset == GetOr(s.mainOffset, metaEnd) && r.aux.Some? && r.aux.value.0 == s.auxOffset.value
      && (if r.mainOffset < r.aux.value.0
          then r.mainOffset + r.mainSize == r.aux.value.0 && r.aux.value.0 + r.aux.value.1 == length
          else r.aux.value.0 + r.aux.value.1 == r.mainOffset && r.mainOffset + r.mainSize == length)
  {
  }

  // ---- The maps ----

  datatype Tag = Tag(fields: map<nat, Field>, secondary: seq<Color>, consumed: Option<Number>, location: Option<Octets>,
                     ndefUri: Option<Octets>)

  const MATERIAL_CLASS: nat := 8
  const EMPTY_MAIN := MainState(map[], [])
  const EMPTY_AUX := AuxState(None, None)

  function FinishMain(s: MainState, size: int): Result<Tag, Error> {
    if size > MAX_SECTION_SIZE then Err(InvalidMainRegion)
    else if MATERIAL_CLASS !in s.fields then Err(MissingMaterialClass)
    else Ok(Tag(s.fields, s.secondary, None, None, None))
  }

  function FinishAux(tag: Tag, s: AuxState, size: int): Result<Tag, Error> {
    if size > MAX_SECTION_SIZE then Err(InvalidAuxRegion) else Ok(tag.(consumed := s.consumed, location := s.location))
  }

  function MainOf(data: Octets): Result<Tag, Error> {
    VisitorsConsume();
    match ReadMap(data)
    case None => Err(InvalidCbor)
    case Some((count, d)) =>
      match VisitAll(VisitMain, EMPTY_MAIN, d, count)
      case Err(e) => Err(e)
      case Ok((s, rest)) => FinishMain(s, |data| - |rest|)
  }

  function AuxOf(data: Octets, tag: Tag): Result<Tag, Error> {
    VisitorsConsume();
    match ReadMap(data)
    case None => Err(InvalidCbor)
    case Some((count, d)) =>
      match VisitAll(VisitAux, EMPTY_AUX, d, count)
      case Err(e) => Err(e)
      case Ok((s, rest)) => FinishAux(tag, s, |data| - |rest|)
  }

  /** `decode_main` */
  method DecodeMain(data: Octets) returns (r: Result<Tag, Error>)
    ensures r == MainOf(data)
  {
    VisitorsConsume();
    var map_ := ReadMap(data);
    if map_.None? {
      return Err(InvalidCbor);
    }
    var (count, d) := map_.value;
    var visited := VisitMap(VisitMain, EMPTY_MAIN, d, count);
    if visited.Err? {
      return Err(visited.error);
    }
    var (s, rest) := visited.value;
    if |data| - |rest| > MAX_SECTION_SIZE {
      return Err(InvalidMainRegion);
    }
    if MATERIAL_CLASS !in s.fields {
      return Err(MissingMaterialClass);
    }
    return Ok(Tag(s.fields, s.secondary, None, None, None));
  }

  /** `decode_aux` */
  method DecodeAux(data: Octets, tag: Tag) returns (r: Result<Tag, Error>)
    ensures r == AuxOf(data, tag)
  {
    VisitorsConsume();
    var map_ := ReadMap(data);
    if map_.None? {
      return Err(InvalidCbor);
    }
    var (count, d) := map_.value;
    var visited := VisitMap(VisitAux, EMPTY_AUX, d, count);
    if visited.Err? {
      return Err(visited.error);
    }
    var (s, rest) := visited.value;
    if |data| - |rest| > MAX_SECTION_SIZE {
      return Err(InvalidAuxRegion);
    }
    return Ok(tag.(consumed := s.consumed, location := s.location));
  }

  function Part(d: Octets, offset: nat, size: nat): Octets {
    if offset + size <= |d| then d[offset..offset + size] else []
  }

  function WithAux(main: Result<Tag, Error>, payload: Octets, aux: Option<(nat, nat)>): Result<Tag, Error> {
    if main.Err? || aux.None? then main
    else AuxOf(Part(payload, aux.value.0, aux.value.1), main.value)
  }

  function PartsOf(payload: Octets, regions: Regions): Result<Tag, Error> {
    WithAux(MainOf(Part(payload, regions.mainOffset, regions.mainSize)), payload, regions.aux)
  }

  /** A payload's meaning, with no bounds check after the regions. */
  function PayloadOf(payload: Octets): Result<Tag, Error> {
    match RegionsOf(payload)
    case Err(e) => Err(e)
    case Ok(regions) => PartsOf(payload, regions)
  }

  /** `decode_payload`: its own bounds checks are there, and never fail. */
  method DecodePayload(payload: Octets) returns (r: Result<Tag, Error>)
    ensures r == PayloadOf(payload)
  {
    var decoded := DecodeRegions(payload);
    if decoded.Err? {
      return Err(decoded.error);
    }
    SumsStayInside(payload);
    r := DecodeParts(payload, decoded.value);
  }

  method DecodeParts(payload: Octets, regions: Regions) returns (r: Result<Tag, Error>)
    requires CheckedAdd(regions.mainOffset, regions.mainSize).Some?
             && regions.mainOffset + regions.mainSize <= |payload|
    requires regions.aux.Some? ==>
      CheckedAdd(regions.aux.value.0, regions.aux.value.1).Some?
        && regions.aux.value.0 + regions.aux.value.1 <= |payload|
    ensures r == PartsOf(payload, regions)
  {
    var mainEnd := CheckedAdd(regions.mainOffset, regions.mainSize);
    if mainEnd.None? || mainEnd.value > |payload| {
      return Err(InvalidMainRegion);
    }
    var main := DecodeMain(payload[regions.mainOffset..mainEnd.value]);
    r := DecodeAuxPart(main, payload, regions.aux);
  }

  method DecodeAuxPart(main: Result<Tag, Error>, payload: Octets, aux: Option<(nat, nat)>)
      returns (r: Result<Tag, Error>)
    requires aux.Some? ==> CheckedAdd(aux.value.0, aux.value.1).Some? && aux.value.0 + aux.value.1 <= |payload|
    ensures r == WithAux(main, payload, aux)
  {
    if main.Err? || aux.None? {
      return main;
    }
    var (offset, size) := aux.value;
    var end := CheckedAdd(offset, size);
    if end.None? || end.value > |payload| {
      return Err(InvalidAuxRegion);
    }
    r := DecodeAux(payload[offset..end.value], main.value);
  }

  function MemoryOf(memory: Octets): Result<Tag, Error> {
    match MessageOf(memory)
    case Err(e) => Err(e)
    case Ok(message) =>
      match FirstPayload(WalkFrom(message))
      case Err(e) => Err(e)
      case Ok(payload) =>
        match PayloadOf(payload)
        case Err(e) => Err(e)
        case Ok(tag) => Ok(tag.(ndefUri := FirstUri(WalkFrom(message).records, true)))
  }

  /** `decode_tag_memory` */
  method DecodeTagMemory(memory: Octets) returns (r: Result<Tag, Error>)
    ensures r == MemoryOf(memory)
  {
    var message := FindNdefMessage(memory);
    if message.Err? {
      return Err(message.error);
    }
    var payload := FindOpenPrintTagPayload(message.value);
    if payload.Err? {
      return Err(payload.error);
    }
    var tag := DecodePayload(payload.value);
    if tag.Err? {
      return Err(tag.error);
    }
    var uri := FindNdefUri(message.value, true);
    return Ok(tag.value.(ndefUri := uri));
  }
}
