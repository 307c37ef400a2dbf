/** Packaging a release for the browser installer, and what flashing the parts does to a device. */
module WebInstaller {
  import opened Text
  import opened Bytes

  const FLASH_SIZE: nat := 0x1000000
  const TABLE: nat := 0x8000
  const ENTRY_SIZE: nat := 32
  const APP_OFFSET: nat := 0x200000
  const APP_SIZE: nat := 0x700000
  const IMAGE_MAGIC: byte := 0xe9
  const ERASED: byte := 0xff

  datatype Partition = Partition(kind: byte, subtype: byte, offset: nat, size: nat, name: Octets)

  const LAYOUT: seq<Partition> := [
    Partition(1, 0, 0x9000, 0x2000, Ascii("otadata")),
    Partition(0x40, 1, 0xB000, 0x1000, Ascii("lic")),
    Partition(1, 2, 0xC000, 0x6000, Ascii("nvs")),
    Partition(1, 1, 0x12000, 0x1000, Ascii("phy_init")),
    Partition(0x40, 1, 0x13000, 0x100000, Ascii("map")),
    Partition(0, 0x10, 0x200000, 0x700000, Ascii("ota_0")),
    Partition(0, 0x11, 0x900000, 0x700000, Ascii("ota_1"))]

  const TABLE_END: nat := TABLE + 7 * ENTRY_SIZE

  // ---- The partition table ----

  function Little2(b: Octets): nat
    requires |b| == 2
  {
    var low: int, high: int := b[0], b[1];
    low + 256 * high
  }

  function Little4(b: Octets): nat
    requires |b| == 4
  {
    Little2(b[..2]) + 0x1_0000 * Little2(b[2..])
  }

  function PutLittle2(n: nat): (b: Octets)
    requires n < 0x1_0000
    ensures |b| == 2
  {
    [n % 256, n / 256]
  }

  function PutLittle4(n: nat): (b: Octets)
    requires n < 0x1_0000_0000
    ensures |b| == 4
  {
    PutLittle2(n % 0x1_0000) + PutLittle2(n / 0x1_0000)
  }

  function Zeros(n: nat): (z: Octets)
    ensures |z| == n
  {
    seq(n, _ => 0)
  }

  /** `rstrip(b"\\0")` */
  function WithoutZeros(b: Octets): Octets {
    if b != [] && b[|b| - 1] == 0 then WithoutZeros(b[..|b| - 1]) else b
  }

  /** `struct.unpack("<HBBII16sI", ...)` with the name stripped. */
  datatype Row = Row(magic: nat, partition: Partition, flags: nat)

  function ReadRow(b: Octets): Row
    requires |b| == ENTRY_SIZE
  {
    Row(Little2(b[..2]), Partition(b[2], b[3], Little4(b[4..8]), Little4(b[8..12]), WithoutZeros(b[12..28])),
        Little4(b[28..32]))
  }

  /** A row as the partition tool writes it. */
  function PutRow(p: Partition): Octets
    requires p.offset < 0x1_0000_0000 && p.size < 0x1_0000_0000 && |p.name| <= 16
  {
    [0xaa, 0x50, p.kind, p.subtype] + PutLittle4(p.offset) + PutLittle4(p.size) + (p.name + Zeros(16 - |p.name|))
      + Zeros(4)
  }

  lemma Little4RoundTrip(b: Octets, n: nat)
    requires |b| == 4 && n < 0x1_0000_0000
    ensures Little4(b) == n <==> b == PutLittle4(n)
  {
    var low, high := b[..2], b[2..];
    assert b == low + high;
    Little2RoundTrip(low, n % 0x1_0000);
    Little2RoundTrip(high, n / 0x1_0000);
    assert PutLittle4(n)[..2] == PutLittle2(n % 0x1_0000) && PutLittle4(n)[2..] == PutLittle2(n / 0x1_0000);
    HalvesAreUnique(Little2(low), Little2(high), n);
  }

  lemma HalvesAreUnique(low: nat, high: nat, n: nat)
    requires low < 0x1_0000
    ensures low + 0x1_0000 * high == n <==> low == n % 0x1_0000 && high == n / 0x1_0000
  {
  }

  lemma Little2RoundTrip(b: Octets, n: nat)
    requires |b| == 2 && n < 0x1_0000
    ensures Little2(b) == n <==> b == PutLittle2(n)
  {
  }

  lemma {:induction false} ZerosStrip(name: Octets, n: nat)
    requires name == [] || name[|name| - 1] != 0
    ensures WithoutZeros(name + Zeros(n)) == name
  {
    if n > 0 {
      assert (name + Zeros(n))[..|name + Zeros(n)| - 1] == name + Zeros(n - 1);
      ZerosStrip(name, n - 1);
    } else {
      assert name + Zeros(0) == name;
    }
  }

  lemma {:induction false} StrippedIsPadded(b: Octets)
    ensures |WithoutZeros(b)| <= |b| && b == WithoutZeros(b) + Zeros(|b| - |WithoutZeros(b)|)
  {
    if b != [] && b[|b| - 1] == 0 {
      var c := b[..|b| - 1];
      StrippedIsPadded(c);
      var name := WithoutZeros(c);
      assert Zeros(|b| - |name|) == Zeros(|c| - |name|) + [0];
      assert b == c + [0];
    }
  }

  predicate IsNamed(p: Partition) {
    p.offset < 0x1_0000_0000 && p.size < 0x1_0000_0000 && |p.name| <= 16 && (p.name == [] || p.name[|p.name| - 1] != 0)
  }

  lemma NameRoundTrip(b: Octets, name: Octets)
    requires |b| == 16 && |name| <= 16 && (name == [] || name[|name| - 1] != 0)
    ensures WithoutZeros(b) == name <==> b == name + Zeros(16 - |name|)
  {
    StrippedIsPadded(b);
    ZerosStrip(name, 16 - |name|);
  }

  lemma MagicRoundTrip(b: Octets)
    requires |b| == 2
    ensures Little2(b) == 0x50AA <==> b == [0xaa, 0x50]
  {
  }

  lemma RowParts(b: Octets, p: Partition)
    requires |b| == ENTRY_SIZE && IsNamed(p)
    ensures b == PutRow(p) <==>
      && b[..2] == [0xaa, 0x50] && b[2] == p.kind && b[3] == p.subtype && b[4..8] == PutLittle4(p.offset)
      && b[8..12] == PutLittle4(p.size) && b[12..28] == p.name + Zeros(16 - |p.name|) && b[28..32] == Zeros(4)
  {
    assert b == [b[0], b[1], b[2], b[3]] + b[4..8] + b[8..12] + b[12..28] + b[28..32];
    var r := PutRow(p);
    assert r[..2] == [0xaa, 0x50] && r[4..8] == PutLittle4(p.offset) && r[8..12] == PutLittle4(p.size);
    assert r[12..28] == p.name + Zeros(16 - |p.name|) && r[28..32] == Zeros(4);
  }

  /** A row reads as a partition exactly if it is written as that partition. */
  lemma RowRoundTrip(b: Octets, p: Partition)
    requires |b| == ENTRY_SIZE && IsNamed(p)
    ensures ReadRow(b) == Row(0x50AA, p, 0) <==> b == PutRow(p)
  {
    RowParts(b, p);
    MagicRoundTrip(b[..2]);
    Little4RoundTrip(b[4..8], p.offset);
    Little4RoundTrip(b[8..12], p.size);
    NameRoundTrip(b[12..28], p.name);
    Little4RoundTrip(b[28..32], 0);
    assert PutLittle4(0) == Zeros(4);
  }

  lemma LayoutIsNamed()
    ensures |LAYOUT| == 7 && forall i :: 0 <= i < 7 ==> IsNamed(LAYOUT[i]) && IsUtf8(LAYOUT[i].name)
  {
    assert forall i :: 0 <= i < 7 ==> IsNamed(LAYOUT[i]);
    forall i | 0 <= i < 7 ensures IsUtf8(LAYOUT[i].name) {
      AsciiIsUtf8(LAYOUT[i].name);
    }
  }

  lemma {:induction false} AsciiIsUtf8(d: Octets)
    requires forall i :: 0 <= i < |d| ==> d[i] < 0x80
    ensures IsUtf8(d)
    decreases |d|
  {
    if d != [] {
      AsciiIsUtf8(d[1..]);
    }
  }

  // ---- The checks ----

  datatype Part = Part(file: string, offset: nat, data: Octets)

  datatype Problem =
    | NotAFullImage | UnsupportedTable | UndecodableName | LayoutChanged | ExtraPartition | ChecksumMismatch
    | InvalidApplication | ApplicationsDiffer

  type Hash = Octets -> Octets

  function RowAt(merged: Octets, i: nat): Octets
    requires |merged| == FLASH_SIZE && i < 7
  {
    merged[TABLE + i * ENTRY_SIZE..TABLE + (i + 1) * ENTRY_SIZE]
  }

  /** The image holds exactly the reviewed partition table with its checksum, and the application both ways. */
  ghost predicate IsAccepted(merged: Octets, app: Octets, md5: Hash) {
    && |merged| == FLASH_SIZE && merged[0] == IMAGE_MAGIC
    && |LAYOUT| == 7
    && (forall i :: 0 <= i < 7 ==> IsNamed(LAYOUT[i]) && RowAt(merged, i) == PutRow(LAYOUT[i]))
    && merged[TABLE_END..TABLE_END + 16] == [0xeb, 0xeb] + seq(14, _ => 0xff)
    && merged[TABLE_END + 16..TABLE_END + 32] == md5(merged[TABLE..TABLE_END])
    && app != [] && app[0] == IMAGE_MAGIC && |app| <= APP_SIZE
    && merged[APP_OFFSET..APP_OFFSET + |app|] == app
  }

  /** The image really has the defect it is refused for. */
  ghost predicate HasDefect(problem: Problem, merged: Octets, app: Octets, md5: Hash) {
    if |merged| != FLASH_SIZE || merged[0] != IMAGE_MAGIC then problem == NotAFullImage
    else
      match problem
      case NotAFullImage => false
      case UnsupportedTable =>
        exists i :: 0 <= i < 7 && var row := ReadRow(RowAt(merged, i)); row.magic != 0x50AA || row.flags != 0
      case UndecodableName => exists i :: 0 <= i < 7 && !IsUtf8(ReadRow(RowAt(merged, i)).partition.name)
      case LayoutChanged =>
        exists i :: 0 <= i < 7 <= |LAYOUT| && IsNamed(LAYOUT[i]) && RowAt(merged, i) != PutRow(LAYOUT[i])
      case ExtraPartition => merged[TABLE_END..TABLE_END + 16] != [0xeb, 0xeb] + seq(14, _ => 0xff)
      case ChecksumMismatch => merged[TABLE_END + 16..TABLE_END + 32] != md5(merged[TABLE..TABLE_END])
      case InvalidApplication => app == [] || app[0] != IMAGE_MAGIC || |app| > APP_SIZE
      case ApplicationsDiffer => |app| <= APP_SIZE && merged[APP_OFFSET..APP_OFFSET + |app|] != app
  }

  function PartsOf(merged: Octets, app: Octets): seq<Part>
    requires |merged| == FLASH_SIZE
  {
    [Part("bootloader.bin", 0, merged[..TABLE]),
     Part("partitions.bin", TABLE, merged[TABLE..0x9000]),
     Part("ota-reset.bin", 0x9000, seq(0x2000, _ => ERASED)),
     Part("application.bin", APP_OFFSET, app)]
  }

  ghost predicate RowsAreRead(merged: Octets, entries: seq<Partition>, n: nat)
    requires |merged| == FLASH_SIZE
  {
    n <= 7 && |entries| == n && forall i :: 0 <= i < n ==> ReadRow(RowAt(merged, i)) == Row(0x50AA, entries[i], 0)
  }

  lemma RowsMatch(merged: Octets, entries: seq<Partition>)
    requires |merged| == FLASH_SIZE && RowsAreRead(merged, entries, 7)
    ensures |LAYOUT| == 7
    ensures entries == LAYOUT <==>
            forall i :: 0 <= i < 7 ==> IsNamed(LAYOUT[i]) && RowAt(merged, i) == PutRow(LAYOUT[i])
  {
    LayoutIsNamed();
    forall i | 0 <= i < 7 ensures entries[i] == LAYOUT[i] <==> RowAt(merged, i) == PutRow(LAYOUT[i]) {
      RowRoundTrip(RowAt(merged, i), LAYOUT[i]);
    }
  }

  /** A row that does not read as a partition is none of the layout's rows. */
  lemma BadRow(merged: Octets, app: Octets, md5: Hash, i: nat)
    requires |merged| == FLASH_SIZE && i < 7
    requires var r := ReadRow(RowAt(merged, i)); r.magic != 0x50AA || r.flags != 0 || !IsUtf8(r.partition.name)
    ensures !IsAccepted(merged, app, md5)
  {
    LayoutIsNamed();
    RowRoundTrip(RowAt(merged, i), LAYOUT[i]);
  }

  /** The loop over the rows of the table. */
  method ReadTable(merged: Octets) returns (r: Result<seq<Partition>, Problem>)
    requires |merged| == FLASH_SIZE
    ensures r.Ok? ==> RowsAreRead(merged, r.value, 7)
    ensures r.Err? ==> exists i ::
      && 0 <= i < 7
      && var row := ReadRow(RowAt(merged, i));
         if row.magic != 0x50AA || row.flags != 0 then r.error == UnsupportedTable
         else !IsUtf8(row.partition.name) && r.error == UndecodableName
  {
    var entries: seq<Partition> := [];
    for index := 0 to 7
      invariant RowsAreRead(merged, entries, index)
    {
      var row := ReadRow(RowAt(merged, index));
      if row.magic != 0x50AA || row.flags != 0 {
        return Err(UnsupportedTable);
      }
      if !IsUtf8(row.partition.name) {
        return Err(UndecodableName);
      }
      entries := entries + [row.partition];
    }
    return Ok(entries);
  }

  /** `flash_parts`: four parts for exactly the images that hold the reviewed layout, and a true reason otherwise. */
  method FlashParts(merged: Octets, app: Octets, md5: Hash) returns (r: Result<seq<Part>, Problem>)
    ensures r.Ok? <==> IsAccepted(merged, app, md5)
    ensures r.Ok? ==> r.value == PartsOf(merged, app)
    ensures r.Err? ==> HasDefect(r.error, merged, app, md5)
  {
    if |merged| != FLASH_SIZE || merged[0] != IMAGE_MAGIC {
      return Err(NotAFullImage);
    }
    var table := ReadTable(merged);
    if table.Err? {
      var i :| 0 <= i < 7 && var row := ReadRow(RowAt(merged, i));
        row.magic != 0x50AA || row.flags != 0 || !IsUtf8(row.partition.name);
      BadRow(merged, app, md5, i);
      return Err(table.error);
    }
    RowsMatch(merged, table.value);
    if table.value != LAYOUT {
      LayoutIsNamed();
      return Err(LayoutChanged);
    }
    if merged[TABLE_END..TABLE_END + 16] != [0xeb, 0xeb] + seq(14, _ => 0xff) {
      return Err(ExtraPartition);
    }
    if merged[TABLE_END + 16..TABLE_END + 32] != md5(merged[TABLE..TABLE_END]) {
      return Err(ChecksumMismatch);
    }
    if app == [] || app[0] != IMAGE_MAGIC || |app| > APP_SIZE {
      return Err(InvalidApplication);
    }
    if merged[APP_OFFSET..APP_OFFSET + |app|] != app {
      return Err(ApplicationsDiffer);
    }
    return Ok(PartsOf(merged, app));
  }

  // ---- Flashing ----

  const SECTOR: nat := 4096

  function ErasedEnd(p: Part): nat {
    (p.offset + |p.data| + (SECTOR - 1)) / SECTOR * SECTOR
  }

  predicate Fits(p: Part) {
    ErasedEnd(p) <= FLASH_SIZE
  }

  lemma EndsBehindData(p: Part)
    ensures p.offset + |p.data| <= ErasedEnd(p) < p.offset + |p.data| + SECTOR
  {
  }

  predicate Covers(p: Part, k: nat) {
    p.offset <= k < ErasedEnd(p)
  }

  /** What a part leaves at an address it covers: its data, then erased flash. */
  function ByteAt(p: Part, k: nat): byte
    requires Covers(p, k)
  {
    if k - p.offset < |p.data| then p.data[k - p.offset] else ERASED
  }

  /** A flash of contents `d` after one part. */
  function Flashed(d: Octets, p: Part): (r: Octets)
    ensures |r| == |d|
  {
    seq(|d|, k requires 0 <= k < |d| => if Covers(p, k) then ByteAt(p, k) else d[k])
  }

  function FlashedAll(d: Octets, ps: seq<Part>): (r: Octets)
    ensures |r| == |d|
  {
    if ps == [] then d else Flashed(FlashedAll(d, ps[..|ps| - 1]), ps[|ps| - 1])
  }

  /** Erases the sectors a part touches, and writes it. */
  method FlashPart(device: array<byte>, p: Part)
    requires device.Length == FLASH_SIZE && Fits(p)
    modifies device
    ensures device[..] == Flashed(old(device[..]), p)
  {
    EndsBehindData(p);
    var end := ErasedEnd(p);
    for k := p.offset to end
      invariant forall j :: p.offset <= j < k ==> device[j] == ERASED
      invariant forall j :: 0 <= j < p.offset || k <= j < device.Length ==> device[j] == old(device[j])
    {
      device[k] := ERASED;
    }
    for k := 0 to |p.data|
      invariant forall j :: 0 <= j < k ==> device[p.offset + j] == p.data[j]
      invariant forall j :: p.offset + k <= j < end ==> device[j] == ERASED
      invariant forall j :: 0 <= j < p.offset || end <= j < device.Length ==> device[j] == old(device[j])
    {
      device[p.offset + k] := p.data[k];
    }
    forall j | 0 <= j < device.Length ensures device[j] == Flashed(old(device[..]), p)[j] {
      if Covers(p, j) && j - p.offset < |p.data| {
        assert device[p.offset + (j - p.offset)] == p.data[j - p.offset];
      }
    }
  }

  /** Flashing one part after another. */
  method Flash(device: array<byte>, ps: seq<Part>)
    requires device.Length == FLASH_SIZE && forall i :: 0 <= i < |ps| ==> Fits(ps[i])
    modifies device
    ensures device[..] == FlashedAll(old(device[..]), ps)
  {
    ghost var before := device[..];
    for i := 0 to |ps|
      invariant device[..] == FlashedAll(before, ps[..i])
    {
      FlashPart(device, ps[i]);
      assert ps[..i + 1][..i] == ps[..i];
    }
    assert ps[..|ps|] == ps;
  }

  ghost predicate Apart(p: Part, q: Part) {
    ErasedEnd(p) <= q.offset || ErasedEnd(q) <= p.offset
  }

  /** No two parts touch the same sector. */
  ghost predicate PairwiseApart(ps: seq<Part>) {
    forall i, j :: 0 <= i < j < |ps| ==> Apart(ps[i], ps[j])
  }

  /** After flashing, an address holds what the part that covers it says, or what it held before. */
  lemma {:induction false} FlashedAt(d: Octets, ps: seq<Part>, k: nat)
    requires PairwiseApart(ps) && k < |d|
    ensures forall p :: p in ps && Covers(p, k) ==> FlashedAll(d, ps)[k] == ByteAt(p, k)
    ensures (forall p :: p in ps ==> !Covers(p, k)) ==> FlashedAll(d, ps)[k] == d[k]
  {
    if ps != [] {
      var n := |ps| - 1;
      FlashedAt(d, ps[..n], k);
      forall p | p in ps && Covers(p, k) ensures FlashedAll(d, ps)[k] == ByteAt(p, k) {
        var i :| 0 <= i < |ps| && ps[i] == p;
        if i < n {
          assert ps[..n][i] == p;
          assert Apart(ps[i], ps[n]);
        }
      }
      assert forall p :: p in ps[..n] ==> p in ps;
    }
  }

  /** If no two parts touch the same sector, the order of writing does not matter. */
  lemma OrderDoesNotMatter(d: Octets, ps: seq<Part>, qs: seq<Part>)
    requires PairwiseApart(ps) && PairwiseApart(qs) && multiset(ps) == multiset(qs)
    ensures FlashedAll(d, ps) == FlashedAll(d, qs)
  {
    assert forall p :: p in ps <==> p in multiset(ps);
    assert forall p :: p in qs <==> p in multiset(qs);
    forall k | 0 <= k < |d| ensures FlashedAll(d, ps)[k] == FlashedAll(d, qs)[k] {
      FlashedAt(d, ps, k);
      FlashedAt(d, qs, k);
    }
  }

  lemma AcceptedPartsAreApart(merged: Octets, app: Octets, md5: Hash)
    requires IsAccepted(merged, app, md5)
    ensures var ps := PartsOf(merged, app);
      && PairwiseApart(ps) && (forall i :: 0 <= i < |ps| ==> Fits(ps[i]))
      && ErasedEnd(ps[0]) == 0x8000 && ErasedEnd(ps[1]) == 0x9000 && ErasedEnd(ps[2]) == 0xB000
      && APP_OFFSET < ErasedEnd(ps[3]) <= APP_OFFSET + APP_SIZE
  {
    EndsBehindData(PartsOf(merged, app)[3]);
  }

  lemma UntouchedAt(merged: Octets, app: Octets, md5: Hash, device: Octets, k: nat)
    requires IsAccepted(merged, app, md5) && |device| == FLASH_SIZE
    requires 0xB000 <= k < APP_OFFSET || APP_OFFSET + APP_SIZE <= k < FLASH_SIZE
    ensures FlashedAll(device, PartsOf(merged, app))[k] == device[k]
  {
    AcceptedPartsAreApart(merged, app, md5);
    FlashedAt(device, PartsOf(merged, app), k);
  }

  lemma StretchSurvives(merged: Octets, app: Octets, md5: Hash, device: Octets, from: nat, to: nat)
    requires IsAccepted(merged, app, md5) && |device| == FLASH_SIZE
    requires 0xB000 <= from <= to <= APP_OFFSET || APP_OFFSET + APP_SIZE <= from <= to <= FLASH_SIZE
    ensures FlashedAll(device, PartsOf(merged, app))[from..to] == device[from..to]
  {
    forall k | from <= k < to ensures FlashedAll(device, PartsOf(merged, app))[k] == device[k] {
      UntouchedAt(merged, app, md5, device, k);
    }
  }

  predicate KeepsSettings(p: Partition) {
    p.name in {Ascii("lic"), Ascii("nvs"), Ascii("phy_init"), Ascii("map"), Ascii("ota_1")}
  }

  lemma WhereSettingsAre(i: nat)
    requires i < |LAYOUT| && KeepsSettings(LAYOUT[i])
    ensures var from, to := LAYOUT[i].offset, LAYOUT[i].offset + LAYOUT[i].size;
      0xB000 <= from <= to <= APP_OFFSET || APP_OFFSET + APP_SIZE <= from <= to <= FLASH_SIZE
  {
    assert |LAYOUT[0].name| == 7;
    assert LAYOUT[5].name[4] != Ascii("ota_1")[4];
  }

  /** For every accepted pair of images and every earlier content: the settings partitions and the other
      application slot keep every byte. */
  lemma SettingsSurvive(merged: Octets, app: Octets, md5: Hash, device: Octets, i: nat)
    requires IsAccepted(merged, app, md5) && |device| == FLASH_SIZE && i < |LAYOUT| && KeepsSettings(LAYOUT[i])
    ensures var p := LAYOUT[i];
      p.offset + p.size <= FLASH_SIZE
      && FlashedAll(device, PartsOf(merged, app))[p.offset..p.offset + p.size] == device[p.offset..p.offset + p.size]
  {
    WhereSettingsAre(i);
    var from, to := LAYOUT[i].offset, LAYOUT[i].offset + LAYOUT[i].size;
    StretchSurvives(merged, app, md5, device, from, to);
  }

  /** And the rest becomes the release: boot loader, table, erased selector, application. */
  lemma ReleaseIsInstalled(merged: Octets, app: Octets, md5: Hash, device: Octets)
    requires IsAccepted(merged, app, md5) && |device| == FLASH_SIZE
    ensures var after := FlashedAll(device, PartsOf(merged, app));
      && after[..0x9000] == merged[..0x9000]
      && (forall k :: 0x9000 <= k < 0xB000 ==> after[k] == ERASED)
      && after[APP_OFFSET..APP_OFFSET + |app|] == app
  {
    var ps := PartsOf(merged, app);
    AcceptedPartsAreApart(merged, app, md5);
    EndsBehindData(ps[3]);
    var after := FlashedAll(device, ps);
    forall k | 0 <= k < 0xB000 || APP_OFFSET <= k < APP_OFFSET + |app|
      ensures after[k] == if k < 0x9000 then merged[k] else if k < 0xB000 then ERASED else app[k - APP_OFFSET]
    {
      FlashedAt(device, ps, k);
      var p := if k < 0x8000 then ps[0] else if k < 0x9000 then ps[1] else if k < 0xB000 then ps[2] else ps[3];
      assert p in ps && Covers(p, k);
    }
  }
}
