/** Which images the installer accepts, in terms of what their bytes read as, and the layout it protects. */
module InstallerLaws {
  import opened Text
  import opened Bytes
  import opened WebInstaller

  /** The reviewed layout of a 16 MB device: type, subtype, offset, size and name. */
  function Reviewed(i: nat): Partition {
    if i == 0 then Partition(1, 0, 0x9000, 0x2000, Ascii("otadata"))
    else if i == 1 then Partition(0x40, 1, 0xB000, 0x1000, Ascii("lic"))
    else if i == 2 then Partition(1, 2, 0xC000, 0x6000, Ascii("nvs"))
    else if i == 3 then Partition(1, 1, 0x12000, 0x1000, Ascii("phy_init"))
    else if i == 4 then Partition(0x40, 1, 0x13000, 0x100000, Ascii("map"))
    else if i == 5 then Partition(0, 0x10, 0x200000, 0x700000, Ascii("ota_0"))
    else Partition(0, 0x11, 0x900000, 0x700000, Ascii("ota_1"))
  }

  lemma LayoutIsReviewed(i: nat)
    requires i < 7
    ensures |LAYOUT| == 7 && LAYOUT[i] == Reviewed(i)
  {
  }

  /** The partitions lie one behind the other up to the end of the device, with one gap in front of the applications. */
  lemma LayoutTiles(i: nat)
    requires i < 7
    ensures |LAYOUT| == 7
    ensures LAYOUT[i].offset + LAYOUT[i].size
         == if i == 4 then 0x113000 else if i == 6 then 0x1000000 else LAYOUT[i + 1].offset
  {
    LayoutIsReviewed(i);
    if i < 6 {
      LayoutIsReviewed(i + 1);
    }
  }

  /** The image reads as the reviewed layout, has the table's checksum, and holds the application. */
  ghost predicate IsReviewedImage(merged: Octets, app: Octets, md5: Hash) {
    && |merged| == 0x1000000 && merged[0] == 0xe9
    && (forall i :: 0 <= i < 7 ==> ReadRow(merged[0x8000 + 32 * i..0x8020 + 32 * i]) == Row(0x50AA, Reviewed(i), 0))
    && merged[0x80e0..0x80f0] == [0xeb, 0xeb] + seq(14, _ => 0xff)
    && merged[0x80f0..0x8100] == md5(merged[0x8000..0x80e0])
    && 0 < |app| <= 0x700000 && app[0] == 0xe9
    && merged[0x200000..0x200000 + |app|] == app
  }

  lemma RowIs(merged: Octets, i: nat)
    requires |merged| == FLASH_SIZE && i < 7
    ensures RowAt(merged, i) == merged[0x8000 + 32 * i..0x8020 + 32 * i]
    ensures |LAYOUT| == 7 && IsNamed(LAYOUT[i])
    ensures RowAt(merged, i) == PutRow(LAYOUT[i]) <==> ReadRow(RowAt(merged, i)) == Row(0x50AA, Reviewed(i), 0)
  {
    LayoutIsNamed();
    LayoutIsReviewed(i);
    RowRoundTrip(RowAt(merged, i), LAYOUT[i]);
  }

  /** Accepted are exactly the images that read as the reviewed layout. */
  lemma AcceptedExactly(merged: Octets, app: Octets, md5: Hash)
    ensures IsAccepted(merged, app, md5) <==> IsReviewedImage(merged, app, md5)
  {
    LayoutIsNamed();
    if |merged| == FLASH_SIZE {
      forall i | 0 <= i < 7
        ensures RowAt(merged, i) == merged[0x8000 + 32 * i..0x8020 + 32 * i] && IsNamed(LAYOUT[i])
        ensures RowAt(merged, i) == PutRow(LAYOUT[i]) <==> ReadRow(RowAt(merged, i)) == Row(0x50AA, Reviewed(i), 0)
      {
        RowIs(merged, i);
      }
    }
  }

  /** Whatever an image is refused for, it is not acceptable. */
  lemma DefectsAreReal(problem: Problem, merged: Octets, app: Octets, md5: Hash)
    requires HasDefect(problem, merged, app, md5)
    ensures !IsAccepted(merged, app, md5)
  {
    if |merged| == FLASH_SIZE && merged[0] == IMAGE_MAGIC {
      match problem
      case UnsupportedTable =>
        var i :| 0 <= i < 7 && var row := ReadRow(RowAt(merged, i)); row.magic != 0x50AA || row.flags != 0;
        BadRow(merged, app, md5, i);
      case UndecodableName =>
        var i :| 0 <= i < 7 && !IsUtf8(ReadRow(RowAt(merged, i)).partition.name);
        BadRow(merged, app, md5, i);
      case _ =>
    }
  }

  /** No byte of an accepted table, its marker or its checksum can be changed. */
  lemma TableIsFixed(merged: Octets, app: Octets, merged': Octets, app': Octets, md5: Hash)
    requires IsAccepted(merged, app, md5) && IsAccepted(merged', app', md5)
    ensures merged[0x8000..0x8100] == merged'[0x8000..0x8100]
  {
    forall i | 0 <= i < 7
      ensures merged[0x8000 + 32 * i..0x8020 + 32 * i] == merged'[0x8000 + 32 * i..0x8020 + 32 * i]
    {
      RowIs(merged, i);
      RowIs(merged', i);
    }
    SameRows(merged, merged');
    assert merged[0x80e0..0x80f0] == merged'[0x80e0..0x80f0];
    assert merged[0x80f0..0x8100] == merged'[0x80f0..0x8100];
    SameParts(merged, merged');
  }

  lemma SameRows(a: Octets, b: Octets)
    requires |a| == |b| == FLASH_SIZE
    requires forall i :: 0 <= i < 7 ==> a[0x8000 + 32 * i..0x8020 + 32 * i] == b[0x8000 + 32 * i..0x8020 + 32 * i]
    ensures a[0x8000..0x80e0] == b[0x8000..0x80e0]
  {
    forall k | 0x8000 <= k < 0x80e0 ensures a[k] == b[k] {
      var i := (k - 0x8000) / 32;
      var from := 0x8000 + 32 * i;
      assert a[from..0x8020 + 32 * i][k - from] == a[k] && b[from..0x8020 + 32 * i][k - from] == b[k];
    }
  }

  lemma SameParts(a: Octets, b: Octets)
    requires |a| == |b| == FLASH_SIZE && a[0x8000..0x80e0] == b[0x8000..0x80e0]
    requires a[0x80e0..0x80f0] == b[0x80e0..0x80f0] && a[0x80f0..0x8100] == b[0x80f0..0x8100]
    ensures a[0x8000..0x8100] == b[0x8000..0x8100]
  {
    assert a[0x8000..0x8100] == a[0x8000..0x80e0] + a[0x80e0..0x80f0] + a[0x80f0..0x8100];
    assert b[0x8000..0x8100] == b[0x8000..0x80e0] + b[0x80e0..0x80f0] + b[0x80f0..0x8100];
  }

  /** Everything behind the update selector and in front of the first application survives, and the whole second
      application. */
  lemma BytesSurvive(merged: Octets, app: Octets, md5: Hash, device: Octets, k: nat)
    requires IsAccepted(merged, app, md5) && |device| == 0x1000000
    requires 0xB000 <= k < 0x200000 || 0x900000 <= k < 0x1000000
    ensures FlashedAll(device, PartsOf(merged, app))[k] == device[k]
  {
    UntouchedAt(merged, app, md5, device, k);
  }

  /** The files of a release and where they go. */
  lemma FilesOfARelease(merged: Octets, app: Octets)
    requires |merged| == 0x1000000
    ensures var ps := PartsOf(merged, app);
      && |ps| == 4
      && ps[0].file == "bootloader.bin" && ps[0].offset == 0 && ps[0].data == merged[..0x8000]
      && ps[1].file == "partitions.bin" && ps[1].offset == 0x8000 && ps[1].data == merged[0x8000..0x9000]
      && ps[2].file == "ota-reset.bin" && ps[2].offset == 0x9000 && |ps[2].data| == 0x2000
      && (forall k :: 0 <= k < 0x2000 ==> ps[2].data[k] == 0xff)
      && ps[3].file == "application.bin" && ps[3].offset == 0x200000 && ps[3].data == app
  {
  }
}
