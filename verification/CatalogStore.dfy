/** The Bambu colour catalog: what a downloaded document must hold, and how an update reaches the SD card
    through a staging file that may be cut short at any point. */
module CatalogStore {
  import opened Text
  import opened Documents

  const MAX_CATALOG_SIZE: nat := 384 * 1024
  const MAX_ENTRIES: nat := 1000

  datatype UpstreamEntry = UpstreamEntry(productCode: string, materialId: string, filamentType: string, nameEn: string,
                                         nameDe: string, colorCode: string, colors: seq<string>)

  datatype CatalogEntry = CatalogEntry(materialId: string, filamentType: string, nameEn: string, nameDe: string,
                                       productCode: string, colorCode: string, colors: string)

  // ---- Reading a document ----

  function GetText(d: Document): Option<Read<string>> {
    if AtText(d, 0) then Some(Read(d[0].s, d[1..])) else None
  }

  predicate StartsWithTexts(d: Document, n: nat) {
    n <= |d| && forall i :: 0 <= i < n ==> d[i].Text?
  }

  function GetEntry(d: Document): Option<Read<UpstreamEntry>> {
    if !StartsWithTexts(d, 6) then None
    else match GetList(d[6..], GetText)
      case None => None
      case Some(colors) =>
        Some(Read(UpstreamEntry(d[0].s, d[1].s, d[2].s, d[3].s, d[4].s, d[5].s, colors.value), colors.rest))
  }

  predicate AllBlank(d: Document) {
    forall i :: 0 <= i < |d| ==> d[i].Blank?
  }

  /** The entries of a document, with blanks around it. */
  function ReadUpstream(d: Document): Option<seq<UpstreamEntry>> {
    match GetList(SkipBlanks(d), GetEntry)
    case None => None
    case Some(items) => if AllBlank(items.rest) then Some(items.value) else None
  }

  function DigitsOf(n: nat): nat {
    if n < 10 then 1 else 1 + DigitsOf(n / 10)
  }

  function Power10(k: nat): nat {
    if k == 0 then 1 else 10 * Power10(k - 1)
  }

  lemma {:induction false} DigitsAreDecimal(n: nat)
    requires n > 0
    ensures Power10(DigitsOf(n) - 1) <= n < Power10(DigitsOf(n))
  {
    if n >= 10 {
      DigitsAreDecimal(n / 10);
    }
  }

  /** The bytes of a token: a blank, decimal digits, a quoted text, or the first part of one. */
  function TokenSize(t: Token): (n: nat)
    ensures n > 0
  {
    match t
    case Blank => 1
    case Number(n) => DigitsOf(n)
    case Text(s) => 2 + ByteLength(s)
    case Broken(more) => 1 + more
  }

  function SizeOf(d: Document): (n: nat)
    ensures n == 0 <==> d == []
  {
    if d == [] then 0 else TokenSize(d[0]) + SizeOf(d[1..])
  }

  // ---- What a catalog must hold ----

  predicate IsDigit(c: char) {
    '0' <= c <= '9'
  }

  predicate IsComplete(u: UpstreamEntry) {
    && u.materialId != "" && u.filamentType != "" && u.nameEn != "" && u.colorCode != ""
    && |u.productCode| == 5 && (forall i :: 0 <= i < 5 ==> IsDigit(u.productCode[i]))
    && 1 <= |u.colors| <= 4
  }

  function WithoutHash(s: string): string {
    if s != "" && s[0] == '#' then s[1..] else s
  }

  /** `normalize_rgba` */
  function NormalizeRgba(s: string): (r: Option<string>)
    ensures r.Some? <==> |WithoutHash(s)| == 8 && AllHexDigits(WithoutHash(s))
    ensures r.Some? ==> EqIgnoreCase(r.value, WithoutHash(s)) && ToUpper(r.value) == r.value
  {
    var value := WithoutHash(s);
    if |value| == 8 && AllHexDigits(value) then
      CaseFolding(ToUpper(value), value);
      UpperIsIdempotent(value);
      Some(ToUpper(value))
    else None
  }

  lemma UpperIsIdempotent(s: string)
    ensures ToUpper(ToUpper(s)) == ToUpper(s)
  {
  }

  predicate HasColors(u: UpstreamEntry) {
    forall i :: 0 <= i < |u.colors| ==> NormalizeRgba(u.colors[i]).Some?
  }

  function Joined(parts: seq<string>): string {
    if parts == [] then "" else if |parts| == 1 then parts[0] else parts[0] + "/" + Joined(parts[1..])
  }

  function Normalized(colors: seq<string>): (r: seq<string>)
    requires forall i :: 0 <= i < |colors| ==> NormalizeRgba(colors[i]).Some?
    ensures |r| == |colors|
  {
    seq(|colors|, i requires 0 <= i < |colors| => NormalizeRgba(colors[i]).value)
  }

  function EntryOf(u: UpstreamEntry): CatalogEntry
    requires HasColors(u)
  {
    CatalogEntry(u.materialId, u.filamentType, u.nameEn, u.nameDe, u.productCode, u.colorCode,
                 Joined(Normalized(u.colors)))
  }

  predicate SameKey(u: UpstreamEntry, v: UpstreamEntry) {
    u.materialId == v.materialId && u.colorCode == v.colorCode
  }

  predicate IsCatalog(items: seq<UpstreamEntry>) {
    && 1 <= |items| <= MAX_ENTRIES
    && (forall i :: 0 <= i < |items| ==> IsComplete(items[i]) && HasColors(items[i]))
    && (forall i, j :: 0 <= i < j < |items| ==> !SameKey(items[i], items[j]))
  }

  function EntriesOf(items: seq<UpstreamEntry>): (r: seq<CatalogEntry>)
    requires forall i :: 0 <= i < |items| ==> HasColors(items[i])
    ensures |r| == |items|
  {
    seq(|items|, i requires 0 <= i < |items| => EntryOf(items[i]))
  }

  /** The catalog a document holds, if it is of the right size, readable and complete. */
  function Parsed(d: Document): Option<seq<CatalogEntry>> {
    if SizeOf(d) == 0 || SizeOf(d) > MAX_CATALOG_SIZE then None
    else if ReadUpstream(d).None? || !IsCatalog(ReadUpstream(d).value) then None
    else Some(EntriesOf(ReadUpstream(d).value))
  }

  predicate IsColour(c: string) {
    (|c| == 8 && AllHexDigits(c)) || (|c| == 9 && c[0] == '#' && AllHexDigits(c[1..]))
  }

  /** What an item must hold. */
  predicate IsItem(u: UpstreamEntry) {
    && |u.materialId| > 0 && |u.filamentType| > 0 && |u.nameEn| > 0 && |u.colorCode| > 0
    && |u.productCode| == 5 && (forall i :: 0 <= i < 5 ==> u.productCode[i] in "0123456789")
    && 1 <= |u.colors| <= 4 && (forall i :: 0 <= i < |u.colors| ==> IsColour(u.colors[i]))
  }

  /** Eight capital digits for each colour, with slashes between them. */
  ghost predicate Spells(text: string, colors: seq<string>) {
    && |text| == 9 * |colors| - 1
    && (forall k :: 0 <= k < |colors| && |colors[k]| >= 8 ==>
          text[9 * k..9 * k + 8] == ToUpper(colors[k][|colors[k]| - 8..]))
    && (forall k :: 0 <= k < |colors| - 1 ==> text[9 * k + 8] == '/')
  }

  lemma {:induction false} JoinedSpells(parts: seq<string>)
    requires parts != [] && forall k :: 0 <= k < |parts| ==> |parts[k]| == 8
    ensures |Joined(parts)| == 9 * |parts| - 1
    ensures forall k :: 0 <= k < |parts| ==> Joined(parts)[9 * k..9 * k + 8] == parts[k]
    ensures forall k :: 0 <= k < |parts| - 1 ==> Joined(parts)[9 * k + 8] == '/'
  {
    if |parts| > 1 {
      var rest := Joined(parts[1..]);
      JoinedSpells(parts[1..]);
      assert Joined(parts) == parts[0] + "/" + rest;
      forall k | 0 <= k < |parts| ensures Joined(parts)[9 * k..9 * k + 8] == parts[k] {
        if k > 0 {
          assert Joined(parts)[9 * k..9 * k + 8] == rest[9 * (k - 1)..9 * (k - 1) + 8];
        }
      }
      forall k | 0 <= k < |parts| - 1 ensures Joined(parts)[9 * k + 8] == '/' {
        if k > 0 {
          assert Joined(parts)[9 * k + 8] == rest[9 * (k - 1) + 8];
        }
      }
    }
  }

  lemma ColourIsNormal(c: string)
    ensures NormalizeRgba(c) == if IsColour(c) then Some(ToUpper(c[|c| - 8..])) else None
  {
    if IsColour(c) {
      assert WithoutHash(c) == c[|c| - 8..];
    }
  }

  lemma ItemIsEntry(u: UpstreamEntry)
    ensures IsItem(u) <==> IsComplete(u) && HasColors(u)
    ensures IsItem(u) ==> Spells(EntryOf(u).colors, u.colors)
  {
    forall k | 0 <= k < |u.colors| ensures NormalizeRgba(u.colors[k]).Some? <==> IsColour(u.colors[k]) {
      ColourIsNormal(u.colors[k]);
    }
    assert forall i :: 0 <= i < |u.productCode| ==> (IsDigit(u.productCode[i]) <==> u.productCode[i] in "0123456789");
    if IsItem(u) {
      JoinedSpells(Normalized(u.colors));
      forall k | 0 <= k < |u.colors| ensures Normalized(u.colors)[k] == ToUpper(u.colors[k][|u.colors[k]| - 8..]) {
        ColourIsNormal(u.colors[k]);
      }
    }
  }

  /** A document is a catalog exactly if it is of the right size and holds 1 to 1000 whole items with keys of their own;
      then every item is an entry, in order, with its fields where they belong. */
  lemma AcceptedExactly(d: Document)
    ensures Parsed(d).Some? <==>
      && 0 < SizeOf(d) <= 393216 && ReadUpstream(d).Some?
      && var items := ReadUpstream(d).value;
         && 1 <= |items| <= 1000 && (forall i :: 0 <= i < |items| ==> IsItem(items[i]))
         && forall i, j :: 0 <= i < j < |items| ==>
              items[i].materialId != items[j].materialId || items[i].colorCode != items[j].colorCode
    ensures Parsed(d).Some? ==>
      var items, entries := ReadUpstream(d).value, Parsed(d).value;
      |entries| == |items| && forall i :: 0 <= i < |items| ==>
        && entries[i] == CatalogEntry(items[i].materialId, items[i].filamentType, items[i].nameEn, items[i].nameDe,
                                      items[i].productCode, items[i].colorCode, entries[i].colors)
        && Spells(entries[i].colors, items[i].colors)
  {
    if ReadUpstream(d).Some? {
      var items := ReadUpstream(d).value;
      forall i | 0 <= i < |items| ensures IsItem(items[i]) <==> IsComplete(items[i]) && HasColors(items[i]) {
        ItemIsEntry(items[i]);
      }
      if Parsed(d).Some? {
        forall i | 0 <= i < |items|
          ensures Parsed(d).value[i] == EntryOf(items[i]) && Spells(Parsed(d).value[i].colors, items[i].colors)
        {
          ItemIsEntry(items[i]);
        }
      }
      assert forall i, j :: 0 <= i < j < |items| ==>
               (SameKey(items[i], items[j])
                <==> items[i].materialId == items[j].materialId && items[i].colorCode == items[j].colorCode);
    }
  }

  /** The colours of one entry. */
  method NormalizeColors(colors: seq<string>) returns (r: Option<seq<string>>)
    ensures r.Some? <==> forall i :: 0 <= i < |colors| ==> NormalizeRgba(colors[i]).Some?
    ensures r.Some? ==> r.value == Normalized(colors)
  {
    var normalized: seq<string> := [];
    for k := 0 to |colors|
      invariant |normalized| == k
      invariant forall i :: 0 <= i < k ==> NormalizeRgba(colors[i]) == Some(normalized[i])
    {
      var color := NormalizeRgba(colors[k]);
      if color.None? {
        return None;
      }
      normalized := normalized + [color.value];
    }
    return Some(normalized);
  }

  method HasKey(entries: seq<CatalogEntry>, materialId: string, colorCode: string) returns (found: bool)
    ensures found <==>
      exists i :: 0 <= i < |entries| && entries[i].materialId == materialId && entries[i].colorCode == colorCode
  {
    for k := 0 to |entries|
      invariant forall i :: 0 <= i < k ==> !(entries[i].materialId == materialId && entries[i].colorCode == colorCode)
    {
      if entries[k].materialId == materialId && entries[k].colorCode == colorCode {
        return true;
      }
    }
    return false;
  }

  /** Items turned into entries, with no key twice. */
  ghost predicate Listed(items: seq<UpstreamEntry>, entries: seq<CatalogEntry>) {
    && |entries| == |items|
    && (forall i :: 0 <= i < |items| ==> IsComplete(items[i]) && HasColors(items[i]) && entries[i] == EntryOf(items[i]))
    && (forall i, j :: 0 <= i < j < |items| ==> !SameKey(items[i], items[j]))
  }

  ghost predicate Repeats(items: seq<UpstreamEntry>, item: UpstreamEntry) {
    exists i :: 0 <= i < |items| && SameKey(items[i], item)
  }

  lemma KeysAreListed(items: seq<UpstreamEntry>, entries: seq<CatalogEntry>, item: UpstreamEntry)
    requires Listed(items, entries)
    ensures Repeats(items, item) <==>
      exists i :: 0 <= i < |entries| && entries[i].materialId == item.materialId
                  && entries[i].colorCode == item.colorCode
  {
    if Repeats(items, item) {
      var i :| 0 <= i < |items| && SameKey(items[i], item);
      assert entries[i] == EntryOf(items[i]);
    } else {
      assert forall i :: 0 <= i < |items| ==> entries[i] == EntryOf(items[i]) && !SameKey(items[i], item);
    }
  }

  lemma ListedGrows(items: seq<UpstreamEntry>, entries: seq<CatalogEntry>, item: UpstreamEntry)
    requires Listed(items, entries) && IsComplete(item) && HasColors(item) && !Repeats(items, item)
    ensures Listed(items + [item], entries + [EntryOf(item)])
  {
  }

  /** One turn of the loop of `parse_catalog`. */
  method AddEntry(entries: seq<CatalogEntry>, item: UpstreamEntry, ghost items: seq<UpstreamEntry>)
    returns (r: Option<seq<CatalogEntry>>)
    requires Listed(items, entries)
    ensures r.Some? ==> Listed(items + [item], r.value)
    ensures r.None? ==> !IsComplete(item) || !HasColors(item) || Repeats(items, item)
  {
    if !IsComplete(item) {
      return None;
    }
    var colors := NormalizeColors(item.colors);
    if colors.None? {
      return None;
    }
    var repeated := HasKey(entries, item.materialId, item.colorCode);
    KeysAreListed(items, entries, item);
    if repeated {
      return None;
    }
    ListedGrows(items, entries, item);
    return Some(entries + [CatalogEntry(item.materialId, item.filamentType, item.nameEn, item.nameDe, item.productCode,
                                        item.colorCode, Joined(colors.value))]);
  }

  lemma RefusedIsNoCatalog(items: seq<UpstreamEntry>, k: nat)
    requires k < |items|
    requires !IsComplete(items[k]) || !HasColors(items[k]) || Repeats(items[..k], items[k])
    ensures !IsCatalog(items)
  {
  }

  lemma ListedIsCatalog(items: seq<UpstreamEntry>, entries: seq<CatalogEntry>)
    requires 1 <= |items| <= MAX_ENTRIES && Listed(items, entries)
    ensures IsCatalog(items) && entries == EntriesOf(items)
  {
  }

  /** `parse_catalog`: entry by entry, stopping at the first that is incomplete or repeats a key. */
  method ParseCatalog(d: Document) returns (r: Option<seq<CatalogEntry>>)
    ensures r == Parsed(d)
  {
    if SizeOf(d) == 0 || SizeOf(d) > MAX_CATALOG_SIZE {
      return None;
    }
    var upstream := ReadUpstream(d);
    if upstream.None? || upstream.value == [] || |upstream.value| > MAX_ENTRIES {
      return None;
    }
    var items := upstream.value;
    var entries: seq<CatalogEntry> := [];
    for k := 0 to |items|
      invariant Listed(items[..k], entries)
    {
      var more := AddEntry(entries, items[k], items[..k]);
      if more.None? {
        RefusedIsNoCatalog(items, k);
        return None;
      }
      assert items[..k] + [items[k]] == items[..k + 1];
      entries := more.value;
    }
    assert items[..|items|] == items;
    ListedIsCatalog(items, entries);
    return Some(entries);
  }

  // ---- Looking up ----

  /** What follows the last dash, as `rsplit_once` finds it. */
  function AfterLastDash(s: string): Option<string> {
    if s == "" then None
    else if AfterLastDash(s[1..]).Some? then AfterLastDash(s[1..])
    else if s[0] == '-' then Some(s[1..])
    else None
  }

  function FindCode(entries: seq<CatalogEntry>, materialId: string, code: string): Option<CatalogEntry> {
    if entries == [] then None
    else if entries[0].materialId == materialId && entries[0].colorCode == code then Some(entries[0])
    else FindCode(entries[1..], materialId, code)
  }

  function FindColors(entries: seq<CatalogEntry>, materialId: string, colors: string): Option<CatalogEntry> {
    if entries == [] then None
    else if entries[0].materialId == materialId && entries[0].colors == colors then Some(entries[0])
    else FindColors(entries[1..], materialId, colors)
  }

  /** `Catalog::lookup` */
  function Lookup(entries: seq<CatalogEntry>, materialId: string, variantId: string,
                  colors: string): Option<CatalogEntry> {
    var code := AfterLastDash(variantId);
    if code.Some? && FindCode(entries, materialId, code.value).Some? then FindCode(entries, materialId, code.value)
    else FindColors(entries, materialId, colors)
  }

  predicate HasCode(e: CatalogEntry, materialId: string, code: string) {
    e.materialId == materialId && e.colorCode == code
  }

  predicate HasColours(e: CatalogEntry, materialId: string, colors: string) {
    e.materialId == materialId && e.colors == colors
  }

  lemma {:induction false} FirstCode(entries: seq<CatalogEntry>, materialId: string, code: string, i: nat)
    requires i <= |entries| && (i < |entries| ==> HasCode(entries[i], materialId, code))
    requires forall j :: 0 <= j < i ==> !HasCode(entries[j], materialId, code)
    ensures FindCode(entries, materialId, code) == if i < |entries| then Some(entries[i]) else None
  {
    if i > 0 {
      FirstCode(entries[1..], materialId, code, i - 1);
    }
  }

  lemma {:induction false} FirstColours(entries: seq<CatalogEntry>, materialId: string, colors: string, i: nat)
    requires i <= |entries| && (i < |entries| ==> HasColours(entries[i], materialId, colors))
    requires forall j :: 0 <= j < i ==> !HasColours(entries[j], materialId, colors)
    ensures FindColors(entries, materialId, colors) == if i < |entries| then Some(entries[i]) else None
  {
    if i > 0 {
      FirstColours(entries[1..], materialId, colors, i - 1);
    }
  }

  /** What follows the last dash of a variant. */
  ghost predicate EndsInCode(variantId: string, code: string) {
    exists prefix :: variantId == prefix + "-" + code && HasNoDash(code)
  }

  lemma {:induction false} LastPart(variantId: string, code: string)
    ensures EndsInCode(variantId, code) <==> AfterLastDash(variantId) == Some(code)
  {
    if prefix :| variantId == prefix + "-" + code && HasNoDash(code) {
      DashSplits(prefix, code);
    }
    if AfterLastDash(variantId) == Some(code) {
      LastPartHasNoDash(variantId);
      PartFollowsDash(variantId);
    }
  }

  lemma {:induction false} PartFollowsDash(s: string)
    requires AfterLastDash(s).Some?
    ensures exists prefix :: s == prefix + "-" + AfterLastDash(s).value
  {
    if AfterLastDash(s[1..]).Some? {
      PartFollowsDash(s[1..]);
      var prefix :| s[1..] == prefix + "-" + AfterLastDash(s[1..]).value;
      assert s == ([s[0]] + prefix) + "-" + AfterLastDash(s).value;
    } else {
      assert s == "" + "-" + s[1..];
    }
  }

  /** A lookup gives the first entry with the material and the code after the variant's last dash; without one, the
      first with the material and the colours; and nothing exactly if there is neither. `i` and `j` are where two
      searches end. */
  lemma LookupIsExact(entries: seq<CatalogEntry>, materialId: string, variantId: string, colors: string, i: nat, j: nat)
    requires i <= |entries| && j <= |entries|
    requires i < |entries| ==> EndsInCode(variantId, entries[i].colorCode) && entries[i].materialId == materialId
    requires forall k :: 0 <= k < i ==>
               !(EndsInCode(variantId, entries[k].colorCode) && entries[k].materialId == materialId)
    requires j < |entries| ==> HasColours(entries[j], materialId, colors)
    requires forall k :: 0 <= k < j ==> !HasColours(entries[k], materialId, colors)
    ensures Lookup(entries, materialId, variantId, colors)
         == if i < |entries| then Some(entries[i]) else if j < |entries| then Some(entries[j]) else None
  {
    FirstColours(entries, materialId, colors, j);
    var code := AfterLastDash(variantId);
    forall k | 0 <= k < |entries|
      ensures EndsInCode(variantId, entries[k].colorCode) <==> code == Some(entries[k].colorCode)
    {
      LastPart(variantId, entries[k].colorCode);
    }
    if code.Some? {
      FirstCode(entries, materialId, code.value, i);
    }
  }

  predicate HasNoDash(s: string) {
    forall i :: 0 <= i < |s| ==> s[i] != '-'
  }

  lemma {:induction false} NoDash(s: string)
    requires HasNoDash(s)
    ensures AfterLastDash(s).None?
  {
    if s != "" {
      NoDash(s[1..]);
    }
  }

  lemma {:induction false} DashSplits(prefix: string, code: string)
    requires HasNoDash(code)
    ensures AfterLastDash(prefix + "-" + code) == Some(code)
  {
    var s := prefix + "-" + code;
    if prefix == "" {
      assert s[1..] == code;
      NoDash(code);
    } else {
      assert s[1..] == prefix[1..] + "-" + code;
      DashSplits(prefix[1..], code);
    }
  }

  lemma {:induction false} KeyIsFound(entries: seq<CatalogEntry>, k: nat)
    requires k < |entries|
    requires forall i :: 0 <= i < k ==>
               !(entries[i].materialId == entries[k].materialId && entries[i].colorCode == entries[k].colorCode)
    ensures FindCode(entries, entries[k].materialId, entries[k].colorCode) == Some(entries[k])
  {
    if k > 0 {
      KeyIsFound(entries[1..], k - 1);
    }
  }

  lemma {:induction false} LastPartHasNoDash(s: string)
    ensures AfterLastDash(s).Some? ==> HasNoDash(AfterLastDash(s).value)
    ensures AfterLastDash(s).None? ==> HasNoDash(s)
  {
    if s != "" {
      LastPartHasNoDash(s[1..]);
    }
  }

  lemma {:induction false} FoundHasCode(entries: seq<CatalogEntry>, materialId: string, code: string)
    ensures var found := FindCode(entries, materialId, code); found.Some? ==> found.value.colorCode == code
  {
    if entries != [] {
      FoundHasCode(entries[1..], materialId, code);
    }
  }

  lemma {:induction false} FoundHasColors(entries: seq<CatalogEntry>, materialId: string, colors: string)
    ensures var found := FindColors(entries, materialId, colors); found.Some? ==> found.value.colors == colors
  {
    if entries != [] {
      FoundHasColors(entries[1..], materialId, colors);
    }
  }

  lemma KeyWithoutDash(d: Document, k: nat, prefix: string, colors: string)
    requires Parsed(d).Some? && k < |Parsed(d).value| && HasNoDash(Parsed(d).value[k].colorCode)
    ensures var e := Parsed(d).value[k];
      Lookup(Parsed(d).value, e.materialId, prefix + "-" + e.colorCode, colors) == Some(e)
  {
    var items, entries := ReadUpstream(d).value, Parsed(d).value;
    DashSplits(prefix, entries[k].colorCode);
    forall i | 0 <= i < k
      ensures !(entries[i].materialId == entries[k].materialId && entries[i].colorCode == entries[k].colorCode)
    {
      assert !SameKey(items[i], items[k]);
    }
    KeyIsFound(entries, k);
  }

  /** A variant ending in a code with a dash finds some other entry, or one by its colours. */
  lemma KeyWithDash(entries: seq<CatalogEntry>, e: CatalogEntry, prefix: string)
    requires !HasNoDash(e.colorCode)
    ensures Lookup(entries, e.materialId, prefix + "-" + e.colorCode, e.colors + "x") != Some(e)
  {
    var variantId := prefix + "-" + e.colorCode;
    LastPartHasNoDash(variantId);
    if AfterLastDash(variantId).Some? {
      FoundHasCode(entries, e.materialId, AfterLastDash(variantId).value);
    }
    FoundHasColors(entries, e.materialId, e.colors + "x");
  }

  /** An entry of an accepted catalog is found by its own key, whatever colours the tag carries, exactly if its
      colour code has no dash: the variant is split at its last one. */
  lemma EveryEntryIsFound(d: Document, k: nat, prefix: string)
    requires Parsed(d).Some? && k < |Parsed(d).value|
    ensures var e := Parsed(d).value[k];
      (forall colors :: Lookup(Parsed(d).value, e.materialId, prefix + "-" + e.colorCode, colors) == Some(e))
      <==> HasNoDash(e.colorCode)
  {
    var entries, e := Parsed(d).value, Parsed(d).value[k];
    if HasNoDash(e.colorCode) {
      forall colors ensures Lookup(entries, e.materialId, prefix + "-" + e.colorCode, colors) == Some(e) {
        KeyWithoutDash(d, k, prefix, colors);
      }
    } else {
      KeyWithDash(entries, e, prefix);
    }
  }

  const DASHED: UpstreamEntry := UpstreamEntry("12345", "GFA00", "PLA", "Red", "", "A-1", ["#FF0000FF"])

  /** A catalog of one entry whose colour code has a dash. */
  const DASHED_CATALOG: Document :=
    [Number(1), Text("12345"), Text("GFA00"), Text("PLA"), Text("Red"), Text(""), Text("A-1"), Number(1),
     Text("#FF0000FF")]

  lemma DashedColorIsRead()
    ensures GetList(DASHED_CATALOG[7..], GetText) == Some(Read(["#FF0000FF"], []))
  {
    var d := DASHED_CATALOG[7..];
    assert d == [Number(1), Text("#FF0000FF")];
    assert d[1..] == [Text("#FF0000FF")] && d[1..][1..] == [];
    assert GetAll(0, [], GetText) == Some(Read([], []));
    assert ["#FF0000FF"] + [] == ["#FF0000FF"];
    GetAllCons(1, d[1..], GetText, Read("#FF0000FF", []), Read([], []));
  }

  lemma DashedEntryIsRead()
    ensures ReadUpstream(DASHED_CATALOG) == Some([DASHED])
  {
    var d := DASHED_CATALOG[1..];
    assert d[6..] == DASHED_CATALOG[7..];
    DashedColorIsRead();
    assert GetEntry(d) == Some(Read(DASHED, []));
    assert GetAll(0, [], GetEntry) == Some(Read([], [])) && [DASHED] + [] == [DASHED];
    GetAllCons(1, d, GetEntry, Read(DASHED, []), Read([], []));
    assert SkipBlanks(DASHED_CATALOG) == DASHED_CATALOG;
  }

  const DASHED_ENTRY: CatalogEntry := CatalogEntry("GFA00", "PLA", "Red", "", "12345", "A-1", "FF0000FF")

  lemma DashedColorIsNormal()
    ensures NormalizeRgba("#FF0000FF") == Some("FF0000FF")
  {
    assert WithoutHash("#FF0000FF") == "FF0000FF" == ToUpper("FF0000FF");
  }

  lemma DashedIsCatalog()
    ensures IsCatalog([DASHED]) && EntriesOf([DASHED]) == [DASHED_ENTRY]
  {
    DashedColorIsNormal();
    assert IsComplete(DASHED) && HasColors(DASHED);
    assert Normalized(DASHED.colors) == ["FF0000FF"];
  }

  lemma DashedLookup()
    ensures Lookup([DASHED_ENTRY], "GFA00", "A00-A-1", "00FF00FF") == None
  {
    DashSplits("A00-A", "1");
    assert "A00-A" + "-" + "1" == "A00-A-1";
    assert "FF0000FF"[0] != "00FF00FF"[0];
    assert FindCode([DASHED_ENTRY], "GFA00", "1") == FindCode([], "GFA00", "1");
    assert FindColors([DASHED_ENTRY], "GFA00", "00FF00FF") == FindColors([], "GFA00", "00FF00FF");
  }

  lemma SmallToken(t: Token)
    requires match t case Blank => true case Number(n) => n < 10 case Text(s) => |s| <= 9 && IsAscii(s)
             case Broken(_) => false
    ensures TokenSize(t) <= 11
  {
    if t.Text? {
      AsciiByteLength(t.s);
    }
  }

  lemma DashedIsSmall()
    ensures 0 < SizeOf(DASHED_CATALOG) <= MAX_CATALOG_SIZE
  {
    forall i | 0 <= i < |DASHED_CATALOG| ensures TokenSize(DASHED_CATALOG[i]) <= 11 {
      SmallToken(DASHED_CATALOG[i]);
    }
    SizeIsBounded(DASHED_CATALOG, 11);
  }

  lemma {:induction false} SizeIsBounded(d: Document, bound: nat)
    requires forall i :: 0 <= i < |d| ==> TokenSize(d[i]) <= bound
    ensures SizeOf(d) <= |d| * bound
  {
    if d != [] {
      SizeIsBounded(d[1..], bound);
      assert |d| * bound == bound + |d[1..]| * bound;
    }
  }

  lemma ReadableIsParsed(d: Document, items: seq<UpstreamEntry>, entries: seq<CatalogEntry>)
    requires 0 < SizeOf(d) <= MAX_CATALOG_SIZE && ReadUpstream(d) == Some(items) && IsCatalog(items)
             && EntriesOf(items) == entries
    ensures Parsed(d) == Some(entries)
  {
  }

  /** Such catalogs are accepted, and their entries are missed. */
  lemma DashedEntryIsMissed()
    ensures Parsed(DASHED_CATALOG) == Some([DASHED_ENTRY]) && !HasNoDash(DASHED_ENTRY.colorCode)
    ensures Lookup([DASHED_ENTRY], "GFA00", "A00-A-1", "00FF00FF") == None
  {
    DashedEntryIsRead();
    DashedIsCatalog();
    DashedLookup();
    DashedIsSmall();
    ReadableIsParsed(DASHED_CATALOG, [DASHED], [DASHED_ENTRY]);
    assert DASHED_ENTRY.colorCode[1] == '-';
  }

  // ---- A document cut short ----

  /** The first `k` digits of a number. */
  function Leading(n: nat, k: nat): (r: nat)
    requires k > 0
    ensures k <= DigitsOf(n) ==> DigitsOf(r) == k
    ensures n > 0 ==> r > 0
  {
    if k >= DigitsOf(n) then n else Leading(n / 10, k)
  }

  /** The first `k` bytes of a token. */
  function Remains(t: Token, k: nat): Token
    requires 0 < k < TokenSize(t)
  {
    if t.Number? then Number(Leading(t.n, k)) else Broken(k - 1)
  }

  /** The first `bytes` bytes of a document. */
  function Cut(d: Document, bytes: nat): Document {
    if bytes == 0 || d == [] then []
    else if bytes < TokenSize(d[0]) then [Remains(d[0], bytes)]
    else [d[0]] + Cut(d[1..], bytes - TokenSize(d[0]))
  }

  lemma {:induction false} CutHasSize(d: Document, bytes: nat)
    requires bytes <= SizeOf(d)
    ensures SizeOf(Cut(d, bytes)) == bytes
  {
    if bytes == 0 || d == [] {
    } else if bytes < TokenSize(d[0]) {
      assert Cut(d, bytes)[1..] == [];
    } else {
      CutHasSize(d[1..], bytes - TokenSize(d[0]));
    }
  }

  /** The last token shows that something is missing: a catalog ends in a whole text. */
  predicate EndsBroken(d: Document) {
    d != [] && var t := d[|d| - 1]; t.Broken? || (t.Number? && t.n > 0)
  }

  /** The bytes up to the last token that is no blank. */
  function Solid(d: Document): nat {
    if AllBlank(d) then 0 else TokenSize(d[0]) + Solid(d[1..])
  }

  /** A cut shows, unless it falls between two tokens; it spares the solid part exactly if only blanks are gone. */
  lemma {:induction false} CutShows(d: Document, bytes: nat) returns (kept: nat)
    ensures kept <= |d|
    ensures || (Cut(d, bytes) == d[..kept] && (AllBlank(d[kept..]) <==> bytes >= Solid(d)))
            || (EndsBroken(Cut(d, bytes)) && bytes < Solid(d))
  {
    if bytes == 0 || d == [] {
      kept := 0;
    } else if bytes < TokenSize(d[0]) {
      kept := 0;
    } else {
      kept := CutShows(d[1..], bytes - TokenSize(d[0]));
      var cut := Cut(d[1..], bytes - TokenSize(d[0]));
      assert cut != [] ==> Cut(d, bytes)[|cut|] == cut[|cut| - 1];
      assert d[1..][kept..] == d[kept + 1..];
      kept := kept + 1;
    }
  }

  lemma {:induction false} TextsStayBroken(count: nat, d: Document)
    requires EndsBroken(d) && GetAll(count, d, GetText).Some?
    ensures EndsBroken(GetAll(count, d, GetText).value.rest)
    decreases count
  {
    if count > 0 {
      TextsStayBroken(count - 1, d[1..]);
    }
  }

  lemma EntryStaysBroken(d: Document)
    requires EndsBroken(d) && GetEntry(d).Some?
    ensures EndsBroken(GetEntry(d).value.rest)
  {
    TextsStayBroken(d[6].n, d[6..][1..]);
  }

  lemma {:induction false} EntriesStayBroken(count: nat, d: Document)
    requires EndsBroken(d) && GetAll(count, d, GetEntry).Some?
    ensures EndsBroken(GetAll(count, d, GetEntry).value.rest)
    decreases count
  {
    if count > 0 {
      EntryStaysBroken(d);
      EntriesStayBroken(count - 1, GetEntry(d).value.rest);
    }
  }

  lemma {:induction false} BlanksStayBroken(d: Document)
    requires EndsBroken(d)
    ensures EndsBroken(SkipBlanks(d))
  {
    if d[0].Blank? {
      BlanksStayBroken(d[1..]);
    }
  }

  lemma BrokenIsNoCatalog(d: Document)
    requires EndsBroken(d)
    ensures ReadUpstream(d).None?
  {
    var text := SkipBlanks(d);
    BlanksStayBroken(d);
    if GetList(text, GetEntry).Some? {
      EntriesStayBroken(text[0].n, text[1..]);
    }
  }

  lemma {:induction false} TextsInPrefix(count: nat, a: Document, b: Document)
    requires GetAll(count, a, GetText).Some?
    ensures var r := GetAll(count, a, GetText).value;
      GetAll(count, a + b, GetText) == Some(Read(r.value, r.rest + b))
    decreases count
  {
    if count > 0 {
      assert (a + b)[1..] == a[1..] + b;
      TextsInPrefix(count - 1, a[1..], b);
    }
  }

  lemma EntryInPrefix(a: Document, b: Document)
    requires GetEntry(a).Some?
    ensures GetEntry(a + b) == Some(Read(GetEntry(a).value.value, GetEntry(a).value.rest + b))
  {
    assert (a + b)[6..] == a[6..] + b;
    assert (a[6..] + b)[1..] == a[6..][1..] + b;
    TextsInPrefix(a[6].n, a[6..][1..], b);
  }

  lemma {:induction false} EntriesInPrefix(count: nat, a: Document, b: Document)
    requires GetAll(count, a, GetEntry).Some?
    ensures var r := GetAll(count, a, GetEntry).value;
      GetAll(count, a + b, GetEntry) == Some(Read(r.value, r.rest + b))
    decreases count
  {
    if count > 0 {
      var first := GetEntry(a).value;
      EntryInPrefix(a, b);
      EntriesInPrefix(count - 1, first.rest, b);
    }
  }

  lemma {:induction false} BlanksInPrefix(a: Document, b: Document)
    requires SkipBlanks(a) != []
    ensures SkipBlanks(a + b) == SkipBlanks(a) + b
  {
    if a[0].Blank? {
      assert (a + b)[1..] == a[1..] + b;
      BlanksInPrefix(a[1..], b);
    }
  }

  lemma ListInPrefix(a: Document, b: Document)
    requires GetList(a, GetEntry).Some?
    ensures var r := GetList(a, GetEntry).value;
      GetList(a + b, GetEntry) == Some(Read(r.value, r.rest + b))
  {
    assert (a + b)[1..] == a[1..] + b;
    EntriesInPrefix(a[0].n, a[1..], b);
  }

  lemma {:induction false} TextsNeedNoBlanks(count: nat, a: Document, b: Document)
    requires AllBlank(b) && GetAll(count, a + b, GetText).Some?
    ensures GetAll(count, a, GetText).Some?
    decreases count
  {
    if count > 0 {
      assert (a + b)[0].Text? && a != [];
      assert (a + b)[1..] == a[1..] + b;
      TextsNeedNoBlanks(count - 1, a[1..], b);
    }
  }

  lemma EntryNeedsNoBlanks(a: Document, b: Document)
    requires AllBlank(b) && GetEntry(a + b).Some?
    ensures GetEntry(a).Some?
  {
    assert forall i :: 0 <= i < 7 ==> !(a + b)[i].Blank?;
    assert |a| >= 7;
    assert forall i :: 0 <= i < 7 ==> a[i] == (a + b)[i];
    assert (a + b)[6..][1..] == a[6..][1..] + b;
    TextsNeedNoBlanks(a[6].n, a[6..][1..], b);
  }

  lemma {:induction false} EntriesNeedNoBlanks(count: nat, a: Document, b: Document)
    requires AllBlank(b) && GetAll(count, a + b, GetEntry).Some?
    ensures GetAll(count, a, GetEntry).Some?
    decreases count
  {
    if count > 0 {
      EntryNeedsNoBlanks(a, b);
      EntryInPrefix(a, b);
      EntriesNeedNoBlanks(count - 1, GetEntry(a).value.rest, b);
    }
  }

  lemma {:induction false} BlanksSkipBlanks(a: Document, b: Document)
    requires AllBlank(a) && AllBlank(b)
    ensures SkipBlanks(a + b) == []
    decreases |a| + |b|
  {
    if a != [] {
      assert (a + b)[1..] == a[1..] + b;
      BlanksSkipBlanks(a[1..], b);
    } else if b != [] {
      assert [] + b == b && b[1..] + [] == b[1..] && [] + b[1..] == b[1..];
      BlanksSkipBlanks([], b[1..]);
    }
  }

  lemma ReadNeedsNoBlanks(a: Document, b: Document)
    requires AllBlank(b) && SkipBlanks(a) != [] && ReadUpstream(a + b).Some?
    ensures ReadUpstream(a) == ReadUpstream(a + b)
  {
    var text := SkipBlanks(a);
    BlanksInPrefix(a, b);
    assert (text + b)[1..] == text[1..] + b;
    EntriesNeedNoBlanks(text[0].n, text[1..], b);
    ListInPrefix(text, b);
    var rest := GetList(text, GetEntry).value.rest;
    assert forall i :: 0 <= i < |rest| ==> rest[i] == (rest + b)[i];
  }

  lemma {:induction false} SkipsToNothing(a: Document)
    ensures SkipBlanks(a) == [] <==> AllBlank(a)
  {
    if a != [] && a[0].Blank? {
      SkipsToNothing(a[1..]);
    }
  }

  lemma {:induction false} PrefixIsSmaller(d: Document, kept: nat)
    requires kept <= |d|
    ensures SizeOf(d[..kept]) <= SizeOf(d)
  {
    if kept > 0 {
      assert d[..kept][1..] == d[1..][..kept - 1];
      PrefixIsSmaller(d[1..], kept - 1);
    }
  }

  lemma BlanksDoNotMatter(d: Document, kept: nat)
    requires Parsed(d).Some? && kept <= |d| && AllBlank(d[kept..])
    ensures Parsed(d[..kept]) == Parsed(d)
  {
    var a, b := d[..kept], d[kept..];
    assert d == a + b;
    SkipsToNothing(a);
    if AllBlank(a) {
      BlanksSkipBlanks(a, b);
    } else {
      PrefixIsSmaller(d, kept);
      ReadNeedsNoBlanks(a, b);
    }
  }

  lemma OnlyBlanksFollow(d: Document, kept: nat)
    requires Parsed(d).Some? && kept <= |d|
    ensures Parsed(d[..kept]).Some? ==> AllBlank(d[kept..])
  {
    var a, b := d[..kept], d[kept..];
    assert d == a + b;
    if Parsed(a).Some? {
      BlanksInPrefix(a, b);
      ListInPrefix(SkipBlanks(a), b);
      var rest := GetList(SkipBlanks(a), GetEntry).value.rest;
      assert forall i :: 0 <= i < |b| ==> (rest + b)[|rest| + i] == b[i];
    }
  }

  /** A file cut short at any byte holds the same catalog if only blanks are gone, and none otherwise. */
  lemma TornIsWholeOrNothing(d: Document, bytes: nat)
    requires Parsed(d).Some?
    ensures Parsed(Cut(d, bytes)) == if bytes >= Solid(d) then Parsed(d) else None
  {
    var kept := CutShows(d, bytes);
    if EndsBroken(Cut(d, bytes)) && bytes < Solid(d) {
      BrokenIsNoCatalog(Cut(d, bytes));
    } else if bytes >= Solid(d) {
      BlanksDoNotMatter(d, kept);
    } else {
      OnlyBlanksFollow(d, kept);
    }
  }

  // ---- The SD card ----

  /** The files of the catalog; a missing or unreadable one is `None`. */
  datatype Files = Files(staging: Option<Document>, catalog: Option<Document>, legacy: Option<Document>)

  /** How a write ends. A crash or an error leaves the file as it was, or with the first bytes of the document. */
  datatype WriteAnswer = Wrote | Untouched | Torn(bytes: nat)

  function Written(before: Option<Document>, d: Document, answer: WriteAnswer): Option<Document> {
    match answer
    case Wrote => Some(d)
    case Untouched => before
    case Torn(bytes) => Some(Cut(d, bytes))
  }

  function ParsedFile(file: Option<Document>): Option<seq<CatalogEntry>> {
    if file.None? then None else Parsed(file.value)
  }

  /** What the device loads at boot. */
  function Loaded(f: Files): Option<seq<CatalogEntry>> {
    if ParsedFile(f.staging).Some? then ParsedFile(f.staging)
    else if ParsedFile(f.catalog).Some? then ParsedFile(f.catalog)
    else ParsedFile(f.legacy)
  }

  function FirstCatalog(paths: seq<Option<Document>>): Option<seq<CatalogEntry>> {
    if paths == [] then None
    else if ParsedFile(paths[0]).Some? then ParsedFile(paths[0])
    else FirstCatalog(paths[1..])
  }

  lemma LoadedIsFirst(f: Files)
    ensures FirstCatalog([f.staging, f.catalog, f.legacy]) == Loaded(f)
  {
    var paths := [f.staging, f.catalog, f.legacy];
    assert paths[1..] == [f.catalog, f.legacy] && [f.catalog, f.legacy][1..] == [f.legacy];
    assert FirstCatalog([f.legacy]) == ParsedFile(f.legacy);
    assert FirstCatalog([f.catalog, f.legacy])
        == if ParsedFile(f.catalog).Some? then ParsedFile(f.catalog) else ParsedFile(f.legacy);
  }

  /** The files after an update, or at the point it was interrupted. */
  function Updated(f: Files, d: Document, first: WriteAnswer, second: WriteAnswer): Files {
    var staged := f.(staging := Written(f.staging, d, first));
    if first.Wrote? then staged.(catalog := Written(f.catalog, d, second)) else staged
  }

  datatype State = NoCachedCatalog | Downloading | Ready | UpdateFailed

  class CatalogService {
    const available: bool
    var files: Files
    var entries: seq<CatalogEntry>
    var count: nat
    var state: State
    /** Whether the last catalog came from the network. */
    var online: bool

    constructor (sdcardAvailable: bool, onCard: Files)
      ensures available == sdcardAvailable && files == onCard && entries == [] && count == 0 && state == NoCachedCatalog
    {
      available, files, entries, count, state, online := sdcardAvailable, onCard, [], 0, NoCachedCatalog, false;
    }

    /** `load_from_sd`: the first valid file of staging, catalog and legacy. */
    method LoadFromSd()
      modifies this`entries, this`count, this`state, this`online
      ensures if available && Loaded(files).Some?
              then entries == Loaded(files).value && count == |entries| && state == Ready && !online
              else entries == old(entries) && count == old(count) && state == old(state) && online == old(online)
    {
      if !available {
        return;
      }
      var paths := [files.staging, files.catalog, files.legacy];
      LoadedIsFirst(files);
      for i := 0 to |paths|
        invariant FirstCatalog(paths[i..]) == Loaded(files)
        invariant entries == old(entries) && count == old(count) && state == old(state) && online == old(online)
      {
        if paths[i].None? {
          continue;
        }
        var catalog := ParseCatalog(paths[i].value);
        if catalog.Some? {
          entries, count, state, online := catalog.value, |catalog.value|, Ready, false;
          return;
        }
      }
    }

    /** `update`: the catalog in memory changes only after every write has succeeded, and then it is what both
        files hold. */
    method Update(download: Option<Document>, first: WriteAnswer, second: WriteAnswer) returns (ok: bool)
      modifies this
      ensures ok <==> download.Some? && Parsed(download.value).Some? && (available ==> first.Wrote? && second.Wrote?)
      ensures files == if available && download.Some? && Parsed(download.value).Some?
                       then Updated(old(files), download.value, first, second) else old(files)
      ensures ok ==> Some(entries) == Parsed(download.value) && count == |entries| && state == Ready && online
      ensures ok && available ==> Some(entries) == ParsedFile(files.staging) == ParsedFile(files.catalog)
      ensures !ok ==> entries == old(entries) && count == old(count) && state == UpdateFailed && online == old(online)
    {
      state := Downloading;
      if download.None? {
        state := UpdateFailed;
        return false;
      }
      var bytes := download.value;
      var catalog := ParseCatalog(bytes);
      if catalog.None? {
        state := UpdateFailed;
        return false;
      }
      if available {
        files := files.(staging := Written(files.staging, bytes, first));
        if !first.Wrote? {
          state := UpdateFailed;
          return false;
        }
        files := files.(catalog := Written(files.catalog, bytes, second));
        if !second.Wrote? {
          state := UpdateFailed;
          return false;
        }
      }
      entries := catalog.value;
      count, state, online := |entries|, Ready, true;
      return true;
    }
  }

  // ---- Crashes ----

  predicate HoldsCatalog(file: Option<Document>) {
    ParsedFile(file).Some?
  }

  /** Wherever an update stops: before the staging write, what was loaded before; inside it, the catalog in place,
      or the new one if only blanks are missing; after it, the new catalog. */
  lemma InterruptionsAreHarmless(f: Files, d: Document, first: WriteAnswer, second: WriteAnswer)
    requires HoldsCatalog(f.catalog) && Parsed(d).Some?
    ensures var loaded := Loaded(Updated(f, d, first, second));
      match first
      case Untouched =>
        loaded == Loaded(f) && (loaded == ParsedFile(f.staging) || loaded == ParsedFile(f.catalog)) && loaded.Some?
      case Torn(bytes) => loaded == (if bytes >= Solid(d) then Parsed(d) else ParsedFile(f.catalog)) && loaded.Some?
      case Wrote => loaded == Parsed(d)
  {
    if first.Torn? {
      TornIsWholeOrNothing(d, first.bytes);
    }
  }

  /** No interruption can lose the catalog exactly if the catalog file or the legacy file is valid beforehand. */
  lemma SurvivesExactly(f: Files, d: Document)
    requires Parsed(d).Some?
    ensures (forall first, second :: Loaded(Updated(f, d, first, second)).Some?) <==>
            HoldsCatalog(f.catalog) || HoldsCatalog(f.legacy)
  {
    if HoldsCatalog(f.catalog) || HoldsCatalog(f.legacy) {
      forall first, second ensures Loaded(Updated(f, d, first, second)).Some? {
      }
    } else {
      assert Loaded(Updated(f, d, Torn(0), Wrote)).None?;
    }
  }

  /** One interruption can break that condition. A second write cut short and then a first write cut short leave
      nothing to load exactly if each misses more than blanks, which a cut can do anywhere from the start on. */
  lemma TwoInterruptionsLoseTheCatalog(f: Files, d: Document, x: nat, e: Document, y: nat)
    requires HoldsCatalog(f.catalog) && !HoldsCatalog(f.legacy) && Parsed(d).Some? && Parsed(e).Some?
    ensures Solid(d) > 0 && Solid(e) > 0
    ensures var once := Updated(f, d, Wrote, Torn(x));
      Loaded(once) == Parsed(d) && (Loaded(Updated(once, e, Torn(y), Wrote)).None? <==> x < Solid(d) && y < Solid(e))
  {
    TornIsWholeOrNothing(d, 0);
    TornIsWholeOrNothing(e, 0);
    TornIsWholeOrNothing(d, x);
    TornIsWholeOrNothing(e, y);
  }

  /** A run of updates, each with its document and the answers of its two writes. */
  datatype Attempt = Attempt(document: Document, first: WriteAnswer, second: WriteAnswer)

  function UpdatedAll(f: Files, attempts: seq<Attempt>): Files
    decreases |attempts|
  {
    if attempts == [] then f
    else
      var a := attempts[0];
      UpdatedAll(if Parsed(a.document).Some? then Updated(f, a.document, a.first, a.second) else f, attempts[1..])
  }

  /** The second write ends before the solid part does. */
  predicate CutsSecond(a: Attempt) {
    a.second.Torn? && a.second.bytes < Solid(a.document)
  }

  /** Interruptions can go on for ever if none cuts more than blanks off a second write. */
  lemma {:induction false} StagingAloneIsHarmless(f: Files, attempts: seq<Attempt>)
    requires HoldsCatalog(f.catalog) || HoldsCatalog(f.legacy)
    requires forall i :: 0 <= i < |attempts| ==> !CutsSecond(attempts[i]) || HoldsCatalog(f.legacy)
    ensures Loaded(UpdatedAll(f, attempts)).Some?
    decreases |attempts|
  {
    if attempts != [] {
      var a := attempts[0];
      var g := if Parsed(a.document).Some? then Updated(f, a.document, a.first, a.second) else f;
      assert forall i :: 0 <= i < |attempts[1..]| ==> attempts[1..][i] == attempts[i + 1];
      if a.second.Torn? && Parsed(a.document).Some? {
        TornIsWholeOrNothing(a.document, a.second.bytes);
      }
      StagingAloneIsHarmless(g, attempts[1..]);
    }
  }
}
