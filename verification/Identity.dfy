/** Spool identities: what the device calls a spool and what the server's list calls it. */
module Identity {
  import opened Text

  datatype SpoolSource = BambuLab | OpenPrintTag

  datatype ProductReference =
    | Bambu(materialId: string, variantId: string, detailedFilamentType: string, colorName: string)
    | OpenPrintTagProduct(ndefUri: Option<string>)

  /** A decoded spool. The descriptive fields the store never looks at are not part of this model. */
  datatype FilamentSpool = FilamentSpool(
    source: SpoolSource,
    externalId: string,
    tagUid: string,
    materialName: string,
    materialType: string,
    product: ProductReference)

  const BAMBU_PREFIX := "bambulab:"
  const OPENPRINTTAG_PREFIX := "openprinttag:"

  /** `canonical_external_id` */
  function CanonicalId(spool: FilamentSpool): string {
    match spool.source
    case BambuLab => BAMBU_PREFIX + ToUpper(spool.externalId)
    case OpenPrintTag => OPENPRINTTAG_PREFIX + ToLower(spool.externalId)
  }

  predicate StartsWithIgnoringCase(s: string, prefix: string) {
    |prefix| <= |s| && EqIgnoreCase(s[..|prefix|], prefix)
  }

  /** `canonicalize_remote_external_id` */
  function CanonicalizeRemote(text: string): Option<string> {
    var value := Trim(text);
    if StartsWith(value, BAMBU_PREFIX) then
      var id := value[|BAMBU_PREFIX|..];
      if id != "" then Some(BAMBU_PREFIX + ToUpper(id)) else None
    else if StartsWith(value, OPENPRINTTAG_PREFIX) then
      var id := value[|OPENPRINTTAG_PREFIX|..];
      if id != "" then Some(OPENPRINTTAG_PREFIX + ToLower(id)) else None
    else if ByteLength(value) == 32 && AllHexDigits(value) then
      Some(BAMBU_PREFIX + ToUpper(value))
    else if ByteLength(value) == 36 then
      Some(OPENPRINTTAG_PREFIX + ToLower(value))
    else None
  }

  /** `validate_spool`, with the texts it shows to the user */
  function ValidateSpool(spool: FilamentSpool): Result<(), string> {
    if spool.externalId == "" || spool.materialType == "" || spool.materialName == "" then
      Err("required decoded filament metadata is missing")
    else
      match spool.product
      case Bambu(materialId, variantId, detailedType, colorName) =>
        if ByteLength(spool.externalId) != 32 || !AllHexDigits(spool.externalId) then
          Err("Bambu Tray UID is missing or invalid")
        else if materialId == "" || variantId == "" || detailedType == "" || colorName == "" then
          Err("required decoded Bambu filament metadata is missing")
        else Ok(())
      case OpenPrintTagProduct(_) =>
        if ByteLength(spool.externalId) != 36 then
          Err("OpenPrintTag instance UUID is missing or invalid")
        else Ok(())
  }

  /** A spool is let through exactly with an external id, a type and a name, and, if it is Bambu's, an id of 32
      hexadecimal digits and all four names of its product, or else an id of 36 bytes. */
  lemma ValidatedExactly(spool: FilamentSpool)
    ensures ValidateSpool(spool).Ok? <==>
      && |spool.externalId| > 0 && |spool.materialType| > 0 && |spool.materialName| > 0
      && match spool.product
         case Bambu(material, variant, detailed, color) =>
           && |spool.externalId| == 32
           && (forall i :: 0 <= i < 32 ==>
                 var c := spool.externalId[i]; '0' <= c <= '9' || 'a' <= c <= 'f' || 'A' <= c <= 'F')
           && |material| > 0 && |variant| > 0 && |detailed| > 0 && |color| > 0
         case OpenPrintTagProduct(_) => ByteLength(spool.externalId) == 36
  {
    if AllHexDigits(spool.externalId) {
      assert IsAscii(spool.externalId);
      AsciiByteLength(spool.externalId);
    }
  }

  /** Bambu's ids are written in capitals behind their prefix, the others in small letters behind theirs. */
  lemma CanonicalSpelling(spool: FilamentSpool, i: nat)
    requires i < |spool.externalId|
    ensures var id, c := CanonicalId(spool), spool.externalId[i];
      if spool.source == BambuLab then
        |id| == 9 + |spool.externalId| && id[..9] == "bambulab:"
        && id[9 + i] == if 'a' <= c <= 'z' then (c as int - 32) as char else c
      else
        |id| == 13 + |spool.externalId| && id[..13] == "openprinttag:"
        && id[13 + i] == if 'A' <= c <= 'Z' then (c as int + 32) as char else c
  {
  }

  predicate IsUuidChar(c: char) {
    IsHexDigit(c) || c == '-'
  }

  /** The decoder only produces product references of the tag's own kind, and writes every
      external id in hexadecimal digits and dashes. */
  predicate IsDecoded(spool: FilamentSpool) {
    && (spool.source == BambuLab <==> spool.product.Bambu?)
    && forall i :: 0 <= i < |spool.externalId| ==> IsUuidChar(spool.externalId[i])
  }

  /** A spool both the decoder and `validate_spool` let through. */
  predicate IsStorable(spool: FilamentSpool) {
    IsDecoded(spool) && ValidateSpool(spool).Ok?
  }

  /** How `find_spool` compares an entry of the server's list with a spool. */
  predicate ScanMatches(text: string, spool: FilamentSpool) {
    EqIgnoreCase(text, CanonicalId(spool)) || EqIgnoreCase(text, spool.externalId)
  }

  /** How the inventory cache compares the same entry. */
  predicate CacheMatches(text: string, spool: FilamentSpool) {
    CanonicalizeRemote(text) == Some(CanonicalId(spool))
  }

  /** The entry carries white space `find_spool` does not remove. */
  predicate HasOuterSpace(text: string) {
    Trim(text) != text
  }

  /** The entry spells a known prefix in letters the cache does not recognise. */
  predicate HasForeignPrefix(text: string) {
    var value := Trim(text);
    || (StartsWithIgnoringCase(value, BAMBU_PREFIX) && !StartsWith(value, BAMBU_PREFIX))
    || (StartsWithIgnoringCase(value, OPENPRINTTAG_PREFIX) && !StartsWith(value, OPENPRINTTAG_PREFIX))
  }

  /** Apart from outer space and letter case, the entry names the spool. */
  predicate Names(text: string, spool: FilamentSpool) {
    ScanMatches(Trim(text), spool)
  }

  lemma StorableLengths(spool: FilamentSpool)
    requires IsStorable(spool)
    ensures |spool.externalId| == if spool.source == BambuLab then 32 else 36
    ensures IsAscii(spool.externalId)
    ensures spool.source == BambuLab ==> AllHexDigits(spool.externalId)
  {
    assert IsAscii(spool.externalId);
    AsciiByteLength(spool.externalId);
  }

  /** Neither prefix can be read out of an external id, whatever its letter case. */
  lemma UuidHasNoPrefix(text: string, spool: FilamentSpool)
    requires IsDecoded(spool) && EqIgnoreCase(text, spool.externalId)
    ensures !StartsWithIgnoringCase(text, BAMBU_PREFIX)
    ensures !StartsWithIgnoringCase(text, OPENPRINTTAG_PREFIX)
    ensures forall i :: 0 <= i < |text| ==> IsUuidChar(text[i]) && !IsWhitespace(text[i])
  {
    forall i | 0 <= i < |text| ensures IsUuidChar(text[i]) {
      assert IsUuidChar(spool.externalId[i]);
      assert LowerChar(text[i]) == LowerChar(spool.externalId[i]);
    }
    if |text| >= |OPENPRINTTAG_PREFIX| {
      assert LowerChar(text[..|BAMBU_PREFIX|][2]) != LowerChar(BAMBU_PREFIX[2]) by { assert IsUuidChar(text[2]); }
      assert IsUuidChar(text[0]);
      assert LowerChar(text[..|OPENPRINTTAG_PREFIX|][0]) != LowerChar(OPENPRINTTAG_PREFIX[0]);
    } else if |text| >= |BAMBU_PREFIX| {
      assert LowerChar(text[..|BAMBU_PREFIX|][2]) != LowerChar(BAMBU_PREFIX[2]) by { assert IsUuidChar(text[2]); }
    }
  }

  /** Ignoring case splits at a prefix. */
  lemma SplitIgnoringCase(text: string, prefix: string, rest: string)
    ensures EqIgnoreCase(text, prefix + rest)
      <==> (StartsWithIgnoringCase(text, prefix) && EqIgnoreCase(text[|prefix|..], rest))
  {
    if StartsWithIgnoringCase(text, prefix) && EqIgnoreCase(text[|prefix|..], rest) {
      forall i | 0 <= i < |text|
        ensures LowerChar(text[i]) == LowerChar((prefix + rest)[i])
      {
        if i < |prefix| {
          assert text[i] == text[..|prefix|][i];
        } else {
          assert text[i] == text[|prefix|..][i - |prefix|];
        }
      }
    }
    if EqIgnoreCase(text, prefix + rest) {
      forall i | 0 <= i < |prefix|
        ensures LowerChar(text[..|prefix|][i]) == LowerChar(prefix[i])
      {
        assert LowerChar(text[i]) == LowerChar((prefix + rest)[i]);
      }
      forall i | 0 <= i < |rest|
        ensures LowerChar(text[|prefix|..][i]) == LowerChar(rest[i])
      {
        assert LowerChar(text[i + |prefix|]) == LowerChar((prefix + rest)[i + |prefix|]);
      }
    }
  }

  /** Canonical names are equal exactly when source and id agree up to letter case. */
  lemma EqualCanonical(prefix: string, id: string, spool: FilamentSpool)
    requires prefix == BAMBU_PREFIX || prefix == OPENPRINTTAG_PREFIX
    ensures (prefix + (if prefix == BAMBU_PREFIX then ToUpper(id) else ToLower(id)) == CanonicalId(spool))
      <==> ((prefix == BAMBU_PREFIX <==> spool.source == BambuLab) && EqIgnoreCase(id, spool.externalId))
  {
    CaseFolding(id, spool.externalId);
    var mine := if prefix == BAMBU_PREFIX then ToUpper(id) else ToLower(id);
    var theirs := if spool.source == BambuLab then ToUpper(spool.externalId) else ToLower(spool.externalId);
    assert (prefix + mine)[0] == prefix[0] && CanonicalId(spool)[0] == (if spool.source == BambuLab then 'b' else 'o');
    if prefix + mine == CanonicalId(spool) {
      assert (prefix + mine)[|prefix|..] == mine;
      assert CanonicalId(spool)[|prefix|..] == theirs;
    }
  }

  /** What `find_spool` recognises, split by the two spellings. */
  lemma ScanCases(text: string, spool: FilamentSpool)
    ensures var prefix := if spool.source == BambuLab then BAMBU_PREFIX else OPENPRINTTAG_PREFIX;
      EqIgnoreCase(text, CanonicalId(spool))
      <==> (StartsWithIgnoringCase(text, prefix) && EqIgnoreCase(text[|prefix|..], spool.externalId))
  {
    var prefix := if spool.source == BambuLab then BAMBU_PREFIX else OPENPRINTTAG_PREFIX;
    var id := if spool.source == BambuLab then ToUpper(spool.externalId) else ToLower(spool.externalId);
    SplitIgnoringCase(text, prefix, id);
    if StartsWithIgnoringCase(text, prefix) {
      CaseFolding(text[|prefix|..], spool.externalId);
      CaseFolding(text[|prefix|..], id);
      assert ToUpper(ToUpper(spool.externalId)) == ToUpper(spool.externalId);
      assert ToLower(ToLower(spool.externalId)) == ToLower(spool.externalId);
    }
  }

  lemma OnePrefixOnly(text: string)
    ensures !(StartsWithIgnoringCase(text, BAMBU_PREFIX) && StartsWithIgnoringCase(text, OPENPRINTTAG_PREFIX))
    ensures StartsWith(text, BAMBU_PREFIX) ==> StartsWithIgnoringCase(text, BAMBU_PREFIX)
    ensures StartsWith(text, OPENPRINTTAG_PREFIX) ==> StartsWithIgnoringCase(text, OPENPRINTTAG_PREFIX)
  {
    if StartsWithIgnoringCase(text, BAMBU_PREFIX) {
      assert LowerChar(text[0]) == 'b' by {
        assert LowerChar(text[..|BAMBU_PREFIX|][0]) == LowerChar(BAMBU_PREFIX[0]);
      }
      if |text| >= |OPENPRINTTAG_PREFIX| {
        assert LowerChar(text[..|OPENPRINTTAG_PREFIX|][0]) != LowerChar(OPENPRINTTAG_PREFIX[0]);
      }
    }
  }

  /** For an entry without outer space, the cache recognises what the scan recognises, except
      when the prefix is spelt in other letters. */
  lemma TrimmedAgreement(value: string, spool: FilamentSpool)
    requires IsStorable(spool)
    requires Trim(value) == value
    ensures CacheMatches(value, spool) <==> (ScanMatches(value, spool) && !HasForeignPrefix(value))
  {
    StorableLengths(spool);
    ScanCases(value, spool);
    OnePrefixOnly(value);
    if EqIgnoreCase(value, spool.externalId) {
      UuidHasNoPrefix(value, spool);
      forall i | 0 <= i < |value| ensures value[i] as int < 0x80 {
        assert IsUuidChar(value[i]);
      }
      AsciiByteLength(value);
    }
    if StartsWith(value, BAMBU_PREFIX) {
      EqualCanonical(BAMBU_PREFIX, value[|BAMBU_PREFIX|..], spool);
    } else if StartsWith(value, OPENPRINTTAG_PREFIX) {
      EqualCanonical(OPENPRINTTAG_PREFIX, value[|OPENPRINTTAG_PREFIX|..], spool);
    } else {
      BareAgreement(value, spool);
    }
  }

  /** The same for an entry that starts with no prefix the cache recognises. */
  lemma BareAgreement(value: string, spool: FilamentSpool)
    requires IsStorable(spool)
    requires Trim(value) == value
    requires !StartsWith(value, BAMBU_PREFIX) && !StartsWith(value, OPENPRINTTAG_PREFIX)
    ensures CacheMatches(value, spool) <==> EqIgnoreCase(value, spool.externalId)
  {
    StorableLengths(spool);
    EqualCanonical(BAMBU_PREFIX, value, spool);
    EqualCanonical(OPENPRINTTAG_PREFIX, value, spool);
    if EqIgnoreCase(value, spool.externalId) {
      UuidHasNoPrefix(value, spool);
      ByteLengthIgnoresCase(value, spool.externalId);
      AsciiByteLength(spool.externalId);
      if spool.source == BambuLab {
        forall i | 0 <= i < |value| ensures IsHexDigit(value[i]) {
          assert IsHexDigit(spool.externalId[i]);
          assert LowerChar(value[i]) == LowerChar(spool.externalId[i]);
        }
      }
    }
  }

  /** White space survives `eq_ignore_ascii_case`, so an untrimmed entry is never recognised by the scan. */
  lemma UntrimmedNeverScans(text: string, spool: FilamentSpool)
    requires IsStorable(spool) && HasOuterSpace(text)
    ensures !ScanMatches(text, spool)
  {
    if EqIgnoreCase(text, spool.externalId) {
      UuidHasNoPrefix(text, spool);
    }
    if EqIgnoreCase(text, CanonicalId(spool)) {
      forall i | 0 <= i < |text| ensures !IsWhitespace(text[i]) {
        CanonicalCharacters(spool, i);
        assert LowerChar(text[i]) == LowerChar(CanonicalId(spool)[i]);
      }
    }
  }

  lemma CanonicalCharacters(spool: FilamentSpool, i: nat)
    requires IsDecoded(spool) && i < |CanonicalId(spool)|
    ensures !IsWhitespace(LowerChar(CanonicalId(spool)[i]))
  {
    var prefix := if spool.source == BambuLab then BAMBU_PREFIX else OPENPRINTTAG_PREFIX;
    if i >= |prefix| {
      assert IsUuidChar(spool.externalId[i - |prefix|]);
    } else {
      assert CanonicalId(spool)[i] == prefix[i];
      assert forall c :: c in prefix ==> 'a' <= c <= 'z' || c == ':' by {
        assert forall c :: c in BAMBU_PREFIX ==> 'a' <= c <= 'z' || c == ':';
        assert forall c :: c in OPENPRINTTAG_PREFIX ==> 'a' <= c <= 'z' || c == ':';
      }
    }
  }

  lemma {:induction false} TrimEndLeavesNoSpace(s: string)
    ensures TrimEnd(s) != "" ==> !IsWhitespace(TrimEnd(s)[|TrimEnd(s)| - 1])
    ensures TrimEnd(s) != "" ==> TrimEnd(s)[0] == s[0]
    ensures |TrimEnd(s)| <= |s|
  {
    if s != "" && IsWhitespace(s[|s| - 1]) {
      TrimEndLeavesNoSpace(s[..|s| - 1]);
    }
  }

  lemma {:induction false} TrimStartLeavesNoSpace(s: string)
    ensures TrimStart(s) != "" ==> !IsWhitespace(TrimStart(s)[0])
  {
    if s != "" && IsWhitespace(s[0]) {
      TrimStartLeavesNoSpace(s[1..]);
    }
  }

  lemma TrimIsIdempotent(s: string)
    ensures Trim(Trim(s)) == Trim(s)
  {
    TrimStartLeavesNoSpace(s);
    TrimEndLeavesNoSpace(TrimStart(s));
  }

  /** Each way of comparing overlooks the entries with its own defect, and no others. */
  lemma EachHasItsDefect(text: string, spool: FilamentSpool)
    requires IsStorable(spool)
    ensures ScanMatches(text, spool) <==> Names(text, spool) && !HasOuterSpace(text)
    ensures CacheMatches(text, spool) <==> Names(text, spool) && !HasForeignPrefix(text)
  {
    var value := Trim(text);
    TrimIsIdempotent(text);
    TrimmedAgreement(value, spool);
    if HasOuterSpace(text) {
      UntrimmedNeverScans(text, spool);
    }
  }

  /** Exactly when the cache and the scan judge an entry alike: the entry does not name the spool at
      all, or it has both defects or neither. */
  lemma AgreementIsExact(text: string, spool: FilamentSpool)
    requires IsStorable(spool)
    ensures (CacheMatches(text, spool) <==> ScanMatches(text, spool))
      <==> (!Names(text, spool) || (HasOuterSpace(text) <==> HasForeignPrefix(text)))
  {
    EachHasItsDefect(text, spool);
  }

  /** An entry with neither defect is judged alike for every spool. */
  predicate IsTidy(text: string) {
    !HasOuterSpace(text) && !HasForeignPrefix(text)
  }

  lemma CanonicalIsTidy(spool: FilamentSpool)
    requires IsStorable(spool)
    ensures IsTidy(CanonicalId(spool)) && ScanMatches(CanonicalId(spool), spool)
  {
    var id := CanonicalId(spool);
    CanonicalCharacters(spool, 0);
    CanonicalCharacters(spool, |id| - 1);
    OnePrefixOnly(id);
  }

  lemma SpacedNameIsCachedOnly(spool: FilamentSpool)
    requires IsStorable(spool)
    ensures CacheMatches(" " + CanonicalId(spool), spool) && !ScanMatches(" " + CanonicalId(spool), spool)
  {
    var id := CanonicalId(spool);
    CanonicalIsTidy(spool);
    TrimmedAgreement(id, spool);
    CanonicalCharacters(spool, 0);
    assert TrimStart(" " + id) == TrimStart((" " + id)[1..]);
    assert (" " + id)[1..] == id;
    UntrimmedNeverScans(" " + id, spool);
  }

  lemma LoudNameIsScannedOnly(spool: FilamentSpool)
    requires IsStorable(spool)
    ensures ScanMatches(ToUpper(CanonicalId(spool)), spool) && !CacheMatches(ToUpper(CanonicalId(spool)), spool)
  {
    var id := CanonicalId(spool);
    var loud := ToUpper(id);
    CaseFolding(loud, id);
    assert ToUpper(loud) == ToUpper(id);
    if HasOuterSpace(loud) {
      UntrimmedNeverScans(loud, spool);
    }
    TrimmedAgreement(loud, spool);
    ScanCases(loud, spool);
    assert loud[0] == UpperChar(id[0]);
    assert StartsWith(loud, BAMBU_PREFIX) ==> loud[0] == loud[..|BAMBU_PREFIX|][0] == 'b';
    assert StartsWith(loud, OPENPRINTTAG_PREFIX) ==> loud[0] == loud[..|OPENPRINTTAG_PREFIX|][0] == 'o';
    LoudPrefixIsForeign(spool);
  }

  lemma LoudPrefixIsForeign(spool: FilamentSpool)
    ensures var prefix := if spool.source == BambuLab then BAMBU_PREFIX else OPENPRINTTAG_PREFIX;
      StartsWithIgnoringCase(ToUpper(CanonicalId(spool)), prefix)
  {
    var prefix := if spool.source == BambuLab then BAMBU_PREFIX else OPENPRINTTAG_PREFIX;
    var loud := ToUpper(CanonicalId(spool));
    forall i | 0 <= i < |prefix| ensures LowerChar(loud[..|prefix|][i]) == LowerChar(prefix[i]) {
      assert CanonicalId(spool)[i] == prefix[i];
    }
  }

  /** Neither condition can be dropped: for every spool, its own canonical name behind a space is
      recognised by the cache alone, and in capitals by the scan alone. */
  lemma EitherDefectMisleads(spool: FilamentSpool)
    requires IsStorable(spool)
    ensures CacheMatches(" " + CanonicalId(spool), spool) && !ScanMatches(" " + CanonicalId(spool), spool)
    ensures ScanMatches(ToUpper(CanonicalId(spool)), spool) && !CacheMatches(ToUpper(CanonicalId(spool)), spool)
  {
    SpacedNameIsCachedOnly(spool);
    LoudNameIsScannedOnly(spool);
  }
}
