/** How an OpenPrintTag material is named in the public database, and in the cache on the SD card. */
module MaterialSlugs {
  import opened Text
  import opened Bytes

  // ---- Slugs ----

  predicate IsAlphanumeric(c: char) {
    'a' <= c <= 'z' || 'A' <= c <= 'Z' || '0' <= c <= '9'
  }

  predicate AllAlphanumeric(s: string) {
    forall i :: 0 <= i < |s| ==> IsAlphanumeric(s[i])
  }

  predicate EndsInWord(s: string) {
    s != "" && IsAlphanumeric(s[|s| - 1])
  }

  function Grown(words: seq<string>, c: char): seq<string>
    requires words != []
  {
    words[..|words| - 1] + [words[|words| - 1] + [c]]
  }

  /** The longest stretches of ASCII letters and digits. */
  function Words(s: string): (words: seq<string>)
    ensures EndsInWord(s) ==> words != []
  {
    if s == "" then []
    else
      var before, c := s[..|s| - 1], s[|s| - 1];
      if !IsAlphanumeric(c) then Words(before)
      else if EndsInWord(before) then Grown(Words(before), c)
      else Words(before) + [[c]]
  }

  function Hyphenated(words: seq<string>): string {
    if words == [] then ""
    else if |words| == 1 then words[0]
    else Hyphenated(words[..|words| - 1]) + "-" + words[|words| - 1]
  }

  /** A slug is the words of the lower-case text with hyphens between them. */
  function Slug(s: string): string {
    Hyphenated(Words(ToLower(s)))
  }

  lemma HyphenatedGrows(words: seq<string>, c: char)
    requires words != []
    ensures Hyphenated(Grown(words, c)) == Hyphenated(words) + [c]
  {
    var more := Grown(words, c);
    if |words| > 1 {
      assert more[..|more| - 1] == words[..|words| - 1];
    }
  }

  lemma HyphenatedPushes(words: seq<string>, word: string)
    ensures Hyphenated(words + [word]) == if words == [] then word else Hyphenated(words) + "-" + word
  {
    assert (words + [word])[..|words|] == words;
  }

  /** The words are not empty, hold letters and digits only, and no character that was not there. */
  ghost predicate AreWords(words: seq<string>) {
    forall i :: 0 <= i < |words| ==> words[i] != "" && AllAlphanumeric(words[i])
  }

  lemma {:induction false} WordsAreWords(s: string)
    ensures AreWords(Words(s))
  {
    if s != "" {
      WordsAreWords(s[..|s| - 1]);
    }
  }

  lemma {:induction false} HyphenatedIsNotEmpty(words: seq<string>)
    requires AreWords(words)
    ensures Hyphenated(words) == "" <==> words == []
  {
  }

  lemma LowerAppend(s: string, c: char)
    ensures ToLower(s + [c]) == ToLower(s) + [LowerChar(c)]
    ensures IsAlphanumeric(LowerChar(c)) <==> IsAlphanumeric(c)
  {
  }

  /** One more character, as the loop of `slugify` treats it. */
  lemma SlugStep(s: string, c: char)
    ensures Slug(s + [c])
         == if !IsAlphanumeric(c) then Slug(s)
            else if Slug(s) != "" && !EndsInWord(s) then Slug(s) + "-" + [LowerChar(c)]
            else Slug(s) + [LowerChar(c)]
  {
    var t := ToLower(s);
    LowerAppend(s, c);
    assert (t + [LowerChar(c)])[..|t|] == t;
    WordsAreWords(t);
    HyphenatedIsNotEmpty(Words(t));
    assert EndsInWord(s) <==> EndsInWord(t) by {
      if s != "" {
        assert t[|t| - 1] == LowerChar(s[|s| - 1]);
      }
    }
    if IsAlphanumeric(c) {
      if EndsInWord(t) {
        HyphenatedGrows(Words(t), LowerChar(c));
      } else {
        HyphenatedPushes(Words(t), [LowerChar(c)]);
      }
    }
  }

  /** `slugify` */
  method Slugify(value: string) returns (result: string)
    ensures result == Slug(value)
  {
    result := "";
    var separator := false;
    for i := 0 to |value|
      invariant result == Slug(value[..i])
      invariant separator <==> result != "" && !EndsInWord(value[..i])
    {
      var character := value[i];
      SlugStep(value[..i], character);
      assert value[..i + 1] == value[..i] + [character];
      if IsAlphanumeric(character) {
        if separator && result != "" {
          result := result + "-";
        }
        result := result + [LowerChar(character)];
        separator := false;
      } else if result != "" {
        separator := true;
      }
    }
    assert value[..|value|] == value;
  }

  lemma WordsStep(s: string, c: char)
    ensures Words(s + [c])
         == if !IsAlphanumeric(c) then Words(s) else if EndsInWord(s) then Grown(Words(s), c) else Words(s) + [[c]]
  {
    assert (s + [c])[..|s|] == s;
  }

  lemma GrownLast(words: seq<string>, word: string, c: char)
    ensures Grown(words + [word], c) == words + [word + [c]]
  {
  }

  lemma LongerWord(t: string, words: seq<string>, before: string, c: char)
    requires IsAlphanumeric(c) && EndsInWord(t) && Words(t) == words + [before]
    ensures Words(t + [c]) == words + [before + [c]]
  {
    WordsStep(t, c);
    GrownLast(words, before, c);
  }

  lemma FirstLetters(s: string, word: string, n: nat)
    requires 0 < n <= |word|
    ensures word[..n] == word[..n - 1] + [word[n - 1]] && s + word[..n] == s + word[..n - 1] + [word[n - 1]]
  {
  }

  lemma EndsInLetter(s: string, word: string, n: nat)
    requires 0 < n <= |word| && AllAlphanumeric(word)
    ensures EndsInWord(s + word[..n])
  {
  }

  /** The first letters of a word, up to `n`, after a text that does not end in a word. */
  lemma {:induction false} WordIsAppended(s: string, word: string, n: nat)
    requires 0 < n <= |word| && AllAlphanumeric(word) && !EndsInWord(s)
    ensures Words(s + word[..n]) == Words(s) + [word[..n]]
  {
    FirstLetters(s, word, n);
    if n == 1 {
      WordsStep(s, word[0]);
      assert s + word[..0] == s && word[..0] == [];
    } else {
      WordIsAppended(s, word, n - 1);
      EndsInLetter(s, word, n - 1);
      LongerWord(s + word[..n - 1], Words(s), word[..n - 1], word[n - 1]);
    }
  }

  lemma HyphenIsSkipped(s: string)
    ensures Words(s + "-") == Words(s) && !EndsInWord(s + "-")
  {
    assert (s + "-")[..|s|] == s;
  }

  /** Splitting undoes hyphenating. */
  lemma {:induction false} WordsRoundTrip(words: seq<string>)
    requires AreWords(words)
    ensures Words(Hyphenated(words)) == words
  {
    if words != [] {
      var before, word := words[..|words| - 1], words[|words| - 1];
      assert words == before + [word];
      HyphenatedPushes(before, word);
      if before == [] {
        WordIsAppended("", word, |word|);
        assert "" + word[..|word|] == word && word[..|word|] == word;
        assert Words("") == [];
      } else {
        WordsRoundTrip(before);
        HyphenIsSkipped(Hyphenated(before));
        WordIsAppended(Hyphenated(before) + "-", word, |word|);
        assert word[..|word|] == word;
      }
    }
  }

  /** Two texts have the same slug exactly if they have the same words, whatever the case and whatever stands
      between the words. */
  lemma SlugIsTheWords(a: string, b: string)
    ensures Slug(a) == Slug(b) <==> Words(ToLower(a)) == Words(ToLower(b))
  {
    WordsAreWords(ToLower(a));
    WordsAreWords(ToLower(b));
    WordsRoundTrip(Words(ToLower(a)));
    WordsRoundTrip(Words(ToLower(b)));
  }

  predicate IsLower(s: string) {
    forall i :: 0 <= i < |s| ==> LowerChar(s[i]) == s[i]
  }

  ghost predicate AreLower(words: seq<string>) {
    forall i :: 0 <= i < |words| ==> IsLower(words[i])
  }

  lemma {:induction false} LowerWords(s: string)
    requires IsLower(s)
    ensures AreLower(Words(s))
  {
    if s != "" {
      LowerWords(s[..|s| - 1]);
    }
  }

  lemma {:induction false} LowerHyphenated(words: seq<string>)
    requires AreLower(words)
    ensures IsLower(Hyphenated(words))
  {
    if |words| > 1 {
      LowerHyphenated(words[..|words| - 1]);
    }
  }

  lemma LowerIsLower(s: string)
    ensures IsLower(ToLower(s))
    ensures IsLower(s) ==> ToLower(s) == s
  {
  }

  /** Hyphenated lower-case words are their own slug. */
  lemma HyphenatedIsASlug(words: seq<string>)
    requires AreWords(words) && AreLower(words)
    ensures Slug(Hyphenated(words)) == Hyphenated(words)
  {
    LowerHyphenated(words);
    LowerIsLower(Hyphenated(words));
    WordsRoundTrip(words);
  }

  lemma SlugWords(s: string)
    ensures AreWords(Words(ToLower(s))) && AreLower(Words(ToLower(s)))
  {
    WordsAreWords(ToLower(s));
    LowerIsLower(ToLower(s));
    LowerWords(ToLower(s));
  }

  lemma SlugIsIdempotent(s: string)
    ensures Slug(Slug(s)) == Slug(s)
  {
    SlugWords(s);
    HyphenatedIsASlug(Words(ToLower(s)));
  }

  // ---- The slugs of a spool ----

  datatype SlugError = NoBrand | NoSlug

  /** `lookup_slugs` */
  function LookupSlugs(brand: Option<string>, name: string): Result<(string, string), SlugError> {
    match brand
    case None => Err(NoBrand)
    case Some(brandName) =>
      var brandSlug, nameSlug := Slug(brandName), Slug(name);
      if brandSlug == "" || nameSlug == "" then Err(NoSlug)
      else if nameSlug == brandSlug || StartsWith(nameSlug, brandSlug + "-") then Ok((brandSlug, nameSlug))
      else Ok((brandSlug, brandSlug + "-" + nameSlug))
  }

  lemma Reassociated(a: string, b: string, c: string)
    ensures a + "-" + b + "-" + c == a + "-" + (b + "-" + c)
  {
  }

  lemma {:induction false} HyphenatedConcat(a: seq<string>, b: seq<string>)
    requires a != [] && b != []
    ensures Hyphenated(a + b) == Hyphenated(a) + "-" + Hyphenated(b)
  {
    var before, word := b[..|b| - 1], b[|b| - 1];
    assert a + b == (a + before) + [word];
    HyphenatedPushes(a + before, word);
    if before == [] {
      assert a + before == a;
    } else {
      HyphenatedConcat(a, before);
      HyphenatedPushes(before, word);
      Reassociated(Hyphenated(a), Hyphenated(before), word);
    }
  }

  lemma JoinedSlugs(a: string, b: string)
    requires Slug(a) != "" && Slug(b) != ""
    ensures Slug(Slug(a) + "-" + Slug(b)) == Slug(a) + "-" + Slug(b)
  {
    var v, w := Words(ToLower(a)), Words(ToLower(b));
    SlugWords(a);
    SlugWords(b);
    HyphenatedIsNotEmpty(v);
    HyphenatedIsNotEmpty(w);
    HyphenatedConcat(v, w);
    HyphenatedIsASlug(v + w);
  }

  /** Looking up a material by its own slugs gives the same slugs again. */
  lemma SlugsAreTheirOwn(brand: Option<string>, name: string)
    requires LookupSlugs(brand, name).Ok?
    ensures var slugs := LookupSlugs(brand, name).value;
      LookupSlugs(Some(slugs.0), slugs.1) == Ok(slugs)
  {
    var brandSlug, nameSlug := Slug(brand.value), Slug(name);
    SlugIsIdempotent(brand.value);
    SlugIsIdempotent(name);
    JoinedSlugs(brand.value, name);
    assert StartsWith(brandSlug + "-" + nameSlug, brandSlug + "-");
  }

  // ---- Cache keys ----

  const MODULUS: nat := 0x1_0000_0000
  const SEED: nat := 0x811c9dc5
  const PRIME: nat := 0x01000193
  const INVERSE: nat := 0x359C449B

  function Power2(width: nat): nat {
    if width == 0 then 1 else 2 * Power2(width - 1)
  }

  /** Exclusive or of the low bits. */
  function Xor(a: nat, b: nat, width: nat): (r: nat)
    ensures r < Power2(width)
  {
    if width == 0 then 0 else (a % 2 + b % 2) % 2 + 2 * Xor(a / 2, b / 2, width - 1)
  }

  /** `hash ^= byte` touches the low byte only. */
  function XorLow(hash: nat, b: byte): nat {
    hash / 256 * 256 + Xor(hash % 256, b, 8)
  }

  function FnvStep(hash: nat, b: byte): (r: nat)
    ensures r < MODULUS
  {
    XorLow(hash, b) * PRIME % MODULUS
  }

  function Fnv(value: Octets): (r: nat)
    ensures r < MODULUS
  {
    if value == [] then SEED else FnvStep(Fnv(value[..|value| - 1]), value[|value| - 1])
  }

  function HexDigit(n: nat): char
    requires n < 16
  {
    "0123456789ABCDEF"[n]
  }

  function Hex(n: nat, width: nat): (s: string)
    ensures |s| == width
  {
    if width == 0 then "" else Hex(n / 16, width - 1) + [HexDigit(n % 16)]
  }

  /** `cache_key` on the bytes of the text. */
  method CacheKey(value: Octets) returns (key: string)
    ensures key == Hex(Fnv(value), 8)
  {
    var hash := SEED;
    for i := 0 to |value|
      invariant hash == Fnv(value[..i])
    {
      assert value[..i + 1][..i] == value[..i];
      hash := XorLow(hash, value[i]);
      hash := hash * PRIME % MODULUS;
    }
    assert value[..|value|] == value;
    key := Hex(hash, 8);
  }

  /** Multiplying by the prime can be undone. */
  lemma PrimeIsInvertible(x: nat)
    requires x < MODULUS
    ensures x * PRIME % MODULUS * INVERSE % MODULUS == x
  {
    var k := x * PRIME / MODULUS;
    var y := x * PRIME % MODULUS;
    assert y == x * PRIME - k * MODULUS;
    InverseStep(x, k, y);
    RemainderOf(x, x * 0x359c99 - k * INVERSE);
  }

  lemma InverseStep(x: int, k: int, y: int)
    requires y == x * PRIME - k * MODULUS
    ensures y * INVERSE == x + MODULUS * (x * 0x359c99 - k * INVERSE)
  {
    assert PRIME * INVERSE == 1 + MODULUS * 0x359c99;
  }

  lemma RemainderOf(x: nat, t: int)
    requires x < MODULUS
    ensures (x + MODULUS * t) % MODULUS == x
  {
  }

  lemma {:induction false} XorIsInjective(a: nat, b: nat, x: nat, width: nat)
    requires a < Power2(width) && b < Power2(width)
    ensures Xor(a, x, width) == Xor(b, x, width) ==> a == b
    ensures Xor(x, a, width) == Xor(x, b, width) ==> a == b
  {
    if width > 0 {
      XorIsInjective(a / 2, b / 2, x / 2, width - 1);
    }
  }

  lemma LowByte(high: nat, low: nat)
    requires low < 256
    ensures (high * 256 + low) / 256 == high && (high * 256 + low) % 256 == low
  {
  }

  lemma XorLowBound(hash: nat, b: byte)
    requires hash < MODULUS
    ensures XorLow(hash, b) < MODULUS && XorLow(hash, b) / 256 == hash / 256
            && XorLow(hash, b) % 256 == Xor(hash % 256, b, 8)
  {
    assert Power2(8) == 256 by {
      assert Power2(4) == 16;
    }
    LowByte(hash / 256, Xor(hash % 256, b, 8));
  }

  lemma XorLowIsInjective(g: nat, h: nat, x: byte, y: byte)
    requires g < MODULUS && h < MODULUS
    ensures XorLow(g, x) == XorLow(h, x) ==> g == h
    ensures XorLow(g, x) == XorLow(g, y) ==> x == y
  {
    XorLowBound(g, x);
    XorLowBound(h, x);
    XorLowBound(g, y);
    assert Power2(8) == 256 by {
      assert Power2(4) == 16;
    }
    XorIsInjective(g % 256, h % 256, x, 8);
    XorIsInjective(x, y, g % 256, 8);
  }

  lemma ProductIsInjective(m: nat, n: nat)
    requires m < MODULUS && n < MODULUS && m * PRIME % MODULUS == n * PRIME % MODULUS
    ensures m == n
  {
    PrimeIsInvertible(m);
    PrimeIsInvertible(n);
  }

  /** A step loses nothing: it is injective in the hash and in the byte. */
  lemma StepIsInjective(g: nat, h: nat, x: byte, y: byte)
    requires g < MODULUS && h < MODULUS
    ensures FnvStep(g, x) == FnvStep(h, x) ==> g == h
    ensures FnvStep(g, x) == FnvStep(g, y) ==> x == y
  {
    XorLowIsInjective(g, h, x, y);
    XorLowBound(g, x);
    XorLowBound(h, x);
    XorLowBound(g, y);
    if FnvStep(g, x) == FnvStep(h, x) {
      ProductIsInjective(XorLow(g, x), XorLow(h, x));
    }
    if FnvStep(g, x) == FnvStep(g, y) {
      ProductIsInjective(XorLow(g, x), XorLow(g, y));
    }
  }

  /** A common suffix neither creates nor removes a collision. */
  lemma {:induction false} SuffixKeepsCollisions(a: Octets, b: Octets, suffix: Octets)
    ensures Fnv(a + suffix) == Fnv(b + suffix) <==> Fnv(a) == Fnv(b)
  {
    if suffix == [] {
      assert a + suffix == a && b + suffix == b;
    } else {
      var before, x := suffix[..|suffix| - 1], suffix[|suffix| - 1];
      assert (a + suffix)[..|a + suffix| - 1] == a + before && (b + suffix)[..|b + suffix| - 1] == b + before;
      SuffixKeepsCollisions(a, b, before);
      StepIsInjective(Fnv(a + before), Fnv(b + before), x, x);
    }
  }

  /** Texts that differ in one byte never collide. */
  lemma OneByteNeverCollides(before: Octets, x: byte, y: byte, after: Octets)
    requires x != y
    ensures Fnv(before + [x] + after) != Fnv(before + [y] + after)
  {
    assert (before + [x])[..|before|] == before && (before + [y])[..|before|] == before;
    StepIsInjective(Fnv(before), Fnv(before), x, y);
    SuffixKeepsCollisions(before + [x], before + [y], after);
  }

  lemma DigitsDiffer(m: nat, n: nat)
    requires m < 16 && n < 16
    ensures HexDigit(m) == HexDigit(n) ==> m == n
  {
  }

  function Power16(width: nat): nat {
    if width == 0 then 1 else 16 * Power16(width - 1)
  }

  lemma {:induction false} HexIsInjective(m: nat, n: nat, width: nat)
    requires m < Power16(width) && n < Power16(width)
    ensures Hex(m, width) == Hex(n, width) ==> m == n
  {
    if width > 0 && Hex(m, width) == Hex(n, width) {
      HexIsInjective(m / 16, n / 16, width - 1);
      assert Hex(m, width)[..width - 1] == Hex(m / 16, width - 1)
             && Hex(n, width)[..width - 1] == Hex(n / 16, width - 1);
      assert Hex(m, width)[width - 1] == HexDigit(m % 16) && Hex(n, width)[width - 1] == HexDigit(n % 16);
      DigitsDiffer(m % 16, n % 16);
    }
  }

  /** Keys collide exactly if hashes do. */
  lemma KeysAreHashes(a: Octets, b: Octets)
    ensures Hex(Fnv(a), 8) == Hex(Fnv(b), 8) <==> Fnv(a) == Fnv(b)
  {
    assert Power16(8) == MODULUS by {
      assert Power16(4) == 0x1_0000;
    }
    HexIsInjective(Fnv(a), Fnv(b), 8);
  }
}
