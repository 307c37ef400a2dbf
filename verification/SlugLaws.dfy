/** What a slug keeps of a text, which slugs a material is looked up by, and known hashes. */
module SlugLaws {
  import opened Text
  import opened Bytes
  import opened MaterialSlugs

  // ---- What a slug keeps ----

  predicate IsLetterOrDigit(c: char) {
    'a' <= c <= 'z' || 'A' <= c <= 'Z' || '0' <= c <= '9'
  }

  /** The lower-case letter of an upper-case one. */
  function Lowered(c: char): char {
    if 'A' <= c <= 'Z' then (c as int + 'a' as int - 'A' as int) as char else c
  }

  /** The ASCII letters and digits of a text, in lower case. */
  function Kept(s: string): string {
    if s == "" then ""
    else Kept(s[..|s| - 1]) + if IsLetterOrDigit(s[|s| - 1]) then [Lowered(s[|s| - 1])] else ""
  }

  lemma KeptAppend(s: string, c: char)
    ensures Kept(s + [c]) == Kept(s) + if IsLetterOrDigit(c) then [Lowered(c)] else ""
  {
    assert (s + [c])[..|s|] == s;
  }

  predicate IsSlugChar(c: char) {
    'a' <= c <= 'z' || '0' <= c <= '9'
  }

  /** Lower-case letters and digits, with single hyphens between them and none at the ends. */
  ghost predicate IsSlug(s: string) {
    && (forall i :: 0 <= i < |s| ==> s[i] == '-' || IsSlugChar(s[i]))
    && (s != "" ==> s[0] != '-' && s[|s| - 1] != '-')
    && (forall i :: 0 <= i < |s| - 1 ==> s[i] != '-' || s[i + 1] != '-')
  }

  lemma SlugGrows(s: string, c: char)
    requires IsSlug(s) && IsSlugChar(c)
    ensures IsSlug(s + [c])
    ensures s != "" ==> IsSlug(s + "-" + [c])
  {
  }

  /** A slug is lower-case letters and digits with single hyphens between. */
  lemma {:induction false} SlugShape(s: string)
    ensures IsSlug(Slug(s))
  {
    if s == "" {
      assert Slug("") == "";
    } else {
      var t, c := s[..|s| - 1], s[|s| - 1];
      assert s == t + [c];
      SlugShape(t);
      SlugStep(t, c);
      if IsAlphanumeric(c) {
        SlugGrows(Slug(t), LowerChar(c));
      }
    }
  }

  /** A slug has the letters and digits of the text, in order and in lower case. */
  lemma {:induction false} SlugKeeps(s: string)
    ensures Kept(Slug(s)) == Kept(s)
  {
    if s == "" {
      assert Slug("") == "";
    } else {
      var t, c := s[..|s| - 1], s[|s| - 1];
      assert s == t + [c];
      SlugKeeps(t);
      SlugStep(t, c);
      KeptAppend(t, c);
      KeptAppend(Slug(t), LowerChar(c));
      KeptAppend(Slug(t), '-');
      KeptAppend(Slug(t) + "-", LowerChar(c));
    }
  }

  // ---- The slugs of a material ----

  lemma OneMoreCharacter(t: string, words: seq<string>, y: string, c: char)
    requires Words(t) == words + Words(y) && (EndsInWord(t) <==> EndsInWord(y))
    ensures Words(t + [c]) == words + Words(y + [c]) && (EndsInWord(t + [c]) <==> EndsInWord(y + [c]))
  {
    WordsStep(t, c);
    WordsStep(y, c);
    LastCharacter(t, c);
    LastCharacter(y, c);
    if EndsInWord(y) {
      GrownAfter(words, Words(y), c);
    } else {
      assert words + Words(y) + [[c]] == words + (Words(y) + [[c]]);
    }
  }

  lemma LastCharacter(s: string, c: char)
    ensures EndsInWord(s + [c]) <==> IsAlphanumeric(c)
  {
  }

  lemma GrownAfter(a: seq<string>, b: seq<string>, c: char)
    requires b != []
    ensures Grown(a + b, c) == a + Grown(b, c)
  {
    assert (a + b)[..|a + b| - 1] == a + b[..|b| - 1];
  }

  lemma {:induction false} WordsAfterHyphen(s: string, x: string)
    ensures Words(s + "-" + x) == Words(s) + Words(x)
    ensures EndsInWord(s + "-" + x) <==> EndsInWord(x)
  {
    if x == "" {
      assert s + "-" + x == s + "-";
      HyphenIsSkipped(s);
    } else {
      var y, c := x[..|x| - 1], x[|x| - 1];
      assert x == y + [c];
      assert s + "-" + x == (s + "-" + y) + [c];
      WordsAfterHyphen(s, y);
      OneMoreCharacter(s + "-" + y, Words(s), y, c);
    }
  }

  predicate Begins(words: seq<string>, with_: seq<string>) {
    |with_| <= |words| && words[..|with_|] == with_
  }

  lemma BeginsByWords(v: seq<string>, w: seq<string>)
    requires AreWords(v) && AreWords(w) && v != [] && StartsWith(Hyphenated(w), Hyphenated(v) + "-")
    ensures Begins(w, v)
  {
    var x := Hyphenated(w)[|Hyphenated(v)| + 1..];
    assert Hyphenated(w) == Hyphenated(v) + "-" + x;
    WordsRoundTrip(v);
    WordsRoundTrip(w);
    WordsAfterHyphen(Hyphenated(v), x);
  }

  /** A hyphenated text begins with another, up to a hyphen or the end, exactly if its words do. */
  lemma HyphenatedBegins(v: seq<string>, w: seq<string>)
    requires AreWords(v) && AreWords(w) && v != []
    ensures Hyphenated(w) == Hyphenated(v) || StartsWith(Hyphenated(w), Hyphenated(v) + "-") <==> Begins(w, v)
  {
    if Hyphenated(w) == Hyphenated(v) {
      WordsRoundTrip(v);
      WordsRoundTrip(w);
    } else if StartsWith(Hyphenated(w), Hyphenated(v) + "-") {
      BeginsByWords(v, w);
    }
    if Begins(w, v) {
      assert w == v + w[|v|..];
      if |v| < |w| {
        HyphenatedConcat(v, w[|v|..]);
      } else {
        assert w == v;
      }
    }
  }

  lemma SlugOfBoth(brand: string, name: string)
    requires Slug(brand) != "" && Slug(name) != ""
    ensures Slug(brand + "-" + name) == Slug(brand) + "-" + Slug(name)
  {
    var v, w := Words(ToLower(brand)), Words(ToLower(name));
    SlugWords(brand);
    SlugWords(name);
    HyphenatedIsNotEmpty(v);
    HyphenatedIsNotEmpty(w);
    assert ToLower(brand + "-" + name) == ToLower(brand) + "-" + ToLower(name);
    WordsAfterHyphen(ToLower(brand), ToLower(name));
    HyphenatedConcat(v, w);
  }

  /** A material is looked up by the slug of its brand, and by that of its name if the name's words begin with the
      brand's, of brand and name together otherwise. Without a brand, or without letters and digits, it is not. */
  lemma LookedUpBy(brand: Option<string>, name: string)
    ensures LookupSlugs(brand, name)
         == if brand.None? then Err(NoBrand)
            else if Slug(brand.value) == "" || Slug(name) == "" then Err(NoSlug)
            else if Begins(Words(ToLower(name)), Words(ToLower(brand.value))) then Ok((Slug(brand.value), Slug(name)))
            else Ok((Slug(brand.value), Slug(brand.value + "-" + name)))
  {
    if brand.Some? && Slug(brand.value) != "" && Slug(name) != "" {
      SlugWords(brand.value);
      SlugWords(name);
      HyphenatedIsNotEmpty(Words(ToLower(brand.value)));
      HyphenatedBegins(Words(ToLower(brand.value)), Words(ToLower(name)));
      SlugOfBoth(brand.value, name);
    }
  }

  // ---- Known hashes ----

  lemma FnvAppend(v: Octets, b: byte)
    ensures Fnv(v + [b]) == FnvStep(Fnv(v), b)
  {
    assert (v + [b])[..|v|] == v;
  }

  /** 197 and 97 differ in the bits of 164. */
  lemma KnownXor()
    ensures Xor(197, 97, 8) == 164
  {
    assert Xor(1, 0, 1) == 1;
    assert Xor(3, 1, 2) == 2;
    assert Xor(6, 3, 3) == 5;
    assert Xor(12, 6, 4) == 10;
    assert Xor(24, 12, 5) == 20;
    assert Xor(49, 24, 6) == 41;
    assert Xor(98, 48, 7) == 82;
  }

  /** The start of the hash, as 256 times its upper bytes and its low byte. */
  predicate IsSeed(h: nat) {
    h == 256 * 0x811c9d + 197
  }

  lemma LowByteOfSeed(h: nat)
    requires IsSeed(h)
    ensures h % 256 == 197 && h / 256 * 256 == h - 197
  {
  }

  lemma KnownProduct(h: nat)
    requires IsSeed(h)
    ensures (h - 33) * 0x01000193 % 0x1_0000_0000 == 0xe40c292c
  {
    assert (h - 33) * 0x01000193 == 0xe40c292c + 0x1_0000_0000 * 8461672;
    RemainderOf(0xe40c292c, 8461672);
  }

  lemma StepFrom(h: nat, b: byte, low: nat, x: nat)
    requires h % 256 == low && h / 256 * 256 == h - low && Xor(low, b, 8) == x
    ensures FnvStep(h, b) == (h - low + x) * 0x01000193 % 0x1_0000_0000
  {
  }

  lemma KnownStep(h: nat, b: byte, low: nat, x: nat)
    requires IsSeed(h) && b == 97 && low == 197 && x == 164
    ensures FnvStep(h, b) == (h - 33) * 0x01000193 % 0x1_0000_0000
  {
    LowByteOfSeed(h);
    KnownXor();
    StepFrom(h, b, low, x);
  }

  lemma KnownDigits()
    ensures Hex(0xe40c292c, 8) == "E40C292C"
  {
    assert Hex(0xe, 1) == "E";
    assert Hex(0xe4, 2) == "E4";
    assert Hex(0xe40, 3) == "E40";
    assert Hex(0xe40c, 4) == "E40C";
    assert Hex(0xe40c2, 5) == "E40C2";
    assert Hex(0xe40c29, 6) == "E40C29";
    assert Hex(0xe40c292, 7) == "E40C292";
  }

  /** The published hashes of the 32-bit FNV-1a function for the empty text and for "a", and the second as a key. */
  lemma KnownHashes()
    ensures Fnv([]) == 0x811c9dc5 && Fnv([0x61]) == 0xe40c292c && Hex(Fnv([0x61]), 8) == "E40C292C"
  {
    KnownStep(SEED, 0x61, 197, 164);
    KnownProduct(SEED);
    KnownDigits();
    FnvAppend([], 0x61);
    assert [] + [0x61] == [0x61];
  }
}
