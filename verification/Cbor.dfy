/** A reader for CBOR data items (section 3 of RFC 8949) and a writer that uses every encoding the format
    allows for the same value. */
module Cbor {
  import opened Text
  import opened Bytes

  const BREAK: byte := 0xff
  const INDEFINITE: nat := 31

  // ---- Reading ----

  /** An initial byte with its argument; `info` 31 marks an indefinite length or a break. */
  datatype Head = Head(major: nat, info: nat, argument: nat, size: nat)

  function ArgumentWidth(info: nat): nat {
    if info == 24 then 1 else if info == 25 then 2 else if info == 26 then 4 else if info == 27 then 8 else 0
  }

  function ReadHead(d: Octets): (r: Option<Head>)
    ensures r.Some? ==> 0 < r.value.size <= |d| && r.value.major < 8 && r.value.info < 32
  {
    if d == [] then None
    else
      var major, info := d[0] / 32, d[0] % 32;
      if info < 24 then Some(Head(major, info, info, 1))
      else if info == INDEFINITE then Some(Head(major, info, 0, 1))
      else if info > 27 then None
      else
        var width := ArgumentWidth(info);
        if |d| < 1 + width then None else Some(Head(major, info, BigEndian(d[1..1 + width]), 1 + width))
  }

  /** A definite-length string of one major type: its bytes and what follows. */
  function ReadString(d: Octets, major: nat): (r: Option<(Octets, Octets)>)
    ensures r.Some? ==> |r.value.1| < |d|
  {
    match ReadHead(d)
    case None => None
    case Some(h) =>
      if h.major != major || h.info == INDEFINITE || h.size + h.argument > |d| then None
      else Some((d[h.size..h.size + h.argument], d[h.size + h.argument..]))
  }

  /** `Decoder::u64`: an unsigned integer in any width. */
  function ReadUnsigned(d: Octets): (r: Option<(nat, Octets)>)
    ensures r.Some? ==> |r.value.1| < |d|
  {
    match ReadHead(d)
    case None => None
    case Some(h) => if h.major == 0 && h.info != INDEFINITE then Some((h.argument, d[h.size..])) else None
  }

  predicate AcceptsText(major: nat, b: Octets) {
    major == 3 ==> IsUtf8(b)
  }

  /** The chunks of an indefinite string, up to and including the break. */
  function SkipChunks(d: Octets, major: nat): (r: Option<Octets>)
    ensures r.Some? ==> |r.value| < |d|
    decreases |d|
  {
    if d == [] then None
    else if d[0] == BREAK then Some(d[1..])
    else match ReadString(d, major)
      case None => None
      case Some((b, rest)) => if AcceptsText(major, b) then SkipChunks(rest, major) else None
  }

  /** `Decoder::skip`: one data item of any kind, however deeply nested. */
  function SkipItem(d: Octets): (r: Option<Octets>)
    ensures r.Some? ==> |r.value| < |d|
    decreases |d|, 0
  {
    match ReadHead(d)
    case None => None
    case Some(h) =>
      var after := d[h.size..];
      if h.major < 2 then if h.info == INDEFINITE then None else Some(after)
      else if h.major < 4 then
        if h.info == INDEFINITE then SkipChunks(after, h.major)
        else match ReadString(d, h.major)
          case None => None
          case Some((b, rest)) => if AcceptsText(h.major, b) then Some(rest) else None
      else if h.major == 4 then if h.info == INDEFINITE then SkipOpen(after, 1) else SkipItems(after, h.argument)
      else if h.major == 5 then if h.info == INDEFINITE then SkipOpen(after, 2) else SkipItems(after, 2 * h.argument)
      else if h.major == 6 then if h.info == INDEFINITE then None else SkipItem(after)
      else if h.info == INDEFINITE then None else Some(after)
  }

  function SkipItems(d: Octets, count: nat): (r: Option<Octets>)
    ensures r.Some? ==> |r.value| <= |d|
    decreases |d|, 1, count
  {
    if count == 0 then Some(d)
    else match SkipItem(d)
      case None => None
      case Some(rest) => SkipItems(rest, count - 1)
  }

  /** Groups of `group` items up to and including a break. */
  function SkipOpen(d: Octets, group: nat): (r: Option<Octets>)
    requires group > 0
    ensures r.Some? ==> |r.value| < |d|
    decreases |d|, 2, 0
  {
    if d == [] then None
    else if d[0] == BREAK then Some(d[1..])
    else match SkipItems(d, group)
      case None => None
      case Some(rest) => if |rest| < |d| then SkipOpen(rest, group) else None
  }

  // ---- Writing ----

  /** A data item with the choices its writer made: argument widths, definite or indefinite lengths. */
  datatype Value =
    | Unsigned(n: nat, width: nat)
    | Negative(n: nat, width: nat)
    | ByteString(b: Octets, width: nat)
    | TextString(b: Octets, width: nat)
    | ChunkedString(text: bool, chunks: seq<Octets>)
    | Array(items: List, width: nat)
    | OpenArray(items: List)
    | Map(entries: List, width: nat)
    | OpenMap(entries: List)
    | Tagged(tag: nat, width: nat, content: Value)
    | Simple(code: nat)
    | Float(bits: nat, width: nat)

  /** A list of items; the entries of a map are keys and values in turn. */
  datatype List = Nil | Cons(head: Value, tail: List)

  function Length(items: List): nat {
    match items
    case Nil => 0
    case Cons(_, tail) => 1 + Length(tail)
  }

  predicate Fits(n: nat, width: nat) {
    || (width == 0 && n < 24)
    || (width in {1, 2, 4, 8} && n < Power256(width))
  }

  function InfoFor(n: nat, width: nat): nat {
    if width == 0 then n else if width == 1 then 24 else if width == 2 then 25 else if width == 4 then 26 else 27
  }

  function PutHead(major: nat, n: nat, width: nat): (d: Octets)
    requires major < 8 && Fits(n, width)
    ensures |d| == 1 + width
  {
    if width == 0 then [32 * major + n]
    else [32 * major + InfoFor(n, width)] + ToBigEndian(n, width)
  }

  predicate IsValue(v: Value) {
    match v
    case Unsigned(n, width) => Fits(n, width)
    case Negative(n, width) => Fits(n, width)
    case ByteString(b, width) => Fits(|b|, width)
    case TextString(b, width) => Fits(|b|, width) && IsUtf8(b)
    case ChunkedString(text, chunks) =>
      forall i :: 0 <= i < |chunks| ==> |chunks[i]| < Power256(8) && (text ==> IsUtf8(chunks[i]))
    case Array(items, width) => Fits(Length(items), width) && AreValues(items)
    case OpenArray(items) => AreValues(items)
    case Map(entries, width) => Length(entries) % 2 == 0 && Fits(Length(entries) / 2, width) && AreValues(entries)
    case OpenMap(entries) => Length(entries) % 2 == 0 && AreValues(entries)
    case Tagged(tag, width, content) => Fits(tag, width) && IsValue(content)
    case Simple(code) => Fits(code, 0) || (32 <= code < 256)
    case Float(bits, width) => width in {2, 4, 8} && bits < Power256(width)
  }

  predicate AreValues(items: List) {
    match items
    case Nil => true
    case Cons(head, tail) => IsValue(head) && AreValues(tail)
  }

  function PutChunks(text: bool, chunks: seq<Octets>): Octets
    requires forall i :: 0 <= i < |chunks| ==> |chunks[i]| < Power256(8)
  {
    if chunks == [] then [BREAK]
    else PutHead(if text then 3 else 2, |chunks[0]|, 8) + chunks[0] + PutChunks(text, chunks[1..])
  }

  function Put(v: Value): Octets
    requires IsValue(v)
  {
    match v
    case Unsigned(n, width) => PutHead(0, n, width)
    case Negative(n, width) => PutHead(1, n, width)
    case ByteString(b, width) => PutHead(2, |b|, width) + b
    case TextString(b, width) => PutHead(3, |b|, width) + b
    case ChunkedString(text, chunks) => [if text then 0x7f else 0x5f] + PutChunks(text, chunks)
    case Array(items, width) => PutHead(4, Length(items), width) + PutAll(items)
    case OpenArray(items) => [0x9f] + (PutAll(items) + [BREAK])
    case Map(entries, width) => PutHead(5, Length(entries) / 2, width) + PutAll(entries)
    case OpenMap(entries) => [0xbf] + (PutAll(entries) + [BREAK])
    case Tagged(tag, width, content) => PutHead(6, tag, width) + Put(content)
    case Simple(code) => if code < 24 then [0xe0 + code] else [0xf8, code]
    case Float(bits, width) => PutHead(7, bits, width)
  }

  function PutAll(items: List): Octets
    requires AreValues(items)
  {
    match items
    case Nil => []
    case Cons(head, tail) => Put(head) + PutAll(tail)
  }

  // ---- Reading undoes writing ----

  lemma InitialByte(major: nat, info: nat)
    requires info < 32
    ensures (32 * major + info) / 32 == major && (32 * major + info) % 32 == info
  {
  }

  lemma ShortHead(major: nat, n: nat, rest: Octets)
    requires major < 8 && n < 24
    ensures ReadHead([32 * major + n] + rest) == Some(Head(major, n, n, 1))
    ensures ([32 * major + n] + rest)[1..] == rest
  {
    InitialByte(major, n);
  }

  lemma WideHead(major: nat, info: nat, body: Octets, rest: Octets)
    requires major < 8 && 24 <= info <= 27 && |body| == ArgumentWidth(info)
    ensures ReadHead([32 * major + info] + body + rest) == Some(Head(major, info, BigEndian(body), 1 + |body|))
    ensures ([32 * major + info] + body + rest)[1 + |body|..] == rest
  {
    var first: byte := 32 * major + info;
    InitialByte(major, info);
    assert [first] + body + rest == [first] + (body + rest);
    PartOfConcat([first], body, rest);
  }

  lemma HeadRoundTrip(major: nat, n: nat, width: nat, rest: Octets)
    requires major < 8 && Fits(n, width)
    ensures ReadHead(PutHead(major, n, width) + rest) == Some(Head(major, InfoFor(n, width), n, 1 + width))
    ensures (PutHead(major, n, width) + rest)[1 + width..] == rest
  {
    if width == 0 {
      ShortHead(major, n, rest);
    } else {
      BigEndianRoundTrip(n, width);
      WideHead(major, InfoFor(n, width), ToBigEndian(n, width), rest);
    }
  }

  lemma StringRoundTrip(major: nat, b: Octets, width: nat, rest: Octets)
    requires major < 8 && Fits(|b|, width)
    ensures ReadString(PutHead(major, |b|, width) + b + rest, major) == Some((b, rest))
  {
    var head := PutHead(major, |b|, width);
    assert head + b + rest == head + (b + rest);
    HeadRoundTrip(major, |b|, width, b + rest);
    PartOfConcat(head, b, rest);
  }

  /** A text that is no UTF-8 is malformed, even where it would be skipped; bytes may be anything. */
  lemma SkippedTextIsUtf8(text: bool, b: Octets, width: nat, rest: Octets)
    requires Fits(|b|, width)
    ensures SkipItem(PutHead(if text then 3 else 2, |b|, width) + b + rest)
         == if text && !IsUtf8(b) then None else Some(rest)
  {
    var major := if text then 3 else 2;
    var head := PutHead(major, |b|, width);
    StringRoundTrip(major, b, width, rest);
    assert head + b + rest == head + (b + rest);
    HeadRoundTrip(major, |b|, width, b + rest);
  }

  lemma ChunkStep(text: bool, chunk: Octets, after: Octets)
    requires |chunk| < Power256(8) && (text ==> IsUtf8(chunk))
    ensures var major := if text then 3 else 2;
      SkipChunks(PutHead(major, |chunk|, 8) + chunk + after, major) == SkipChunks(after, major)
  {
    StringRoundTrip(if text then 3 else 2, chunk, 8, after);
  }

  lemma {:induction false} ChunksRoundTrip(text: bool, chunks: seq<Octets>, rest: Octets)
    requires forall i :: 0 <= i < |chunks| ==> |chunks[i]| < Power256(8) && (text ==> IsUtf8(chunks[i]))
    ensures SkipChunks(PutChunks(text, chunks) + rest, if text then 3 else 2) == Some(rest)
  {
    if chunks == [] {
      assert ([BREAK] + rest)[1..] == rest;
    } else {
      var after := PutChunks(text, chunks[1..]) + rest;
      ChunkStep(text, chunks[0], after);
      ChunksRoundTrip(text, chunks[1..], rest);
      ConcatOfThree(PutHead(if text then 3 else 2, |chunks[0]|, 8), chunks[0], PutChunks(text, chunks[1..]), rest);
    }
  }

  lemma ConcatOfThree(a: Octets, b: Octets, c: Octets, d: Octets)
    ensures a + b + c + d == a + b + (c + d)
    ensures a + b + d == a + (b + d)
  {
  }

  /** No item begins like a break. */
  lemma ItemIsNoBreak(v: Value, rest: Octets)
    requires IsValue(v)
    ensures Put(v) != [] && Put(v)[0] != BREAK && (Put(v) + rest)[0] == Put(v)[0]
  {
  }

  lemma {:induction false} ItemRoundTrip(v: Value, rest: Octets)
    requires IsValue(v)
    ensures SkipItem(Put(v) + rest) == Some(rest)
    decreases v, 1
  {
    match v
    case Unsigned(n, width) => HeadRoundTrip(0, n, width, rest);
    case Negative(n, width) => HeadRoundTrip(1, n, width, rest);
    case ByteString(b, width) => DefiniteRoundTrip(2, b, width, rest);
    case TextString(b, width) => DefiniteRoundTrip(3, b, width, rest);
    case ChunkedString(text, chunks) => ChunkedRoundTrip(text, chunks, rest);
    case Array(items, width) =>
      ItemsRoundTrip(items, rest);
      CountedRoundTrip(4, Length(items), width, items, rest);
    case OpenArray(items) =>
      OpenArrayRoundTrip(items, [BREAK] + rest, rest);
      UncountedRoundTrip(0x9f, items, rest);
    case Map(entries, width) =>
      ItemsRoundTrip(entries, rest);
      CountedRoundTrip(5, Length(entries) / 2, width, entries, rest);
    case OpenMap(entries) =>
      OpenMapRoundTrip(entries, [BREAK] + rest, rest);
      UncountedRoundTrip(0xbf, entries, rest);
    case Tagged(tag, width, content) =>
      ItemRoundTrip(content, rest);
      TagRoundTrip(tag, width, content, rest);
    case Simple(code) => SimpleRoundTrip(code, rest);
    case Float(bits, width) => HeadRoundTrip(7, bits, width, rest);
  }

  /** An item of indefinite length goes on after its first byte. */
  lemma IndefiniteStep(first: byte, after: Octets)
    requires first == 0x5f || first == 0x7f || first == 0x9f || first == 0xbf
    ensures SkipItem([first] + after)
         == if first == 0x5f then SkipChunks(after, 2) else if first == 0x7f then SkipChunks(after, 3)
            else if first == 0x9f then SkipOpen(after, 1) else SkipOpen(after, 2)
  {
    InitialByte(first / 32, 31);
    assert ReadHead([first] + after) == Some(Head(first / 32, INDEFINITE, 0, 1));
    assert ([first] + after)[1..] == after;
  }

  lemma BreakEnds(group: nat, rest: Octets)
    requires group > 0
    ensures SkipOpen([BREAK] + rest, group) == Some(rest)
  {
    assert ([BREAK] + rest)[1..] == rest;
  }

  lemma OpenStep(d: Octets, group: nat, rest: Octets)
    requires group > 0 && d != [] && d[0] != BREAK && SkipItems(d, group) == Some(rest) && |rest| < |d|
    ensures SkipOpen(d, group) == SkipOpen(rest, group)
  {
  }

  lemma ChunkedRoundTrip(text: bool, chunks: seq<Octets>, rest: Octets)
    requires IsValue(ChunkedString(text, chunks))
    ensures SkipItem(Put(ChunkedString(text, chunks)) + rest) == Some(rest)
  {
    var first: byte := if text then 0x7f else 0x5f;
    ChunksRoundTrip(text, chunks, rest);
    IndefiniteStep(first, PutChunks(text, chunks) + rest);
    ConcatOfThree([first], PutChunks(text, chunks), [], rest);
  }

  lemma CountedStep(d: Octets, h: Head)
    requires ReadHead(d) == Some(h) && (h.major == 4 || h.major == 5) && h.info != INDEFINITE
    ensures SkipItem(d) == SkipItems(d[h.size..], if h.major == 4 then h.argument else 2 * h.argument)
  {
  }

  lemma CountedRoundTrip(major: nat, n: nat, width: nat, items: List, rest: Octets)
    requires AreValues(items) && Fits(n, width) && (major == 4 || major == 5)
    requires SkipItems(PutAll(items) + rest, if major == 4 then n else 2 * n) == Some(rest)
    ensures SkipItem(PutHead(major, n, width) + PutAll(items) + rest) == Some(rest)
  {
    var d := PutHead(major, n, width) + (PutAll(items) + rest);
    HeadRoundTrip(major, n, width, PutAll(items) + rest);
    CountedStep(d, Head(major, InfoFor(n, width), n, 1 + width));
    ConcatOfThree(PutHead(major, n, width), PutAll(items), [], rest);
  }

  lemma UncountedRoundTrip(first: byte, items: List, rest: Octets)
    requires AreValues(items) && (first == 0x9f || first == 0xbf)
    requires SkipOpen(PutAll(items) + ([BREAK] + rest), if first == 0x9f then 1 else 2) == Some(rest)
    ensures SkipItem([first] + (PutAll(items) + [BREAK]) + rest) == Some(rest)
  {
    IndefiniteStep(first, PutAll(items) + ([BREAK] + rest));
    assert [first] + (PutAll(items) + [BREAK]) + rest == [first] + (PutAll(items) + ([BREAK] + rest));
  }

  lemma TagRoundTrip(tag: nat, width: nat, content: Value, rest: Octets)
    requires Fits(tag, width) && IsValue(content) && SkipItem(Put(content) + rest) == Some(rest)
    ensures SkipItem(PutHead(6, tag, width) + Put(content) + rest) == Some(rest)
  {
    HeadRoundTrip(6, tag, width, Put(content) + rest);
    ConcatOfThree(PutHead(6, tag, width), Put(content), [], rest);
  }

  lemma SimpleRoundTrip(code: nat, rest: Octets)
    requires IsValue(Simple(code))
    ensures SkipItem(Put(Simple(code)) + rest) == Some(rest)
  {
    if code < 24 {
      HeadRoundTrip(7, code, 0, rest);
    } else {
      assert ([0xf8, code] + rest)[2..] == rest;
    }
  }

  lemma DefiniteRoundTrip(major: nat, b: Octets, width: nat, rest: Octets)
    requires 2 <= major < 4 && Fits(|b|, width) && AcceptsText(major, b)
    ensures SkipItem(PutHead(major, |b|, width) + b + rest) == Some(rest)
  {
    StringRoundTrip(major, b, width, rest);
    HeadOfString(major, b, width, rest);
  }

  lemma HeadOfString(major: nat, b: Octets, width: nat, rest: Octets)
    requires major < 8 && Fits(|b|, width)
    ensures var h := ReadHead(PutHead(major, |b|, width) + b + rest);
      h.Some? && h.value.major == major && h.value.info != INDEFINITE
  {
    HeadRoundTrip(major, |b|, width, b + rest);
    ConcatOfThree(PutHead(major, |b|, width), b, [], rest);
  }

  lemma {:induction false} ItemsRoundTrip(items: List, rest: Octets)
    requires AreValues(items)
    ensures SkipItems(PutAll(items) + rest, Length(items)) == Some(rest)
    decreases items, 1
  {
    match items
    case Nil => assert PutAll(items) + rest == rest;
    case Cons(head, tail) =>
      assert PutAll(items) + rest == Put(head) + (PutAll(tail) + rest);
      ItemRoundTrip(head, PutAll(tail) + rest);
      ItemsRoundTrip(tail, rest);
  }

  lemma {:induction false} OpenArrayRoundTrip(items: List, close: Octets, rest: Octets)
    requires AreValues(items) && close == [BREAK] + rest
    ensures SkipOpen(PutAll(items) + close, 1) == Some(rest)
    decreases items, 3
  {
    if items.Nil? {
      assert PutAll(items) + close == close;
      BreakEnds(1, rest);
    } else {
      OneStep(items, close);
      OpenArrayRoundTrip(items.tail, close, rest);
    }
  }

  lemma {:induction false} OpenMapRoundTrip(items: List, close: Octets, rest: Octets)
    requires AreValues(items) && close == [BREAK] + rest && Length(items) % 2 == 0
    ensures SkipOpen(PutAll(items) + close, 2) == Some(rest)
    decreases items, 3
  {
    if items.Nil? {
      assert PutAll(items) + close == close;
      BreakEnds(2, rest);
    } else {
      TwoSteps(items, close);
      OpenMapRoundTrip(items.tail.tail, close, rest);
    }
  }

  lemma {:induction false} OneStep(items: List, close: Octets)
    requires AreValues(items) && items.Cons?
    ensures SkipOpen(PutAll(items) + close, 1) == SkipOpen(PutAll(items.tail) + close, 1)
    decreases items, 2
  {
    OneItem(items, close);
    OpenStep(PutAll(items) + close, 1, PutAll(items.tail) + close);
  }

  lemma {:induction false} TwoSteps(items: List, close: Octets)
    requires AreValues(items) && items.Cons? && items.tail.Cons?
    ensures AreValues(items.tail.tail)
    ensures SkipOpen(PutAll(items) + close, 2) == SkipOpen(PutAll(items.tail.tail) + close, 2)
    decreases items, 2
  {
    TwoItems(items, close);
    OpenStep(PutAll(items) + close, 2, PutAll(items.tail.tail) + close);
  }

  /** A group of one, as `SkipOpen` meets it. */
  lemma {:induction false} OneItem(items: List, rest: Octets)
    requires AreValues(items) && items.Cons?
    ensures AreValues(items.tail)
    ensures var d := PutAll(items) + rest;
      d != [] && d[0] != BREAK && SkipItem(d) == Some(PutAll(items.tail) + rest)
        && SkipItems(d, 1) == Some(PutAll(items.tail) + rest)
    decreases items, 0
  {
    var after := PutAll(items.tail) + rest;
    ConcatOfThree([], Put(items.head), PutAll(items.tail), rest);
    assert PutAll(items) + rest == Put(items.head) + after;
    ItemRoundTrip(items.head, after);
    ItemIsNoBreak(items.head, after);
    assert SkipItems(after, 0) == Some(after);
  }

  /** A group of two. */
  lemma {:induction false} TwoItems(items: List, rest: Octets)
    requires AreValues(items) && items.Cons? && items.tail.Cons?
    ensures AreValues(items.tail.tail)
    ensures var d := PutAll(items) + rest;
      d != [] && d[0] != BREAK && SkipItems(d, 2) == Some(PutAll(items.tail.tail) + rest)
        && |PutAll(items.tail.tail) + rest| < |d|
    decreases items, 1
  {
    OneItem(items, rest);
    OneItem(items.tail, rest);
  }
}
