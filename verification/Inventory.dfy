/** The server's paged spool list, the plain scan over it, and the indexed cache built from it. */
module Inventory {
  import opened Text
  import opened Identity
  import opened CanonicalList

  /** One entry of the server's list; a field of the wrong JSON type counts as absent. */
  datatype RemoteSpool = RemoteSpool(externalId: Option<string>, id: Option<nat>, locationId: Option<nat>)

  datatype ExistingSpool = ExistingSpool(id: nat, locationId: Option<nat>)

  datatype CachedSpool = CachedSpool(externalId: string, spoolId: nat, locationId: Option<nat>)

  datatype Location = Location(id: nat, name: string)

  datatype PageReply = Unavailable(error: string) | Malformed | Page(items: seq<RemoteSpool>, total: Option<nat>)

  const PAGES := 100
  const PAGE_SIZE := 50
  const MAX_SPOOLS := PAGES * PAGE_SIZE

  const INVALID_LIST := "FilaMan spool list response is invalid"
  const MISSING_ID := "FilaMan spool list contains an item without a numeric id"
  const TOO_LONG := "FilaMan spool list exceeds 5000 entries"

  predicate ItemMatches(item: RemoteSpool, spool: FilamentSpool) {
    item.externalId.Some? && ScanMatches(item.externalId.value, spool)
  }

  function FirstMatch(items: seq<RemoteSpool>, spool: FilamentSpool): Option<RemoteSpool> {
    if items == [] then None
    else if ItemMatches(items[0], spool) then Some(items[0])
    else FirstMatch(items[1..], spool)
  }

  function Found(item: RemoteSpool): Result<Option<ExistingSpool>, string> {
    match item.id
    case None => Err(MISSING_ID)
    case Some(id) => Ok(Some(ExistingSpool(id, item.locationId)))
  }

  /** The plain scan, one page after another, from page `n` on. */
  function ScanFrom(spool: FilamentSpool, page: nat -> PageReply, n: nat): Result<Option<ExistingSpool>, string>
    decreases PAGES + 1 - n
  {
    if n > PAGES then Err(TOO_LONG)
    else match page(n)
      case Unavailable(error) => Err(error)
      case Malformed => Err(INVALID_LIST)
      case Page(items, total) =>
        match FirstMatch(items, spool)
        case Some(item) => Found(item)
        case None =>
          if n * PAGE_SIZE >= (if total.Some? then total.value else |items|) then Ok(None)
          else ScanFrom(spool, page, n + 1)
  }

  /** `find_spool` */
  method FindSpool(spool: FilamentSpool, page: nat -> PageReply) returns (r: Result<Option<ExistingSpool>, string>)
    ensures r == ScanFrom(spool, page, 1)
  {
    var n := 1;
    while n <= PAGES
      invariant 1 <= n <= PAGES + 1
      invariant ScanFrom(spool, page, 1) == ScanFrom(spool, page, n)
    {
      match page(n)
      case Unavailable(error) => return Err(error);
      case Malformed => return Err(INVALID_LIST);
      case Page(items, total) =>
        var i := 0;
        while i < |items|
          invariant 0 <= i <= |items|
          invariant FirstMatch(items, spool) == FirstMatch(items[i..], spool)
        {
          if ItemMatches(items[i], spool) {
            assert FirstMatch(items[i..], spool) == Some(items[i]);
            return Found(items[i]);
          }
          i := i + 1;
        }
        var count := if total.Some? then total.value else |items|;
        if n * PAGE_SIZE >= count {
          return Ok(None);
        }
        n := n + 1;
    }
    return Err(TOO_LONG);
  }

  /** The cache entry `load_inventory_spools` makes of a list entry, if any. */
  function CacheEntry(item: RemoteSpool): seq<CachedSpool> {
    if item.externalId.None? then []
    else match CanonicalizeRemote(item.externalId.value)
      case None => []
      case Some(externalId) =>
        if item.id.None? || item.id.value == 0 then []
        else [CachedSpool(externalId, item.id.value, item.locationId)]
  }

  function CacheEntries(items: seq<RemoteSpool>): seq<CachedSpool> {
    if items == [] then [] else CacheEntry(items[0]) + CacheEntries(items[1..])
  }

  lemma {:induction false} CacheEntriesOfConcat(a: seq<RemoteSpool>, b: seq<RemoteSpool>)
    ensures CacheEntries(a + b) == CacheEntries(a) + CacheEntries(b)
  {
    if a == [] {
      assert a + b == b;
    } else {
      assert (a + b)[1..] == a[1..] + b;
      CacheEntriesOfConcat(a[1..], b);
    }
  }

  function Prepend(head: seq<CachedSpool>, tail: Result<seq<CachedSpool>, string>): Result<seq<CachedSpool>, string> {
    match tail
    case Err(error) => Err(error)
    case Ok(rest) => Ok(head + rest)
  }

  lemma PrependLaws(a: seq<CachedSpool>, b: seq<CachedSpool>, tail: Result<seq<CachedSpool>, string>)
    ensures Prepend([], tail) == tail
    ensures Prepend(a, Prepend(b, tail)) == Prepend(a + b, tail)
  {
    if tail.Ok? {
      assert [] + tail.value == tail.value;
      assert a + (b + tail.value) == a + b + tail.value;
    }
  }

  /** The pages from `n` on, as cache entries in server order. */
  function LoadFrom(page: nat -> PageReply, n: nat): Result<seq<CachedSpool>, string>
    decreases PAGES + 1 - n
  {
    if n > PAGES then Err(TOO_LONG)
    else match page(n)
      case Unavailable(error) => Err(error)
      case Malformed => Err(INVALID_LIST)
      case Page(items, total) =>
        if n * PAGE_SIZE >= (if total.Some? then total.value else |items|) then Ok(CacheEntries(items))
        else Prepend(CacheEntries(items), LoadFrom(page, n + 1))
  }

  /** The inner loop of `load_inventory_spools`. */
  method AppendEntries(spools: seq<CachedSpool>, items: seq<RemoteSpool>) returns (all: seq<CachedSpool>)
    ensures all == spools + CacheEntries(items)
  {
    all := spools;
    var i := 0;
    while i < |items|
      invariant 0 <= i <= |items|
      invariant all == spools + CacheEntries(items[..i])
    {
      CacheEntriesOfConcat(items[..i], [items[i]]);
      assert items[..i + 1] == items[..i] + [items[i]];
      assert [items[i]][1..] == [];
      all := all + CacheEntry(items[i]);
      i := i + 1;
    }
    assert items[..i] == items;
  }

  /** `load_inventory_spools` */
  method LoadInventorySpools(page: nat -> PageReply) returns (r: Result<seq<CachedSpool>, string>)
    ensures r == LoadFrom(page, 1)
  {
    var spools: seq<CachedSpool> := [];
    PrependLaws([], [], LoadFrom(page, 1));
    var n := 1;
    while n <= PAGES
      invariant 1 <= n <= PAGES + 1
      invariant LoadFrom(page, 1) == Prepend(spools, LoadFrom(page, n))
    {
      match page(n)
      case Unavailable(error) => return Err(error);
      case Malformed => return Err(INVALID_LIST);
      case Page(items, total) =>
        var count := if total.Some? then total.value else |items|;
        PrependLaws(spools, CacheEntries(items), LoadFrom(page, n + 1));
        spools := AppendEntries(spools, items);
        if n * PAGE_SIZE >= count {
          return Ok(spools);
        }
        n := n + 1;
    }
    return Err(TOO_LONG);
  }

  /** A server whose list does not change while it is being read. */
  function Served(list: seq<RemoteSpool>): nat -> PageReply {
    (n: nat) => Page(Between(list, (n - 1) * PAGE_SIZE, n * PAGE_SIZE), Some(|list|))
  }

  function Between(list: seq<RemoteSpool>, from: int, to: int): seq<RemoteSpool> {
    var lo := if from < 0 then 0 else if from > |list| then |list| else from;
    var hi := if to < lo then lo else if to > |list| then |list| else to;
    list[lo..hi]
  }

  lemma {:induction false} FirstMatchOfConcat(a: seq<RemoteSpool>, b: seq<RemoteSpool>, spool: FilamentSpool)
    ensures FirstMatch(a + b, spool)
         == if FirstMatch(a, spool).Some? then FirstMatch(a, spool) else FirstMatch(b, spool)
  {
    if a == [] {
      assert a + b == b;
    } else {
      assert (a + b)[1..] == a[1..] + b;
      FirstMatchOfConcat(a[1..], b, spool);
    }
  }

  lemma FirstMatchSplit(list: seq<RemoteSpool>, spool: FilamentSpool, a: nat, b: nat)
    requires a <= b
    ensures FirstMatch(Between(list, 0, b), spool)
         == if FirstMatch(Between(list, 0, a), spool).Some? then FirstMatch(Between(list, 0, a), spool)
            else FirstMatch(Between(list, a, b), spool)
  {
    assert Between(list, 0, b) == Between(list, 0, a) + Between(list, a, b);
    FirstMatchOfConcat(Between(list, 0, a), Between(list, a, b), spool);
  }

  /** The result of a linear search through the first 5000 entries. */
  function LinearScan(list: seq<RemoteSpool>, spool: FilamentSpool): Result<Option<ExistingSpool>, string> {
    match FirstMatch(Between(list, 0, MAX_SPOOLS), spool)
    case Some(item) => Found(item)
    case None => if |list| <= MAX_SPOOLS then Ok(None) else Err(TOO_LONG)
  }

  /** One page of the scan, in terms of the list. */
  lemma ScanStep(list: seq<RemoteSpool>, spool: FilamentSpool, n: nat, lo: nat, hi: nat)
    requires 1 <= n <= PAGES && lo == (n - 1) * PAGE_SIZE && hi == lo + PAGE_SIZE
    requires FirstMatch(Between(list, 0, lo), spool).None?
    ensures ScanFrom(spool, Served(list), n)
         == if hi < |list| && FirstMatch(Between(list, 0, hi), spool).None? then ScanFrom(spool, Served(list), n + 1)
            else LinearScan(list, spool)
  {
    assert hi == n * PAGE_SIZE;
    assert Served(list)(n) == Page(Between(list, lo, hi), Some(|list|));
    FirstMatchSplit(list, spool, lo, hi);
    FirstMatchSplit(list, spool, hi, MAX_SPOOLS);
    if hi >= |list| {
      assert Between(list, hi, MAX_SPOOLS) == [];
    }
  }

  lemma {:induction false} PagedScanFrom(list: seq<RemoteSpool>, spool: FilamentSpool, n: nat, lo: nat)
    requires 1 <= n <= PAGES + 1 && lo == (n - 1) * PAGE_SIZE
    requires n == 1 || lo < |list|
    requires FirstMatch(Between(list, 0, lo), spool).None?
    ensures ScanFrom(spool, Served(list), n) == LinearScan(list, spool)
    decreases PAGES + 1 - n
  {
    if n <= PAGES {
      var hi := lo + PAGE_SIZE;
      ScanStep(list, spool, n, lo, hi);
      if hi < |list| && FirstMatch(Between(list, 0, hi), spool).None? {
        PagedScanFrom(list, spool, n + 1, hi);
      }
    }
  }

  /** Reading pages of 50 finds what a linear search of the whole list finds. */
  lemma PagedScanIsLinear(list: seq<RemoteSpool>, spool: FilamentSpool)
    ensures ScanFrom(spool, Served(list), 1) == LinearScan(list, spool)
  {
    PagedScanFrom(list, spool, 1, 0);
  }

  /** How many entries a page says there are; without a total, as many as it holds. */
  function CountOf(p: PageReply): nat
    requires p.Page?
  {
    if p.total.Some? then p.total.value else |p.items|
  }

  /** The pages before the `n`th hold no match, and none of them is the last. */
  ghost predicate ScanReaches(spool: FilamentSpool, page: nat -> PageReply, n: nat) {
    forall k :: 1 <= k < n ==>
      && page(k).Page? && 50 * k < CountOf(page(k))
      && forall i :: 0 <= i < |page(k).items| ==> !ItemMatches(page(k).items[i], spool)
  }

  lemma {:induction false} FirstMatchIs(items: seq<RemoteSpool>, spool: FilamentSpool, i: nat)
    requires i <= |items| && (i < |items| ==> ItemMatches(items[i], spool))
    requires forall j :: 0 <= j < i ==> !ItemMatches(items[j], spool)
    ensures FirstMatch(items, spool) == if i < |items| then Some(items[i]) else None
  {
    if i > 0 {
      FirstMatchIs(items[1..], spool, i - 1);
    }
  }

  lemma {:induction false} ScanSkips(spool: FilamentSpool, page: nat -> PageReply, n: nat)
    requires 1 <= n <= 101 && ScanReaches(spool, page, n)
    ensures ScanFrom(spool, page, 1) == ScanFrom(spool, page, n)
  {
    if n > 1 {
      ScanSkips(spool, page, n - 1);
      FirstMatchIs(page(n - 1).items, spool, |page(n - 1).items|);
    }
  }

  /** For every server, whatever it answers: the scan ends at the first page that cannot be read, that holds a match, or
      that is the last by its own count, and answers accordingly. It never takes an unreadable page for the end. */
  lemma ScanEndsAt(spool: FilamentSpool, page: nat -> PageReply, n: nat, i: nat)
    requires 1 <= n <= 100 && ScanReaches(spool, page, n)
    requires page(n).Page? ==>
      && i <= |page(n).items| && (i < |page(n).items| ==> ItemMatches(page(n).items[i], spool))
      && forall j :: 0 <= j < i ==> !ItemMatches(page(n).items[j], spool)
    ensures var r := ScanFrom(spool, page, 1);
      match page(n)
      case Unavailable(error) => r == Err(error)
      case Malformed => r == Err("FilaMan spool list response is invalid")
      case Page(items, _) =>
        if i < |items| then
          if items[i].id.Some? then r == Ok(Some(ExistingSpool(items[i].id.value, items[i].locationId)))
          else r == Err("FilaMan spool list contains an item without a numeric id")
        else 50 * n >= CountOf(page(n)) ==> r == Ok(None)
  {
    ScanSkips(spool, page, n);
    if page(n).Page? {
      FirstMatchIs(page(n).items, spool, i);
    }
  }

  /** A hundred pages without a match, and more to come, are refused. */
  lemma LongScanIsRefused(spool: FilamentSpool, page: nat -> PageReply)
    requires ScanReaches(spool, page, 101)
    ensures ScanFrom(spool, page, 1) == Err("FilaMan spool list exceeds 5000 entries")
  {
    ScanSkips(spool, page, 101);
  }

  /** The pages before the `n`th were read, and none of them is the last. */
  ghost predicate LoadReaches(page: nat -> PageReply, n: nat) {
    forall k :: 1 <= k < n ==> page(k).Page? && 50 * k < CountOf(page(k))
  }

  function EntriesUpTo(page: nat -> PageReply, n: nat): seq<CachedSpool> {
    if n <= 1 then [] else EntriesUpTo(page, n - 1) + if page(n - 1).Page? then CacheEntries(page(n - 1).items) else []
  }

  lemma LoadSkipsOne(page: nat -> PageReply, n: nat)
    requires 1 <= n <= 100 && page(n).Page? && 50 * n < CountOf(page(n))
    ensures LoadFrom(page, n) == Prepend(CacheEntries(page(n).items), LoadFrom(page, n + 1))
    ensures EntriesUpTo(page, n + 1) == EntriesUpTo(page, n) + CacheEntries(page(n).items)
  {
  }

  lemma {:induction false} LoadSkips(page: nat -> PageReply, n: nat)
    requires 1 <= n <= 101 && LoadReaches(page, n)
    ensures LoadFrom(page, 1) == Prepend(EntriesUpTo(page, n), LoadFrom(page, n))
  {
    PrependLaws([], [], LoadFrom(page, 1));
    if n > 1 {
      LoadSkips(page, n - 1);
      LoadSkipsOne(page, n - 1);
      PrependLaws(EntriesUpTo(page, n - 1), CacheEntries(page(n - 1).items), LoadFrom(page, n));
    }
  }

  /** For every server: the load ends at the first page that cannot be read, and fails, or at the first that is the last
      by its own count, with the entries of all pages up to it. */
  lemma LoadEndsAt(page: nat -> PageReply, n: nat)
    requires 1 <= n <= 100 && LoadReaches(page, n)
    ensures var r := LoadFrom(page, 1);
      match page(n)
      case Unavailable(error) => r == Err(error)
      case Malformed => r == Err("FilaMan spool list response is invalid")
      case Page(items, _) => 50 * n >= CountOf(page(n)) ==> r == Ok(EntriesUpTo(page, n + 1))
  {
    LoadSkips(page, n);
  }

  lemma LongLoadIsRefused(page: nat -> PageReply)
    requires LoadReaches(page, 101)
    ensures LoadFrom(page, 1) == Err("FilaMan spool list exceeds 5000 entries")
  {
    LoadSkips(page, 101);
  }

  lemma CacheEntriesSplit(list: seq<RemoteSpool>, a: nat, b: nat)
    requires a <= b <= |list|
    ensures CacheEntries(list[a..]) == CacheEntries(list[a..b]) + CacheEntries(list[b..])
  {
    assert list[a..] == list[a..b] + list[b..];
    CacheEntriesOfConcat(list[a..b], list[b..]);
  }

  /** One page of the load, in terms of the list. */
  lemma LoadStep(list: seq<RemoteSpool>, n: nat, lo: nat, hi: nat)
    requires 1 <= n <= PAGES && lo == (n - 1) * PAGE_SIZE && hi == lo + PAGE_SIZE && lo <= |list|
    ensures LoadFrom(Served(list), n)
         == if hi < |list| then Prepend(CacheEntries(list[lo..hi]), LoadFrom(Served(list), n + 1))
            else Ok(CacheEntries(list[lo..]))
  {
    assert hi == n * PAGE_SIZE;
    assert Served(list)(n) == Page(Between(list, lo, hi), Some(|list|));
    if hi < |list| {
      assert Between(list, lo, hi) == list[lo..hi];
    } else {
      assert Between(list, lo, hi) == list[lo..];
    }
  }

  /** What is still to be loaded from `lo` on. */
  function Loadable(list: seq<RemoteSpool>, lo: nat): Result<seq<CachedSpool>, string>
    requires lo <= |list|
  {
    if |list| <= MAX_SPOOLS then Ok(CacheEntries(list[lo..])) else Err(TOO_LONG)
  }

  lemma LoadableStep(list: seq<RemoteSpool>, lo: nat, hi: nat)
    requires lo <= hi <= |list|
    ensures Loadable(list, lo) == Prepend(CacheEntries(list[lo..hi]), Loadable(list, hi))
  {
    CacheEntriesSplit(list, lo, hi);
  }

  lemma {:induction false} PagedLoadFrom(list: seq<RemoteSpool>, n: nat, lo: nat)
    requires 1 <= n <= PAGES + 1 && lo == (n - 1) * PAGE_SIZE
    requires lo <= |list| && (n == 1 || lo < |list|)
    ensures LoadFrom(Served(list), n) == Loadable(list, lo)
    decreases PAGES + 1 - n
  {
    if n <= PAGES {
      var hi := lo + PAGE_SIZE;
      LoadStep(list, n, lo, hi);
      if hi < |list| {
        PagedLoadFrom(list, n + 1, hi);
        LoadableStep(list, lo, hi);
      }
    }
  }

  /** Reading pages of 50 loads every entry once, in server order, or refuses a list that is too long. */
  lemma PagedLoadIsComplete(list: seq<RemoteSpool>)
    ensures LoadFrom(Served(list), 1) == if |list| <= MAX_SPOOLS then Ok(CacheEntries(list)) else Err(TOO_LONG)
  {
    PagedLoadFrom(list, 1, 0);
    assert list[0..] == list;
  }

  /** Rust's string order: bytewise on UTF-8, which is by scalar value. */
  predicate StringLess(a: string, b: string) {
    b != "" && (a == "" || a[0] < b[0] || (a[0] == b[0] && StringLess(a[1..], b[1..])))
  }

  lemma {:induction false} StringLessIsTransitive(a: string, b: string, c: string)
    requires StringLess(a, b) && StringLess(b, c)
    ensures StringLess(a, c)
  {
    if a != "" && a[0] == b[0] && b[0] == c[0] {
      StringLessIsTransitive(a[1..], b[1..], c[1..]);
    }
  }

  lemma {:induction false} StringLessIsTotal(a: string, b: string)
    ensures a == b || StringLess(a, b) || StringLess(b, a)
    ensures !StringLess(a, a)
  {
    if a != "" {
      StringLessIsTotal(a[1..], a[1..]);
      if b != "" && a[0] == b[0] {
        StringLessIsTotal(a[1..], b[1..]);
        assert a == [a[0]] + a[1..] && b == [b[0]] + b[1..];
      }
    }
  }

  const ExternalIdOf: CachedSpool -> string := (c: CachedSpool) => c.externalId
  const IdOf: Location -> nat := (l: Location) => l.id
  const ByText: (string, string) -> bool := (a: string, b: string) => StringLess(a, b)
  const ByNumber: (nat, nat) -> bool := (a: nat, b: nat) => a < b

  lemma OrdersAreTotal()
    ensures TotalOrder(ByText) && TotalOrder(ByNumber)
  {
    forall a, b, c | ByText(a, b) && ByText(b, c) ensures ByText(a, c) {
      StringLessIsTransitive(a, b, c);
    }
    forall a, b ensures a == b || ByText(a, b) || ByText(b, a) {
      StringLessIsTotal(a, b);
    }
    forall a ensures !ByText(a, a) {
      StringLessIsTotal(a, a);
    }
  }

  /** The lists of a prepared inventory snapshot. */
  function CanonicalSpools(spools: seq<CachedSpool>): seq<CachedSpool> {
    Canonical(spools, ExternalIdOf, ByText)
  }

  function CanonicalLocations(locations: seq<Location>): seq<Location> {
    Canonical(locations, IdOf, ByNumber)
  }

  /** The hash index as `commit_inventory` fills it: a later entry replaces an earlier one. */
  function IndexOf(spools: seq<CachedSpool>): map<string, CachedSpool> {
    if spools == [] then map[]
    else IndexOf(spools[..|spools| - 1])[spools[|spools| - 1].externalId := spools[|spools| - 1]]
  }

  lemma {:induction false} GroupOfConcat(a: seq<CachedSpool>, b: seq<CachedSpool>, k: string)
    ensures Group(a + b, ExternalIdOf, k) == Group(a, ExternalIdOf, k) + Group(b, ExternalIdOf, k)
  {
    if a == [] {
      assert a + b == b;
    } else {
      assert (a + b)[1..] == a[1..] + b;
      GroupOfConcat(a[1..], b, k);
    }
  }

  /** The index answers what a search for the last entry with a key would. */
  lemma {:induction false} IndexIsLinearLookup(spools: seq<CachedSpool>, k: string)
    ensures var g := Group(spools, ExternalIdOf, k);
      if g == [] then k !in IndexOf(spools) else k in IndexOf(spools) && IndexOf(spools)[k] == g[|g| - 1]
  {
    if spools != [] {
      var front, last := spools[..|spools| - 1], spools[|spools| - 1];
      IndexIsLinearLookup(front, k);
      GroupOfConcat(front, [last], k);
      assert spools == front + [last];
      assert [last][1..] == [];
    }
  }

  /** In a canonical snapshot at most one entry has a key, so first and last are the same. */
  lemma CanonicalIndex(spools: seq<CachedSpool>, k: string)
    ensures var g := Group(spools, ExternalIdOf, k);
      var index := IndexOf(CanonicalSpools(spools));
      if g == [] then k !in index else k in index && index[k] == g[0]
  {
    OrdersAreTotal();
    CanonicalMeaning(spools, ExternalIdOf, ByText);
    IndexIsLinearLookup(CanonicalSpools(spools), k);
    assert Group(CanonicalSpools(spools), ExternalIdOf, k) == FirstOf(Group(spools, ExternalIdOf, k));
  }

  /** What the index knows about a spool, in the scan's terms. */
  function IndexLookup(index: map<string, CachedSpool>, spool: FilamentSpool): Option<ExistingSpool> {
    var k := CanonicalId(spool);
    if k in index then Some(ExistingSpool(index[k].spoolId, index[k].locationId)) else None
  }

  /** The entry names the spool to the scan. */
  predicate IsScanned(item: RemoteSpool, spool: FilamentSpool) {
    item.externalId.Some? && Names(item.externalId.value, spool) && !HasOuterSpace(item.externalId.value)
  }

  /** The entry names the spool to the cache. */
  predicate IsCached(item: RemoteSpool, spool: FilamentSpool) {
    && item.externalId.Some? && Names(item.externalId.value, spool) && !HasForeignPrefix(item.externalId.value)
    && item.id.Some? && item.id.value > 0
  }

  function FirstScanned(list: seq<RemoteSpool>, spool: FilamentSpool): Option<RemoteSpool> {
    if list == [] then None else if IsScanned(list[0], spool) then Some(list[0]) else FirstScanned(list[1..], spool)
  }

  function FirstCached(list: seq<RemoteSpool>, spool: FilamentSpool): (r: Option<RemoteSpool>)
    ensures r.Some? ==> r.value.id.Some?
  {
    if list == [] then None else if IsCached(list[0], spool) then Some(list[0]) else FirstCached(list[1..], spool)
  }

  lemma {:induction false} ScanIsFirstScanned(list: seq<RemoteSpool>, spool: FilamentSpool)
    requires IsStorable(spool)
    ensures FirstMatch(list, spool) == FirstScanned(list, spool)
  {
    if list != [] {
      ScanIsFirstScanned(list[1..], spool);
      if list[0].externalId.Some? {
        EachHasItsDefect(list[0].externalId.value, spool);
      }
    }
  }

  lemma CachedEntry(item: RemoteSpool, spool: FilamentSpool)
    requires IsStorable(spool)
    ensures var g := Group(CacheEntry(item), ExternalIdOf, CanonicalId(spool));
      if IsCached(item, spool) then g == [CachedSpool(CanonicalId(spool), item.id.value, item.locationId)] else g == []
  {
    if item.externalId.Some? {
      EachHasItsDefect(item.externalId.value, spool);
    }
    var e := CacheEntry(item);
    if e != [] {
      assert e[1..] == [];
      assert Group(e, ExternalIdOf, CanonicalId(spool)) == if e[0].externalId == CanonicalId(spool) then e else [];
    }
  }

  lemma {:induction false} GroupIsFirstCached(list: seq<RemoteSpool>, spool: FilamentSpool)
    requires IsStorable(spool)
    ensures var g := Group(CacheEntries(list), ExternalIdOf, CanonicalId(spool));
      match FirstCached(list, spool)
      case None => g == []
      case Some(item) => g != [] && g[0].spoolId == item.id.value && g[0].locationId == item.locationId
  {
    if list != [] {
      GroupIsFirstCached(list[1..], spool);
      GroupOfConcat(CacheEntry(list[0]), CacheEntries(list[1..]), CanonicalId(spool));
      CachedEntry(list[0], spool);
    }
  }

  /** What the loaded, sorted, deduplicated and indexed inventory answers. */
  function CacheAnswer(list: seq<RemoteSpool>, spool: FilamentSpool): Option<ExistingSpool>
    requires LoadFrom(Served(list), 1).Ok?
  {
    IndexLookup(IndexOf(CanonicalSpools(LoadFrom(Served(list), 1).value)), spool)
  }

  function ScanAnswerFrom(first: Option<RemoteSpool>): Result<Option<ExistingSpool>, string> {
    if first.Some? then Found(first.value) else Ok(None)
  }

  function CacheAnswerFrom(first: Option<RemoteSpool>): Option<ExistingSpool>
    requires first.Some? ==> first.value.id.Some?
  {
    if first.Some? then Some(ExistingSpool(first.value.id.value, first.value.locationId)) else None
  }

  /** Over any static list of at most 5000 entries, the scan answers with the first entry it recognises, and the
      inventory with the first entry the cache recognises. */
  lemma BothAnswers(list: seq<RemoteSpool>, spool: FilamentSpool)
    requires IsStorable(spool) && |list| <= MAX_SPOOLS
    ensures LoadFrom(Served(list), 1).Ok?
    ensures ScanFrom(spool, Served(list), 1) == ScanAnswerFrom(FirstScanned(list, spool))
    ensures CacheAnswer(list, spool) == CacheAnswerFrom(FirstCached(list, spool))
  {
    PagedLoadIsComplete(list);
    PagedScanIsLinear(list, spool);
    assert Between(list, 0, MAX_SPOOLS) == list;
    ScanIsFirstScanned(list, spool);
    GroupIsFirstCached(list, spool);
    CanonicalIndex(CacheEntries(list), CanonicalId(spool));
  }

  function IdAndPlace(item: Option<RemoteSpool>): Option<(Option<nat>, Option<nat>)> {
    if item.None? then None else Some((item.value.id, item.value.locationId))
  }

  lemma SameAnswer(scanned: Option<RemoteSpool>, cached: Option<RemoteSpool>)
    requires cached.Some? ==> cached.value.id.Some?
    ensures ScanAnswerFrom(scanned) == Ok(CacheAnswerFrom(cached)) <==> IdAndPlace(scanned) == IdAndPlace(cached)
  {
  }

  /** Exactly when the two answers agree, for every list of at most 5000 entries: the first entry that names the
      spool without outer white space, and the first that names it without a foreign prefix and has a usable id,
      show the same id and place, or there is neither. */
  lemma ListAgreementIsExact(list: seq<RemoteSpool>, spool: FilamentSpool)
    requires IsStorable(spool) && |list| <= MAX_SPOOLS
    ensures LoadFrom(Served(list), 1).Ok?
    ensures ScanFrom(spool, Served(list), 1) == Ok(CacheAnswer(list, spool))
      <==> IdAndPlace(FirstScanned(list, spool)) == IdAndPlace(FirstCached(list, spool))
  {
    BothAnswers(list, spool);
    SameAnswer(FirstScanned(list, spool), FirstCached(list, spool));
  }

  /** A list entry the cache and the scan are bound to read alike. */
  predicate IsWellFormed(item: RemoteSpool) {
    item.externalId.Some? ==> IsTidy(item.externalId.value) && item.id.Some? && item.id.value > 0
  }

  lemma {:induction false} WellFormedFirsts(list: seq<RemoteSpool>, spool: FilamentSpool)
    requires forall i :: 0 <= i < |list| ==> IsWellFormed(list[i])
    ensures FirstScanned(list, spool) == FirstCached(list, spool)
  {
    if list != [] {
      WellFormedFirsts(list[1..], spool);
    }
  }

  /** Over a static list of at most 5000 well-formed entries, the inventory answers exactly as the paged scan,
      including when several entries share an identity. */
  lemma CacheAgreesWithScan(list: seq<RemoteSpool>, spool: FilamentSpool)
    requires IsStorable(spool)
    requires |list| <= MAX_SPOOLS
    requires forall i :: 0 <= i < |list| ==> IsWellFormed(list[i])
    ensures var loaded := LoadFrom(Served(list), 1);
      && loaded.Ok?
      && ScanFrom(spool, Served(list), 1) == Ok(IndexLookup(IndexOf(CanonicalSpools(loaded.value)), spool))
  {
    ListAgreementIsExact(list, spool);
    WellFormedFirsts(list, spool);
  }
}
