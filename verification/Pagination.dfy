/**
  Scoped call history, newest first: pages behind a cursor over a table that may
  change between fetches, and numbered pages over one that does not.
 */
module Pagination {
  import opened Basics

  /** The order of listing: creation time, then call id. */
  datatype Key = Key(createdAt: int, callId: int)

  predicate Below(a: Key, b: Key) {
    a.createdAt < b.createdAt || (a.createdAt == b.createdAt && a.callId < b.callId)
  }

  predicate Past(cursor: Option<Key>, k: Key) { cursor.Some? ==> Below(k, cursor.value) }

  // ------------------------------------------------------------------ ordered listing

  ghost function Highest(s: set<Key>): (h: Key)
    requires s != {}
    ensures h in s && forall k | k in s && k != h :: Below(k, h)
  {
    var k :| k in s;
    if s == {k} then k
    else
      assert s - {k} != {} by { assert s == {k} + (s - {k}); }
      var h := Highest(s - {k});
      if Below(h, k) then k else h
  }

  ghost function Descending(s: set<Key>): seq<Key> {
    if s == {} then [] else var h := Highest(s); [h] + Descending(s - {h})
  }

  predicate StrictlyDescending(keys: seq<Key>) {
    forall i, j | 0 <= i < j < |keys| :: Below(keys[j], keys[i])
  }

  lemma {:induction false} DescendingLists(s: set<Key>)
    ensures |Descending(s)| == |s| && StrictlyDescending(Descending(s))
    ensures forall k :: k in Descending(s) <==> k in s
  {
    if s != {} {
      var h := Highest(s);
      var rest := Descending(s - {h});
      DescendingLists(s - {h});
      assert Descending(s) == [h] + rest;
      assert forall i | 0 <= i < |rest| :: rest[i] in rest;
    }
  }

  /** A strictly descending list is the listing of its own keys. */
  lemma {:induction false} DescendingIsUnique(keys: seq<Key>, s: set<Key>)
    requires StrictlyDescending(keys) && forall k :: k in keys <==> k in s
    ensures keys == Descending(s)
  {
    if keys == [] {
      if s != {} {
        SomeKey(s);
      }
    } else {
      assert keys[0] in s;
      FirstIsHighest(keys, s);
      var rest := keys[1..];
      assert forall k :: k in rest <==> k in s - {keys[0]} by { RestOfKeys(keys); }
      DescendingIsUnique(rest, s - {keys[0]});
    }
  }

  lemma SomeKey(s: set<Key>)
    requires s != {}
    ensures exists k :: k in s
  {
    assert Highest(s) in s;
  }

  lemma FirstIsHighest(keys: seq<Key>, s: set<Key>)
    requires keys != [] && StrictlyDescending(keys) && (forall k :: k in keys <==> k in s) && s != {}
    ensures Highest(s) == keys[0]
  {
    var h := Highest(s);
    assert h in keys && keys[0] in s;
  }

  lemma RestOfKeys(keys: seq<Key>)
    requires keys != [] && StrictlyDescending(keys)
    ensures forall k :: k in keys[1..] <==> k in keys && k != keys[0]
  {
    assert keys == [keys[0]] + keys[1..];
  }

  // ----------------------------------------------------------------------- pages

  datatype Page = Page(items: seq<Key>, next: Option<Key>)

  function First<T>(s: seq<T>, n: nat): seq<T> { if n <= |s| then s[..n] else s }

  ghost function Remaining(s: set<Key>, cursor: Option<Key>): set<Key> { set k | k in s && Past(cursor, k) }

  /** One page behind a cursor: one row more than the limit is read to see whether a page follows. */
  ghost function Fetch(s: set<Key>, cursor: Option<Key>, limit: nat): Page
    requires limit > 0
  {
    var rows := First(Descending(Remaining(s, cursor)), limit + 1);
    var page := First(rows, limit);
    Page(page, if |rows| > limit then Some(page[|page| - 1]) else None)
  }

  /** Page `page` of the numbered listing, which starts at 1. */
  ghost function NumberedPage(s: set<Key>, page: nat, limit: nat): seq<Key>
    requires page > 0 && limit > 0
  {
    var all, offset := Descending(s), (page - 1) * limit;
    if offset <= |all| then First(all[offset..], limit) else []
  }

  function TotalPages(total: nat, limit: nat): nat
    requires limit > 0
  {
    Max(1, (total + limit - 1) / limit)
  }

  /** A page holds the next rows in order; all that is left past it is below its last row. */
  lemma FetchTakesNext(s: set<Key>, cursor: Option<Key>, limit: nat)
    requires limit > 0
    ensures var page, all := Fetch(s, cursor, limit), Descending(Remaining(s, cursor));
            && StrictlyDescending(page.items) && |page.items| == Min(limit, |all|)
            && page.items == all[..|page.items|]
            && (forall k | k in page.items :: k in s && Past(cursor, k))
            && (page.next.Some? <==> |all| > limit)
            && (page.next.Some? ==> page.items != [] && page.next.value == page.items[|page.items| - 1])
            && (page.next.None? ==> page.items == all)
            && (forall k | k in s && Past(cursor, k) ::
                  k in page.items || (page.next.Some? && Below(k, page.next.value)))
  {
    var all, page := Descending(Remaining(s, cursor)), Fetch(s, cursor, limit);
    DescendingLists(Remaining(s, cursor));
    FetchIsPrefix(s, cursor, limit);
    assert forall k :: k in all <==> k in s && Past(cursor, k);
    hide *;
    PrefixTakesNext(all, limit);
  }

  lemma PrefixTakesNext(all: seq<Key>, limit: nat)
    requires limit > 0 && StrictlyDescending(all)
    ensures var items := all[..Min(limit, |all|)];
            && StrictlyDescending(items)
            && (forall k | k in items :: k in all)
            && (forall k | k in all :: k in items || (|all| > limit && Below(k, items[|items| - 1])))
  {
    hide Below;
    var items := all[..Min(limit, |all|)];
    forall k | k in all ensures k in items || (|all| > limit && Below(k, items[|items| - 1])) {
      var i :| 0 <= i < |all| && all[i] == k;
      if i < |items| {
        assert items[i] == k;
      }
    }
  }

  lemma FetchIsPrefix(s: set<Key>, cursor: Option<Key>, limit: nat)
    requires limit > 0
    ensures var page, all := Fetch(s, cursor, limit), Descending(Remaining(s, cursor));
            && |page.items| == Min(limit, |all|) && page.items == all[..|page.items|]
            && (page.next.Some? <==> |all| > limit)
            && (page.next.Some? ==> page.next.value == page.items[limit - 1])
  {
    hide Descending, Remaining;
    var all := Descending(Remaining(s, cursor));
    if |all| > limit {
      assert all[..limit + 1][..limit] == all[..limit];
    }
  }

  // ------------------------------------------------------------------ walking the pages

  datatype Walked = Walked(items: seq<Key>, finished: bool)

  /** Following the cursor, each fetch meeting the next of `tables`. */
  ghost function Walk(tables: seq<set<Key>>, cursor: Option<Key>, limit: nat): Walked
    requires limit > 0
    decreases |tables|
  {
    if tables == [] then Walked([], false)
    else
      var page := Fetch(tables[0], cursor, limit);
      if page.next.None? then Walked(page.items, true)
      else
        var later := Walk(tables[1..], page.next, limit);
        Walked(page.items + later.items, later.finished)
  }

  predicate Throughout(tables: seq<set<Key>>, k: Key) { forall t | t in tables :: k in t }

  predicate Sometime(tables: seq<set<Key>>, k: Key) { exists t :: t in tables && k in t }

  /** `k` is still to come: below everything listed so far. */
  predicate StillToCome(w: Walked, k: Key) {
    !w.finished && (w.items != [] ==> Below(k, w.items[|w.items| - 1]))
  }

  /**
    Whatever comes and goes between fetches, a walk lists keys in strictly descending
    order, so none twice, and misses no key that was there throughout.
   */
  lemma {:induction false} WalkMissesNothing(tables: seq<set<Key>>, cursor: Option<Key>, limit: nat)
    requires limit > 0
    ensures var w := Walk(tables, cursor, limit);
            && StrictlyDescending(w.items)
            && (forall k | k in w.items :: Past(cursor, k) && Sometime(tables, k))
            && (forall k | Throughout(tables, k) && Past(cursor, k) :: k in w.items || StillToCome(w, k))
    decreases |tables|
  {
    if tables != [] {
      var page := Fetch(tables[0], cursor, limit);
      FetchTakesNext(tables[0], cursor, limit);
      assert tables[0] in tables;
      hide Fetch, Descending;
      if page.next.Some? {
        WalkMissesNothing(tables[1..], page.next, limit);
        WalkJoins(tables, cursor, page, limit);
      } else {
        assert Walk(tables, cursor, limit) == Walked(page.items, true);
      }
    }
  }

  lemma WalkJoins(tables: seq<set<Key>>, cursor: Option<Key>, page: Page, limit: nat)
    requires limit > 0 && tables != [] && page == Fetch(tables[0], cursor, limit) && page.next.Some?
    requires StrictlyDescending(page.items) && page.items != [] && page.next.value == page.items[|page.items| - 1]
    requires forall k | k in page.items :: k in tables[0] && Past(cursor, k)
    requires forall k | k in tables[0] && Past(cursor, k) :: k in page.items || Below(k, page.next.value)
    requires StrictlyDescending(Walk(tables[1..], page.next, limit).items)
    requires forall k | k in Walk(tables[1..], page.next, limit).items ::
               Below(k, page.next.value) && Sometime(tables[1..], k)
    requires forall k | Throughout(tables[1..], k) && Below(k, page.next.value) ::
               k in Walk(tables[1..], page.next, limit).items || StillToCome(Walk(tables[1..], page.next, limit), k)
    ensures var w := Walk(tables, cursor, limit);
            && StrictlyDescending(w.items)
            && (forall k | k in w.items :: Past(cursor, k) && Sometime(tables, k))
            && (forall k | Throughout(tables, k) && Past(cursor, k) :: k in w.items || StillToCome(w, k))
  {
    var later := Walk(tables[1..], page.next, limit);
    var w := Walk(tables, cursor, limit);
    assert w == Walked(page.items + later.items, later.finished);
    hide Walk, Fetch;
    LaterIsBelow(page.items, later.items);
    forall k | k in w.items ensures Past(cursor, k) && Sometime(tables, k) {
      if k in page.items {
        assert tables[0] in tables;
      } else {
        assert Past(cursor, page.next.value) by { assert page.next.value in page.items; }
        var t :| t in tables[1..] && k in t;
        assert t in tables;
      }
    }
    forall k | Throughout(tables, k) && Past(cursor, k) ensures k in w.items || StillToCome(w, k) {
      assert k in tables[0] by { assert tables[0] in tables; }
      if k !in page.items {
        assert Throughout(tables[1..], k);
      }
    }
  }

  lemma LaterIsBelow(items: seq<Key>, later: seq<Key>)
    requires items != [] && StrictlyDescending(items) && StrictlyDescending(later)
    requires forall k | k in later :: Below(k, items[|items| - 1])
    ensures StrictlyDescending(items + later)
  {
    var all := items + later;
    forall i, j | 0 <= i < j < |all| ensures Below(all[j], all[i]) {
      if i < |items| <= j {
        assert later[j - |items|] in later;
      }
    }
  }

  // ------------------------------------------------------------------ a fixed table

  predicate Unchanging(tables: seq<set<Key>>, s: set<Key>) { forall t | t in tables :: t == s }

  lemma RestIsBelow(all: seq<Key>, n: nat)
    requires StrictlyDescending(all) && 0 < n < |all|
    ensures forall k :: k in all[n..] <==> k in all && Below(k, all[n - 1])
    ensures StrictlyDescending(all[n..])
  {
    var rest := all[n..];
    forall k | k in rest ensures k in all && Below(k, all[n - 1]) {
      var i :| 0 <= i < |rest| && rest[i] == k;
      assert all[n + i] == k;
    }
    forall k | k in all && Below(k, all[n - 1]) ensures k in rest {
      var i :| 0 <= i < |all| && all[i] == k;
      assert i >= n;
      assert rest[i - n] == k;
    }
  }

  lemma BelowIsPast(cursor: Option<Key>, last: Key)
    requires Past(cursor, last)
    ensures forall k | Below(k, last) :: Past(cursor, k)
  {}

  lemma PastLast(last: Key)
    ensures forall k :: Past(Some(last), k) <==> Below(k, last)
  {}

  lemma RemainingAfterPage(s: set<Key>, cursor: Option<Key>, n: nat)
    requires 0 < n < |Descending(Remaining(s, cursor))|
    ensures var all := Descending(Remaining(s, cursor));
            Descending(Remaining(s, Some(all[n - 1]))) == all[n..]
  {
    var all := Descending(Remaining(s, cursor));
    DescendingLists(Remaining(s, cursor));
    var last, rest := all[n - 1], all[n..];
    assert last in all && Past(cursor, last);
    hide Descending, StrictlyDescending;
    RestIsBelow(all, n);
    BelowIsPast(cursor, last);
    hide Below, Past;
    assert forall k :: k in rest <==> k in Remaining(s, Some(last)) by { PastLast(last); }
    DescendingIsUnique(rest, Remaining(s, Some(last)));
  }

  /** On a fixed table a walk of `n` fetches lists the first `n` pages' rows, and ends if there are no more. */
  lemma {:induction false} FixedWalk(tables: seq<set<Key>>, s: set<Key>, cursor: Option<Key>, limit: nat)
    requires limit > 0 && tables != [] && Unchanging(tables, s)
    ensures var all := Descending(Remaining(s, cursor));
            Walk(tables, cursor, limit) == Walked(First(all, |tables| * limit), |all| <= |tables| * limit)
    decreases |tables|
  {
    hide Descending, Remaining, Fetch, First;
    var all, n := Descending(Remaining(s, cursor)), |tables|;
    UnchangingTail(tables, s);
    FetchedFirst(s, cursor, limit);
    Scales(1, n, limit);
    assert n * limit == limit + (n - 1) * limit;
    if |all| > limit {
      var last := all[limit - 1];
      RemainingAfterPage(s, cursor, limit);
      if n > 1 {
        FixedWalk(tables[1..], s, Some(last), limit);
      } else {
        FirstOfNone(all[limit..]);
      }
      FirstJoins(all, limit, (n - 1) * limit);
    } else {
      FirstOfAll(all, n * limit);
    }
  }

  lemma UnchangingTail(tables: seq<set<Key>>, s: set<Key>)
    requires tables != [] && Unchanging(tables, s)
    ensures tables[0] == s && Unchanging(tables[1..], s)
  {
    assert tables[0] in tables;
    forall t | t in tables[1..] ensures t == s {
      assert t in tables;
    }
  }

  lemma FetchedFirst(s: set<Key>, cursor: Option<Key>, limit: nat)
    requires limit > 0
    ensures var all := Descending(Remaining(s, cursor));
            Fetch(s, cursor, limit)
            == if |all| > limit then Page(all[..limit], Some(all[limit - 1])) else Page(all, None)
  {
    FetchIsPrefix(s, cursor, limit);
  }

  lemma FirstOfNone(s: seq<Key>)
    ensures First(s, 0) == []
  {}

  lemma FirstJoins(all: seq<Key>, a: nat, b: nat)
    requires a < |all|
    ensures all[..a] + First(all[a..], b) == First(all, a + b)
  {}

  /** Pages 1 to `n` of the numbered listing, one after another. */
  ghost function Pages(s: set<Key>, n: nat, limit: nat): seq<Key>
    requires limit > 0
  {
    if n == 0 then [] else Pages(s, n - 1, limit) + NumberedPage(s, n, limit)
  }

  lemma {:induction false} PagesJoin(s: set<Key>, n: nat, limit: nat)
    requires limit > 0
    ensures Pages(s, n, limit) == First(Descending(s), n * limit)
  {
    if n > 0 {
      PagesJoin(s, n - 1, limit);
      var all, offset := Descending(s), (n - 1) * limit;
      assert n * limit == offset + limit;
      hide Descending;
      if offset < |all| {
        FirstJoins(all, offset, limit);
      }
    }
  }

  lemma TotalPagesCover(total: nat, limit: nat)
    requires limit > 0
    ensures TotalPages(total, limit) > 0 && TotalPages(total, limit) * limit >= total
    ensures total > 0 ==> (TotalPages(total, limit) - 1) * limit < total
  {
    var q := (total + limit - 1) / limit;
    assert q * limit + (total + limit - 1) % limit == total + limit - 1;
    assert (q - 1) * limit == q * limit - limit;
    if total > 0 {
      assert q > 0;
    }
  }

  /** The numbered pages are the whole listing cut up; pages after the last are empty. */
  lemma NumberedPagesListAll(s: set<Key>, limit: nat, page: nat)
    requires limit > 0
    ensures Pages(s, TotalPages(|s|, limit), limit) == Descending(s)
    ensures page > TotalPages(|s|, limit) ==> NumberedPage(s, page, limit) == []
  {
    var n := TotalPages(|s|, limit);
    TotalPagesCover(|s|, limit);
    PagesJoin(s, n, limit);
    DescendingLists(s);
    hide Descending, TotalPages;
    Scales(n, page - 1, limit);
    hide First;
    FirstOfAll(Descending(s), n * limit);
    if page > n {
      EmptyPast(s, page, limit);
    }
  }

  lemma FirstOfAll(s: seq<Key>, n: nat)
    requires n >= |s|
    ensures First(s, n) == s
  {}

  lemma EmptyPast(s: set<Key>, page: nat, limit: nat)
    requires page > 0 && limit > 0 && (page - 1) * limit >= |Descending(s)|
    ensures NumberedPage(s, page, limit) == []
  {
  }

  /** On a fixed table the cursor walk is the numbered pages 1 to the last. */
  lemma WalkEqualsPages(tables: seq<set<Key>>, s: set<Key>, limit: nat)
    requires limit > 0 && Unchanging(tables, s) && |tables| == TotalPages(|s|, limit)
    ensures Walk(tables, None, limit) == Walked(Pages(s, TotalPages(|s|, limit), limit), true)
  {
    TotalPagesCover(|s|, limit);
    FixedWalk(tables, s, None, limit);
    PagesJoin(s, |tables|, limit);
    assert Remaining(s, None) == s;
    DescendingLists(s);
  }

  // --------------------------------------------------------- the history endpoint

  datatype Row = Row(organization: string, partner: Option<string>, agent: Option<string>, status: string,
                     direction: string)

  datatype HistoryAccess = HistoryAccess(organization: string, partner: Option<string>, includeImported: bool)

  datatype HistoryFilters = HistoryFilters(agent: Option<string>, status: Option<string>, direction: Option<string>,
                                           startedAfter: Option<int>, startedBefore: Option<int>,
                                           page: Option<nat>, cursor: Option<Key>, limit: nat)

  predicate ValidFilters(f: HistoryFilters) { f.limit > 0 && f.page != Some(0) }

  predicate InScope(access: HistoryAccess, row: Row) {
    && row.organization == access.organization
    && (if access.partner.Some? then row.partner == access.partner else access.includeImported || row.partner.Some?)
  }

  /** A text filter applies unless it is absent or empty. */
  predicate TextMatches(filter: Option<string>, value: Option<string>) {
    filter.None? || filter.value == "" || filter == value
  }

  predicate Matches(f: HistoryFilters, k: Key, row: Row) {
    && TextMatches(f.agent, row.agent) && TextMatches(f.status, Some(row.status))
    && TextMatches(f.direction, Some(row.direction))
    && (f.startedAfter.Some? ==> k.createdAt >= f.startedAfter.value)
    && (f.startedBefore.Some? ==> k.createdAt <= f.startedBefore.value)
  }

  type Table = map<Key, Row>

  predicate Shown(table: Table, access: HistoryAccess, f: HistoryFilters, k: Key) {
    k in table && InScope(access, table[k]) && Matches(f, k, table[k])
  }

  ghost function Visible(table: Table, access: HistoryAccess, f: HistoryFilters): set<Key> {
    set k | k in table && Shown(table, access, f, k)
  }

  datatype HistoryPage =
    | CursorPage(items: seq<Key>, next: Option<Key>)
    | NumberPage(items: seq<Key>, page: nat, total: nat, totalPages: nat)

  ghost function ListHistory(table: Table, access: HistoryAccess, f: HistoryFilters): HistoryPage
    requires ValidFilters(f)
  {
    var rows := Visible(table, access, f);
    if f.page.Some? then
      NumberPage(NumberedPage(rows, f.page.value, f.limit), f.page.value, |rows|, TotalPages(|rows|, f.limit))
    else
      var page := Fetch(rows, f.cursor, f.limit);
      CursorPage(page.items, page.next)
  }

  /** A client following `next` until there is none, each request meeting the next of `tables`. */
  ghost function HistoryWalk(tables: seq<Table>, access: HistoryAccess, f: HistoryFilters): Walked
    requires ValidFilters(f) && f.page.None?
    decreases |tables|
  {
    if tables == [] then Walked([], false)
    else
      var page := ListHistory(tables[0], access, f);
      if page.next.None? then Walked(page.items, true)
      else
        var later := HistoryWalk(tables[1..], access, f.(cursor := page.next));
        Walked(page.items + later.items, later.finished)
  }

  ghost function VisibleIn(tables: seq<Table>, access: HistoryAccess, f: HistoryFilters): (sets: seq<set<Key>>)
    ensures |sets| == |tables|
    ensures forall i | 0 <= i < |tables| :: sets[i] == Visible(tables[i], access, f)
  {
    if tables == [] then [] else [Visible(tables[0], access, f)] + VisibleIn(tables[1..], access, f)
  }

  lemma {:induction false} CursorHidesNothing(tables: seq<Table>, access: HistoryAccess, f: HistoryFilters,
                                              c: Option<Key>)
    ensures VisibleIn(tables, access, f.(cursor := c)) == VisibleIn(tables, access, f)
  {
    if tables != [] {
      CursorHidesNothing(tables[1..], access, f, c);
      assert forall k :: Shown(tables[0], access, f.(cursor := c), k) <==> Shown(tables[0], access, f, k);
      assert Visible(tables[0], access, f.(cursor := c)) == Visible(tables[0], access, f);
    }
  }

  lemma {:induction false} HistoryWalkIsWalk(tables: seq<Table>, access: HistoryAccess, f: HistoryFilters)
    requires ValidFilters(f) && f.page.None?
    ensures HistoryWalk(tables, access, f) == Walk(VisibleIn(tables, access, f), f.cursor, f.limit)
    decreases |tables|
  {
    hide Visible, Fetch;
    if tables != [] {
      var page := Fetch(Visible(tables[0], access, f), f.cursor, f.limit);
      CursorHidesNothing(tables[1..], access, f, page.next);
      HistoryWalkIsWalk(tables[1..], access, f.(cursor := page.next));
      assert VisibleIn(tables, access, f)[1..] == VisibleIn(tables[1..], access, f);
    }
  }

  predicate ShownThroughout(tables: seq<Table>, access: HistoryAccess, f: HistoryFilters, k: Key) {
    forall t | t in tables :: Shown(t, access, f, k)
  }

  predicate ShownSometime(tables: seq<Table>, access: HistoryAccess, f: HistoryFilters, k: Key) {
    exists t :: t in tables && Shown(t, access, f, k)
  }

  /**
    Paging through history while calls come, go and change status: strictly newest
    first, only rows in scope and matching when they were read, and every row that was
    so throughout, once.
   */
  lemma HistoryWalkMissesNothing(tables: seq<Table>, access: HistoryAccess, f: HistoryFilters)
    requires ValidFilters(f) && f.page.None?
    ensures var w := HistoryWalk(tables, access, f);
            && StrictlyDescending(w.items)
            && (forall k | k in w.items :: Past(f.cursor, k) && ShownSometime(tables, access, f, k))
            && (forall k | ShownThroughout(tables, access, f, k) && Past(f.cursor, k) ::
                  k in w.items || StillToCome(w, k))
  {
    hide Walk, HistoryWalk, InScope, Matches, StrictlyDescending, StillToCome;
    var sets := VisibleIn(tables, access, f);
    HistoryWalkIsWalk(tables, access, f);
    WalkMissesNothing(sets, f.cursor, f.limit);
    forall k | Sometime(sets, k) ensures ShownSometime(tables, access, f, k) {
      var t :| t in sets && k in t;
      var i :| 0 <= i < |sets| && sets[i] == t;
      assert tables[i] in tables;
    }
    forall k | ShownThroughout(tables, access, f, k) ensures Throughout(sets, k) {
      forall t | t in sets ensures k in t {
        var i :| 0 <= i < |sets| && sets[i] == t;
        assert tables[i] in tables;
      }
    }
  }

  /** On an unchanging table following the cursor from the start is reading the numbered pages 1 to `total_pages`. */
  lemma HistoryWalkEqualsPages(table: Table, access: HistoryAccess, f: HistoryFilters)
    requires ValidFilters(f) && f.page.None? && f.cursor.None?
    ensures var rows := Visible(table, access, f);
            var n := TotalPages(|rows|, f.limit);
            && ListHistory(table, access, f.(page := Some(1))).totalPages == n
            && HistoryWalk(seq(n, _ => table), access, f) == Walked(Pages(rows, n, f.limit), true)
            && Pages(rows, n, f.limit) == Descending(rows)
  {
    var rows := Visible(table, access, f);
    var n := TotalPages(|rows|, f.limit);
    var tables := seq(n, _ => table);
    PageShowsSame(table, access, f);
    HistoryWalkIsWalk(tables, access, f);
    WalkEqualsPages(VisibleIn(tables, access, f), rows, f.limit);
    NumberedPagesListAll(rows, f.limit, 0);
  }

  lemma PageShowsSame(table: Table, access: HistoryAccess, f: HistoryFilters)
    ensures Visible(table, access, f.(page := Some(1))) == Visible(table, access, f)
  {
    assert forall k :: Shown(table, access, f.(page := Some(1)), k) <==> Shown(table, access, f, k);
  }

  // ---------------------------------------------------------------- whose rows are listed

  /** The row belongs to the asking organization, and to the asked partner, or to some partner, or to anyone. */
  predicate MayBeSeen(access: HistoryAccess, row: Row) {
    && row.organization == access.organization
    && (access.partner.Some? ==> row.partner.Some? && row.partner.value == access.partner.value)
    && (access.partner.None? && !access.includeImported ==> row.partner.Some?)
  }

  /** The row has what each given filter asks for; an absent or empty text asks for nothing. */
  predicate IsAskedFor(f: HistoryFilters, k: Key, row: Row) {
    && (f.agent.Some? && f.agent.value != "" ==> row.agent.Some? && row.agent.value == f.agent.value)
    && (f.status.Some? && f.status.value != "" ==> row.status == f.status.value)
    && (f.direction.Some? && f.direction.value != "" ==> row.direction == f.direction.value)
    && (f.startedAfter.Some? ==> f.startedAfter.value <= k.createdAt)
    && (f.startedBefore.Some? ==> k.createdAt <= f.startedBefore.value)
  }

  /** The rows that a listing is of. */
  ghost function Asked(table: Table, access: HistoryAccess, f: HistoryFilters): set<Key> {
    set k | k in table && MayBeSeen(access, table[k]) && IsAskedFor(f, k, table[k])
  }

  lemma VisibleIsAsked(table: Table, access: HistoryAccess, f: HistoryFilters)
    ensures Visible(table, access, f) == Asked(table, access, f)
    ensures forall k :: Shown(table, access, f, k) <==> k in Asked(table, access, f)
  {}

  /**
    A page lists only rows of the asking organization, of the asked partner and as the
    filters ask, whatever else the table holds; a numbered page counts just those, and a
    cursor page leaves none of them out between its cursors.
   */
  lemma PagesKeepToTheScope(table: Table, access: HistoryAccess, f: HistoryFilters)
    requires ValidFilters(f)
    ensures var page, asked := ListHistory(table, access, f), Asked(table, access, f);
            && (forall k | k in page.items :: k in asked)
            && |page.items| <= f.limit && StrictlyDescending(page.items)
            && (page.NumberPage? ==> page.total == |asked|)
            && (page.CursorPage? ==>
                && (forall k | k in page.items :: Past(f.cursor, k))
                && (forall k | k in asked && Past(f.cursor, k) ::
                      k in page.items || (page.next.Some? && Below(k, page.next.value))))
  {
    VisibleIsAsked(table, access, f);
    hide Visible, Asked, StrictlyDescending;
    var rows := Visible(table, access, f);
    if f.page.Some? {
      NumberedPageLists(rows, f.page.value, f.limit);
    } else {
      FetchTakesNext(rows, f.cursor, f.limit);
    }
    hide Fetch;
  }

  lemma NumberedPageLists(s: set<Key>, page: nat, limit: nat)
    requires page > 0 && limit > 0
    ensures var items := NumberedPage(s, page, limit);
            StrictlyDescending(items) && |items| <= limit && forall k | k in items :: k in s
  {
    DescendingLists(s);
    hide Descending, Below;
    var all, offset, items := Descending(s), (page - 1) * limit, NumberedPage(s, page, limit);
    forall k | k in items
      ensures k in all
    {
      var i :| 0 <= i < |items| && items[i] == k;
      assert all[offset + i] == k;
    }
  }

  /** The numbered pages together list every row asked for, and the first one says how many there are. */
  lemma PagesListAllAsked(table: Table, access: HistoryAccess, f: HistoryFilters)
    requires ValidFilters(f)
    ensures var asked := Asked(table, access, f);
            var first := ListHistory(table, access, f.(page := Some(1)));
            && first.total == |asked| && first.totalPages == TotalPages(|asked|, f.limit)
            && (forall k :: k in Pages(asked, first.totalPages, f.limit) <==> k in asked)
  {
    PageShowsSame(table, access, f);
    VisibleIsAsked(table, access, f);
    VisibleIsAsked(table, access, f.(page := Some(1)));
    NumberedPagesListAll(Asked(table, access, f), f.limit, 0);
    DescendingLists(Asked(table, access, f));
    hide Visible, Asked, Pages, Descending;
  }

  /**
    So a walk over a changing table never lists a row that was not the asker's to see when it
    was read, and misses none that was asked for throughout.
   */
  lemma WalkKeepsToTheScope(tables: seq<Table>, access: HistoryAccess, f: HistoryFilters)
    requires ValidFilters(f) && f.page.None?
    ensures var w := HistoryWalk(tables, access, f);
            && (forall k | k in w.items :: exists t :: t in tables && k in Asked(t, access, f))
            && (forall k | Past(f.cursor, k) && (forall t | t in tables :: k in Asked(t, access, f)) ::
                  k in w.items || StillToCome(w, k))
  {
    HistoryWalkMissesNothing(tables, access, f);
    forall t | t in tables
      ensures Visible(t, access, f) == Asked(t, access, f)
      ensures forall k :: Shown(t, access, f, k) <==> k in Asked(t, access, f)
    {
      VisibleIsAsked(t, access, f);
    }
    hide HistoryWalk, Shown, Asked, StillToCome;
    forall k | k in HistoryWalk(tables, access, f).items
      ensures exists t :: t in tables && k in Asked(t, access, f)
    {
      var t :| t in tables && Shown(t, access, f, k);
      assert k in Asked(t, access, f);
    }
  }

  // --------------------------------------------------------- the signals of one call

  /** Signals are listed by ascending sequence, which is descending order of these keys. */
  function SignalKey(sequence: int): Key { Key(-sequence, 0) }

  ghost function SignalKeys(sequences: set<nat>): set<Key> { set n | n in sequences :: SignalKey(n) }

  function Sequences(keys: seq<Key>): (ns: seq<int>)
    ensures |ns| == |keys| && forall i | 0 <= i < |keys| :: ns[i] == -keys[i].createdAt
  {
    seq(|keys|, i requires 0 <= i < |keys| => -keys[i].createdAt)
  }

  datatype SignalPage = SignalPage(items: seq<int>, next: Option<int>)

  datatype HistoryError = CallNotFound

  /** A row of this call is in the caller's scope. */
  ghost predicate Found(table: Table, access: HistoryAccess, callId: int) {
    exists k :: k in table && k.callId == callId && InScope(access, table[k])
  }

  /** `sequences` are those of the call's stored signals. */
  ghost function ListSignals(table: Table, access: HistoryAccess, callId: int, sequences: set<nat>,
                             cursor: Option<nat>, limit: nat): Result<SignalPage, HistoryError>
    requires limit > 0
  {
    if !Found(table, access, callId) then Failure(CallNotFound)
    else
      var after := if cursor.Some? then cursor.value else 0;
      var page := Fetch(SignalKeys(sequences), Some(SignalKey(after)), limit);
      Success(SignalPage(Sequences(page.items), if page.next.Some? then Some(-page.next.value.createdAt) else None))
  }

  /** The signals of a call are listed exactly to those who may see one of its rows. */
  lemma SignalsShownIff(table: Table, access: HistoryAccess, callId: int, sequences: set<nat>, cursor: Option<nat>,
                        limit: nat)
    requires limit > 0
    ensures var r := ListSignals(table, access, callId, sequences, cursor, limit);
            if exists k :: k in table && k.callId == callId && MayBeSeen(access, table[k]) then r.Success?
            else r == Failure(CallNotFound)
  {
    forall row: Row
      ensures InScope(access, row) <==> MayBeSeen(access, row)
    {
    }
    hide Fetch, InScope, MayBeSeen, SignalKeys;
  }

  /** A signal page lists stored sequences past the cursor, ascending, and its cursor is its last one. */
  lemma SignalsAscend(table: Table, access: HistoryAccess, callId: int, sequences: set<nat>, cursor: Option<nat>,
                      limit: nat)
    requires limit > 0 && Found(table, access, callId)
    ensures var page := ListSignals(table, access, callId, sequences, cursor, limit).value;
            && |page.items| <= limit
            && (forall i, j | 0 <= i < j < |page.items| :: page.items[i] < page.items[j])
            && (forall n | n in page.items :: n in sequences && n > if cursor.Some? then cursor.value else 0)
            && (page.next.Some? ==> page.items != [] && page.next.value == page.items[|page.items| - 1])
  {
    var keys, after := SignalKeys(sequences), if cursor.Some? then cursor.value else 0;
    FetchTakesNext(keys, Some(SignalKey(after)), limit);
    hide Fetch, Descending, StrictlyDescending, SignalKeys;
    KeysAscend(Fetch(keys, Some(SignalKey(after)), limit).items, sequences, after);
  }

  /** And it skips no stored sequence between the two cursors. */
  lemma SignalsSkipNone(table: Table, access: HistoryAccess, callId: int, sequences: set<nat>, cursor: Option<nat>,
                        limit: nat, n: nat)
    requires limit > 0 && Found(table, access, callId) && n in sequences
    requires n > if cursor.Some? then cursor.value else 0
    ensures var page := ListSignals(table, access, callId, sequences, cursor, limit).value;
            n in page.items || (page.next.Some? && n > page.next.value)
  {
    var keys, after := SignalKeys(sequences), if cursor.Some? then cursor.value else 0;
    FetchTakesNext(keys, Some(SignalKey(after)), limit);
    hide Fetch, Descending, StrictlyDescending, SignalKeys;
    KeyOfSequence(n, sequences, Fetch(keys, Some(SignalKey(after)), limit).items);
  }

  lemma KeyOfSequence(n: nat, sequences: set<nat>, items: seq<Key>)
    ensures n in sequences ==> SignalKey(n) in SignalKeys(sequences)
    ensures SignalKey(n) in items ==> n in Sequences(items)
  {
    if SignalKey(n) in items {
      var i :| 0 <= i < |items| && items[i] == SignalKey(n);
      assert Sequences(items)[i] == n;
    }
  }

  lemma KeysAscend(items: seq<Key>, sequences: set<nat>, after: nat)
    requires StrictlyDescending(items)
    requires forall k | k in items :: k in SignalKeys(sequences) && Below(k, SignalKey(after))
    ensures var ns := Sequences(items);
            && (forall i, j | 0 <= i < j < |ns| :: ns[i] < ns[j])
            && (forall n | n in ns :: n > after && n in sequences)
  {
    var ns := Sequences(items);
    forall i | 0 <= i < |ns| ensures ns[i] > after && ns[i] in sequences && items[i] == SignalKey(ns[i]) {
      assert items[i] in items;
    }
    forall i, j | 0 <= i < j < |ns| ensures ns[i] < ns[j] {
      assert Below(items[j], items[i]);
      assert items[i] == SignalKey(ns[i]) && items[j] == SignalKey(ns[j]);
    }
  }
}
