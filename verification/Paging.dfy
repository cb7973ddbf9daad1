/**
  Pages of records in key order: the System Store's ascending pages, and the audit reader's
  descending, filtered ones. A page holds the first rows beyond a cursor, and names the next
  cursor when more follow.
*/
module Paging {
  import opened Text
  import opened SystemStore

  // ----- Order -------------------------------------------------------------------------

  /** `a` comes before `b`, upwards or downwards. */
  predicate Before(down: bool, a: string, b: string) {
    if down then Less(b, a) else Less(a, b)
  }

  predicate Beyond(down: bool, key: string, cursor: Option<string>) {
    cursor.Some? ==> Before(down, cursor.value, key)
  }

  ghost predicate Sorted<V>(rows: seq<Record<V>>, down: bool) {
    forall i, j :: 0 <= i < j < |rows| ==> Before(down, rows[i].key, rows[j].key)
  }

  ghost predicate KeysDiffer<V>(rows: seq<Record<V>>) {
    forall i, j :: 0 <= i < j < |rows| ==> rows[i].key != rows[j].key
  }

  ghost function Rows<V>(rows: seq<Record<V>>): set<Record<V>> {
    set row | row in rows
  }

  lemma BeforeTransitive(down: bool, a: string, b: string, c: string)
    requires Before(down, a, b) && Before(down, b, c)
    ensures Before(down, a, c)
  {
    if down {
      LessTransitive(c, b, a);
    } else {
      LessTransitive(a, b, c);
    }
  }

  lemma BeforeOne(down: bool, a: string, b: string)
    ensures a != b ==> (Before(down, a, b) <==> !Before(down, b, a))
    ensures !Before(down, a, a)
  {
    LessIrreflexive(a);
    LessTotal(a, b);
    if Less(a, b) && Less(b, a) {
      LessTransitive(a, b, a);
    }
  }

  /** Puts a row where it belongs among sorted ones. */
  function Insert<V>(rows: seq<Record<V>>, row: Record<V>, down: bool): seq<Record<V>> {
    if rows == [] || Before(down, row.key, rows[0].key) then [row] + rows
    else [rows[0]] + Insert(rows[1..], row, down)
  }

  function Sort<V>(rows: seq<Record<V>>, down: bool): seq<Record<V>> {
    if rows == [] then [] else Insert(Sort(Init(rows), down), Last(rows), down)
  }

  lemma {:induction false} InsertSorts<V>(rows: seq<Record<V>>, row: Record<V>, down: bool)
    requires Sorted(rows, down) && forall r :: r in rows ==> r.key != row.key
    ensures Sorted(Insert(rows, row, down), down)
    ensures Rows(Insert(rows, row, down)) == Rows(rows) + {row}
    ensures |Insert(rows, row, down)| == |rows| + 1
  {
    if rows == [] {
    } else if Before(down, row.key, rows[0].key) {
      forall j | 0 <= j < |rows|
        ensures Before(down, row.key, rows[j].key)
      {
        if j > 0 {
          BeforeTransitive(down, row.key, rows[0].key, rows[j].key);
        }
      }
    } else {
      InsertSorts(rows[1..], row, down);
      BeforeOne(down, rows[0].key, row.key);
      BeforeRest(rows, Insert(rows[1..], row, down), row, down);
      assert rows == [rows[0]] + rows[1..];
    }
  }

  lemma BeforeRest<V>(rows: seq<Record<V>>, rest: seq<Record<V>>, row: Record<V>, down: bool)
    requires rows != [] && Sorted(rows, down) && Before(down, rows[0].key, row.key)
    requires Rows(rest) == Rows(rows[1..]) + {row}
    ensures forall j :: 0 <= j < |rest| ==> Before(down, rows[0].key, rest[j].key)
  {
    forall j | 0 <= j < |rest|
      ensures Before(down, rows[0].key, rest[j].key)
    {
      assert rest[j] in Rows(rest);
      if rest[j] != row {
        var k :| 0 <= k < |rows[1..]| && rows[1..][k] == rest[j];
      }
    }
  }

  lemma LastIsNew<V>(rows: seq<Record<V>>, sorted: seq<Record<V>>)
    requires rows != [] && KeysDiffer(rows) && Rows(sorted) == Rows(Init(rows))
    ensures forall r :: r in sorted ==> r.key != Last(rows).key
  {
    forall r | r in sorted
      ensures r.key != Last(rows).key
    {
      assert r in Rows(sorted);
      var k :| 0 <= k < |rows| - 1 && rows[k] == r;
    }
  }

  lemma {:induction false} SortSorts<V>(rows: seq<Record<V>>, down: bool)
    requires KeysDiffer(rows)
    ensures Sorted(Sort(rows, down), down) && Rows(Sort(rows, down)) == Rows(rows)
    ensures |Sort(rows, down)| == |rows|
  {
    if rows != [] {
      var most := Init(rows);
      assert Rows(rows) == Rows(most) + {Last(rows)} by {
        assert rows == most + [Last(rows)];
      }
      SortSorts(most, down);
      LastIsNew(rows, Sort(most, down));
      hide Sorted, KeysDiffer, Rows, Insert;
      InsertSorts(Sort(most, down), Last(rows), down);
    }
  }

  // ----- Pages -----------------------------------------------------------------------------

  datatype Page<+V> = Page(rows: seq<Record<V>>, next: Option<string>)

  /** The first rows of a sorted listing, and the cursor behind them when more follow. */
  function FirstPage<V>(rows: seq<Record<V>>, limit: nat): Page<V>
    requires limit > 0
  {
    if |rows| > limit then Page(rows[..limit], Some(rows[limit - 1].key)) else Page(rows, None)
  }

  ghost function BeyondIn<V>(wanted: set<Record<V>>, down: bool, cursor: Option<string>): set<Record<V>> {
    set row | row in wanted && Beyond(down, row.key, cursor)
  }

  /**
    What a page has to be: the wanted rows beyond its cursor and not beyond the next, in order. A
    next cursor is the key of the last of `limit` rows, and is there exactly when more follow.
  */
  ghost predicate IsPage<V>(page: Page<V>, wanted: set<Record<V>>, down: bool, limit: nat, cursor: Option<string>) {
    && Sorted(page.rows, down) && |page.rows| <= limit
    && match page.next
       case None => Rows(page.rows) == BeyondIn(wanted, down, cursor)
       case Some(next) =>
         && |page.rows| == limit > 0 && Last(page.rows).key == next
         && Rows(page.rows) == BeyondIn(wanted, down, cursor) - BeyondIn(wanted, down, page.next)
         && BeyondIn(wanted, down, page.next) != {}
  }

  lemma FirstPageIsPage<V>(rows: seq<Record<V>>, wanted: set<Record<V>>, down: bool, limit: nat, cursor: Option<string>)
    requires Sorted(rows, down) && limit > 0 && Rows(rows) == BeyondIn(wanted, down, cursor)
    ensures IsPage(FirstPage(rows, limit), wanted, down, limit, cursor)
  {
    if |rows| > limit {
      var page := FirstPage(rows, limit);
      var next := rows[limit - 1].key;
      forall k | 0 <= k < |rows|
        ensures k < limit <==> !Before(down, next, rows[k].key)
      {
        BeforeOne(down, next, next);
        BeforeOne(down, next, rows[k].key);
        if k < limit - 1 {
          assert Before(down, rows[k].key, rows[limit - 1].key);
        } else if k >= limit {
          assert Before(down, rows[limit - 1].key, rows[k].key);
        }
      }
      assert rows[limit - 1] in Rows(rows);
      BeyondStays(wanted, down, rows[limit - 1], cursor);
      forall row | row in BeyondIn(wanted, down, cursor)
        ensures row in Rows(page.rows) <==> !Before(down, next, row.key)
      {
        var k :| 0 <= k < |rows| && rows[k] == row;
        if k < limit {
          assert page.rows[k] == row;
        }
      }
      assert rows[limit] in Rows(rows) && rows[limit] in BeyondIn(wanted, down, Some(next));
    }
  }

  /** What lies beyond a row lies beyond everything the row lies beyond. */
  lemma BeyondStays<V>(wanted: set<Record<V>>, down: bool, row: Record<V>, cursor: Option<string>)
    requires Beyond(down, row.key, cursor)
    ensures BeyondIn(wanted, down, Some(row.key)) <= BeyondIn(wanted, down, cursor)
  {
    if cursor.Some? {
      forall other | other in BeyondIn(wanted, down, Some(row.key))
        ensures Beyond(down, other.key, cursor)
      {
        BeforeTransitive(down, cursor.value, row.key, other.key);
      }
    }
  }

  /** Pages fetched one after the other, each at the cursor the one before named. */
  ghost predicate Chain<V>(pages: seq<Page<V>>, wanted: set<Record<V>>, down: bool, limit: nat) {
    && pages != []
    && forall i {:trigger Chained(pages, i, wanted, down, limit)} :: 0 <= i < |pages| ==>
         Chained(pages, i, wanted, down, limit)
  }

  ghost predicate Chained<V>(pages: seq<Page<V>>, i: nat, wanted: set<Record<V>>, down: bool, limit: nat)
    requires i < |pages|
  {
    && (i > 0 ==> pages[i - 1].next.Some?)
    && IsPage(pages[i], wanted, down, limit, if i == 0 then None else pages[i - 1].next)
  }

  function Flatten<V>(pages: seq<Page<V>>): seq<Record<V>> {
    if pages == [] then [] else Flatten(Init(pages)) + Last(pages).rows
  }

  /**
    Fetching one page after the other shows every wanted row once and in order: after a page with
    a next cursor exactly those not beyond it, after one without all of them.
  */
  lemma {:induction false} PagesCover<V>(pages: seq<Page<V>>, wanted: set<Record<V>>, down: bool, limit: nat)
    requires Chain(pages, wanted, down, limit)
    ensures Sorted(Flatten(pages), down)
    ensures Rows(Flatten(pages))
            == if Last(pages).next.None? then wanted else wanted - BeyondIn(wanted, down, Last(pages).next)
    ensures Last(pages).next.Some? ==> |Flatten(pages)| == |pages| * limit
  {
    var last, most := Last(pages), Init(pages);
    ChainParts(pages, wanted, down, limit);
    if most == [] {
      assert Flatten(most) + last.rows == last.rows;
      assert BeyondIn(wanted, down, None) == wanted;
      assert last.next.Some? ==> BeyondIn(wanted, down, last.next) <= wanted;
    } else {
      hide IsPage, Sorted, Chain, BeyondIn;
      PagesCover(most, wanted, down, limit);
      PageFollows(Flatten(most), last, wanted, down, limit, Last(most).next.value);
    }
  }

  lemma ChainParts<V>(pages: seq<Page<V>>, wanted: set<Record<V>>, down: bool, limit: nat)
    requires Chain(pages, wanted, down, limit)
    ensures var last, most := Last(pages), Init(pages);
            && (most != [] ==> Chain(most, wanted, down, limit) && Last(most).next.Some?)
            && IsPage(last, wanted, down, limit, if most == [] then None else Last(most).next)
            && (last.next.Some? ==> |last.rows| == limit)
  {
    assert Chained(pages, |pages| - 1, wanted, down, limit);
    forall i | 0 <= i < |pages| - 1
      ensures Chained(Init(pages), i, wanted, down, limit)
    {
      assert Chained(pages, i, wanted, down, limit);
    }
  }

  lemma PageFollows<V>(shown: seq<Record<V>>, page: Page<V>, wanted: set<Record<V>>, down: bool, limit: nat,
                       cursor: string)
    requires Sorted(shown, down) && Rows(shown) == wanted - BeyondIn(wanted, down, Some(cursor))
    requires IsPage(page, wanted, down, limit, Some(cursor))
    ensures Sorted(shown + page.rows, down)
    ensures Rows(shown + page.rows)
            == if page.next.None? then wanted else wanted - BeyondIn(wanted, down, page.next)
  {
    forall a, b | a in Rows(shown) && b in Rows(page.rows)
      ensures Before(down, a.key, b.key)
    {
      BeforeOne(down, a.key, cursor);
      if a.key != cursor {
        BeforeTransitive(down, a.key, cursor, b.key);
      }
    }
    var all := shown + page.rows;
    forall i, j | 0 <= i < j < |all|
      ensures Before(down, all[i].key, all[j].key)
    {
      assert i < |shown| ==> all[i] in Rows(shown);
      assert j >= |shown| ==> all[j] in Rows(page.rows);
    }
    if page.next.Some? {
      assert Last(page.rows) in Rows(page.rows);
      BeyondStays(wanted, down, Last(page.rows), Some(cursor));
    }
    assert Rows(all) == Rows(shown) + Rows(page.rows);
  }

  /** Following the cursors comes to an end: every page before the last shows `limit` rows of a finite set. */
  lemma PagesEnd<V>(pages: seq<Page<V>>, wanted: set<Record<V>>, down: bool, limit: nat)
    requires Chain(pages, wanted, down, limit) && Last(pages).next.Some?
    ensures |pages| * limit < |wanted|
  {
    PagesCover(pages, wanted, down, limit);
    SortedCount(Flatten(pages), down);
    var shown, rest := Rows(Flatten(pages)), BeyondIn(wanted, down, Last(pages).next);
    assert Chained(pages, |pages| - 1, wanted, down, limit);
    assert shown + rest == wanted && shown !! rest && |rest| > 0;
    assert |shown + rest| == |shown| + |rest|;
  }

  lemma {:induction false} SortedCount<V>(rows: seq<Record<V>>, down: bool)
    requires Sorted(rows, down)
    ensures |Rows(rows)| == |rows|
  {
    if rows != [] {
      SortedCount(Init(rows), down);
      forall row | row in Init(rows)
        ensures row != Last(rows)
      {
        BeforeOne(down, row.key, row.key);
      }
      assert rows == Init(rows) + [Last(rows)];
      assert Rows(rows) == Rows(Init(rows)) + {Last(rows)};
    } else {
      assert Rows(rows) == {};
    }
  }

  // ----- Choosing rows ---------------------------------------------------------------------

  function Filter<V>(rows: seq<Record<V>>, keep: Record<V> -> bool): seq<Record<V>> {
    if rows == [] then []
    else if keep(Last(rows)) then Filter(Init(rows), keep) + [Last(rows)]
    else Filter(Init(rows), keep)
  }

  lemma {:induction false} FilterKeeps<V>(rows: seq<Record<V>>, keep: Record<V> -> bool)
    ensures forall row {:trigger row in Filter(rows, keep)} :: row in Filter(rows, keep) ==> row in rows && keep(row)
    ensures forall row {:trigger row in rows} :: row in rows && keep(row) ==> row in Filter(rows, keep)
  {
    if rows != [] {
      FilterKeeps(Init(rows), keep);
      assert rows == Init(rows) + [Last(rows)];
    }
  }

  lemma {:induction false} FilterDiffers<V>(rows: seq<Record<V>>, keep: Record<V> -> bool)
    requires KeysDiffer(rows)
    ensures KeysDiffer(Filter(rows, keep))
  {
    if rows != [] {
      var kept := Filter(Init(rows), keep);
      FilterDiffers(Init(rows), keep);
      FilterKeeps(Init(rows), keep);
      forall i | 0 <= i < |kept|
        ensures kept[i].key != Last(rows).key
      {
        assert kept[i] in kept && kept[i] in Init(rows);
        var k :| 0 <= k < |rows| - 1 && rows[k] == kept[i];
      }
    }
  }

  lemma {:induction false} FilterSorted<V>(rows: seq<Record<V>>, keep: Record<V> -> bool, down: bool)
    requires Sorted(rows, down)
    ensures Sorted(Filter(rows, keep), down)
  {
    if rows != [] {
      var kept := Filter(Init(rows), keep);
      FilterSorted(Init(rows), keep, down);
      FilterKeeps(Init(rows), keep);
      forall i | 0 <= i < |kept|
        ensures Before(down, kept[i].key, Last(rows).key)
      {
        assert kept[i] in kept && kept[i] in Init(rows);
        var k :| 0 <= k < |rows| - 1 && rows[k] == kept[i];
      }
    }
  }

  lemma {:induction false} FilterPrefix<V>(rows: seq<Record<V>>, i: nat, keep: Record<V> -> bool)
    requires i <= |rows|
    ensures Filter(rows[..i], keep) <= Filter(rows, keep)
    decreases |rows|
  {
    if i < |rows| {
      FilterPrefix(Init(rows), i, keep);
      assert Init(rows)[..i] == rows[..i];
    } else {
      assert rows[..i] == rows;
    }
  }

  ghost function InStore<V>(records: Records<V>, name: string): set<Record<V>> {
    set id | id in records && records[id].namespace == name :: records[id]
  }

  /** A listing of a namespace holds its records, each under a key of its own. */
  lemma ListedOnce<V>(rows: seq<Record<V>>, records: Records<V>, name: string)
    requires InPlace(records) && Lists(rows, records, InNamespace(records, name))
    ensures KeysDiffer(rows) && Rows(rows) == InStore(records, name)
  {
    forall row | row in InStore(records, name)
      ensures row in Rows(rows)
    {
      assert At(row) in InNamespace(records, name);
    }
  }

  /** The rows of a listing beyond a cursor, in order. */
  function BeyondSorted<V>(rows: seq<Record<V>>, down: bool, cursor: Option<string>): seq<Record<V>> {
    Sort(Filter(rows, (row: Record<V>) => Beyond(down, row.key, cursor)), down)
  }

  lemma BeyondSorts<V>(rows: seq<Record<V>>, down: bool, cursor: Option<string>)
    requires KeysDiffer(rows)
    ensures Sorted(BeyondSorted(rows, down, cursor), down)
    ensures Rows(BeyondSorted(rows, down, cursor)) == BeyondIn(Rows(rows), down, cursor)
  {
    var keep := (row: Record<V>) => Beyond(down, row.key, cursor);
    FilterKeeps(rows, keep);
    FilterDiffers(rows, keep);
    SortSorts(Filter(rows, keep), down);
    assert Rows(Filter(rows, keep)) == BeyondIn(Rows(rows), down, cursor);
  }

  // ----- The store's pages ---------------------------------------------------------------------

  /** `page` of the in-memory store; it fails for a limit of zero once there is a row to page. */
  method StorePage<V>(store: MemorySystemStore<V>, namespace: string, limit: nat, after: Option<string>)
    returns (r: Outcome<Option<Page<V>>>)
    requires store.Valid()
    ensures if Trim(namespace) == "" then r == Rejected(EmptyNamespace)
            else
              && r.Ok? && (r.value.None? ==> limit == 0)
              && (r.value.Some? && limit > 0 ==>
                    IsPage(r.value.value, InStore(store.records, Trim(namespace)), false, limit, after))
  {
    hide Sorted, KeysDiffer, Rows, InStore, BeyondIn, BeyondSorted, IsPage, Trim;
    var listed := store.List(namespace);
    if listed.Rejected? {
      return Rejected(listed.error);
    }
    ListedOnce(listed.value, store.records, Trim(namespace));
    BeyondSorts(listed.value, false, after);
    var rows := BeyondSorted(listed.value, false, after);
    if limit == 0 {
      return Ok(if rows == [] then Some(Page([], None)) else None);
    }
    FirstPageIsPage(rows, InStore(store.records, Trim(namespace)), false, limit, after);
    ghost var all := rows;
    rows := rows[..if |rows| < limit + 1 then |rows| else limit + 1];
    assert |rows| > limit ==> rows[..limit] == all[..limit];
    assert |rows| <= limit ==> rows == all;
    r := Ok(Some(if |rows| > limit then Page(rows[..limit], Some(rows[limit - 1].key)) else Page(rows, None)));
  }

  // ----- The audit reader's pages -----------------------------------------------------------------

  const AUDIT_NAMESPACE := "assistant-audit"
  const AUDIT_MAX_PAGE := 100
  const DECISIONS := {"allowed", "denied", "invalid", "failed", "pending_approval", "executed"}

  datatype Entry = Entry(id: string, at: string, principalId: string, tool: string, arguments: string, decision: string)

  datatype Query = Query(limit: Option<int>, before: Option<string>, principalId: Option<string>,
                         tool: Option<string>, decision: Option<string>)

  datatype Answer = BadLimit | BadDecision | Listed(entries: seq<Entry>, next: Option<string>)

  predicate Selects(query: Query, parsed: Option<Entry>) {
    && parsed.Some?
    && (query.principalId.Some? ==> parsed.value.principalId == query.principalId.value)
    && (query.tool.Some? ==> parsed.value.tool == query.tool.value)
    && (query.decision.Some? ==> parsed.value.decision == query.decision.value)
  }

  function Selecting<V>(query: Query, parse: V -> Option<Entry>): Record<V> -> bool {
    (row: Record<V>) => Selects(query, parse(row.value))
  }

  /** The audit records that a query is about. */
  ghost function Wanted<V>(records: Records<V>, query: Query, parse: V -> Option<Entry>): set<Record<V>> {
    set row | row in InStore(records, AUDIT_NAMESPACE) && Selects(query, parse(row.value))
  }

  /** The loop of the audit reader: fills the page, and looks one matching record further. */
  method FillPage<V>(records: seq<Record<V>>, query: Query, limit: nat, parse: V -> Option<Entry>)
    returns (page: seq<Record<V>>, entries: seq<Entry>, more: bool)
    requires limit > 0
    ensures |page| > 0 || !more
    ensures Page(page, if more then Some(Last(page).key) else None)
            == FirstPage(Filter(records, Selecting(query, parse)), limit)
    ensures |entries| == |page| && forall k :: 0 <= k < |page| ==> parse(page[k].value) == Some(entries[k])
  {
    ghost var keep := Selecting(query, parse);
    page, entries, more := [], [], false;
    for i := 0 to |records|
      invariant page == Filter(records[..i], keep) && |page| <= limit && !more
      invariant |entries| == |page| && forall k :: 0 <= k < |page| ==> parse(page[k].value) == Some(entries[k])
    {
      assert Init(records[..i + 1]) == records[..i];
      FilterPrefix(records, i + 1, keep);
      var parsed := parse(records[i].value);
      if parsed.None? {
        continue;
      }
      if query.principalId.Some? && parsed.value.principalId != query.principalId.value {
        continue;
      }
      if query.tool.Some? && parsed.value.tool != query.tool.value {
        continue;
      }
      if query.decision.Some? && parsed.value.decision != query.decision.value {
        continue;
      }
      if |page| == limit {
        assert page + [records[i]] <= Filter(records, keep);
        more := true;
        return;
      }
      page := page + [records[i]];
      entries := entries + [parsed.value];
    }
    assert records[..|records|] == records;
  }

  lemma {:induction false} SelectedIsPage<V>(records: seq<Record<V>>, stored: Records<V>, query: Query,
                                             parse: V -> Option<Entry>, limit: nat)
    requires Sorted(records, true) && limit > 0
    requires Rows(records) == BeyondIn(InStore(stored, AUDIT_NAMESPACE), true, query.before)
    ensures IsPage(FirstPage(Filter(records, Selecting(query, parse)), limit), Wanted(stored, query, parse),
                   true, limit, query.before)
  {
    var keep := Selecting(query, parse);
    FilterSorted(records, keep, true);
    FilterKeeps(records, keep);
    var wanted := Wanted(stored, query, parse);
    forall row
      ensures row in Rows(Filter(records, keep)) <==> row in BeyondIn(wanted, true, query.before)
    {
      assert row in records <==> row in Rows(records);
    }
    assert Rows(Filter(records, keep)) == BeyondIn(wanted, true, query.before);
    FirstPageIsPage(Filter(records, keep), wanted, true, limit, query.before);
  }

  /**
    `list` of the audit reader. Values that do not parse are passed over; `rows` are the stored
    records behind the entries.
  */
  method ListAudit<V>(store: MemorySystemStore<V>, query: Query, parse: V -> Option<Entry>)
    returns (r: Answer, ghost rows: seq<Record<V>>)
    requires store.Valid()
    ensures r.BadLimit? <==> query.limit.Some? && !(1 <= query.limit.value <= AUDIT_MAX_PAGE)
    ensures r.BadDecision? <==>
              !r.BadLimit? && query.decision.Some? && query.decision.value !in DECISIONS
    ensures r.Listed? ==>
              && IsPage(Page(rows, r.next), Wanted(store.records, query, parse), true, query.limit.GetOr(50),
                        query.before)
              && |r.entries| == |rows|
              && forall i :: 0 <= i < |rows| ==> parse(rows[i].value) == Some(r.entries[i])
  {
    var limit := query.limit.GetOr(50);
    rows := [];
    if limit < 1 || limit > AUDIT_MAX_PAGE {
      return BadLimit, [];
    }
    if query.decision.Some? && query.decision.value !in DECISIONS {
      return BadDecision, [];
    }
    assert Trim(AUDIT_NAMESPACE) == AUDIT_NAMESPACE;
    var listed := store.List(AUDIT_NAMESPACE);
    ListedOnce(listed.value, store.records, AUDIT_NAMESPACE);
    BeyondSorts(listed.value, true, query.before);
    hide BeyondSorted, Sorted, KeysDiffer, BeyondIn, Wanted, Filter, IsPage;
    var records := BeyondSorted(listed.value, true, query.before);
    SelectedIsPage(records, store.records, query, parse, limit);
    var page, entries, more := FillPage(records, query, limit, parse);
    rows := page;
    r := Listed(entries, if more then Some(page[|page| - 1].key) else None);
  }

  // ----- Following the cursors ------------------------------------------------------------------------

  lemma ChainMore<V>(pages: seq<Page<V>>, page: Page<V>, wanted: set<Record<V>>, down: bool, limit: nat)
    requires pages == [] || (Chain(pages, wanted, down, limit) && Last(pages).next.Some?)
    requires IsPage(page, wanted, down, limit, if pages == [] then None else Last(pages).next)
    ensures Chain(pages + [page], wanted, down, limit)
  {
    var more := pages + [page];
    forall i | 0 <= i < |more|
      ensures Chained(more, i, wanted, down, limit)
    {
      if i < |pages| {
        assert Chained(pages, i, wanted, down, limit);
      }
    }
  }

  /** One more page, and what is left to be shown. */
  lemma PageShows<V>(pages: seq<Page<V>>, page: Page<V>, wanted: set<Record<V>>, down: bool, limit: nat)
    requires limit > 0 && (pages == [] || (Chain(pages, wanted, down, limit) && Last(pages).next.Some?))
    requires IsPage(page, wanted, down, limit, if pages == [] then None else Last(pages).next)
    ensures Chain(pages + [page], wanted, down, limit)
    ensures Flatten(pages + [page]) == Flatten(pages) + page.rows
    ensures page.next.Some? ==> |pages| + 1 < |wanted|
    ensures page.next.None? ==> Sorted(Flatten(pages + [page]), down) && Rows(Flatten(pages + [page])) == wanted
  {
    var more := pages + [page];
    ChainMore(pages, page, wanted, down, limit);
    assert Init(more) == pages && Last(more) == page;
    assert Flatten(more) == Flatten(pages) + page.rows;
    hide Chain, IsPage, Sorted, Flatten, Rows, BeyondIn;
    if page.next.Some? {
      PagesEnd(more, wanted, down, limit);
      TimesAtLeast(|more|, limit);
    } else {
      PagesCover(more, wanted, down, limit);
    }
  }

  lemma TimesAtLeast(n: nat, k: nat)
    requires k > 0
    ensures n <= n * k
  {
  }

  /** Follows the store's cursors to the end: every record of the namespace, once, in ascending order of the keys. */
  method FollowStore<V>(store: MemorySystemStore<V>, namespace: string, limit: nat) returns (rows: seq<Record<V>>)
    requires store.Valid() && limit > 0 && Trim(namespace) != ""
    ensures Sorted(rows, false) && Rows(rows) == InStore(store.records, Trim(namespace))
  {
    hide IsPage, Sorted, Rows, InStore, Chain, Trim;
    ghost var wanted, pages := InStore(store.records, Trim(namespace)), [];
    var cursor: Option<string>, ended := None, false;
    rows := [];
    while !ended
      invariant ended ==> Sorted(rows, false) && Rows(rows) == wanted
      invariant !ended ==> rows == Flatten(pages) && if pages == [] then cursor == None
                  else
                    && Chain(pages, wanted, false, limit) && Last(pages).next == cursor && cursor.Some?
                    && |pages| < |wanted|
      decreases if ended then 0 else 1, |wanted| - |pages|
    {
      var r := StorePage(store, namespace, limit, cursor);
      var page := r.value.value;
      PageShows(pages, page, wanted, false, limit);
      rows, cursor, ended := rows + page.rows, page.next, page.next.None?;
      pages := pages + [page];
    }
  }

  /** What a query selects does not depend on where its page begins. */
  lemma WantedFrom<V>(records: Records<V>, query: Query, parse: V -> Option<Entry>, before: Option<string>)
    ensures Wanted(records, query.(before := before), parse) == Wanted(records, query, parse)
  {
    hide InStore;
    assert forall row: Record<V> ::
        Selects(query.(before := before), parse(row.value)) <==> Selects(query, parse(row.value));
  }

  /** Follows the audit reader's cursors to the end: every record that matches, once, the latest first. */
  method FollowAudit<V>(store: MemorySystemStore<V>, query: Query, parse: V -> Option<Entry>)
    returns (r: Answer, ghost rows: seq<Record<V>>)
    requires store.Valid() && query.before.None?
    ensures r.BadLimit? <==> query.limit.Some? && !(1 <= query.limit.value <= AUDIT_MAX_PAGE)
    ensures r.BadDecision? <==> !r.BadLimit? && query.decision.Some? && query.decision.value !in DECISIONS
    ensures r.Listed? ==>
              && r.next.None? && Sorted(rows, true) && Rows(rows) == Wanted(store.records, query, parse)
              && |r.entries| == |rows| && forall i :: 0 <= i < |rows| ==> parse(rows[i].value) == Some(r.entries[i])
  {
    hide IsPage, Sorted, Rows, Wanted, Chain;
    ghost var wanted, pages := Wanted(store.records, query, parse), [];
    var limit := query.limit.GetOr(50);
    var entries: seq<Entry>, cursor: Option<string>, ended := [], None, false;
    rows := [];
    while !ended
      invariant |entries| == |rows| && forall i :: 0 <= i < |rows| ==> parse(rows[i].value) == Some(entries[i])
      invariant ended ==> Sorted(rows, true) && Rows(rows) == wanted
      invariant pages != [] ==> 1 <= limit && (query.limit.Some? ==> limit <= AUDIT_MAX_PAGE)
                                && (query.decision.Some? ==> query.decision.value in DECISIONS)
      invariant ended ==> pages != []
      invariant !ended ==> rows == Flatten(pages) && if pages == [] then cursor == None
                  else
                    && Chain(pages, wanted, true, limit) && Last(pages).next == cursor && cursor.Some?
                    && |pages| < |wanted|
      decreases if ended then 0 else 1, |wanted| - |pages|
    {
      var answer, more := ListAudit(store, query.(before := cursor), parse);
      if !answer.Listed? {
        return answer, [];
      }
      ghost var page := Page(more, answer.next);
      WantedFrom(store.records, query, parse, cursor);
      PageShows(pages, page, wanted, true, limit);
      entries, cursor, ended := entries + answer.entries, answer.next, answer.next.None?;
      rows, pages := rows + more, pages + [page];
    }
    r := Listed(entries, None);
  }
}
