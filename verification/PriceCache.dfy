/** 3YC prices: the lookup by SKU, currency and 3YC start date, and the process-wide cache of the
    closed price rows it has seen. Over any history of calls and table updates the cached lookup
    answers what a lookup without a cache would. */
module PriceCache {
  import opened Sequences
  import opened Subscriptions

  type Currency = nat
  type Price = nat

  // `until` is blank for an open-ended row; `price` may be blank too.
  datatype Row = Row(sku: Sku, currency: Currency, from: int, until: Option<int>, price: Option<Price>)

  /******* Queries *******/

  /** Later end first, blank ends last. */
  predicate AtLeast(a: Row, b: Row) {
    b.until.None? || (a.until.Some? && a.until.value >= b.until.value)
  }

  function Insert(sorted: seq<Row>, row: Row): seq<Row> {
    if sorted == [] || AtLeast(sorted[|sorted|-1], row) then sorted + [row]
    else Insert(sorted[..|sorted|-1], row) + [sorted[|sorted|-1]]
  }

  /** sort=["-valid_until"], stable. */
  function Sorted(rows: seq<Row>): seq<Row> {
    if rows == [] then [] else Insert(Sorted(rows[..|rows|-1]), rows[|rows|-1])
  }

  ghost predicate Descending(rows: seq<Row>) {
    forall i, j :: 0 <= i < j < |rows| ==> AtLeast(rows[i], rows[j])
  }

  lemma {:induction false} InsertDescends(sorted: seq<Row>, row: Row)
    requires Descending(sorted)
    ensures Descending(Insert(sorted, row))
    ensures forall r :: r in Insert(sorted, row) <==> r in sorted || r == row
  {
    if sorted != [] && !AtLeast(sorted[|sorted|-1], row) {
      var front, last := sorted[..|sorted|-1], sorted[|sorted|-1];
      InsertDescends(front, row);
      assert sorted == front + [last];
      forall r | r in Insert(front, row)
        ensures AtLeast(r, last)
      {
        assert r in front ==> exists i :: 0 <= i < |front| && sorted[i] == r;
      }
      var after := Insert(front, row);
      assert forall i :: 0 <= i < |after| ==> after[i] in after;
    }
  }

  lemma {:induction false} SortedDescends(rows: seq<Row>)
    ensures Descending(Sorted(rows))
    ensures forall r :: r in Sorted(rows) <==> r in rows
  {
    if rows != [] {
      SortedDescends(rows[..|rows|-1]);
      InsertDescends(Sorted(rows[..|rows|-1]), rows[|rows|-1]);
      assert rows == rows[..|rows|-1] + [rows[|rows|-1]];
    }
  }

  lemma {:induction false} FilterInsert(sorted: seq<Row>, row: Row, p: Row -> bool)
    requires Descending(sorted)
    ensures Filter(Insert(sorted, row), p) == if p(row) then Insert(Filter(sorted, p), row) else Filter(sorted, p)
  {
    hide Filter;
    if sorted == [] || AtLeast(sorted[|sorted|-1], row) {
      FilterSnoc(sorted, row, p);
      KeptAtLeast(sorted, row, p);
    } else {
      var front, last := sorted[..|sorted|-1], sorted[|sorted|-1];
      FilterInsert(front, row, p);
      FilterSnoc(Insert(front, row), last, p);
      FilterSnoc(front, last, p);
      assert sorted == front + [last];
      if p(last) {
        InsertBefore(Filter(front, p), last, row);
      }
    }
  }

  lemma {:induction false} KeptAtLeast(sorted: seq<Row>, row: Row, p: Row -> bool)
    requires Descending(sorted) && (sorted == [] || AtLeast(sorted[|sorted|-1], row))
    ensures Insert(Filter(sorted, p), row) == Filter(sorted, p) + [row]
  {
    hide Filter;
    var kept := Filter(sorted, p);
    if kept != [] {
      var last := kept[|kept|-1];
      FilterHas(sorted, p, last);
      assert last in kept;
      var i :| 0 <= i < |sorted| && sorted[i] == last;
      assert i < |sorted| - 1 ==> AtLeast(last, sorted[|sorted|-1]);
    }
  }

  lemma InsertBefore(sorted: seq<Row>, last: Row, row: Row)
    requires !AtLeast(last, row)
    ensures Insert(sorted + [last], row) == Insert(sorted, row) + [last]
  {
  }

  lemma SortedSnoc(rows: seq<Row>, row: Row)
    ensures Sorted(rows + [row]) == Insert(Sorted(rows), row)
  {
  }

  lemma {:induction false} FilterSorted(rows: seq<Row>, p: Row -> bool)
    ensures Filter(Sorted(rows), p) == Sorted(Filter(rows, p))
  {
    hide Filter, Sorted, Insert, Descending;
    if rows == [] {
      FilterNothing(p);
    } else {
      var front, last := rows[..|rows|-1], rows[|rows|-1];
      assert rows == front + [last];
      FilterSorted(front, p);
      SortedDescends(front);
      SortedSnoc(front, last);
      FilterInsert(Sorted(front), last, p);
      FilterSnoc(front, last, p);
      SortedSnoc(Filter(front, p), last);
    }
  }

  lemma FilterNothing(p: Row -> bool)
    ensures Filter(Sorted([]), p) == [] && Filter([], p) == [] && Sorted([]) == []
  {
  }

  /** First row of the SKU. */
  function FirstFor(rows: seq<Row>, sku: Sku): Option<Row> {
    if rows == [] then None
    else
      var first := FirstFor(rows[..|rows|-1], sku);
      if first.None? && rows[|rows|-1].sku == sku then Some(rows[|rows|-1]) else first
  }

  lemma FirstForSnoc(rows: seq<Row>, row: Row, sku: Sku)
    ensures FirstFor(rows + [row], sku) ==
            var first := FirstFor(rows, sku);
            if first.None? && row.sku == sku then Some(row) else first
  {
  }

  function IsSku(sku: Sku): Row -> bool {
    (row: Row) => row.sku == sku
  }

  lemma {:induction false} FirstForFilter(rows: seq<Row>, sku: Sku)
    ensures FirstFor(rows, sku) == FirstFor(Filter(rows, IsSku(sku)), sku)
  {
    if rows == [] {
      assert Filter(rows, IsSku(sku)) == [];
    } else {
      var front, last := rows[..|rows|-1], rows[|rows|-1];
      assert rows == front + [last];
      FirstForFilter(front, sku);
      FilterSnoc(front, last, IsSku(sku));
      FirstForSnoc(Filter(front, IsSku(sku)), last, sku);
    }
  }

  lemma {:induction false} FirstForIsThere(rows: seq<Row>, sku: Sku)
    ensures FirstFor(rows, sku).Some? <==> exists i :: 0 <= i < |rows| && rows[i].sku == sku
    ensures FirstFor(rows, sku).Some? ==> FirstFor(rows, sku).value in rows && FirstFor(rows, sku).value.sku == sku
  {
    if rows != [] {
      var front, last := rows[..|rows|-1], rows[|rows|-1];
      FirstForIsThere(front, sku);
      assert forall i :: 0 <= i < |front| ==> front[i] == rows[i];
    }
  }

  /******* The answer without a cache *******/

  // The closed window covers the start date.
  predicate Covers(row: Row, currency: Currency, start: int) {
    row.currency == currency && row.until.Some? && row.from <= start < row.until.value
  }

  function Current(currency: Currency, start: int): Row -> bool {
    (row: Row) => row.currency == currency && (row.until.None? || row.from <= start < row.until.value)
  }

  function Closed(currency: Currency): Row -> bool {
    (row: Row) => row.currency == currency && row.until.Some?
  }

  function For(skus: set<Sku>, p: Row -> bool): Row -> bool {
    (row: Row) => row.sku in skus && p(row)
  }

  function Query(table: seq<Row>, skus: set<Sku>, p: Row -> bool): seq<Row> {
    Sorted(Filter(table, For(skus, p)))
  }

  /** The row that prices the SKU: one covering the start date, else an open one, else the one that
      ended last. */
  function PricingRow(table: seq<Row>, sku: Sku, currency: Currency, start: int): Option<Row> {
    var current := FirstFor(Query(table, {sku}, Current(currency, start)), sku);
    if current.Some? then current else FirstFor(Query(table, {sku}, Closed(currency)), sku)
  }

  /** Asking for more SKUs at once does not change the answer for any of them. */
  lemma QueryIsPerSku(table: seq<Row>, skus: set<Sku>, sku: Sku, p: Row -> bool)
    requires sku in skus
    ensures FirstFor(Query(table, skus, p), sku) == FirstFor(Query(table, {sku}, p), sku)
  {
    FirstForFilter(Query(table, skus, p), sku);
    FilterSorted(Filter(table, For(skus, p)), IsSku(sku));
    FilterTwice(table, For(skus, p), IsSku(sku), For({sku}, p));
  }

  lemma {:induction false} FirstForOnly(rows: seq<Row>, sku: Sku)
    requires forall i :: 0 <= i < |rows| ==> rows[i].sku == sku
    ensures FirstFor(rows, sku) == if rows == [] then None else Some(rows[0])
  {
    if rows != [] {
      FirstForOnly(rows[..|rows|-1], sku);
    }
  }

  /** A query for one SKU answers with its row that ends last among those that qualify. */
  lemma QueryAnswers(table: seq<Row>, sku: Sku, p: Row -> bool)
    ensures var first := FirstFor(Query(table, {sku}, p), sku);
            && (first.Some? ==> first.value in table && first.value.sku == sku && p(first.value))
            && forall r :: r in table && r.sku == sku && p(r) ==> first.Some? && AtLeast(first.value, r)
  {
    hide Filter, Sorted, FirstFor;
    var kept := Filter(table, For({sku}, p));
    var rows := Query(table, {sku}, p);
    SortedDescends(kept);
    forall r: Row
      ensures r in rows <==> r in table && r.sku == sku && p(r)
    {
      FilterHas(table, For({sku}, p), r);
    }
    assert forall i :: 0 <= i < |rows| ==> rows[i] in rows;
    FirstForOnly(rows, sku);
    forall r | r in rows
      ensures AtLeast(rows[0], r)
    {
      var i :| 0 <= i < |rows| && rows[i] == r;
      assert i > 0 ==> AtLeast(rows[0], rows[i]);
    }
  }

  /** What the docstring promises of the answer: the row covering the start date if there is one, an
      open row otherwise, and failing both the row that ended last. */
  lemma PricingRowMeans(table: seq<Row>, sku: Sku, currency: Currency, start: int)
    ensures var row := PricingRow(table, sku, currency, start);
            && (row.Some? ==> row.value in table && row.value.sku == sku && row.value.currency == currency)
            && forall r :: r in table && r.sku == sku && r.currency == currency ==>
                             && row.Some?
                             && (Covers(r, currency, start) ==> Covers(row.value, currency, start))
                             && (r.until.None? ==> row.value.until.None? || Covers(row.value, currency, start))
                             && (row.value.until.Some? && !Covers(row.value, currency, start) ==>
                                   r.until.Some? && row.value.until.value >= r.until.value)
  {
    hide Query, FirstFor;
    QueryAnswers(table, sku, Current(currency, start));
    QueryAnswers(table, sku, Closed(currency));
  }

  /******* The cache *******/

  /** Closed windows of one SKU and currency do not overlap. */
  predicate DisjointWindows(table: seq<Row>) {
    forall i, j :: 0 <= i < j < |table| && table[i].until.Some? && table[j].until.Some?
                   && table[i].sku == table[j].sku && table[i].currency == table[j].currency ==>
                     table[i].until.value <= table[j].from || table[j].until.value <= table[i].from
  }

  predicate NonEmptyWindows(table: seq<Row>) {
    forall i :: 0 <= i < |table| && table[i].until.Some? ==> table[i].from < table[i].until.value
  }

  /** Rows may come, and open ones may be closed or change; closed ones stay as they are. */
  predicate TableMoves(before: seq<Row>, after: seq<Row>) {
    forall i :: 0 <= i < |before| && before[i].until.Some? ==> before[i] in after
  }

  type Cache = map<Sku, seq<Row>>

  function CachedFor(cache: Cache, sku: Sku): seq<Row> {
    if sku in cache then cache[sku] else []
  }

  /** First cached row covering the start date. */
  function FindCached(rows: seq<Row>, currency: Currency, start: int): Option<Row> {
    if rows == [] then None
    else
      var first := FindCached(rows[..|rows|-1], currency, start);
      if first.None? && Covers(rows[|rows|-1], currency, start) then Some(rows[|rows|-1]) else first
  }

  lemma {:induction false} FindCachedIsThere(rows: seq<Row>, currency: Currency, start: int)
    ensures var found := FindCached(rows, currency, start);
            && (found.Some? ==> found.value in rows && Covers(found.value, currency, start))
            && (found.None? ==> forall r :: r in rows ==> !Covers(r, currency, start))
  {
    if rows != [] {
      FindCachedIsThere(rows[..|rows|-1], currency, start);
      assert rows == rows[..|rows|-1] + [rows[|rows|-1]];
    }
  }

  /** Of several cached rows that cover the date, the one cached first is taken. */
  lemma {:induction false} FindCachedIsFirst(rows: seq<Row>, currency: Currency, start: int)
    requires FindCached(rows, currency, start).Some?
    ensures exists i :: 0 <= i < |rows| && rows[i] == FindCached(rows, currency, start).value
                        && Covers(rows[i], currency, start)
                        && forall j :: 0 <= j < i ==> !Covers(rows[j], currency, start)
  {
    var front := rows[..|rows|-1];
    FindCachedIsThere(front, currency, start);
    if FindCached(front, currency, start).Some? {
      FindCachedIsFirst(front, currency, start);
    } else {
      assert forall j :: 0 <= j < |rows| - 1 ==> rows[j] == front[j];
      assert rows[|rows|-1] == FindCached(rows, currency, start).value;
    }
  }

  /** Every cached row is a closed row of the table, filed under its SKU. */
  ghost predicate CacheOf(cache: Cache, table: seq<Row>) {
    forall sku, r :: sku in cache && r in cache[sku] ==> r in table && r.until.Some? && r.sku == sku
  }

  /** No row with a price is cached twice. */
  ghost predicate CachedOnce(cache: Cache) {
    forall sku, i, j :: sku in cache && 0 <= i < j < |cache[sku]| && cache[sku][i].price.Some? ==>
      cache[sku][i] != cache[sku][j]
  }

  /** At most one closed row covers a date. */
  lemma CoveringIsUnique(table: seq<Row>, a: Row, b: Row, currency: Currency, start: int)
    requires DisjointWindows(table) && a in table && b in table && a.sku == b.sku
    requires Covers(a, currency, start) && Covers(b, currency, start)
    ensures a == b
  {
  }

  /** A cached row that covers the start date is the row a fresh lookup would use. */
  lemma CachedIsPricing(table: seq<Row>, row: Row, currency: Currency, start: int)
    requires DisjointWindows(table) && row in table && Covers(row, currency, start)
    ensures PricingRow(table, row.sku, currency, start) == Some(row)
  {
    hide PricingRow;
    PricingRowMeans(table, row.sku, currency, start);
    CoveringIsUnique(table, row, PricingRow(table, row.sku, currency, start).value, currency, start);
  }

  /******* No row twice *******/

  ghost predicate ClosedOnce(rows: seq<Row>) {
    forall i, j :: 0 <= i < j < |rows| && rows[i].until.Some? ==> rows[i] != rows[j]
  }

  lemma {:induction false} FilterClosedOnce(rows: seq<Row>, p: Row -> bool)
    requires ClosedOnce(rows)
    ensures ClosedOnce(Filter(rows, p))
  {
    if rows != [] {
      var front, last := rows[..|rows|-1], rows[|rows|-1];
      FilterClosedOnce(front, p);
      FilterHas(front, p, last);
      assert last.until.Some? ==> last !in front;
      assert forall i :: 0 <= i < |Filter(front, p)| ==> Filter(front, p)[i] in Filter(front, p);
    }
  }

  lemma {:induction false} InsertClosedOnce(sorted: seq<Row>, row: Row)
    requires ClosedOnce(sorted) && (row.until.Some? ==> row !in sorted)
    ensures ClosedOnce(Insert(sorted, row))
    ensures forall r :: r in Insert(sorted, row) <==> r in sorted || r == row
  {
    if sorted != [] && !AtLeast(sorted[|sorted|-1], row) {
      var front, last := sorted[..|sorted|-1], sorted[|sorted|-1];
      assert sorted == front + [last];
      InsertClosedOnce(front, row);
      var after := Insert(front, row);
      assert last.until.Some? ==> last !in front;
      assert forall i :: 0 <= i < |after| ==> after[i] in after;
    }
  }

  lemma {:induction false} SortedClosedOnce(rows: seq<Row>)
    requires ClosedOnce(rows)
    ensures ClosedOnce(Sorted(rows))
  {
    if rows != [] {
      var front, last := rows[..|rows|-1], rows[|rows|-1];
      SortedClosedOnce(front);
      SortedDescends(front);
      assert last.until.Some? ==> last !in front;
      InsertClosedOnce(Sorted(front), last);
    }
  }

  lemma QueryClosedOnce(table: seq<Row>, skus: set<Sku>, p: Row -> bool)
    requires DisjointWindows(table) && NonEmptyWindows(table)
    ensures ClosedOnce(Query(table, skus, p))
  {
    FilterClosedOnce(table, For(skus, p));
    SortedClosedOnce(Filter(table, For(skus, p)));
  }

  function ClosedOf(sku: Sku): Row -> bool {
    (row: Row) => row.sku == sku && row.until.Some?
  }

  /** The closed ones among the rows have been appended to the lists of their SKUs. */
  ghost predicate Collected(before: Cache, after: Cache, items: seq<Row>) {
    forall sku :: CachedFor(after, sku) == CachedFor(before, sku) + Filter(items, ClosedOf(sku))
  }

  lemma CollectedNone(cache: Cache, items: seq<Row>)
    ensures Collected(cache, cache, items[..0])
  {
  }

  lemma CollectedNext(before: Cache, cache: Cache, items: seq<Row>, i: nat)
    requires i < |items| && Collected(before, cache, items[..i])
    ensures var item := items[i];
            Collected(before,
                      if item.until.Some? then cache[item.sku := CachedFor(cache, item.sku) + [item]] else cache,
                      items[..i+1])
  {
    hide Filter;
    var item := items[i];
    var after := if item.until.Some? then cache[item.sku := CachedFor(cache, item.sku) + [item]] else cache;
    assert items[..i+1] == items[..i] + [item];
    forall sku
      ensures CachedFor(after, sku) == CachedFor(before, sku) + Filter(items[..i+1], ClosedOf(sku))
    {
      FilterSnoc(items[..i], item, ClosedOf(sku));
    }
  }

  /** Looked-up rows of SKUs the cache could not price are cached without repeating a priced row. */
  lemma CollectedOnce(
    before: Cache, after: Cache, items: seq<Row>, table: seq<Row>, lookup: set<Sku>, currency: Currency, start: int)
    requires CacheOf(before, table) && CachedOnce(before) && DisjointWindows(table) && ClosedOnce(items)
    requires Collected(before, after, items)
    requires forall r :: r in items ==> r in table && r.sku in lookup && (r.until.Some? ==> Covers(r, currency, start))
    requires forall sku :: sku in lookup ==>
                             var found := FindCached(CachedFor(before, sku), currency, start);
                             found.Some? ==> found.value.price.None?
    ensures CacheOf(after, table) && CachedOnce(after)
  {
    forall sku | sku in after
      ensures forall r :: r in after[sku] ==> r in table && r.until.Some? && r.sku == sku
      ensures forall i, j :: 0 <= i < j < |after[sku]| && after[sku][i].price.Some? ==> after[sku][i] != after[sku][j]
    {
      var cached, added := CachedFor(before, sku), Filter(items, ClosedOf(sku));
      FilterClosedOnce(items, ClosedOf(sku));
      FindCachedIsThere(cached, currency, start);
      forall r | r in added
        ensures r in table && r.until.Some? && r.sku == sku
        ensures r.price.Some? ==> r !in cached
      {
        FilterHas(items, ClosedOf(sku), r);
        if r in cached {
          CoveringIsUnique(table, r, FindCached(cached, currency, start).value, currency, start);
        }
      }
      assert forall i :: 0 <= i < |added| ==> added[i] in added;
      assert forall i :: 0 <= i < |cached| ==> cached[i] in cached;
    }
  }

  /******* The lookup *******/

  type Prices = map<Sku, Option<Price>>

  /** The answer computed with an empty cache. */
  function PriceMap(table: seq<Row>, skus: set<Sku>, currency: Currency, start: int): Prices {
    map sku | sku in skus && PricingRow(table, sku, currency, start).Some? ::
      PricingRow(table, sku, currency, start).value.price
  }

  /** The answer for one SKU: the cached row's price when it has one, else that of the table's pricing row. */
  ghost function AnswerFrom(cache: Cache, table: seq<Row>, sku: Sku, currency: Currency, start: int)
    : Option<Option<Price>>
  {
    var found := FindCached(CachedFor(cache, sku), currency, start);
    var row := PricingRow(table, sku, currency, start);
    if found.Some? && found.value.price.Some? then Some(found.value.price)
    else if row.Some? then Some(row.value.price) else None
  }

  ghost function AnswerMap(cache: Cache, table: seq<Row>, skus: set<Sku>, currency: Currency, start: int): Prices {
    map sku | sku in skus && AnswerFrom(cache, table, sku, currency, start).Some? ::
      AnswerFrom(cache, table, sku, currency, start).value
  }

  class PriceList {
    var table: seq<Row>
    var cache: Cache

    constructor (table: seq<Row>)
      requires DisjointWindows(table) && NonEmptyWindows(table)
      ensures Valid() && this.table == table && cache == map[]
    {
      this.table, cache := table, map[];
    }

    ghost predicate Valid()
      reads this
    {
      DisjointWindows(table) && NonEmptyWindows(table) && CacheOf(cache, table) && CachedOnce(cache)
    }

    /** The price list is edited between two calls. */
    method UpdateTable(edited: seq<Row>)
      requires Valid() && TableMoves(table, edited) && DisjointWindows(edited) && NonEmptyWindows(edited)
      modifies `table
      ensures Valid() && table == edited
    {
      forall sku, r | sku in cache && r in cache[sku]
        ensures r in edited
      {
        var i :| 0 <= i < |table| && table[i] == r;
      }
      table := edited;
    }

    /** The SKUs a cached row prices. */
    method FromCache(currency: Currency, start: int, skus: seq<Sku>) returns (prices: Prices)
      ensures forall sku :: sku in prices <==>
                            && sku in skus
                            && FindCached(CachedFor(cache, sku), currency, start).Some?
                            && FindCached(CachedFor(cache, sku), currency, start).value.price.Some?
      ensures forall sku :: sku in prices ==>
                prices[sku] == FindCached(CachedFor(cache, sku), currency, start).value.price
    {
      prices := map[];
      for i := 0 to |skus|
        invariant forall sku :: sku in prices <==>
                                && sku in skus[..i]
                                && FindCached(CachedFor(cache, sku), currency, start).Some?
                                && FindCached(CachedFor(cache, sku), currency, start).value.price.Some?
        invariant forall sku :: sku in prices ==>
                    prices[sku] == FindCached(CachedFor(cache, sku), currency, start).value.price
      {
        var cached := FindCached(CachedFor(cache, skus[i]), currency, start);
        if cached.Some? && cached.value.price.Some? {
          prices := prices[skus[i] := cached.value.price];
        }
      }
    }

    /** _collect_3yc_prices_from_items: cache the closed rows, keep the first price per SKU. */
    method Collect(items: seq<Row>, known: Prices) returns (prices: Prices)
      modifies `cache
      ensures Collected(old(cache), cache, items)
      ensures forall sku :: sku in prices <==> sku in known || FirstFor(items, sku).Some?
      ensures forall sku :: sku in prices ==>
                prices[sku] == if sku in known then known[sku] else FirstFor(items, sku).value.price
    {
      hide Filter, Collected;
      CollectedNone(cache, items);
      prices := known;
      for i := 0 to |items|
        invariant Collected(old(cache), cache, items[..i])
        invariant forall sku :: sku in prices <==> sku in known || FirstFor(items[..i], sku).Some?
        invariant forall sku :: sku in prices ==>
                                  prices[sku] ==
                                    if sku in known then known[sku] else FirstFor(items[..i], sku).value.price
      {
        var item := items[i];
        assert items[..i+1][..i] == items[..i];
        CollectedNext(old(cache), cache, items, i);
        if item.until.Some? {
          cache := cache[item.sku := CachedFor(cache, item.sku) + [item]];
        }
        if item.sku !in prices {
          prices := prices[item.sku := item.price];
        }
      }
      assert items[..|items|] == items;
    }

    /** get_prices_for_3yc_skus: whatever the cache holds, each SKU is answered from it or else from the
        table; with rows of the table's own, as if the cache were empty. */
    method GetPrices(currency: Currency, start: int, skus: seq<Sku>) returns (prices: Prices)
      requires DisjointWindows(table) && NonEmptyWindows(table)
      modifies `cache
      ensures prices == AnswerMap(old(cache), table, Elements(skus), currency, start)
      ensures old(Valid()) ==> Valid() && prices == PriceMap(table, Elements(skus), currency, start)
    {
      hide FirstFor, FindCached, PricingRow, DisjointWindows, NonEmptyWindows, CachedOnce, ClosedOnce, Query, PriceMap;
      hide AnswerMap, CacheOf, Collected;
      prices := FromCache(currency, start, skus);
      ghost var before, cached := cache, prices;
      var lookup := Elements(skus) - prices.Keys;
      var items := Query(table, lookup, Current(currency, start));
      var missing := {};
      if lookup != {} {
        QueryClosedOnce(table, lookup, Current(currency, start));
        forall r
          ensures r in items <==> r in table && r.sku in lookup && Current(currency, start)(r)
        {
          QueryHas(table, lookup, Current(currency, start), r);
        }
        prices := Collect(items, prices);
        if CacheOf(before, table) && CachedOnce(before) {
          CollectedOnce(before, cache, items, table, lookup, currency, start);
        }
        missing := lookup - prices.Keys;
      } else {
        NoneFor(table, lookup, Current(currency, start));
      }
      ghost var collected := prices;
      var historical := Query(table, missing, Closed(currency));
      if missing != {} {
        prices := FallBack(historical, prices);
      } else {
        NoneFor(table, missing, Closed(currency));
      }
      Combined(before, table, Elements(skus), cached, lookup, collected, missing, prices, currency, start);
      if CacheOf(before, table) {
        OwnCacheDoesNotShow(before, table, Elements(skus), currency, start);
      }
    }

    /** setdefault over the historical rows; nothing is cached. */
    method FallBack(historical: seq<Row>, known: Prices) returns (prices: Prices)
      ensures forall sku :: sku in prices <==> sku in known || FirstFor(historical, sku).Some?
      ensures forall sku :: sku in prices ==>
                              prices[sku] == if sku in known then known[sku] else FirstFor(historical, sku).value.price
    {
      prices := known;
      for i := 0 to |historical|
        invariant forall sku :: sku in prices <==> sku in known || FirstFor(historical[..i], sku).Some?
        invariant forall sku :: sku in prices ==>
                                  prices[sku] ==
                                    if sku in known then known[sku] else FirstFor(historical[..i], sku).value.price
      {
        assert historical[..i+1][..i] == historical[..i];
        if historical[i].sku !in prices {
          prices := prices[historical[i].sku := historical[i].price];
        }
      }
      assert historical[..|historical|] == historical;
    }
  }

  /******* Why the cache does not show *******/

  function Elements(skus: seq<Sku>): set<Sku> {
    set sku | sku in skus
  }

  ghost predicate AnswersFor(table: seq<Row>, sku: Sku, price: Option<Price>, currency: Currency, start: int) {
    var row := PricingRow(table, sku, currency, start);
    row.Some? && row.value.price == price
  }

  lemma CachedAnswers(cache: Cache, table: seq<Row>, sku: Sku, currency: Currency, start: int)
    requires CacheOf(cache, table) && DisjointWindows(table)
    requires FindCached(CachedFor(cache, sku), currency, start).Some?
    ensures AnswersFor(table, sku, FindCached(CachedFor(cache, sku), currency, start).value.price, currency, start)
  {
    FindCachedIsThere(CachedFor(cache, sku), currency, start);
    CachedIsPricing(table, FindCached(CachedFor(cache, sku), currency, start).value, currency, start);
  }

  lemma QueryHas(table: seq<Row>, skus: set<Sku>, p: Row -> bool, r: Row)
    ensures r in Query(table, skus, p) <==> r in table && r.sku in skus && p(r)
  {
    SortedDescends(Filter(table, For(skus, p)));
    FilterHas(table, For(skus, p), r);
  }

  lemma NoneFor(table: seq<Row>, skus: set<Sku>, p: Row -> bool)
    ensures forall sku :: sku !in skus ==> FirstFor(Query(table, skus, p), sku).None?
  {
    forall sku | sku !in skus
      ensures FirstFor(Query(table, skus, p), sku).None?
    {
      FirstForIsThere(Query(table, skus, p), sku);
      forall i | 0 <= i < |Query(table, skus, p)|
        ensures Query(table, skus, p)[i].sku in skus
      {
        QueryHas(table, skus, p, Query(table, skus, p)[i]);
      }
    }
  }

  lemma Combined(
    cache: Cache, table: seq<Row>, skus: set<Sku>, cached: Prices, lookup: set<Sku>, collected: Prices,
    missing: set<Sku>, prices: Prices, currency: Currency, start: int)
    requires cached.Keys <= skus && lookup == skus - cached.Keys && missing == lookup - collected.Keys
    requires forall sku :: sku in skus ==>
                             var found := FindCached(CachedFor(cache, sku), currency, start);
                             && (sku in cached <==> found.Some? && found.value.price.Some?)
                             && (sku in cached ==> cached[sku] == found.value.price)
    requires var items := Query(table, lookup, Current(currency, start));
             && (forall sku :: sku in collected <==> sku in cached || FirstFor(items, sku).Some?)
             && (forall sku :: sku in collected ==>
                                 collected[sku] ==
                                   if sku in cached then cached[sku] else FirstFor(items, sku).value.price)
    requires var historical := Query(table, missing, Closed(currency));
             && (forall sku :: sku in prices <==> sku in collected || FirstFor(historical, sku).Some?)
             && (forall sku :: sku in prices ==>
                                 prices[sku] ==
                                   if sku in collected then collected[sku] else FirstFor(historical, sku).value.price)
    ensures prices == AnswerMap(cache, table, skus, currency, start)
  {
    hide FirstFor, Query, FindCached;
    NoneFor(table, lookup, Current(currency, start));
    NoneFor(table, missing, Closed(currency));
    forall sku
      ensures sku in prices <==> sku in skus && AnswerFrom(cache, table, sku, currency, start).Some?
      ensures sku in prices ==> prices[sku] == AnswerFrom(cache, table, sku, currency, start).value
    {
      if sku in lookup {
        QueryIsPerSku(table, lookup, sku, Current(currency, start));
        if sku in missing {
          QueryIsPerSku(table, missing, sku, Closed(currency));
        }
      }
    }
  }

  lemma OwnCacheDoesNotShow(cache: Cache, table: seq<Row>, skus: set<Sku>, currency: Currency, start: int)
    requires CacheOf(cache, table) && DisjointWindows(table)
    ensures AnswerMap(cache, table, skus, currency, start) == PriceMap(table, skus, currency, start)
  {
    hide FindCached, PricingRow, CacheOf, DisjointWindows;
    forall sku | sku in skus
      ensures var row := PricingRow(table, sku, currency, start);
              AnswerFrom(cache, table, sku, currency, start) == if row.Some? then Some(row.value.price) else None
    {
      if FindCached(CachedFor(cache, sku), currency, start).Some? {
        CachedAnswers(cache, table, sku, currency, start);
      }
    }
  }

  /******* Where the cache would show *******/

  /** A cached row spares the lookup if and only if it has a price; a row without one is looked up,
      and cached, again on every call. */
  lemma SparesLookupIff(rows: seq<Row>, row: Row, table: seq<Row>, currency: Currency, start: int)
    requires DisjointWindows(table) && row in rows && Covers(row, currency, start)
    requires forall r :: r in rows ==> r in table && r.sku == row.sku
    ensures FindCached(rows, currency, start).Some?
    ensures FindCached(rows, currency, start).value.price.Some? <==> row.price.Some?
  {
    FindCachedIsThere(rows, currency, start);
    CoveringIsUnique(table, row, FindCached(rows, currency, start).value, currency, start);
  }

  /** Every cached row with a price has, on its whole window, the price the other table answers with. */
  ghost predicate RowsAgree(cache: Cache, other: seq<Row>) {
    forall sku, r, start :: sku in cache && r in cache[sku] && r.price.Some? && Covers(r, r.currency, start) ==>
                              AnswersFor(other, sku, r.price, r.currency, start)
  }

  /** A covering row is the one found, whatever table the cache was filled from. */
  lemma FoundIs(cache: Cache, table: seq<Row>, sku: Sku, currency: Currency, start: int)
    requires CacheOf(cache, table) && DisjointWindows(table)
    ensures var found := FindCached(CachedFor(cache, sku), currency, start);
            && (found.Some? ==> sku in cache && found.value in cache[sku] && Covers(found.value, currency, start))
            && forall r :: sku in cache && r in cache[sku] && Covers(r, currency, start) ==> found == Some(r)
  {
    hide FindCached;
    var found := FindCached(CachedFor(cache, sku), currency, start);
    FindCachedIsThere(CachedFor(cache, sku), currency, start);
    forall r | sku in cache && r in cache[sku] && Covers(r, currency, start)
      ensures found == Some(r)
    {
      CoveringIsUnique(table, r, found.value, currency, start);
    }
  }

  /** The cache is not keyed by the pricing base. Filled from one table, it answers rightly for another one,
      for any SKUs, currency and date, if and only if the cached prices are the other table's answers on
      their windows. */
  lemma OtherBaseIff(cache: Cache, table: seq<Row>, other: seq<Row>)
    requires CacheOf(cache, table) && DisjointWindows(table)
    ensures (forall skus, currency, start ::
               AnswerMap(cache, other, skus, currency, start) == PriceMap(other, skus, currency, start)) <==>
            RowsAgree(cache, other)
  {
    hide PricingRow, FindCached, CacheOf, DisjointWindows;
    forall sku, currency, start
      ensures var found := FindCached(CachedFor(cache, sku), currency, start);
              && (found.Some? ==> sku in cache && found.value in cache[sku] && Covers(found.value, currency, start))
              && forall r :: sku in cache && r in cache[sku] && Covers(r, currency, start) ==> found == Some(r)
    {
      FoundIs(cache, table, sku, currency, start);
    }
    if forall skus, currency, start ::
         AnswerMap(cache, other, skus, currency, start) == PriceMap(other, skus, currency, start) {
      forall sku, r, start | sku in cache && r in cache[sku] && r.price.Some? && Covers(r, r.currency, start)
        ensures AnswersFor(other, sku, r.price, r.currency, start)
      {
        var answers := AnswerMap(cache, other, {sku}, r.currency, start);
        assert answers == PriceMap(other, {sku}, r.currency, start);
        assert sku in answers && answers[sku] == r.price;
      }
    } else {
      var skus, currency, start :|
        AnswerMap(cache, other, skus, currency, start) != PriceMap(other, skus, currency, start);
      if RowsAgree(cache, other) {
        AgreeingRowsDoNotShow(cache, other, skus, currency, start);
      }
    }
  }

  lemma AgreeingRowsDoNotShow(cache: Cache, other: seq<Row>, skus: set<Sku>, currency: Currency, start: int)
    requires RowsAgree(cache, other)
    ensures AnswerMap(cache, other, skus, currency, start) == PriceMap(other, skus, currency, start)
  {
    hide PricingRow, FindCached;
    forall sku | sku in skus
      ensures var row := PricingRow(other, sku, currency, start);
              AnswerFrom(cache, other, sku, currency, start) == if row.Some? then Some(row.value.price) else None
    {
      FindCachedIsThere(CachedFor(cache, sku), currency, start);
      var found := FindCached(CachedFor(cache, sku), currency, start);
      if found.Some? && found.value.price.Some? {
        assert AnswersFor(other, sku, found.value.price, found.value.currency, start);
      }
    }
  }

  /** A row cached from one base answers for another one that prices the same SKU differently. */
  lemma OneBaseOnly()
    ensures var here, there := Row(1, 1, 0, Some(10), Some(100)), Row(1, 1, 0, Some(10), Some(200));
            && CacheOf(map[1 := [here]], [here]) && DisjointWindows([there])
            && FindCached(CachedFor(map[1 := [here]], 1), 1, 5) == Some(here)
            && PricingRow([there], 1, 1, 5) == Some(there)
  {
    var here, there := Row(1, 1, 0, Some(10), Some(100)), Row(1, 1, 0, Some(10), Some(200));
    FindCachedIsThere([here], 1, 5);
    assert here in [here];
    CachedIsPricing([there], there, 1, 5);
  }
}
