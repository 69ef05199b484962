/**
 Keyset pagination over the orders table: the query with its optional filters, the page cut one row
 short of the look-ahead, and the walk a client makes by following the cursor while others write.
 */
module OrdersPage {
  import opened Wrappers
  import opened Orders
  import opened Sequences

  /** An orders row by what listing reads; ids and timestamps by their order. */
  datatype Row = Row(id: nat, createdAt: int, customer: nat, status: OrderStatus, warehouse: Option<nat>)
  datatype Cursor = Cursor(createdAt: int, id: nat)
  datatype Filters = Filters(customer: Option<nat>, status: Option<OrderStatus>, warehouse: Option<nat>,
                             createdFrom: Option<int>, createdTo: Option<int>)

  const DEFAULT_PAGE_SIZE := 20

  // ---------- the WHERE clause ----------

  datatype Param = Number(value: nat) | StatusParam(status: OrderStatus) | Moment(at: int)

  /** A condition on a column against numbered parameters, counted from 1. */
  datatype Condition =
    | CustomerIs(param: nat) | StatusIs(param: nat) | WarehouseIs(param: nat)
    | CreatedSince(param: nat) | CreatedUntil(param: nat) | PositionBelow(createdAtParam: nat, idParam: nat)

  predicate Bound(params: seq<Param>, n: nat) {
    1 <= n <= |params|
  }

  /** SQL's reading of a condition; a null warehouse equals nothing. */
  predicate Holds(c: Condition, params: seq<Param>, r: Row) {
    match c
    case CustomerIs(n) => Bound(params, n) && params[n - 1] == Number(r.customer)
    case StatusIs(n) => Bound(params, n) && params[n - 1] == StatusParam(r.status)
    case WarehouseIs(n) => Bound(params, n) && r.warehouse.Some? && params[n - 1] == Number(r.warehouse.value)
    case CreatedSince(n) => Bound(params, n) && params[n - 1].Moment? && r.createdAt >= params[n - 1].at
    case CreatedUntil(n) => Bound(params, n) && params[n - 1].Moment? && r.createdAt <= params[n - 1].at
    case PositionBelow(m, n) =>
      && Bound(params, m) && Bound(params, n) && params[m - 1].Moment? && params[n - 1].Number?
      && Below(r, Cursor(params[m - 1].at, params[n - 1].value))
  }

  predicate AllHold(conditions: seq<Condition>, params: seq<Param>, r: Row) {
    forall c | c in conditions :: Holds(c, params, r)
  }

  /** Row comparison: the timestamp first, ties by id. */
  predicate Below(r: Row, c: Cursor) {
    r.createdAt < c.createdAt || (r.createdAt == c.createdAt && r.id < c.id)
  }

  predicate Matches(f: Filters, r: Row) {
    && (f.customer.Some? ==> r.customer == f.customer.value)
    && (f.status.Some? ==> r.status == f.status.value)
    && (f.warehouse.Some? ==> r.warehouse == f.warehouse)
    && (f.createdFrom.Some? ==> r.createdAt >= f.createdFrom.value)
    && (f.createdTo.Some? ==> r.createdAt <= f.createdTo.value)
  }

  predicate Wanted(f: Filters, cursor: Option<Cursor>, r: Row) {
    Matches(f, r) && (cursor.Some? ==> Below(r, cursor.value))
  }

  /** The conditions pushed so far read only parameters already pushed, so pushing more changes nothing. */
  lemma PushKeeps(conditions: seq<Condition>, params: seq<Param>, more: seq<Param>)
    requires forall c | c in conditions :: Settled(c, params)
    ensures forall c | c in conditions :: Settled(c, params + more)
    ensures forall r :: AllHold(conditions, params + more, r) <==> AllHold(conditions, params, r)
  {
    forall r, c | c in conditions
      ensures Holds(c, params + more, r) <==> Holds(c, params, r)
    {
      assert Settled(c, params);
    }
    forall r
      ensures AllHold(conditions, params + more, r) <==> AllHold(conditions, params, r)
    {
      assert forall c | c in conditions :: Holds(c, params + more, r) <==> Holds(c, params, r);
    }
  }

  predicate Settled(c: Condition, params: seq<Param>) {
    if c.PositionBelow? then Bound(params, c.createdAtParam) && Bound(params, c.idParam) else Bound(params, c.param)
  }

  lemma OneMore(conditions: seq<Condition>, c: Condition, params: seq<Param>, r: Row)
    ensures AllHold(conditions + [c], params, r) <==> AllHold(conditions, params, r) && Holds(c, params, r)
  {
    assert c in conditions + [c];
    assert forall d | d in conditions :: d in conditions + [c];
  }

  const NO_FILTERS := Filters(None, None, None, None, None)

  /** The conditions so far hold of exactly the rows these filters want. */
  ghost predicate Builds(conditions: seq<Condition>, params: seq<Param>, f: Filters, cursor: Option<Cursor>) {
    && (forall c | c in conditions :: Settled(c, params))
    && forall r :: AllHold(conditions, params, r) <==> Wanted(f, cursor, r)
  }

  /** The new condition, over its own parameters, narrows what was wanted to what is wanted next. */
  ghost predicate Narrows(c: Condition, params: seq<Param>, f: Filters, cursor: Option<Cursor>, next: Filters,
                          nextCursor: Option<Cursor>)
  {
    Settled(c, params) && forall r :: Wanted(next, nextCursor, r) <==> Wanted(f, cursor, r) && Holds(c, params, r)
  }

  lemma PushBuilds(conditions: seq<Condition>, params: seq<Param>, more: seq<Param>, c: Condition,
                   f: Filters, cursor: Option<Cursor>, next: Filters, nextCursor: Option<Cursor>)
    requires Builds(conditions, params, f, cursor)
    requires Narrows(c, params + more, f, cursor, next, nextCursor)
    ensures Builds(conditions + [c], params + more, next, nextCursor)
  {
    PushKeeps(conditions, params, more);
    forall r
      ensures AllHold(conditions + [c], params + more, r) <==> Wanted(next, nextCursor, r)
    {
      OneMore(conditions, c, params + more, r);
    }
  }

  /** The filters on the order itself. */
  method PushFilters(f: Filters) returns (conditions: seq<Condition>, params: seq<Param>)
    ensures Builds(conditions, params, f.(createdFrom := None, createdTo := None), None)
  {
    conditions, params := [], [];
    ghost var done := NO_FILTERS;
    if f.customer.Some? {
      PushBuilds(conditions, params, [Number(f.customer.value)], CustomerIs(|params| + 1), done, None,
                 done.(customer := f.customer), None);
      params := params + [Number(f.customer.value)];
      conditions := conditions + [CustomerIs(|params|)];
    }
    done := done.(customer := f.customer);
    if f.status.Some? {
      PushBuilds(conditions, params, [StatusParam(f.status.value)], StatusIs(|params| + 1), done, None,
                 done.(status := f.status), None);
      params := params + [StatusParam(f.status.value)];
      conditions := conditions + [StatusIs(|params|)];
    }
    done := done.(status := f.status);
    if f.warehouse.Some? {
      PushBuilds(conditions, params, [Number(f.warehouse.value)], WarehouseIs(|params| + 1), done, None,
                 done.(warehouse := f.warehouse), None);
      params := params + [Number(f.warehouse.value)];
      conditions := conditions + [WarehouseIs(|params|)];
    }
  }

  /** What findPage() sends: its conditions hold of exactly the wanted rows, and the last parameter is the limit. */
  method BuildQuery(f: Filters, cursor: Option<Cursor>, pageSize: nat)
    returns (conditions: seq<Condition>, params: seq<Param>)
    ensures forall r :: AllHold(conditions, params, r) <==> Wanted(f, cursor, r)
    ensures |params| >= 1 && params[|params| - 1] == Number(pageSize + 1)
  {
    conditions, params := PushFilters(f);
    ghost var done := f.(createdFrom := None, createdTo := None);
    if f.createdFrom.Some? {
      PushBuilds(conditions, params, [Moment(f.createdFrom.value)], CreatedSince(|params| + 1), done, None,
                 f.(createdTo := None), None);
      params := params + [Moment(f.createdFrom.value)];
      conditions := conditions + [CreatedSince(|params|)];
    }
    done := f.(createdTo := None);
    if f.createdTo.Some? {
      PushBuilds(conditions, params, [Moment(f.createdTo.value)], CreatedUntil(|params| + 1), done, None, f, None);
      params := params + [Moment(f.createdTo.value)];
      conditions := conditions + [CreatedUntil(|params|)];
    }
    if cursor.Some? {
      ghost var position := [Moment(cursor.value.createdAt), Number(cursor.value.id)];
      PushBuilds(conditions, params, position, PositionBelow(|params| + 1, |params| + 2), f, None, f, cursor);
      params := params + [Moment(cursor.value.createdAt), Number(cursor.value.id)];
      conditions := conditions + [PositionBelow(|params| - 1, |params|)];
    }
    PushKeeps(conditions, params, [Number(pageSize + 1)]);
    params := params + [Number(pageSize + 1)];
  }

  // ---------- ORDER BY created_at DESC, id DESC LIMIT n ----------

  /** a is listed before b. */
  predicate Ahead(a: Row, b: Row) {
    Below(b, Cursor(a.createdAt, a.id))
  }

  predicate Descending(rows: seq<Row>) {
    forall i, j | 0 <= i < j < |rows| :: Ahead(rows[i], rows[j])
  }

  /** The primary key: no id twice. */
  predicate Keyed(table: seq<Row>) {
    forall i, j | 0 <= i < j < |table| :: table[i].id != table[j].id
  }

  function Select(table: seq<Row>, f: Filters, cursor: Option<Cursor>): seq<Row> {
    if table == [] then []
    else (if Wanted(f, cursor, table[0]) then [table[0]] else []) + Select(table[1..], f, cursor)
  }

  function Insert(r: Row, rows: seq<Row>): seq<Row> {
    if rows == [] || Ahead(r, rows[0]) then [r] + rows else [rows[0]] + Insert(r, rows[1..])
  }

  function Sort(rows: seq<Row>): seq<Row> {
    if rows == [] then [] else Insert(rows[0], Sort(rows[1..]))
  }

  function Listing(table: seq<Row>, f: Filters, cursor: Option<Cursor>): seq<Row> {
    Sort(Select(table, f, cursor))
  }

  function FindPage(table: seq<Row>, f: Filters, cursor: Option<Cursor>, pageSize: nat): seq<Row> {
    var rows := Listing(table, f, cursor);
    if |rows| <= pageSize + 1 then rows else rows[..pageSize + 1]
  }

  lemma {:induction false} SelectIs(table: seq<Row>, f: Filters, cursor: Option<Cursor>)
    requires Keyed(table)
    ensures Keyed(Select(table, f, cursor))
    ensures forall r :: r in Select(table, f, cursor) <==> r in table && Wanted(f, cursor, r)
  {
    if table != [] {
      assert Keyed(table[1..]);
      assert table == [table[0]] + table[1..];
      SelectIs(table[1..], f, cursor);
      assert forall r | r in table[1..] :: r.id != table[0].id;
    }
  }

  lemma {:induction false} InsertIs(r: Row, rows: seq<Row>)
    requires Descending(rows) && forall q | q in rows :: q.id != r.id
    ensures Descending(Insert(r, rows))
    ensures forall q :: q in Insert(r, rows) <==> q == r || q in rows
  {
    if rows != [] && !Ahead(r, rows[0]) {
      assert rows == [rows[0]] + rows[1..];
      assert Descending(rows[1..]);
      InsertIs(r, rows[1..]);
      assert forall q | q in Insert(r, rows[1..]) :: Ahead(rows[0], q);
    }
  }

  lemma {:induction false} SortIs(rows: seq<Row>)
    requires Keyed(rows)
    ensures Descending(Sort(rows)) && forall r :: r in Sort(rows) <==> r in rows
  {
    if rows != [] {
      assert Keyed(rows[1..]);
      assert rows == [rows[0]] + rows[1..];
      SortIs(rows[1..]);
      assert forall r | r in rows[1..] :: r.id != rows[0].id;
      InsertIs(rows[0], Sort(rows[1..]));
    }
  }

  lemma ListingIs(table: seq<Row>, f: Filters, cursor: Option<Cursor>)
    requires Keyed(table)
    ensures Descending(Listing(table, f, cursor))
    ensures forall r :: r in Listing(table, f, cursor) <==> r in table && Wanted(f, cursor, r)
  {
    SelectIs(table, f, cursor);
    SortIs(Select(table, f, cursor));
  }

  // ---------- one page ----------

  datatype Page = Page(rows: seq<Row>, hasMore: bool, next: Option<Cursor>)
  datatype Item = Item(order: nat, product: nat, quantity: int)

  function PageOf(rows: seq<Row>, pageSize: nat): Page {
    var hasMore := |rows| > pageSize;
    var pageRows := if hasMore then rows[..pageSize] else rows;
    var next :=
      if hasMore && pageRows != []
      then Some(Cursor(pageRows[|pageRows| - 1].createdAt, pageRows[|pageRows| - 1].id))
      else None;
    Page(pageRows, hasMore, next)
  }

  function Fetch(table: seq<Row>, f: Filters, cursor: Option<Cursor>, pageSize: nat): Page {
    PageOf(FindPage(table, f, cursor, pageSize), pageSize)
  }

  /** The items of one order, as the query returned them. */
  function ItemsOf(items: seq<Item>, order: nat): seq<Item> {
    if items == [] then []
    else ItemsOf(items[..|items| - 1], order) + if items[|items| - 1].order == order then [items[|items| - 1]] else []
  }

  /** They are all of the order's items, and in the order of the query. */
  lemma {:induction false} ItemsAre(items: seq<Item>, order: nat) returns (at: seq<nat>)
    ensures Picks(ItemsOf(items, order), items, at)
    ensures forall i: nat | i < |items| :: i in at <==> items[i].order == order
  {
    at := [];
    if items != [] {
      var n := |items| - 1;
      at := ItemsAre(items[..n], order);
      at := SnocPicks(items[n], ItemsOf(items[..n], order), items[..n], at, items[n].order == order);
      assert items == items[..n] + [items[n]];
      assert forall i: nat | i < n :: items[..n][i] == items[i];
    }
  }

  function GroupOf(byOrder: map<nat, seq<Item>>, o: nat): seq<Item> {
    if o in byOrder then byOrder[o] else []
  }

  method GroupItems(items: seq<Item>) returns (byOrder: map<nat, seq<Item>>)
    ensures forall o :: GroupOf(byOrder, o) == ItemsOf(items, o)
  {
    byOrder := map[];
    for i := 0 to |items|
      invariant forall o :: GroupOf(byOrder, o) == ItemsOf(items[..i], o)
    {
      var item := items[i];
      ghost var before := byOrder;
      if item.order in byOrder {
        byOrder := byOrder[item.order := byOrder[item.order] + [item]];
      } else {
        byOrder := byOrder[item.order := [item]];
      }
      forall o
        ensures GroupOf(byOrder, o) == ItemsOf(items[..i + 1], o)
      {
        assert items[..i + 1][..i] == items[..i];
        assert GroupOf(byOrder, o) == GroupOf(before, o) + if item.order == o then [item] else [];
      }
    }
    assert items[..|items|] == items;
  }

  /** ListOrdersService.execute(): the page, each order with all its items. */
  method Execute(table: seq<Row>, items: seq<Item>, f: Filters, cursor: Option<Cursor>, pageSize: Option<nat>)
    returns (orders: seq<(Row, seq<Item>)>, hasMore: bool, nextCursor: Option<Cursor>)
    ensures var page := Fetch(table, f, cursor, if pageSize.Some? then pageSize.value else 20);
            && hasMore == page.hasMore && nextCursor == page.next && |orders| == |page.rows|
            && forall i | 0 <= i < |orders| :: orders[i] == (page.rows[i], ItemsOf(items, page.rows[i].id))
  {
    var size := if pageSize.Some? then pageSize.value else DEFAULT_PAGE_SIZE;
    var rows := FindPage(table, f, cursor, size);
    hasMore := |rows| > size;
    var pageRows := if hasMore then rows[..size] else rows;
    var byOrder := GroupItems(items);
    nextCursor := None;
    if hasMore && pageRows != [] {
      var lastRow := pageRows[|pageRows| - 1];
      nextCursor := Some(Cursor(lastRow.createdAt, lastRow.id));
    }
    orders := seq(|pageRows|, i requires 0 <= i < |pageRows| =>
      (pageRows[i], GroupOf(byOrder, pageRows[i].id)));
  }

  /** A page in terms of the table: the wanted rows nearest the top, and what its cursor leaves for later. */
  ghost predicate GoodPage(p: Page, table: seq<Row>, f: Filters, cursor: Option<Cursor>) {
    && Descending(p.rows)
    && (forall r | r in p.rows :: r in table && Wanted(f, cursor, r))
    && (p.next.Some? ==>
          p.rows != [] && p.next.value == Cursor(p.rows[|p.rows| - 1].createdAt, p.rows[|p.rows| - 1].id))
    && (forall r | r in table && Wanted(f, cursor, r) && r !in p.rows :: p.next.Some? && Below(r, p.next.value))
  }

  /** A row that does not fit on the page is below the last one that does. */
  lemma BeyondThePage(all: seq<Row>, pageSize: nat, r: Row)
    requires Descending(all) && pageSize >= 1 && r in all && r !in TakeAtMost(all, pageSize)
    ensures |all| > pageSize && Below(r, Cursor(all[pageSize - 1].createdAt, all[pageSize - 1].id))
  {
    var i :| 0 <= i < |all| && all[i] == r;
    assert Ahead(all[pageSize - 1], all[i]);
  }

  lemma FetchIsGood(table: seq<Row>, f: Filters, cursor: Option<Cursor>, pageSize: nat)
    requires Keyed(table) && pageSize >= 1
    ensures GoodPage(Fetch(table, f, cursor, pageSize), table, f, cursor)
  {
    ListingIs(table, f, cursor);
    var all := Listing(table, f, cursor);
    var p := Fetch(table, f, cursor, pageSize);
    assert p.rows == TakeAtMost(all, pageSize);
    assert p.next == if |all| > pageSize then Some(Cursor(all[pageSize - 1].createdAt, all[pageSize - 1].id)) else None;
    forall r | r in all && r !in p.rows
      ensures p.next.Some? && Below(r, p.next.value)
    {
      BeyondThePage(all, pageSize, r);
    }
  }

  /** A page in numbers: the first pageSize wanted rows, and whether there are more. */
  lemma PageCounts(table: seq<Row>, f: Filters, cursor: Option<Cursor>, pageSize: nat)
    ensures var p, all := Fetch(table, f, cursor, pageSize), Listing(table, f, cursor);
            && p.rows <= all && |p.rows| == (if |all| <= pageSize then |all| else pageSize)
            && (p.hasMore <==> |all| > pageSize) && (p.next.Some? <==> p.hasMore && pageSize > 0)
  {
  }

  /** The listing by its columns: newest first, ties by the higher id, and exactly what filters and cursor ask for. */
  lemma ListingMeans(table: seq<Row>, f: Filters, cursor: Option<Cursor>)
    requires Keyed(table)
    ensures var all := Listing(table, f, cursor);
            forall i, j | 0 <= i < j < |all| ::
              all[i].createdAt > all[j].createdAt || (all[i].createdAt == all[j].createdAt && all[i].id > all[j].id)
    ensures forall r :: r in Listing(table, f, cursor) <==>
              && r in table
              && (f.customer.Some? ==> r.customer == f.customer.value)
              && (f.status.Some? ==> r.status == f.status.value)
              && (f.warehouse.Some? ==> r.warehouse == Some(f.warehouse.value))
              && (f.createdFrom.Some? ==> f.createdFrom.value <= r.createdAt)
              && (f.createdTo.Some? ==> r.createdAt <= f.createdTo.value)
              && (cursor.Some? ==>
                    || r.createdAt < cursor.value.createdAt
                    || (r.createdAt == cursor.value.createdAt && r.id < cursor.value.id))
  {
    ListingIs(table, f, cursor);
    var all := Listing(table, f, cursor);
    assert forall i, j | 0 <= i < j < |all| :: Ahead(all[i], all[j]);
  }

  function TakeAtMost(rows: seq<Row>, n: nat): seq<Row> {
    if |rows| <= n then rows else rows[..n]
  }

  // ---------- following the cursor while others write ----------

  /** tables[i] is the table as the i-th page finds it. */
  function Walk(tables: seq<seq<Row>>, f: Filters, cursor: Option<Cursor>, pageSize: nat): seq<Page> {
    if tables == [] then []
    else
      var p := Fetch(tables[0], f, cursor, pageSize);
      [p] + if p.next.Some? then Walk(tables[1..], f, p.next, pageSize) else []
  }

  /** The client reached a page without a cursor. */
  predicate Complete(pages: seq<Page>) {
    pages != [] && pages[|pages| - 1].next.None?
  }

  function Listed(pages: seq<Page>): seq<Row> {
    if pages == [] then [] else pages[0].rows + Listed(pages[1..])
  }

  predicate AllKeyed(tables: seq<seq<Row>>) {
    forall i | 0 <= i < |tables| :: Keyed(tables[i])
  }

  ghost predicate Somewhere(tables: seq<seq<Row>>, r: Row) {
    exists i :: 0 <= i < |tables| && r in tables[i]
  }

  lemma WalkUnfolds(tables: seq<seq<Row>>, f: Filters, cursor: Option<Cursor>, pageSize: nat)
    requires tables != []
    ensures
      var p, pages := Fetch(tables[0], f, cursor, pageSize), Walk(tables, f, cursor, pageSize);
      if p.next.None? then pages == [p] && Listed(pages) == p.rows && Complete(pages)
      else
        var rest := Walk(tables[1..], f, p.next, pageSize);
        pages == [p] + rest && Listed(pages) == p.rows + Listed(rest) && (Complete(pages) <==> Complete(rest))
  {
    var pages := Walk(tables, f, cursor, pageSize);
    assert pages[1..] == if pages[0].next.Some? then Walk(tables[1..], f, pages[0].next, pageSize) else [];
  }

  /** Whatever is written between pages, the walk lists rows in strictly descending order, each wanted. */
  lemma {:induction false} WalkDescends(tables: seq<seq<Row>>, f: Filters, cursor: Option<Cursor>, pageSize: nat)
    requires AllKeyed(tables) && pageSize >= 1
    ensures Descends(Listed(Walk(tables, f, cursor, pageSize)), tables, f, cursor)
  {
    if tables != [] {
      var p := Fetch(tables[0], f, cursor, pageSize);
      assert Keyed(tables[0]) && AllKeyed(tables[1..]);
      FetchIsGood(tables[0], f, cursor, pageSize);
      WalkUnfolds(tables, f, cursor, pageSize);
      if p.next.Some? {
        WalkDescends(tables[1..], f, p.next, pageSize);
        PrependDescends(p, Listed(Walk(tables[1..], f, p.next, pageSize)), tables, f, cursor);
      } else {
        PageDescends(p, tables, f, cursor);
      }
    }
  }

  /** Rows in strictly descending order, each wanted and in some table. */
  ghost predicate Descends(rows: seq<Row>, tables: seq<seq<Row>>, f: Filters, cursor: Option<Cursor>) {
    Descending(rows) && forall r | r in rows :: Wanted(f, cursor, r) && Somewhere(tables, r)
  }

  lemma PageDescends(p: Page, tables: seq<seq<Row>>, f: Filters, cursor: Option<Cursor>)
    requires tables != [] && GoodPage(p, tables[0], f, cursor)
    ensures Descends(p.rows, tables, f, cursor)
  {
    assert forall r | r in p.rows :: r in tables[0];
  }

  lemma PrependDescends(p: Page, rest: seq<Row>, tables: seq<seq<Row>>, f: Filters, cursor: Option<Cursor>)
    requires tables != [] && GoodPage(p, tables[0], f, cursor) && p.next.Some? && Descends(rest, tables[1..], f, p.next)
    ensures Descends(p.rows + rest, tables, f, cursor)
  {
    PageDescends(p, tables, f, cursor);
    JoinDescends(p.rows, rest, p.next.value);
    forall r | r in rest
      ensures Wanted(f, cursor, r) && Somewhere(tables, r)
    {
      assert p.rows[|p.rows| - 1] in p.rows;
      var i :| 0 <= i < |tables[1..]| && r in tables[1..][i];
      assert r in tables[i + 1];
    }
  }

  lemma JoinDescends(a: seq<Row>, b: seq<Row>, cursor: Cursor)
    requires Descending(a) && Descending(b) && a != []
    requires cursor == Cursor(a[|a| - 1].createdAt, a[|a| - 1].id) && forall r | r in b :: Below(r, cursor)
    ensures Descending(a + b)
  {
    forall i, j | 0 <= i < j < |a + b|
      ensures Ahead((a + b)[i], (a + b)[j])
    {
      if i < |a| <= j {
        assert b[j - |a|] in b;
        assert i == |a| - 1 || Ahead(a[i], a[|a| - 1]);
      }
    }
  }

  /** A wanted row that stays as it is while the walk lasts is listed; inserts around it change nothing. */
  lemma {:induction false} WalkCovers(tables: seq<seq<Row>>, f: Filters, cursor: Option<Cursor>, pageSize: nat, r: Row)
    requires AllKeyed(tables) && pageSize >= 1
    requires Complete(Walk(tables, f, cursor, pageSize)) && Wanted(f, cursor, r)
    requires forall i | 0 <= i < |tables| :: r in tables[i]
    ensures r in Listed(Walk(tables, f, cursor, pageSize))
  {
    var p := Fetch(tables[0], f, cursor, pageSize);
    FetchIsGood(tables[0], f, cursor, pageSize);
    WalkUnfolds(tables, f, cursor, pageSize);
    if r !in p.rows {
      assert AllKeyed(tables[1..]);
      WalkCovers(tables[1..], f, p.next, pageSize, r);
    }
  }

  /** Writes only ever move a row's timestamp forward. */
  ghost predicate TimestampsRise(tables: seq<seq<Row>>) {
    forall i, j, r, q | 0 <= i <= j < |tables| && r in tables[i] && q in tables[j] && r.id == q.id ::
      r.createdAt <= q.createdAt
  }

  /** Then no order is listed twice, not even one that was saved again between pages. */
  lemma {:induction false} NoOrderTwice(tables: seq<seq<Row>>, f: Filters, cursor: Option<Cursor>, pageSize: nat)
    requires AllKeyed(tables) && pageSize >= 1 && TimestampsRise(tables)
    ensures Keyed(Listed(Walk(tables, f, cursor, pageSize)))
  {
    if tables != [] {
      var p := Fetch(tables[0], f, cursor, pageSize);
      FetchIsGood(tables[0], f, cursor, pageSize);
      WalkUnfolds(tables, f, cursor, pageSize);
      PageIsKeyed(p, tables[0], f, cursor);
      if p.next.Some? {
        assert AllKeyed(tables[1..]) && TimestampsRise(tables[1..]);
        NoOrderTwice(tables[1..], f, p.next, pageSize);
        WalkDescends(tables[1..], f, p.next, pageSize);
        var rest := Listed(Walk(tables[1..], f, p.next, pageSize));
        forall q | q in rest
          ensures forall r | r in p.rows :: r.id != q.id
        {
          assert Wanted(f, p.next, q) && Somewhere(tables[1..], q);
          LaterPageIsAnother(tables, p, q);
        }
        JoinIsKeyed(p.rows, rest);
      }
    }
  }

  lemma LaterPageIsAnother(tables: seq<seq<Row>>, p: Page, q: Row)
    requires tables != [] && TimestampsRise(tables) && Somewhere(tables[1..], q)
    requires Descending(p.rows) && forall r | r in p.rows :: r in tables[0]
    requires p.rows != [] && p.next == Some(Cursor(p.rows[|p.rows| - 1].createdAt, p.rows[|p.rows| - 1].id))
             && Below(q, p.next.value)
    ensures forall r | r in p.rows :: r.id != q.id
  {
    var i :| 0 <= i < |tables[1..]| && q in tables[1..][i];
    assert q in tables[i + 1];
    forall r | r in p.rows
      ensures r.id != q.id
    {
      AboveTheCursor(p, r);
      assert r in tables[0];
    }
  }

  lemma JoinIsKeyed(a: seq<Row>, b: seq<Row>)
    requires Keyed(a) && Keyed(b) && forall q | q in b :: forall r | r in a :: r.id != q.id
    ensures Keyed(a + b)
  {
    forall i, j | 0 <= i < j < |a + b|
      ensures (a + b)[i].id != (a + b)[j].id
    {
      if i < |a| <= j {
        assert a[i] in a && b[j - |a|] in b;
      }
    }
  }

  lemma PageIsKeyed(p: Page, table: seq<Row>, f: Filters, cursor: Option<Cursor>)
    requires GoodPage(p, table, f, cursor) && Keyed(table)
    ensures Keyed(p.rows)
  {
    forall i, j | 0 <= i < j < |p.rows|
      ensures p.rows[i].id != p.rows[j].id
    {
      assert p.rows[i] in table && p.rows[j] in table;
      assert Ahead(p.rows[i], p.rows[j]);
    }
  }

  lemma AboveTheCursor(p: Page, r: Row)
    requires Descending(p.rows) && r in p.rows
    requires p.next == Some(Cursor(p.rows[|p.rows| - 1].createdAt, p.rows[|p.rows| - 1].id))
    ensures !Below(r, p.next.value)
  {
    var i :| 0 <= i < |p.rows| && p.rows[i] == r;
    assert i == |p.rows| - 1 || Ahead(p.rows[i], p.rows[|p.rows| - 1]);
  }

  /** rows[i] is the order's row as the i-th page finds the table, and the filters want it each time. */
  ghost predicate RowsOf(rows: seq<Row>, tables: seq<seq<Row>>, f: Filters, id: nat) {
    |rows| == |tables| && forall i | 0 <= i < |rows| :: rows[i] in tables[i] && rows[i].id == id && Matches(f, rows[i])
  }

  predicate IsListed(pages: seq<Page>, id: nat) {
    exists r | r in Listed(pages) :: r.id == id
  }

  /** A row left for later at one page is still below that page's cursor when the next one is fetched. */
  predicate StaysBelow(rows: seq<Row>, pages: seq<Page>) {
    forall i | 0 <= i < |pages| - 1 && i + 1 < |rows| && pages[i].next.Some? ::
      Below(rows[i], pages[i].next.value) ==> Below(rows[i + 1], pages[i].next.value)
  }

  ghost predicate AllAbove(tables: seq<seq<Row>>, id: nat, c: Cursor) {
    forall i, r | 0 <= i < |tables| && r in tables[i] && r.id == id :: !Below(r, c)
  }

  lemma RisenIsAbove(rows: seq<Row>, tables: seq<seq<Row>>, f: Filters, id: nat, c: Cursor)
    requires RowsOf(rows, tables, f, id) && TimestampsRise(tables) && rows != [] && !Below(rows[0], c)
    ensures AllAbove(tables, id, c)
  {
    forall i, r | 0 <= i < |tables| && r in tables[i] && r.id == id
      ensures !Below(r, c)
    {
      assert rows[0] in tables[0] && rows[0].createdAt <= r.createdAt;
    }
  }

  /** An order whose row is at or above the cursor from then on is not listed any more. */
  lemma MovedUpIsMissed(tables: seq<seq<Row>>, f: Filters, cursor: Cursor, pageSize: nat, id: nat)
    requires AllKeyed(tables) && pageSize >= 1 && AllAbove(tables, id, cursor)
    ensures !IsListed(Walk(tables, f, Some(cursor), pageSize), id)
  {
    WalkDescends(tables, f, Some(cursor), pageSize);
    forall r | r in Listed(Walk(tables, f, Some(cursor), pageSize))
      ensures r.id != id
    {
      assert Wanted(f, Some(cursor), r) && Somewhere(tables, r);
    }
  }

  lemma PrependStays(rows: seq<Row>, p: Page, rest: seq<Page>)
    requires rows != [] && p.next.Some? && rest != [] && |rows| > 1
    ensures StaysBelow(rows, [p] + rest) <==>
            (Below(rows[0], p.next.value) ==> Below(rows[1], p.next.value)) && StaysBelow(rows[1..], rest)
  {
    var pages := [p] + rest;
    assert forall i | 0 <= i < |rest| :: pages[i + 1] == rest[i];
    assert forall i | 0 <= i < |rows| - 1 :: rows[1..][i] == rows[i + 1];
    if StaysBelow(rows, pages) {
      assert pages[0] == p;
      forall i | 0 <= i < |rest| - 1 && i + 1 < |rows[1..]| && rest[i].next.Some?
        && Below(rows[1..][i], rest[i].next.value)
        ensures Below(rows[1..][i + 1], rest[i].next.value)
      {
        assert Below(rows[i + 1], pages[i + 1].next.value);
      }
    }
    if (Below(rows[0], p.next.value) ==> Below(rows[1], p.next.value)) && StaysBelow(rows[1..], rest) {
      forall i | 0 <= i < |pages| - 1 && i + 1 < |rows| && pages[i].next.Some? && Below(rows[i], pages[i].next.value)
        ensures Below(rows[i + 1], pages[i].next.value)
      {
        if i > 0 {
          assert Below(rows[1..][i - 1], rest[i - 1].next.value);
        }
      }
    }
  }

  /** Above the cursor a walk starts from, an order is above every later one: it is never left for later. */
  lemma {:induction false} AboveStaysAbove(rows: seq<Row>, tables: seq<seq<Row>>, f: Filters, cursor: Cursor,
                                           pageSize: nat, id: nat)
    requires AllKeyed(tables) && pageSize >= 1 && AllAbove(tables, id, cursor) && RowsOf(rows, tables, f, id)
    ensures StaysBelow(rows, Walk(tables, f, Some(cursor), pageSize))
  {
    if tables != [] {
      var p := Fetch(tables[0], f, Some(cursor), pageSize);
      WalkUnfolds(tables, f, Some(cursor), pageSize);
      if p.next.Some? {
        FirstCursorSinks(tables[0], f, Some(cursor), pageSize);
        TailsFit(rows, tables, f, id);
        SunkIsAbove(tables, id, p.next.value, cursor);
        AboveStaysAbove(rows[1..], tables[1..], f, p.next.value, pageSize, id);
        var rest := Walk(tables[1..], f, p.next, pageSize);
        if rest != [] {
          assert rows[0] in tables[0];
          PrependStays(rows, p, rest);
        }
      }
    }
  }

  lemma TailsFit(rows: seq<Row>, tables: seq<seq<Row>>, f: Filters, id: nat)
    requires RowsOf(rows, tables, f, id) && AllKeyed(tables) && tables != []
    ensures RowsOf(rows[1..], tables[1..], f, id) && AllKeyed(tables[1..])
    ensures TimestampsRise(tables) ==> TimestampsRise(tables[1..])
  {
    assert forall i | 0 <= i < |tables| - 1 :: tables[1..][i] == tables[i + 1] && rows[1..][i] == rows[i + 1];
  }

  /** Below a lower cursor is below the higher one, so above the higher is above the lower. */
  lemma SunkIsAbove(tables: seq<seq<Row>>, id: nat, next: Cursor, cursor: Cursor)
    requires AllAbove(tables, id, cursor) && CursorBelow(next, cursor)
    ensures AllAbove(tables, id, next)
    ensures tables != [] ==> AllAbove(tables[1..], id, next)
  {
    assert forall i | 0 <= i < |tables| - 1 :: tables[1..][i] == tables[i + 1];
  }

  /**
   With rows saved again between pages, an order that the filters want throughout is listed if and only
   if it starts below the cursor the walk starts from and, whenever a page leaves it for later, is still
   below that page's cursor when the next page is fetched.
   */
  lemma {:induction false} WalkListsIff(rows: seq<Row>, tables: seq<seq<Row>>, f: Filters, cursor: Option<Cursor>,
                                        pageSize: nat, id: nat)
    requires AllKeyed(tables) && pageSize >= 1 && TimestampsRise(tables) && RowsOf(rows, tables, f, id)
    requires Complete(Walk(tables, f, cursor, pageSize))
    ensures tables != []
    ensures IsListed(Walk(tables, f, cursor, pageSize), id) <==>
            (cursor.Some? ==> Below(rows[0], cursor.value)) && StaysBelow(rows, Walk(tables, f, cursor, pageSize))
  {
    var r := rows[0];
    assert r in tables[0];
    if cursor.Some? && !Below(r, cursor.value) {
      RisenIsAbove(rows, tables, f, id, cursor.value);
      MovedUpIsMissed(tables, f, cursor.value, pageSize, id);
    } else {
      var p := Fetch(tables[0], f, cursor, pageSize);
      FetchIsGood(tables[0], f, cursor, pageSize);
      WalkUnfolds(tables, f, cursor, pageSize);
      TailsFit(rows, tables, f, id);
      if r in p.rows {
        PageIsListed(tables, f, cursor, pageSize, r);
        if p.next.Some? {
          NeverLeftAgain(rows, tables, f, p, pageSize, id);
        }
      } else {
        LeftForLater(rows, tables, f, cursor, pageSize, id);
        WalkListsIff(rows[1..], tables[1..], f, p.next, pageSize, id);
        PrependStays(rows, p, Walk(tables[1..], f, p.next, pageSize));
      }
    }
  }

  lemma PageIsListed(tables: seq<seq<Row>>, f: Filters, cursor: Option<Cursor>, pageSize: nat, r: Row)
    requires tables != [] && r in Fetch(tables[0], f, cursor, pageSize).rows
    ensures IsListed(Walk(tables, f, cursor, pageSize), r.id)
  {
    WalkUnfolds(tables, f, cursor, pageSize);
    assert r in Listed(Walk(tables, f, cursor, pageSize));
  }

  /** An order on the first page is never left for later. */
  lemma NeverLeftAgain(rows: seq<Row>, tables: seq<seq<Row>>, f: Filters, p: Page, pageSize: nat, id: nat)
    requires AllKeyed(tables) && pageSize >= 1 && TimestampsRise(tables) && RowsOf(rows, tables, f, id) && tables != []
    requires Descending(p.rows) && rows[0] in p.rows
    requires p.next == Some(Cursor(p.rows[|p.rows| - 1].createdAt, p.rows[|p.rows| - 1].id))
    ensures StaysBelow(rows, [p] + Walk(tables[1..], f, p.next, pageSize))
  {
    var rest := Walk(tables[1..], f, p.next, pageSize);
    TailsFit(rows, tables, f, id);
    AbovePage(rows, tables, f, p, id);
    AboveStaysAbove(rows[1..], tables[1..], f, p.next.value, pageSize, id);
    AboveTheCursor(p, rows[0]);
    if rest != [] {
      PrependStays(rows, p, rest);
    }
  }

  /** What a page shows is at or above its cursor, and stays there. */
  lemma AbovePage(rows: seq<Row>, tables: seq<seq<Row>>, f: Filters, p: Page, id: nat)
    requires TimestampsRise(tables) && RowsOf(rows, tables, f, id) && tables != [] && Descending(p.rows)
             && rows[0] in p.rows
    requires p.next == Some(Cursor(p.rows[|p.rows| - 1].createdAt, p.rows[|p.rows| - 1].id))
    ensures AllAbove(tables[1..], id, p.next.value)
  {
    AboveTheCursor(p, rows[0]);
    RisenIsAbove(rows, tables, f, id, p.next.value);
    assert forall i | 0 <= i < |tables| - 1 :: tables[1..][i] == tables[i + 1];
  }

  /** A wanted order not on the first page is below its cursor, and listed exactly if the rest lists it. */
  lemma LeftForLater(rows: seq<Row>, tables: seq<seq<Row>>, f: Filters, cursor: Option<Cursor>, pageSize: nat, id: nat)
    requires AllKeyed(tables) && pageSize >= 1 && RowsOf(rows, tables, f, id) && tables != []
    requires Wanted(f, cursor, rows[0]) && rows[0] !in Fetch(tables[0], f, cursor, pageSize).rows
    ensures var p := Fetch(tables[0], f, cursor, pageSize);
            p.next.Some? && Below(rows[0], p.next.value) &&
            (IsListed(Walk(tables, f, cursor, pageSize), id) <==> IsListed(Walk(tables[1..], f, p.next, pageSize), id))
  {
    var p := Fetch(tables[0], f, cursor, pageSize);
    FetchIsGood(tables[0], f, cursor, pageSize);
    WalkUnfolds(tables, f, cursor, pageSize);
    assert rows[0] in tables[0];
    var rest := Listed(Walk(tables[1..], f, p.next, pageSize));
    forall r | r in p.rows
      ensures r.id != id
    {
      assert r in tables[0];
      if r.id == id {
        SameIdSameRow(tables[0], r, rows[0]);
      }
    }
    assert forall r :: r in p.rows + rest <==> r in p.rows || r in rest;
  }

  lemma SameIdSameRow(table: seq<Row>, r: Row, q: Row)
    requires Keyed(table) && r in table && q in table && r.id == q.id
    ensures r == q
  {
  }

  // ---------- orders that the filters want at times only ----------

  /** rows[i] is the order's row as the i-th page finds the table, wanted or not. */
  predicate RowsIn(rows: seq<Row>, tables: seq<seq<Row>>, id: nat) {
    |rows| == |tables| && forall i | 0 <= i < |rows| :: rows[i] in tables[i] && rows[i].id == id
  }

  /** The cursor a page starts from. */
  function CursorOf(pages: seq<Page>, cursor: Option<Cursor>, i: nat): Option<Cursor>
    requires i <= |pages|
  {
    if i == 0 then cursor else pages[i - 1].next
  }

  /** The first page that does not leave the order for later. */
  function Deciding(rows: seq<Row>, pages: seq<Page>): nat
    requires |pages| <= |rows|
  {
    if pages == [] then 0
    else if pages[0].next.Some? && Below(rows[0], pages[0].next.value) then 1 + Deciding(rows[1..], pages[1..])
    else 0
  }

  lemma {:induction false} WalkLength(tables: seq<seq<Row>>, f: Filters, cursor: Option<Cursor>, pageSize: nat)
    ensures |Walk(tables, f, cursor, pageSize)| <= |tables|
  {
    if tables != [] {
      WalkUnfolds(tables, f, cursor, pageSize);
      var p := Fetch(tables[0], f, cursor, pageSize);
      if p.next.Some? {
        WalkLength(tables[1..], f, p.next, pageSize);
      }
    }
  }

  lemma LaterRowsIn(rows: seq<Row>, tables: seq<seq<Row>>, id: nat)
    requires RowsIn(rows, tables, id) && AllKeyed(tables) && TimestampsRise(tables) && tables != []
    ensures RowsIn(rows[1..], tables[1..], id) && AllKeyed(tables[1..]) && TimestampsRise(tables[1..])
  {
    assert forall i | 0 <= i < |tables| - 1 :: tables[1..][i] == tables[i + 1] && rows[1..][i] == rows[i + 1];
  }

  /** Not left for later by the first page, the order is on it or nowhere. */
  lemma DecidedNow(rows: seq<Row>, tables: seq<seq<Row>>, f: Filters, cursor: Option<Cursor>, pageSize: nat, id: nat)
    requires AllKeyed(tables) && pageSize >= 1 && TimestampsRise(tables) && RowsIn(rows, tables, id) && tables != []
    requires var p := Fetch(tables[0], f, cursor, pageSize); p.next.Some? ==> !Below(rows[0], p.next.value)
    ensures IsListed(Walk(tables, f, cursor, pageSize), id) <==> Wanted(f, cursor, rows[0])
  {
    var p := Fetch(tables[0], f, cursor, pageSize);
    FetchIsGood(tables[0], f, cursor, pageSize);
    WalkUnfolds(tables, f, cursor, pageSize);
    assert rows[0] in tables[0];
    assert rows[0] in p.rows <==> Wanted(f, cursor, rows[0]);
    if Wanted(f, cursor, rows[0]) {
      PageIsListed(tables, f, cursor, pageSize, rows[0]);
    } else {
      forall r | r in p.rows
        ensures r.id != id
      {
        if r.id == id {
          SameIdSameRow(tables[0], r, rows[0]);
        }
      }
      if p.next.Some? {
        LaterRowsIn(rows, tables, id);
        GoneForGood(rows, tables, id, p.next.value);
        MovedUpIsMissed(tables[1..], f, p.next.value, pageSize, id);
      }
      assert forall r | r in Listed(Walk(tables, f, cursor, pageSize)) :: r.id != id;
    }
  }

  lemma GoneForGood(rows: seq<Row>, tables: seq<seq<Row>>, id: nat, c: Cursor)
    requires RowsIn(rows, tables, id) && TimestampsRise(tables) && tables != [] && !Below(rows[0], c)
    ensures AllAbove(tables[1..], id, c)
  {
    forall i, r | 0 <= i < |tables[1..]| && r in tables[1..][i] && r.id == id
      ensures !Below(r, c)
    {
      assert rows[0] in tables[0] && r in tables[i + 1] && rows[0].createdAt <= r.createdAt;
    }
  }

  /** Left for later by the first page, the order is listed exactly if the rest lists it. */
  lemma DecidedLater(rows: seq<Row>, tables: seq<seq<Row>>, f: Filters, cursor: Option<Cursor>, pageSize: nat, id: nat)
    requires AllKeyed(tables) && pageSize >= 1 && RowsIn(rows, tables, id) && tables != []
    requires var p := Fetch(tables[0], f, cursor, pageSize); p.next.Some? && Below(rows[0], p.next.value)
    ensures var p := Fetch(tables[0], f, cursor, pageSize);
            IsListed(Walk(tables, f, cursor, pageSize), id) <==> IsListed(Walk(tables[1..], f, p.next, pageSize), id)
  {
    var p := Fetch(tables[0], f, cursor, pageSize);
    FetchIsGood(tables[0], f, cursor, pageSize);
    WalkUnfolds(tables, f, cursor, pageSize);
    assert rows[0] in tables[0];
    var rest := Listed(Walk(tables[1..], f, p.next, pageSize));
    forall r | r in p.rows
      ensures r.id != id
    {
      AboveTheCursor(p, r);
      if r.id == id {
        SameIdSameRow(tables[0], r, rows[0]);
      }
    }
    assert forall r :: r in p.rows + rest <==> r in p.rows || r in rest;
  }

  /** The order is listed exactly if the deciding page wants it as it is by then. */
  predicate ListedAsDecided(rows: seq<Row>, pages: seq<Page>, f: Filters, cursor: Option<Cursor>, id: nat) {
    && |pages| <= |rows| && Deciding(rows, pages) < |pages|
    && var n := Deciding(rows, pages);
       (IsListed(pages, id) <==> Wanted(f, CursorOf(pages, cursor, n), rows[n]))
  }

  lemma {:induction false} DecidedByTheRest(rows: seq<Row>, p: Page, rest: seq<Page>, f: Filters,
                                            cursor: Option<Cursor>, id: nat)
    requires rows != [] && ListedAsDecided(rows[1..], rest, f, p.next, id)
    requires p.next.Some? && Below(rows[0], p.next.value) && (IsListed([p] + rest, id) <==> IsListed(rest, id))
    ensures ListedAsDecided(rows, [p] + rest, f, cursor, id)
  {
    assert ([p] + rest)[1..] == rest;
  }

  /**
   Whatever is saved and whatever the filters want of it by then: an order is listed if and only if the
   first page that does not leave it for later wants it as it is at that moment.
   */
  lemma {:induction false} ListedIffWantedOnce(rows: seq<Row>, tables: seq<seq<Row>>, f: Filters,
                                               cursor: Option<Cursor>, pageSize: nat, id: nat)
    requires AllKeyed(tables) && pageSize >= 1 && TimestampsRise(tables) && RowsIn(rows, tables, id)
    requires Complete(Walk(tables, f, cursor, pageSize))
    ensures ListedAsDecided(rows, Walk(tables, f, cursor, pageSize), f, cursor, id)
  {
    var p := Fetch(tables[0], f, cursor, pageSize);
    WalkUnfolds(tables, f, cursor, pageSize);
    if p.next.Some? && Below(rows[0], p.next.value) {
      LaterRowsIn(rows, tables, id);
      DecidedLater(rows, tables, f, cursor, pageSize, id);
      ListedIffWantedOnce(rows[1..], tables[1..], f, p.next, pageSize, id);
      DecidedByTheRest(rows, p, Walk(tables[1..], f, p.next, pageSize), f, cursor, id);
    } else {
      WalkLength(tables, f, cursor, pageSize);
      DecidedNow(rows, tables, f, cursor, pageSize, id);
    }
  }

  // ---------- an order the walk misses ----------

  const NEWER := Row(1, 30, 0, PendingPayment, None)
  const OLDER := Row(2, 20, 0, PendingPayment, None)
  const SETTLED := Row(2, 40, 0, Confirmed, None)

  const FIRST := [NEWER, OLDER]
  const SECOND := [NEWER, SETTLED]
  const AFTER := Cursor(30, 1)

  lemma FirstPage()
    ensures Fetch(FIRST, NO_FILTERS, None, 1) == Page([NEWER], true, Some(AFTER))
  {
    assert FIRST[1..] == [OLDER] && [OLDER][1..] == [];
    assert Select([OLDER], NO_FILTERS, None) == [OLDER];
    assert Select(FIRST, NO_FILTERS, None) == FIRST;
    assert Sort([OLDER]) == [OLDER];
    assert Listing(FIRST, NO_FILTERS, None) == FIRST;
  }

  lemma SecondPage()
    ensures Fetch(SECOND, NO_FILTERS, Some(AFTER), 1) == Page([], false, None)
  {
    assert SECOND[1..] == [SETTLED] && [SETTLED][1..] == [];
    assert Select([SETTLED], NO_FILTERS, Some(AFTER)) == [];
    assert Select(SECOND, NO_FILTERS, Some(AFTER)) == [];
  }

  /**
   Two orders, pages of one: the older is settled, and so saved again, after the first page. The walk
   ends without it.
   */
  lemma SettledBetweenPagesIsMissed()
    ensures AllKeyed([FIRST, SECOND]) && TimestampsRise([FIRST, SECOND])
    ensures RowsOf([OLDER, SETTLED], [FIRST, SECOND], NO_FILTERS, 2)
    ensures Complete(Walk([FIRST, SECOND], NO_FILTERS, None, 1))
            && !IsListed(Walk([FIRST, SECOND], NO_FILTERS, None, 1), 2)
  {
    TwoTables();
    TwoPages();
    assert forall r | r in [NEWER] :: r.id != 2;
  }

  lemma TwoTables()
    ensures AllKeyed([FIRST, SECOND]) && TimestampsRise([FIRST, SECOND])
    ensures RowsOf([OLDER, SETTLED], [FIRST, SECOND], NO_FILTERS, 2)
  {
    assert OLDER == FIRST[1] && SETTLED == SECOND[1];
  }

  lemma TwoPages()
    ensures Complete(Walk([FIRST, SECOND], NO_FILTERS, None, 1))
    ensures Listed(Walk([FIRST, SECOND], NO_FILTERS, None, 1)) == [NEWER]
  {
    var tables := [FIRST, SECOND];
    FirstPage();
    SecondPage();
    assert tables[1..] == [SECOND];
    WalkUnfolds(tables, NO_FILTERS, None, 1);
    WalkUnfolds(tables[1..], NO_FILTERS, Some(AFTER), 1);
  }

  /** Each cursor is strictly below the one before; the first is below the one the walk came with. */
  lemma {:induction false} CursorsDescend(tables: seq<seq<Row>>, f: Filters, cursor: Option<Cursor>, pageSize: nat)
    requires AllKeyed(tables) && pageSize >= 1
    ensures CursorsSink(cursor, Walk(tables, f, cursor, pageSize))
  {
    if tables != [] {
      var p := Fetch(tables[0], f, cursor, pageSize);
      WalkUnfolds(tables, f, cursor, pageSize);
      FirstCursorSinks(tables[0], f, cursor, pageSize);
      if p.next.Some? {
        assert AllKeyed(tables[1..]);
        CursorsDescend(tables[1..], f, p.next, pageSize);
        PrependSinks(cursor, p, Walk(tables[1..], f, p.next, pageSize));
      }
    }
  }

  predicate CursorsSink(from: Option<Cursor>, pages: seq<Page>) {
    forall i | 0 <= i < |pages| :: CursorSinks(CursorBefore(from, pages, i), pages[i].next)
  }

  function CursorBefore(from: Option<Cursor>, pages: seq<Page>, i: nat): Option<Cursor>
    requires i <= |pages|
  {
    if i == 0 then from else pages[i - 1].next
  }

  lemma PrependSinks(from: Option<Cursor>, p: Page, rest: seq<Page>)
    requires CursorSinks(from, p.next) && CursorsSink(p.next, rest)
    ensures CursorsSink(from, [p] + rest)
  {
    var pages := [p] + rest;
    forall i | 0 <= i < |pages|
      ensures CursorSinks(CursorBefore(from, pages, i), pages[i].next)
    {
      if i > 0 {
        assert pages[i] == rest[i - 1] && CursorBefore(from, pages, i) == CursorBefore(p.next, rest, i - 1);
      }
    }
  }

  lemma FirstCursorSinks(table: seq<Row>, f: Filters, cursor: Option<Cursor>, pageSize: nat)
    requires Keyed(table) && pageSize >= 1
    ensures CursorSinks(cursor, Fetch(table, f, cursor, pageSize).next)
  {
    var p := Fetch(table, f, cursor, pageSize);
    FetchIsGood(table, f, cursor, pageSize);
    if p.next.Some? {
      assert p.rows[|p.rows| - 1] in p.rows;
    }
  }

  predicate CursorSinks(from: Option<Cursor>, next: Option<Cursor>) {
    from.Some? && next.Some? ==> CursorBelow(next.value, from.value)
  }

  predicate CursorBelow(a: Cursor, b: Cursor) {
    a.createdAt < b.createdAt || (a.createdAt == b.createdAt && a.id < b.id)
  }

  // ---------- a table nobody writes to ----------

  lemma EmptyAlike(a: seq<Row>, b: seq<Row>)
    requires forall r :: r in a <==> r in b
    ensures a == [] <==> b == []
  {
    if a != [] {
      assert a[0] in b;
    }
    if b != [] {
      assert b[0] in a;
    }
  }

  /** A strictly descending sequence is fixed by its members. */
  lemma {:induction false} SameMembersSameOrder(a: seq<Row>, b: seq<Row>)
    requires Descending(a) && Descending(b) && forall r :: r in a <==> r in b
    ensures a == b
  {
    EmptyAlike(a, b);
    if a != [] {
      assert a[0] in a && b[0] in b;
      assert a[0] == b[0];
      assert a == [a[0]] + a[1..] && b == [b[0]] + b[1..];
      TailMembers(a, b);
      SameMembersSameOrder(a[1..], b[1..]);
    }
  }

  lemma TailMembers(a: seq<Row>, b: seq<Row>)
    requires Descending(a) && Descending(b) && a != [] && b != [] && a[0] == b[0] && forall r :: r in a <==> r in b
    ensures Descending(a[1..]) && Descending(b[1..]) && forall r :: r in a[1..] <==> r in b[1..]
  {
    forall r
      ensures r in a[1..] <==> r in a && r != a[0]
    {
      if r in a[1..] {
        assert Ahead(a[0], r);
      }
    }
    forall r
      ensures r in b[1..] <==> r in b && r != b[0]
    {
      if r in b[1..] {
        assert Ahead(b[0], r);
      }
    }
  }

  /** The rows after the n-th of a descending listing are those of it below the n-th. */
  lemma DropIsBelow(all: seq<Row>, n: nat, r: Row)
    requires Descending(all) && 1 <= n <= |all|
    ensures r in all[n..] <==> r in all && Below(r, Cursor(all[n - 1].createdAt, all[n - 1].id))
  {
    if r in all {
      var i :| 0 <= i < |all| && all[i] == r;
      if i >= n {
        assert all[n..][i - n] == r;
        assert Ahead(all[n - 1], all[i]);
      } else {
        assert i == n - 1 || Ahead(all[i], all[n - 1]);
        assert forall j | n <= j < |all| :: Ahead(all[i], all[j]);
      }
    }
  }

  lemma BelowIsTransitive(r: Row, a: Cursor, b: Cursor)
    requires Below(r, a) && CursorBelow(a, b)
    ensures Below(r, b)
  {
  }

  /** A narrower listing, by what it is narrower by. */
  lemma NarrowerListing(all: seq<Row>, rest: seq<Row>, n: nat)
    requires Descending(all) && Descending(rest) && 1 <= n <= |all|
    requires forall r :: r in rest <==> r in all && Below(r, Cursor(all[n - 1].createdAt, all[n - 1].id))
    ensures rest == all[n..]
  {
    forall r
      ensures r in rest <==> r in all[n..]
    {
      DropIsBelow(all, n, r);
    }
    assert Descending(all[n..]);
    SameMembersSameOrder(rest, all[n..]);
  }

  /** Past the first page's cursor lies exactly the rest of the listing. */
  lemma RestOfListing(table: seq<Row>, f: Filters, cursor: Option<Cursor>, pageSize: nat)
    requires Keyed(table) && 1 <= pageSize < |Listing(table, f, cursor)|
    ensures Listing(table, f, Fetch(table, f, cursor, pageSize).next) == Listing(table, f, cursor)[pageSize..]
  {
    var all := Listing(table, f, cursor);
    var next := Cursor(all[pageSize - 1].createdAt, all[pageSize - 1].id);
    ListingIs(table, f, cursor);
    ListingIs(table, f, Some(next));
    assert all[pageSize - 1] in all;
    forall r
      ensures r in Listing(table, f, Some(next)) <==> r in all && Below(r, next)
    {
      if cursor.Some? && Below(r, next) {
        BelowIsTransitive(r, next, cursor.value);
      }
    }
    NarrowerListing(all, Listing(table, f, Some(next)), pageSize);
    assert Fetch(table, f, cursor, pageSize).next == Some(next);
  }

  /** The page is the top of the listing, and has a cursor exactly when the listing goes on. */
  lemma FetchTakes(table: seq<Row>, f: Filters, cursor: Option<Cursor>, pageSize: nat)
    requires pageSize >= 1
    ensures Fetch(table, f, cursor, pageSize).rows == TakeAtMost(Listing(table, f, cursor), pageSize)
    ensures Fetch(table, f, cursor, pageSize).next.Some? <==> |Listing(table, f, cursor)| > pageSize
  {
    var rows := FindPage(table, f, cursor, pageSize);
    assert |rows| > pageSize ==> rows[..pageSize] == Listing(table, f, cursor)[..pageSize];
  }

  function PagesFor(rows: nat, pageSize: nat): nat
    requires pageSize >= 1
  {
    if rows <= pageSize then 1 else 1 + PagesFor(rows - pageSize, pageSize)
  }

  /** The rest of a quiet walk, given that its first page has a cursor. */
  lemma QuietStep(table: seq<Row>, f: Filters, cursor: Option<Cursor>, pageSize: nat)
    requires Keyed(table) && pageSize >= 1
    ensures
      var all, p := Listing(table, f, cursor), Fetch(table, f, cursor, pageSize);
      if |all| <= pageSize then p.next.None? && p.rows == all
      else p.next.Some? && p.rows == all[..pageSize] && Listing(table, f, p.next) == all[pageSize..]
  {
    FetchTakes(table, f, cursor, pageSize);
    if |Listing(table, f, cursor)| > pageSize {
      RestOfListing(table, f, cursor, pageSize);
    }
  }

  /** The table as so many pages find it when nobody writes. */
  function Unwritten(table: seq<Row>, pages: nat): (tables: seq<seq<Row>>)
    ensures |tables| == pages
    ensures pages > 0 ==> tables[0] == table && tables[1..] == Unwritten(table, pages - 1)
  {
    if pages == 0 then [] else [table] + Unwritten(table, pages - 1)
  }

  /** With no writes at all the walk ends after as many pages as the rows fill, and lists exactly the listing. */
  lemma {:induction false} QuietWalk(table: seq<Row>, n: nat, f: Filters, cursor: Option<Cursor>, pageSize: nat)
    requires Keyed(table) && pageSize >= 1 && n >= PagesFor(|Listing(table, f, cursor)|, pageSize)
    ensures IsQuiet(Walk(Unwritten(table, n), f, cursor, pageSize), Listing(table, f, cursor), pageSize)
    decreases n
  {
    QuietStep(table, f, cursor, pageSize);
    if |Listing(table, f, cursor)| <= pageSize {
      QuietEnd(table, n, f, cursor, pageSize);
    } else {
      QuietWalk(table, n - 1, f, Fetch(table, f, cursor, pageSize).next, pageSize);
      QuietNext(table, n, f, cursor, Fetch(table, f, cursor, pageSize), Listing(table, f, cursor), pageSize);
    }
  }

  lemma QuietEnd(table: seq<Row>, n: nat, f: Filters, cursor: Option<Cursor>, pageSize: nat)
    requires Keyed(table) && 1 <= n && |Listing(table, f, cursor)| <= pageSize && 1 <= pageSize
    ensures IsQuiet(Walk(Unwritten(table, n), f, cursor, pageSize), Listing(table, f, cursor), pageSize)
  {
    QuietStep(table, f, cursor, pageSize);
    WalkUnfolds(Unwritten(table, n), f, cursor, pageSize);
  }

  lemma QuietNext(table: seq<Row>, n: nat, f: Filters, cursor: Option<Cursor>, p: Page, all: seq<Row>, pageSize: nat)
    requires 1 <= n && 1 <= pageSize < |all| && p == Fetch(table, f, cursor, pageSize) && p.next.Some?
             && p.rows == all[..pageSize]
    requires IsQuiet(Walk(Unwritten(table, n - 1), f, p.next, pageSize), all[pageSize..], pageSize)
    ensures IsQuiet(Walk(Unwritten(table, n), f, cursor, pageSize), all, pageSize)
  {
    var rest := Walk(Unwritten(table, n - 1), f, p.next, pageSize);
    PrependQuiet(p, rest, all, pageSize);
    assert Walk(Unwritten(table, n), f, cursor, pageSize) == [p] + rest;
  }

  lemma PrependQuiet(p: Page, rest: seq<Page>, all: seq<Row>, pageSize: nat)
    requires 1 <= pageSize < |all| && p.rows == all[..pageSize] && IsQuiet(rest, all[pageSize..], pageSize)
    ensures IsQuiet([p] + rest, all, pageSize)
  {
    var pages := [p] + rest;
    assert pages[1..] == rest;
    assert all == all[..pageSize] + all[pageSize..];
  }

  /** The pages of a finished walk over this listing. */
  predicate IsQuiet(pages: seq<Page>, all: seq<Row>, pageSize: nat)
    requires pageSize >= 1
  {
    Complete(pages) && |pages| == PagesFor(|all|, pageSize) && Listed(pages) == all
  }
}
