/** The read side of the catalogue in `backend/main.py`: the product listing with its category
  * filter, text search and pagination, the search endpoint, the category list and the
  * dashboard counts. Rows are product and order dicts as the database returns them. */
module Catalogue {
  import opened Wrappers
  import opened Text
  import opened Models

  /** A text column of a product dict: missing, `None`, or a string. */
  datatype Field = Missing | Null | Str(s: string)

  /** `p.get(key, '')`: the string, `''` when missing, and `None` when stored as `None`. */
  function Get(f: Field): Option<string> {
    match f
    case Missing => Some("")
    case Null => None
    case Str(s) => Some(s)
  }

  /** The product columns the catalogue endpoints read; `stock` is absent when the key is. */
  datatype Row = Row(id: int, name: Field, description: Field, category: Field, stock: Option<int>)

  const InternalError := 500

  /** What a filter asks of a row. */
  datatype Filter =
    | ByCategory(category: string)   // `p.get('category', '').lower() == category.lower()`
    | ByText(needle: string)         // lowered needle in name or description
    | ByTextOrCategory(needle: string) // lowered needle in name, description or category

  /** `needle in value.lower()`, failing when the value is `None` (`AttributeError`). */
  function FoundIn(needle: string, f: Field): Result<bool, int> {
    if Get(f).None? then Err(InternalError) else Ok(Contains(Lower(Get(f).value), needle))
  }

  /** Python's `a or b` over two tests that may raise: `b` is evaluated only when `a` is false. */
  function EitherFound(a: Result<bool, int>, b: Result<bool, int>): (r: Result<bool, int>)
    ensures r == Ok(true) <==> a == Ok(true) || (a == Ok(false) && b == Ok(true))
    ensures r.Err? <==> a.Err? || (a == Ok(false) && b.Err?)
  {
    match a
    case Err(e) => Err(e)
    case Ok(true) => Ok(true)
    case Ok(false) => b
  }

  /** Whether one row passes, evaluated left to right with Python's short-circuit `or`. */
  function Matches(row: Row, filter: Filter): Result<bool, int> {
    match filter
    case ByCategory(c) =>
      if Get(row.category).None? then Err(InternalError)
      else Ok(Lower(Get(row.category).value) == Lower(c))
    case ByText(q) =>
      EitherFound(FoundIn(q, row.name), FoundIn(q, row.description))
    case ByTextOrCategory(q) =>
      EitherFound(FoundIn(q, row.name), EitherFound(FoundIn(q, row.description), FoundIn(q, row.category)))
  }

  /** `[p for p in rows if ...]`: the passing rows in order, or the error of the first row
    * whose test raises. */
  function FilterRows(rows: seq<Row>, filter: Filter): Result<seq<Row>, int>
    decreases |rows|
  {
    if |rows| == 0 then Ok([])
    else
      match Matches(rows[0], filter)
      case Err(e) => Err(e)
      case Ok(keep) =>
        match FilterRows(rows[1..], filter)
        case Err(e) => Err(e)
        case Ok(rest) => Ok(if keep then [rows[0]] + rest else rest)
  }

  /** `a` is `b` with some elements left out, order kept. */
  predicate IsSubseq(a: seq<Row>, b: seq<Row>)
    decreases |b|
  {
    if |a| == 0 then true
    else if |b| == 0 then false
    else if a[0] == b[0] then IsSubseq(a[1..], b[1..])
    else IsSubseq(a, b[1..])
  }

  /** Adding an element in front of the larger list keeps a sublist a sublist. */
  lemma {:induction false} SubseqCons(x: Row, a: seq<Row>, b: seq<Row>)
    requires IsSubseq(a, b)
    ensures IsSubseq(a, [x] + b)
    decreases |b|, 1
  {
    assert ([x] + b)[1..] == b;
    if |a| > 0 && a[0] == x {
      SubseqTail(a, b);
    }
  }

  /** Dropping the first element of a sublist keeps it a sublist. */
  lemma {:induction false} SubseqTail(a: seq<Row>, b: seq<Row>)
    requires |a| > 0 && IsSubseq(a, b)
    ensures IsSubseq(a[1..], b)
    decreases |b|, 0
  {
    if a[0] != b[0] {
      SubseqTail(a, b[1..]);
    }
    SubseqCons(b[0], a[1..], b[1..]);
    assert [b[0]] + b[1..] == b;
  }

  lemma {:induction false} SubseqTrans(a: seq<Row>, b: seq<Row>, c: seq<Row>)
    requires IsSubseq(a, b) && IsSubseq(b, c)
    ensures IsSubseq(a, c)
    decreases |c|
  {
    if |a| > 0 {
      if b[0] == c[0] {
        if a[0] == b[0] {
          SubseqTrans(a[1..], b[1..], c[1..]);
        } else {
          SubseqTrans(a, b[1..], c[1..]);
        }
      } else {
        SubseqTrans(a, b, c[1..]);
        if a[0] == c[0] {
          SubseqTail(a, c[1..]);
        }
      }
    }
  }

  lemma {:induction false} SubseqRefl(a: seq<Row>)
    ensures IsSubseq(a, a)
    decreases |a|
  {
    if |a| > 0 {
      SubseqRefl(a[1..]);
    }
  }

  /** Every run `s[lo..hi]` of a list is a sublist of it. */
  lemma {:induction false} RunIsSubseq(s: seq<Row>, lo: nat, hi: nat)
    requires lo <= hi <= |s|
    ensures IsSubseq(s[lo..hi], s)
    decreases |s|
  {
    if |s| > 0 {
      if lo > 0 {
        RunIsSubseq(s[1..], lo - 1, hi - 1);
        assert s[1..][lo - 1..hi - 1] == s[lo..hi];
        SubseqCons(s[0], s[lo..hi], s[1..]);
        assert [s[0]] + s[1..] == s;
      } else if hi > 0 {
        RunIsSubseq(s[1..], 0, hi - 1);
        assert s[1..][0..hi - 1] == s[lo..hi][1..];
      }
    }
  }

  /** A filter succeeds exactly when no row's test raises; it then keeps exactly the passing
    * rows, in their order. */
  lemma {:induction false} FilterRowsSpec(rows: seq<Row>, filter: Filter)
    ensures FilterRows(rows, filter).Ok? <==> forall k :: 0 <= k < |rows| ==> Matches(rows[k], filter).Ok?
    ensures FilterRows(rows, filter).Err? ==> FilterRows(rows, filter).error == InternalError
    ensures FilterRows(rows, filter).Ok? ==>
              (forall x :: x in FilterRows(rows, filter).value <==> x in rows && Matches(x, filter) == Ok(true))
              && IsSubseq(FilterRows(rows, filter).value, rows)
    decreases |rows|
  {
    if |rows| > 0 {
      FilterRowsSpec(rows[1..], filter);
      assert rows == [rows[0]] + rows[1..];
      if FilterRows(rows, filter).Ok? {
        var rest := FilterRows(rows[1..], filter).value;
        if Matches(rows[0], filter) == Ok(true) {
          assert ([rows[0]] + rest)[1..] == rest;
        } else {
          SubseqCons(rows[0], rest, rows[1..]);
        }
      }
    }
  }

  /** Python's normalisation of one slice bound against a length. */
  function PyBound(i: int, n: nat): (r: nat)
    ensures r <= n
    ensures 0 <= i ==> r == (if i < n then i else n)
    ensures i < 0 ==> r == (if i + n < 0 then 0 else i + n)
  {
    if i < 0 then (if i + n < 0 then 0 else i + n) else if i > n then n else i
  }

  /** `s[a:b]` with Python's rules for negative and out-of-range bounds: the run of `s` that
    * starts at the normalised `a` and ends at the normalised `b`, empty when they cross. */
  function PySlice(s: seq<Row>, a: int, b: int): (r: seq<Row>)
    ensures PyBound(a, |s|) + |r| <= |s| && r == s[PyBound(a, |s|)..PyBound(a, |s|) + |r|]
    ensures |r| == (if PyBound(a, |s|) < PyBound(b, |s|) then PyBound(b, |s|) - PyBound(a, |s|) else 0)
  {
    var lo := PyBound(a, |s|);
    var hi := PyBound(b, |s|);
    if lo < hi then s[lo..hi] else []
  }

  /** `s[skip:skip + limit]` is a sublist of `s`; for a non-negative limit it holds at most
    * `limit` rows, and with a non-negative skip as well it is the run starting at `skip`. */
  lemma PageBounds(s: seq<Row>, skip: int, limit: int)
    ensures 0 <= limit ==> |PySlice(s, skip, skip + limit)| <= limit
    ensures IsSubseq(PySlice(s, skip, skip + limit), s)
    ensures 0 <= skip && 0 <= limit ==>
              PySlice(s, skip, skip + limit)
              == s[(if skip < |s| then skip else |s|)..(if skip + limit < |s| then skip + limit else |s|)]
  {
    var r := PySlice(s, skip, skip + limit);
    RunIsSubseq(s, PyBound(skip, |s|), PyBound(skip, |s|) + |r|);
  }

  /** The category and search stages of `get_products`: a truthy category keeps the rows whose
    * lowered category equals it lowered, then a truthy search keeps those whose lowered name or
    * description contains it lowered. */
  function Filtered(rows: seq<Row>, category: Option<string>, search: Option<string>): Result<seq<Row>, int> {
    var byCategory := if category.Some? && category.value != "" then FilterRows(rows, ByCategory(category.value)) else Ok(rows);
    if byCategory.Err? then Err(InternalError)
    else if search.Some? && search.value != "" then FilterRows(byCategory.value, ByText(Lower(search.value)))
    else byCategory
  }

  /** The filtered rows are an order-preserving sublist of the catalogue holding exactly the rows
    * that pass both active filters. */
  lemma FilteredSpec(rows: seq<Row>, category: Option<string>, search: Option<string>)
    requires Filtered(rows, category, search).Ok?
    ensures IsSubseq(Filtered(rows, category, search).value, rows)
    ensures forall x :: x in Filtered(rows, category, search).value <==>
              x in rows
              && (category.Some? && category.value != "" ==> Matches(x, ByCategory(category.value)) == Ok(true))
              && (search.Some? && search.value != "" ==> Matches(x, ByText(Lower(search.value))) == Ok(true))
  {
    if category.Some? && category.value != "" {
      FilterRowsSpec(rows, ByCategory(category.value));
    } else {
      SubseqRefl(rows);
    }
    var mid := if category.Some? && category.value != "" then FilterRows(rows, ByCategory(category.value)).value else rows;
    if search.Some? && search.value != "" {
      FilterRowsSpec(mid, ByText(Lower(search.value)));
      SubseqTrans(Filtered(rows, category, search).value, mid, rows);
    }
  }

  /** `get_products(skip, limit, category, search)`: the filtered rows sliced
    * `[skip:skip + limit]`; any exception becomes a 500 answer. */
  function GetProducts(rows: seq<Row>, skip: int, limit: int, category: Option<string>, search: Option<string>)
    : Result<seq<Row>, int>
  {
    match Filtered(rows, category, search)
    case Err(_) => Err(InternalError)
    case Ok(f) => Ok(PySlice(f, skip, skip + limit))
  }

  /** For a non-negative limit a page holds at most `limit` rows; in every case its rows each
    * pass both active filters and form an order-preserving sublist of the catalogue; with
    * non-negative arguments it is the run of the filtered rows starting at `skip`. */
  lemma GetProductsSpec(rows: seq<Row>, skip: int, limit: int, category: Option<string>, search: Option<string>)
    requires GetProducts(rows, skip, limit, category, search).Ok?
    ensures 0 <= limit ==> |GetProducts(rows, skip, limit, category, search).value| <= limit
    ensures IsSubseq(GetProducts(rows, skip, limit, category, search).value, rows)
    ensures forall x :: x in GetProducts(rows, skip, limit, category, search).value ==>
              x in rows
              && (category.Some? && category.value != "" ==> Matches(x, ByCategory(category.value)) == Ok(true))
              && (search.Some? && search.value != "" ==> Matches(x, ByText(Lower(search.value))) == Ok(true))
    ensures var f := Filtered(rows, category, search).value;
            0 <= skip && 0 <= limit ==>
              GetProducts(rows, skip, limit, category, search).value
              == f[(if skip < |f| then skip else |f|)..(if skip + limit < |f| then skip + limit else |f|)]
  {
    var f := Filtered(rows, category, search).value;
    var page := PySlice(f, skip, skip + limit);
    FilteredSpec(rows, category, search);
    PageBounds(f, skip, limit);
    SubseqTrans(page, f, rows);
    forall x | x in page ensures x in f {
      var i :| 0 <= i < |page| && page[i] == x;
      assert f[PyBound(skip, |f|) + i] == x;
    }
  }

  /** `limit` is not constrained to be non-negative: with `skip = 0` and `limit = -1` the slice
    * `[0:-1]` returns every filtered row but the last. */
  lemma NegativeLimitPage(rows: seq<Row>)
    requires |rows| > 0
    ensures GetProducts(rows, 0, -1, None, None) == Ok(rows[..|rows| - 1])
  {
  }

  /** `search_products(q, limit)`: the rows matching by name, description or category, then
    * `[:limit]`, which for a negative limit drops rows from the end. */
  function SearchProducts(rows: seq<Row>, q: string, limit: int): Result<seq<Row>, int> {
    match FilterRows(rows, ByTextOrCategory(Lower(q)))
    case Err(_) => Err(InternalError)
    case Ok(found) => Ok(PySlice(found, 0, limit))
  }

  /** The search returns the first `limit` matches (or all but the last `-limit` for a negative
    * limit), each of them a catalogue row that matches. */
  lemma SearchSpec(rows: seq<Row>, q: string, limit: int)
    requires SearchProducts(rows, q, limit).Ok?
    ensures var found := FilterRows(rows, ByTextOrCategory(Lower(q))).value;
            var n := |found|;
            SearchProducts(rows, q, limit).value
            == found[..(if limit >= 0 then (if limit < n then limit else n) else (if limit + n < 0 then 0 else limit + n))]
    ensures forall x :: x in SearchProducts(rows, q, limit).value ==>
              x in rows && Matches(x, ByTextOrCategory(Lower(q))) == Ok(true)
  {
    var found := FilterRows(rows, ByTextOrCategory(Lower(q))).value;
    FilterRowsSpec(rows, ByTextOrCategory(Lower(q)));
    var r := SearchProducts(rows, q, limit).value;
    var hi := PyBound(limit, |found|);
    assert r == found[..hi];
    forall x | x in r ensures x in found {
      var i :| 0 <= i < |r| && r[i] == x;
      assert found[i] == x;
    }
  }

  /** Python's string order: by code point, a proper prefix first. */
  predicate LexLess(a: string, b: string)
    decreases |a|
  {
    if |a| == 0 then |b| > 0
    else |b| > 0 && (a[0] < b[0] || (a[0] == b[0] && LexLess(a[1..], b[1..])))
  }

  lemma {:induction false} LexIrreflexive(a: string)
    ensures !LexLess(a, a)
    decreases |a|
  {
    if |a| > 0 {
      LexIrreflexive(a[1..]);
    }
  }

  lemma {:induction false} LexTotal(a: string, b: string)
    requires a != b
    ensures LexLess(a, b) || LexLess(b, a)
    decreases |a|
  {
    if |a| > 0 && |b| > 0 && a[0] == b[0] {
      assert a[1..] != b[1..] by {
        assert a == [a[0]] + a[1..] && b == [b[0]] + b[1..];
      }
      LexTotal(a[1..], b[1..]);
    }
  }

  lemma {:induction false} LexTrans(a: string, b: string, c: string)
    requires LexLess(a, b) && LexLess(b, c)
    ensures LexLess(a, c)
    decreases |a|
  {
    if |a| > 0 && a[0] == b[0] && b[0] == c[0] {
      LexTrans(a[1..], b[1..], c[1..]);
    }
  }

  /** Strictly increasing, hence also free of duplicates. */
  predicate StrictlySorted(xs: seq<string>) {
    forall i, j :: 0 <= i < j < |xs| ==> LexLess(xs[i], xs[j])
  }

  /** Insert `c` into a strictly sorted list unless already present. */
  function Insert(xs: seq<string>, c: string): seq<string>
    decreases |xs|
  {
    if |xs| == 0 then [c]
    else if c == xs[0] then xs
    else if LexLess(c, xs[0]) then [c] + xs
    else [xs[0]] + Insert(xs[1..], c)
  }

  lemma {:induction false} InsertSpec(xs: seq<string>, c: string)
    requires StrictlySorted(xs)
    ensures StrictlySorted(Insert(xs, c))
    ensures forall y :: y in Insert(xs, c) <==> y in xs || y == c
    decreases |xs|
  {
    if |xs| > 0 && c != xs[0] {
      if LexLess(c, xs[0]) {
        forall j | 0 < j < |xs| ensures LexLess(c, xs[j]) {
          LexTrans(c, xs[0], xs[j]);
        }
        assert forall i :: 0 < i < |[c] + xs| ==> ([c] + xs)[i] == xs[i - 1];
      } else {
        LexTotal(c, xs[0]);
        var rest := Insert(xs[1..], c);
        InsertSpec(xs[1..], c);
        assert xs == [xs[0]] + xs[1..];
        forall y | y in rest ensures LexLess(xs[0], y) {
          if y != c {
            var j :| 0 <= j < |xs[1..]| && xs[1..][j] == y;
            assert xs[j + 1] == y;
          }
        }
        var r := [xs[0]] + rest;
        forall i, j | 0 <= i < j < |r| ensures LexLess(r[i], r[j]) {
          if i == 0 {
            assert r[j] == rest[j - 1] && rest[j - 1] in rest;
          } else {
            assert r[i] == rest[i - 1] && r[j] == rest[j - 1];
          }
        }
      }
    }
  }

  /** The truthy categories of the rows (`if p.get('category')`). */
  predicate HasCategory(rows: seq<Row>, c: string) {
    exists k :: 0 <= k < |rows| && rows[k].category == Str(c) && c != ""
  }

  /** `sorted(set(p.get('category', '') for p in rows if p.get('category')))`. */
  function Categories(rows: seq<Row>): seq<string>
    decreases |rows|
  {
    if |rows| == 0 then []
    else
      var rest := Categories(rows[..|rows| - 1]);
      var last := rows[|rows| - 1].category;
      if last.Str? && last.s != "" then Insert(rest, last.s) else rest
  }

  /** The category list is strictly sorted, so free of duplicates, and holds exactly the
    * non-empty categories that occur. */
  lemma {:induction false} CategoriesSpec(rows: seq<Row>)
    ensures StrictlySorted(Categories(rows))
    ensures forall c :: c in Categories(rows) <==> HasCategory(rows, c)
    decreases |rows|
  {
    if |rows| > 0 {
      var init := rows[..|rows| - 1];
      CategoriesSpec(init);
      var last := rows[|rows| - 1].category;
      if last.Str? && last.s != "" {
        InsertSpec(Categories(init), last.s);
      }
      forall c ensures HasCategory(rows, c) <==> HasCategory(init, c) || (last == Str(c) && c != "") {
        if HasCategory(init, c) {
          var k :| 0 <= k < |init| && init[k].category == Str(c) && c != "";
          assert rows[k] == init[k];
        }
        if HasCategory(rows, c) {
          var k :| 0 <= k < |rows| && rows[k].category == Str(c) && c != "";
          if k < |init| {
            assert init[k] == rows[k];
          }
        }
      }
    }
  }

  /** An order dict as the dashboard reads it: its status and `total_amount` (absent when the
    * key is). */
  datatype OrderRow = OrderRow(status: Option<string>, totalAmount: Option<int>)

  /** `o.get('total_amount', 0)`. */
  function Amount(o: OrderRow): int {
    if o.totalAmount.Some? then o.totalAmount.value else 0
  }

  /** The statuses whose totals count as revenue. */
  predicate Earning(o: OrderRow) {
    o.status.Some?
    && o.status.value in {StatusValue(Confirmed), StatusValue(Shipped), StatusValue(Delivered)}
  }

  predicate IsPending(o: OrderRow) {
    o.status == Some(StatusValue(Pending))
  }

  function PendingCount(orders: seq<OrderRow>): nat
    decreases |orders|
  {
    if |orders| == 0 then 0
    else PendingCount(orders[..|orders| - 1]) + (if IsPending(orders[|orders| - 1]) then 1 else 0)
  }

  function Revenue(orders: seq<OrderRow>): int
    decreases |orders|
  {
    if |orders| == 0 then 0
    else Revenue(orders[..|orders| - 1]) + (if Earning(orders[|orders| - 1]) then Amount(orders[|orders| - 1]) else 0)
  }

  /** `p.get('stock_quantity', 0) < 5`: a product without the key counts as low. */
  predicate LowStock(p: Row) {
    (if p.stock.Some? then p.stock.value else 0) < 5
  }

  function LowStockCount(products: seq<Row>): nat
    decreases |products|
  {
    if |products| == 0 then 0
    else LowStockCount(products[..|products| - 1]) + (if LowStock(products[|products| - 1]) then 1 else 0)
  }

  /** The dashboard's figures. */
  datatype DashboardStats = DashboardStats(
    totalProducts: nat, totalOrders: nat, pendingOrders: nat, totalRevenue: int, lowStockProducts: nat)

  /** `get_dashboard_stats()`. */
  function GetDashboardStats(products: seq<Row>, orders: seq<OrderRow>): DashboardStats {
    DashboardStats(|products|, |orders|, PendingCount(orders), Revenue(orders), LowStockCount(products))
  }

  /** Confirming a pending order moves it out of the pending count and adds its total to the
    * revenue; nothing else changes. */
  lemma {:induction false} ConfirmPending(orders: seq<OrderRow>, k: nat)
    requires k < |orders| && IsPending(orders[k])
    ensures var after := orders[k := orders[k].(status := Some(StatusValue(Confirmed)))];
            PendingCount(after) == PendingCount(orders) - 1
            && Revenue(after) == Revenue(orders) + Amount(orders[k])
    decreases |orders|
  {
    var after := orders[k := orders[k].(status := Some(StatusValue(Confirmed)))];
    var n := |orders|;
    if k < n - 1 {
      ConfirmPending(orders[..n - 1], k);
      assert after[..n - 1] == orders[..n - 1][k := orders[k].(status := Some(StatusValue(Confirmed)))];
    } else {
      assert after[..n - 1] == orders[..n - 1];
    }
  }

  /** The counts never exceed the number of rows they count. */
  lemma {:induction false} CountsBounded(products: seq<Row>, orders: seq<OrderRow>)
    ensures GetDashboardStats(products, orders).pendingOrders <= |orders|
    ensures GetDashboardStats(products, orders).lowStockProducts <= |products|
    decreases |products| + |orders|
  {
    if |orders| > 0 {
      CountsBounded(products, orders[..|orders| - 1]);
    }
    if |products| > 0 {
      CountsBounded(products[..|products| - 1], orders);
    }
  }
}
