/** The inventory and orders REST handlers: page arithmetic, the WHERE
    clauses and parameter lists built from the query arguments, the
    allow-listed UPDATE statement, and the moving-average demand forecast.
    SQL is only built here, never run: a query's result (a row count, a
    history of daily quantities, an item row) is a parameter. */
module InventoryRoutes {
  import opened Wrappers
  import opened Environment
  import opened Replies
  import Lists
  import Text
  import Numbers

  /** A value bound to a `?` placeholder. */
  datatype SqlValue = SqlText(text: string) | SqlInt(n: int) | SqlReal(x: real) | SqlNull

  // ------------------------------------------------------------- placeholders

  /** The number of `?` placeholders in an SQL text. */
  function Placeholders(sql: string): nat {
    Text.Count('?', sql)
  }

  lemma NoPlaceholders(sql: string)
    requires '?' !in sql
    ensures Placeholders(sql) == 0
  {
    Text.CountAbsent('?', sql);
  }

  lemma PlaceholdersAppend(a: string, b: string)
    ensures Placeholders(a + b) == Placeholders(a) + Placeholders(b)
  {
    Text.CountAppend('?', a, b);
  }

  /** A text ending in its only `?` holds one placeholder. */
  lemma OnePlaceholder(prefix: string)
    requires '?' !in prefix
    ensures Placeholders(prefix + "?") == 1
  {
    PlaceholdersAppend(prefix, "?");
    NoPlaceholders(prefix);
  }

  // --------------------------------------------------------------- pagination

  /** The pagination block of a listing reply. */
  datatype Pagination = Pagination(page: int, perPage: int, total: nat, pages: int)

  /** The first row of a page: `(page - 1) * per_page`. */
  function Offset(page: int, perPage: int): int {
    (page - 1) * perPage
  }

  /** `(total + per_page - 1) // per_page`, which divides by zero when
      `per_page` is 0. */
  function PageCount(total: nat, perPage: int): (r: Try<int>)
    ensures r.Raised? <==> perPage == 0
    ensures r.Raised? ==> r.exc == ZeroDivisionError
  {
    if perPage == 0 then Raised(ZeroDivisionError)
    else Ok(Numbers.FloorDiv(total + perPage - 1, perPage))
  }

  /** The page count is the ceiling of `total / per_page`: the fewest pages
      of `per_page` rows that hold `total` rows. */
  lemma PageCountIsCeiling(total: nat, perPage: int)
    requires perPage > 0
    ensures PageCount(total, perPage).Ok?
    ensures total == 0 ==> PageCount(total, perPage).value == 0
    ensures total > 0 ==> (PageCount(total, perPage).value - 1) * perPage < total <= PageCount(total, perPage).value * perPage
  {
    var q := PageCount(total, perPage).value;
    assert q * perPage <= total + perPage - 1 < q * perPage + perPage;
    if total == 0 {
      assert q * perPage < perPage;
      assert q <= 0;
      assert (q + 1) * perPage > 0;
    }
  }

  /** Every row lies on one of the pages: row `i` is on page
      `i // per_page + 1`, between that page's offset and the next one. */
  lemma PagesCoverRows(total: nat, perPage: int, i: nat)
    requires perPage > 0 && i < total
    ensures 1 <= Numbers.FloorDiv(i, perPage) + 1 <= PageCount(total, perPage).value
    ensures Offset(Numbers.FloorDiv(i, perPage) + 1, perPage) <= i < Offset(Numbers.FloorDiv(i, perPage) + 1, perPage) + perPage
  {
    PageCountIsCeiling(total, perPage);
    var q := PageCount(total, perPage).value;
    var p := Numbers.FloorDiv(i, perPage);
    assert Offset(p + 1, perPage) == p * perPage;
    FactorBelow(0, p, perPage);
    FactorBelow(p, q, perPage);
  }

  /** A smaller multiple of the same positive factor has the smaller
      multiplicand. */
  lemma FactorBelow(a: int, b: int, c: int)
    requires c > 0 && a * c < b * c + c
    ensures a <= b
  {
    if b + 1 <= a {
      FactorMonotone(b + 1, a, c);
    }
  }

  /** Multiplying by a non-negative factor keeps the order. */
  lemma FactorMonotone(a: int, b: int, c: nat)
    requires a <= b
    ensures a * c <= b * c
  {
    var d := b - a;
    assert b * c == a * c + d * c;
  }

  /** The pagination of `get_inventory_items` and `get_orders`: `page`
      defaults to 1 and `per_page` to 50 (an absent or non-integer argument
      reads as the default), and `total` is the count the first query found.
      A zero `per_page` raises when the reply is built. */
  function Paginate(page: Option<int>, perPage: Option<int>, total: nat): (r: Try<Pagination>)
    ensures r.Raised? <==> perPage.OrElse(50) == 0
    ensures r.Raised? ==> r.exc == ZeroDivisionError
    ensures r.Ok? ==> r.value.page == page.OrElse(1) && r.value.perPage == perPage.OrElse(50) && r.value.total == total
    ensures r.Ok? ==> PageCount(total, perPage.OrElse(50)) == Ok(r.value.pages)
  {
    var pp := perPage.OrElse(50);
    match PageCount(total, pp)
    case Raised(e) => Raised(e)
    case Ok(pages) => Ok(Pagination(page.OrElse(1), pp, total, pages))
  }

  /** Without arguments a listing starts at row 0 and has
      `ceil(total / 50)` pages. */
  lemma DefaultPagination(total: nat)
    ensures Paginate(None, None, total).Ok?
    ensures Offset(Paginate(None, None, total).value.page, Paginate(None, None, total).value.perPage) == 0
    ensures total == 0 ==> Paginate(None, None, total).value.pages == 0
    ensures total > 0 ==> (Paginate(None, None, total).value.pages - 1) * 50 < total <= Paginate(None, None, total).value.pages * 50
  {
    PageCountIsCeiling(total, 50);
  }

  // ------------------------------------------------------- inventory listing

  /** `if place_id:` holds for a present, non-zero id. */
  predicate Given(id: Option<int>) {
    id.Some? && id.value != 0
  }

  /** The clause texts, written around their `?` placeholders. */
  const SEARCH_CLAUSE: string := "(title LIKE " + "?" + " OR number LIKE " + "?" + ")"
  const PLACE_CLAUSE: string := "place_id = " + "?"

  /** The item filters that apply, in the order the handler adds them. */
  function ItemClauses(search: string, placeId: Option<int>): (c: seq<string>)
    ensures c == [] <==> search == "" && !Given(placeId)
  {
    (if search != "" then [SEARCH_CLAUSE] else []) + (if Given(placeId) then [PLACE_CLAUSE] else [])
  }

  /** A text with two `?`, each after a placeholder-free piece, holds two
      placeholders. */
  lemma TwoPlaceholders(a: string, b: string, c: string)
    requires '?' !in a && '?' !in b && '?' !in c
    ensures Placeholders(a + "?" + b + "?" + c) == 2
  {
    OnePlaceholder(a);
    OnePlaceholder(b);
    NoPlaceholders(c);
    PlaceholdersAppend(a + "?" + b + "?", c);
    PlaceholdersAppend(a + "?", b + "?");
    assert a + "?" + b + "?" == (a + "?") + (b + "?");
  }

  /** The fixed pieces of the item filter hold no `?`. */
  lemma ItemTextsPlain()
    ensures '?' !in "(title LIKE " && '?' !in " OR number LIKE " && '?' !in ")"
    ensures '?' !in "place_id = " && '?' !in " AND " && '?' !in "1=1"
  {
  }

  /** The search clause binds two placeholders. */
  lemma SearchClausePlaceholders()
    ensures Placeholders(SEARCH_CLAUSE) == 2
  {
    ItemTextsPlain();
    TwoPlaceholders("(title LIKE ", " OR number LIKE ", ")");
  }

  /** The place clause binds one placeholder. */
  lemma PlaceClausePlaceholders()
    ensures Placeholders(PLACE_CLAUSE) == 1
  {
    ItemTextsPlain();
    OnePlaceholder("place_id = ");
  }

  /** The WHERE clause of `get_inventory_items` and its parameters: a
      non-empty search matches the title or the barcode as a substring, a
      place id restricts the place, and with neither every row matches. */
  method ItemFilter(search: string, placeId: Option<int>) returns (whereSql: string, params: seq<SqlValue>)
    ensures whereSql == "1=1" <==> ItemClauses(search, placeId) == []
    ensures whereSql != "1=1" ==> whereSql == Text.Join(ItemClauses(search, placeId), " AND ")
    ensures Placeholders(whereSql) == |params|
    ensures |params| == (if search != "" then 2 else 0) + (if Given(placeId) then 1 else 0)
    ensures search != "" ==> params[0] == params[1] == SqlText("%" + search + "%")
    ensures Given(placeId) ==> params[|params| - 1] == SqlInt(placeId.value)
  {
    SearchClausePlaceholders();
    PlaceClausePlaceholders();
    ItemTextsPlain();
    NoPlaceholders(" AND ");
    NoPlaceholders("1=1");
    var clauses: seq<string> := [];
    params := [];
    if search != "" {
      Text.SumCountsAppend('?', clauses, [SEARCH_CLAUSE]);
      clauses := clauses + [SEARCH_CLAUSE];
      params := params + [SqlText("%" + search + "%"), SqlText("%" + search + "%")];
    }
    assert Text.SumCounts('?', clauses) == |params|;
    if Given(placeId) {
      Text.SumCountsAppend('?', clauses, [PLACE_CLAUSE]);
      clauses := clauses + [PLACE_CLAUSE];
      params := params + [SqlInt(placeId.value)];
    }
    assert clauses == ItemClauses(search, placeId);
    if clauses != [] {
      whereSql := Text.Join(clauses, " AND ");
      Text.CountJoin('?', clauses, " AND ");
      assert Placeholders(whereSql) == Text.SumCounts('?', clauses) == |params| > 0;
    } else {
      whereSql := "1=1";
    }
  }

  // ---------------------------------------------------------- orders listing

  /** `if status:` holds for a present, non-empty status. */
  predicate GivenText(s: Option<string>) {
    s.Some? && s.value != ""
  }

  /** The conditions `get_orders` may append, written around their `?`. */
  const STATUS_CONDITION: string := " AND o.status = " + "?"
  const PLACE_CONDITION: string := " AND o.place_id = " + "?"
  const START_CONDITION: string := " AND o.created >= " + "?"
  const END_CONDITION: string := " AND o.created <= " + "?"

  /** The fixed pieces of the order conditions hold no `?`. */
  lemma OrderTextsPlain()
    ensures '?' !in " AND o.status = " && '?' !in " AND o.place_id = "
    ensures '?' !in " AND o.created >= " && '?' !in " AND o.created <= "
  {
  }

  /** Each order condition binds one placeholder. */
  lemma OrderConditionPlaceholders()
    ensures Placeholders(STATUS_CONDITION) == 1 && Placeholders(PLACE_CONDITION) == 1
    ensures Placeholders(START_CONDITION) == 1 && Placeholders(END_CONDITION) == 1
  {
    OrderTextsPlain();
    OnePlaceholder(" AND o.status = ");
    OnePlaceholder(" AND o.place_id = ");
    OnePlaceholder(" AND o.created >= ");
    OnePlaceholder(" AND o.created <= ");
  }

  /** The conditions `get_orders` appends to `WHERE 1=1` and their
      parameters: status, place, then the start and end of the creation
      window. `startTs` and `endTs` are the timestamps of the non-empty
      `start_date` and `end_date` arguments. */
  method OrderFilter(status: Option<string>, placeId: Option<int>, startTs: Option<int>, endTs: Option<int>)
    returns (conditions: string, params: seq<SqlValue>)
    ensures Placeholders(conditions) == |params|
    ensures |params| == (if GivenText(status) then 1 else 0) + (if Given(placeId) then 1 else 0)
      + (if startTs.Some? then 1 else 0) + (if endTs.Some? then 1 else 0)
    ensures conditions == "" <==> params == []
    ensures conditions == (if GivenText(status) then STATUS_CONDITION else "")
      + (if Given(placeId) then PLACE_CONDITION else "")
      + (if startTs.Some? then START_CONDITION else "")
      + (if endTs.Some? then END_CONDITION else "")
    ensures params == (if GivenText(status) then [SqlText(status.value)] else [])
      + (if Given(placeId) then [SqlInt(placeId.value)] else [])
      + (if startTs.Some? then [SqlInt(startTs.value)] else [])
      + (if endTs.Some? then [SqlInt(endTs.value)] else [])
  {
    OrderConditionPlaceholders();
    conditions := "";
    params := [];
    NoPlaceholders("");
    ghost var statusSql := if GivenText(status) then STATUS_CONDITION else "";
    ghost var placeSql := if Given(placeId) then PLACE_CONDITION else "";
    ghost var startSql := if startTs.Some? then START_CONDITION else "";
    ghost var statusParams := if GivenText(status) then [SqlText(status.value)] else [];
    ghost var placeParams := if Given(placeId) then [SqlInt(placeId.value)] else [];
    ghost var startParams := if startTs.Some? then [SqlInt(startTs.value)] else [];
    if GivenText(status) {
      PlaceholdersAppend(conditions, STATUS_CONDITION);
      conditions := conditions + STATUS_CONDITION;
      params := params + [SqlText(status.value)];
    }
    assert conditions == statusSql && params == statusParams && Placeholders(conditions) == |params|;
    if Given(placeId) {
      PlaceholdersAppend(conditions, PLACE_CONDITION);
      conditions := conditions + PLACE_CONDITION;
      params := params + [SqlInt(placeId.value)];
    }
    assert conditions == statusSql + placeSql && params == statusParams + placeParams;
    assert Placeholders(conditions) == |params|;
    if startTs.Some? {
      PlaceholdersAppend(conditions, START_CONDITION);
      conditions := conditions + START_CONDITION;
      params := params + [SqlInt(startTs.value)];
    }
    assert conditions == statusSql + placeSql + startSql && params == statusParams + placeParams + startParams;
    assert Placeholders(conditions) == |params|;
    if endTs.Some? {
      PlaceholdersAppend(conditions, END_CONDITION);
      conditions := conditions + END_CONDITION;
      params := params + [SqlInt(endTs.value)];
    }
  }

  // ------------------------------------------------------------- item update

  /** The columns `update_item` lets a client change, in the order it sets them. */
  const ALLOWED_FIELDS: seq<string> := ["title", "price", "current_stock", "minimum_stock", "description", "barcode", "stock_unit"]

  /** The fixed texts of the UPDATE statement, written around their `?`
      placeholders. */
  const UPDATE_PREFIX: string := "UPDATE dim_items SET "
  const UPDATED_CLAUSE: string := "updated = " + "?"
  const WHERE_ID: string := " WHERE id = " + "?"

  /** A statement and the values for its placeholders. */
  datatype Statement = Statement(sql: string, params: seq<SqlValue>)

  /** The JSON body of an update: keys to values. */
  type UpdateBody = map<string, SqlValue>

  /** The test `field in data`. */
  function Present(data: UpdateBody): string -> bool {
    f => f in data
  }

  /** Every listed field is a key of the body. */
  predicate InBody(fields: seq<string>, data: UpdateBody) {
    forall k :: 0 <= k < |fields| ==> fields[k] in data
  }

  /** The fields of a list that the body holds. */
  lemma FilterPresent(s: seq<string>, data: UpdateBody)
    ensures InBody(Lists.Filter(s, Present(data)), data)
  {
    var f := Lists.Filter(s, Present(data));
    Lists.FilterMembers(s, Present(data));
    forall k | 0 <= k < |f|
      ensures f[k] in data
    {
      assert f[k] in f;
    }
  }

  /** The allowed fields the body holds, in allow-list order. */
  function UpdatedFields(data: UpdateBody): (fields: seq<string>)
    ensures |fields| <= |ALLOWED_FIELDS|
    ensures InBody(fields, data)
  {
    FilterPresent(ALLOWED_FIELDS, data);
    Lists.Filter(ALLOWED_FIELDS, Present(data))
  }

  /** `f"{field} = ?"` for each field. */
  function SetClauses(fields: seq<string>): (c: seq<string>)
    ensures |c| == |fields|
  {
    seq(|fields|, k requires 0 <= k < |fields| => fields[k] + " = " + "?")
  }

  /** The body's value for each field. */
  function FieldValues(fields: seq<string>, data: UpdateBody): (v: seq<SqlValue>)
    requires InBody(fields, data)
    ensures |v| == |fields|
  {
    seq(|fields|, k requires 0 <= k < |fields| => data[fields[k]])
  }

  /** The allow-list names each column once. */
  lemma AllowedFieldsDistinct()
    ensures forall i, j :: 0 <= i < j < |ALLOWED_FIELDS| ==> ALLOWED_FIELDS[i] != ALLOWED_FIELDS[j]
  {
  }

  /** No allowed column name holds a `?`. */
  lemma AllowedFieldsPlain()
    ensures forall k :: 0 <= k < |ALLOWED_FIELDS| ==> '?' !in ALLOWED_FIELDS[k]
  {
  }

  /** The fields updated are exactly the allowed ones the body holds, each
      once and in allow-list order. */
  lemma UpdatedFieldsExactly(data: UpdateBody)
    ensures forall f :: f in UpdatedFields(data) <==> f in ALLOWED_FIELDS && f in data
    ensures forall i, j :: 0 <= i < j < |UpdatedFields(data)| ==>
      Lists.Position(ALLOWED_FIELDS, UpdatedFields(data)[i]) < Lists.Position(ALLOWED_FIELDS, UpdatedFields(data)[j])
  {
    Lists.FilterMembers(ALLOWED_FIELDS, Present(data));
    AllowedFieldsDistinct();
    Lists.FilterInOrder(ALLOWED_FIELDS, Present(data));
  }

  /** No updated field holds a `?`. */
  lemma UpdatedFieldsPlain(data: UpdateBody)
    ensures forall k :: 0 <= k < |UpdatedFields(data)| ==> '?' !in UpdatedFields(data)[k]
  {
    AllowedFieldsPlain();
    Lists.FilterAll(ALLOWED_FIELDS, Present(data), f => '?' !in f);
  }

  /** Fields without a `?` make SET clauses with one placeholder each. */
  lemma {:induction false} SetClausePlaceholders(fields: seq<string>)
    requires forall k :: 0 <= k < |fields| ==> '?' !in fields[k]
    ensures Text.SumCounts('?', SetClauses(fields)) == |fields|
  {
    if fields != [] {
      var f := fields[0];
      assert '?' !in f;
      OnePlaceholder(f + " = ");
      assert SetClauses(fields)[1..] == SetClauses(fields[1..]);
      SetClausePlaceholders(fields[1..]);
    }
  }

  /** The fixed texts of the UPDATE statement: the prefix and the
      separator bind no placeholder, the timestamp clause and the id test
      one each. */
  lemma UpdatePrefixPlaceholders()
    ensures Placeholders(UPDATE_PREFIX) == 0 && Placeholders(", ") == 0
  {
    UpdateTextsPlain();
    NoPlaceholders(UPDATE_PREFIX);
    NoPlaceholders(", ");
  }

  lemma UpdateSuffixPlaceholders()
    ensures Placeholders(UPDATED_CLAUSE) == 1 && Placeholders(WHERE_ID) == 1
  {
    UpdateTextsPlain();
    OnePlaceholder("updated = ");
    OnePlaceholder(" WHERE id = ");
  }

  /** The fixed pieces of the UPDATE statement hold no `?`. */
  lemma UpdateTextsPlain()
    ensures '?' !in UPDATE_PREFIX && '?' !in ", "
    ensures '?' !in "updated = " && '?' !in " WHERE id = "
  {
  }

  /** Joining with a separator free of `?` keeps the parts' placeholders. */
  lemma JoinPlaceholders(parts: seq<string>, sep: string)
    requires |parts| > 0 && Placeholders(sep) == 0
    ensures Placeholders(Text.Join(parts, sep)) == Text.SumCounts('?', parts)
  {
    Text.CountJoin('?', parts, sep);
  }

  /** The statement binds one placeholder per updated field, one for the
      timestamp and one for the id. */
  lemma StatementPlaceholders(fields: seq<string>)
    requires forall k :: 0 <= k < |fields| ==> '?' !in fields[k]
    ensures Placeholders(UPDATE_PREFIX + Text.Join(SetClauses(fields) + [UPDATED_CLAUSE], ", ") + WHERE_ID) == |fields| + 2
  {
    UpdateTextsPlain();
    UpdateSuffixPlaceholders();
    ClausesPlaceholders(UPDATE_PREFIX, fields, UPDATED_CLAUSE, ", ", WHERE_ID);
  }

  /** A statement made of a `?`-free prefix, the SET clauses of `fields`
      and one more clause joined by a `?`-free separator, and a suffix,
      binds one placeholder per field plus those of the last clause and the
      suffix. */
  lemma ClausesPlaceholders(prefix: string, fields: seq<string>, last: string, sep: string, suffix: string)
    requires '?' !in prefix && '?' !in sep
    requires forall k :: 0 <= k < |fields| ==> '?' !in fields[k]
    ensures Placeholders(prefix + Text.Join(SetClauses(fields) + [last], sep) + suffix)
         == |fields| + Placeholders(last) + Placeholders(suffix)
  {
    var parts := SetClauses(fields) + [last];
    var sets := Text.Join(parts, sep);
    NoPlaceholders(prefix);
    NoPlaceholders(sep);
    SetClausePlaceholders(fields);
    Text.SumCountsAppend('?', SetClauses(fields), [last]);
    assert Text.SumCounts('?', [last]) == Placeholders(last);
    JoinPlaceholders(parts, sep);
    PlaceholdersAppend(prefix, sets);
    PlaceholdersAppend(prefix + sets, suffix);
  }

  /** One step of the update loop: the next field of `s` extends the
      filtered prefix, its clauses and its values exactly when the body
      holds it. */
  lemma UpdateStep(s: seq<string>, data: UpdateBody, i: nat)
    requires i < |s|
    ensures InBody(Lists.Filter(s[..i], Present(data)), data) && InBody(Lists.Filter(s[..i + 1], Present(data)), data)
    ensures s[i] in data ==>
      SetClauses(Lists.Filter(s[..i + 1], Present(data))) == SetClauses(Lists.Filter(s[..i], Present(data))) + [s[i] + " = " + "?"] &&
      FieldValues(Lists.Filter(s[..i + 1], Present(data)), data) == FieldValues(Lists.Filter(s[..i], Present(data)), data) + [data[s[i]]]
    ensures s[i] !in data ==> Lists.Filter(s[..i + 1], Present(data)) == Lists.Filter(s[..i], Present(data))
  {
    FilterPresent(s[..i], data);
    FilterPresent(s[..i + 1], data);
    assert s[..i + 1][..i] == s[..i];
  }

  /** `update_item`: sets each allowed field the body holds, in allow-list
      order, then the `updated` timestamp `now`, on the row `itemId`; a body
      with no allowed field is refused. */
  method UpdateItem(data: UpdateBody, itemId: int, now: int) returns (r: Reply<Statement>)
    ensures r.BadRequest? <==> UpdatedFields(data) == []
    ensures r.BadRequest? ==> r.error == "No valid fields to update"
    ensures r.BadRequest? || r.Success?
    ensures r.Success? ==>
      r.data.sql == UPDATE_PREFIX + Text.Join(SetClauses(UpdatedFields(data)) + [UPDATED_CLAUSE], ", ") + WHERE_ID &&
      r.data.params == FieldValues(UpdatedFields(data), data) + [SqlInt(now), SqlInt(itemId)]
    ensures r.Success? ==> Placeholders(r.data.sql) == |r.data.params|
    ensures r.Success? ==> r.data.params[|r.data.params| - 1] == SqlInt(itemId)
  {
    var updates: seq<string> := [];
    var params: seq<SqlValue> := [];
    for i := 0 to |ALLOWED_FIELDS|
      invariant InBody(Lists.Filter(ALLOWED_FIELDS[..i], Present(data)), data)
      invariant updates == SetClauses(Lists.Filter(ALLOWED_FIELDS[..i], Present(data)))
      invariant params == FieldValues(Lists.Filter(ALLOWED_FIELDS[..i], Present(data)), data)
    {
      UpdateStep(ALLOWED_FIELDS, data, i);
      var field := ALLOWED_FIELDS[i];
      if field in data {
        updates := updates + [field + " = " + "?"];
        params := params + [data[field]];
      }
    }
    assert ALLOWED_FIELDS[..|ALLOWED_FIELDS|] == ALLOWED_FIELDS;
    if updates == [] {
      return BadRequest("No valid fields to update");
    }
    updates := updates + [UPDATED_CLAUSE];
    params := params + [SqlInt(now)];
    params := params + [SqlInt(itemId)];
    UpdatedFieldsPlain(data);
    StatementPlaceholders(UpdatedFields(data));
    r := Success(Statement(UPDATE_PREFIX + Text.Join(updates, ", ") + WHERE_ID, params));
  }

  // ---------------------------------------------------------- demand forecast

  /** One forecast day: its date and the predicted quantity. */
  datatype DayForecast = DayForecast(date: string, predictedQuantity: real)

  /** The item row the forecast reads: `current_stock` may be NULL. */
  datatype StockRow = StockRow(id: int, title: string, currentStock: Option<real>)

  /** The forecast reply: the item, the historical daily mean, one entry per
      day ahead, and the reorder advice. */
  datatype DemandOutlook = DemandOutlook(
    item: StockRow, historicalAvgDaily: real, forecast: seq<DayForecast>,
    reorderNeeded: bool, suggestedReorderQty: real)

  /** The moving-average forecast: the mean on each of the next `days` days. */
  function FlatForecast(clock: Clock, avg: real, days: nat): (f: seq<DayForecast>)
    ensures |f| == days
    ensures forall i :: 0 <= i < days ==> f[i].predictedQuantity == avg
  {
    seq(days, i requires 0 <= i < days => DayForecast(clock.calendar(i + 1).date, avg))
  }

  function Quantities(f: seq<DayForecast>): (q: seq<real>)
    ensures |q| == |f|
  {
    seq(|f|, i requires 0 <= i < |f| => f[i].predictedQuantity)
  }

  /** The forecast predicts `avg * days` in total, the demand the reorder
      rule compares the stock with. */
  lemma {:induction false} FlatForecastTotal(clock: Clock, avg: real, days: nat)
    ensures Lists.Sum(Quantities(FlatForecast(clock, avg, days))) == avg * days as real
  {
    if days > 0 {
      var q := Quantities(FlatForecast(clock, avg, days));
      assert q[..days - 1] == Quantities(FlatForecast(clock, avg, days - 1));
      FlatForecastTotal(clock, avg, days - 1);
    }
  }

  /** `forecast_demand`: `item_id` is required (absent or 0 is refused) and
      `days` defaults to 7; `history` is the item's daily quantities of the
      last 30 days and `item` its row. Each of the next days gets the
      historical mean; a reorder is needed when the stock is below the mean
      times the days, and 1.2 times that is suggested. A missing row or a
      NULL stock raises when the advice is built. */
  method ForecastDemand(clock: Clock, itemId: Option<int>, days: Option<int>, history: seq<real>, item: Option<StockRow>)
    returns (r: Reply<DemandOutlook>)
    ensures r.BadRequest? <==> !Given(itemId)
    ensures r.BadRequest? ==> r.error == "item_id required"
    ensures r.NotFound? <==> Given(itemId) && history == []
    ensures r.NotFound? ==> r.error == "No historical data available for this item"
    ensures r.ServerError? <==> Given(itemId) && history != [] && (item.None? || item.value.currentStock.None?)
    ensures r.ServerError? ==> r.exc == (if item.None? then AttributeError else TypeError)
    ensures r.Success? ==>
      var d := days.OrElse(7);
      var avg := Lists.Mean(history);
      && item.Some? && item.value.currentStock.Some?
      && r.data.item == item.value
      && r.data.historicalAvgDaily == avg
      && r.data.forecast == FlatForecast(clock, avg, if d > 0 then d else 0)
      && (r.data.reorderNeeded <==> item.value.currentStock.value < avg * d as real)
      && r.data.suggestedReorderQty == avg * d as real * 1.2
  {
    if !Given(itemId) {
      return BadRequest("item_id required");
    }
    var d := days.OrElse(7);
    if |history| == 0 {
      return NotFound("No historical data available for this item");
    }
    var avg := Lists.Mean(history);
    var forecast: seq<DayForecast> := [];
    var i := 1;
    while i < d + 1
      invariant 1 <= i && (i <= d + 1 || i == 1)
      invariant forecast == FlatForecast(clock, avg, i - 1)
    {
      forecast := forecast + [DayForecast(clock.calendar(i).date, avg)];
      i := i + 1;
    }
    assert i - 1 == if d > 0 then d else 0;
    match item
    case None =>
      return ServerError(AttributeError);
    case Some(row) =>
      match row.currentStock
      case None =>
        return ServerError(TypeError);
      case Some(stock) =>
        return Success(DemandOutlook(row, avg, forecast, stock < avg * d as real, avg * d as real * 1.2));
  }

  /** The advice covers the forecast: a reorder is needed exactly when the
      stock is below the forecast's total, and for a non-negative history
      the suggestion is at least that total. */
  lemma AdviceCoversForecast(clock: Clock, history: seq<real>, days: nat, stock: real)
    requires |history| > 0
    requires forall i :: 0 <= i < |history| ==> history[i] >= 0.0
    ensures stock < Lists.Mean(history) * days as real <==>
      stock < Lists.Sum(Quantities(FlatForecast(clock, Lists.Mean(history), days)))
    ensures Lists.Mean(history) * days as real * 1.2 >= Lists.Sum(Quantities(FlatForecast(clock, Lists.Mean(history), days))) >= 0.0
  {
    var avg := Lists.Mean(history);
    FlatForecastTotal(clock, avg, days);
    Lists.SumNonNegative(history);
    assert avg >= 0.0;
    assert avg * days as real >= 0.0;
  }
}
