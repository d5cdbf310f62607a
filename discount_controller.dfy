/** The discount resource handlers: `addDiscount`, and `getDiscounts`, which
    turns the query string into a list of SQL clauses, joins them into a
    WHERE fragment and selects the joined rows ordered by start date.

    The clauses are modelled twice: as the SQL text the handler builds
    (`ClauseSql`, `WhereFragment`) and as the condition each puts on a row
    (`ClauseHolds`). Dates are day numbers and `today` is CURRENT_DATE. */
module DiscountController {
  import opened Json
  import opened Text
  import opened Schema
  import opened Http
  import opened Sorting

  const InternalError := "Internal Server Error"
  const DiscountFieldsRequired :=
    "All fields are required (shop_id, title, discount_percentage, category, start_date, end_date)"

  // ---------------------------------------------------------------------
  // addDiscount

  /** None of the six destructured body fields is falsy. */
  predicate DiscountFieldsPresent(body: Object)
  {
    && Present(Get(body, "shop_id")) && Present(Get(body, "title"))
    && Present(Get(body, "discount_percentage")) && Present(Get(body, "category"))
    && Present(Get(body, "start_date")) && Present(Get(body, "end_date"))
  }

  /** The six values as the database converts them to their column types. */
  datatype DiscountColumns = DiscountColumns(
    shop_id: int, title: string, percentage: real, category: string, start_date: int, end_date: int)

  function DiscountColumnsOf(body: Object, casts: Casts): (r: Option<DiscountColumns>)
    ensures r.Some? <==>
              && DiscountFieldsPresent(body)
              && casts.integer(body["shop_id"]).Some? && casts.text(body["title"]).Some?
              && casts.numeric(body["discount_percentage"]).Some? && casts.text(body["category"]).Some?
              && casts.date(body["start_date"]).Some? && casts.date(body["end_date"]).Some?
    ensures r.Some? ==>
              && casts.integer(body["shop_id"]) == Some(r.value.shop_id)
              && casts.text(body["title"]) == Some(r.value.title)
              && casts.text(body["category"]) == Some(r.value.category)
              && casts.numeric(body["discount_percentage"]) == Some(r.value.percentage)
              && casts.date(body["start_date"]) == Some(r.value.start_date)
              && casts.date(body["end_date"]) == Some(r.value.end_date)
  {
    if !DiscountFieldsPresent(body) then None
    else
      var shop, title, pct := casts.integer(body["shop_id"]), casts.text(body["title"]), casts.numeric(body["discount_percentage"]);
      var cat, start, end := casts.text(body["category"]), casts.date(body["start_date"]), casts.date(body["end_date"]);
      if shop.Some? && title.Some? && pct.Some? && cat.Some? && start.Some? && end.Some?
      then Some(DiscountColumns(shop.value, title.value, pct.value, cat.value, start.value, end.value))
      else None
  }

  /** The row passes every constraint of `discounts`. */
  predicate Insertable(c: DiscountColumns, shops: map<int, ShopRow>)
  {
    DiscountFits(c.title, c.category) && PercentageInRange(c.percentage) && c.shop_id in shops
  }

  /** POST /api/discounts: the shop comes from the body; any database
      failure (a missing shop, a percentage out of range, an overlong title)
      is a 500. */
  method AddDiscount(db: Tables, body: Object, casts: Casts, now: int, outage: bool)
    returns (reply: Reply<DiscountRow>)
    requires db.Valid()
    modifies db
    ensures db.Valid()
    ensures db.shops == old(db.shops)
    ensures !DiscountFieldsPresent(body) ==>
              reply == Err(400, DiscountFieldsRequired) && db.discountSerial == old(db.discountSerial)
    ensures DiscountFieldsPresent(body) && reply.Err? ==> reply == Err(500, InternalError)
    ensures reply.Err? ==> db.discounts == old(db.discounts)
    ensures reply.Ok? <==>
              && !outage && DiscountColumnsOf(body, casts).Some?
              && Insertable(DiscountColumnsOf(body, casts).value, old(db.shops))
    ensures reply.Ok? ==>
              && reply.status == 201
              && var c := DiscountColumnsOf(body, casts).value;
              && reply.data == DiscountRow(old(db.discountSerial), c.shop_id, c.title, c.percentage, c.category,
                                           c.start_date, c.end_date, now, now)
              && reply.data.id !in old(db.discounts)
              && db.discounts == old(db.discounts)[reply.data.id := reply.data]
  {
    if !DiscountFieldsPresent(body) {
      return Err(400, DiscountFieldsRequired);
    }
    var cols := DiscountColumnsOf(body, casts);
    if outage || cols.None? {
      return Err(500, InternalError);
    }
    var c := cols.value;
    var r := db.InsertDiscount(c.shop_id, c.title, c.percentage, c.category, c.start_date, c.end_date, now);
    if r.Failed? {
      return Err(500, InternalError);
    }
    reply := Ok(201, r.value);
  }

  /** The falsy guard turns away a numeric zero percentage before the
      database sees it, though the CHECK constraint would accept it. */
  lemma ZeroPercentageRejected(body: Object)
    requires Get(body, "discount_percentage") == Some(Num(0.0))
    ensures !DiscountFieldsPresent(body)
    ensures PercentageInRange(0.0)
  {
  }

  /** The string "0" is truthy, so it passes the same guard. */
  lemma StringZeroPassesGuard()
    ensures Present(Some(Str("0")))
    ensures !Present(Some(Num(0.0)))
  {
  }

  // ---------------------------------------------------------------------
  // getDiscounts: the query and its clauses

  /** The four string parameters of `req.query`; `None` when absent. */
  datatype Query = Query(date: Option<string>, category: Option<string>, city: Option<string>, search: Option<string>)

  /** A query parameter is truthy: present and not empty. */
  predicate Given(p: Option<string>)
  {
    p.Some? && p.value != ""
  }

  datatype Clause =
    | Today
    | Tomorrow
    | ThisWeek
    | CategoryLike(term: string)
    | CityLike(term: string)
    | SearchLike(term: string)

  /** The position of a clause's group in the order the handler pushes them. */
  function Rank(c: Clause): nat
  {
    match c
    case Today => 0
    case Tomorrow => 0
    case ThisWeek => 0
    case CategoryLike(_) => 1
    case CityLike(_) => 2
    case SearchLike(_) => 3
  }

  /** The clause's SQL text, the parameter spliced in as written. */
  function ClauseSql(c: Clause): string
  {
    match c
    case Today => "CURRENT_DATE BETWEEN discounts.start_date AND discounts.end_date"
    case Tomorrow => "CURRENT_DATE + INTERVAL '1 day' BETWEEN discounts.start_date AND discounts.end_date"
    case ThisWeek => "discounts.start_date <= CURRENT_DATE + INTERVAL '7 days' AND discounts.end_date >= CURRENT_DATE"
    case CategoryLike(t) => "discounts.category ILIKE '%" + t + "%'"
    case CityLike(t) => "shops.city ILIKE '%" + t + "%'"
    case SearchLike(t) =>
      "(\n            discounts.title ILIKE '%" + t + "%' OR\n            shops.shop_name ILIKE '%" + t + "%'\n        )"
  }

  /** The clause is one that `q` asks for. */
  predicate Requested(q: Query, c: Clause)
  {
    match c
    case Today => q.date == Some("today")
    case Tomorrow => q.date == Some("tomorrow")
    case ThisWeek => q.date == Some("week")
    case CategoryLike(t) => Given(q.category) && t == q.category.value
    case CityLike(t) => Given(q.city) && t == q.city.value
    case SearchLike(t) => Given(q.search) && t == q.search.value
  }

  /** Some parameter adds a clause. */
  predicate AnyFilter(q: Query)
  {
    q.date == Some("today") || q.date == Some("tomorrow") || q.date == Some("week")
    || Given(q.category) || Given(q.city) || Given(q.search)
  }

  /** `f` is the filter list for `q`: the clauses `q` asks for, each once,
      in push order (date, category, city, search), so at most one date
      clause. */
  ghost predicate FilterListFor(q: Query, f: seq<Clause>)
  {
    && StrictlyRanked(f)
    && (forall i :: 0 <= i < |f| ==> Requested(q, f[i]))
    && (q.date == Some("today") ==> Today in f)
    && (q.date == Some("tomorrow") ==> Tomorrow in f)
    && (q.date == Some("week") ==> ThisWeek in f)
    && (Given(q.category) ==> CategoryLike(q.category.value) in f)
    && (Given(q.city) ==> CityLike(q.city.value) in f)
    && (Given(q.search) ==> SearchLike(q.search.value) in f)
  }

  /** `f` is the filter list for `q` as far as the first `n` groups go. */
  ghost predicate FilterListUpTo(q: Query, f: seq<Clause>, n: nat)
  {
    && StrictlyRanked(f)
    && (forall i :: 0 <= i < |f| ==> Requested(q, f[i]) && Rank(f[i]) < n)
    && (n > 0 ==> (q.date == Some("today") ==> Today in f)
                    && (q.date == Some("tomorrow") ==> Tomorrow in f)
                    && (q.date == Some("week") ==> ThisWeek in f))
    && (n > 1 && Given(q.category) ==> CategoryLike(q.category.value) in f)
    && (n > 2 && Given(q.city) ==> CityLike(q.city.value) in f)
    && (n > 3 && Given(q.search) ==> SearchLike(q.search.value) in f)
  }

  /** The clause of group `n` that `q` asks for, if any. */
  function GroupClause(q: Query, n: nat): (r: Option<Clause>)
    ensures r.Some? ==> Rank(r.value) == n && Requested(q, r.value)
    ensures forall c :: Requested(q, c) && Rank(c) == n ==> r == Some(c)
  {
    if n == 0 then
      if q.date == Some("today") then Some(Today)
      else if q.date == Some("tomorrow") then Some(Tomorrow)
      else if q.date == Some("week") then Some(ThisWeek)
      else None
    else if n == 1 then (if Given(q.category) then Some(CategoryLike(q.category.value)) else None)
    else if n == 2 then (if Given(q.city) then Some(CityLike(q.city.value)) else None)
    else if n == 3 then (if Given(q.search) then Some(SearchLike(q.search.value)) else None)
    else None
  }

  /** What one `if (...) filters.push(...)` adds: the group's clause, or nothing. */
  function Pushed(q: Query, n: nat): seq<Clause>
  {
    if GroupClause(q, n).Some? then [GroupClause(q, n).value] else []
  }

  /** Pushing group `n` extends the list to `n + 1` groups. */
  lemma PushGroup(q: Query, f: seq<Clause>, n: nat)
    requires FilterListUpTo(q, f, n)
    ensures FilterListUpTo(q, f + Pushed(q, n), n + 1)
  {
    var g := f + Pushed(q, n);
    forall i, j | 0 <= i < j < |g| ensures Rank(g[i]) < Rank(g[j]) {
      if j >= |f| { assert g[j] == GroupClause(q, n).value; }
    }
    forall i | 0 <= i < |g| ensures Requested(q, g[i]) && Rank(g[i]) < n + 1 {
      if i >= |f| { assert g[i] == GroupClause(q, n).value; }
    }
    if n == 0 {
      if q.date == Some("today") { assert Requested(q, Today); }
      if q.date == Some("tomorrow") { assert Requested(q, Tomorrow); }
      if q.date == Some("week") { assert Requested(q, ThisWeek); }
    }
  }

  /** The groups before `n`, each pushed in turn. */
  function PushedUpTo(q: Query, n: nat): seq<Clause>
  {
    if n == 0 then [] else PushedUpTo(q, n - 1) + Pushed(q, n - 1)
  }

  lemma {:induction false} PushedUpToLists(q: Query, n: nat)
    ensures FilterListUpTo(q, PushedUpTo(q, n), n)
    ensures |PushedUpTo(q, n)| <= n
  {
    if n > 0 {
      PushedUpToLists(q, n - 1);
      PushGroup(q, PushedUpTo(q, n - 1), n - 1);
    }
  }

  /** The four groups pushed in turn make the filter list. */
  lemma PushedIsFilterList(q: Query, f: seq<Clause>)
    requires f == PushedUpTo(q, 4)
    ensures FilterListFor(q, f) && |f| <= 4
  {
    PushedUpToLists(q, 4);
  }

  /** The pushes of `getDiscounts`, in order. */
  method BuildFilters(q: Query) returns (filters: seq<Clause>)
    ensures FilterListFor(q, filters)
    ensures |filters| <= 4
  {
    filters := [];
    if q.date == Some("today") {
      filters := filters + [Today];
    } else if q.date == Some("tomorrow") {
      filters := filters + [Tomorrow];
    } else if q.date == Some("week") {
      filters := filters + [ThisWeek];
    }
    assert filters == PushedUpTo(q, 1);
    if Given(q.category) {
      filters := filters + [CategoryLike(q.category.value)];
    }
    assert filters == PushedUpTo(q, 2);
    if Given(q.city) {
      filters := filters + [CityLike(q.city.value)];
    }
    assert filters == PushedUpTo(q, 3);
    if Given(q.search) {
      filters := filters + [SearchLike(q.search.value)];
    }
    assert filters == PushedUpTo(q, 4);
    PushedIsFilterList(q, filters);
  }

  /** `parts.join(sep)`. */
  function Join(parts: seq<string>, sep: string): (r: string)
    ensures |parts| == 1 ==> r == parts[0]
    ensures parts == [] ==> r == ""
  {
    if parts == [] then ""
    else if |parts| == 1 then parts[0]
    else parts[0] + sep + Join(parts[1..], sep)
  }

  /** Joining two non-empty lists puts one separator between their joins. */
  lemma {:induction false} JoinConcat(a: seq<string>, b: seq<string>, sep: string)
    requires a != [] && b != []
    ensures Join(a + b, sep) == Join(a, sep) + sep + Join(b, sep)
  {
    assert (a + b)[0] == a[0];
    assert (a + b)[1..] == a[1..] + b;
    if |a| > 1 {
      JoinConcat(a[1..], b, sep);
    }
  }

  /** `g` applied to each element, in order. */
  function MapSeq<T, U>(s: seq<T>, g: T -> U): (r: seq<U>)
    ensures |r| == |s| && forall i :: 0 <= i < |s| ==> r[i] == g(s[i])
  {
    if s == [] then [] else MapSeq(s[..|s| - 1], g) + [g(s[|s| - 1])]
  }

  lemma MapSeqAppend<T, U>(s: seq<T>, x: T, g: T -> U)
    ensures MapSeq(s + [x], g) == MapSeq(s, g) + [g(x)]
  {
    assert (s + [x])[..|s|] == s;
  }

  function ClausesSql(f: seq<Clause>): (r: seq<string>)
    ensures |r| == |f| && forall i :: 0 <= i < |f| ==> r[i] == ClauseSql(f[i])
  {
    MapSeq(f, ClauseSql)
  }

  /** `filters.length > 0 ? `WHERE ${filters.join(' AND ')}` : ''`. */
  function WhereFragment(f: seq<Clause>): (r: string)
    ensures r == "" <==> f == []
    ensures f != [] ==> |r| >= 6 && r[..6] == "WHERE "
  {
    if |f| > 0 then "WHERE " + Join(ClausesSql(f), " AND ") else ""
  }

  /** A single clause is the whole condition. */
  lemma WhereFragmentSingle(c: Clause)
    ensures WhereFragment([c]) == "WHERE " + ClauseSql(c)
  {
    assert ClausesSql([c]) == [ClauseSql(c)];
  }

  /** Each clause pushed after the first adds ` AND ` and its own text at
      the end of the condition, so the clauses appear in push order. */
  lemma WhereFragmentAppend(f: seq<Clause>, c: Clause)
    requires f != []
    ensures WhereFragment(f + [c]) == WhereFragment(f) + " AND " + ClauseSql(c)
  {
    ClausesSqlAppend(f, c);
    PrefixJoinAppend("WHERE ", ClausesSql(f), ClauseSql(c), " AND ");
  }

  /** A prefix followed by the join of one more part. */
  lemma PrefixJoinAppend(prefix: string, parts: seq<string>, last: string, sep: string)
    requires parts != []
    ensures prefix + Join(parts + [last], sep) == prefix + Join(parts, sep) + sep + last
  {
    JoinConcat(parts, [last], sep);
    var j := Join(parts, sep);
    assert prefix + (j + sep + last) == prefix + j + sep + last;
  }

  lemma ClausesSqlAppend(f: seq<Clause>, c: Clause)
    ensures ClausesSql(f + [c]) == ClausesSql(f) + [ClauseSql(c)]
  {
    MapSeqAppend(f, c, ClauseSql);
  }

  /** The clauses are in strictly increasing rank. */
  predicate StrictlyRanked(f: seq<Clause>)
  {
    forall i, j :: 0 <= i < j < |f| ==> Rank(f[i]) < Rank(f[j])
  }

  lemma HeadHasLeastRank(f: seq<Clause>, i: int)
    requires StrictlyRanked(f) && 0 <= i < |f|
    ensures Rank(f[0]) <= Rank(f[i])
    ensures i > 0 ==> Rank(f[0]) < Rank(f[i])
  {
  }

  /** Two strictly ranked lists with the same first clause and the same
      clauses also have the same clauses after the first. */
  lemma SameTail(f: seq<Clause>, g: seq<Clause>)
    requires StrictlyRanked(f) && StrictlyRanked(g)
    requires f != [] && g != [] && f[0] == g[0]
    requires forall c :: c in f <==> c in g
    ensures forall c :: c in f[1..] <==> c in g[1..]
  {
    forall c | c in f[1..] ensures c in g[1..] {
      var i :| 0 <= i < |f[1..]| && f[1..][i] == c;
      HeadHasLeastRank(f, i + 1);
      assert f[i + 1] == c;
      assert c in g;
      var k :| 0 <= k < |g| && g[k] == c;
      assert g[1..][k - 1] == c;
    }
    forall c | c in g[1..] ensures c in f[1..] {
      var i :| 0 <= i < |g[1..]| && g[1..][i] == c;
      HeadHasLeastRank(g, i + 1);
      assert g[i + 1] == c;
      assert c in f;
      var k :| 0 <= k < |f| && f[k] == c;
      assert f[1..][k - 1] == c;
    }
  }

  /** Two strictly ranked lists that hold the same clauses are the same
      list. */
  lemma {:induction false} RankSortedUnique(f: seq<Clause>, g: seq<Clause>)
    requires StrictlyRanked(f) && StrictlyRanked(g)
    requires forall c :: c in f <==> c in g
    ensures f == g
    decreases |f|
  {
    assert g != [] ==> g[0] in f;
    if f != [] {
      assert f[0] in g;
      assert g[0] in f;
      var a :| 0 <= a < |g| && g[a] == f[0];
      var b :| 0 <= b < |f| && f[b] == g[0];
      HeadHasLeastRank(f, b);
      HeadHasLeastRank(g, a);
      SameTail(f, g);
      RankSortedUnique(f[1..], g[1..]);
      assert f == [f[0]] + f[1..] && g == [g[0]] + g[1..];
    }
  }

  /** The query determines its filter list. */
  lemma FilterListUnique(q: Query, f: seq<Clause>, g: seq<Clause>)
    requires FilterListFor(q, f) && FilterListFor(q, g)
    ensures f == g
  {
    forall c ensures c in f <==> c in g {
      if c in f {
        var i :| 0 <= i < |f| && f[i] == c;
        assert Requested(q, c);
      }
      if c in g {
        var i :| 0 <= i < |g| && g[i] == c;
        assert Requested(q, c);
      }
    }
    RankSortedUnique(f, g);
  }

  /** The WHERE fragment is empty exactly when no parameter adds a clause. */
  lemma WhereEmptyIffNoFilter(q: Query, f: seq<Clause>)
    requires FilterListFor(q, f)
    ensures WhereFragment(f) == "" <==> !AnyFilter(q)
  {
    if f != [] {
      assert Requested(q, f[0]);
    }
  }

  /** `?date=today` alone yields the single BETWEEN clause. */
  lemma TodayOnlyWhere(f: seq<Clause>)
    requires FilterListFor(Query(Some("today"), None, None, None), f)
    ensures WhereFragment(f) == "WHERE " + ClauseSql(Today)
  {
    var q := Query(Some("today"), None, None, None);
    assert FilterListFor(q, [Today]);
    FilterListUnique(q, f, [Today]);
    assert ClausesSql([Today]) == [ClauseSql(Today)];
  }

  /** A date other than the three keywords adds no clause. */
  lemma OtherDateAddsNoClause(q: Query, f: seq<Clause>)
    requires FilterListFor(q, f)
    requires q.date != Some("today") && q.date != Some("tomorrow") && q.date != Some("week")
    ensures forall i :: 0 <= i < |f| ==> Rank(f[i]) > 0
  {
    forall i | 0 <= i < |f| ensures Rank(f[i]) > 0 {
      assert Requested(q, f[i]);
    }
  }

  // ---------------------------------------------------------------------
  // getDiscounts: what the clauses select

  /** A row of `discounts.*, shops.shop_name, shops.city`. */
  datatype JoinedRow = JoinedRow(discount: DiscountRow, shop_name: string, city: string)

  function JoinOf(d: DiscountRow, s: ShopRow): JoinedRow
  {
    JoinedRow(d, s.shop_name, s.city)
  }

  /** The condition the clause's SQL puts on a row when `today` is
      CURRENT_DATE. An ILIKE '%t%' holds when `t` occurs in the column
      ignoring case. */
  predicate ClauseHolds(c: Clause, row: JoinedRow, today: int)
  {
    var d := row.discount;
    match c
    case Today => d.start_date <= today <= d.end_date
    case Tomorrow => d.start_date <= today + 1 <= d.end_date
    case ThisWeek => d.start_date <= today + 7 && d.end_date >= today
    case CategoryLike(t) => ContainsIgnoringCase(d.category, t)
    case CityLike(t) => ContainsIgnoringCase(row.city, t)
    case SearchLike(t) => ContainsIgnoringCase(d.title, t) || ContainsIgnoringCase(row.shop_name, t)
  }

  /** The conjunction of the filter list. */
  predicate RowMatches(f: seq<Clause>, row: JoinedRow, today: int)
  {
    forall i :: 0 <= i < |f| ==> ClauseHolds(f[i], row, today)
  }

  /** What a query asks of a row, read directly off its parameters. */
  ghost predicate QueryPredicate(q: Query, row: JoinedRow, today: int)
  {
    var d := row.discount;
    && (q.date == Some("today") ==> d.start_date <= today <= d.end_date)
    && (q.date == Some("tomorrow") ==> d.start_date <= today + 1 <= d.end_date)
    && (q.date == Some("week") ==> d.start_date <= today + 7 && today <= d.end_date)
    && (Given(q.category) ==> ContainsIgnoringCase(d.category, q.category.value))
    && (Given(q.city) ==> ContainsIgnoringCase(row.city, q.city.value))
    && (Given(q.search) ==>
          ContainsIgnoringCase(d.title, q.search.value) || ContainsIgnoringCase(row.shop_name, q.search.value))
  }

  /** The filter list for `q` selects exactly the rows `q` asks for. */
  lemma FiltersMeanQuery(q: Query, f: seq<Clause>, row: JoinedRow, today: int)
    requires FilterListFor(q, f)
    ensures RowMatches(f, row, today) <==> QueryPredicate(q, row, today)
  {
    if RowMatches(f, row, today) {
      forall c | c in f ensures ClauseHolds(c, row, today) {
        var i :| 0 <= i < |f| && f[i] == c;
      }
    }
    if QueryPredicate(q, row, today) {
      forall i | 0 <= i < |f| ensures ClauseHolds(f[i], row, today) {
        assert Requested(q, f[i]);
      }
    }
  }

  /** The joined rows `q` selects: each discount whose shop exists, joined
      to that shop, when the row satisfies the query. */
  ghost function Selected(discounts: map<int, DiscountRow>, shops: map<int, ShopRow>, q: Query, today: int): set<JoinedRow>
  {
    set k | k in discounts && discounts[k].shop_id in shops
              && QueryPredicate(q, JoinOf(discounts[k], shops[discounts[k].shop_id]), today)
          :: JoinOf(discounts[k], shops[discounts[k].shop_id])
  }

  /** With no filter every joined row is selected. */
  lemma NoFilterSelectsAll(discounts: map<int, DiscountRow>, shops: map<int, ShopRow>, q: Query, today: int, k: int)
    requires !AnyFilter(q)
    requires k in discounts && discounts[k].shop_id in shops
    ensures JoinOf(discounts[k], shops[discounts[k].shop_id]) in Selected(discounts, shops, q, today)
  {
  }

  function StartDate(r: JoinedRow): int
  {
    r.discount.start_date
  }

  /** GET /api/discounts: the selected rows, each once, ordered by start
      date. */
  method GetDiscounts(db: Tables, q: Query, today: int, outage: bool) returns (reply: Reply<seq<JoinedRow>>)
    requires db.Valid()
    ensures reply.Err? <==> outage
    ensures reply.Err? ==> reply == Err(500, InternalError)
    ensures reply.Ok? ==>
              && reply.status == 200
              && multiset(reply.data) == multiset(Selected(db.discounts, db.shops, q, today))
              && forall i, j :: 0 <= i < j < |reply.data| ==> StartDate(reply.data[i]) <= StartDate(reply.data[j])
  {
    var filters := BuildFilters(q);
    if outage {
      return Err(500, InternalError);
    }
    var found := set k | k in db.discounts && db.discounts[k].shop_id in db.shops
                          && RowMatches(filters, JoinOf(db.discounts[k], db.shops[db.discounts[k].shop_id]), today)
                      :: JoinOf(db.discounts[k], db.shops[db.discounts[k].shop_id]);
    forall k | k in db.discounts && db.discounts[k].shop_id in db.shops
      ensures RowMatches(filters, JoinOf(db.discounts[k], db.shops[db.discounts[k].shop_id]), today)
              <==> QueryPredicate(q, JoinOf(db.discounts[k], db.shops[db.discounts[k].shop_id]), today)
    {
      FiltersMeanQuery(q, filters, JoinOf(db.discounts[k], db.shops[db.discounts[k].shop_id]), today);
    }
    assert found == Selected(db.discounts, db.shops, q, today);
    var rows := ListSet(found);
    var sorted := SortBy(rows, StartDate);
    reply := Ok(200, sorted);
  }
}
