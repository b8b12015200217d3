/**
 * The property-search query builder (getAllProperties): from a sparse set of
 * search options and a limit it builds a parameterised SQL query and the
 * ordered list of its bind parameters.
 *
 * `GetAllProperties` builds both step by step, as the JavaScript does: every
 * truthy option pushes one parameter and then emits a condition whose
 * placeholder is the parameter list's new length. `Query` and `BindParams`
 * describe the same result declaratively: the options that are given, taken in
 * a fixed order, are numbered 1, 2, ...; the lemmas below state what the
 * result promises.
 */
module PropertySearch {
  import opened Wrappers
  import opened Sql
  import Decimal

  /** The options record; every field may be absent. */
  datatype SearchOptions = SearchOptions(
    city: Option<string>,
    ownerId: Option<int>,
    minimumPricePerNight: Option<real>,  // major currency units
    maximumPricePerNight: Option<real>,  // major currency units
    minimumRating: Option<real>)

  /** JavaScript truthiness of an optional field: absent and the type's falsy value are both false. */
  predicate Truthy<T(==)>(v: Option<T>, falsy: T) {
    v.Some? && v.value != falsy
  }

  /** Whether the option behind a parameterised fragment is given; the limit always is. */
  predicate Given(f: Fragment, o: SearchOptions) {
    match f
    case CityLike => Truthy(o.city, "")
    case OwnerIdEq => Truthy(o.ownerId, 0)
    case CostAtLeast => Truthy(o.minimumPricePerNight, 0.0)
    case CostAtMost => Truthy(o.maximumPricePerNight, 0.0)
    case RatingAtLeast => Truthy(o.minimumRating, 0.0)
    case OrderByLimit => true
    case _ => false
  }

  function CityPattern(city: string): string {
    "%" + city + "%"
  }

  /** Prices are stored in cents. */
  function Cents(price: real): real {
    price * 100.0
  }

  /** The value each parameterised fragment's placeholder must name. */
  function Bound(f: Fragment, o: SearchOptions, limit: Value): Value {
    match f
    case CityLike => Text(CityPattern(o.city.GetOr("")))
    case OwnerIdEq => Text(Decimal.IntToDecimal(o.ownerId.GetOr(0)))
    case CostAtLeast => Number(Cents(o.minimumPricePerNight.GetOr(0.0)))
    case CostAtMost => Number(Cents(o.maximumPricePerNight.GetOr(0.0)))
    case RatingAtLeast => Number(o.minimumRating.GetOr(0.0))
    case OrderByLimit => limit
    case _ => Undefined
  }

  /** The row filters, in the order they are tried. */
  const RowFilterOrder: seq<Fragment> := [CityLike, OwnerIdEq, CostAtLeast, CostAtMost]

  /** Every parameterised fragment, in the order its parameter is bound. */
  const FilterOrder: seq<Fragment> := RowFilterOrder + [RatingAtLeast, OrderByLimit]

  /** [x] when `given`, else nothing. */
  function IfGiven<T>(given: bool, x: T): seq<T> {
    if given then [x] else []
  }

  function Pick(f: Fragment, o: SearchOptions): seq<Fragment> {
    IfGiven(Given(f, o), f)
  }

  /** The fragments of `fs` whose option is given, in the order of `fs`. */
  function Chosen(fs: seq<Fragment>, o: SearchOptions): seq<Fragment> {
    if fs == [] then [] else Pick(fs[0], o) + Chosen(fs[1..], o)
  }

  /** The value bound for each fragment of `fs`. */
  function BoundAll(fs: seq<Fragment>, o: SearchOptions, limit: Value): (vs: seq<Value>)
  {
    seq(|fs|, i requires 0 <= i < |fs| => Bound(fs[i], o, limit))
  }

  /** `WHERE c1 AND c2 ... ` around the conditions, or nothing when there are none. */
  function WhereClause(conditions: seq<Token>): seq<Token> {
    if conditions == [] then [] else [Lit(Where)] + Join(conditions, Lit(And)) + [Lit(WhereEnd)]
  }

  /**
   * The WHERE clause is empty exactly when there are no conditions; otherwise it
   * is `WHERE`, the conditions in their order with `AND` between each two, and
   * the closing space.
   */
  lemma WhereClauseShape(conditions: seq<Token>)
    ensures var w := WhereClause(conditions);
      (conditions == [] <==> w == []) &&
      (conditions != [] ==>
        |w| == 2 * |conditions| + 1 && w[0] == Lit(Where) && w[|w| - 1] == Lit(WhereEnd) &&
        forall j :: 0 <= j < |conditions| ==>
          w[2 * j + 1] == conditions[j] && (j < |conditions| - 1 ==> w[2 * j + 2] == Lit(And)))
  {
    if conditions != [] {
      var joined := Join(conditions, Lit(And));
      JoinShape(conditions, Lit(And));
      var w := WhereClause(conditions);
      assert w == [Lit(Where)] + joined + [Lit(WhereEnd)];
      forall j | 0 <= j < |conditions|
        ensures w[2 * j + 1] == conditions[j] && (j < |conditions| - 1 ==> w[2 * j + 2] == Lit(And))
      {
        assert w[2 * j + 1] == joined[2 * j];
        if j < |conditions| - 1 {
          assert w[2 * j + 2] == joined[2 * j + 1];
        }
      }
    }
  }

  /** The row filters applied: the given ones among city, owner, minimum and maximum price, in that order. */
  function RowFilters(o: SearchOptions): seq<Fragment> {
    Chosen(RowFilterOrder, o)
  }

  /** The values the row filters bind, in the same order. */
  function RowParams(o: SearchOptions): seq<Value> {
    BoundAll(RowFilters(o), o, Undefined)
  }

  /** The bind parameters: the given options' values in the fixed order, then the limit. */
  function BindParams(o: SearchOptions, limit: Value): seq<Value> {
    BoundAll(Chosen(FilterOrder, o), o, limit)
  }

  /** The HAVING clause: present exactly when the minimum rating is given, numbered after the row filters. */
  function HavingClause(o: SearchOptions): seq<Token> {
    if Given(RatingAtLeast, o) then [Placeholder(RatingAtLeast, |RowFilters(o)| + 1)] else []
  }

  /** The query text: the given row filters numbered from $1, then GROUP BY, HAVING, ORDER BY and LIMIT. */
  function Query(o: SearchOptions): seq<Token> {
    [Lit(SelectJoin)] + WhereClause(NumberedFrom(RowFilters(o), 1)) + [Lit(GroupById)] + HavingClause(o)
      + [Placeholder(OrderByLimit, |RowFilters(o)| + |HavingClause(o)| + 1)]
  }

  /** Options with every falsy field made absent. */
  function Normalize(o: SearchOptions): SearchOptions {
    SearchOptions(
      if Truthy(o.city, "") then o.city else None,
      if Truthy(o.ownerId, 0) then o.ownerId else None,
      if Truthy(o.minimumPricePerNight, 0.0) then o.minimumPricePerNight else None,
      if Truthy(o.maximumPricePerNight, 0.0) then o.maximumPricePerNight else None,
      if Truthy(o.minimumRating, 0.0) then o.minimumRating else None)
  }

  /** The number of truthy options among the five. */
  function TruthyCount(o: SearchOptions): nat {
    (if Truthy(o.city, "") then 1 else 0) + (if Truthy(o.ownerId, 0) then 1 else 0)
    + (if Truthy(o.minimumPricePerNight, 0.0) then 1 else 0)
    + (if Truthy(o.maximumPricePerNight, 0.0) then 1 else 0)
    + (if Truthy(o.minimumRating, 0.0) then 1 else 0)
  }

  /**
   * The four row filters of getAllProperties: each truthy option pushes its
   * value onto the parameter list and then a condition whose placeholder is the
   * list's new length.
   */
  method CollectRowFilters(options: SearchOptions)
    returns (queryParams: seq<Value>, conditions: seq<Token>)
    ensures queryParams == RowParams(options)
    ensures conditions == NumberedFrom(RowFilters(options), 1)
  {
    // Ghost names for whether each option is truthy and what it binds.
    ghost var city, owner, minPrice, maxPrice :=
      Truthy(options.city, ""), Truthy(options.ownerId, 0), Truthy(options.minimumPricePerNight, 0.0),
      Truthy(options.maximumPricePerNight, 0.0);
    ghost var cityValue, ownerValue, minValue, maxValue :=
      Text(CityPattern(options.city.GetOr(""))), Text(Decimal.IntToDecimal(options.ownerId.GetOr(0))),
      Number(Cents(options.minimumPricePerNight.GetOr(0.0))), Number(Cents(options.maximumPricePerNight.GetOr(0.0)));
    ghost var rows: seq<Fragment> := [];  // the row filters applied so far

    queryParams := [];
    conditions := [];

    if Truthy(options.city, "") {
      queryParams := queryParams + [Text(CityPattern(options.city.value))];
      conditions := conditions + [Placeholder(CityLike, |queryParams|)];
      NumberedFromSnoc(rows, CityLike, 1);
      rows := rows + [CityLike];
    }
    assert queryParams == IfGiven(city, cityValue);
    assert rows == IfGiven(city, CityLike) && conditions == NumberedFrom(rows, 1);

    if Truthy(options.ownerId, 0) {
      queryParams := queryParams + [Text(Decimal.IntToDecimal(options.ownerId.value))];
      conditions := conditions + [Placeholder(OwnerIdEq, |queryParams|)];
      NumberedFromSnoc(rows, OwnerIdEq, 1);
      rows := rows + [OwnerIdEq];
    }
    assert queryParams == IfGiven(city, cityValue) + IfGiven(owner, ownerValue);
    assert rows == IfGiven(city, CityLike) + IfGiven(owner, OwnerIdEq) && conditions == NumberedFrom(rows, 1);

    if Truthy(options.minimumPricePerNight, 0.0) {
      queryParams := queryParams + [Number(Cents(options.minimumPricePerNight.value))];
      conditions := conditions + [Placeholder(CostAtLeast, |queryParams|)];
      NumberedFromSnoc(rows, CostAtLeast, 1);
      rows := rows + [CostAtLeast];
    }
    assert queryParams == IfGiven(city, cityValue) + IfGiven(owner, ownerValue) + IfGiven(minPrice, minValue);
    assert rows == IfGiven(city, CityLike) + IfGiven(owner, OwnerIdEq) + IfGiven(minPrice, CostAtLeast);
    assert conditions == NumberedFrom(rows, 1);

    if Truthy(options.maximumPricePerNight, 0.0) {
      queryParams := queryParams + [Number(Cents(options.maximumPricePerNight.value))];
      conditions := conditions + [Placeholder(CostAtMost, |queryParams|)];
      NumberedFromSnoc(rows, CostAtMost, 1);
      rows := rows + [CostAtMost];
    }
    assert queryParams == IfGiven(city, cityValue) + IfGiven(owner, ownerValue) + IfGiven(minPrice, minValue)
      + IfGiven(maxPrice, maxValue);
    assert rows == IfGiven(city, CityLike) + IfGiven(owner, OwnerIdEq) + IfGiven(minPrice, CostAtLeast)
      + IfGiven(maxPrice, CostAtMost);
    RowFiltersByOption(options);
    RowParamsByOption(options);
  }

  /**
   * getAllProperties, up to the call of the SQL client: pushes onto the
   * parameter list and the condition list, and appends to the query string.
   */
  method GetAllProperties(options: SearchOptions, limit: Value)
    returns (queryString: seq<Token>, queryParams: seq<Value>)
    ensures queryString == Query(options)
    ensures queryParams == BindParams(options, limit)
    ensures WellNumbered(queryString, queryParams)
  {
    var conditions;
    queryParams, conditions := CollectRowFilters(options);
    ghost var rowCount := |queryParams|;
    assert rowCount == |RowFilters(options)| == |conditions|;

    queryString := [Lit(SelectJoin)];
    if |conditions| > 0 {
      queryString := queryString + [Lit(Where)] + Join(conditions, Lit(And)) + [Lit(WhereEnd)];
    }
    assert queryString == [Lit(SelectJoin)] + WhereClause(conditions);

    queryString := queryString + [Lit(GroupById)];
    if Truthy(options.minimumRating, 0.0) {
      queryParams := queryParams + [Number(options.minimumRating.value)];
      queryString := queryString + [Placeholder(RatingAtLeast, |queryParams|)];
    }
    assert queryString == [Lit(SelectJoin)] + WhereClause(conditions) + [Lit(GroupById)] + HavingClause(options);
    assert queryParams == RowParams(options) + IfGiven(Truthy(options.minimumRating, 0.0), Number(options.minimumRating.GetOr(0.0)));

    queryParams := queryParams + [limit];
    queryString := queryString + [Placeholder(OrderByLimit, |queryParams|)];

    BindParamsSplit(options, limit);
    PlaceholdersNumbered(options, limit);
  }

  /** The row filters, option by option. */
  lemma RowFiltersByOption(o: SearchOptions)
    ensures RowFilters(o)
      == IfGiven(Truthy(o.city, ""), CityLike) + IfGiven(Truthy(o.ownerId, 0), OwnerIdEq)
      + IfGiven(Truthy(o.minimumPricePerNight, 0.0), CostAtLeast) + IfGiven(Truthy(o.maximumPricePerNight, 0.0), CostAtMost)
  {
    ChosenRowFilters(o);
  }

  /** The row filters' values, option by option. */
  lemma RowParamsByOption(o: SearchOptions)
    ensures RowParams(o)
      == IfGiven(Truthy(o.city, ""), Text(CityPattern(o.city.GetOr(""))))
      + IfGiven(Truthy(o.ownerId, 0), Text(Decimal.IntToDecimal(o.ownerId.GetOr(0))))
      + IfGiven(Truthy(o.minimumPricePerNight, 0.0), Number(Cents(o.minimumPricePerNight.GetOr(0.0))))
      + IfGiven(Truthy(o.maximumPricePerNight, 0.0), Number(Cents(o.maximumPricePerNight.GetOr(0.0))))
  {
    ChosenRowFilters(o);
    var a, b, c, d := Pick(CityLike, o), Pick(OwnerIdEq, o), Pick(CostAtLeast, o), Pick(CostAtMost, o);
    BoundAllAppend(a + b + c, d, o, Undefined);
    BoundAllAppend(a + b, c, o, Undefined);
    BoundAllAppend(a, b, o, Undefined);
    BoundPick(CityLike, o, Undefined);
    BoundPick(OwnerIdEq, o, Undefined);
    BoundPick(CostAtLeast, o, Undefined);
    BoundPick(CostAtMost, o, Undefined);
  }

  lemma BoundPick(f: Fragment, o: SearchOptions, limit: Value)
    ensures BoundAll(Pick(f, o), o, limit) == IfGiven(Given(f, o), Bound(f, o, limit))
  {
  }

  /** The bind parameters are the row filters' values, the minimum rating if truthy, and the limit. */
  lemma BindParamsSplit(o: SearchOptions, limit: Value)
    ensures BindParams(o, limit)
      == RowParams(o) + IfGiven(Truthy(o.minimumRating, 0.0), Number(o.minimumRating.GetOr(0.0))) + [limit]
  {
    ChosenFilterOrder(o);
    var rows, e := RowFilters(o), Pick(RatingAtLeast, o);
    BoundAllAppend(rows + e, [OrderByLimit], o, limit);
    BoundAllAppend(rows, e, o, limit);
    ChosenMembers(RowFilterOrder, o);
    forall i | 0 <= i < |rows|
      ensures Bound(rows[i], o, limit) == Bound(rows[i], o, Undefined)
    {
      assert rows[i] in rows;
    }
    assert BoundAll(rows, o, limit) == BoundAll(rows, o, Undefined);
  }

  // ---------------------------------------------------------------------
  // Facts about Chosen

  lemma {:induction false} ChosenAppend(a: seq<Fragment>, b: seq<Fragment>, o: SearchOptions)
    ensures Chosen(a + b, o) == Chosen(a, o) + Chosen(b, o)
  {
    if a == [] {
      assert a + b == b;
    } else {
      assert (a + b)[1..] == a[1..] + b;
      ChosenAppend(a[1..], b, o);
    }
  }

  lemma {:induction false} ChosenMembers(fs: seq<Fragment>, o: SearchOptions)
    ensures forall f :: f in Chosen(fs, o) ==> f in fs && Given(f, o)
  {
    if fs != [] {
      ChosenMembers(fs[1..], o);
    }
  }

  /** The row filters applied are the truthy ones among city, owner, minimum and maximum price, in that order. */
  lemma ChosenRowFilters(o: SearchOptions)
    ensures RowFilters(o)
      == Pick(CityLike, o) + Pick(OwnerIdEq, o) + Pick(CostAtLeast, o) + Pick(CostAtMost, o)
  {
    var fs := RowFilterOrder;
    assert fs[0] == CityLike && fs[1..] == [OwnerIdEq, CostAtLeast, CostAtMost];
    assert Chosen(fs, o) == Pick(CityLike, o) + Chosen(fs[1..], o);
    var fs1 := fs[1..];
    assert fs1[0] == OwnerIdEq && fs1[1..] == [CostAtLeast, CostAtMost];
    assert Chosen(fs1, o) == Pick(OwnerIdEq, o) + Chosen(fs1[1..], o);
    var fs2 := fs1[1..];
    assert fs2[0] == CostAtLeast && fs2[1..] == [CostAtMost];
    assert Chosen(fs2, o) == Pick(CostAtLeast, o) + Chosen(fs2[1..], o);
    var fs3 := fs2[1..];
    assert fs3[0] == CostAtMost && fs3[1..] == [];
    assert Chosen(fs3, o) == Pick(CostAtMost, o) + Chosen(fs3[1..], o);
  }

  /** All bound fragments: the row filters, then the rating filter if given, then the limit. */
  lemma ChosenFilterOrder(o: SearchOptions)
    ensures Chosen(FilterOrder, o) == RowFilters(o) + Pick(RatingAtLeast, o) + [OrderByLimit]
  {
    var tail := [RatingAtLeast, OrderByLimit];
    ChosenAppend(RowFilterOrder, tail, o);
    assert tail[0] == RatingAtLeast && tail[1..] == [OrderByLimit];
    assert Chosen(tail, o) == Pick(RatingAtLeast, o) + Chosen(tail[1..], o);
    assert Chosen([OrderByLimit], o) == Pick(OrderByLimit, o) + Chosen([], o);
  }

  lemma BoundAllAppend(a: seq<Fragment>, b: seq<Fragment>, o: SearchOptions, limit: Value)
    ensures BoundAll(a + b, o, limit) == BoundAll(a, o, limit) + BoundAll(b, o, limit)
  {
  }

  // ---------------------------------------------------------------------
  // What the built query promises

  /** One parameter per row filter, one for the rating filter when given, and the limit. */
  lemma BindParamsLength(o: SearchOptions, limit: Value)
    ensures |BindParams(o, limit)| == |RowFilters(o)| + |HavingClause(o)| + 1
  {
    ChosenFilterOrder(o);
  }

  /** The WHERE clause of numbered row filters holds the placeholders $1 .. $k in order. */
  lemma PlaceholdersOfWhere(rows: seq<Fragment>)
    ensures Placeholders(WhereClause(NumberedFrom(rows, 1))) == Range(1, |rows|)
  {
    var conds := NumberedFrom(rows, 1);
    PlaceholdersOfRun(conds, 1);
    if conds != [] {
      PlaceholdersOfJoin(conds, Lit(And));
      PlaceholdersAppend([Lit(Where)], Join(conds, Lit(And)));
      PlaceholdersAppend([Lit(Where)] + Join(conds, Lit(And)), [Lit(WhereEnd)]);
    }
  }

  /** The n-th placeholder of the query is `$n` and names the n-th bind parameter. */
  lemma PlaceholdersNumbered(o: SearchOptions, limit: Value)
    ensures WellNumbered(Query(o), BindParams(o, limit))
  {
    var k := |RowFilters(o)|;
    var w := WhereClause(NumberedFrom(RowFilters(o), 1));
    BindParamsLength(o, limit);
    var n := |BindParams(o, limit)|;
    PlaceholdersOfWhere(RowFilters(o));
    var tail := HavingClause(o) + [Placeholder(OrderByLimit, n)];
    PlaceholdersOfRun(tail, k + 1);
    PlaceholdersAppend([Lit(SelectJoin)], w);
    PlaceholdersAppend([Lit(SelectJoin)] + w, [Lit(GroupById)]);
    PlaceholdersAppend([Lit(SelectJoin)] + w + [Lit(GroupById)], tail);
    assert Query(o) == [Lit(SelectJoin)] + w + [Lit(GroupById)] + tail;
    assert Range(1, k) + Range(k + 1, |tail|) == Range(1, n);
  }

  /**
   * Every placeholder is in range and names the value its condition needs:
   * `city LIKE` the pattern `%city%`, `owner_id =` the owner id's decimal text,
   * the price bounds the price in cents, the HAVING clause the minimum
   * rating, and LIMIT the limit.
   */
  lemma PlaceholdersBindIntendedValues(o: SearchOptions, limit: Value)
    ensures var q, p := Query(o), BindParams(o, limit);
      forall t :: t in q && t.Placeholder? ==> 1 <= t.n <= |p| && p[t.n - 1] == Bound(t.f, o, limit)
  {
    var q, p := Query(o), BindParams(o, limit);
    var rows := RowFilters(o);
    var k := |rows|;
    var conds := NumberedFrom(rows, 1);
    ChosenFilterOrder(o);
    var all := Chosen(FilterOrder, o);
    assert all == rows + Pick(RatingAtLeast, o) + [OrderByLimit];
    JoinMembers(conds, Lit(And));
    forall t | t in q && t.Placeholder?
      ensures 1 <= t.n <= |p| && p[t.n - 1] == Bound(t.f, o, limit)
    {
      if t in WhereClause(conds) {
        assert t in Join(conds, Lit(And));
        var j :| 0 <= j < |conds| && conds[j] == t;
        assert all[j] == rows[j];
      } else if t in HavingClause(o) {
        assert all[k] == RatingAtLeast;
      } else {
        assert t == Placeholder(OrderByLimit, k + |HavingClause(o)| + 1);
        assert all[|all| - 1] == OrderByLimit;
      }
    }
  }

  /**
   * The parameters, spelled out: city as `%city%`, owner id as its decimal
   * text, minimum and maximum price in cents, minimum rating, each only when
   * truthy and in this order, and the limit always last.
   */
  lemma ParamsInFixedOrder(o: SearchOptions, limit: Value)
    ensures BindParams(o, limit)
      == (if Truthy(o.city, "") then [Text("%" + o.city.value + "%")] else [])
      + (if Truthy(o.ownerId, 0) then [Text(Decimal.IntToDecimal(o.ownerId.value))] else [])
      + (if Truthy(o.minimumPricePerNight, 0.0) then [Number(o.minimumPricePerNight.value * 100.0)] else [])
      + (if Truthy(o.maximumPricePerNight, 0.0) then [Number(o.maximumPricePerNight.value * 100.0)] else [])
      + (if Truthy(o.minimumRating, 0.0) then [Number(o.minimumRating.value)] else [])
      + [limit]
  {
    BindParamsSplit(o, limit);
    RowParamsByOption(o);
  }

  /** One parameter per truthy option, plus the limit, which is the last one. */
  lemma ParamCount(o: SearchOptions, limit: Value)
    ensures var p := BindParams(o, limit);
      |p| == TruthyCount(o) + 1 && p[|p| - 1] == limit
  {
    ParamsInFixedOrder(o, limit);
  }

  /** A WHERE clause is emitted exactly when one of the four row filters is truthy. */
  lemma WhereIffRowFilter(o: SearchOptions)
    ensures Lit(Where) in Query(o)
      <==> Truthy(o.city, "") || Truthy(o.ownerId, 0)
           || Truthy(o.minimumPricePerNight, 0.0) || Truthy(o.maximumPricePerNight, 0.0)
  {
    RowFiltersPresent(o);
    WhereIffConditions(o);
  }

  /** The row filters are non-empty exactly when one of the four row options is truthy. */
  lemma RowFiltersPresent(o: SearchOptions)
    ensures RowFilters(o) != [] <==> (Truthy(o.city, "") || Truthy(o.ownerId, 0)
      || Truthy(o.minimumPricePerNight, 0.0) || Truthy(o.maximumPricePerNight, 0.0))
  {
    RowFiltersByOption(o);
  }

  lemma WhereIffConditions(o: SearchOptions)
    ensures Lit(Where) in Query(o) <==> RowFilters(o) != []
  {
    var rows := RowFilters(o);
    var rest := [Lit(GroupById)] + HavingClause(o) + [Placeholder(OrderByLimit, |rows| + |HavingClause(o)| + 1)];
    assert Lit(Where) !in rest;
    WhereOnlyInWhereClause(NumberedFrom(rows, 1), rest);
  }

  lemma WhereOnlyInWhereClause(conditions: seq<Token>, rest: seq<Token>)
    requires Lit(Where) !in rest
    ensures Lit(Where) in [Lit(SelectJoin)] + WhereClause(conditions) + rest <==> conditions != []
  {
    var q := [Lit(SelectJoin)] + WhereClause(conditions) + rest;
    if conditions != [] {
      assert q[1] == Lit(Where);
    } else {
      assert q == [Lit(SelectJoin)] + rest;
    }
  }

  /**
   * The truthy row filters appear right after the SELECT, between `WHERE` and
   * the closing space, as `$1 AND $2 AND ...` in the fixed filter order.
   */
  lemma RowConditionsJoinedWithAnd(o: SearchOptions)
    ensures var q, rows := Query(o), RowFilters(o);
      rows != [] ==>
        |q| > 2 * |rows| + 1 && q[1] == Lit(Where) && q[2 * |rows| + 1] == Lit(WhereEnd) &&
        forall i :: 0 <= i < |rows| ==>
          q[2 * i + 2] == Placeholder(rows[i], i + 1) && (i < |rows| - 1 ==> q[2 * i + 3] == Lit(And))
  {
    var q, rows := Query(o), RowFilters(o);
    if rows != [] {
      var conds := NumberedFrom(rows, 1);
      var w := WhereClause(conds);
      WhereClauseShape(conds);
      var rest := [Lit(GroupById)] + HavingClause(o) + [Placeholder(OrderByLimit, |rows| + |HavingClause(o)| + 1)];
      assert q == [Lit(SelectJoin)] + w + rest;
      forall i | 0 <= i < |rows|
        ensures q[2 * i + 2] == Placeholder(rows[i], i + 1) && (i < |rows| - 1 ==> q[2 * i + 3] == Lit(And))
      {
        assert q[2 * i + 2] == w[2 * i + 1] == conds[i];
        if i < |rows| - 1 {
          assert q[2 * i + 3] == w[2 * i + 2];
        }
      }
    }
  }

  /**
   * GROUP BY is always emitted; HAVING follows it exactly when the minimum
   * rating is truthy, binding the next-to-last parameter; the query ends with
   * ORDER BY ... LIMIT naming the last parameter; and none of these three
   * appears anywhere earlier (in particular HAVING is never inside WHERE).
   */
  lemma GroupHavingLimitAtEnd(o: SearchOptions, limit: Value)
    ensures |BindParams(o, limit)| >= 1
    ensures var q, n := Query(o), |BindParams(o, limit)|;
      var tail := if Truthy(o.minimumRating, 0.0)
        then [Lit(GroupById), Placeholder(RatingAtLeast, n - 1), Placeholder(OrderByLimit, n)]
        else [Lit(GroupById), Placeholder(OrderByLimit, n)];
      |tail| <= |q| && q[|q| - |tail|..] == tail &&
      forall t :: t in q[..|q| - |tail|] ==> t.f !in {GroupById, RatingAtLeast, OrderByLimit}
  {
    var rows := RowFilters(o);
    var conds := NumberedFrom(rows, 1);
    var w := WhereClause(conds);
    BindParamsLength(o, limit);
    ChosenMembers(RowFilterOrder, o);
    JoinMembers(conds, Lit(And));
    var head := [Lit(SelectJoin)] + w;
    forall t | t in head
      ensures t.f !in {GroupById, RatingAtLeast, OrderByLimit}
    {
      if t in Join(conds, Lit(And)) && t != Lit(And) {
        var j :| 0 <= j < |conds| && conds[j] == t;
        assert rows[j] in rows;
      }
    }
    var q := Query(o);
    var tail := [Lit(GroupById)] + HavingClause(o) + [Placeholder(OrderByLimit, |BindParams(o, limit)|)];
    assert q == head + tail;
    assert q[..|q| - |tail|] == head;
    assert q[|q| - |tail|..] == tail;
  }

  /** Falsy option values (0, "", absent) add neither a parameter nor a condition. */
  lemma FalsyOptionsIgnored(o: SearchOptions, limit: Value)
    ensures Query(Normalize(o)) == Query(o)
    ensures BindParams(Normalize(o), limit) == BindParams(o, limit)
  {
    FalsyParamsIgnored(o, limit);
    var n := Normalize(o);
    assert RowFilters(n) == RowFilters(o) by {
      RowFiltersByOption(o);
      RowFiltersByOption(n);
    }
    assert HavingClause(n) == HavingClause(o) by {
      assert Given(RatingAtLeast, n) == Truthy(n.minimumRating, 0.0);
    }
    QueryOfParts(n, o);
  }

  lemma FalsyParamsIgnored(o: SearchOptions, limit: Value)
    ensures BindParams(Normalize(o), limit) == BindParams(o, limit)
  {
    var n := Normalize(o);
    BindParamsSplit(o, limit);
    BindParamsSplit(n, limit);
    assert RowParams(n) == RowParams(o) by {
      RowParamsByOption(o);
      RowParamsByOption(n);
      assert IfGiven(Truthy(n.city, ""), Text(CityPattern(n.city.GetOr(""))))
        == IfGiven(Truthy(o.city, ""), Text(CityPattern(o.city.GetOr(""))));
      assert IfGiven(Truthy(n.ownerId, 0), Text(Decimal.IntToDecimal(n.ownerId.GetOr(0))))
        == IfGiven(Truthy(o.ownerId, 0), Text(Decimal.IntToDecimal(o.ownerId.GetOr(0))));
      assert IfGiven(Truthy(n.minimumPricePerNight, 0.0), Number(Cents(n.minimumPricePerNight.GetOr(0.0))))
        == IfGiven(Truthy(o.minimumPricePerNight, 0.0), Number(Cents(o.minimumPricePerNight.GetOr(0.0))));
      assert IfGiven(Truthy(n.maximumPricePerNight, 0.0), Number(Cents(n.maximumPricePerNight.GetOr(0.0))))
        == IfGiven(Truthy(o.maximumPricePerNight, 0.0), Number(Cents(o.maximumPricePerNight.GetOr(0.0))));
    }
    assert IfGiven(Truthy(n.minimumRating, 0.0), Number(n.minimumRating.GetOr(0.0)))
      == IfGiven(Truthy(o.minimumRating, 0.0), Number(o.minimumRating.GetOr(0.0)));
  }

  /** The query depends on the options only through the row filters and the HAVING clause. */
  lemma QueryOfParts(o: SearchOptions, p: SearchOptions)
    requires RowFilters(o) == RowFilters(p) && HavingClause(o) == HavingClause(p)
    ensures Query(o) == Query(p)
  {
  }

  /** An owner id of 0 is treated as if no owner id were given. */
  lemma OwnerIdZeroIsAbsent(o: SearchOptions, limit: Value)
    ensures Query(o.(ownerId := Some(0))) == Query(o.(ownerId := None))
    ensures BindParams(o.(ownerId := Some(0)), limit) == BindParams(o.(ownerId := None), limit)
  {
    FalsyOptionsIgnored(o.(ownerId := Some(0)), limit);
    FalsyOptionsIgnored(o.(ownerId := None), limit);
    assert Normalize(o.(ownerId := Some(0))) == Normalize(o.(ownerId := None));
  }

  // ---------------------------------------------------------------------
  // Worked instances

  /** Whether none of the five options is truthy. */
  predicate NoneTruthy(o: SearchOptions) {
    !Truthy(o.city, "") && !Truthy(o.ownerId, 0) && !Truthy(o.minimumPricePerNight, 0.0)
    && !Truthy(o.maximumPricePerNight, 0.0) && !Truthy(o.minimumRating, 0.0)
  }

  /** No truthy option: all properties, grouped, ordered by price; the limit is the only parameter, at $1. */
  lemma NoFilters(o: SearchOptions, limit: Value)
    requires NoneTruthy(o)
    ensures BindParams(o, limit) == [limit]
    ensures Query(o) == [Lit(SelectJoin), Lit(GroupById), Placeholder(OrderByLimit, 1)]
  {
    assert BindParams(o, limit) == [limit] by {
      ParamsInFixedOrder(o, limit);
    }
    assert RowFilters(o) == [] by {
      RowFiltersByOption(o);
    }
    assert NumberedFrom([], 1) == [];
  }

  /** A search by city alone binds `%city%` at $1 and the limit at $2. */
  lemma CityOnly(o: SearchOptions, limit: Value)
    requires NoneTruthy(o.(city := None)) && o.city.Some? && o.city.value != ""
    ensures BindParams(o, limit) == [Text("%" + o.city.value + "%"), limit]
    ensures Query(o) == [Lit(SelectJoin), Lit(Where), Placeholder(CityLike, 1), Lit(WhereEnd),
                         Lit(GroupById), Placeholder(OrderByLimit, 2)]
  {
    ParamsInFixedOrder(o, limit);
    RowFiltersByOption(o);
    assert RowFilters(o) == [CityLike];
    assert NumberedFrom([CityLike], 1) == [Placeholder(CityLike, 1)];
    assert Join([Placeholder(CityLike, 1)], Lit(And)) == [Placeholder(CityLike, 1)];
  }

  /** A price range alone binds both bounds in cents, the minimum first, then the limit. */
  lemma PriceRangeOnly(o: SearchOptions, limit: Value, low: real, high: real)
    requires NoneTruthy(o.(minimumPricePerNight := None, maximumPricePerNight := None))
    requires o.minimumPricePerNight == Some(low) && o.maximumPricePerNight == Some(high)
    requires low != 0.0 && high != 0.0
    ensures BindParams(o, limit) == [Number(low * 100.0), Number(high * 100.0), limit]
  {
    ParamsInFixedOrder(o, limit);
  }

  /** A minimum rating alone becomes a HAVING clause right after GROUP BY, with no WHERE. */
  lemma RatingOnly(o: SearchOptions, limit: Value)
    requires NoneTruthy(o.(minimumRating := None)) && o.minimumRating.Some? && o.minimumRating.value != 0.0
    ensures BindParams(o, limit) == [Number(o.minimumRating.value), limit]
    ensures Query(o) == [Lit(SelectJoin), Lit(GroupById), Placeholder(RatingAtLeast, 1), Placeholder(OrderByLimit, 2)]
  {
    ParamsInFixedOrder(o, limit);
    RowFiltersByOption(o);
  }
}
