/**
 * The OData query-option model: one variant per option kind, each with a
 * fixed parameter name and a rendered value, and the query that collects
 * options in order.
 */
module Query {
  import opened Wrappers
  import opened Strings

  /** Go's `int` on the 64-bit platforms the client targets. */
  newtype Int64 = x: int | -0x8000_0000_0000_0000 <= x < 0x8000_0000_0000_0000

  /** `OrderByDirection`. */
  datatype Direction = Ascending | Descending

  /** The query options the client defines, each carrying its own data. */
  datatype QueryOption =
    | Select(properties: seq<string>)
    | OrderBy(directions: map<string, Direction>)
    | Top(top: Int64)
    | Skip(skip: Int64)
    | SkipToken(token: string)
    | Count(count: bool)

  /** The parameter name of an option; it depends on the kind only, never on the data. */
  function Name(o: QueryOption): (r: string)
    ensures |r| > 1 && r[0] == '$'
  {
    match o
    case Select(_) => "$select"
    case OrderBy(_) => "$orderby"
    case Top(_) => "$top"
    case Skip(_) => "$skip"
    case SkipToken(_) => "$skipToken"
    case Count(_) => "$count"
  }

  predicate SameKind(a: QueryOption, b: QueryOption)
  {
    || (a.Select? && b.Select?)
    || (a.OrderBy? && b.OrderBy?)
    || (a.Top? && b.Top?)
    || (a.Skip? && b.Skip?)
    || (a.SkipToken? && b.SkipToken?)
    || (a.Count? && b.Count?)
  }

  /** Two options share a name exactly when they are of the same kind (zero values included). */
  lemma NameIdentifiesKind(a: QueryOption, b: QueryOption)
    ensures Name(a) == Name(b) <==> SameKind(a, b)
  {
  }

  /**
   * The options whose value is meaningful text. `OrderBy` renders through
   * `OrderByValue` below; `Count` formats a boolean with `%d`, which Go
   * answers with bad-verb text.
   */
  predicate HasPlainValue(o: QueryOption)
  {
    !o.OrderBy? && !o.Count?
  }

  /** The rendered value of an option. */
  function Value(o: QueryOption): (r: string)
    requires HasPlainValue(o)
    ensures o.Top? ==> ParseDecimal(r) == Some(o.top as int)
    ensures o.Skip? ==> ParseDecimal(r) == Some(o.skip as int)
    ensures o.SkipToken? ==> r == o.token
    ensures o.Select? && o.properties != [] && Free(o.properties, ',') ==> Split(r, ',') == o.properties
    ensures o.Select? && o.properties == [] ==> r == ""
  {
    match o
    case Select(properties) =>
      if properties != [] && Free(properties, ',') then SplitJoin(properties, ','); Join(properties, ",")
      else Join(properties, ",")
    case Top(top) => DecimalRoundTrip(top as int); Decimal(top as int)
    case Skip(skip) => DecimalRoundTrip(skip as int); Decimal(skip as int)
    case SkipToken(token) => token
  }

  /** Adding a property to a select option adds one comma (none for the first) and the property at the end. */
  lemma SelectValueAppend(properties: seq<string>, p: string)
    ensures Value(Select(properties + [p])) ==
      if properties == [] then p else Value(Select(properties)) + "," + p
  {
    JoinAppend(properties, p, ",");
  }

  /** The cases `TestSelectQuery` pins: one property has no comma, two are comma-separated. */
  lemma SelectValueExamples()
    ensures Value(Select(["prop1"])) == "prop1"
    ensures Value(Select(["prop1", "prop2"])) == "prop1,prop2"
  {
  }

  /** A `SelectQuery` under construction; `AddProperty` appends through a pointer receiver. */
  class SelectQuery {
    var properties: seq<string>

    /** `NewSelectQuery`; the zero value `SelectQuery{}` is `new SelectQuery([])`. */
    constructor (properties: seq<string>)
      ensures this.properties == properties
    {
      this.properties := properties;
    }

    method AddProperty(property: string)
      modifies this
      ensures properties == old(properties) + [property]
    {
      properties := properties + [property];
    }

    /** The query as an option value: named "$select", valued by its properties comma-joined in order. */
    function AsOption(): (o: QueryOption)
      reads this
      ensures HasPlainValue(o) && Name(o) == "$select" && Value(o) == Join(properties, ",")
    {
      Select(properties)
    }
  }

  /** An `OrderByQuery`; its `AddProperty` has an empty body. */
  class OrderByQuery {
    var properties: map<string, Direction>

    constructor (properties: map<string, Direction>)
      ensures this.properties == properties
    {
      this.properties := properties;
    }

    method AddProperty(property: string, direction: Direction)
      ensures unchanged(this)
    {
    }
  }

  /** `s` lists each element at most once. */
  predicate Distinct(s: seq<string>)
  {
    forall i, j :: 0 <= i < j < |s| ==> s[i] != s[j]
  }

  lemma {:induction false} DistinctCard(s: seq<string>)
    requires Distinct(s)
    ensures |set x | x in s| == |s|
    decreases |s|
  {
    if |s| > 0 {
      var t := s[..|s| - 1];
      DistinctCard(t);
      assert (set x | x in s) == (set x | x in t) + {s[|s| - 1]};
      assert s[|s| - 1] !in (set x | x in t);
    }
  }

  /**
   * `OrderByQuery.Value`: one "key direction" entry per map key, comma-joined.
   * Go leaves the map's iteration order unspecified; `order` is the order the
   * runtime happened to choose, listing every key once. `dirText` is the text
   * `%s` gives for a direction, which is Go's bad-verb output for an integer.
   */
  method OrderByValue(directions: map<string, Direction>, order: seq<string>, dirText: Direction -> string)
    returns (r: string, entries: seq<string>)
    requires Distinct(order)
    requires forall k :: k in directions <==> k in order
    ensures |entries| == |order| == |directions|
    ensures forall i :: 0 <= i < |entries| ==>
      order[i] in directions && entries[i] == order[i] + " " + dirText(directions[order[i]])
    ensures r == Join(entries, ",")
  {
    entries := [];
    var i := 0;
    while i < |order|
      invariant 0 <= i <= |order|
      invariant |entries| == i
      invariant forall j :: 0 <= j < i ==> entries[j] == order[j] + " " + dirText(directions[order[j]])
    {
      entries := entries + [order[i] + " " + dirText(directions[order[i]])];
      i := i + 1;
    }
    DistinctCard(order);
    assert (set x | x in order) == directions.Keys;
    r := Join(entries, ",");
  }

  /** An element of a logical filter: an empty struct in the source. */
  datatype FilterQuery = FilterQuery

  /** `LogicalFilterQuery`: an operator ("and", "or", or any other text) and its elements. */
  datatype LogicalFilterQuery = LogicalFilterQuery(operator: string, queries: seq<FilterQuery>)

  /** `LogicalFilterQuery.String`: the rendered elements joined by the bare operator, in parentheses. */
  method LogicalFilterString(q: LogicalFilterQuery) returns (r: string)
    ensures |r| >= 2 && r[0] == '(' && r[|r| - 1] == ')'
    ensures r[1..|r| - 1] == Join(seq(|q.queries|, _ => "{}"), q.operator)
    ensures q.queries == [] ==> r == "()"
  {
    var result: seq<string> := [];
    for i := 0 to |q.queries|
      invariant result == seq(i, _ => "{}")
    {
      // `fmt.Sprintf("%s", query)` of an empty struct is "{}"
      result := result + ["{}"];
    }
    r := "(" + Join(result, q.operator) + ")";
  }

  /** The total length of a rendered filter: parentheses, two characters per element, one operator between neighbours. */
  lemma {:induction false} LogicalFilterLength(n: nat, op: string)
    ensures |Join(seq(n, _ => "{}"), op)| == if n == 0 then 0 else 2 * n + (n - 1) * |op|
    decreases n
  {
    if n > 1 {
      LogicalFilterLength(n - 1, op);
      assert seq(n, _ => "{}")[1..] == seq(n - 1, _ => "{}");
    }
  }

  /** Why rendering a query with options fails: `url.Values` is nil, so its first `Add` writes to a nil map. */
  datatype Panic = AssignmentToNilMap

  /** A `GraphQuery`: an append-only list of options. */
  class GraphQuery {
    var options: seq<QueryOption>

    constructor ()
      ensures options == []
    {
      options := [];
    }

    /** Appends one option at the end and returns the same query, for chaining. */
    method AddOption(option: QueryOption) returns (q: GraphQuery)
      modifies this
      ensures options == old(options) + [option]
      ensures q == this
    {
      options := options + [option];
      q := this;
    }

    /**
     * `GraphQuery.String`: declares `url.Values` without making it, so the
     * first option it adds panics; with no options it encodes the empty
     * (nil) set of values, "".
     */
    method String() returns (r: Result<string, Panic>)
      ensures r.Success? <==> options == []
      ensures r.Success? ==> r.value == ""
      ensures r.Failure? ==> r.error == AssignmentToNilMap
    {
      if |options| > 0 {
        r := Failure(AssignmentToNilMap);
      } else {
        r := Success("");
      }
    }
  }
}
