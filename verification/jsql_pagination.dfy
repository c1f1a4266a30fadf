/**
 * The paging parameter resolver: given a structured query (JSQL), a page size and a
 * requested page offset, it validates the paging values and computes the absolute
 * window `{limit, offset, baseOffset}` together with the query to send to the executor.
 */
module JsqlPagination {
  import opened Wrappers

  /**
   * A JSQL field value as the resolver tells values apart: a finite integral number,
   * a finite number with a fractional part, NaN or an infinity, a string, `null`, and
   * anything else (booleans, objects, arrays).
   */
  datatype Value = Int(n: int) | Fraction | NonFinite | Text(s: string) | Null | Other

  /** An open structured query: string keys mapped to values. */
  type Query = map<string, Value>

  /** The validation error, carrying the name of the offending paging field. */
  datatype PagingError = InvalidField(fieldName: string)

  /** The resolved window. */
  datatype JsqlPaging = JsqlPaging(limit: nat, offset: nat, baseOffset: nat)

  /** The query to execute and the window it was given. */
  datatype Paged = Paged(jsql: Query, paging: JsqlPaging)

  const DefaultPageSize: nat := 100

  /** The page size used when a query embeds no limit. */
  function GetDefaultPageSize(): (r: nat)
    ensures r == 100
  {
    DefaultPageSize
  }

  /** True when `v` is an integer at least 0, the only values the resolver accepts. */
  predicate IsNonNegativeInteger(v: Value)
  {
    v.Int? && v.n >= 0
  }

  /** True when an optional field is absent, `null`, or a non-negative integer. */
  predicate IsAbsentOrNonNegativeInteger(v: Option<Value>)
  {
    v.None? || v.value.Null? || IsNonNegativeInteger(v.value)
  }

  /** True when an optional field carries a value (neither absent nor `null`). */
  predicate IsPresent(v: Option<Value>)
  {
    v.Some? && !v.value.Null?
  }

  /** The value stored under `key`, absent (`undefined`) when the key is missing. */
  function Field(jsql: Query, key: string): (r: Option<Value>)
    ensures r.Some? <==> key in jsql
    ensures r.Some? ==> r.value == jsql[key]
  {
    if key in jsql then Some(jsql[key]) else None
  }

  /**
   * Accepts exactly the integers at least 0 and returns them unchanged; every other
   * value is rejected with an error naming `fieldName`.
   */
  function ParseNonNegativeInteger(value: Value, fieldName: string): (r: Result<nat, PagingError>)
    ensures r.Ok? <==> IsNonNegativeInteger(value)
    ensures r.Ok? ==> value == Int(r.value)
    ensures r.Err? ==> r.error == InvalidField(fieldName)
  {
    if !value.Int? then
      // not a number, not finite, or not an integer
      Err(InvalidField(fieldName))
    else if value.n < 0 then
      Err(InvalidField(fieldName))
    else
      Ok(value.n)
  }

  /** Maps an absent or `null` field to `None`; every other value must parse. */
  function ReadOptionalInteger(value: Option<Value>, fieldName: string): (r: Result<Option<nat>, PagingError>)
    ensures r.Ok? <==> IsAbsentOrNonNegativeInteger(value)
    ensures r.Ok? ==> (r.value.None? <==> !IsPresent(value))
    ensures r.Ok? && r.value.Some? ==> value == Some(Int(r.value.value))
    ensures r.Err? ==> r.error == InvalidField(fieldName)
  {
    if value.None? || value.value.Null? then
      Ok(None)
    else
      match ParseNonNegativeInteger(value.value, fieldName)
      case Ok(n) => Ok(Some(n))
      case Err(e) => Err(e)
  }

  /**
   * Resolves the window for page `pageOffset`. The page size and page offset are
   * validated first, under the names "limit" and "offset"; then the query's own
   * `limit` and `offset`. The window's limit is the embedded limit, else the page
   * size; its base offset is the embedded offset, else 0; its offset is the base
   * offset plus the page offset. The returned query is the input with `limit` and
   * `offset` replaced by the window's values and every other key kept.
   */
  function WithPaging(jsql: Query, pageSize: Value, pageOffset: Value): (r: Result<Paged, PagingError>)
    // which inputs are accepted, and which field an error names
    ensures r.Ok? <==>
      IsNonNegativeInteger(pageSize) && IsNonNegativeInteger(pageOffset) &&
      IsAbsentOrNonNegativeInteger(Field(jsql, "limit")) &&
      IsAbsentOrNonNegativeInteger(Field(jsql, "offset"))
    ensures !IsNonNegativeInteger(pageSize) ==> r == Err(InvalidField("limit"))
    ensures IsNonNegativeInteger(pageSize) && !IsNonNegativeInteger(pageOffset) ==>
      r == Err(InvalidField("offset"))
    ensures (IsNonNegativeInteger(pageSize) && IsNonNegativeInteger(pageOffset) &&
             !IsAbsentOrNonNegativeInteger(Field(jsql, "limit"))) ==>
      r == Err(InvalidField("limit"))
    ensures (IsNonNegativeInteger(pageSize) && IsNonNegativeInteger(pageOffset) &&
             IsAbsentOrNonNegativeInteger(Field(jsql, "limit")) &&
             !IsAbsentOrNonNegativeInteger(Field(jsql, "offset"))) ==>
      r == Err(InvalidField("offset"))
    // the window
    ensures r.Ok? ==>
      r.value.paging.limit == (if IsPresent(Field(jsql, "limit")) then jsql["limit"].n else pageSize.n)
    ensures r.Ok? ==>
      r.value.paging.baseOffset == (if IsPresent(Field(jsql, "offset")) then jsql["offset"].n else 0)
    ensures r.Ok? ==> r.value.paging.offset == r.value.paging.baseOffset + pageOffset.n
    // the query sent to the executor
    ensures r.Ok? ==> r.value.jsql.Keys == jsql.Keys + {"limit", "offset"}
    ensures r.Ok? ==> forall k :: k in jsql && k != "limit" && k != "offset" ==> r.value.jsql[k] == jsql[k]
    ensures r.Ok? ==> r.value.jsql["limit"] == Int(r.value.paging.limit)
    ensures r.Ok? ==> r.value.jsql["offset"] == Int(r.value.paging.offset)
  {
    match ParseNonNegativeInteger(pageSize, "limit")
    case Err(e) => Err(e)
    case Ok(normalizedPageSize) =>
      match ParseNonNegativeInteger(pageOffset, "offset")
      case Err(e) => Err(e)
      case Ok(normalizedPageOffset) =>
        match ReadOptionalInteger(Field(jsql, "limit"), "limit")
        case Err(e) => Err(e)
        case Ok(jsqlLimit) =>
          match ReadOptionalInteger(Field(jsql, "offset"), "offset")
          case Err(e) => Err(e)
          case Ok(jsqlOffset) =>
            var limit := if jsqlLimit.Some? then jsqlLimit.value else normalizedPageSize;
            var baseOffset := if jsqlOffset.Some? then jsqlOffset.value else 0;
            var offset := baseOffset + normalizedPageOffset;
            Ok(Paged(jsql["limit" := Int(limit)]["offset" := Int(offset)],
                     JsqlPaging(limit, offset, baseOffset)))
  }

  /**
   * Re-resolving the query that WithPaging produced, at page offset 0 and under any
   * valid page size, reproduces the same query and limit and makes the absolute offset
   * the new base offset: the effective query carries its window in itself.
   */
  lemma EffectiveQueryCarriesItsWindow(jsql: Query, pageSize: Value, pageOffset: Value, otherPageSize: nat)
    requires WithPaging(jsql, pageSize, pageOffset).Ok?
    ensures var p := WithPaging(jsql, pageSize, pageOffset).value;
      WithPaging(p.jsql, Int(otherPageSize), Int(0)) ==
        Ok(Paged(p.jsql, JsqlPaging(p.paging.limit, p.paging.offset, p.paging.offset)))
  {
    var p := WithPaging(jsql, pageSize, pageOffset).value;
    var q := p.jsql;
    var w := p.paging;
    assert Field(q, "limit") == Some(Int(w.limit));
    assert Field(q, "offset") == Some(Int(w.offset));
    assert q["limit" := Int(w.limit)]["offset" := Int(w.offset)] == q;
  }

  /** The window's fields are non-negative and the absolute offset never precedes the base offset. */
  lemma WindowIsOrdered(jsql: Query, pageSize: Value, pageOffset: Value)
    requires WithPaging(jsql, pageSize, pageOffset).Ok?
    ensures var w := WithPaging(jsql, pageSize, pageOffset).value.paging;
      w.baseOffset <= w.offset && w.offset - w.baseOffset == pageOffset.n && pageOffset.n >= 0
  {
  }

  /** A query's own limit takes precedence over any page size. */
  lemma EmbeddedLimitOverridesPageSize(jsql: Query, n: nat, pageSize: Value, pageOffset: Value)
    requires Field(jsql, "limit") == Some(Int(n))
    requires WithPaging(jsql, pageSize, pageOffset).Ok?
    ensures WithPaging(jsql, pageSize, pageOffset).value.paging.limit == n
  {
  }

  /** Base offset 20, page offset 30, no limit and page size 100 give the window {100, 50, 20}. */
  lemma ExampleBaseOffsetTwenty()
    ensures var r := WithPaging(map["offset" := Int(20)], Int(100), Int(30));
      r.Ok? && r.value.paging == JsqlPaging(100, 50, 20) &&
      r.value.jsql == map["offset" := Int(50), "limit" := Int(100)]
  {
  }

  /** A query embedding limit -1 is rejected with an error naming "limit". */
  lemma ExampleNegativeLimit()
    ensures WithPaging(map["limit" := Int(-1)], Int(GetDefaultPageSize()), Int(0)) == Err(InvalidField("limit"))
  {
  }
}
