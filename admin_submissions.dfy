/** GET /api/admin/submissions (src/app/api/admin/submissions/route.ts): a
    page of event submissions for an administrator, read with two SQL
    queries whose placeholders are numbered as the values are pushed. */
module AdminSubmissions {
  import opened Common
  import opened EventRoutes

  // ---------------------------------------------------------------------
  // Query parameters

  /** What `z.coerce.number()` makes of a query-string value. */
  datatype Coerced = NotANumber | Number(x: real)

  const SubmissionStatuses := ["PENDING", "CONTACTED", "PROCESSING", "COMPLETED"]
  const DefaultLimit: real := 50.0
  const DefaultOffset: real := 0.0

  /** The parsed query: the optional status filter and the page window. */
  datatype ListQuery = ListQuery(status: Option<string>, limit: real, offset: real)

  /** A numeric parameter: the default when the key is absent, nothing when
      it does not coerce to a number. */
  function NumberParam(params: map<string, string>, key: string, coerce: string -> Coerced, default: real): (r: Option<real>)
    ensures key !in params ==> r == Some(default)
    ensures key in params ==> (r.None? <==> coerce(params[key]).NotANumber?)
    ensures key in params && r.Some? ==> r.value == coerce(params[key]).x
  {
    if key !in params then Some(default)
    else match coerce(params[key])
      case NotANumber => None
      case Number(x) => Some(x)
  }

  /** `querySchema.safeParse(Object.fromEntries(searchParams))`: a present
      status must be one of the four names, the limit must lie in [1, 100]
      (50 when absent) and the offset must be at least 0 (0 when absent);
      other keys are ignored. */
  function ParseQuery(params: map<string, string>, coerce: string -> Coerced): (r: Option<ListQuery>)
    ensures r.Some? <==>
      && ("status" in params ==> params["status"] in SubmissionStatuses)
      && NumberParam(params, "limit", coerce, DefaultLimit).Some?
      && 1.0 <= NumberParam(params, "limit", coerce, DefaultLimit).value <= 100.0
      && NumberParam(params, "offset", coerce, DefaultOffset).Some?
      && 0.0 <= NumberParam(params, "offset", coerce, DefaultOffset).value
    ensures r.Some? ==>
      && r.value.status == (if "status" in params then Some(params["status"]) else None)
      && 1.0 <= r.value.limit <= 100.0 && 0.0 <= r.value.offset
      && ("limit" !in params ==> r.value.limit == DefaultLimit)
      && ("offset" !in params ==> r.value.offset == DefaultOffset)
  {
    var limit := NumberParam(params, "limit", coerce, DefaultLimit);
    var offset := NumberParam(params, "offset", coerce, DefaultOffset);
    if "status" in params && params["status"] !in SubmissionStatuses then None
    else if limit.None? || !(1.0 <= limit.value <= 100.0) then None
    else if offset.None? || !(0.0 <= offset.value) then None
    else Some(ListQuery(if "status" in params then Some(params["status"]) else None, limit.value, offset.value))
  }

  // ---------------------------------------------------------------------
  // SQL text and placeholders

  /** A value bound to a placeholder. */
  datatype SqlValue = Text(s: string) | Numeric(n: real)

  /** The text of the list query before its filter and page window. */
  const SelectText := SelectHead + SelectColumns + SelectMore + SelectFrom
  const CountText := "SELECT COUNT(*) FROM \"Submission\""

  function StatusFilter(n: nat): string {
    " WHERE status = $" + NatToString(n)
  }

  function PageClause(n: nat): string {
    " ORDER BY \"createdAt\" DESC LIMIT $" + NatToString(n) + " OFFSET $" + NatToString(n + 1)
  }

  /** The length of the run of digits at the start of `s`. */
  function DigitRun(s: string): (d: nat)
    ensures d <= |s| && AllDigits(s[..d])
    ensures d < |s| ==> !IsDigit(s[d])
  {
    if s == [] || !IsDigit(s[0]) then 0
    else
      var d := DigitRun(s[1..]);
      assert s[..1 + d] == [s[0]] + s[1..][..d];
      1 + d
  }

  /** The numbers of the `$n` placeholders of a SQL text, left to right, as
      PostgreSQL reads them: a `$` followed by one or more digits. */
  function Placeholders(s: string): seq<nat>
    decreases |s|
  {
    if s == [] then []
    else if s[0] == '$' && DigitRun(s[1..]) > 0 then
      var d := DigitRun(s[1..]);
      assert s[1..1 + d] == s[1..][..d];
      [DigitsValue(s[1..1 + d])] + Placeholders(s[1 + d..])
    else Placeholders(s[1..])
  }

  /** `[1, 2, ..., k]`. */
  function Ordinals(k: nat): (r: seq<nat>)
    ensures |r| == k && forall i :: 0 <= i < k ==> r[i] == i + 1
  {
    if k == 0 then [] else Ordinals(k - 1) + [k]
  }

  predicate NoDollar(t: string) {
    forall i :: 0 <= i < |t| ==> t[i] != '$'
  }

  /** Text without `$` holds no placeholder. */
  lemma {:induction false} NoDollarPlaceholders(t: string, x: string)
    requires NoDollar(t)
    ensures Placeholders(t + x) == Placeholders(x)
    decreases |t|
  {
    if t == [] {
      assert t + x == x;
    } else {
      assert (t + x)[1..] == t[1..] + x;
      NoDollarPlaceholders(t[1..], x);
    }
  }

  /** A run of digits followed by a non-digit is read to its end. */
  lemma {:induction false} DigitRunAppend(ds: string, rest: string)
    requires AllDigits(ds)
    requires rest == [] || !IsDigit(rest[0])
    ensures DigitRun(ds + rest) == |ds|
    decreases |ds|
  {
    if ds == [] {
      assert ds + rest == rest;
    } else {
      assert (ds + rest)[1..] == ds[1..] + rest;
      DigitRunAppend(ds[1..], rest);
    }
  }

  /** Text without `$`, then `$n`, then text that does not go on with a
      digit: the placeholder `n` comes first. */
  lemma PlaceholderStep(t: string, n: nat, rest: string)
    requires NoDollar(t)
    requires rest == [] || !IsDigit(rest[0])
    ensures Placeholders(t + "$" + NatToString(n) + rest) == [n] + Placeholders(rest)
  {
    var num := NatToString(n);
    var y := "$" + num + rest;
    assert t + "$" + num + rest == t + y;
    NoDollarPlaceholders(t, y);
    DollarNumber(num, rest);
    NatToStringRoundTrip(n);
  }

  /** `$` and a run of digits ending where `rest` begins. */
  lemma DollarNumber(num: string, rest: string)
    requires |num| > 0 && AllDigits(num)
    requires rest == [] || !IsDigit(rest[0])
    ensures Placeholders("$" + num + rest) == [DigitsValue(num)] + Placeholders(rest)
  {
    var y := "$" + num + rest;
    assert y[1..] == num + rest;
    DigitRunAppend(num, rest);
    assert y[1..1 + |num|] == num;
    assert y[1 + |num|..] == rest;
  }

  lemma NoDollarAppend(a: string, b: string)
    requires NoDollar(a) && NoDollar(b)
    ensures NoDollar(a + b)
  {
  }

  /** The pieces of the list query's text, each short enough to check
      character by character. */
  const SelectHead := "\n      SELECT id, name, \"birthDate\", phone, "
  const SelectColumns := "\"subjectType\", \"subjectOther\", "
  const SelectMore := "\"audioFiles\", status, \"createdAt\", "
  const SelectFrom := "\"updatedAt\"\n      FROM \"Submission\"\n    "

  lemma SelectHeadHasNoDollar()
    ensures NoDollar(SelectHead) && NoDollar(SelectColumns)
  {
  }

  lemma SelectFromHasNoDollar()
    ensures NoDollar(SelectMore) && NoDollar(SelectFrom)
  {
  }

  lemma SelectTextHasNoDollar()
    ensures NoDollar(SelectText)
  {
    SelectHeadHasNoDollar();
    SelectFromHasNoDollar();
    NoDollarAppend(SelectHead, SelectColumns);
    NoDollarAppend(SelectHead + SelectColumns, SelectMore);
    NoDollarAppend(SelectHead + SelectColumns + SelectMore, SelectFrom);
  }

  lemma SmallNumerals()
    ensures NatToString(1) == "1" && NatToString(2) == "2" && NatToString(3) == "3"
  {
  }

  /** The page window holds `$n` then `$n+1`. */
  lemma PageClausePlaceholders(n: nat)
    ensures Placeholders(PageClause(n)) == [n, n + 1]
  {
    var page2 := " OFFSET $" + NatToString(n + 1);
    var page1 := " ORDER BY \"createdAt\" DESC LIMIT ";
    assert Placeholders(page2) == [n + 1] by {
      assert NoDollar(" OFFSET ");
      PlaceholderStep(" OFFSET ", n + 1, "");
      assert page2 == " OFFSET " + "$" + NatToString(n + 1) + "";
    }
    assert PageClause(n) == page1 + "$" + NatToString(n) + page2;
    assert NoDollar(page1);
    PlaceholderStep(page1, n, page2);
  }

  /** After any text without `$`, the filter and page window hold `$1 $2
      $3`, and the page window alone `$1 $2`. */
  lemma PagedPlaceholders(t: string, filtered: bool)
    requires NoDollar(t)
    ensures filtered ==> Placeholders(t + StatusFilter(1) + PageClause(2)) == [1, 2, 3]
    ensures !filtered ==> Placeholders(t + PageClause(1)) == [1, 2]
  {
    if filtered {
      PageClausePlaceholders(2);
      var where := " WHERE status = ";
      NoDollarAppend(t, where);
      assert t + StatusFilter(1) + PageClause(2) == t + where + "$" + NatToString(1) + PageClause(2);
      PlaceholderStep(t + where, 1, PageClause(2));
    } else {
      PageClausePlaceholders(1);
      NoDollarPlaceholders(t, PageClause(1));
    }
  }

  /** The list query's placeholders: `$1 $2 $3` with a status filter,
      `$1 $2` without. */
  lemma SelectPlaceholders(filtered: bool)
    ensures filtered ==> Placeholders(SelectText + StatusFilter(1) + PageClause(2)) == Ordinals(3)
    ensures !filtered ==> Placeholders(SelectText + PageClause(1)) == Ordinals(2)
  {
    SelectTextHasNoDollar();
    PagedPlaceholders(SelectText, filtered);
    assert Ordinals(3) == [1, 2, 3];
    assert Ordinals(2) == [1, 2];
  }

  /** The count query's placeholders: `$1` with a status filter, none
      without. */
  lemma CountPlaceholders(filtered: bool)
    ensures Placeholders(CountText + (if filtered then StatusFilter(1) else "")) == (if filtered then [1] else [])
  {
    assert NoDollar(CountText);
    if filtered {
      var where := " WHERE status = ";
      assert CountText + StatusFilter(1) == CountText + where + "$" + NatToString(1) + "";
      assert NoDollar(CountText + where);
      PlaceholderStep(CountText + where, 1, "");
    } else {
      NoDollarPlaceholders(CountText, "");
      assert CountText + "" == CountText;
    }
  }

  /** Lines 40-54: the list query grows with `+=` while `paramIndex` counts
      the values pushed so far, so its placeholders are exactly `$1..$k` for
      its `k` values: the status (when given), then the limit and the
      offset. */
  method BuildListQuery(q: ListQuery) returns (query: string, values: seq<SqlValue>)
    ensures q.status.Some? ==> values == [Text(q.status.value), Numeric(q.limit), Numeric(q.offset)]
    ensures q.status.None? ==> values == [Numeric(q.limit), Numeric(q.offset)]
    ensures q.status.Some? ==> query == SelectText + StatusFilter(1) + PageClause(2)
    ensures q.status.None? ==> query == SelectText + PageClause(1)
    ensures Placeholders(query) == Ordinals(|values|)
  {
    query := SelectText;
    values := [];
    var paramIndex: nat := 1;
    if q.status.Some? {
      query := query + StatusFilter(paramIndex);
      values := values + [Text(q.status.value)];
      paramIndex := paramIndex + 1;
    }
    assert paramIndex == |values| + 1;
    query := query + PageClause(paramIndex);
    values := values + [Numeric(q.limit), Numeric(q.offset)];
    SelectPlaceholders(q.status.Some?);
  }

  /** Lines 57-62: the count query has the single placeholder `$1`, bound
      to the status, exactly when a status is given. */
  method BuildCountQuery(q: ListQuery) returns (countQuery: string, countValues: seq<SqlValue>)
    ensures countValues == (if q.status.Some? then [Text(q.status.value)] else [])
    ensures countQuery == CountText + (if q.status.Some? then StatusFilter(1) else "")
    ensures Placeholders(countQuery) == (if q.status.Some? then [1] else [])
  {
    countQuery := CountText;
    countValues := [];
    if q.status.Some? {
      countQuery := countQuery + " WHERE status = $1";
      countValues := countValues + [Text(q.status.value)];
    }
    SmallNumerals();
    CountPlaceholders(q.status.Some?);
  }

  // ---------------------------------------------------------------------
  // The handler

  datatype Pagination = Pagination(total: int, limit: real, offset: real, hasMore: bool)

  datatype ListResponse =
    | Failed(status: int, error: string)
    | Listed(submissions: seq<SubmissionRow>, pagination: Pagination)

  /** The catch block: the status for a thrown error's message. */
  function ErrorStatus(message: string): (status: int)
    ensures status == 403 <==> message == "Forbidden"
    ensures status == 401 <==> message == "Unauthorized"
    ensures status in {401, 403, 500}
  {
    if message == "Forbidden" then 403
    else if message == "Unauthorized" then 401
    else 500
  }

  /** The body the catch block sends for a thrown error's message. */
  function ErrorResponse(message: string): (r: ListResponse)
    ensures r.Failed? && r.status == ErrorStatus(message)
    ensures r.error == (if message == "Forbidden" then "Forbidden"
                        else if message == "Unauthorized" then "Unauthorized"
                        else "Failed to fetch submissions")
  {
    var status := ErrorStatus(message);
    Failed(status, if status == 403 then "Forbidden" else if status == 401 then "Unauthorized" else "Failed to fetch submissions")
  }

  /** The handler. `role` is the signed-in user's role (`None` when nobody
      is signed in); `select` and `count` run a query with its values, and
      `count` gives the parsed `COUNT(*)`. */
  method Get(role: Option<string>, params: map<string, string>, coerce: string -> Coerced,
             select: (string, seq<SqlValue>) -> Result<seq<SubmissionRow>>,
             count: (string, seq<SqlValue>) -> Result<int>) returns (r: ListResponse)
    ensures (role.None? || role.value != "ADMIN") ==> r == Failed(403, "Forbidden")
    ensures role == Some("ADMIN") && ParseQuery(params, coerce).None? ==> r == Failed(400, "Invalid query parameters")
    ensures r.Listed? ==>
      && role == Some("ADMIN") && ParseQuery(params, coerce).Some?
      && var q := ParseQuery(params, coerce).value;
         && r.pagination.limit == q.limit && r.pagination.offset == q.offset
         && (r.pagination.hasMore <==> q.offset + q.limit < r.pagination.total as real)
    ensures role == Some("ADMIN") && ParseQuery(params, coerce).Some? ==>
      var q := ParseQuery(params, coerce).value;
      var lq := if q.status.Some? then SelectText + StatusFilter(1) + PageClause(2) else SelectText + PageClause(1);
      var lv := if q.status.Some? then [Text(q.status.value), Numeric(q.limit), Numeric(q.offset)]
                else [Numeric(q.limit), Numeric(q.offset)];
      var cq := CountText + (if q.status.Some? then StatusFilter(1) else "");
      var cv := if q.status.Some? then [Text(q.status.value)] else [];
      && (select(lq, lv).Err? ==> r == ErrorResponse(select(lq, lv).message))
      && (select(lq, lv).Ok? && count(cq, cv).Err? ==> r == ErrorResponse(count(cq, cv).message))
      && (select(lq, lv).Ok? && count(cq, cv).Ok? ==>
            r == Listed(select(lq, lv).value,
                        Pagination(count(cq, cv).value, q.limit, q.offset, q.offset + q.limit < count(cq, cv).value as real)))
    ensures r.Failed? ==> r.status in {400, 401, 403, 500}
  {
    if role.None? || role.value != "ADMIN" {
      return ErrorResponse("Forbidden");
    }
    var parsed := ParseQuery(params, coerce);
    if parsed.None? {
      return Failed(400, "Invalid query parameters");
    }
    var q := parsed.value;
    var query, values := BuildListQuery(q);
    var countQuery, countValues := BuildCountQuery(q);
    var rows := select(query, values);
    var total := count(countQuery, countValues);
    if rows.Err? {
      return ErrorResponse(rows.message);
    }
    if total.Err? {
      return ErrorResponse(total.message);
    }
    r := Listed(rows.value, Pagination(total.value, q.limit, q.offset, q.offset + q.limit < total.value as real));
  }

  lemma ParseExamples(coerce: string -> Coerced)
    ensures ParseQuery(map[], coerce) == Some(ListQuery(None, 50.0, 0.0))
    ensures ParseQuery(map["status" := "DONE"], coerce).None?
    ensures coerce("0") == Number(0.0) ==> ParseQuery(map["limit" := "0"], coerce).None?
    ensures coerce("x") == NotANumber ==> ParseQuery(map["offset" := "x"], coerce).None?
  {
  }
}
