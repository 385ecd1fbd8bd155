/**
 * backend/routes/scores.js: the checks `/save` applies to a submitted score
 * and the counts it derives for the stored row, the page arithmetic of
 * `/history`, and the `/leaderboard` size.  The SQL itself is not part of
 * this model: a stored row is returned as a value, and the row count
 * `/history` reads from the database is a parameter.
 */
module ScoresRoute {
  import opened Wrappers
  import opened JsText

  /** A JSON value of a request body. */
  datatype Json =
    | JNull
    | JBool(b: bool)
    | JNumber(x: real)
    | JString(s: string)
    | JArray(items: seq<Json>)
    | JObject(fields: map<string, Json>)

  // ----- `/save` -----

  /** The text form of an integer the `isInt` check accepts: an optional sign, then one or more digits. */
  predicate IsIntText(s: string)
  {
    if |s| > 0 && (s[0] == '+' || s[0] == '-') then IsField(s[1..]) else IsField(s)
  }

  function IntTextValue(s: string): int
    requires IsIntText(s)
  {
    if s[0] == '-' then -(FieldValue(s[1..]) as int)
    else if s[0] == '+' then FieldValue(s[1..])
    else FieldValue(s)
  }

  /**
   * The integer a body field stands for when the `isInt` check reads it as
   * one: a number with no fractional part, or a string of an optional sign
   * and digits.  A missing field, `null`, a boolean, an object or an array is none.
   */
  function IntValue(v: Option<Json>): (r: Option<int>)
    ensures r.Some? ==> v.Some? && (v.value.JNumber? || v.value.JString?)
  {
    match v
    case Some(JNumber(x)) => if x == x.Floor as real then Some(x.Floor) else None
    case Some(JString(s)) => if IsIntText(s) then Some(IntTextValue(s)) else None
    case _ => None
  }

  /** `isInt({ min })`. */
  predicate IsIntAtLeast(v: Option<Json>, min: int)
  {
    IntValue(v).Some? && IntValue(v).value >= min
  }

  /** `isArray()`. */
  predicate IsArray(v: Option<Json>)
  {
    v.Some? && v.value.JArray?
  }

  function Field(body: map<string, Json>, name: string): Option<Json>
  {
    if name in body then Some(body[name]) else None
  }

  const ScoreMessage := "Score must be a positive integer"
  const TotalMessage := "Total questions must be at least 1"
  const TimeMessage := "Time taken must be a positive integer"
  const AnswersMessage := "Answers must be an array"

  datatype FieldError = FieldError(path: string, msg: string)

  /** The validation errors of a `/save` body, in the order the rules are declared. */
  function SaveErrors(body: map<string, Json>): (errors: seq<FieldError>)
    ensures FieldError("score", ScoreMessage) in errors <==> !IsIntAtLeast(Field(body, "score"), 0)
    ensures FieldError("totalQuestions", TotalMessage) in errors <==> !IsIntAtLeast(Field(body, "totalQuestions"), 1)
    ensures FieldError("timeTaken", TimeMessage) in errors <==> !IsIntAtLeast(Field(body, "timeTaken"), 0)
    ensures FieldError("answers", AnswersMessage) in errors <==> !IsArray(Field(body, "answers"))
    ensures |errors| <= 4
  {
    (if IsIntAtLeast(Field(body, "score"), 0) then [] else [FieldError("score", ScoreMessage)])
    + (if IsIntAtLeast(Field(body, "totalQuestions"), 1) then [] else [FieldError("totalQuestions", TotalMessage)])
    + (if IsIntAtLeast(Field(body, "timeTaken"), 0) then [] else [FieldError("timeTaken", TimeMessage)])
    + (if IsArray(Field(body, "answers")) then [] else [FieldError("answers", AnswersMessage)])
  }

  /** The values `/save` inserts (the user id and the percentage aside). */
  datatype SessionRow = SessionRow(
    score: int, totalQuestions: int, timeTaken: int,
    correctAnswers: int, wrongAnswers: int, answers: seq<Json>)

  datatype SaveResponse = BadRequest(errors: seq<FieldError>) | Created(row: SessionRow)

  /** The `/save` handler up to the insert: 400 with the errors, or the row to store. */
  function Save(body: map<string, Json>): (r: SaveResponse)
    ensures r.BadRequest? <==>
              !(IsIntAtLeast(Field(body, "score"), 0) && IsIntAtLeast(Field(body, "totalQuestions"), 1)
                && IsIntAtLeast(Field(body, "timeTaken"), 0) && IsArray(Field(body, "answers")))
    ensures r.BadRequest? ==> r.errors == SaveErrors(body) && |r.errors| > 0
    ensures r.Created? ==> r.row.score >= 0 && r.row.totalQuestions >= 1 && r.row.timeTaken >= 0
    ensures r.Created? ==> r.row.correctAnswers == r.row.score
    ensures r.Created? ==> r.row.correctAnswers + r.row.wrongAnswers == r.row.totalQuestions
  {
    var errors := SaveErrors(body);
    if errors != [] then BadRequest(errors)
    else
      assert FieldError("score", ScoreMessage) !in errors;
      assert FieldError("totalQuestions", TotalMessage) !in errors;
      assert FieldError("timeTaken", TimeMessage) !in errors;
      assert FieldError("answers", AnswersMessage) !in errors;
      var score := IntValue(Field(body, "score")).value;
      var total := IntValue(Field(body, "totalQuestions")).value;
      var time := IntValue(Field(body, "timeTaken")).value;
      Created(SessionRow(score, total, time, score, total - score, Field(body, "answers").value.items))
  }

  /** A score above the question count passes the checks, and the stored wrong count is then negative. */
  lemma ScoreAboveTotalAccepted()
    ensures var r := Save(map["score" := JNumber(7.0), "totalQuestions" := JNumber(5.0),
                              "timeTaken" := JNumber(30.0), "answers" := JArray([])]);
            r.Created? && r.row.wrongAnswers == -2
  {
    var body := map["score" := JNumber(7.0), "totalQuestions" := JNumber(5.0),
                    "timeTaken" := JNumber(30.0), "answers" := JArray([])];
    assert Field(body, "score") == Some(JNumber(7.0));
    assert Field(body, "totalQuestions") == Some(JNumber(5.0));
    assert Field(body, "timeTaken") == Some(JNumber(30.0));
    assert Field(body, "answers") == Some(JArray([]));
  }

  // ----- `/history` and `/leaderboard` -----

  /** A query parameter as `parseInt` sees it: a missing one is `undefined`. */
  function QueryText(q: Option<string>): string
  {
    match q
    case None => "undefined"
    case Some(s) => s
  }

  /** `parseInt(req.query[name]) || d`. */
  function QueryInt(q: Option<string>, d: int): (r: int)
    requires d != 0
    ensures r != 0
    ensures q.None? ==> r == d
    ensures q.Some? && (ParseInt(q.value) == None || ParseInt(q.value) == Some(0)) ==> r == d
    ensures q.Some? && ParseInt(q.value).Some? && ParseInt(q.value).value != 0 ==> r == ParseInt(q.value).value
  {
    ParseIntNonNumeric("undefined");
    ParsedOr(QueryText(q), d)
  }

  /** `pages` pages of `limit` rows hold `total` rows, and one page fewer would not. */
  predicate PagesCover(pages: int, limit: int, total: nat)
  {
    (pages - 1) * limit < total <= pages * limit
  }

  /**
   * `Math.ceil(total / limit)`, reached only after the page query succeeded,
   * which needs a positive limit.
   */
  function CeilDiv(total: nat, limit: int): (r: int)
    requires limit > 0
    ensures PagesCover(r, limit, total)
    ensures total == 0 ==> r == 0
  {
    var q := (total + limit - 1) / limit;
    CeilDivUp(total, limit, q);
    q
  }

  lemma CeilDivUp(total: nat, limit: int, q: int)
    requires limit > 0 && q == (total + limit - 1) / limit
    ensures PagesCover(q, limit, total)
  {
    var rem := (total + limit - 1) % limit;
    assert total + limit - 1 == q * limit + rem;
    assert (q - 1) * limit == q * limit - limit;
  }

  /** The `pagination` object of a `/history` reply. */
  datatype Pagination = Pagination(page: int, limit: int, total: nat, totalPages: int)

  /** The rows a page skips: all rows of the pages before it. */
  function Offset(page: int, limit: int): int
  {
    (page - 1) * limit
  }

  /**
   * MySQL refuses a negative `LIMIT` or `OFFSET`: the query for a negative
   * limit, or for a page below 1 (whose offset is negative), throws, and the
   * route answers 500.
   */
  predicate SqlRefuses(page: int, limit: int)
  {
    limit < 0 || page < 1
  }

  /**
   * The page arithmetic of `/history`: the page, its size, the rows it skips
   * and the page count, or `None` for the 500 reply of a refused query.
   */
  function History(pageQuery: Option<string>, limitQuery: Option<string>, total: nat): (r: Option<(Pagination, int)>)
    ensures r.None? <==> SqlRefuses(QueryInt(pageQuery, 1), QueryInt(limitQuery, 10))
    ensures r.Some? ==>
              r.value.0.page == QueryInt(pageQuery, 1) && r.value.0.limit == QueryInt(limitQuery, 10)
              && r.value.0.total == total
    ensures r.Some? ==> r.value.0.page >= 1 && r.value.0.limit > 0
    ensures r.Some? ==> r.value.1 == Offset(r.value.0.page, r.value.0.limit) && r.value.1 >= 0
    ensures r.Some? && r.value.0.page == 1 ==> r.value.1 == 0
    ensures r.Some? ==> PagesCover(r.value.0.totalPages, r.value.0.limit, total)
    ensures r.Some? && total == 0 ==> r.value.0.totalPages == 0
  {
    var page := QueryInt(pageQuery, 1);
    var limit := QueryInt(limitQuery, 10);
    HistoryPage(page, limit, total)
  }

  /** The reply for the page and limit already read from the query (`|| 10` never leaves a zero limit). */
  function HistoryPage(page: int, limit: int, total: nat): (r: Option<(Pagination, int)>)
    requires limit != 0
    ensures r.None? <==> SqlRefuses(page, limit)
    ensures r.Some? ==> r.value.0 == Pagination(page, limit, total, r.value.0.totalPages)
    ensures r.Some? ==> page >= 1 && limit > 0
    ensures r.Some? ==> r.value.1 == Offset(page, limit) && r.value.1 >= 0
    ensures r.Some? && page == 1 ==> r.value.1 == 0
    ensures r.Some? ==> PagesCover(r.value.0.totalPages, limit, total)
    ensures r.Some? && total == 0 ==> r.value.0.totalPages == 0
  {
    if SqlRefuses(page, limit) then None
    else
      OffsetNonNegative(page, limit);
      Some((Pagination(page, limit, total, CeilDiv(total, limit)), Offset(page, limit)))
  }

  lemma OffsetNonNegative(page: int, limit: int)
    requires page >= 1 && limit > 0
    ensures Offset(page, limit) >= 0
  {
  }

  /** With no query at all, the first ten rows are asked for. */
  lemma HistoryDefaults(total: nat)
    ensures History(None, None, total).Some?
    ensures History(None, None, total).value.0.page == 1
    ensures History(None, None, total).value.0.limit == 10
    ensures History(None, None, total).value.1 == 0
  {
  }

  /** `?limit=-5` and `?page=-1` both end in the 500 reply. */
  lemma HistoryRefusesNegative(total: nat)
    ensures History(None, Some("-5"), total) == None
    ensures History(Some("-1"), None, total) == None
  {
    NegativeQuery("-5");
    assert QueryInt(Some("-5"), 10) == -5;
    NegativeQuery("-1");
    assert QueryInt(Some("-1"), 1) == -1;
  }

  /** `parseInt` of a minus sign and one non-zero digit. */
  lemma NegativeQuery(s: string)
    requires |s| == 2 && s[0] == '-' && IsDigit(s[1]) && s[1] != '0'
    ensures ParseInt(s) == Some(-(CharValue(s[1]) as int))
    ensures ParseInt(s).value < 0
  {
    var digit := s[1..];
    assert TrimStart(s) == s;
    assert digit[1..] == [];
    assert DigitPrefixLength(digit, 10) == 1;
    assert digit[..1] == digit && digit[..0] == [];
    assert DigitsValue(digit, 10) == CharValue(digit[0]);
  }

  lemma MulCancelLess(a: int, b: int, c: int)
    requires c > 0 && a * c < b * c
    ensures a < b
  {
  }

  /**
   * Every row lies on exactly one page: row `k` is on page `k / limit + 1`,
   * which is one of the reported pages, and lies between that page's offset
   * and the next page's.
   */
  lemma RowsOnPages(limit: int, total: nat, k: nat)
    requires limit > 0 && k < total
    ensures 1 <= k / limit + 1 <= CeilDiv(total, limit)
    ensures Offset(k / limit + 1, limit) <= k < Offset(k / limit + 2, limit)
  {
    var q := k / limit;
    var pages := CeilDiv(total, limit);
    assert k == q * limit + k % limit;
    assert Offset(q + 1, limit) == q * limit;
    assert Offset(q + 2, limit) == q * limit + limit;
    assert q * limit < pages * limit;
    MulCancelLess(q, pages, limit);
  }

  /**
   * `parseInt(req.query.limit) || 10` of `/leaderboard`, or `None` for the
   * 500 reply when MySQL refuses the negative `LIMIT`.
   */
  function LeaderboardLimit(limitQuery: Option<string>): (r: Option<int>)
    ensures r.None? <==> QueryInt(limitQuery, 10) < 0
    ensures r.Some? ==> r.value > 0
    ensures limitQuery.None? ==> r == Some(10)
    ensures limitQuery.Some? && (ParseInt(limitQuery.value) == None || ParseInt(limitQuery.value) == Some(0)) ==>
              r == Some(10)
    ensures limitQuery.Some? && ParseInt(limitQuery.value).Some? && ParseInt(limitQuery.value).value > 0 ==>
              r == Some(ParseInt(limitQuery.value).value)
  {
    var limit := QueryInt(limitQuery, 10);
    if limit < 0 then None else Some(limit)
  }
}
