/**
 * The trends controller: a user's triggered alerts, one page at a time, and the details of
 * one alert with the recent stats history of its video. The Supabase queries are inputs; the
 * model states which rows are asked for and how the answers become responses.
 */
module TrendsController {
  import opened Wrappers
  import opened JsonValue
  import Js

  /** A table row as Supabase returns it. */
  type Row = map<string, Value>

  datatype Response =
    | Reply(status: nat, message: string)
    | AlertPage(alerts: seq<Value>, totalItems: Option<nat>, currentPage: int, pageSize: int, totalPages: int)
    | Detail(fields: Row)
    /** `next(error)`. */
    | PassedOn

  const Unavailable: string := "Server is temporarily unavailable."
  const NotAuthorized: string := "Not authorized, user ID missing"
  const AlertNotFound: string := "Alert not found."
  const NotOwner: string := "Not authorized to view this alert."

  /** `!req.userId`: an absent or falsy user id. */
  predicate NoUser(userId: Option<Value>)
  {
    userId.None? || Falsy(userId.value)
  }

  /** The two checks both handlers make first: the database client, then the user id. */
  function Gate(ready: bool, userId: Option<Value>): Option<Response>
  {
    if !ready then Some(Reply(503, Unavailable))
    else if NoUser(userId) then Some(Reply(401, NotAuthorized))
    else None
  }

  // ---------------------------------------------------------------------------------------
  // getMyAlerts
  // ---------------------------------------------------------------------------------------

  /** `parseInt(q, 10) || d`; an absent query parameter reads as NaN. */
  function QueryInt(q: Option<string>, d: int): (r: int)
    requires d != 0
    ensures r != 0
  {
    if q.Some? then Js.OrDefault(Js.ParseInt10(q.value), d) else d
  }

  function Page(q: Option<string>): int { QueryInt(q, 1) }
  function Limit(q: Option<string>): int { QueryInt(q, 20) }

  /** `.range(offset, rangeTo)`: the first and last row index asked for, both inclusive. */
  function RowRange(page: int, limit: int): (r: (int, int))
  {
    var offset := (page - 1) * limit;
    (offset, offset + limit - 1)
  }

  /** `Math.ceil(count / limit)` for a non-zero limit, with JavaScript's real division. */
  function CeilDiv(count: int, limit: int): (r: int)
    requires limit != 0
    ensures limit > 0 ==> limit * (r - 1) < count <= limit * r
    ensures limit < 0 ==> -limit * (r - 1) < -count <= -limit * r
  {
    if limit > 0 then -((-count) / limit) else -(count / (-limit))
  }

  /** The answer of the alerts query: an error, or the rows and the exact count. */
  datatype AlertsResult = AlertsFailed | AlertRows(rows: Option<seq<Value>>, count: Option<nat>)

  const UserIdColumn: string := "user_id"
  const TriggeredAtColumn: string := "triggered_at"

  /**
   * The alerts query: the rows whose `column` equals `owner`, ordered by `orderColumn`
   * (newest first unless `ascending`), rows `range.0` to `range.1`.
   */
  datatype AlertsQuery = AlertsQuery(column: string, owner: Value, orderColumn: string, ascending: bool, range: (int, int))

  /** The response, and the alerts query if it was made. */
  datatype Listed = Listed(response: Response, asked: Option<AlertsQuery>)

  function GetMyAlerts(ready: bool, userId: Option<Value>, pageQ: Option<string>, limitQ: Option<string>,
                       result: AlertsResult): Listed
  {
    var gate := Gate(ready, userId);
    if gate.Some? then Listed(gate.value, None)
    else
      var page := Page(pageQ);
      var limit := Limit(limitQ);
      var asked := Some(AlertsQuery(UserIdColumn, userId.value, TriggeredAtColumn, false, RowRange(page, limit)));
      match result
      case AlertsFailed => Listed(PassedOn, asked)
      case AlertRows(rows, count) =>
        // `count / limit` with a null count is 0.
        var pages := CeilDiv(if count.Some? then count.value else 0, limit);
        Listed(AlertPage(if rows.Some? then rows.value else [], count, page, limit, pages), asked)
  }

  /** Absent or unreadable paging parameters give page 1 of 20; readable ones are used as given. */
  lemma PagingDefaults(pageQ: Option<string>, limitQ: Option<string>, n: int)
    ensures Page(None) == 1 && Limit(None) == 20
    ensures Page(Some("")) == 1 && Limit(Some("abc")) == 20
    ensures n != 0 ==> Page(Some(Js.IntToString(n))) == n && Limit(Some(Js.IntToString(n))) == n
    ensures Page(Some("0")) == 1 && Limit(Some("0")) == 20
  {
    Js.ParseIntBlank("", false);
    LetterLead("abc");
    Js.ParseIntOfIntToString(n);
    Js.ParseIntOfIntToString(0);
    assert Js.IntToString(0) == "0";
  }

  /**
   * Page `page` of size `limit` asks for exactly `limit` rows starting at (page - 1) * limit;
   * consecutive pages ask for adjacent, non-overlapping ranges, and page 1 starts at row 0.
   */
  lemma RangeTiles(page: int, limit: int)
    ensures RowRange(page, limit).1 - RowRange(page, limit).0 + 1 == limit
    ensures RowRange(page, limit).0 == (page - 1) * limit
    ensures RowRange(page + 1, limit).0 == RowRange(page, limit).1 + 1
    ensures RowRange(1, limit).0 == 0
    ensures page >= 1 && limit >= 1 ==> RowRange(page, limit).0 >= 0
  {
    assert (page + 1 - 1) * limit == (page - 1) * limit + limit;
    if page >= 1 && limit >= 1 {
      assert (page - 1) * limit >= 0;
    }
  }

  /**
   * The page count is the least number of pages of size `limit` that hold `count` rows: no
   * pages for no rows, and the last page is never empty.
   */
  lemma TotalPagesBound(count: nat, limit: int)
    requires limit > 0
    ensures CeilDiv(count, limit) >= 0
    ensures count == 0 <==> CeilDiv(count, limit) == 0
    ensures limit * (CeilDiv(count, limit) - 1) < count <= limit * CeilDiv(count, limit)
  {
    var r := CeilDiv(count, limit);
    MulPositive(limit, r);
    MulPositive(limit, r - 1);
  }

  /** A positive factor keeps the sign of the other one. */
  lemma MulPositive(a: int, b: int)
    requires a > 0
    ensures b >= 0 <==> a * b >= 0
    ensures b >= 1 <==> a * b >= a
    decreases if b >= 0 then b else -b
  {
    if b >= 1 {
      assert a * b == a * (b - 1) + a;
      MulPositive(a, b - 1);
    } else if b < 0 {
      assert a * b == a * (b + 1) - a;
      MulPositive(a, b + 1);
    }
  }

  /**
   * Both handlers answer 503 before anything else when the client is not ready, then 401;
   * only then is the query made, for the requesting user's alerts alone, newest first, in the
   * page's row range.
   */
  lemma AlertsGate(ready: bool, userId: Option<Value>, pageQ: Option<string>, limitQ: Option<string>,
                   result: AlertsResult)
    ensures !ready ==> GetMyAlerts(ready, userId, pageQ, limitQ, result) == Listed(Reply(503, Unavailable), None)
    ensures ready && NoUser(userId) ==>
              GetMyAlerts(ready, userId, pageQ, limitQ, result) == Listed(Reply(401, NotAuthorized), None)
    ensures !NoUser(userId) && ready ==>
              GetMyAlerts(ready, userId, pageQ, limitQ, result).asked ==
                Some(AlertsQuery("user_id", userId.value, "triggered_at", false, RowRange(Page(pageQ), Limit(limitQ))))
  {
  }

  // ---------------------------------------------------------------------------------------
  // getAlertDetails
  // ---------------------------------------------------------------------------------------

  /** The answer of the `.single()` alert query: an error with its code, or the row (maybe null). */
  datatype AlertResult = AlertFailed(code: Option<string>) | AlertRow(row: Option<Row>)

  /** The answer of the history query. */
  datatype HistoryResult = HistoryFailed | HistoryRows(rows: Option<seq<Value>>)

  const VideoIdColumn: string := "video_id"
  const CheckedAtColumn: string := "checked_at"
  const HistoryLimit: nat := 50

  /**
   * The history query: the rows whose `column` equals `videoId`, ordered by `orderColumn`
   * (newest first unless `ascending`), at most `limit` of them.
   */
  datatype HistoryQuery = HistoryQuery(column: string, videoId: Value, orderColumn: string, ascending: bool, limit: nat)

  /** The response, and the history query if it was made. */
  datatype Detailed = Detailed(response: Response, historyAsked: Option<HistoryQuery>)

  /** `{ ...alert, videoStatsHistory }`. */
  function WithHistory(alert: Row, history: seq<Value>): Row
  {
    alert["videoStatsHistory" := List(history)]
  }

  function GetAlertDetails(ready: bool, userId: Option<Value>, fetched: AlertResult, history: HistoryResult): Detailed
  {
    var gate := Gate(ready, userId);
    if gate.Some? then Detailed(gate.value, None)
    else match fetched
      case AlertFailed(code) =>
        if code == Some("PGRST116") then Detailed(Reply(404, AlertNotFound), None) else Detailed(PassedOn, None)
      case AlertRow(row) =>
        if row.None? then Detailed(Reply(404, AlertNotFound), None)
        else if !StrictEquals(Lookup(row.value, "user_id"), userId) then Detailed(Reply(403, NotOwner), None)
        else
          var videoId := Lookup(row.value, VideoIdColumn);
          if videoId.None? || Falsy(videoId.value) then Detailed(Detail(WithHistory(row.value, [])), None)
          else
            var rows := match history
              case HistoryFailed => []
              case HistoryRows(h) => if h.Some? then h.value else [];
            var asked := HistoryQuery(VideoIdColumn, videoId.value, CheckedAtColumn, false, HistoryLimit);
            Detailed(Detail(WithHistory(row.value, rows)), Some(asked))
  }

  /** A not-found error code answers 404; any other query error goes to the error handler. */
  lemma DetailErrors(userId: Option<Value>, code: Option<string>, history: HistoryResult)
    requires !NoUser(userId)
    ensures GetAlertDetails(true, userId, AlertFailed(code), history).response ==
            if code == Some("PGRST116") then Reply(404, AlertNotFound) else PassedOn
    ensures GetAlertDetails(true, userId, AlertRow(None), history).response == Reply(404, AlertNotFound)
  {
  }

  /** An alert is shown only to the user it belongs to; anyone else gets 403 and no history query. */
  lemma OwnerOnly(userId: Option<Value>, row: Row, history: HistoryResult)
    requires !NoUser(userId)
    ensures GetAlertDetails(true, userId, AlertRow(Some(row)), history).response.Detail? <==>
            StrictEquals(Lookup(row, "user_id"), userId)
    ensures !StrictEquals(Lookup(row, "user_id"), userId) ==>
            GetAlertDetails(true, userId, AlertRow(Some(row)), history) == Detailed(Reply(403, NotOwner), None)
  {
  }

  /**
   * An owned alert is returned with every column it has and its history: the history rows
   * when the query succeeds, and an empty history when it fails or the alert has no video id.
   * The history is asked for exactly when the alert has a video id: that video's 50 newest
   * checks, by `checked_at` descending.
   */
  lemma HistoryAttached(userId: Option<Value>, row: Row, history: HistoryResult)
    requires !NoUser(userId) && StrictEquals(Lookup(row, "user_id"), userId)
    ensures var d := GetAlertDetails(true, userId, AlertRow(Some(row)), history);
            d.response.Detail? &&
            (forall k :: k in row && k != "videoStatsHistory" ==> k in d.response.fields && d.response.fields[k] == row[k]) &&
            "videoStatsHistory" in d.response.fields &&
            (history.HistoryFailed? || d.historyAsked.None? ==> d.response.fields["videoStatsHistory"] == List([])) &&
            (history.HistoryRows? && history.rows.Some? && d.historyAsked.Some? ==>
               d.response.fields["videoStatsHistory"] == List(history.rows.value))
    ensures var v := Lookup(row, "video_id");
            GetAlertDetails(true, userId, AlertRow(Some(row)), history).historyAsked ==
              if v.Some? && !Falsy(v.value) then Some(HistoryQuery("video_id", v.value, "checked_at", false, 50)) else None
  {
  }
}
