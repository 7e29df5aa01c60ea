/**
 * `getVideosForChannelIdsFromSupabase`: the Supabase query it builds (date, duration, views,
 * likes and comments filters, the sort, the page range), the post-fetch engagement-rate
 * filter and sort, and the pagination block. The database answers a query as an input
 * function; `new Date(text)` and `parseFloat` are input functions as well.
 */
module YoutubeQueries {
  import opened Wrappers
  import Js

  /** The `videos` columns the query constrains. */
  datatype Column = ChannelId | PublishedAt | DurationSeconds | LatestViewCount | LatestLikeCount | LatestCommentCount

  /** One call on the query builder. Times are milliseconds since the epoch. */
  datatype Clause =
    | In(column: Column, values: seq<string>)
    | Gte(column: Column, bound: int)
    | Lte(column: Column, bound: int)
    | Lt(column: Column, bound: int)
    | Order(column: Column, ascending: bool)
    | Range(from: int, to: int)

  /** The arguments; a query-string value is `None` when absent. */
  datatype Request = Request(
    channelIds: seq<string>, limit: int, page: int, sortBy: string,
    uploadDateFilter: Option<string>, customDateStart: Option<string>, customDateEnd: Option<string>,
    durationMin: Option<string>, durationMax: Option<string>,
    viewsMin: Option<string>, viewsMax: Option<string>,
    likesMin: Option<string>, commentsMin: Option<string>,
    engagementRateMinVideo: Option<string>)

  /** A call that passes only the channel ids: limit 24, page 1, newest first, any date. */
  function DefaultRequest(channelIds: seq<string>): Request
  {
    Request(channelIds, 24, 1, "date_new_old", Some("any"), None, None, None, None, None, None, None, None, None)
  }

  const DayMs: int := 86400000

  predicate Truthy(s: Option<string>)
  {
    s.Some? && s.value != ""
  }

  /** `x ? parseInt(x, 10) : null`, with null and NaN both `None`. */
  function Numeric(x: Option<string>): Option<int>
  {
    if Truthy(x) then Js.ParseInt10(x.value) else None
  }

  /** A bound applied when it parses and is positive (`strict`) or non-negative. */
  function BoundClause(x: Option<string>, strict: bool, upper: bool, column: Column): (r: seq<Clause>)
    ensures |r| <= 1
    ensures |r| == 1 <==> Numeric(x).Some? && (if strict then Numeric(x).value > 0 else Numeric(x).value >= 0)
  {
    var n := Numeric(x);
    if n.Some? && (if strict then n.value > 0 else n.value >= 0) then
      [if upper then Lte(column, n.value) else Gte(column, n.value)]
    else []
  }

  /** The sort of the `switch (sortBy)`: column and direction; unknown values sort newest first. */
  function SortOf(sortBy: string): (Column, bool)
  {
    match sortBy
    case "views_high_low" => (LatestViewCount, false)
    case "views_low_high" => (LatestViewCount, true)
    case "date_new_old" => (PublishedAt, false)
    case "date_old_new" => (PublishedAt, true)
    case "likes_high_low" => (LatestLikeCount, false)
    case "comments_high_low" => (LatestCommentCount, false)
    case _ => (PublishedAt, false)
  }

  /** The relative cut-off in days of the upload-date filter; unknown values leave the cut-off at now. */
  function CutoffDays(filter: string): nat
  {
    match filter
    case "last_24_hours" => 1
    case "last_7_days" => 7
    case "last_30_days" => 30
    case "last_90_days" => 90
    case _ => 0
  }

  /** The date filter: a custom range, or a relative cut-off unless the filter is empty or 'any'. */
  function DateClauses(r: Request, now: int, parseDate: string -> Option<int>): (q: seq<Clause>)
    ensures forall c :: c in q ==> (c.Gte? || c.Lt?) && c.column == PublishedAt
  {
    if r.uploadDateFilter == Some("custom_range") then
      (if Truthy(r.customDateStart) && parseDate(r.customDateStart.value).Some?
       then [Gte(PublishedAt, parseDate(r.customDateStart.value).value)] else [])
      + (if Truthy(r.customDateEnd) && parseDate(r.customDateEnd.value).Some?
         then [Lt(PublishedAt, parseDate(r.customDateEnd.value).value + DayMs)] else [])
    else if Truthy(r.uploadDateFilter) && r.uploadDateFilter.value != "any" then
      [Gte(PublishedAt, now - CutoffDays(r.uploadDateFilter.value) * DayMs)]
    else []
  }

  /** `q` followed by the duration, views, likes and comments bounds, in the order the source applies them. */
  function WithBounds(q: seq<Clause>, r: Request): seq<Clause>
  {
    q
    + BoundClause(r.durationMin, true, false, DurationSeconds)
    + BoundClause(r.durationMax, true, true, DurationSeconds)
    + BoundClause(r.viewsMin, false, false, LatestViewCount)
    + BoundClause(r.viewsMax, true, true, LatestViewCount)
    + BoundClause(r.likesMin, false, false, LatestLikeCount)
    + BoundClause(r.commentsMin, false, false, LatestCommentCount)
  }

  /** The database order: none for the engagement-rate sort, which happens after the fetch. */
  function OrderClauses(sortBy: string): seq<Clause>
  {
    if sortBy != "engagement_rate_high_low" then [Order(SortOf(sortBy).0, SortOf(sortBy).1)] else []
  }

  /** The page of rows: `range(offset, offset + limit - 1)`. */
  function RangeOf(r: Request): Clause
  {
    var offset := (r.page - 1) * r.limit;
    Range(offset, offset + r.limit - 1)
  }

  /** The whole query, which starts from the rows of the requested channels. */
  function QueryFor(r: Request, now: int, parseDate: string -> Option<int>): seq<Clause>
  {
    WithBounds([In(ChannelId, r.channelIds)] + DateClauses(r, now, parseDate), r) + OrderClauses(r.sortBy) + [RangeOf(r)]
  }

  /** The date part of the query builder. */
  method ApplyDateFilter(r: Request, now: int, parseDate: string -> Option<int>) returns (query: seq<Clause>)
    ensures query == DateClauses(r, now, parseDate)
  {
    query := [];
    if r.uploadDateFilter == Some("custom_range") {
      if Truthy(r.customDateStart) {
        var start := parseDate(r.customDateStart.value);
        if start.Some? {
          query := query + [Gte(PublishedAt, start.value)];
        }
      }
      if Truthy(r.customDateEnd) {
        var end := parseDate(r.customDateEnd.value);
        if end.Some? {
          query := query + [Lt(PublishedAt, end.value + DayMs)];
        }
      }
    } else if Truthy(r.uploadDateFilter) && r.uploadDateFilter.value != "any" {
      var cutoff := now - CutoffDays(r.uploadDateFilter.value) * DayMs;
      query := query + [Gte(PublishedAt, cutoff)];
    }
  }

  /** The duration, views, likes and comments part of the query builder. */
  method ApplyBounds(query: seq<Clause>, r: Request) returns (q: seq<Clause>)
    ensures q == WithBounds(query, r)
  {
    var b1 := BoundClause(r.durationMin, true, false, DurationSeconds);
    var b2 := BoundClause(r.durationMax, true, true, DurationSeconds);
    var b3 := BoundClause(r.viewsMin, false, false, LatestViewCount);
    var b4 := BoundClause(r.viewsMax, true, true, LatestViewCount);
    var b5 := BoundClause(r.likesMin, false, false, LatestLikeCount);
    var b6 := BoundClause(r.commentsMin, false, false, LatestCommentCount);
    q := query + b1;
    q := q + b2;
    q := q + b3;
    q := q + b4;
    q := q + b5;
    q := q + b6;
  }

  /** The database sort of the query builder. */
  method ApplyOrder(query: seq<Clause>, sortBy: string) returns (q: seq<Clause>)
    ensures q == query + OrderClauses(sortBy)
  {
    q := query;
    if sortBy != "engagement_rate_high_low" {
      var (column, ascending) := SortOf(sortBy);
      q := q + [Order(column, ascending)];
    }
  }

  /**
   * The query builder, one reassignment of `query` per applicable filter: the rows of the
   * requested channels, then the filters, the order and the page.
   */
  method BuildQuery(r: Request, now: int, parseDate: string -> Option<int>) returns (query: seq<Clause>)
    ensures query == QueryFor(r, now, parseDate)
  {
    query := [In(ChannelId, r.channelIds)];
    var dates := ApplyDateFilter(r, now, parseDate);
    query := query + dates;
    query := ApplyBounds(query, r);
    query := ApplyOrder(query, r.sortBy);
    var range := ApplyRange(r);
    query := query + [range];
  }

  /** The pagination range of the query builder. */
  method ApplyRange(r: Request) returns (range: Clause)
    ensures range == RangeOf(r)
  {
    var offset := (r.page - 1) * r.limit;
    range := Range(offset, offset + r.limit - 1);
  }

  /**
   * Duration min and max and views max apply only when they parse to a positive number;
   * views, likes and comments min apply when they parse to a non-negative number.
   */
  lemma FilterRules(r: Request, now: int, parseDate: string -> Option<int>)
    ensures var q := QueryFor(r, now, parseDate);
            (Numeric(r.durationMin).Some? && Numeric(r.durationMin).value > 0 ==> Gte(DurationSeconds, Numeric(r.durationMin).value) in q)
            && (Numeric(r.durationMax).Some? && Numeric(r.durationMax).value > 0 ==> Lte(DurationSeconds, Numeric(r.durationMax).value) in q)
            && (Numeric(r.viewsMax).Some? && Numeric(r.viewsMax).value > 0 ==> Lte(LatestViewCount, Numeric(r.viewsMax).value) in q)
            && (Numeric(r.viewsMin).Some? && Numeric(r.viewsMin).value >= 0 ==> Gte(LatestViewCount, Numeric(r.viewsMin).value) in q)
            && (Numeric(r.likesMin).Some? && Numeric(r.likesMin).value >= 0 ==> Gte(LatestLikeCount, Numeric(r.likesMin).value) in q)
            && (Numeric(r.commentsMin).Some? && Numeric(r.commentsMin).value >= 0 ==> Gte(LatestCommentCount, Numeric(r.commentsMin).value) in q)
  {
  }

  /** The converse: every bound on a count or duration column comes from a value that passed its test. */
  lemma BoundsComeFromValues(r: Request, now: int, parseDate: string -> Option<int>, c: Clause)
    requires c in QueryFor(r, now, parseDate)
    ensures c.Gte? && c.column == DurationSeconds ==> Numeric(r.durationMin) == Some(c.bound) && c.bound > 0
    ensures c.Lte? && c.column == DurationSeconds ==> Numeric(r.durationMax) == Some(c.bound) && c.bound > 0
    ensures c.Lte? && c.column == LatestViewCount ==> Numeric(r.viewsMax) == Some(c.bound) && c.bound > 0
    ensures c.Gte? && c.column == LatestViewCount ==> Numeric(r.viewsMin) == Some(c.bound) && c.bound >= 0
    ensures c.Gte? && c.column == LatestLikeCount ==> Numeric(r.likesMin) == Some(c.bound) && c.bound >= 0
    ensures c.Gte? && c.column == LatestCommentCount ==> Numeric(r.commentsMin) == Some(c.bound) && c.bound >= 0
  {
    var d := [In(ChannelId, r.channelIds)] + DateClauses(r, now, parseDate);
    var b1 := BoundClause(r.durationMin, true, false, DurationSeconds);
    var b2 := BoundClause(r.durationMax, true, true, DurationSeconds);
    var b3 := BoundClause(r.viewsMin, false, false, LatestViewCount);
    var b4 := BoundClause(r.viewsMax, true, true, LatestViewCount);
    var b5 := BoundClause(r.likesMin, false, false, LatestLikeCount);
    var b6 := BoundClause(r.commentsMin, false, false, LatestCommentCount);
    assert c in d || c in b1 || c in b2 || c in b3 || c in b4 || c in b5 || c in b6
           || c in OrderClauses(r.sortBy) || c == RangeOf(r);
    if c in d {
      assert c.column == ChannelId || c.column == PublishedAt;
    } else if c in b1 {
      assert c == b1[0];
    } else if c in b2 {
      assert c == b2[0];
    } else if c in b3 {
      assert c == b3[0];
    } else if c in b4 {
      assert c == b4[0];
    } else if c in b5 {
      assert c == b5[0];
    } else if c in b6 {
      assert c == b6[0];
    }
  }

  /** The query asks for the requested channels' rows first, and names no other set of channels. */
  lemma ChannelsFirst(r: Request, now: int, parseDate: string -> Option<int>)
    ensures var q := QueryFor(r, now, parseDate);
            |q| > 1 && q[0] == In(ChannelId, r.channelIds) && forall c :: c in q && c.In? ==> c == q[0]
  {
    var d := DateClauses(r, now, parseDate);
    var b1 := BoundClause(r.durationMin, true, false, DurationSeconds);
    var b2 := BoundClause(r.durationMax, true, true, DurationSeconds);
    var b3 := BoundClause(r.viewsMin, false, false, LatestViewCount);
    var b4 := BoundClause(r.viewsMax, true, true, LatestViewCount);
    var b5 := BoundClause(r.likesMin, false, false, LatestLikeCount);
    var b6 := BoundClause(r.commentsMin, false, false, LatestCommentCount);
    var q := QueryFor(r, now, parseDate);
    forall c | c in q && c.In?
      ensures c == In(ChannelId, r.channelIds)
    {
      assert c in [In(ChannelId, r.channelIds)] || c in d || c in b1 || c in b2 || c in b3 || c in b4 || c in b5
             || c in b6 || c in OrderClauses(r.sortBy) || c == RangeOf(r);
    }
  }

  /**
   * The sort table: exactly one database order unless the engagement-rate sort is asked for,
   * and an unknown value orders by publish time, newest first.
   */
  lemma SortTable(sortBy: string)
    ensures sortBy == "engagement_rate_high_low" ==> OrderClauses(sortBy) == []
    ensures sortBy != "engagement_rate_high_low" ==> OrderClauses(sortBy) == [Order(SortOf(sortBy).0, SortOf(sortBy).1)]
    ensures sortBy !in {"views_high_low", "views_low_high", "date_old_new", "likes_high_low", "comments_high_low"}
            ==> SortOf(sortBy) == (PublishedAt, false)
    ensures SortOf(sortBy).1 <==> sortBy in {"views_low_high", "date_old_new"}
  {
  }

  /** The query always ends with the page range, rows `(page - 1) * limit` to `page * limit - 1`. */
  lemma QueryEndsWithRange(r: Request, now: int, parseDate: string -> Option<int>)
    ensures var q := QueryFor(r, now, parseDate);
            |q| > 0 && q[|q| - 1] == Range((r.page - 1) * r.limit, (r.page - 1) * r.limit + r.limit - 1)
    ensures RangeOf(r).to - RangeOf(r).from + 1 == r.limit
  {
  }

  /**
   * The date filter: a relative one keeps videos from the last 1, 7, 30 or 90 days, and an
   * unrecognised one keeps videos published at or after now; 'any' and an empty filter keep all.
   */
  lemma DateFilterTable(r: Request, now: int, parseDate: string -> Option<int>)
    requires r.uploadDateFilter != Some("custom_range")
    ensures r.uploadDateFilter == Some("last_7_days") ==> DateClauses(r, now, parseDate) == [Gte(PublishedAt, now - 7 * DayMs)]
    ensures (r.uploadDateFilter.None? || r.uploadDateFilter == Some("") || r.uploadDateFilter == Some("any"))
            <==> DateClauses(r, now, parseDate) == []
    ensures Truthy(r.uploadDateFilter) && r.uploadDateFilter.value !in {"any", "last_24_hours", "last_7_days", "last_30_days", "last_90_days"}
            ==> DateClauses(r, now, parseDate) == [Gte(PublishedAt, now)]
  {
  }

  /** A custom range is inclusive of its end day: the bound is the start of the following day. */
  lemma CustomRange(r: Request, now: int, parseDate: string -> Option<int>, start: int, end: int)
    requires r.uploadDateFilter == Some("custom_range")
    requires Truthy(r.customDateStart) && parseDate(r.customDateStart.value) == Some(start)
    requires Truthy(r.customDateEnd) && parseDate(r.customDateEnd.value) == Some(end)
    ensures DateClauses(r, now, parseDate) == [Gte(PublishedAt, start), Lt(PublishedAt, end + DayMs)]
  {
  }

  /** The default call asks for the given channels' rows, newest first, the first 24 of them. */
  lemma DefaultQuery(ids: seq<string>, now: int, parseDate: string -> Option<int>)
    ensures QueryFor(DefaultRequest(ids), now, parseDate) == [In(ChannelId, ids), Order(PublishedAt, false), Range(0, 23)]
  {
  }

  // ---------------------------------------------------------------------------------------
  // After the fetch
  // ---------------------------------------------------------------------------------------

  /** A fetched row: its id and its latest counts (`None` for null). */
  datatype VideoRow = VideoRow(videoId: string, views: Option<int>, likes: Option<int>, comments: Option<int>)

  datatype RatedRow = RatedRow(row: VideoRow, engagementRate: real)

  function OrZero(x: Option<int>): int
  {
    if x.Some? then x.value else 0
  }

  /** `(likes + comments) / views * 100` when there are views and some likes or comments, else 0. */
  function EngagementRate(v: VideoRow): (rate: real)
    ensures OrZero(v.views) <= 0 ==> rate == 0.0
    ensures OrZero(v.views) > 0 && OrZero(v.likes) >= 0 && OrZero(v.comments) >= 0 ==> rate >= 0.0
  {
    var views := OrZero(v.views);
    var likes := OrZero(v.likes);
    var comments := OrZero(v.comments);
    if views > 0 && (likes > 0 || comments > 0) then (likes + comments) as real / views as real * 100.0 else 0.0
  }

  function Rate(rows: seq<VideoRow>): (r: seq<RatedRow>)
    ensures |r| == |rows|
    ensures forall i :: 0 <= i < |r| ==> r[i] == RatedRow(rows[i], EngagementRate(rows[i]))
  {
    if |rows| == 0 then [] else Rate(rows[..|rows| - 1]) + [RatedRow(rows[|rows| - 1], EngagementRate(rows[|rows| - 1]))]
  }

  /** `minER ? parseFloat(minER) : null`, applied when it is a number above 0. */
  function MinRate(x: Option<string>, parseFloat: string -> Option<real>): (m: Option<real>)
    ensures m.Some? ==> m.value > 0.0
  {
    if Truthy(x) && parseFloat(x.value).Some? && parseFloat(x.value).value > 0.0 then parseFloat(x.value) else None
  }

  /** The post-fetch engagement-rate filter. */
  function RateFilter(rows: seq<RatedRow>, minRate: Option<real>): seq<RatedRow>
  {
    if minRate.None? then rows else Js.Filter(rows, (v: RatedRow) => v.engagementRate >= minRate.value)
  }

  /** With a minimum rate, exactly the rows at or above it are kept, in order. */
  lemma RateFilterKeeps(rows: seq<RatedRow>, m: real, v: RatedRow)
    ensures v in RateFilter(rows, Some(m)) <==> v in rows && v.engagementRate >= m
    ensures multiset(RateFilter(rows, Some(m))) <= multiset(rows)
  {
  }

  /** Rates in non-increasing order. */
  predicate Descending(s: seq<RatedRow>)
  {
    forall i, j :: 0 <= i < j < |s| ==> s[i].engagementRate >= s[j].engagementRate
  }

  /** `x` placed after the last element, from the end, whose rate is at least its own. */
  function InsertByRate(s: seq<RatedRow>, x: RatedRow): (r: seq<RatedRow>)
    ensures |r| == |s| + 1
  {
    if |s| == 0 then [x]
    else if s[|s| - 1].engagementRate >= x.engagementRate then s + [x]
    else InsertByRate(s[..|s| - 1], x) + [s[|s| - 1]]
  }

  lemma {:induction false} InsertElements(s: seq<RatedRow>, x: RatedRow)
    ensures multiset(InsertByRate(s, x)) == multiset(s) + multiset{x}
  {
    if |s| > 0 && s[|s| - 1].engagementRate < x.engagementRate {
      var init := s[..|s| - 1];
      Js.LastSplit(s);
      InsertElements(init, x);
    }
  }

  lemma {:induction false} InsertSorted(s: seq<RatedRow>, x: RatedRow)
    requires Descending(s)
    ensures Descending(InsertByRate(s, x))
  {
    if |s| > 0 && s[|s| - 1].engagementRate < x.engagementRate {
      var init := s[..|s| - 1];
      var last := s[|s| - 1];
      InsertSorted(init, x);
      InsertElements(init, x);
      var r := InsertByRate(init, x);
      forall k | 0 <= k < |r| ensures r[k].engagementRate >= last.engagementRate {
        assert r[k] in multiset(r);
        if r[k] != x {
          assert r[k] in multiset(init);
          var i :| 0 <= i < |init| && init[i] == r[k];
          assert s[i] == r[k];
        }
      }
    }
  }

  /**
   * `processedData.sort((a, b) => (b.engagement_rate || 0) - (a.engagement_rate || 0))`: the
   * stable sort by descending rate, each row inserted after the rows before it that rate as high.
   */
  function SortByRate(s: seq<RatedRow>): (r: seq<RatedRow>)
    ensures |r| == |s|
  {
    if |s| == 0 then [] else InsertByRate(SortByRate(s[..|s| - 1]), s[|s| - 1])
  }

  /** The sort puts the rows in descending rate order and loses or adds none. */
  lemma {:induction false} SortByRateSorts(s: seq<RatedRow>)
    ensures Descending(SortByRate(s))
    ensures multiset(SortByRate(s)) == multiset(s)
  {
    if |s| > 0 {
      var init := s[..|s| - 1];
      Js.LastSplit(s);
      SortByRateSorts(init);
      InsertSorted(SortByRate(init), s[|s| - 1]);
      InsertElements(SortByRate(init), s[|s| - 1]);
    }
  }

  /** Rows that are already in descending order keep their order. */
  lemma {:induction false} SortSortedIsIdentity(s: seq<RatedRow>)
    requires Descending(s)
    ensures SortByRate(s) == s
  {
    if |s| > 0 {
      var init := s[..|s| - 1];
      assert Descending(init);
      SortSortedIsIdentity(init);
      if |init| > 0 {
        assert init[|init| - 1].engagementRate >= s[|s| - 1].engagementRate;
      }
      assert init + [s[|s| - 1]] == s;
    }
  }

  // ---------------------------------------------------------------------------------------
  // The result
  // ---------------------------------------------------------------------------------------

  /** `Math.ceil(x)`. */
  function Ceil(x: real): (n: int)
    ensures n as real - 1.0 < x <= n as real
  {
    if x.Floor as real == x then x.Floor else x.Floor + 1
  }

  /**
   * The pagination block. As the source writes it the empty answer names the page `page` and
   * the other one `currentPage`; `totalPages` is `None` when the division by a zero limit is
   * not a finite number.
   */
  datatype Pagination =
    | EmptyPagination(totalItems: int, page: int, limit: int, totalPages: Option<int>)
    | PagePagination(totalItems: int, currentPage: int, limit: int, totalPages: Option<int>)

  datatype Listing = Listing(list: seq<RatedRow>, pagination: Pagination)

  /** What the query returned: an error, or the rows (null for none) and the exact count. */
  datatype DbAnswer = DbError | DbRows(rows: Option<seq<VideoRow>>, count: Option<int>)

  datatype Outcome = Failed(message: string) | Listed(listing: Listing)

  /** `Math.ceil((count || 0) / limit)`. */
  function TotalPages(count: Option<int>, limit: int): (r: Option<int>)
    ensures limit > 0 && count.Some? && count.value >= 0 ==>
              r.Some? && (r.value - 1) * limit < count.value <= r.value * limit
    ensures limit > 0 ==> r.Some?
    ensures limit == 0 ==> r.None?
  {
    var total := OrZero(count);
    if limit == 0 then None
    else
      var c := Ceil(total as real / limit as real);
      if limit > 0 then CeilPages(total, limit); Some(c) else Some(c)
  }

  /** `ceil(total / limit)` pages of `limit` rows hold the `total` rows, and one page fewer does not. */
  lemma CeilPages(total: int, limit: int)
    requires limit > 0
    ensures (Ceil(total as real / limit as real) - 1) * limit < total <= Ceil(total as real / limit as real) * limit
  {
    var x := total as real / limit as real;
    var c := Ceil(x);
    var l := limit as real;
    assert x * l == total as real;
    assert (c as real - 1.0) * l < x * l;
    assert x * l <= c as real * l;
    assert ((c - 1) * limit) as real == (c as real - 1.0) * l;
    assert (c * limit) as real == c as real * l;
  }

  /** `getVideosForChannelIdsFromSupabase`. */
  function VideosForChannels(r: Request, ready: bool, now: int, parseDate: string -> Option<int>,
                             parseFloat: string -> Option<real>, db: seq<Clause> -> DbAnswer): Outcome
  {
    if !ready then Failed("Supabase client not ready")
    else if |r.channelIds| == 0 then Listed(Listing([], EmptyPagination(0, r.page, r.limit, Some(0))))
    else
      match db(QueryFor(r, now, parseDate))
      case DbError => Failed("Failed to fetch video data for channels from Supabase")
      case DbRows(rows, count) =>
        var list := PostFetch(if rows.Some? then rows.value else [], MinRate(r.engagementRateMinVideo, parseFloat), r.sortBy);
        Listed(Listing(list, PagePagination(OrZero(count), r.page, r.limit, TotalPages(count, r.limit))))
  }

  /** No channel ids: an empty list with zero items and pages, and no query at all. */
  lemma EmptyChannelList(r: Request, now: int, parseDate: string -> Option<int>,
                         parseFloat: string -> Option<real>, db1: seq<Clause> -> DbAnswer, db2: seq<Clause> -> DbAnswer)
    requires |r.channelIds| == 0
    ensures VideosForChannels(r, true, now, parseDate, parseFloat, db1) == VideosForChannels(r, true, now, parseDate, parseFloat, db2)
    ensures VideosForChannels(r, true, now, parseDate, parseFloat, db1) == Listed(Listing([], EmptyPagination(0, r.page, r.limit, Some(0))))
  {
  }

  /** The rows as listed: rated, filtered by the minimum rate, and sorted for the engagement-rate sort. */
  function PostFetch(rows: seq<VideoRow>, minRate: Option<real>, sortBy: string): seq<RatedRow>
  {
    var kept := RateFilter(Rate(rows), minRate);
    if sortBy == "engagement_rate_high_low" then SortByRate(kept) else kept
  }

  /**
   * The listed rows are at most the fetched rows, each with its own rate, all at or above the
   * minimum rate when one is given, and in descending rate order for the engagement-rate sort.
   */
  lemma PostFetchShape(rows: seq<VideoRow>, minRate: Option<real>, sortBy: string)
    ensures var list := PostFetch(rows, minRate, sortBy);
            |list| <= |rows| &&
            (forall v :: v in list ==> v.row in rows && v.engagementRate == EngagementRate(v.row)) &&
            (minRate.Some? ==> forall v :: v in list ==> v.engagementRate >= minRate.value) &&
            (sortBy == "engagement_rate_high_low" ==> Descending(list))
  {
    var rated := Rate(rows);
    var kept := RateFilter(rated, minRate);
    RatedRows(rows);
    KeptRows(rated, minRate);
    var list := PostFetch(rows, minRate, sortBy);
    if sortBy == "engagement_rate_high_low" {
      SortedRows(kept);
      assert list == SortByRate(kept);
    } else {
      assert list == kept;
    }
  }

  /** Every rated row is a fetched row with its own rate. */
  lemma RatedRows(rows: seq<VideoRow>)
    ensures forall v :: v in Rate(rows) ==> v.row in rows && v.engagementRate == EngagementRate(v.row)
  {
    var rated := Rate(rows);
    forall v | v in rated ensures v.row in rows && v.engagementRate == EngagementRate(v.row) {
      var i :| 0 <= i < |rated| && rated[i] == v;
      assert rated[i] == RatedRow(rows[i], EngagementRate(rows[i]));
    }
  }

  /** The rate filter keeps some of the rows, all at or above the minimum when one is given. */
  lemma KeptRows(rated: seq<RatedRow>, minRate: Option<real>)
    ensures var kept := RateFilter(rated, minRate);
            |kept| <= |rated| && (forall v :: v in kept ==> v in rated) &&
            (minRate.Some? ==> forall v :: v in kept ==> v.engagementRate >= minRate.value)
  {
  }

  /** The sorted rows are the kept rows, in descending rate order. */
  lemma SortedRows(kept: seq<RatedRow>)
    ensures var sorted := SortByRate(kept);
            |sorted| == |kept| && (forall v :: v in sorted ==> v in kept) && Descending(sorted)
  {
    var sorted := SortByRate(kept);
    SortByRateSorts(kept);
    assert forall v :: v in sorted ==> v in multiset(kept);
  }

  /** A listed answer's pagination counts the rows before the rate filter. */
  lemma ListingPagination(r: Request, now: int, parseDate: string -> Option<int>,
                          parseFloat: string -> Option<real>, db: seq<Clause> -> DbAnswer)
    requires |r.channelIds| > 0
    requires db(QueryFor(r, now, parseDate)).DbRows?
    ensures var out := VideosForChannels(r, true, now, parseDate, parseFloat, db);
            var answer := db(QueryFor(r, now, parseDate));
            out.Listed? &&
            out.listing.list == PostFetch(if answer.rows.Some? then answer.rows.value else [],
                                          MinRate(r.engagementRateMinVideo, parseFloat), r.sortBy) &&
            out.listing.pagination == PagePagination(OrZero(answer.count), r.page, r.limit, TotalPages(answer.count, r.limit))
    ensures VideosForChannels(r, false, now, parseDate, parseFloat, db) == Failed("Supabase client not ready")
  {
  }
}
