/**
 * The research page's pure parts: how a duration is shown, the per-channel statistics of the
 * competitor table, its view filters and its sort, the sort-column handler and the video
 * pagination controls. Fetching and rendering are left out.
 */
module ResearchPage {
  import opened Wrappers
  import Js
  import TrendsController
  import JsonValue
  import Sorting

  // ---------------------------------------------------------------------------------------
  // formatDuration
  // ---------------------------------------------------------------------------------------

  /** JavaScript's `a % b` for a positive `b`: the remainder takes the sign of `a`. */
  function JsRem(a: int, b: int): (r: int)
    requires b > 0
    ensures a >= 0 ==> r == a % b
    ensures -b < r < b && (r == 0 || (r < 0 <==> a < 0))
  {
    if a >= 0 || a % b == 0 then a % b else a % b - b
  }

  /** `formatDuration`: "N/A" for a missing duration, otherwise minutes, a colon and seconds. */
  function FormatDuration(totalSeconds: Option<int>): string
  {
    if totalSeconds.None? then "N/A"
    else
      var s := totalSeconds.value;
      // `Math.floor(s / 60)`: Dafny's division by a positive number is already the floor.
      var minutes := s / 60;
      var seconds := JsRem(s, 60);
      Clock(minutes, seconds)
  }

  /** Minutes, a colon and the padded seconds. */
  function Clock(minutes: int, seconds: int): string
  {
    Js.IntToString(minutes) + ":" + Padded(seconds)
  }

  /** Seconds below ten get a leading zero. */
  function Padded(seconds: int): string
  {
    (if seconds < 10 then "0" else "") + Js.IntToString(seconds)
  }

  /** Reading "M:SS" back: the minutes and seconds on either side of the one colon. */
  function ReadDuration(t: string): Option<int>
  {
    var parts := Js.Split(t, ':');
    if |parts| != 2 then None
    else
      var m := Js.ParseInt10(parts[0]);
      var sec := Js.ParseInt10(parts[1]);
      if m.Some? && sec.Some? then Some(60 * m.value + sec.value) else None
  }

  /** The first colon of `d + ":" + rest` is the one after `d` when `d` has none. */
  lemma SplitAtColon(d: string, rest: string)
    requires ':' !in d && ':' !in rest
    ensures Js.Split(d + ":" + rest, ':') == [d, rest]
  {
    var t := d + ":" + rest;
    assert t[..|d|] == d && t[|d|] == ':';
    var k := Js.IndexOfChar(t, ':');
    assert k == Some(|d|) by {
      assert t[..|d| + 1][|d|] == ':';
    }
    assert t[|d| + 1..] == rest;
    assert Js.Split(rest, ':') == [rest];
  }

  /** A single digit after a leading zero, as `parseInt(_, 10)` reads it. */
  lemma ReadPaddedDigit(n: nat)
    requires n < 10
    ensures Js.ParseInt10("0" + Js.IntToString(n)) == Some(n)
  {
    var d := Js.DigitChar(n);
    var t := "0" + Js.IntToString(n);
    assert t == ['0', d];
    Js.NoLeadingSpace(t);
    assert Js.TrimStart(t) == t;
    assert t[1..] == [d] && t[1..][1..] == [];
    assert Js.DigitRun(t, 10) == 2;
    assert t[..2] == t && t[..1] == ['0'] && ['0'][..0] == [];
    assert Js.DigitsValue(['0'], 10) == 0;
    assert Js.DigitsValue(t, 10) == n;
  }

  /** Two decimal digits, read back as the number. */
  lemma ReadTwoDigits(n: nat)
    requires 10 <= n < 100
    ensures |Js.IntToString(n)| == 2 && Js.ParseInt10(Js.IntToString(n)) == Some(n)
  {
    Js.ParseIntOfIntToString(n);
    assert Js.IntToString(n) == Js.NatToString(n / 10) + [Js.DigitChar(n % 10)];
  }

  /** A decimal rendering holds no colon. */
  lemma NoColon(n: nat)
    ensures ':' !in Js.IntToString(n)
  {
  }

  /** The seconds text: two characters, no colon, and it reads back as the seconds. */
  lemma SecondsText(n: nat)
    requires n < 60
    ensures |Padded(n)| == 2 && Js.ParseInt10(Padded(n)) == Some(n) && ':' !in Padded(n)
  {
    if n < 10 {
      PaddedDigit(n);
    } else {
      PaddedPair(n);
    }
  }

  lemma PaddedDigit(n: nat)
    requires n < 10
    ensures |Padded(n)| == 2 && Js.ParseInt10(Padded(n)) == Some(n) && ':' !in Padded(n)
  {
    NoColon(n);
    ReadPaddedDigit(n);
    assert Padded(n) == "0" + Js.IntToString(n);
  }

  lemma PaddedPair(n: nat)
    requires 10 <= n < 60
    ensures |Padded(n)| == 2 && Js.ParseInt10(Padded(n)) == Some(n) && ':' !in Padded(n)
  {
    NoColon(n);
    ReadTwoDigits(n);
    assert Padded(n) == Js.IntToString(n);
  }

  /**
   * For a whole number of seconds, the shown text has two-digit seconds and reads back as the
   * same number of seconds; a missing duration is "N/A".
   */
  lemma DurationRoundTrip(s: nat)
    ensures ReadDuration(FormatDuration(Some(s))) == Some(s)
    ensures var parts := Js.Split(FormatDuration(Some(s)), ':'); |parts| == 2 && |parts[1]| == 2
    ensures FormatDuration(None) == "N/A"
  {
    FormatParts(s);
    DurationTextReads(s, s / 60, s % 60);
  }

  lemma DurationTextReads(s: nat, m: nat, sec: nat)
    requires sec < 60 && s == 60 * m + sec
    ensures ReadDuration(Clock(m, sec)) == Some(s)
    ensures Js.Split(Clock(m, sec), ':') == [Js.IntToString(m), Padded(sec)]
    ensures |Padded(sec)| == 2
  {
    SecondsText(sec);
    Js.ParseIntOfIntToString(m);
    NoColon(m);
    SplitAtColon(Js.IntToString(m), Padded(sec));
    ReadParts(Clock(m, sec), Js.IntToString(m), Padded(sec), m, sec, s);
  }

  lemma FormatParts(s: nat)
    ensures FormatDuration(Some(s)) == Clock(s / 60, s % 60)
  {
    assert JsRem(s, 60) == s % 60;
  }

  lemma ReadParts(t: string, a: string, b: string, x: int, y: int, z: int)
    requires Js.Split(t, ':') == [a, b]
    requires Js.ParseInt10(a) == Some(x) && Js.ParseInt10(b) == Some(y) && z == 60 * x + y
    ensures ReadDuration(t) == Some(z)
  {
    var parts := Js.Split(t, ':');
    assert parts[0] == a && parts[1] == b;
  }

  // ---------------------------------------------------------------------------------------
  // Competitor statistics
  // ---------------------------------------------------------------------------------------

  /**
   * A channel row as the research endpoint returns it; absent numbers are None. The counts,
   * including `avgViews`, are whole numbers here; a fractional average the backend may answer
   * with is not represented.
   */
  datatype Channel = Channel(
    name: Option<string>, subscribers: Option<int>, totalViews: Option<int>, avgViews: Option<int>,
    videos: Option<int>, likes: Option<int>, comments: Option<int>, timeFrame: Option<string>)

  /** A channel with the statistics the page computes for it. */
  datatype Row = Row(
    channel: Channel, viewsPerVideo: real, subToViewRatio: real, avgLikesPerVideo: real,
    avgCommentsPerVideo: real, engagementRate: Option<real>)

  /** `x || 0` for a count. */
  function OrZero(x: Option<int>): int
  {
    if x.Some? then x.value else 0
  }

  /** `part / whole` when both are positive, else 0. */
  function PerUnit(part: int, whole: int): real
  {
    if whole > 0 && part > 0 then part as real / whole as real else 0.0
  }

  function EngagementRate(c: Channel): Option<real>
  {
    var views := OrZero(c.totalViews);
    var likes := OrZero(c.likes);
    var comments := OrZero(c.comments);
    if c.timeFrame == Some("all_time") then None
    else if views > 0 && (likes > 0 || comments > 0) then Some((likes + comments) as real / views as real * 100.0)
    else Some(0.0)
  }

  function WithStats(c: Channel): Row
  {
    var views := OrZero(c.totalViews);
    var likes := OrZero(c.likes);
    var comments := OrZero(c.comments);
    var videos := OrZero(c.videos);
    Row(c, PerUnit(views, videos), PerUnit(views, OrZero(c.subscribers)), PerUnit(likes, videos),
        PerUnit(comments, videos), EngagementRate(c))
  }

  /**
   * Each per-video average is 0 when no videos were published or its total is 0, and otherwise
   * the total spread over the videos; the engagement rate is null over all time, 0 without
   * views or without likes and comments, and otherwise (likes + comments) per 100 views.
   */
  lemma StatsMeaning(c: Channel)
    ensures var r := WithStats(c);
            var videos := OrZero(c.videos);
            var views := OrZero(c.totalViews);
            (videos <= 0 || views <= 0 ==> r.viewsPerVideo == 0.0) &&
            (videos <= 0 || OrZero(c.likes) <= 0 ==> r.avgLikesPerVideo == 0.0) &&
            (videos <= 0 || OrZero(c.comments) <= 0 ==> r.avgCommentsPerVideo == 0.0) &&
            (videos > 0 && views > 0 ==> r.viewsPerVideo * videos as real == views as real) &&
            (videos > 0 ==> r.avgLikesPerVideo * videos as real == if OrZero(c.likes) > 0 then OrZero(c.likes) as real else 0.0) &&
            r.channel == c
    ensures var e := WithStats(c).engagementRate;
            var views := OrZero(c.totalViews);
            var lc := OrZero(c.likes) + OrZero(c.comments);
            (e.None? <==> c.timeFrame == Some("all_time")) &&
            (e.Some? && (views <= 0 || (OrZero(c.likes) <= 0 && OrZero(c.comments) <= 0)) ==> e.value == 0.0) &&
            (e.Some? && views > 0 && (OrZero(c.likes) > 0 || OrZero(c.comments) > 0) ==>
               e.value * views as real == lc as real * 100.0)
  {
  }

  // ---------------------------------------------------------------------------------------
  // View filters
  // ---------------------------------------------------------------------------------------

  /** A bound typed into a filter box applies only when it reads as a positive integer. */
  function Bound(text: string): Option<int>
  {
    var p := Js.ParseInt10(text);
    if p.Some? && p.value > 0 then p else None
  }

  predicate InRange(r: Row, min: Option<int>, max: Option<int>)
  {
    (min.None? || (r.channel.totalViews.Some? && r.channel.totalViews.value >= min.value)) &&
    (max.None? || (r.channel.totalViews.Some? && r.channel.totalViews.value <= max.value))
  }

  /** The rows within both bounds, in their original order. */
  function FilterRows(rows: seq<Row>, min: Option<int>, max: Option<int>): seq<Row>
  {
    Js.Filter(rows, (r: Row) => InRange(r, min, max))
  }

  /**
   * A bound that does not read as a positive integer is ignored; one that does excludes every
   * channel without a view count, and `invalid` bounds keep every row.
   */
  lemma BoundsApply(n: int, w: string, rows: seq<Row>)
    requires Js.AllSpace(w)
    ensures Bound(w) == None && Bound("abc") == None && Bound(Js.IntToString(0)) == None
    ensures n > 0 ==> Bound(Js.IntToString(n)) == Some(n)
    ensures n <= 0 ==> Bound(Js.IntToString(n)) == None
    ensures FilterRows(rows, None, None) == rows
  {
    Js.ParseIntBlank(w, false);
    JsonValue.LetterLead("abc");
    Js.ParseIntOfIntToString(n);
    Js.ParseIntOfIntToString(0);
    NoBoundsKeepAll(rows);
  }

  lemma NoBoundsKeepAll(rows: seq<Row>)
    ensures FilterRows(rows, None, None) == rows
  {
    Js.FilterKeepsAll(rows, (r: Row) => InRange(r, None, None));
  }

  // ---------------------------------------------------------------------------------------
  // Sorting
  // ---------------------------------------------------------------------------------------

  datatype Column = Name | Subscribers | TotalViews | AvgViews | Engagement
  datatype Direction = Asc | Desc

  /** The numeric value sorted on, None for undefined or null. */
  function Key(r: Row, col: Column): Option<real>
  {
    match col
    case Name => None
    case Subscribers => if r.channel.subscribers.Some? then Some(r.channel.subscribers.value as real) else None
    case TotalViews => if r.channel.totalViews.Some? then Some(r.channel.totalViews.value as real) else None
    case AvgViews => if r.channel.avgViews.Some? then Some(r.channel.avgViews.value as real) else None
    case Engagement => r.engagementRate
  }

  /** `a.name || ''`. */
  function NameOf(r: Row): string
  {
    if r.channel.name.Some? then r.channel.name.value else ""
  }

  /** Code-unit order on strings. */
  predicate LexLess(a: string, b: string)
    decreases |a|
  {
    if a == [] then b != []
    else if b == [] then false
    else a[0] < b[0] || (a[0] == b[0] && LexLess(a[1..], b[1..]))
  }

  function Sign(x: real): int
  {
    if x < 0.0 then -1 else if x > 0.0 then 1 else 0
  }

  /** The sign of `localeCompare`. */
  function CompareText(a: string, b: string): int
  {
    if LexLess(a, b) then -1 else if LexLess(b, a) then 1 else 0
  }

  /** The sign of the page's comparator: negative puts `a` first. */
  function Order(a: Row, b: Row, col: Column, dir: Direction): int
  {
    if col == Name then
      if dir == Asc then CompareText(NameOf(a), NameOf(b)) else CompareText(NameOf(b), NameOf(a))
    else
      var va := Key(a, col);
      var vb := Key(b, col);
      if va.None? && vb.None? then 0
      else if va.None? then (if dir == Desc then 1 else -1)
      else if vb.None? then (if dir == Desc then -1 else 1)
      else if dir == Asc then Sign(va.value - vb.value) else Sign(vb.value - va.value)
  }

  lemma {:induction false} LexTrichotomy(a: string, b: string)
    ensures a == b || LexLess(a, b) || LexLess(b, a)
    ensures !(LexLess(a, b) && LexLess(b, a))
    ensures !LexLess(a, a)
    decreases |a|
  {
    if a != [] && b != [] {
      LexTrichotomy(a[1..], b[1..]);
      if a[0] == b[0] && a[1..] == b[1..] {
        assert a == [a[0]] + a[1..] && b == [b[0]] + b[1..];
      }
    }
    if a != [] {
      LexTrichotomy(a[1..], a[1..]);
    }
  }

  lemma {:induction false} LexTransitive(a: string, b: string, c: string)
    requires LexLess(a, b) && LexLess(b, c)
    ensures LexLess(a, c)
    decreases |a|
  {
    if a != [] && a[0] == b[0] && b[0] == c[0] {
      LexTransitive(a[1..], b[1..], c[1..]);
    }
  }

  /** The comparator swaps sign when its arguments swap. */
  lemma OrderAntisymmetric(a: Row, b: Row, col: Column, dir: Direction)
    ensures Order(a, b, col, dir) == -Order(b, a, col, dir)
  {
    LexTrichotomy(NameOf(a), NameOf(b));
  }

  /** The comparator's "not after" is transitive, so sorting by it is well defined. */
  lemma OrderTransitive(a: Row, b: Row, c: Row, col: Column, dir: Direction)
    requires Order(a, b, col, dir) <= 0 && Order(b, c, col, dir) <= 0
    ensures Order(a, c, col, dir) <= 0
  {
    if col == Name {
      var x, y, z := NameOf(a), NameOf(b), NameOf(c);
      LexTrichotomy(x, y);
      LexTrichotomy(y, z);
      LexTrichotomy(x, z);
      if LexLess(x, y) && LexLess(y, z) { LexTransitive(x, y, z); }
      if LexLess(y, x) && LexLess(z, y) { LexTransitive(z, y, x); }
    }
  }

  function Comparator(col: Column, dir: Direction): (Row, Row) -> int
  {
    (a: Row, b: Row) => Order(a, b, col, dir)
  }

  /** Every column and direction gives a comparator the sort can rely on. */
  lemma ComparatorConsistent(col: Column, dir: Direction)
    ensures Sorting.Consistent(Comparator(col, dir))
  {
    forall a: Row, b: Row
      ensures Order(a, b, col, dir) == -Order(b, a, col, dir)
    {
      OrderAntisymmetric(a, b, col, dir);
    }
    forall a: Row, b: Row, c: Row | Order(a, b, col, dir) <= 0 && Order(b, c, col, dir) <= 0
      ensures Order(a, c, col, dir) <= 0
    {
      OrderTransitive(a, b, c, col, dir);
    }
  }

  /** `sortedCompetitorChannelData`: statistics, then the view filters, then the sort. */
  function CompetitorTable(channels: seq<Channel>, col: Column, dir: Direction, minText: string, maxText: string): seq<Row>
  {
    var rows := seq(|channels|, i requires 0 <= i < |channels| => WithStats(channels[i]));
    Sorting.Sort(FilterRows(rows, Bound(minText), Bound(maxText)), Comparator(col, dir))
  }

  /**
   * The table holds exactly the channels whose view count is within the bounds, each once per
   * occurrence, in comparator order; on a numeric column the rows without a value come last
   * when descending and first when ascending.
   */
  lemma TableContents(channels: seq<Channel>, col: Column, dir: Direction, minText: string, maxText: string, x: Row)
    ensures var t := CompetitorTable(channels, col, dir, minText, maxText);
            var rows := seq(|channels|, i requires 0 <= i < |channels| => WithStats(channels[i]));
            multiset(t)[x] == (if InRange(x, Bound(minText), Bound(maxText)) then multiset(rows)[x] else 0) &&
            Sorting.Sorted(t, Comparator(col, dir))
  {
    var rows := seq(|channels|, i requires 0 <= i < |channels| => WithStats(channels[i]));
    var f := FilterRows(rows, Bound(minText), Bound(maxText));
    ComparatorConsistent(col, dir);
    Sorting.SortCorrect(f, Comparator(col, dir));
    Js.FilterCount(rows, (r: Row) => InRange(r, Bound(minText), Bound(maxText)), x);
  }

  /** In a sorted numeric column, missing values come last descending and first ascending. */
  lemma MissingValuesPlaced(s: seq<Row>, col: Column, dir: Direction, i: int, j: int)
    requires col != Name && Sorting.Sorted(s, Comparator(col, dir)) && 0 <= i < j < |s|
    ensures dir == Desc && Key(s[i], col).None? ==> Key(s[j], col).None?
    ensures dir == Asc && Key(s[j], col).None? ==> Key(s[i], col).None?
    ensures Key(s[i], col).Some? && Key(s[j], col).Some? ==>
              if dir == Asc then Key(s[i], col).value <= Key(s[j], col).value
              else Key(s[i], col).value >= Key(s[j], col).value
  {
    assert Order(s[i], s[j], col, dir) <= 0;
  }

  // ---------------------------------------------------------------------------------------
  // handleCompetitorSort
  // ---------------------------------------------------------------------------------------

  class SortState {
    var sortBy: Column
    var sortOrder: Direction

    constructor()
      ensures sortBy == Subscribers && sortOrder == Desc
    {
      sortBy, sortOrder := Subscribers, Desc;
    }

    /** The current column flips direction; another column is selected descending. */
    method HandleSort(col: Column)
      modifies this
      ensures sortBy == col
      ensures sortOrder == if old(sortBy) == col then (if old(sortOrder) == Asc then Desc else Asc) else Desc
    {
      if sortBy == col {
        sortOrder := if sortOrder == Asc then Desc else Asc;
      } else {
        sortBy, sortOrder := col, Desc;
      }
    }
  }

  // ---------------------------------------------------------------------------------------
  // Video pagination
  // ---------------------------------------------------------------------------------------

  predicate PreviousDisabled(page: int, loading: bool) { page <= 1 || loading }

  predicate NextDisabled(page: int, perPage: int, total: int, loading: bool) { page * perPage >= total || loading }

  predicate ControlsShown(shown: nat, total: int, perPage: int) { shown > 0 && total > perPage }

  function PageCount(total: int, perPage: int): int
    requires perPage != 0
  {
    TrendsController.CeilDiv(total, perPage)
  }

  /**
   * When not loading, Next is enabled exactly on the pages before the last one and Previous
   * on every page after the first; the controls show only when there is more than one page.
   */
  lemma PagingButtons(page: int, perPage: int, total: nat, shown: nat)
    requires perPage > 0 && page >= 1
    ensures !NextDisabled(page, perPage, total, false) <==> page < PageCount(total, perPage)
    ensures !PreviousDisabled(page, false) <==> page > 1
    ensures ControlsShown(shown, total, perPage) ==> PageCount(total, perPage) > 1
  {
    var r := PageCount(total, perPage);
    TrendsController.TotalPagesBound(total, perPage);
    if page >= r {
      TrendsController.MulPositive(perPage, page - r);
      assert perPage * (page - r) == page * perPage - perPage * r;
    } else {
      TrendsController.MulPositive(perPage, r - 1 - page);
      assert perPage * (r - 1 - page) == perPage * (r - 1) - page * perPage;
    }
  }
}
