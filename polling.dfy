/**
 * The decision logic of the polling service: the strict ISO 8601 duration parser, the Shorts
 * filter, the tracked-channel list of a preference row, and the alert conditions evaluated for
 * one Short together with the status of the alert record saved for it. The clock is the
 * parameter `now` (milliseconds); JavaScript's NaN is `None`.
 */
module Polling {
  import opened Wrappers
  import Js

  // ---------------------------------------------------------------------------------------
  // parseISO8601Duration
  // ---------------------------------------------------------------------------------------

  /** A matched `\d+(\.\d+)?` seconds group: the whole part and the digits after the point. */
  datatype Decimal = Decimal(whole: nat, frac: string)

  /** The seven capture groups of the duration pattern; `None` is a group that did not take part. */
  datatype Components = Components(
    years: Option<nat>, months: Option<nat>, weeks: Option<nat>, days: Option<nat>,
    hours: Option<nat>, minutes: Option<nat>, seconds: Option<Decimal>)

  /** What a scanning step matched, and the text left after it. */
  datatype Scan<T> = Scan(value: Option<T>, rest: string)

  /** The character right after the leading run of decimal digits, when there is such a run. */
  function Lead(t: string): Option<char>
  {
    var n := Js.DigitRun(t, 10);
    if n > 0 && n < |t| then Some(t[n]) else None
  }

  /** One optional group `(?:(\d+)U)?`: digits followed by the designator `u`. */
  function Field(t: string, u: char): (r: Scan<nat>)
    ensures r.value.None? ==> r.rest == t
    ensures r.value.Some? ==> Lead(t) == Some(u)
  {
    var n := Js.DigitRun(t, 10);
    if n > 0 && n < |t| && t[n] == u then Scan(Some(Js.DigitsValue(t[..n], 10)), t[n + 1..])
    else Scan(None, t)
  }

  /** What a group leaves unread is part of its input. */
  lemma FieldRestIn(t: string, u: char)
    ensures forall c :: c in Field(t, u).rest ==> c in t
  {
    var n := Js.DigitRun(t, 10);
    if n > 0 && n < |t| && t[n] == u {
      forall c | c in t[n + 1..] ensures c in t {
        var k :| 0 <= k < |t[n + 1..]| && t[n + 1..][k] == c;
        assert t[n + 1 + k] == c;
      }
    }
  }

  predicate AllDigits(f: string)
  {
    forall i :: 0 <= i < |f| ==> Js.IsDecimalDigit(f[i])
  }

  /** The fraction and closing designator of a seconds group, `\d+S`, after the point. */
  function FracField(u: string): (r: Scan<string>)
    ensures r.value.None? ==> r.rest == u
    ensures r.value.Some? ==> AllDigits(r.value.value)
    ensures forall c :: c in r.rest ==> c in u
  {
    var m := Js.DigitRun(u, 10);
    if m > 0 && m < |u| && u[m] == 'S' then
      assert forall c :: c in u[m + 1..] ==> c in u by {
        forall c | c in u[m + 1..] ensures c in u {
          var k :| 0 <= k < |u[m + 1..]| && u[m + 1..][k] == c;
          assert u[m + 1 + k] == c;
        }
      }
      Scan(Some(u[..m]), u[m + 1..])
    else Scan(None, u)
  }

  /** The optional seconds group `(?:(\d+(?:\.\d+)?)S)?`. */
  function SecondsField(t: string): (r: Scan<Decimal>)
    ensures r.value.None? ==> r.rest == t
    ensures r.value.Some? ==> AllDigits(r.value.value.frac)
    ensures forall c :: c in r.rest ==> c in t
  {
    var n := Js.DigitRun(t, 10);
    if n == 0 || n >= |t| then Scan(None, t)
    else if t[n] == 'S' then
      assert forall c :: c in t[n + 1..] ==> c in t by {
        forall c | c in t[n + 1..] ensures c in t {
          var k :| 0 <= k < |t[n + 1..]| && t[n + 1..][k] == c;
          assert t[n + 1 + k] == c;
        }
      }
      Scan(Some(Decimal(Js.DigitsValue(t[..n], 10), "")), t[n + 1..])
    else if t[n] == '.' then
      var f := FracField(t[n + 1..]);
      if f.value.None? then Scan(None, t)
      else
        assert forall c :: c in f.rest ==> c in t by {
          forall c | c in f.rest ensures c in t {
            var k :| 0 <= k < |t[n + 1..]| && t[n + 1..][k] == c;
            assert t[n + 1 + k] == c;
          }
        }
        Scan(Some(Decimal(Js.DigitsValue(t[..n], 10), f.value.value)), f.rest)
    else Scan(None, t)
  }

  /** The date part `(?:(\d+)Y)?(?:(\d+)M)?(?:(\d+)W)?(?:(\d+)D)?` and the text after it. */
  datatype DateParts = DateParts(years: Option<nat>, months: Option<nat>, weeks: Option<nat>,
                                 days: Option<nat>, rest: string)

  /** The time part `(?:(\d+)H)?(?:(\d+)M)?(?:(\d+(?:\.\d+)?)S)?`, which must end the string. */
  datatype TimeParts = TimeParts(hours: Option<nat>, minutes: Option<nat>, seconds: Option<Decimal>)

  function DateFields(t: string): (r: DateParts)
    ensures forall c :: c in r.rest ==> c in t
  {
    var y := Field(t, 'Y');
    var mo := Field(y.rest, 'M');
    var w := Field(mo.rest, 'W');
    var d := Field(w.rest, 'D');
    FieldRestIn(t, 'Y');
    FieldRestIn(y.rest, 'M');
    FieldRestIn(mo.rest, 'W');
    FieldRestIn(w.rest, 'D');
    DateParts(y.value, mo.value, w.value, d.value, d.rest)
  }

  function TimeFields(t: string): (r: Option<TimeParts>)
    ensures r.Some? && r.value.seconds.Some? ==> AllDigits(r.value.seconds.value.frac)
  {
    var h := Field(t, 'H');
    var mi := Field(h.rest, 'M');
    var sec := SecondsField(mi.rest);
    if sec.rest != "" then None else Some(TimeParts(h.value, mi.value, sec.value))
  }

  /**
   * `durationString.match(/^P(?:(\d+)Y)?(?:(\d+)M)?(?:(\d+)W)?(?:(\d+)D)?T(?:(\d+)H)?(?:(\d+)M)?(?:(\d+(?:\.\d+)?)S)?$/)`.
   * Every group is a digit run closed by its own designator, so the groups are taken left to
   * right without backtracking. The `P` and the `T` are both mandatory.
   */
  function MatchDuration(s: string): (r: Option<Components>)
    ensures r.Some? ==> |s| > 0 && s[0] == 'P' && 'T' in s
    ensures r.Some? && r.value.seconds.Some? ==> AllDigits(r.value.seconds.value.frac)
  {
    if |s| == 0 || s[0] != 'P' then None
    else
      var date := DateFields(s[1..]);
      var t := date.rest;
      if |t| == 0 || t[0] != 'T' then None
      else
        match TimeFields(t[1..])
        case None => None
        case Some(time) =>
          assert 'T' in s by {
            assert t[0] in t;
            var k :| 0 <= k < |s[1..]| && s[1..][k] == 'T';
            assert s[k + 1] == 'T';
          }
          Some(Components(date.years, date.months, date.weeks, date.days,
                          time.hours, time.minutes, time.seconds))
  }

  function Pow10(k: nat): (p: nat)
    ensures p >= 1
  {
    if k == 0 then 1 else 10 * Pow10(k - 1)
  }

  /** `parseFloat` of a seconds group, without binary floating-point rounding. */
  function DecimalValue(d: Decimal): real
    requires AllDigits(d.frac)
  {
    assert forall i :: 0 <= i < |d.frac| ==> Js.DigitIn(d.frac[i], 10).Some?;
    d.whole as real + Js.DigitsValue(d.frac, 10) as real / Pow10(|d.frac|) as real
  }

  /** `parseFloat(matches[i] || 0)`: an absent group counts as 0. */
  function Part(o: Option<nat>): nat
  {
    if o.Some? then o.value else 0
  }

  function SecondsPart(o: Option<Decimal>): real
    requires o.Some? ==> AllDigits(o.value.frac)
  {
    if o.Some? then DecimalValue(o.value) else 0.0
  }

  /**
   * The duration in seconds: the seconds, then 60 per minute, 3600 per hour, 86400 per day,
   * 604800 per week, 2629800 per (average) month and 31557600 per (average) year.
   */
  function TotalSeconds(c: Components): real
    requires c.seconds.Some? ==> AllDigits(c.seconds.value.frac)
  {
    SecondsPart(c.seconds) + (Part(c.minutes) * 60) as real + (Part(c.hours) * 3600) as real
    + (Part(c.days) * 86400) as real + (Part(c.weeks) * 604800) as real
    + (Part(c.months) * 2629800) as real + (Part(c.years) * 31557600) as real
  }

  /**
   * `parseISO8601Duration`: null (`None`) for a missing, non-string or empty argument, or a
   * string the pattern does not match; otherwise the total number of seconds. `None` as the
   * argument stands for every value that is not a string.
   */
  function DurationSeconds(d: Option<string>): (r: Option<real>)
    ensures r.Some? <==> d.Some? && d.value != "" && MatchDuration(d.value).Some?
    ensures r.Some? ==> r.value == TotalSeconds(MatchDuration(d.value).value)
  {
    if d.None? || d.value == "" then None
    else
      match MatchDuration(d.value)
      case None => None
      case Some(c) => Some(TotalSeconds(c))
  }

  /** The function's statement sequence: `totalSeconds` is started at the seconds and grown unit by unit. */
  method ParseISO8601Duration(d: Option<string>) returns (r: Option<real>)
    ensures r.Some? <==> d.Some? && d.value != "" && MatchDuration(d.value).Some?
    ensures r.Some? ==> var c := MatchDuration(d.value).value;
              r.value == SecondsPart(c.seconds) + 60.0 * Part(c.minutes) as real
                         + 3600.0 * Part(c.hours) as real + 86400.0 * Part(c.days) as real
                         + 604800.0 * Part(c.weeks) as real + 2629800.0 * Part(c.months) as real
                         + 31557600.0 * Part(c.years) as real
    ensures r == DurationSeconds(d)
  {
    if d.None? || d.value == "" {
      return None;
    }
    var matches := MatchDuration(d.value);
    if matches.None? {
      return None;
    }
    var c := matches.value;
    var totalSeconds := AddUp(c);
    r := Some(totalSeconds);
  }

  /** The additions of `parseISO8601Duration`, in its order. */
  method AddUp(c: Components) returns (totalSeconds: real)
    requires c.seconds.Some? ==> AllDigits(c.seconds.value.frac)
    ensures totalSeconds == TotalSeconds(c)
    ensures totalSeconds == SecondsPart(c.seconds) + 60.0 * Part(c.minutes) as real
                            + 3600.0 * Part(c.hours) as real + 86400.0 * Part(c.days) as real
                            + 604800.0 * Part(c.weeks) as real + 2629800.0 * Part(c.months) as real
                            + 31557600.0 * Part(c.years) as real
  {
    totalSeconds := SecondsPart(c.seconds);
    totalSeconds := totalSeconds + (Part(c.minutes) * 60) as real;
    totalSeconds := totalSeconds + (Part(c.hours) * 3600) as real;
    totalSeconds := totalSeconds + (Part(c.days) * 86400) as real;
    totalSeconds := totalSeconds + (Part(c.weeks) * 604800) as real;
    totalSeconds := totalSeconds + (Part(c.months) * 2629800) as real;
    totalSeconds := totalSeconds + (Part(c.years) * 31557600) as real;
  }

  // Rendering: the canonical text of a set of components, the partner of `MatchDuration`.

  function RenderField(o: Option<nat>, u: char): string
  {
    if o.Some? then Js.NatToString(o.value) + [u] else ""
  }

  function RenderSeconds(o: Option<Decimal>): string
  {
    if o.None? then ""
    else Js.NatToString(o.value.whole) + (if o.value.frac == "" then "" else "." + o.value.frac) + "S"
  }

  function RenderTime(c: Components): string
  {
    "T" + RenderField(c.hours, 'H') + (RenderField(c.minutes, 'M') + RenderSeconds(c.seconds))
  }

  function Render(c: Components): string
  {
    "P" + (RenderField(c.years, 'Y') + (RenderField(c.months, 'M') + (RenderField(c.weeks, 'W')
      + (RenderField(c.days, 'D') + RenderTime(c)))))
  }

  /** A rendered number followed by a non-digit: its digit run is exactly the number. */
  lemma NumberThen(n: nat, x: string)
    requires |x| > 0 && !Js.IsDecimalDigit(x[0])
    ensures Js.DigitRun(Js.NatToString(n) + x, 10) == |Js.NatToString(n)|
    ensures (Js.NatToString(n) + x)[..|Js.NatToString(n)|] == Js.NatToString(n)
    ensures Js.DigitsValue(Js.NatToString(n), 10) == n
    ensures Lead(Js.NatToString(n) + x) == Some(x[0])
  {
    Js.NatToStringValue(n);
    Js.DigitRunAppend(Js.NatToString(n), x);
  }

  /** Scanning a rendered group gives its value back, and moves to the text after it. */
  lemma FieldRender(o: Option<nat>, u: char, x: string)
    requires !Js.IsDecimalDigit(u)
    requires Lead(x) != Some(u)
    ensures Field(RenderField(o, u) + x, u) == Scan(o, x)
    ensures Lead(RenderField(o, u) + x) == if o.Some? then Some(u) else Lead(x)
  {
    if o.Some? {
      assert RenderField(o, u) + x == Js.NatToString(o.value) + ([u] + x);
      NumberField(o.value, u, x);
    } else {
      assert RenderField(o, u) + x == x;
    }
  }

  /** A number, its unit and the rest: the number is scanned and the rest is what follows. */
  lemma NumberField(n: nat, u: char, x: string)
    requires !Js.IsDecimalDigit(u)
    ensures var s := Js.NatToString(n) + ([u] + x);
            Field(s, u) == Scan(Some(n), x) && Lead(s) == Some(u)
  {
    var d := Js.NatToString(n);
    NumberThen(n, [u] + x);
    assert (d + ([u] + x))[|d|] == u;
    assert (d + ([u] + x))[|d| + 1..] == x;
  }

  lemma {:induction false} FullRun(f: string)
    requires AllDigits(f)
    ensures Js.DigitRun(f, 10) == |f|
  {
    if |f| > 0 {
      assert AllDigits(f[1..]) by {
        forall i | 0 <= i < |f[1..]| ensures Js.IsDecimalDigit(f[1..][i]) {
          assert f[1..][i] == f[i + 1];
        }
      }
      FullRun(f[1..]);
    }
  }

  /** A digit string and the closing `S` scan back as that fraction. */
  lemma FracRender(f: string)
    requires f != "" && AllDigits(f)
    ensures FracField(f + "S") == Scan(Some(f), "")
  {
    FullRun(f);
    Js.DigitRunAppend(f, "S");
    var u := f + "S";
    assert u[..|f|] == f;
    assert u[|f| + 1..] == "";
  }

  lemma SecondsRenderWhole(w: nat)
    ensures SecondsField(RenderSeconds(Some(Decimal(w, "")))) == Scan(Some(Decimal(w, "")), "")
    ensures Lead(RenderSeconds(Some(Decimal(w, "")))) == Some('S')
  {
    var d := Js.NatToString(w);
    var t := RenderSeconds(Some(Decimal(w, "")));
    assert t == d + "S";
    NumberThen(w, "S");
    assert t[|d|] == 'S';
    assert t[|d| + 1..] == "";
  }

  lemma SecondsRenderFrac(w: nat, f: string)
    requires f != "" && AllDigits(f)
    ensures SecondsField(RenderSeconds(Some(Decimal(w, f)))) == Scan(Some(Decimal(w, f)), "")
    ensures Lead(RenderSeconds(Some(Decimal(w, f)))) == Some('.')
  {
    var d := Js.NatToString(w);
    var t := RenderSeconds(Some(Decimal(w, f)));
    assert t == d + ("." + f + "S");
    NumberThen(w, "." + f + "S");
    PointThenFraction(d, f, t);
    Js.NatToStringValue(w);
  }

  /** Digits, a point and a fraction group: the text after the digits is the fraction group. */
  lemma PointThenFraction(d: string, f: string, t: string)
    requires f != "" && AllDigits(f)
    requires t == d + ("." + f + "S") && Js.DigitRun(t, 10) == |d| && |d| > 0 && t[..|d|] == d
    ensures SecondsField(t) == Scan(Some(Decimal(Js.DigitsValue(d, 10), f)), "")
  {
    assert t[|d|] == '.';
    assert t[|d| + 1..] == f + "S";
    FracRender(f);
    SecondsAtPoint(t, |d|, f);
  }

  /** Digits, a point and a fraction group reaching the end read as one decimal. */
  lemma SecondsAtPoint(t: string, n: nat, f: string)
    requires n == Js.DigitRun(t, 10) && 0 < n < |t| && t[n] == '.'
    requires FracField(t[n + 1..]) == Scan(Some(f), "")
    ensures SecondsField(t) == Scan(Some(Decimal(Js.DigitsValue(t[..n], 10), f)), "")
  {
  }

  lemma SecondsRender(o: Option<Decimal>)
    requires o.Some? ==> AllDigits(o.value.frac)
    ensures SecondsField(RenderSeconds(o)) == Scan(o, "")
    ensures Lead(RenderSeconds(o)) != Some('M') && Lead(RenderSeconds(o)) != Some('H')
  {
    if o.Some? {
      if o.value.frac == "" {
        SecondsRenderWhole(o.value.whole);
      } else {
        SecondsRenderFrac(o.value.whole, o.value.frac);
      }
    }
  }

  /** The time part reads back from its rendering. */
  lemma TimeRender(c: Components)
    requires c.seconds.Some? ==> AllDigits(c.seconds.value.frac)
    ensures TimeFields(RenderTime(c)[1..]) == Some(TimeParts(c.hours, c.minutes, c.seconds))
  {
    var secs := RenderSeconds(c.seconds);
    SecondsRender(c.seconds);
    assert RenderTime(c)[1..] == RenderField(c.hours, 'H') + (RenderField(c.minutes, 'M') + secs);
    HoursMinutesThen(c.hours, c.minutes, c.seconds, secs);
  }

  /** Hours and minutes fields followed by a text that reads as the seconds group and nothing more. */
  lemma HoursMinutesThen(hours: Option<nat>, minutes: Option<nat>, seconds: Option<Decimal>, secs: string)
    requires SecondsField(secs) == Scan(seconds, "")
    requires Lead(secs) != Some('M') && Lead(secs) != Some('H')
    ensures TimeFields(RenderField(hours, 'H') + (RenderField(minutes, 'M') + secs)) ==
            Some(TimeParts(hours, minutes, seconds))
  {
    var tail := RenderField(minutes, 'M') + secs;
    FieldRender(minutes, 'M', secs);
    FieldRender(hours, 'H', tail);
  }

  /** The date part reads back from its rendering and stops at the `T`. */
  lemma DateRender(c: Components, time: string)
    requires |time| > 0 && time[0] == 'T'
    ensures DateFields(RenderField(c.years, 'Y') + (RenderField(c.months, 'M') + (RenderField(c.weeks, 'W')
              + (RenderField(c.days, 'D') + time))))
            == DateParts(c.years, c.months, c.weeks, c.days, time)
  {
    assert Lead(time) == None;
    var d3 := RenderField(c.days, 'D') + time;
    FieldRender(c.days, 'D', time);
    var d2 := RenderField(c.weeks, 'W') + d3;
    FieldRender(c.weeks, 'W', d3);
    var d1 := RenderField(c.months, 'M') + d2;
    FieldRender(c.months, 'M', d2);
    FieldRender(c.years, 'Y', d1);
  }

  /** `MatchDuration` reads back every set of components from its rendering. */
  lemma MatchRender(c: Components)
    requires c.seconds.Some? ==> AllDigits(c.seconds.value.frac)
    ensures MatchDuration(Render(c)) == Some(c)
  {
    var time := RenderTime(c);
    DateRender(c, time);
    TimeRender(c);
    var s := Render(c);
    assert s[1..] == RenderField(c.years, 'Y') + (RenderField(c.months, 'M') + (RenderField(c.weeks, 'W')
              + (RenderField(c.days, 'D') + time)));
  }

  /** Both designators are mandatory: no leading `P`, or no `T` anywhere, is null. */
  lemma DesignatorsRequired(s: string)
    requires |s| == 0 || s[0] != 'P' || 'T' !in s
    ensures DurationSeconds(Some(s)) == None
  {
  }

  /** "PT1M30S" is 90 seconds. */
  lemma MinutesAndSeconds()
    ensures DurationSeconds(Some("PT1M30S")) == Some(90.0)
  {
    var c := Components(None, None, None, None, None, Some(1), Some(Decimal(30, "")));
    RenderNinety();
    NinetySeconds();
    RenderedDuration(c);
  }

  lemma NinetySeconds()
    ensures var c := Components(None, None, None, None, None, Some(1), Some(Decimal(30, "")));
            AllDigits(c.seconds.value.frac) && TotalSeconds(c) == 90.0
  {
    assert Js.DigitsValue("", 10) == 0 && Pow10(0) == 1;
    assert DecimalValue(Decimal(30, "")) == 30.0 + 0.0 / 1.0;
  }

  /** A rendered duration converts to the seconds of its parts. */
  lemma RenderedDuration(c: Components)
    requires c.seconds.Some? ==> AllDigits(c.seconds.value.frac)
    ensures DurationSeconds(Some(Render(c))) == Some(TotalSeconds(c))
  {
    MatchRender(c);
  }

  lemma RenderNinety()
    ensures Render(Components(None, None, None, None, None, Some(1), Some(Decimal(30, "")))) == "PT1M30S"
  {
    var c := Components(None, None, None, None, None, Some(1), Some(Decimal(30, "")));
    assert Js.NatToString(1) == "1";
    assert Js.NatToString(30) == "30" by {
      assert Js.NatToString(3) == "3";
      assert Js.NatToString(0) == "0";
    }
    assert RenderField(Some(1), 'M') == "1M";
    assert RenderSeconds(Some(Decimal(30, ""))) == "30S";
    assert RenderTime(c) == "T" + "" + ("1M" + "30S");
    assert Render(c) == "P" + ("" + ("" + ("" + ("" + "T1M30S"))));
  }

  /** "P1D", a date part with no `T`, is null. */
  lemma DaysNeedTime()
    ensures DurationSeconds(Some("P1D")) == None
  {
    assert "P1D"[2] == 'D';
    DesignatorsRequired("P1D");
  }

  // ---------------------------------------------------------------------------------------
  // filterForShorts
  // ---------------------------------------------------------------------------------------

  /** A fetched video as the filter sees it: `contentDetails?.duration`. */
  datatype VideoItem = VideoItem(id: string, duration: Option<string>)

  /** A video counts as a Short when its duration is present, parses, and is at most 61 seconds. */
  predicate IsShort(item: VideoItem)
  {
    item.duration.Some? && item.duration.value != "" &&
    DurationSeconds(item.duration).Some? && DurationSeconds(item.duration).value <= 61.0
  }

  /** `filterForShorts(videoItems)`. */
  function FilterForShorts(items: seq<VideoItem>): (r: seq<VideoItem>)
    ensures forall i :: 0 <= i < |r| ==> r[i] in items && IsShort(r[i])
    ensures forall i :: 0 <= i < |items| && IsShort(items[i]) ==> items[i] in r
    ensures multiset(r) <= multiset(items)
  {
    Js.Filter(items, IsShort)
  }

  /** The filter keeps the original order: filtering a concatenation filters each part. */
  lemma ShortsKeepOrder(a: seq<VideoItem>, b: seq<VideoItem>)
    ensures FilterForShorts(a + b) == FilterForShorts(a) + FilterForShorts(b)
  {
    Js.FilterAppend(a, b, IsShort);
  }

  // ---------------------------------------------------------------------------------------
  // Tracked channels of one preference row
  // ---------------------------------------------------------------------------------------

  function TrimAll(parts: seq<string>): (r: seq<string>)
    ensures |r| == |parts|
    ensures forall i :: 0 <= i < |r| ==> r[i] == Js.Trim(parts[i])
  {
    seq(|parts|, i requires 0 <= i < |parts| => Js.Trim(parts[i]))
  }

  predicate NonEmpty(s: string)
  {
    s != ""
  }

  /**
   * `filterChannels.split(',').map(id => id.trim()).filter(id => id)`, with the skip of a
   * missing or blank value and of an empty result: `None` means the user is skipped.
   */
  function TrackedChannelIds(filterChannels: Option<string>): (r: Option<seq<string>>)
    ensures r.Some? ==> |r.value| > 0
  {
    if filterChannels.None? || Js.Trim(filterChannels.value) == "" then None
    else
      var ids := Js.Filter(TrimAll(Js.Split(filterChannels.value, ',')), NonEmpty);
      if |ids| == 0 then None else Some(ids)
  }

  /**
   * Every tracked id is a non-empty, comma-free, already trimmed piece of the list, and every
   * non-blank piece is tracked.
   */
  lemma TrackedIdsArePieces(fc: string)
    requires TrackedChannelIds(Some(fc)).Some?
    ensures var ids := TrackedChannelIds(Some(fc)).value;
            (forall i :: 0 <= i < |ids| ==> ids[i] != "" && ',' !in ids[i] && Js.Trim(ids[i]) == ids[i]) &&
            (forall p :: p in Js.Split(fc, ',') && Js.Trim(p) != "" ==> Js.Trim(p) in ids)
  {
    TrimmedPieces(Js.Split(fc, ','));
  }

  /** The non-empty trimmed pieces of comma-free pieces are trimmed and comma-free, and all there. */
  lemma TrimmedPieces(pieces: seq<string>)
    requires forall k :: 0 <= k < |pieces| ==> ',' !in pieces[k]
    ensures var ids := Js.Filter(TrimAll(pieces), NonEmpty);
            (forall i :: 0 <= i < |ids| ==> ids[i] != "" && ',' !in ids[i] && Js.Trim(ids[i]) == ids[i]) &&
            (forall p :: p in pieces && Js.Trim(p) != "" ==> Js.Trim(p) in ids)
  {
    var trimmed := TrimAll(pieces);
    var ids := Js.Filter(trimmed, NonEmpty);
    forall i | 0 <= i < |ids| ensures ids[i] != "" && ',' !in ids[i] && Js.Trim(ids[i]) == ids[i] {
      var k :| 0 <= k < |trimmed| && trimmed[k] == ids[i];
      Js.TrimIdempotent(pieces[k]);
      TrimSubset(pieces[k], ',');
    }
    forall p | p in pieces && Js.Trim(p) != "" ensures Js.Trim(p) in ids {
      var k :| 0 <= k < |pieces| && pieces[k] == p;
      assert NonEmpty(trimmed[k]);
    }
  }

  /** Trimming never introduces a character. */
  lemma TrimSubset(s: string, c: char)
    requires c !in s
    ensures c !in Js.Trim(s)
  {
    var i, j :| 0 <= i <= j <= |s| && Js.Trim(s) == s[i..j] && Js.AllSpace(s[..i]) && Js.AllSpace(s[j..]);
    forall k | 0 <= k < j - i ensures s[i..j][k] != c {
      assert s[i..j][k] == s[i + k];
    }
  }

  // ---------------------------------------------------------------------------------------
  // The alert conditions of one Short
  // ---------------------------------------------------------------------------------------

  /**
   * The preference row fields the condition block reads. Numbers are `None` when null,
   * undefined or NaN.
   */
  datatype Prefs = Prefs(
    thresholdViews: Option<int>, thresholdLikes: Option<int>, thresholdComments: Option<int>,
    viewsWindowHours: Option<int>, likesWindowHours: Option<int>, commentsWindowHours: Option<int>,
    thresholdVelocity: Option<int>,
    relativePercent: Option<int>, relativeMetric: Option<string>,
    emailVerified: bool, notificationEmail: Option<string>,
    telegramVerified: bool, notificationTelegramId: Option<string>,
    discordVerified: bool, notificationDiscordWebhook: Option<string>)

  /** The statistics strings of the Short and its publish time (`None` when absent or not a date). */
  datatype ShortStats = ShortStats(
    viewCount: Option<string>, likeCount: Option<string>, commentCount: Option<string>,
    publishedAt: Option<int>)

  /** JavaScript truthiness of a number and of a string. */
  predicate Truthy(n: Option<int>)
  {
    n.Some? && n.value != 0
  }

  predicate TruthyStr(s: Option<string>)
  {
    s.Some? && s.value != ""
  }

  /** `parseInt(count || '0', 10)`: missing and empty read as 0, a non-number is NaN. */
  function Count(s: Option<string>): (r: Option<int>)
    ensures s.None? || s.value == "" ==> r == Some(0)
  {
    if s.None? || s.value == "" then
      Js.ParseIntOfIntToString(0);
      assert Js.IntToString(0) == "0";
      Js.ParseInt10("0")
    else Js.ParseInt10(s.value)
  }

  /** `(now - new Date(publishedAt)) / 3600000`: NaN when the date is missing or invalid. */
  function HoursSince(publishedAt: Option<int>, now: int): Option<real>
  {
    if publishedAt.Some? then Some((now - publishedAt.value) as real / 3600000.0) else None
  }

  /** `value >= threshold`, false when the value is NaN. */
  predicate AtLeast(value: Option<int>, threshold: int)
  {
    value.Some? && value.value >= threshold
  }

  /** `hoursSincePublished > window`, false when the age is NaN. */
  predicate Older(age: Option<real>, window: int)
  {
    age.Some? && age.value > window as real
  }

  /** A count criterion: met when unset or reached, and not met once a set window is exceeded. */
  predicate MetricMet(threshold: Option<int>, window: Option<int>, value: Option<int>, age: Option<real>)
  {
    (!Truthy(threshold) || AtLeast(value, threshold.value)) && !(Truthy(window) && Older(age, window.value))
  }

  /** The velocity placeholder: met at age 0 h or less, checked as views per hour below 72 h, not met from 72 h. */
  predicate VelocityMet(velocity: Option<int>, views: Option<int>, age: Option<real>)
  {
    !Truthy(velocity) ||
    (age.Some? &&
     (age.value <= 0.0 ||
      (age.value < 72.0 && !(views.Some? && views.value as real / age.value < velocity.value as real))))
  }

  /** Both relative-performance fields set. */
  predicate RelativeSet(p: Prefs)
  {
    Truthy(p.relativePercent) && TruthyStr(p.relativeMetric)
  }

  /** All criteria at once, each computed independently of the others. */
  predicate ConditionsMet(p: Prefs, s: ShortStats, now: int)
  {
    var age := HoursSince(s.publishedAt, now);
    MetricMet(p.thresholdViews, p.viewsWindowHours, Count(s.viewCount), age) &&
    MetricMet(p.thresholdLikes, p.likesWindowHours, Count(s.likeCount), age) &&
    MetricMet(p.thresholdComments, p.commentsWindowHours, Count(s.commentCount), age) &&
    VelocityMet(p.thresholdVelocity, Count(s.viewCount), age) &&
    !RelativeSet(p)
  }

  /** One count criterion of the block: the plain threshold test, then the window override. */
  method MetricFlag(threshold: Option<int>, window: Option<int>, value: Option<int>, age: Option<real>)
    returns (met: bool)
    ensures met == MetricMet(threshold, window, value, age)
  {
    met := !Truthy(threshold) || AtLeast(value, threshold.value);
    if Truthy(window) && Older(age, window.value) {
      met := false;
    }
  }

  /** The velocity placeholder block. */
  method VelocityFlag(velocity: Option<int>, views: Option<int>, hoursSincePublished: Option<real>)
    returns (velocityMet: bool)
    ensures velocityMet == VelocityMet(velocity, views, hoursSincePublished)
  {
    velocityMet := true;
    if Truthy(velocity) {
      if hoursSincePublished.Some? && hoursSincePublished.value > 0.0 && hoursSincePublished.value < 72.0 {
        if views.Some? && views.value as real / hoursSincePublished.value < velocity.value as real {
          velocityMet := false;
        }
      } else if hoursSincePublished.Some? && hoursSincePublished.value <= 0.0 {
        velocityMet := true;
      } else {
        velocityMet := false;
      }
    }
  }

  /** The condition block: every flag is computed, then all of them are combined with `&&`. */
  method EvaluateShort(p: Prefs, s: ShortStats, now: int) returns (conditionsMet: bool)
    ensures conditionsMet == ConditionsMet(p, s, now)
  {
    var views := Count(s.viewCount);
    var hoursSincePublished := HoursSince(s.publishedAt, now);
    var viewsMet := MetricFlag(p.thresholdViews, p.viewsWindowHours, views, hoursSincePublished);
    var likesMet := MetricFlag(p.thresholdLikes, p.likesWindowHours, Count(s.likeCount), hoursSincePublished);
    var commentsMet := MetricFlag(p.thresholdComments, p.commentsWindowHours, Count(s.commentCount), hoursSincePublished);
    var velocityMet := VelocityFlag(p.thresholdVelocity, views, hoursSincePublished);
    var relativePerformanceMet := true;
    if Truthy(p.relativePercent) && TruthyStr(p.relativeMetric) {
      relativePerformanceMet := false;
    }
    conditionsMet := viewsMet && likesMet && commentsMet && velocityMet && relativePerformanceMet;
  }

  /** With both relative-performance fields set no Short ever meets the conditions. */
  lemma RelativeBlocksAlerts(p: Prefs, s: ShortStats, now: int)
    requires RelativeSet(p)
    ensures !ConditionsMet(p, s, now)
  {
  }

  /** An unset or zero threshold is met, and a set window the age exceeds forces not-met. */
  lemma MetricRules(t: Option<int>, w: Option<int>, v: Option<int>, age: Option<real>)
    ensures !Truthy(t) && !Truthy(w) ==> MetricMet(t, w, v, age)
    ensures Truthy(w) && Older(age, w.value) ==> !MetricMet(t, w, v, age)
    ensures Truthy(t) && !AtLeast(v, t.value) ==> !MetricMet(t, w, v, age)
  {
  }

  /** The three age bands of the velocity check. */
  lemma VelocityBands(vel: int, views: int, age: real)
    requires vel != 0
    ensures age <= 0.0 ==> VelocityMet(Some(vel), Some(views), Some(age))
    ensures 0.0 < age < 72.0 ==>
              (VelocityMet(Some(vel), Some(views), Some(age)) <==> views as real / age >= vel as real)
    ensures age >= 72.0 ==> !VelocityMet(Some(vel), Some(views), Some(age))
    ensures !VelocityMet(Some(vel), Some(views), None)
  {
  }

  // ---------------------------------------------------------------------------------------
  // The saved alert
  // ---------------------------------------------------------------------------------------

  /** The fields of the record passed to `saveTriggeredAlert`, leaving out the timestamp. */
  datatype AlertRecord = AlertRecord(
    videoId: string, notificationChannel: string, status: string,
    views: Option<int>, likes: Option<int>, comments: Option<int>)

  /** The channels both verified and configured, in the order email, telegram, discord. */
  function NotificationChannels(p: Prefs): (r: seq<string>)
    ensures |r| <= 3
    ensures "email" in r <==> p.emailVerified && TruthyStr(p.notificationEmail)
    ensures "telegram" in r <==> p.telegramVerified && TruthyStr(p.notificationTelegramId)
    ensures "discord" in r <==> p.discordVerified && TruthyStr(p.notificationDiscordWebhook)
    ensures forall i, j :: 0 <= i < j < |r| ==> r[i] != r[j]
  {
    (if p.emailVerified && TruthyStr(p.notificationEmail) then ["email"] else [])
    + (if p.telegramVerified && TruthyStr(p.notificationTelegramId) then ["telegram"] else [])
    + (if p.discordVerified && TruthyStr(p.notificationDiscordWebhook) then ["discord"] else [])
  }

  /** The alert saved for a Short that met the conditions, or `None` when it did not. */
  function ShortAlert(p: Prefs, videoId: string, s: ShortStats, now: int): Option<AlertRecord>
  {
    if !ConditionsMet(p, s, now) then None
    else
      var channels := NotificationChannels(p);
      var joined := Js.Join(channels, ", ");
      Some(AlertRecord(videoId, if joined == "" then "none" else joined,
                       if |channels| > 0 then "sent_attempted" else "no_channel",
                       Count(s.viewCount), Count(s.likeCount), Count(s.commentCount)))
  }

  /** An alert is saved exactly when the conditions hold. */
  lemma AlertIffConditions(p: Prefs, videoId: string, s: ShortStats, now: int)
    ensures ShortAlert(p, videoId, s, now).Some? <==> ConditionsMet(p, s, now)
  {
  }

  /**
   * The saved status is 'sent_attempted' exactly when some channel is verified and set up,
   * and then the channel column names them; otherwise it is 'no_channel' with channel 'none'.
   */
  lemma AlertStatus(p: Prefs, videoId: string, s: ShortStats, now: int)
    requires ShortAlert(p, videoId, s, now).Some?
    ensures var a := ShortAlert(p, videoId, s, now).value;
            var any := (p.emailVerified && TruthyStr(p.notificationEmail)) ||
                       (p.telegramVerified && TruthyStr(p.notificationTelegramId)) ||
                       (p.discordVerified && TruthyStr(p.notificationDiscordWebhook));
            (a.status == "sent_attempted" <==> any) &&
            (a.status == "no_channel" <==> !any) &&
            (a.notificationChannel == "none" <==> !any)
  {
    var channels := NotificationChannels(p);
    if |channels| > 0 {
      assert channels[0] in channels;
      JoinNonEmpty(channels, ", ");
    }
  }

  lemma JoinNonEmpty(parts: seq<string>, sep: string)
    requires |parts| > 0 && parts[0] != ""
    ensures Js.Join(parts, sep) != ""
    ensures Js.Join(parts, sep)[..|parts[0]|] == parts[0]
  {
  }
}
