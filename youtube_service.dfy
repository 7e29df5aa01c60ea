/**
 * The deterministic parts of the YouTube service: the lenient duration parser and the
 * `is_short` rule, the classification of YouTube API errors, and from the channel aggregation
 * its de-duplication, cache, time-frame cut-off, batching, per-video accumulation and playlist
 * paging. Every YouTube, Supabase and key-manager call is an input.
 */
module YoutubeService {
  import opened Wrappers
  import Js
  import Polling

  // ---------------------------------------------------------------------------------------
  // parseISO8601Duration and is_short
  // ---------------------------------------------------------------------------------------

  /** "PT" occurs in `s` at position `j`. */
  predicate PTAt(s: string, j: nat)
  {
    j + 1 < |s| && s[j] == 'P' && s[j + 1] == 'T'
  }

  /** The position of the first "PT" in `s`: where an unanchored match of the pattern starts. */
  function FindPT(s: string): (r: Option<nat>)
    ensures r.Some? ==> r.value + 2 <= |s| && PTAt(s, r.value)
    ensures r.Some? ==> forall j: nat :: j < r.value ==> !PTAt(s, j)
    ensures r.None? ==> forall j: nat :: !PTAt(s, j)
  {
    if |s| < 2 then None
    else if s[0] == 'P' && s[1] == 'T' then Some(0)
    else
      var r := FindPT(s[1..]);
      assert forall j: nat :: 0 < j ==> (PTAt(s, j) <==> PTAt(s[1..], j - 1));
      match r
      case None => None
      case Some(k) => Some(k + 1)
  }

  /** The number of leading 'd' characters. */
  function DRun(t: string): (n: nat)
    ensures n <= |t|
  {
    if |t| > 0 && t[0] == 'd' then 1 + DRun(t[1..]) else 0
  }

  /**
   * One group `(?:(\\d+)U)?` of the pattern as written: in a JavaScript regular expression
   * literal `\\d+` is a backslash followed by one or more letters 'd', so the captured text
   * always starts with a backslash.
   */
  function EscapedGroup(t: string, u: char): (r: Polling.Scan<string>)
    ensures r.value.Some? ==> |r.value.value| > 0 && r.value.value[0] == '\\'
  {
    if |t| > 0 && t[0] == '\\' then
      var k := DRun(t[1..]);
      if k > 0 && 1 + k < |t| && t[1 + k] == u then Polling.Scan(Some(t[..1 + k]), t[2 + k..])
      else Polling.Scan(None, t)
    else Polling.Scan(None, t)
  }

  /** `parseInt(matches[i]) || 0`, `undefined` being NaN. */
  function GroupValue(g: Option<string>): int
  {
    Js.OrDefault(if g.Some? then Js.ParseInt(g.value) else None, 0)
  }

  /** `parseISO8601Duration` exactly as written, with `/PT(?:(\\d+)H)?(?:(\\d+)M)?(?:(\\d+)S)?/`. */
  function DurationAsWritten(d: Option<string>): Option<int>
  {
    if d.None? || d.value == "" then None
    else
      match FindPT(d.value)
      case None => None
      case Some(i) => Some(EscapedSeconds(d.value[i + 2..]))
  }

  /** The three escaped groups after the "PT", read as hours, minutes and seconds. */
  function EscapedSeconds(t: string): int
  {
    var h := EscapedGroup(t, 'H');
    var m := EscapedGroup(h.rest, 'M');
    var s := EscapedGroup(m.rest, 'S');
    GroupValue(h.value) * 3600 + GroupValue(m.value) * 60 + GroupValue(s.value)
  }

  /** A string that starts with a backslash is NaN to `parseInt`. */
  lemma BackslashIsNaN(g: string)
    requires |g| > 0 && g[0] == '\\'
    ensures Js.ParseInt(g) == None
  {
    Js.NoLeadingSpace(g);
    assert Js.DigitRun(g, 10) == 0;
  }

  lemma GroupIsZero(g: Polling.Scan<string>)
    requires g.value.Some? ==> |g.value.value| > 0 && g.value.value[0] == '\\'
    ensures GroupValue(g.value) == 0
  {
    if g.value.Some? {
      BackslashIsNaN(g.value.value);
    }
  }

  /**
   * As written the parser is null without a "PT" and 0 with one: no capture group can ever
   * hold a number.
   */
  lemma DurationAsWrittenIsZero(s: string)
    ensures DurationAsWritten(Some(s)) == if s != "" && FindPT(s).Some? then Some(0) else None
  {
    if s != "" {
      match FindPT(s)
      case None => AsWrittenWithoutPT(s);
      case Some(i) =>
        AsWrittenAt(s, i);
        EscapedIsZero(s[i + 2..]);
    }
  }

  lemma AsWrittenAt(s: string, i: nat)
    requires s != "" && FindPT(s) == Some(i)
    ensures DurationAsWritten(Some(s)) == Some(EscapedSeconds(s[i + 2..]))
  {
  }

  lemma AsWrittenWithoutPT(s: string)
    requires FindPT(s).None?
    ensures DurationAsWritten(Some(s)) == None
  {
  }

  lemma EscapedIsZero(t: string)
    ensures EscapedSeconds(t) == 0
  {
    var h := EscapedGroup(t, 'H');
    var m := EscapedGroup(h.rest, 'M');
    var s := EscapedGroup(m.rest, 'S');
    GroupIsZero(h);
    GroupIsZero(m);
    GroupIsZero(s);
  }

  /** The three optional groups `(?:(\d+)H)?(?:(\d+)M)?(?:(\d+)S)?` after the "PT". */
  function HmsFields(t: string): (Option<nat>, Option<nat>, Option<nat>)
  {
    var h := Polling.Field(t, 'H');
    var m := Polling.Field(h.rest, 'M');
    var s := Polling.Field(m.rest, 'S');
    (h.value, m.value, s.value)
  }

  /** `hours * 3600 + minutes * 60 + seconds`, a missing group counting 0. */
  function HmsSeconds(f: (Option<nat>, Option<nat>, Option<nat>)): nat
  {
    Polling.Part(f.0) * 3600 + Polling.Part(f.1) * 60 + Polling.Part(f.2)
  }

  /** The parser with the evidently intended `\d+` groups. */
  function Duration(d: Option<string>): Option<nat>
  {
    if d.None? || d.value == "" then None
    else
      match FindPT(d.value)
      case None => None
      case Some(i) => Some(Seconds(d.value[i + 2..]))
  }

  /** The seconds the text after "PT" stands for. */
  function Seconds(t: string): nat
  {
    HmsSeconds(HmsFields(t))
  }

  /** The rendering `PT[hH][mM][sS]` of hours, minutes and seconds. */
  function RenderHms(h: Option<nat>, m: Option<nat>, s: Option<nat>): string
  {
    "PT" + (Polling.RenderField(h, 'H') + (Polling.RenderField(m, 'M') + (Polling.RenderField(s, 'S') + "")))
  }

  lemma HmsRender(h: Option<nat>, m: Option<nat>, s: Option<nat>)
    ensures HmsFields(Polling.RenderField(h, 'H') + (Polling.RenderField(m, 'M') + (Polling.RenderField(s, 'S') + "")))
            == (h, m, s)
  {
    var sx := Polling.RenderField(s, 'S') + "";
    var mx := Polling.RenderField(m, 'M') + sx;
    Polling.FieldRender(s, 'S', "");
    Polling.FieldRender(m, 'M', sx);
    Polling.FieldRender(h, 'H', mx);
  }

  /** The corrected parser reads `3600 h + 60 m + s` back from every rendering. */
  lemma DurationRoundTrip(h: Option<nat>, m: Option<nat>, s: Option<nat>)
    ensures Duration(Some(RenderHms(h, m, s))) == Some(HmsSeconds((h, m, s)))
  {
    var t := Polling.RenderField(h, 'H') + (Polling.RenderField(m, 'M') + (Polling.RenderField(s, 'S') + ""));
    assert Duration(Some(RenderHms(h, m, s))) == Some(Seconds(t)) by {
      assert RenderHms(h, m, s)[2..] == t;
      DurationOfPT(RenderHms(h, m, s));
    }
    assert HmsFields(t) == (h, m, s) by {
      HmsRender(h, m, s);
    }
  }

  /** A string that starts with "PT" is read from its third character on. */
  lemma DurationOfPT(s: string)
    requires |s| >= 2 && s[0] == 'P' && s[1] == 'T'
    ensures Duration(Some(s)) == Some(Seconds(s[2..]))
  {
    assert FindPT(s) == Some(0);
  }

  lemma RenderExample()
    ensures RenderHms(None, Some(1), Some(30)) == "PT1M30S"
  {
    assert Js.NatToString(1) == "1";
    assert Js.NatToString(30) == "30" by {
      assert Js.NatToString(3) == "3";
      assert Js.NatToString(0) == "0";
    }
  }

  /** "PT1M30S": 90 seconds evidently intended, 0 as written. */
  lemma DurationCounterexample()
    ensures DurationAsWritten(Some("PT1M30S")) == Some(0)
    ensures Duration(Some("PT1M30S")) == Some(90)
  {
    assert DurationAsWritten(Some("PT1M30S")) == Some(0) by {
      DurationAsWrittenIsZero("PT1M30S");
      assert FindPT("PT1M30S") == Some(0);
    }
    assert Duration(Some("PT1M30S")) == Some(90) by {
      RenderExample();
      DurationRoundTrip(None, Some(1), Some(30));
    }
  }

  /** `liveBroadcastContent === 'none' && (duration || 61) <= 60`, with the parser as a parameter value. */
  predicate ShortRule(liveBroadcastContent: Option<string>, parsed: Option<int>)
  {
    liveBroadcastContent == Some("none") && (if parsed.Some? && parsed.value != 0 then parsed.value else 61) <= 60
  }

  /** The `is_short` column as written: since the parser is 0 or null, no video is ever a Short. */
  lemma NoShortAsWritten(live: Option<string>, duration: Option<string>)
    ensures !ShortRule(live, DurationAsWritten(duration))
  {
    if duration.Some? {
      DurationAsWrittenIsZero(duration.value);
    }
  }

  /** With the corrected parser a video is a Short iff it is not live and lasts 1 to 60 seconds. */
  lemma ShortRuleCorrected(live: Option<string>, duration: Option<string>)
    ensures var d := Duration(duration);
            ShortRule(live, if d.Some? then Some(d.value as int) else None) <==>
            live == Some("none") && d.Some? && 0 < d.value <= 60
  {
  }

  // ---------------------------------------------------------------------------------------
  // YouTube API errors
  // ---------------------------------------------------------------------------------------

  /**
   * A failed googleapis call: `response.status`, `response.data.error.message`, the reasons of
   * `response.data.error.errors` (`None` when there is no such list), and `error.message`.
   */
  datatype ApiFailure = ApiFailure(status: Option<int>, apiMessage: Option<string>,
                                   reasons: Option<seq<Option<string>>>, message: string)

  /** The error thrown to the caller. */
  datatype ServiceError = ServiceError(message: string, statusCode: int)

  /** What `_handleYoutubeApiError` does: the error it throws and the key it reports, if any. */
  datatype Handled = Handled(thrown: ServiceError, reported: Option<string>)

  /** `error.response?.status || 500`. */
  function StatusOf(e: ApiFailure): int
  {
    if e.status.Some? && e.status.value != 0 then e.status.value else 500
  }

  /** The first reason, when the error list is non-empty. */
  function FirstReason(e: ApiFailure): Option<Option<string>>
  {
    if e.reasons.Some? && |e.reasons.value| > 0 then Some(e.reasons.value[0]) else None
  }

  /** A reason that blames the key: invalid, disabled, not configured, or out of quota. */
  predicate KeyReason(reason: Option<string>)
  {
    reason == Some("keyInvalid") || (reason.Some? && Js.Contains(reason.value, "disabled"))
    || reason == Some("accessNotConfigured") || reason == Some("quotaExceeded")
    || reason == Some("dailyLimitExceeded")
  }

  /** Whether the error blames the key: by its first reason, or without reasons by status 403 or 429. */
  predicate BlamesKey(e: ApiFailure)
  {
    match FirstReason(e)
    case Some(reason) => KeyReason(reason)
    case None => StatusOf(e) == 403 || StatusOf(e) == 429
  }

  predicate Truthy(s: Option<string>)
  {
    s.Some? && s.value != ""
  }

  /** `_handleYoutubeApiError(error, apiKeyToReport, context)`: it always throws. */
  function HandleYoutubeApiError(e: ApiFailure, key: Option<string>, context: string): (r: Handled)
    ensures r.reported.Some? <==> BlamesKey(e) && Truthy(key)
    ensures r.reported.Some? ==> r.reported == key
    ensures r.thrown.statusCode == StatusOf(e)
    ensures e.status.None? ==> r.thrown.statusCode == 500
  {
    var message := if Truthy(e.apiMessage) then e.apiMessage.value
                   else "YouTube API Error in " + context + ": " + e.message;
    Handled(ServiceError(message, StatusOf(e)), if BlamesKey(e) && Truthy(key) then key else None)
  }

  /** The key is reported exactly for the four key reasons and 'disabled', or, without reasons, 403 and 429. */
  lemma ClassificationTable(e: ApiFailure, key: string, context: string)
    requires key != ""
    ensures FirstReason(e).Some? ==>
              (HandleYoutubeApiError(e, Some(key), context).reported.Some? <==> KeyReason(FirstReason(e).value))
    ensures FirstReason(e).None? ==>
              (HandleYoutubeApiError(e, Some(key), context).reported.Some? <==> StatusOf(e) in {403, 429})
    ensures HandleYoutubeApiError(e, None, context).reported.None?
  {
  }

  /** The message and reported key of the video-statistics error branch of the aggregation. */
  function VideoStatsError(e: ApiFailure, key: Option<string>): (r: (string, Option<string>))
  {
    var raw := if e.status.Some? then e.status.value else 0;
    var br :=
      match FirstReason(e)
      case Some(reason) =>
        if reason == Some("playlistNotFound") then ("Uploads playlist not found or inaccessible.", false)
        else if KeyReason(reason) then ("Video stats API error (" + reason.value + ")", true)
        else ("Video stats API error (" + (if Truthy(reason) then reason.value else "unknown reason") + ")", false)
      case None =>
        if raw == 403 || raw == 429 then ("Video stats API error (status " + Js.IntToString(raw) + ")", true)
        else ("Video stats API error", false);
    if br.1 && Truthy(key) then (br.0 + ", API key reported.", key) else (br.0, None)
  }

  /** 'playlistNotFound' is not a key reason: in particular it does not contain 'disabled'. */
  lemma PlaylistNotFoundIsNoKeyReason()
    ensures !KeyReason(Some("playlistNotFound"))
  {
    var s := "playlistNotFound";
    forall i | 0 <= i <= |s| ensures !Js.StartsWith(s[i..], "disabled") {
      if i <= |s| - 8 {
        assert s[i..][0] == s[i] != 'd';
      }
    }
  }

  /** The two error tables agree on when a key is reported. */
  lemma ErrorTablesAgree(e: ApiFailure, key: Option<string>, context: string)
    ensures VideoStatsError(e, key).1 == HandleYoutubeApiError(e, key, context).reported
  {
    PlaylistNotFoundIsNoKeyReason();
  }

  const ChannelDataStaleDays: int := 7

  /**
   * `pfpIsFresh`: the stored channel has a thumbnail and a valid last-fetch time at most seven
   * days old. `lastFetchedAt` is `None` when absent or not a date.
   */
  predicate PfpIsFresh(hasThumbnail: bool, lastFetchedAt: Option<int>, now: int)
  {
    hasThumbnail && lastFetchedAt.Some?
    && (now - lastFetchedAt.value) as real / (DayMs as real) <= ChannelDataStaleDays as real
  }

  /** `forceRefresh || !pfpIsFresh || !supabaseChannel`: whether `channels.list` is called. */
  predicate CallsChannelsList(forceRefresh: bool, inSupabase: bool, pfpIsFresh: bool)
  {
    forceRefresh || !pfpIsFresh || !inSupabase
  }

  /**
   * A stored channel fetched within the last seven days is not asked of the API unless refresh
   * is forced; one fetched more than seven days ago always is.
   */
  lemma FreshChannelsSkipApi(hasThumbnail: bool, lastFetchedAt: int, now: int, forceRefresh: bool)
    ensures hasThumbnail && now - lastFetchedAt <= 7 * DayMs ==>
              (CallsChannelsList(forceRefresh, true, PfpIsFresh(hasThumbnail, Some(lastFetchedAt), now)) <==> forceRefresh)
    ensures now - lastFetchedAt > 7 * DayMs ==>
              CallsChannelsList(forceRefresh, true, PfpIsFresh(hasThumbnail, Some(lastFetchedAt), now))
  {
    var x := (now - lastFetchedAt) as real / (DayMs as real);
    assert x * DayMs as real == (now - lastFetchedAt) as real;
  }

  /** What a `channels.list` call came back with. */
  datatype ChannelsList = Listed | NotListed | ListFailed(failure: ApiFailure)

  /** The per-channel outcome of the `channels.list` step: abort with an error, or go on. */
  datatype ChannelStep = Abort(thrown: ServiceError, reported: Option<string>) | Proceed(source: string, error: Option<string>)

  /** Lines 323-343: the failure branch calls `_handleYoutubeApiError`, which throws past the loop. */
  function ChannelsListStep(outcome: ChannelsList, inSupabase: bool, key: string, id: string): ChannelStep
  {
    match outcome
    case Listed => Proceed("YouTube API", None)
    case NotListed => Proceed(if inSupabase then "Supabase (API miss)" else "Not Found", Some("Not found via API"))
    case ListFailed(f) =>
      var h := HandleYoutubeApiError(f, Some(key), "channels.list for " + id);
      Abort(h.thrown, h.reported)
  }

  /** A failed `channels.list` aborts the aggregation; no channel ever gets the 'API error' result. */
  lemma ChannelsListFailureAborts(outcome: ChannelsList, inSupabase: bool, key: string, id: string)
    ensures outcome.ListFailed? <==> ChannelsListStep(outcome, inSupabase, key, id).Abort?
    ensures ChannelsListStep(outcome, inSupabase, key, id).Proceed? ==>
              ChannelsListStep(outcome, inSupabase, key, id).error != Some("API error")
  {
  }

  // ---------------------------------------------------------------------------------------
  // De-duplication and the cache
  // ---------------------------------------------------------------------------------------

  /** `[...new Set(ids)]`: each id once, at its first occurrence. */
  function Dedup(s: seq<string>): (r: seq<string>)
    ensures forall x :: x in r <==> x in s
    ensures forall i, j :: 0 <= i < j < |r| ==> r[i] != r[j]
    ensures |r| <= |s|
  {
    if |s| == 0 then []
    else
      var r := Dedup(s[..|s| - 1]);
      assert forall x :: x in s <==> x in s[..|s| - 1] || x == s[|s| - 1] by {
        assert s == s[..|s| - 1] + [s[|s| - 1]];
      }
      if s[|s| - 1] in s[..|s| - 1] then r else r + [s[|s| - 1]]
  }

  /** A list without repetitions is its own de-duplication. */
  lemma {:induction false} DedupDistinct(s: seq<string>)
    requires forall i, j :: 0 <= i < j < |s| ==> s[i] != s[j]
    ensures Dedup(s) == s
  {
    if |s| > 0 {
      DedupDistinct(s[..|s| - 1]);
      assert s == s[..|s| - 1] + [s[|s| - 1]];
    }
  }

  /** First-occurrence order: de-duplicating a prefix gives a prefix of the de-duplication. */
  lemma {:induction false} DedupPrefix(s: seq<string>, k: nat)
    requires k <= |s|
    ensures Dedup(s[..k]) <= Dedup(s)
    decreases |s| - k
  {
    if k < |s| {
      DedupPrefix(s, k + 1);
      assert s[..k + 1][..k] == s[..k];
      assert Dedup(s[..k]) <= Dedup(s[..k + 1]);
    } else {
      assert s[..k] == s;
    }
  }

  /** `${uniqueChannelIds.join(',')}_${timeFrame}`. */
  function CacheKey(ids: seq<string>, timeFrame: string): string
  {
    Js.Join(Dedup(ids), ",") + "_" + timeFrame
  }

  /** Repeating an id that is already in the list does not change the cache key. */
  lemma CacheKeyIgnoresRepeats(ids: seq<string>, x: string, timeFrame: string)
    requires x in ids
    ensures CacheKey(ids + [x], timeFrame) == CacheKey(ids, timeFrame)
  {
    assert (ids + [x])[..|ids + [x]| - 1] == ids;
  }

  const CacheDurationMs: int := 3600000

  /** The per-channel result of the aggregation, without display rounding. */
  datatype ChannelSummary = ChannelSummary(
    id: string, name: string, source: string, error: Option<string>,
    totalViews: int, avgViews: int, videosPublished: nat, totalLikes: int, totalComments: int,
    timeFrameUsed: string)

  datatype CacheEntry = CacheEntry(timestamp: int, data: seq<ChannelSummary>)

  /** The cached result for `key`, when refresh is not forced and the entry is younger than an hour. */
  function Cached(entries: map<string, CacheEntry>, key: string, now: int, forceRefresh: bool): Option<seq<ChannelSummary>>
  {
    if !forceRefresh && key in entries && now - entries[key].timestamp < CacheDurationMs
    then Some(entries[key].data) else None
  }

  /** The module-level `channelDataCache` `Map`. */
  class ChannelDataCache {
    var entries: map<string, CacheEntry>

    constructor()
      ensures entries == map[]
    {
      entries := map[];
    }

    /** The lookup at the head of `getAggregatedChannelData`. */
    method Get(key: string, now: int, forceRefresh: bool) returns (r: Option<seq<ChannelSummary>>)
      ensures r == Cached(entries, key, now, forceRefresh)
    {
      if !forceRefresh && key in entries {
        var entry := entries[key];
        if now - entry.timestamp < CacheDurationMs {
          return Some(entry.data);
        }
      }
      return None;
    }

    /** `channelDataCache.set(cacheKey, { timestamp: Date.now(), data: results })`. */
    method Set(key: string, now: int, data: seq<ChannelSummary>)
      modifies this
      ensures entries == old(entries)[key := CacheEntry(now, data)]
    {
      entries := entries[key := CacheEntry(now, data)];
    }
  }

  /**
   * A stored result is served for the next hour unless refresh is forced, and never after;
   * storing one key leaves every other key's answer as it was.
   */
  lemma CacheTtl(entries: map<string, CacheEntry>, key: string, t: int, data: seq<ChannelSummary>,
                 now: int, force: bool, other: string)
    requires other != key
    ensures Cached(entries[key := CacheEntry(t, data)], key, now, force) ==
            if !force && now - t < CacheDurationMs then Some(data) else None
    ensures Cached(entries[key := CacheEntry(t, data)], other, now, force) == Cached(entries, other, now, force)
    ensures Cached(entries, key, now, true) == None
  {
  }

  // ---------------------------------------------------------------------------------------
  // Time frame, averages, batches
  // ---------------------------------------------------------------------------------------

  const HourMs: int := 3600000
  const DayMs: int := 86400000

  /** The `switch (timeFrame)`: the publish-date cut-off, `None` for all time. */
  function PublishedAfter(timeFrame: string, now: int): (r: Option<int>)
    ensures timeFrame == "last_24_hours" ==> r == Some(now - 24 * HourMs)
    ensures timeFrame == "last_7_days" ==> r == Some(now - 7 * DayMs)
    ensures timeFrame == "all_time" ==> r == None
    ensures timeFrame !in {"last_24_hours", "last_7_days", "all_time"} ==> r == Some(now - 30 * DayMs)
  {
    match timeFrame
    case "last_24_hours" => Some(now - 24 * 60 * 60 * 1000)
    case "last_7_days" => Some(now - 7 * 24 * 60 * 60 * 1000)
    case "all_time" => None
    case _ => Some(now - 30 * 24 * 60 * 60 * 1000)
  }

  /** `Math.round(total / n)` for `n > 0`, and 0 without videos. */
  function RoundedAverage(total: int, n: nat): (avg: int)
    ensures n == 0 ==> avg == 0
    ensures n > 0 ==> 2 * n * avg <= 2 * total + n < 2 * n * avg + 2 * n
  {
    if n == 0 then 0 else (2 * total + n) / (2 * n)
  }

  /** Consecutive slices of at most `n` elements, in order. */
  function Chunks<T>(s: seq<T>, n: nat): (r: seq<seq<T>>)
    requires n > 0
    ensures forall i :: 0 <= i < |r| ==> 0 < |r[i]| <= n
    ensures forall i :: 0 <= i < |r| - 1 ==> |r[i]| == n
    decreases |s|
  {
    if |s| == 0 then [] else if |s| <= n then [s] else [s[..n]] + Chunks(s[n..], n)
  }

  function Flatten<T>(ss: seq<seq<T>>): seq<T>
  {
    if |ss| == 0 then [] else ss[0] + Flatten(ss[1..])
  }

  lemma {:induction false} ChunksFlatten<T>(s: seq<T>, n: nat)
    requires n > 0
    ensures Flatten(Chunks(s, n)) == s
    decreases |s|
  {
    if |s| > n {
      ChunksFlatten(s[n..], n);
      var r := Chunks(s, n);
      assert r[1..] == Chunks(s[n..], n);
      assert s == s[..n] + s[n..];
    } else if |s| > 0 {
      assert Chunks(s, n)[1..] == [];
    }
  }

  const BatchSize: nat := 50

  /** `for (let i = 0; i < ids.length; i += 50) ids.slice(i, i + 50)`. */
  method Batches(ids: seq<string>) returns (batches: seq<seq<string>>)
    ensures batches == Chunks(ids, BatchSize)
    ensures Flatten(batches) == ids
  {
    batches := [];
    var i := 0;
    while i < |ids|
      invariant 0 <= i <= |ids|
      invariant batches + Chunks(ids[i..], BatchSize) == Chunks(ids, BatchSize)
      decreases |ids| - i
    {
      var end := if i + BatchSize < |ids| then i + BatchSize else |ids|;
      var batch := ids[i..end];
      assert Chunks(ids[i..], BatchSize) == [batch] + Chunks(ids[end..], BatchSize) by {
        if end < |ids| {
          assert ids[i..][..BatchSize] == batch;
          assert ids[i..][BatchSize..] == ids[end..];
        } else {
          assert ids[i..] == batch;
          assert ids[end..] == [];
        }
      }
      batches := batches + [batch];
      i := end;
    }
    assert ids[i..] == [];
    ChunksFlatten(ids, BatchSize);
  }

  // ---------------------------------------------------------------------------------------
  // Video statistics of one channel
  // ---------------------------------------------------------------------------------------

  /** An item of a `videos.list` answer. */
  datatype FetchedVideo = FetchedVideo(id: string, publishedAt: Option<int>,
                                       viewCount: Option<string>, likeCount: Option<string>,
                                       commentCount: Option<string>)

  datatype Totals = Totals(views: int, likes: int, comments: int, videos: nat)

  function Add(a: Totals, b: Totals): Totals
  {
    Totals(a.views + b.views, a.likes + b.likes, a.comments + b.comments, a.videos + b.videos)
  }

  /** `parseInt(x, 10) || 0`, `undefined` being NaN. */
  function CountOf(s: Option<string>): int
  {
    Js.OrDefault(if s.Some? then Js.ParseInt10(s.value) else None, 0)
  }

  /** `new Date(publishedAt) >= cutoff`: an absent or invalid date is never in the window. */
  predicate InWindow(v: FetchedVideo, cutoff: int)
  {
    v.publishedAt.Some? && v.publishedAt.value >= cutoff
  }

  /** What one video adds to the totals: its counts and one video when it is in the window. */
  function Contribution(v: FetchedVideo, cutoff: int): Totals
  {
    if InWindow(v, cutoff) then Totals(CountOf(v.viewCount), CountOf(v.likeCount), CountOf(v.commentCount), 1)
    else Totals(0, 0, 0, 0)
  }

  /** The totals of the videos of a batch answer that fall in the window. */
  function TotalsOf(vs: seq<FetchedVideo>, cutoff: int): (t: Totals)
    ensures t.videos <= |vs|
  {
    if |vs| == 0 then Totals(0, 0, 0, 0)
    else Add(TotalsOf(vs[..|vs| - 1], cutoff), Contribution(vs[|vs| - 1], cutoff))
  }

  /** The inner `for (const videoDataFromApi of ...)` loop over one batch answer. */
  method AddBatch(acc: Totals, vs: seq<FetchedVideo>, cutoff: int) returns (r: Totals)
    ensures r == Add(acc, TotalsOf(vs, cutoff))
  {
    r := acc;
    var k := 0;
    while k < |vs|
      invariant 0 <= k <= |vs|
      invariant r == Add(acc, TotalsOf(vs[..k], cutoff))
    {
      TotalsStep(vs, k, cutoff);
      AddAssociative(acc, TotalsOf(vs[..k], cutoff), Contribution(vs[k], cutoff));
      r := Tally(r, vs[k], cutoff);
      k := k + 1;
    }
    assert vs[..|vs|] == vs;
  }

  /** The loop body: a video in the window adds its parsed counts and one to the number of videos. */
  method Tally(r: Totals, v: FetchedVideo, cutoff: int) returns (r': Totals)
    ensures r' == Add(r, Contribution(v, cutoff))
  {
    r' := r;
    if InWindow(v, cutoff) {
      r' := Totals(r.views + CountOf(v.viewCount), r.likes + CountOf(v.likeCount),
                   r.comments + CountOf(v.commentCount), r.videos + 1);
    }
  }

  lemma TotalsStep(vs: seq<FetchedVideo>, k: nat, cutoff: int)
    requires k < |vs|
    ensures TotalsOf(vs[..k + 1], cutoff) == Add(TotalsOf(vs[..k], cutoff), Contribution(vs[k], cutoff))
  {
    assert vs[..k + 1][..k] == vs[..k];
  }

  /**
   * The totals over the batches from batch `index` on, stopping before the first batch for
   * which the key manager had no key.
   */
  function TotalsFrom(batches: seq<seq<string>>, index: nat, keyAvailable: nat -> bool,
                      videosList: seq<string> -> seq<FetchedVideo>, cutoff: int): Totals
    decreases |batches|
  {
    if |batches| == 0 || !keyAvailable(index) then Totals(0, 0, 0, 0)
    else Add(TotalsOf(videosList(batches[0]), cutoff),
             TotalsFrom(batches[1..], index + 1, keyAvailable, videosList, cutoff))
  }

  /**
   * Lines 417-441: the batched `videos.list` calls of one channel. `keyAvailable(i)` says
   * whether the key manager had a key for the `i`-th batch and `videosList` is the API.
   */
  method FetchVideoTotals(ids: seq<string>, cutoff: int, keyAvailable: nat -> bool,
                          videosList: seq<string> -> seq<FetchedVideo>) returns (totals: Totals)
    ensures totals == TotalsFrom(Chunks(ids, BatchSize), 0, keyAvailable, videosList, cutoff)
  {
    var batches := Batches(ids);
    totals := Totals(0, 0, 0, 0);
    var j := 0;
    while j < |batches|
      invariant 0 <= j <= |batches|
      invariant Add(totals, TotalsFrom(batches[j..], j, keyAvailable, videosList, cutoff))
                == TotalsFrom(batches, 0, keyAvailable, videosList, cutoff)
    {
      if !keyAvailable(j) {
        break;
      }
      var b := TotalsOf(videosList(batches[j]), cutoff);
      var rest := TotalsFrom(batches[j + 1..], j + 1, keyAvailable, videosList, cutoff);
      assert batches[j..][1..] == batches[j + 1..];
      assert TotalsFrom(batches[j..], j, keyAvailable, videosList, cutoff) == Add(b, rest);
      AddAssociative(totals, b, rest);
      totals := AddBatch(totals, videosList(batches[j]), cutoff);
      j := j + 1;
    }
  }

  lemma AddAssociative(a: Totals, b: Totals, c: Totals)
    ensures Add(Add(a, b), c) == Add(a, Add(b, c))
  {
  }

  /** Every counted video was in the window, so a channel never reports more videos than it was sent. */
  lemma {:induction false} TotalsCountOnly(vs: seq<FetchedVideo>, cutoff: int)
    requires forall i :: 0 <= i < |vs| ==> !InWindow(vs[i], cutoff)
    ensures TotalsOf(vs, cutoff) == Totals(0, 0, 0, 0)
  {
    if |vs| > 0 {
      var init := vs[..|vs| - 1];
      assert forall i :: 0 <= i < |init| ==> init[i] == vs[i];
      TotalsCountOnly(init, cutoff);
      assert !InWindow(vs[|vs| - 1], cutoff);
    }
  }

  /** The Supabase fallback: `reduce((sum, v) => sum + (v.latest_view_count || 0), 0)` and the row count. */
  function FallbackTotals(latestViews: seq<Option<int>>): (t: Totals)
    ensures t.videos == |latestViews| && t.likes == 0 && t.comments == 0
  {
    if |latestViews| == 0 then Totals(0, 0, 0, 0)
    else
      var t := FallbackTotals(latestViews[..|latestViews| - 1]);
      var v := latestViews[|latestViews| - 1];
      Totals(t.views + (if v.Some? then v.value else 0), 0, 0, t.videos + 1)
  }

  // ---------------------------------------------------------------------------------------
  // Playlist paging
  // ---------------------------------------------------------------------------------------

  /** A `playlistItems.list` item: its publish time and its video id. */
  datatype PlaylistItem = PlaylistItem(publishedAt: Option<int>, videoId: Option<string>)

  datatype Page = Page(items: seq<PlaylistItem>, nextPageToken: Option<string>)

  const MaxPages: nat := 5

  /** The inner loop over one page: ids of in-window items until the first older one. */
  function PageIds(items: seq<PlaylistItem>, cutoff: int): (r: (seq<string>, bool))
    ensures |r.0| <= |items|
  {
    if |items| == 0 then ([], false)
    else if Recent(items[0], cutoff) then
      var rest := PageIds(items[1..], cutoff);
      (Kept(items[0]) + rest.0, rest.1)
    else ([], true)
  }

  /** An item published at or after the cutoff. */
  predicate Recent(item: PlaylistItem, cutoff: int)
  {
    item.publishedAt.Some? && item.publishedAt.value >= cutoff
  }

  /** The id an in-window item adds: its video id when that is truthy. */
  function Kept(item: PlaylistItem): (r: seq<string>)
    ensures |r| <= 1
  {
    if Truthy(item.videoId) then [item.videoId.value] else []
  }

  /**
   * The token for the next request. `asWritten` is line 412 as it stands: it tests the token
   * the page was requested with, which is null on the first page. Otherwise the test is the
   * evidently intended one, whether the page ended without an older item.
   */
  function NextToken(asWritten: bool, requested: Option<string>, stopped: bool, page: Page): Option<string>
  {
    if asWritten then
      (if |page.items| == 50 && requested.Some? && !stopped then page.nextPageToken else None)
    else if |page.items| == 50 && !stopped then page.nextPageToken else None
  }

  /** The ids gathered from the request with `token` on, with `fuel` requests left. */
  function Collect(asWritten: bool, fetch: Option<string> -> Page, token: Option<string>, cutoff: int, fuel: nat): seq<string>
    decreases fuel
  {
    if fuel == 0 then []
    else
      var page := fetch(token);
      var p := PageIds(page.items, cutoff);
      var next := NextToken(asWritten, token, p.1, page);
      p.0 + (if Truthy(next) then Collect(asWritten, fetch, next, cutoff, fuel - 1) else [])
  }

  /** The inner loop over one page's items. */
  method ScanPage(items: seq<PlaylistItem>, cutoff: int) returns (ids: seq<string>, stopped: bool)
    ensures (ids, stopped) == PageIds(items, cutoff)
  {
    ids := [];
    stopped := false;
    var k := 0;
    while k < |items|
      invariant 0 <= k <= |items|
      invariant ids + PageIds(items[k..], cutoff).0 == PageIds(items, cutoff).0
      invariant PageIds(items[k..], cutoff).1 == PageIds(items, cutoff).1
      invariant !stopped
    {
      var item := items[k];
      if !Recent(item, cutoff) {
        ScanStop(items, k, cutoff, ids);
        stopped := true;
        return;
      }
      ScanStep(items, k, cutoff, ids);
      ids := ids + Kept(item);
      k := k + 1;
    }
    ScanEnd(items, k, cutoff, ids);
  }

  /** An in-window item adds its id and leaves the rest of the page to come. */
  lemma ScanStep(items: seq<PlaylistItem>, k: nat, cutoff: int, ids: seq<string>)
    requires k < |items| && Recent(items[k], cutoff)
    ensures (ids + Kept(items[k])) + PageIds(items[k + 1..], cutoff).0 == ids + PageIds(items[k..], cutoff).0
    ensures PageIds(items[k + 1..], cutoff).1 == PageIds(items[k..], cutoff).1
  {
    assert items[k..][1..] == items[k + 1..];
    var rest := PageIds(items[k + 1..], cutoff).0;
    assert (ids + Kept(items[k])) + rest == ids + (Kept(items[k]) + rest);
  }

  /** An older item ends the page and the scan. */
  lemma ScanStop(items: seq<PlaylistItem>, k: nat, cutoff: int, ids: seq<string>)
    requires k < |items| && !Recent(items[k], cutoff)
    ensures PageIds(items[k..], cutoff) == ([], true)
    ensures ids + PageIds(items[k..], cutoff).0 == ids
  {
    assert ids + [] == ids;
  }

  /** A page read to its end leaves nothing more to gather. */
  lemma ScanEnd(items: seq<PlaylistItem>, k: nat, cutoff: int, ids: seq<string>)
    requires k == |items|
    ensures PageIds(items[k..], cutoff) == ([], false)
    ensures ids + PageIds(items[k..], cutoff).0 == ids
  {
    assert items[k..] == [];
    assert ids + [] == ids;
  }

  /**
   * The `do … while (nextPageToken)` loop of lines 392-415, the first request with a null token and
   * `asWritten` choosing line 412 as written or as intended.
   */
  method PlaylistVideoIds(asWritten: bool, fetch: Option<string> -> Page, cutoff: int)
    returns (ids: seq<string>, attempts: nat)
    ensures ids == Collect(asWritten, fetch, None, cutoff, MaxPages)
    ensures 1 <= attempts <= MaxPages
  {
    ids, attempts := PageLoop(asWritten, fetch, cutoff, MaxPages);
  }

  /** The paging loop, with at most `maxPages` requests. */
  method PageLoop(asWritten: bool, fetch: Option<string> -> Page, cutoff: int, maxPages: nat)
    returns (ids: seq<string>, attempts: nat)
    requires maxPages > 0
    ensures ids == Collect(asWritten, fetch, None, cutoff, maxPages)
    ensures 1 <= attempts <= maxPages
  {
    ids := [];
    attempts := 0;
    var nextPageToken: Option<string> := None;
    ghost var whole := Collect(asWritten, fetch, None, cutoff, maxPages);
    while true
      invariant 0 <= attempts < maxPages
      invariant ids + Collect(asWritten, fetch, nextPageToken, cutoff, maxPages - attempts) == whole
      decreases maxPages - attempts
    {
      var next;
      ghost var rest;
      ids, next, rest := GatherPage(asWritten, fetch, nextPageToken, cutoff, maxPages - attempts, ids, whole);
      attempts := attempts + 1;
      if !Truthy(next) || attempts >= maxPages {
        LastPage(ids, rest, whole);
        return;
      }
      nextPageToken := next;
    }
  }

  /** Nothing left to gather: the ids gathered are all of them. */
  lemma LastPage(ids: seq<string>, rest: seq<string>, whole: seq<string>)
    requires ids + rest == whole && rest == []
    ensures ids == whole
  {
    assert ids + [] == ids;
  }

  /** One pass of the paging loop: request the page and add its in-window ids. */
  method GatherPage(asWritten: bool, fetch: Option<string> -> Page, token: Option<string>, cutoff: int, fuel: nat,
                    ids: seq<string>, ghost whole: seq<string>)
    returns (ids': seq<string>, next: Option<string>, ghost rest: seq<string>)
    requires fuel > 0
    requires ids + Collect(asWritten, fetch, token, cutoff, fuel) == whole
    ensures ids' == ids + PageIds(fetch(token).items, cutoff).0
    ensures next == NextToken(asWritten, token, PageIds(fetch(token).items, cutoff).1, fetch(token))
    ensures ids' + rest == whole
    ensures Truthy(next) && fuel > 1 ==> rest == Collect(asWritten, fetch, next, cutoff, fuel - 1)
    ensures !Truthy(next) || fuel == 1 ==> rest == []
  {
    PageStep(asWritten, fetch, token, cutoff, fuel, ids, whole);
    var found;
    found, next := RequestPage(asWritten, fetch, token, cutoff);
    ids' := ids + found;
    rest := if Truthy(next) then Collect(asWritten, fetch, next, cutoff, fuel - 1) else [];
    if fuel == 1 {
      CollectEmpty(asWritten, fetch, next, cutoff);
    }
  }

  /** One request of the loop keeps the gathered ids followed by the ids still to come. */
  lemma PageStep(asWritten: bool, fetch: Option<string> -> Page, token: Option<string>, cutoff: int, fuel: nat,
                 ids: seq<string>, whole: seq<string>)
    requires fuel > 0
    requires ids + Collect(asWritten, fetch, token, cutoff, fuel) == whole
    ensures var p := PageIds(fetch(token).items, cutoff);
            var next := NextToken(asWritten, token, p.1, fetch(token));
            (ids + p.0) + (if Truthy(next) then Collect(asWritten, fetch, next, cutoff, fuel - 1) else []) == whole
  {
    CollectUnfold(asWritten, fetch, token, cutoff, fuel);
    var p := PageIds(fetch(token).items, cutoff);
    var next := NextToken(asWritten, token, p.1, fetch(token));
    var tail := if Truthy(next) then Collect(asWritten, fetch, next, cutoff, fuel - 1) else [];
    assert ids + (p.0 + tail) == (ids + p.0) + tail;
  }

  /** No requests left: nothing more is gathered. */
  lemma CollectEmpty(asWritten: bool, fetch: Option<string> -> Page, token: Option<string>, cutoff: int)
    ensures Collect(asWritten, fetch, token, cutoff, 0) == []
  {
  }

  /** One request: the page's in-window ids and the token for the next request. */
  method RequestPage(asWritten: bool, fetch: Option<string> -> Page, token: Option<string>, cutoff: int)
    returns (found: seq<string>, next: Option<string>)
    ensures found == PageIds(fetch(token).items, cutoff).0
    ensures next == NextToken(asWritten, token, PageIds(fetch(token).items, cutoff).1, fetch(token))
  {
    var page := fetch(token);
    var stopped;
    found, stopped := ScanPage(page.items, cutoff);
    next := NextToken(asWritten, token, stopped, page);
  }

  /** One request of the loop: the page's ids, then the rest when there is a next token. */
  lemma CollectUnfold(asWritten: bool, fetch: Option<string> -> Page, token: Option<string>, cutoff: int, fuel: nat)
    requires fuel > 0
    ensures var p := PageIds(fetch(token).items, cutoff);
            var next := NextToken(asWritten, token, p.1, fetch(token));
            Collect(asWritten, fetch, token, cutoff, fuel) ==
            p.0 + (if Truthy(next) then Collect(asWritten, fetch, next, cutoff, fuel - 1) else [])
  {
  }

  /**
   * As written the loop reads one page only, even when it is full, entirely in the window and
   * has a next-page token: the later pages' videos are never looked at.
   */
  lemma PagingAsWrittenReadsOnePage(fetch: Option<string> -> Page, cutoff: int)
    ensures Collect(true, fetch, None, cutoff, MaxPages) == PageIds(fetch(None).items, cutoff).0
  {
  }

  /**
   * With the intended test a full first page with a next-page token is followed by the
   * second page.
   */
  lemma PagingIntendedFollowsToken(fetch: Option<string> -> Page, cutoff: int)
    requires |fetch(None).items| == 50 && !PageIds(fetch(None).items, cutoff).1
    requires Truthy(fetch(None).nextPageToken)
    ensures Collect(false, fetch, None, cutoff, MaxPages) ==
            PageIds(fetch(None).items, cutoff).0 + Collect(false, fetch, fetch(None).nextPageToken, cutoff, MaxPages - 1)
  {
  }

  /** The ids come only from in-window items, in page order, at most 50 per page read. */
  lemma {:induction false} CollectBound(asWritten: bool, fetch: Option<string> -> Page, token: Option<string>,
                                        cutoff: int, fuel: nat)
    requires forall t :: |fetch(t).items| <= 50
    ensures |Collect(asWritten, fetch, token, cutoff, fuel)| <= 50 * fuel
    decreases fuel
  {
    if fuel > 0 {
      var page := fetch(token);
      var p := PageIds(page.items, cutoff);
      var next := NextToken(asWritten, token, p.1, page);
      if Truthy(next) {
        CollectBound(asWritten, fetch, next, cutoff, fuel - 1);
      }
    }
  }
}
