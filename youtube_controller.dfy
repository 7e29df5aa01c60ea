/**
 * `lookupChannel`: a channel name, URL or id typed by the user is resolved to one YouTube
 * channel, first through the search endpoint and then through channels.list, and answered
 * with the channel's id, title, thumbnail and subscriber count. Both YouTube calls are inputs.
 */
module YoutubeController {
  import opened Wrappers
  import opened JsonValue
  import Js

  const PlaceholderKey: string := "PLACEHOLDER_DO_NOT_COMMIT_REAL_KEY"
  const PlaceholderThumbnail: string := "https://via.placeholder.com/48?text=?"
  const UnknownTitle: string := "Unknown Title"
  const DefaultErrorMessage: string := "Failed to fetch channel info from YouTube."
  const MissingQuery: string := "Missing channel query"
  const KeyNotSet: string := "Server configuration error: YouTube API Key not set."
  const NoChannelId: string := "Could not identify a channel from the provided query."
  const KeyInvalid: string := "Invalid YouTube API Key configured on server."
  const QuotaExceeded: string := "YouTube API quota exceeded. Please try again later."
  const ApiDisabled: string := "YouTube Data API access might be disabled for this key."

  /** `error.response?.status` and `error.response?.data?.error` of a failed YouTube call. */
  datatype ApiError = ApiError(status: Option<nat>, message: Option<string>, reasons: Option<seq<Option<string>>>)

  /** The search call: a failure, or `data.items`, each item's `id?.channelId`. */
  datatype SearchResult = SearchFailed(error: ApiError) | SearchItems(items: Option<seq<Option<string>>>)

  datatype Snippet = Snippet(title: Option<string>, defaultThumb: Option<string>, mediumThumb: Option<string>)
  /** `statistics`: whether the count is hidden (truthy `hiddenSubscriberCount`) and its text. */
  datatype Statistics = Statistics(hidden: bool, subscriberCount: Option<string>)
  datatype Channel = Channel(id: Option<string>, snippet: Option<Snippet>, statistics: Option<Statistics>)

  /** The channels.list call: a failure, or `data.items`. */
  datatype DetailsResult = DetailsFailed(error: ApiError) | DetailsItems(items: Option<seq<Channel>>)

  /**
   * `subscriberCount` of the answer: left out (undefined) when hidden, otherwise
   * `parseInt(count, 10)`, which is NaN, sent as null, when the count does not parse.
   */
  datatype Subscribers = Hidden | Count(value: Option<int>)

  datatype Response =
    | Reply(status: nat, message: string)
    | ChannelInfo(id: Option<string>, title: string, thumbnailUrl: string, subscriberCount: Subscribers)
    /** `query.trim` on a non-string throws before the `try`, so no response is produced. */
    | Thrown

  /** The response, and the channel id channels.list was asked about, if it was called. */
  datatype Lookup = Lookup(response: Response, searched: bool, detailsFor: Option<string>)

  // ---------------------------------------------------------------------------------------
  // Checks before any request
  // ---------------------------------------------------------------------------------------

  /** `!query || query.trim() === ''` for a string query. */
  predicate BlankQuery(query: Option<Value>)
  {
    query.None? || Falsy(query.value) || (query.value.Str? && Js.Trim(query.value.s) == "")
  }

  /** `!KEY || KEY === placeholder || KEY.length < 10`. */
  predicate KeyUnusable(key: Option<string>)
  {
    key.None? || key.value == "" || key.value == PlaceholderKey || |key.value| < 10
  }

  // ---------------------------------------------------------------------------------------
  // The error mapping of the catch block
  // ---------------------------------------------------------------------------------------

  /**
   * `reason?.includes('disabled')` as written: a case-sensitive test, so it never matches
   * `dataApiDisabled`, the example reason the handler itself names for this branch.
   */
  predicate MentionsDisabledAsWritten(reason: Option<string>)
  {
    reason.Some? && Js.Contains(reason.value, "disabled")
  }

  /** The intended test: the reason mentions "disabled" in any letter case. */
  predicate MentionsDisabled(reason: Option<string>)
  {
    reason.Some? && Js.Contains(Js.ToLower(reason.value), "disabled")
  }

  /** The as-written test misses `dataApiDisabled`; the intended one catches it. */
  lemma DataApiDisabledMissed()
    ensures !MentionsDisabledAsWritten(Some("dataApiDisabled"))
    ensures MentionsDisabled(Some("dataApiDisabled"))
  {
    var s := "dataApiDisabled";
    forall i | 0 <= i <= |s|
      ensures !Js.StartsWith(s[i..], "disabled")
    {
      if i == 0 {
        assert s[i..][1] == 'a';
      } else if i <= 7 {
        assert s[i..][0] != 'd';
      }
    }
    var t := Js.ToLower(s);
    assert t[7] == 'd' && t[8] == 'i' && t[9] == 's' && t[10] == 'a';
    assert t[11] == 'b' && t[12] == 'l' && t[13] == 'e' && t[14] == 'd';
    assert t[7..][..8] == "disabled";
    assert Js.StartsWith(t[7..], "disabled");
  }

  /** The first listed reason, if the error lists any. */
  function FirstReason(e: ApiError): Option<string>
  {
    if e.reasons.Some? && |e.reasons.value| > 0 then e.reasons.value[0] else None
  }

  /**
   * The catch block: a message and a status, each assigned once and then overridden for known
   * reasons; the 'disabled' test is the case-sensitive one the handler makes.
   */
  method MapError(e: ApiError) returns (status: nat, message: string)
    ensures FirstReason(e) == Some("keyInvalid") ==>
              status == 500 && message == KeyInvalid
    ensures FirstReason(e) == Some("quotaExceeded") || FirstReason(e) == Some("dailyLimitExceeded") ==>
              status == 429 && message == QuotaExceeded
    ensures FirstReason(e) != Some("keyInvalid") && FirstReason(e) != Some("quotaExceeded") &&
            FirstReason(e) != Some("dailyLimitExceeded") && MentionsDisabledAsWritten(FirstReason(e)) ==>
              status == 403 && message == ApiDisabled
    ensures FirstReason(e) != Some("keyInvalid") && FirstReason(e) != Some("quotaExceeded") &&
            FirstReason(e) != Some("dailyLimitExceeded") && !MentionsDisabledAsWritten(FirstReason(e)) ==>
              status == (if e.status.Some? && e.status.value != 0 then e.status.value else 500) &&
              message == (if e.message.Some? && e.message.value != "" then e.message.value else DefaultErrorMessage)
    ensures Reply(status, message) == ErrorReply(e)
  {
    message := if e.message.Some? && e.message.value != "" then e.message.value else DefaultErrorMessage;
    status := if e.status.Some? && e.status.value != 0 then e.status.value else 500;
    if e.reasons.Some? && |e.reasons.value| > 0 {
      var reason := e.reasons.value[0];
      if reason == Some("keyInvalid") {
        message := KeyInvalid;
        status := 500;
      } else if reason == Some("quotaExceeded") || reason == Some("dailyLimitExceeded") {
        message := QuotaExceeded;
        status := 429;
      } else if MentionsDisabledAsWritten(reason) {
        message := ApiDisabled;
        status := 403;
      }
    }
  }

  // ---------------------------------------------------------------------------------------
  // Parsing the channel
  // ---------------------------------------------------------------------------------------

  /** `a || b` on optional strings. */
  function Or(a: Option<string>, b: string): string
  {
    if a.Some? && a.value != "" then a.value else b
  }

  /** Step 3: the answer built from the first channels.list item. */
  function ParseChannel(c: Channel): (r: Response)
    ensures r.ChannelInfo? && r.id == c.id
  {
    var snippet := if c.snippet.Some? then c.snippet.value else Snippet(None, None, None);
    var stats := if c.statistics.Some? then c.statistics.value else Statistics(false, None);
    ChannelInfo(c.id,
                Or(snippet.title, UnknownTitle),
                Or(snippet.defaultThumb, Or(snippet.mediumThumb, PlaceholderThumbnail)),
                if stats.hidden then Hidden
                else Count(if stats.subscriberCount.Some? then Js.ParseInt10(stats.subscriberCount.value) else None))
  }

  // ---------------------------------------------------------------------------------------
  // The handler
  // ---------------------------------------------------------------------------------------

  method LookupChannel(query: Option<Value>, key: Option<string>, search: SearchResult, details: DetailsResult)
    returns (l: Lookup)
    ensures l == LookupOf(query, key, search, details)
  {
    if BlankQuery(query) {
      return Lookup(Reply(400, MissingQuery), false, None);
    }
    if !query.value.Str? {
      return Lookup(Thrown, false, None);
    }
    if KeyUnusable(key) {
      return Lookup(Reply(500, KeyNotSet), false, None);
    }
    l := Search(query.value.s, search, details);
  }

  /** The handler from the search request on, for the query string `q`. */
  method Search(q: string, search: SearchResult, details: DetailsResult) returns (l: Lookup)
    ensures l == AfterSearch(q, search, details)
  {
    var channelId: Option<string> := None;
    match search {
      case SearchFailed(e) =>
        var status, message := MapError(e);
        return Lookup(Reply(status, message), true, None);
      case SearchItems(items) =>
        if items.Some? && |items.value| > 0 {
          channelId := items.value[0];
        } else {
          channelId := Some(q);
        }
    }
    if channelId.None? || channelId.value == "" {
      return Lookup(Reply(404, NoChannelId), true, None);
    }
    var found := search.items.Some? && |search.items.value| > 0;
    l := Details(channelId.value, found, details);
  }

  /** The channels.list request for `channelId` and the answer built from it. */
  method Details(channelId: string, found: bool, details: DetailsResult) returns (l: Lookup)
    ensures l == match details
                 case DetailsFailed(e) => Lookup(ErrorReply(e), true, Some(channelId))
                 case DetailsItems(items) =>
                   if items.None? || |items.value| == 0 then
                     Lookup(Reply(404, if found then FoundButNoDetails else ChannelNotFound), true, Some(channelId))
                   else Lookup(ParseChannel(items.value[0]), true, Some(channelId))
  {
    match details {
      case DetailsFailed(e) =>
        var status, message := MapError(e);
        return Lookup(Reply(status, message), true, Some(channelId));
      case DetailsItems(items) =>
        if items.None? || |items.value| == 0 {
          if found {
            return Lookup(Reply(404, FoundButNoDetails), true, Some(channelId));
          } else {
            return Lookup(Reply(404, ChannelNotFound), true, Some(channelId));
          }
        }
        return Lookup(ParseChannel(items.value[0]), true, Some(channelId));
    }
  }

  const FoundButNoDetails: string :=
    "Channel found via search, but failed to get details. Check if the ID is correct or channel is accessible."
  const ChannelNotFound: string := "Channel not found. Please check the name, URL, or ID."

  /** Step 1: the search's first hit, or the query itself when the search finds nothing. */
  function ChosenId(q: string, search: SearchResult): Option<string>
    requires search.SearchItems?
  {
    if search.items.Some? && |search.items.value| > 0 then search.items.value[0] else Some(q)
  }

  /** The status and message of the catch block as a table, for a given 'disabled' test. */
  function ErrorReplyBy(e: ApiError, disabled: Option<string> -> bool): (r: Response)
    ensures r.Reply?
  {
    var reason := FirstReason(e);
    if reason == Some("keyInvalid") then Reply(500, KeyInvalid)
    else if reason == Some("quotaExceeded") || reason == Some("dailyLimitExceeded") then
      Reply(429, QuotaExceeded)
    else if disabled(reason) then Reply(403, ApiDisabled)
    else Reply(if e.status.Some? && e.status.value != 0 then e.status.value else 500,
               if e.message.Some? && e.message.value != "" then e.message.value else DefaultErrorMessage)
  }

  /** The catch block as written, with its case-sensitive 'disabled' test. */
  function ErrorReply(e: ApiError): (r: Response)
    ensures r.Reply?
  {
    ErrorReplyBy(e, MentionsDisabledAsWritten)
  }

  /** The catch block as intended, catching `dataApiDisabled` too. */
  function ErrorReplyIntended(e: ApiError): (r: Response)
    ensures r.Reply?
  {
    ErrorReplyBy(e, MentionsDisabled)
  }

  /** The checks made before any request: the reply they give, or None when the search is made. */
  function Guard(query: Option<Value>, key: Option<string>): (r: Option<Lookup>)
    ensures r.None? ==> query.Some? && query.value.Str?
  {
    if BlankQuery(query) then Some(Lookup(Reply(400, MissingQuery), false, None))
    else if !query.value.Str? then Some(Lookup(Thrown, false, None))
    else if KeyUnusable(key) then Some(Lookup(Reply(500, KeyNotSet), false, None))
    else None
  }

  /** Everything from the search on, for the query string `q`. */
  function AfterSearch(q: string, search: SearchResult, details: DetailsResult): Lookup
  {
    match search
    case SearchFailed(e) => Lookup(ErrorReply(e), true, None)
    case SearchItems(hits) =>
      var id := ChosenId(q, search);
      if id.None? || id.value == "" then
        Lookup(Reply(404, NoChannelId), true, None)
      else match details
        case DetailsFailed(e) => Lookup(ErrorReply(e), true, id)
        case DetailsItems(items) =>
          if items.None? || |items.value| == 0 then
            Lookup(Reply(404, if hits.Some? && |hits.value| > 0 then FoundButNoDetails else ChannelNotFound), true, id)
          else Lookup(ParseChannel(items.value[0]), true, id)
  }

  /** The whole handler as a decision table. */
  function LookupOf(query: Option<Value>, key: Option<string>, search: SearchResult, details: DetailsResult): Lookup
  {
    var guard := Guard(query, key);
    if guard.Some? then guard.value else AfterSearch(query.value.s, search, details)
  }

  /** A string query that does not trim to "" with a usable key goes on to the search. */
  lemma Admitted(q: string, key: Option<string>)
    requires Js.Trim(q) != "" && !KeyUnusable(key)
    ensures Guard(Some(Str(q)), key).None?
  {
    NotBlank(q);
    GuardTable(Some(Str(q)), key);
  }

  /** Text that does not trim to "" is not a blank query. */
  lemma NotBlank(q: string)
    requires Js.Trim(q) != ""
    ensures !BlankQuery(Some(Str(q)))
  {
    Js.TrimBlank(q);
  }

  // ---------------------------------------------------------------------------------------
  // Properties
  // ---------------------------------------------------------------------------------------

  /** A missing, empty or blank query is a 400, and an unusable key a 500, before any request. */
  lemma RejectedBeforeRequest(query: Option<Value>, w: string, key: Option<string>, search: SearchResult,
                              details: DetailsResult)
    requires Js.AllSpace(w)
    ensures LookupOf(Some(Str(w)), key, search, details).response == Reply(400, MissingQuery)
    ensures LookupOf(None, key, search, details).response == Reply(400, MissingQuery)
    ensures !BlankQuery(query) && query.value.Str? && KeyUnusable(key) ==>
              LookupOf(query, key, search, details) ==
              Lookup(Reply(500, KeyNotSet), false, None)
    ensures KeyUnusable(None) && KeyUnusable(Some("short")) && KeyUnusable(Some(PlaceholderKey))
  {
    Js.TrimBlank(w);
  }

  /** When the search finds nothing, channels.list is asked about the raw query itself. */
  lemma QueryUsedAsId(q: string, key: Option<string>, hits: Option<seq<Option<string>>>, details: DetailsResult)
    requires Js.Trim(q) != "" && !KeyUnusable(key)
    requires hits.None? || |hits.value| == 0
    ensures LookupOf(Some(Str(q)), key, SearchItems(hits), details).detailsFor == Some(q)
  {
    Admitted(q, key);
    LookupSplit(Some(Str(q)), key, SearchItems(hits), details);
    Js.TrimBlank(q);
    NoHitsAskQuery(q, hits, details);
  }

  lemma NoHitsAskQuery(q: string, hits: Option<seq<Option<string>>>, details: DetailsResult)
    requires q != "" && (hits.None? || |hits.value| == 0)
    ensures AfterSearch(q, SearchItems(hits), details).detailsFor == Some(q)
  {
    assert ChosenId(q, SearchItems(hits)) == Some(q);
  }

  /** A search hit without a channel id is a 404 and channels.list is not called. */
  lemma HitWithoutId(q: string, key: Option<string>, rest: seq<Option<string>>, details: DetailsResult)
    requires Js.Trim(q) != "" && !KeyUnusable(key)
    ensures var l := LookupOf(Some(Str(q)), key, SearchItems(Some([None] + rest)), details);
            l.response == Reply(404, NoChannelId) && l.detailsFor.None?
  {
    Admitted(q, key);
    NoIdFirst(q, rest, details);
  }

  lemma NoIdFirst(q: string, rest: seq<Option<string>>, details: DetailsResult)
    ensures AfterSearch(q, SearchItems(Some([None] + rest)), details) == Lookup(Reply(404, NoChannelId), true, None)
  {
    assert ChosenId(q, SearchItems(Some([None] + rest))) == None;
  }

  /**
   * The answer takes the id from channels.list; the title falls back to 'Unknown Title'; the
   * thumbnail prefers the default size, then the medium size, then a placeholder; the
   * subscriber count is left out exactly when the channel hides it.
   */
  lemma ParsedShape(c: Channel)
    ensures var r := ParseChannel(c);
            r.id == c.id &&
            (c.snippet.None? ==> r.title == UnknownTitle && r.thumbnailUrl == PlaceholderThumbnail) &&
            (c.snippet.Some? ==> r.title == Or(c.snippet.value.title, UnknownTitle)) &&
            (c.snippet.Some? && c.snippet.value.defaultThumb.Some? && c.snippet.value.defaultThumb.value != "" ==>
               r.thumbnailUrl == c.snippet.value.defaultThumb.value) &&
            (c.snippet.Some? && Or(c.snippet.value.defaultThumb, "") == "" ==>
               r.thumbnailUrl == Or(c.snippet.value.mediumThumb, PlaceholderThumbnail)) &&
            (r.subscriberCount.Hidden? <==> c.statistics.Some? && c.statistics.value.hidden)
  {
  }

  /** A visible count is read with `parseInt(_, 10)`: its decimal text gives the number back. */
  lemma SubscriberCountRead(n: nat)
    ensures ParseChannel(Channel(None, None, Some(Statistics(false, Some(Js.IntToString(n)))))).subscriberCount ==
            Count(Some(n))
  {
    Js.ParseIntOfIntToString(n);
  }

  /**
   * The error table as written: keyInvalid 500, quota 429, a reason holding "disabled" 403,
   * an empty reason list as none, else the call's own status or 500 with its message or the
   * default; `dataApiDisabled` falls through to that last row.
   */
  lemma ErrorTable(status: Option<nat>, message: Option<string>, rest: seq<Option<string>>, r: string)
    ensures ErrorReply(ApiError(status, message, Some([Some("keyInvalid")] + rest))).status == 500
    ensures ErrorReply(ApiError(status, message, Some([Some("quotaExceeded")] + rest))).status == 429
    ensures ErrorReply(ApiError(status, message, Some([Some("dailyLimitExceeded")] + rest))).status == 429
    ensures r != "keyInvalid" && r != "quotaExceeded" && r != "dailyLimitExceeded" && Js.Contains(r, "disabled") ==>
              ErrorReply(ApiError(status, message, Some([Some(r)] + rest))) == Reply(403, ApiDisabled)
    ensures ErrorReply(ApiError(status, message, Some([Some("dataApiDisabled")] + rest))) ==
            ErrorReply(ApiError(status, message, None))
    ensures ErrorReply(ApiError(status, message, Some([]))) == ErrorReply(ApiError(status, message, None))
    ensures ErrorReply(ApiError(status, message, None)) ==
            Reply(if status.Some? && status.value != 0 then status.value else 500,
                  if message.Some? && message.value != "" then message.value else DefaultErrorMessage)
  {
    DataApiDisabledMissed();
  }

  /**
   * The intended table differs from the written one only for reasons that mention "disabled"
   * in another letter case, and answers 403 for `dataApiDisabled`.
   */
  lemma ErrorTableIntended(e: ApiError, status: Option<nat>, message: Option<string>, rest: seq<Option<string>>)
    ensures ErrorReplyIntended(ApiError(status, message, Some([Some("dataApiDisabled")] + rest))) == Reply(403, ApiDisabled)
    ensures ErrorReplyIntended(e) != ErrorReply(e) ==>
              MentionsDisabled(FirstReason(e)) && !MentionsDisabledAsWritten(FirstReason(e))
  {
    DataApiDisabledMissed();
    if MentionsDisabledAsWritten(FirstReason(e)) {
      DisabledLowered(FirstReason(e).value);
    }
  }

  /** A reason the written test catches is caught by the intended one too. */
  lemma DisabledLowered(r: string)
    requires Js.Contains(r, "disabled")
    ensures Js.Contains(Js.ToLower(r), "disabled")
  {
    var i :| 0 <= i <= |r| && Js.StartsWith(r[i..], "disabled");
    var t := Js.ToLower(r);
    forall k | 0 <= k < 8
      ensures t[i + k] == "disabled"[k]
    {
      assert r[i..][k] == r[i + k];
    }
    assert t[i..][..8] == "disabled";
  }

  /** No call is made for a blank or non-string query or an unusable key; otherwise the search is. */
  lemma SearchedOnlyWhenValid(query: Option<Value>, key: Option<string>, search: SearchResult, details: DetailsResult)
    ensures var l := LookupOf(query, key, search, details);
            (BlankQuery(query) ==> l == Lookup(Reply(400, MissingQuery), false, None)) &&
            (!BlankQuery(query) && !query.value.Str? ==> l == Lookup(Thrown, false, None)) &&
            (l.searched <==> !BlankQuery(query) && query.value.Str? && !KeyUnusable(key))
    ensures search.SearchFailed? && !BlankQuery(query) && query.value.Str? && !KeyUnusable(key) ==>
            LookupOf(query, key, search, details) == Lookup(ErrorReply(search.error), true, None)
  {
    GuardTable(query, key);
    if Guard(query, key).None? {
      AfterSearchSearched(query.value.s, search, details);
    }
  }

  /** The guards stop exactly the blank, non-string and unusable-key requests, before any call. */
  lemma GuardTable(query: Option<Value>, key: Option<string>)
    ensures Guard(query, key).None? <==> !BlankQuery(query) && query.value.Str? && !KeyUnusable(key)
    ensures Guard(query, key).Some? ==> !Guard(query, key).value.searched && Guard(query, key).value.detailsFor.None?
  {
  }

  /** Past the guards the search is always made, and a failed search answers with its error. */
  lemma AfterSearchSearched(q: string, search: SearchResult, details: DetailsResult)
    ensures AfterSearch(q, search, details).searched
    ensures search.SearchFailed? ==> AfterSearch(q, search, details) == Lookup(ErrorReply(search.error), true, None)
  {
  }

  /** channels.list is called only after a successful search, about the non-empty chosen id. */
  lemma DetailsAskedAboutChosenId(query: Option<Value>, key: Option<string>, search: SearchResult,
                                  details: DetailsResult)
    ensures var l := LookupOf(query, key, search, details);
            l.detailsFor.Some? ==>
              l.searched && search.SearchItems? && l.detailsFor.value != "" &&
              l.detailsFor == ChosenId(query.value.s, search)
  {
    if Guard(query, key).None? {
      DetailsPastGuard(query, key, search, details);
    } else {
      NoDetailsAtGuard(query, key, search, details);
    }
  }

  lemma DetailsPastGuard(query: Option<Value>, key: Option<string>, search: SearchResult, details: DetailsResult)
    requires Guard(query, key).None?
    ensures var l := LookupOf(query, key, search, details);
            l.detailsFor.Some? ==>
              l.searched && search.SearchItems? && l.detailsFor.value != "" &&
              l.detailsFor == ChosenId(query.value.s, search)
  {
    var q := query.value.s;
    LookupSplit(query, key, search, details);
    DetailsAfterSearch(q, search, details);
    var l := AfterSearch(q, search, details);
    assert LookupOf(query, key, search, details) == l;
    assert l.detailsFor.Some? ==> search.SearchItems?;
  }

  lemma NoDetailsAtGuard(query: Option<Value>, key: Option<string>, search: SearchResult, details: DetailsResult)
    requires Guard(query, key).Some?
    ensures LookupOf(query, key, search, details).detailsFor.None?
  {
    LookupSplit(query, key, search, details);
    GuardTable(query, key);
  }

  /** The handler is its guards' reply, or past them the rest of the handler. */
  lemma LookupSplit(query: Option<Value>, key: Option<string>, search: SearchResult, details: DetailsResult)
    ensures Guard(query, key).Some? ==> LookupOf(query, key, search, details) == Guard(query, key).value
    ensures Guard(query, key).None? ==> LookupOf(query, key, search, details) == AfterSearch(query.value.s, search, details)
  {
  }

  lemma DetailsAfterSearch(q: string, search: SearchResult, details: DetailsResult)
    ensures var l := AfterSearch(q, search, details);
            l.detailsFor.Some? ==> search.SearchItems? && l.detailsFor.value != "" && l.detailsFor == ChosenId(q, search)
  {
  }

  /** A channel answer is made only from the first channels.list item. */
  lemma AnswerFromFirstItem(query: Option<Value>, key: Option<string>, search: SearchResult, details: DetailsResult)
    ensures var l := LookupOf(query, key, search, details);
            l.response.ChannelInfo? ==>
              details.DetailsItems? && details.items.Some? && |details.items.value| > 0 &&
              l.response == ParseChannel(details.items.value[0])
  {
    LookupSplit(query, key, search, details);
    if Guard(query, key).None? {
      AnswerAfterSearch(query.value.s, search, details);
    } else {
      GuardNoAnswer(query, key);
    }
  }

  lemma AnswerAfterSearch(q: string, search: SearchResult, details: DetailsResult)
    ensures var l := AfterSearch(q, search, details);
            l.response.ChannelInfo? ==>
              details.DetailsItems? && details.items.Some? && |details.items.value| > 0 &&
              l.response == ParseChannel(details.items.value[0])
  {
  }

  /** The guards answer with an error or a throw, never with a channel. */
  lemma GuardNoAnswer(query: Option<Value>, key: Option<string>)
    requires Guard(query, key).Some?
    ensures !Guard(query, key).value.response.ChannelInfo?
  {
  }
}
