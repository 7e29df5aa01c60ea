/**
 * The alert-preferences store of the web client: the nine threshold settings and the channel
 * filter being edited, and the actions that load them, edit one field, save them and reset
 * them to the defaults. Request outcomes are inputs.
 */
module AlertPreferencesStore {
  import opened Wrappers
  import opened JsonValue
  import Js
  import UserController

  datatype ThresholdField =
    | Views | Likes | Comments | Velocity
    | RelativePercent | RelativeMetric
    | ViewsWindow | LikesWindow | CommentsWindow

  datatype Thresholds = Thresholds(
    views: int, likes: int, comments: int, velocity: int,
    relativePercent: Option<int>, relativeMetric: Value,
    viewsWindow: Option<int>, likesWindow: Option<int>, commentsWindow: Option<int>)

  /** The value of one threshold field: a number, a number or null, or the comparison metric. */
  datatype Setting = Whole(n: int) | Nullable(o: Option<int>) | Metric(v: Value)

  /** The four fields that may be null. */
  predicate IsNullable(f: ThresholdField)
  {
    f == RelativePercent || f == ViewsWindow || f == LikesWindow || f == CommentsWindow
  }

  /** `thresholds[field]`. */
  function Get(t: Thresholds, f: ThresholdField): Setting
  {
    match f
    case Views => Whole(t.views)
    case Likes => Whole(t.likes)
    case Comments => Whole(t.comments)
    case Velocity => Whole(t.velocity)
    case RelativePercent => Nullable(t.relativePercent)
    case RelativeMetric => Metric(t.relativeMetric)
    case ViewsWindow => Nullable(t.viewsWindow)
    case LikesWindow => Nullable(t.likesWindow)
    case CommentsWindow => Nullable(t.commentsWindow)
  }

  const DefaultMetric: Value := Str("30d_avg_views")

  const DefaultThresholds: Thresholds :=
    Thresholds(3000000, 50000, 450, 500, None, DefaultMetric, None, None, None)

  const DefaultFilterChannels: string := "{" + "\"groups\":[], \"selectedResearchGroupId\": null}"

  // ---------------------------------------------------------------------------------------
  // setThresholdField
  // ---------------------------------------------------------------------------------------

  /** A nullable field's input: blank is null, otherwise `parseInt(value, 10) || null`. */
  function NullableNumber(value: string): Option<int>
  {
    if Js.Trim(value) == "" then None
    else
      var p := Js.ParseInt10(value);
      if p.Some? && p.value != 0 then p else None
  }

  /** What `setThresholdField` stores for the typed text. */
  function Processed(f: ThresholdField, value: string): Setting
  {
    if IsNullable(f) then Nullable(NullableNumber(value))
    else if f == RelativeMetric then Metric(Str(value))
    else Whole(Js.OrDefault(Js.ParseInt10(value), 0))
  }

  /** The kind of setting each field holds. */
  predicate Fits(f: ThresholdField, s: Setting)
  {
    if IsNullable(f) then s.Nullable? else if f == RelativeMetric then s.Metric? else s.Whole?
  }

  /** `{ ...t, [field]: s }`: the field replaced, every other field kept. */
  function Put(t: Thresholds, f: ThresholdField, s: Setting): (r: Thresholds)
    requires Fits(f, s)
    ensures Get(r, f) == s
    ensures forall g :: g != f ==> Get(r, g) == Get(t, g)
  {
    match f
    case Views => t.(views := s.n)
    case Likes => t.(likes := s.n)
    case Comments => t.(comments := s.n)
    case Velocity => t.(velocity := s.n)
    case RelativePercent => t.(relativePercent := s.o)
    case RelativeMetric => t.(relativeMetric := s.v)
    case ViewsWindow => t.(viewsWindow := s.o)
    case LikesWindow => t.(likesWindow := s.o)
    case CommentsWindow => t.(commentsWindow := s.o)
  }

  /** `{ ...t, [field]: Processed(field, value) }`. */
  function SetField(t: Thresholds, f: ThresholdField, value: string): (r: Thresholds)
    ensures Get(r, f) == Processed(f, value)
    ensures forall g :: g != f ==> Get(r, g) == Get(t, g)
  {
    var s := Processed(f, value);
    assert Fits(f, s);
    Put(t, f, s)
  }

  /** White space only trims to the empty string. */
  lemma BlankTrims(w: string)
    requires Js.AllSpace(w)
    ensures Js.Trim(w) == ""
  {
    if Js.TrimStart(w) != [] {
      assert false;
    }
  }

  /**
   * A nullable field is null for blank input and for "0" and for words, and it holds any
   * other integer typed in decimal.
   */
  lemma NullableInput(n: int, w: string)
    requires Js.AllSpace(w)
    ensures NullableNumber(w) == None
    ensures NullableNumber("0") == None
    ensures NullableNumber("abc") == None
    ensures n != 0 ==> NullableNumber(Js.IntToString(n)) == Some(n)
  {
    BlankTrims(w);
    Js.ParseIntOfIntToString(n);
    Js.ParseIntOfIntToString(0);
    assert Js.IntToString(0) == "0";
    IntTextTrimmed(n);
    LetterLead("abc");
  }

  /**
   * A mandatory field holds the integer typed in decimal and 0 for blank input or words; the
   * metric is kept exactly as typed.
   */
  lemma MandatoryInput(f: ThresholdField, n: int, w: string, value: string)
    requires !IsNullable(f) && f != RelativeMetric && Js.AllSpace(w)
    ensures Processed(f, Js.IntToString(n)) == Whole(n)
    ensures Processed(f, w) == Whole(0) && Processed(f, "abc") == Whole(0)
    ensures Processed(RelativeMetric, value) == Metric(Str(value))
  {
    Js.ParseIntOfIntToString(n);
    Js.ParseIntBlank(w, false);
    LetterLead("abc");
  }

  // ---------------------------------------------------------------------------------------
  // fetchPreferences
  // ---------------------------------------------------------------------------------------

  /** `getNumberOrNull`, given the value found under the key. */
  function NumberOrNull(val: Option<Value>, d: Option<int>): Option<int>
  {
    if val.None? || val.value == Null then d
    else match val.value
      case Num(n) => Some(n)
      case Str(s) => var p := Js.ParseInt10(s); if p.Some? then p else d
      case _ => d
  }

  /** `getNumberOrDefault`. */
  function NumberOrDefault(val: Option<Value>, d: int): int
  {
    var v := NumberOrNull(val, Some(d));
    if v.None? then d else v.value
  }

  /**
   * The number read from a response value: the default for a missing or null value, for
   * booleans, arrays, objects and text that is not a number, and the number itself.
   */
  lemma NumberReading(n: int, d: Option<int>, v: Value)
    ensures NumberOrNull(None, d) == d && NumberOrNull(Some(Null), d) == d
    ensures NumberOrNull(Some(Num(n)), d) == Some(n)
    ensures NumberOrNull(Some(Str("abc")), d) == d && NumberOrNull(Some(Bool(true)), d) == d
    ensures v.List? || v.Obj? ==> NumberOrNull(Some(v), d) == d
  {
    LetterLead("abc");
  }

  /** A number read with a default is never null, and `getNumberOrDefault` is then that number. */
  lemma NumberNeverNull(e: int, v: Option<Value>)
    ensures NumberOrNull(v, Some(e)).Some? && NumberOrDefault(v, e) == NumberOrNull(v, Some(e)).value
  {
  }

  /** A text holding an integer reads as that integer, and so does one that only starts with it. */
  lemma NumberTextReading(n: int, d: Option<int>, rest: string)
    requires rest == [] || !Js.IsDecimalDigit(rest[0])
    ensures NumberOrNull(Some(Str(Js.IntToString(n))), d) == Some(n)
    ensures n >= 0 ==> NumberOrNull(Some(Str(Js.NatToString(n) + rest)), d) == Some(n)
  {
    Js.ParseIntOfIntToString(n);
    if n >= 0 {
      Js.ParseInt10Prefix(n, rest);
    }
  }

  /** The channel filter is kept when it is a string whose trimmed text starts with `{`. */
  predicate KeepsFilter(raw: Option<Value>)
  {
    raw.Some? && raw.value.Str? && raw.value.s != "" &&
    Js.Trim(raw.value.s) != "" && Js.StartsWith(Js.Trim(raw.value.s), "{")
  }

  function FilterChannels(raw: Option<Value>): string
  {
    if KeepsFilter(raw) then raw.value.s else DefaultFilterChannels
  }

  /** Trimming text that starts with a non-space keeps its first character. */
  lemma TrimKeepsHead(s: string)
    requires s != [] && !Js.IsSpace(s[0])
    ensures Js.Trim(s) != [] && Js.Trim(s)[0] == s[0]
  {
    Js.NoLeadingSpace(s);
    if Js.TrimEnd(s) == [] {
      assert false;
    }
  }

  /**
   * A stored filter that starts with `{` is kept verbatim, and any other one that starts with
   * a non-space character is replaced by the default: so the comma-separated channel list the
   * polling service reads, and the empty text the server answers for a user without one, are
   * both shown as the default. A missing or non-text value is the default too.
   */
  lemma FilterRule(s: string, v: Value)
    requires s != [] && !Js.IsSpace(s[0])
    ensures FilterChannels(Some(Str(s))) == s <==> s[0] == '{'
    ensures FilterChannels(Some(Str(""))) == DefaultFilterChannels
    ensures FilterChannels(None) == DefaultFilterChannels
    ensures !v.Str? ==> FilterChannels(Some(v)) == DefaultFilterChannels
    ensures FilterChannels(Some(Str(DefaultFilterChannels))) == DefaultFilterChannels
  {
    TrimKeepsHead(s);
    var t := Js.Trim(s);
    assert Js.StartsWith(t, "{") <==> t[0] == '{' by {
      assert t[..1] == [t[0]];
    }
    assert DefaultFilterChannels[0] == '{';
    TrimKeepsHead(DefaultFilterChannels);
    assert Js.Trim(DefaultFilterChannels)[..1] == "{";
  }

  /** The response key of each field. */
  type Names = ThresholdField -> string

  /** The keys the store reads the response with. */
  function CamelName(f: ThresholdField): string
  {
    match f
    case Views => "thresholdViews"
    case Likes => "thresholdLikes"
    case Comments => "thresholdComments"
    case Velocity => "thresholdVelocity"
    case RelativePercent => "thresholdRelativeViewPerformancePercent"
    case RelativeMetric => "thresholdRelativeViewMetric"
    case ViewsWindow => "thresholdViewsTimeWindowHours"
    case LikesWindow => "thresholdLikesTimeWindowHours"
    case CommentsWindow => "thresholdCommentsTimeWindowHours"
  }

  /** The column names the store declares (with no overriding build variable set), which the server answers with. */
  function ColumnName(f: ThresholdField): string
  {
    match f
    case Views => "threshold_views"
    case Likes => "threshold_likes"
    case Comments => "threshold_comments"
    case Velocity => "threshold_velocity"
    case RelativePercent => "threshold_relative_view_performance_percent"
    case RelativeMetric => "threshold_relative_view_metric"
    case ViewsWindow => "threshold_views_time_window_hours"
    case LikesWindow => "threshold_likes_time_window_hours"
    case CommentsWindow => "threshold_comments_time_window_hours"
  }

  const FilterCamelName: string := "filterChannels"
  const FilterColumnName: string := "filter_channels"

  /** The thresholds built from the response body, reading each field under `name`. */
  function ReadThresholds(data: map<string, Value>, name: Names): Thresholds
  {
    Thresholds(
      NumberOrDefault(Lookup(data, name(Views)), DefaultThresholds.views),
      NumberOrDefault(Lookup(data, name(Likes)), DefaultThresholds.likes),
      NumberOrDefault(Lookup(data, name(Comments)), DefaultThresholds.comments),
      NumberOrDefault(Lookup(data, name(Velocity)), DefaultThresholds.velocity),
      NumberOrNull(Lookup(data, name(RelativePercent)), DefaultThresholds.relativePercent),
      OrNullish(Lookup(data, name(RelativeMetric)), DefaultThresholds.relativeMetric),
      NumberOrNull(Lookup(data, name(ViewsWindow)), DefaultThresholds.viewsWindow),
      NumberOrNull(Lookup(data, name(LikesWindow)), DefaultThresholds.likesWindow),
      NumberOrNull(Lookup(data, name(CommentsWindow)), DefaultThresholds.commentsWindow))
  }

  /** Thresholds and channel filter read as written: under the camel-case keys. */
  function FetchedAsWritten(data: map<string, Value>): (Thresholds, string)
  {
    (ReadThresholds(data, CamelName), FilterChannels(Lookup(data, FilterCamelName)))
  }

  /** Thresholds and channel filter read as intended: under the column names the response carries. */
  function Fetched(data: map<string, Value>): (Thresholds, string)
  {
    (ReadThresholds(data, ColumnName), FilterChannels(Lookup(data, FilterColumnName)))
  }

  /** A failed request, or the response body (None when it is null, which reads as `{}`). */
  datatype FetchResponse = FetchFailed | Loaded(data: Option<map<string, Value>>)

  /** What loading leaves in `thresholds` and `filters`, reading the body as written. */
  function FetchOutcome(token: Option<string>, response: FetchResponse): (Thresholds, string)
  {
    if token.None? || token.value == "" then (DefaultThresholds, DefaultFilterChannels)
    else match response
      case FetchFailed => (DefaultThresholds, DefaultFilterChannels)
      case Loaded(data) => FetchedAsWritten(if data.Some? then data.value else map[])
  }

  /** With no token, or when the request fails, both sections get their defaults. */
  lemma FetchFallsBack(response: FetchResponse)
    ensures FetchOutcome(None, response) == FetchOutcome(Some(""), response) ==
            (DefaultThresholds, DefaultFilterChannels)
    ensures FetchOutcome(Some("t"), FetchFailed) == (DefaultThresholds, DefaultFilterChannels)
  {
  }

  /** The server's alert-preference answer for a stored record (its default column names). */
  function Answer(record: map<string, Value>): map<string, Value>
  {
    UserController.AlertPreferences(record, map[])
  }

  /** No camel-case key of the store is a key of the server's answer. */
  lemma AnswerHasNoCamelKeys(record: map<string, Value>, f: ThresholdField)
    ensures CamelName(f) !in Answer(record) && FilterCamelName !in Answer(record)
  {
    UserController.AlertPreferenceDefaults(record);
    CamelShape(f);
    NotAnAnswerKey(CamelName(f));
    NotAnAnswerKey(FilterCamelName);
  }

  /** No camel-case name has `_` at position 6 or 9. */
  lemma CamelShape(f: ThresholdField)
    ensures |CamelName(f)| > 9 && CamelName(f)[6] != '_' && CamelName(f)[9] != '_'
  {
    match f
    case Views =>
    case Likes =>
    case Comments =>
    case Velocity =>
    case RelativePercent =>
    case RelativeMetric =>
    case ViewsWindow =>
    case LikesWindow =>
    case CommentsWindow =>
  }

  /** Every answer key has `_` at position 6 or 9. */
  lemma NotAnAnswerKey(k: string)
    requires |k| > 9 && k[6] != '_' && k[9] != '_'
    ensures k !in {"threshold_views", "threshold_likes", "threshold_comments", "threshold_velocity",
                   "filter_channels", "filter_niches", "filter_hashtags"}
  {
    assert "threshold_views"[9] == '_' && "threshold_likes"[9] == '_';
    assert "threshold_comments"[9] == '_' && "threshold_velocity"[9] == '_';
    assert "filter_channels"[6] == '_' && "filter_niches"[6] == '_' && "filter_hashtags"[6] == '_';
  }

  /**
   * As written, whatever the user has stored, loading shows the store's default thresholds
   * and the default channel filter.
   */
  lemma FetchAsWrittenShowsDefaults(record: map<string, Value>)
    ensures FetchedAsWritten(Answer(record)) == (DefaultThresholds, DefaultFilterChannels)
  {
    var a := Answer(record);
    forall f
      ensures CamelName(f) !in a
    {
      AnswerHasNoCamelKeys(record, f);
    }
    AnswerHasNoCamelKeys(record, Views);
  }

  /**
   * So the store's own load, with a token and a successful answer, leaves the defaults in
   * both sections whatever the user has stored.
   */
  lemma LoadShowsDefaults(token: string, record: map<string, Value>)
    requires token != ""
    ensures FetchOutcome(Some(token), Loaded(Some(Answer(record)))) == (DefaultThresholds, DefaultFilterChannels)
  {
    FetchAsWrittenShowsDefaults(record);
  }

  /**
   * Read under the column names, loading shows the four stored thresholds (the server's
   * defaults for a user without them) and a stored `{`-led channel filter; the fields the
   * server does not answer with keep the store's defaults.
   */
  lemma FetchShowsStored(record: map<string, Value>, views: int, likes: int, comments: int, velocity: int)
    requires Lookup(record, "threshold_views") == Some(Num(views))
    requires Lookup(record, "threshold_likes") == Some(Num(likes))
    requires Lookup(record, "threshold_comments") == Some(Num(comments))
    requires Lookup(record, "threshold_velocity") == Some(Num(velocity))
    ensures var t := Fetched(Answer(record)).0;
            t.views == views && t.likes == likes && t.comments == comments && t.velocity == velocity &&
            t.relativePercent == None && t.viewsWindow == None && t.likesWindow == None &&
            t.commentsWindow == None && t.relativeMetric == DefaultMetric
  {
    AnswerLookups(record);
  }

  /** A user who never saved thresholds is shown the server's defaults, not the store's. */
  lemma FetchFreshUser()
    ensures Fetched(Answer(map[])).0 == DefaultThresholds.(views := 10000, likes := 1000, comments := 100, velocity := 500)
  {
    AnswerLookups(map[]);
  }

  /** The server's answer under the store's column names: four thresholds, and none of the other five fields. */
  lemma AnswerLookups(record: map<string, Value>)
    ensures Lookup(Answer(record), ColumnName(Views)) == Some(OrNullish(Lookup(record, "threshold_views"), Num(10000)))
    ensures Lookup(Answer(record), ColumnName(Likes)) == Some(OrNullish(Lookup(record, "threshold_likes"), Num(1000)))
    ensures Lookup(Answer(record), ColumnName(Comments)) == Some(OrNullish(Lookup(record, "threshold_comments"), Num(100)))
    ensures Lookup(Answer(record), ColumnName(Velocity)) == Some(OrNullish(Lookup(record, "threshold_velocity"), Num(500)))
    ensures forall f :: IsNullable(f) || f == RelativeMetric ==> ColumnName(f) !in Answer(record)
  {
    UserController.AlertPreferenceDefaults(record);
    forall f | IsNullable(f) || f == RelativeMetric
      ensures ColumnName(f) !in Answer(record)
    {
      assert |ColumnName(f)| > 18;
    }
  }

  /** A stored `{`-led channel filter is shown as stored once the column name is read. */
  lemma FetchShowsFilter(record: map<string, Value>, s: string)
    requires Lookup(record, "filter_channels") == Some(Str(s)) && s != [] && s[0] == '{'
    ensures Fetched(Answer(record)).1 == s
    ensures FetchedAsWritten(Answer(record)).1 == DefaultFilterChannels
  {
    UserController.AlertPreferenceDefaults(record);
    FilterRule(s, Null);
    AnswerHasNoCamelKeys(record, Views);
  }

  // ---------------------------------------------------------------------------------------
  // saveThresholds and resetThresholds
  // ---------------------------------------------------------------------------------------

  function NumberOrNullValue(o: Option<int>): Value
  {
    if o.Some? then Num(o.value) else Null
  }

  /** The camel-case payload of a save or a reset. */
  function Payload(t: Thresholds, filterChannels: string): map<string, Value>
  {
    map["thresholdViews" := Num(t.views), "thresholdLikes" := Num(t.likes),
        "thresholdComments" := Num(t.comments), "thresholdVelocity" := Num(t.velocity),
        "thresholdRelativeViewPerformancePercent" := NumberOrNullValue(t.relativePercent),
        "thresholdRelativeViewMetric" := t.relativeMetric,
        "thresholdViewsTimeWindowHours" := NumberOrNullValue(t.viewsWindow),
        "thresholdLikesTimeWindowHours" := NumberOrNullValue(t.likesWindow),
        "thresholdCommentsTimeWindowHours" := NumberOrNullValue(t.commentsWindow),
        "filterChannels" := Str(filterChannels)]
  }

  /** The request body as the server's update handler destructures it. */
  function BodyOf(payload: map<string, Value>): UserController.AlertPreferencesBody
  {
    UserController.AlertPreferencesBody(
      Lookup(payload, "thresholdViews"), Lookup(payload, "thresholdLikes"),
      Lookup(payload, "thresholdComments"), Lookup(payload, "thresholdVelocity"),
      Lookup(payload, "filterChannels"), Lookup(payload, "filterNiches"), Lookup(payload, "filterHashtags"))
  }

  /**
   * A save stores the four thresholds and the channel filter under their columns and nothing
   * else: the relative-performance and time-window settings are dropped by the server, and the
   * niche and hashtag filters are left as they were.
   */
  lemma SaveStores(t: Thresholds, filterChannels: string)
    ensures var d := UserController.Fill(UserController.AlertPreferenceSlots(BodyOf(Payload(t, filterChannels)), map[]));
            UserController.Writes(d, "threshold_views", Some(UserController.Raw(Num(t.views)))) &&
            UserController.Writes(d, "threshold_likes", Some(UserController.Raw(Num(t.likes)))) &&
            UserController.Writes(d, "threshold_comments", Some(UserController.Raw(Num(t.comments)))) &&
            UserController.Writes(d, "threshold_velocity", Some(UserController.Raw(Num(t.velocity)))) &&
            UserController.Writes(d, "filter_channels", Some(UserController.Raw(Str(filterChannels)))) &&
            "filter_niches" !in d && "filter_hashtags" !in d &&
            d.Keys <= {"threshold_views", "threshold_likes", "threshold_comments", "threshold_velocity",
                       "filter_channels", "filter_niches", "filter_hashtags"}
  {
    PayloadBody(t, filterChannels);
    var b := BodyOf(Payload(t, filterChannels));
    UserController.AlertPreferencesWritten(b);
    UserController.ThresholdMeaning(t.views);
    UserController.ThresholdMeaning(t.likes);
    UserController.ThresholdMeaning(t.comments);
    UserController.ThresholdMeaning(t.velocity);
  }

  /** The server reads the four thresholds and the channel filter from a save's payload, and no other filter. */
  lemma PayloadBody(t: Thresholds, filterChannels: string)
    ensures BodyOf(Payload(t, filterChannels)) ==
            UserController.AlertPreferencesBody(Some(Num(t.views)), Some(Num(t.likes)), Some(Num(t.comments)),
              Some(Num(t.velocity)), Some(Str(filterChannels)), None, None)
  {
    var p := Payload(t, filterChannels);
    assert "filterNiches" !in p && "filterHashtags" !in p;
  }

  class Store {
    var thresholds: Option<Thresholds>
    /** `filters.filterChannels`, or None while `filters` is null. */
    var filters: Option<string>
    var isLoading: bool
    var isSavingThresholds: bool
    var isResettingThresholds: bool

    constructor()
      ensures thresholds == None && filters == Some(DefaultFilterChannels)
      ensures isLoading && !isSavingThresholds && !isResettingThresholds
    {
      thresholds := None;
      filters := Some(DefaultFilterChannels);
      isLoading := true;
      isSavingThresholds := false;
      isResettingThresholds := false;
    }

    /** `fetchPreferences`: both sections become the loaded ones, or the defaults. */
    method FetchPreferences(token: Option<string>, response: FetchResponse)
      modifies this
      ensures thresholds == Some(FetchOutcome(token, response).0) && filters == Some(FetchOutcome(token, response).1)
      ensures !isLoading && isSavingThresholds == old(isSavingThresholds)
      ensures isResettingThresholds == old(isResettingThresholds)
    {
      if token.None? || token.value == "" {
        isLoading, thresholds, filters := false, Some(DefaultThresholds), Some(DefaultFilterChannels);
        return;
      }
      isLoading := true;
      match response {
        case FetchFailed =>
          thresholds, filters := Some(DefaultThresholds), Some(DefaultFilterChannels);
        case Loaded(data) =>
          var body := if data.Some? then data.value else map[];
          var fetched := FetchedAsWritten(body);
          thresholds, filters := Some(fetched.0), Some(fetched.1);
      }
      isLoading := false;
    }

    /** `setThresholdField`: nothing while unloaded, otherwise only the named field changes. */
    method SetThresholdField(f: ThresholdField, value: string)
      modifies this
      ensures thresholds == if old(thresholds).Some? then Some(SetField(old(thresholds).value, f, value)) else None
      ensures filters == old(filters) && isLoading == old(isLoading)
      ensures isSavingThresholds == old(isSavingThresholds) && isResettingThresholds == old(isResettingThresholds)
    {
      if thresholds.Some? {
        thresholds := Some(SetField(thresholds.value, f, value));
      }
    }

    /** `setFilterField`: the channel filter takes the text, and stays null when null. */
    method SetFilterField(value: string)
      modifies this
      ensures filters == if old(filters).Some? then Some(value) else None
      ensures thresholds == old(thresholds) && isLoading == old(isLoading)
      ensures isSavingThresholds == old(isSavingThresholds) && isResettingThresholds == old(isResettingThresholds)
    {
      if filters.Some? {
        filters := Some(value);
      }
    }

    /**
     * `saveThresholds`: without a token or either section nothing is sent; otherwise the whole
     * state is sent and the saving flag ends false, whatever the request's outcome.
     */
    method SaveThresholds(token: Option<string>) returns (sent: Option<map<string, Value>>)
      modifies this
      ensures token.None? || token.value == "" || old(thresholds).None? || old(filters).None? ==>
                sent.None? && isSavingThresholds == old(isSavingThresholds)
      ensures token.Some? && token.value != "" && old(thresholds).Some? && old(filters).Some? ==>
                sent == Some(Payload(old(thresholds).value, old(filters).value)) && !isSavingThresholds
      ensures thresholds == old(thresholds) && filters == old(filters) && isLoading == old(isLoading)
      ensures isResettingThresholds == old(isResettingThresholds)
    {
      if token.None? || token.value == "" || thresholds.None? || filters.None? {
        return None;
      }
      isSavingThresholds := true;
      sent := Some(Payload(thresholds.value, filters.value));
      isSavingThresholds := false;
    }

    /**
     * `resetThresholds`: both sections take their defaults before anything is sent, and keep
     * them whether or not the save succeeds; with a token, the defaults are sent.
     */
    method ResetThresholds(token: Option<string>, saveOk: bool) returns (sent: Option<map<string, Value>>)
      modifies this
      ensures thresholds == Some(DefaultThresholds) && filters == Some(DefaultFilterChannels)
      ensures sent == if token.None? || token.value == "" then None
                      else Some(Payload(DefaultThresholds, DefaultFilterChannels))
      ensures !isResettingThresholds && isLoading == old(isLoading)
      ensures isSavingThresholds == old(isSavingThresholds)
    {
      isResettingThresholds, thresholds, filters := true, Some(DefaultThresholds), Some(DefaultFilterChannels);
      if token.None? || token.value == "" {
        isResettingThresholds := false;
        return None;
      }
      sent := Some(Payload(DefaultThresholds, DefaultFilterChannels));
      // A failed save is reported and nothing is reverted.
      isResettingThresholds := false;
    }
  }
}
