/**
 * The trend detector: `_doesVideoMeetCriteria` matches one video against a channel group's
 * thresholds, and `checkForTrendsAndAlertUsers` walks users, their channel groups, each
 * group's channels and each channel's recent videos, recording an alert for every match.
 * The recent-video fetch, the alert insert and the clock are inputs; `JSON.parse` of the
 * `filter_channels` column is given as its parsed shape.
 */
module TrendDetection {
  import opened Wrappers
  import Js

  const HourMs: nat := 3600000
  const DefaultHoursFilter: int := 24

  datatype Snippet = Snippet(publishedAt: Option<int>, title: string, channelId: string, channelTitle: string)

  /** The statistics strings as YouTube returns them; `None` is an absent count. */
  datatype Statistics = Statistics(viewCount: Option<string>, likeCount: Option<string>, commentCount: Option<string>)

  /** A video object; an empty `id` is a missing one. `publishedAt` is `None` when it is not a date. */
  datatype Video = Video(id: string, snippet: Option<Snippet>, statistics: Option<Statistics>)

  /** The supported numeric group parameters; `None` is `undefined`. */
  datatype Params = Params(minViews: Option<int>, minLikes: Option<int>, minComments: Option<int>, likeViewRatio: Option<real>)

  datatype Param = MinViews | MinLikes | MinComments | LikeViewRatio

  /** What `matchedParams` records for a met parameter (its `Met (…)` text, before rendering). */
  datatype MatchNote = CountMet(actual: int, threshold: int) | RatioMet(ratio: real, minRatio: real)

  type Matched = map<Param, MatchNote>

  /** `parseInt(count, 10) || 0`. */
  function Count(s: Option<string>): int
  {
    if s.None? then 0 else Js.OrDefault(Js.ParseInt10(s.value), 0)
  }

  predicate WellFormed(v: Video)
  {
    v.id != "" && v.snippet.Some? && v.statistics.Some?
  }

  /** `videoPublishedDate <= publishedAfterDate`; an invalid date compares false. */
  predicate TooOld(v: Video, after: int)
    requires v.snippet.Some?
  {
    v.snippet.value.publishedAt.Some? && v.snippet.value.publishedAt.value <= after
  }

  /** The thresholds, declaratively: each defined minimum holds, and a defined ratio needs views. */
  predicate Accepts(p: Params, views: int, likes: int, comments: int)
  {
    (p.minViews.Some? ==> views >= p.minViews.value) &&
    (p.minLikes.Some? ==> likes >= p.minLikes.value) &&
    (p.minComments.Some? ==> comments >= p.minComments.value) &&
    (p.likeViewRatio.Some? ==> views != 0 && (views > 0 ==> likes as real / views as real >= p.likeViewRatio.value))
  }

  /** The map of met parameters, for thresholds that all hold. */
  function MatchedFor(p: Params, views: int, likes: int, comments: int): Matched
  {
    var m1: Matched := if p.minViews.Some? then map[MinViews := CountMet(views, p.minViews.value)] else map[];
    var m2 := if p.minLikes.Some? then m1[MinLikes := CountMet(likes, p.minLikes.value)] else m1;
    var m3 := if p.minComments.Some? then m2[MinComments := CountMet(comments, p.minComments.value)] else m2;
    if p.likeViewRatio.Some? && views > 0 then m3[LikeViewRatio := RatioMet(likes as real / views as real, p.likeViewRatio.value)] else m3
  }

  /** The threshold part of `_doesVideoMeetCriteria` on parsed counts: `None` is `false`. */
  function Thresholds(p: Params, views: int, likes: int, comments: int): Option<Matched>
  {
    if Accepts(p, views, likes, comments) then Some(MatchedFor(p, views, likes, comments)) else None
  }

  /** `_doesVideoMeetCriteria` as a function. */
  function MeetCriteria(v: Video, p: Params, after: int): Option<Matched>
  {
    if !WellFormed(v) || TooOld(v, after) then None
    else
      var st := v.statistics.value;
      Thresholds(p, Count(st.viewCount), Count(st.likeCount), Count(st.commentCount))
  }

  /** The checks of `_doesVideoMeetCriteria`: `matchedParams` and `criteriaMet` built one by one. */
  method CheckThresholds(p: Params, views: int, likes: int, comments: int) returns (r: Option<Matched>)
    ensures r == Thresholds(p, views, likes, comments)
  {
    var matched: Matched := map[];
    var criteriaMet := true;
    if p.minViews.Some? && views < p.minViews.value {
      criteriaMet := false;
    } else if p.minViews.Some? {
      matched := matched[MinViews := CountMet(views, p.minViews.value)];
    }
    if p.minLikes.Some? && likes < p.minLikes.value {
      criteriaMet := false;
    } else if p.minLikes.Some? {
      matched := matched[MinLikes := CountMet(likes, p.minLikes.value)];
    }
    if p.minComments.Some? && comments < p.minComments.value {
      criteriaMet := false;
    } else if p.minComments.Some? {
      matched := matched[MinComments := CountMet(comments, p.minComments.value)];
    }
    if p.likeViewRatio.Some? && views > 0 {
      var ratio := likes as real / views as real;
      if ratio < p.likeViewRatio.value {
        criteriaMet := false;
      } else {
        matched := matched[LikeViewRatio := RatioMet(ratio, p.likeViewRatio.value)];
      }
    } else if p.likeViewRatio.Some? && views == 0 {
      criteriaMet := false;
    }
    r := if criteriaMet then Some(matched) else None;
  }

  /** `_doesVideoMeetCriteria`: shape check, date check, count parsing, then the thresholds. */
  method DoesVideoMeetCriteria(v: Video, p: Params, after: int) returns (r: Option<Matched>)
    ensures r == MeetCriteria(v, p, after)
  {
    if v.snippet.None? || v.statistics.None? || v.id == "" {
      return None;
    }
    if v.snippet.value.publishedAt.Some? && v.snippet.value.publishedAt.value <= after {
      return None;
    }
    var views := Count(v.statistics.value.viewCount);
    var likes := Count(v.statistics.value.likeCount);
    var comments := Count(v.statistics.value.commentCount);
    r := CheckThresholds(p, views, likes, comments);
  }

  /** A video missing its id, snippet or statistics, or published at or before the cut-off, never matches. */
  lemma RejectsMalformedAndOld(v: Video, p: Params, after: int)
    ensures !WellFormed(v) ==> MeetCriteria(v, p, after).None?
    ensures WellFormed(v) && v.snippet.value.publishedAt.Some? && v.snippet.value.publishedAt.value <= after ==>
            MeetCriteria(v, p, after).None?
  {
  }

  /**
   * Thresholds on parsed counts: a match holds every defined minimum and, with a ratio
   * defined, non-zero views; it records exactly the defined minimums, plus the ratio when
   * there are views. Conversely, counts meeting every defined check always match.
   */
  lemma MatchedKeys(p: Params, views: int, likes: int, comments: int)
    ensures Thresholds(p, views, likes, comments).Some? <==> Accepts(p, views, likes, comments)
    ensures var r := Thresholds(p, views, likes, comments);
            r.Some? ==>
            var m := r.value;
            (MinViews in m <==> p.minViews.Some?) &&
            (MinLikes in m <==> p.minLikes.Some?) &&
            (MinComments in m <==> p.minComments.Some?) &&
            (LikeViewRatio in m <==> p.likeViewRatio.Some? && views > 0) &&
            (p.minViews.Some? ==> views >= p.minViews.value && m[MinViews] == CountMet(views, p.minViews.value)) &&
            (p.minLikes.Some? ==> likes >= p.minLikes.value && m[MinLikes] == CountMet(likes, p.minLikes.value)) &&
            (p.minComments.Some? ==> comments >= p.minComments.value && m[MinComments] == CountMet(comments, p.minComments.value)) &&
            (p.likeViewRatio.Some? ==> views != 0)
  {
  }

  /** With a ratio required and zero views the video is rejected, whatever else holds. */
  lemma RatioNeedsViews(v: Video, p: Params, after: int)
    requires p.likeViewRatio.Some?
    ensures WellFormed(v) && Count(v.statistics.value.viewCount) == 0 ==> MeetCriteria(v, p, after).None?
  {
  }

  /** Missing or non-numeric counts read as 0. */
  lemma MissingCountsAreZero(s: string)
    requires Js.ParseInt10(s).None?
    ensures Count(None) == 0 && Count(Some(s)) == 0
  {
  }

  /** A group with none of the four supported parameters yields an empty map, never an alert. */
  lemma InertParamsMatchNothing(v: Video, p: Params, after: int)
    requires p.minViews.None? && p.minLikes.None? && p.minComments.None? && p.likeViewRatio.None?
    ensures MeetCriteria(v, p, after).Some? ==> |MeetCriteria(v, p, after).value| == 0
  {
  }

  // ---------------------------------------------------------------------------------------
  // The walk over users, groups, channels and videos.

  datatype Group = Group(id: Option<string>, name: string, channels: Option<seq<string>>, params: Option<Params>)

  /** `JSON.parse(user.filter_channels)`, by shape: blank, not JSON, not an array, or groups. */
  datatype FilterChannels = Blank | BadJson | NotArray | Groups(groups: seq<Group>)

  datatype TrendUser = TrendUser(id: nat, filterChannels: FilterChannels, hoursFilter: Option<int>)

  /** The TriggeredAlerts row the detector inserts (status PENDING_NOTIFICATION). */
  datatype Alert = Alert(userId: nat, videoId: string, groupId: Option<string>, groupName: string,
                         matched: Matched, views: int, likes: int, comments: int)

  /** The outside world: recent videos per channel and cut-off (`None` when the fetch throws), and failing inserts. */
  datatype World = World(recent: (string, int) -> Option<seq<Video>>, insertFails: (nat, string) -> bool)

  /** `user.videos_published_within_hours_filter || 24`. */
  function HoursFilter(h: Option<int>): (r: int)
    ensures h.None? || h.value == 0 ==> r == DefaultHoursFilter
  {
    if h.Some? && h.value != 0 then h.value else DefaultHoursFilter
  }

  /** `Date.now() - hoursFilter * 60 * 60 * 1000`. */
  function PublishedAfter(u: TrendUser, now: int): int
  {
    now - HoursFilter(u.hoursFilter) * HourMs
  }

  /** The alert for a match, or nothing when the video does not match or the insert fails. */
  function VideoAlert(u: TrendUser, g: Group, after: int, v: Video, w: World): seq<Alert>
    requires g.params.Some?
  {
    if v.id == "" then []
    else
      var m := MeetCriteria(v, g.params.value, after);
      if m.None? || |m.value| == 0 || w.insertFails(u.id, v.id) then []
      else
        var st := v.statistics.value;
        [Alert(u.id, v.id, g.id, g.name, m.value, Count(st.viewCount), Count(st.likeCount), Count(st.commentCount))]
  }

  function VideoAlerts(u: TrendUser, g: Group, after: int, vs: seq<Video>, w: World): seq<Alert>
    requires g.params.Some?
  {
    if |vs| == 0 then [] else VideoAlerts(u, g, after, vs[..|vs| - 1], w) + VideoAlert(u, g, after, vs[|vs| - 1], w)
  }

  function ChannelAlerts(u: TrendUser, g: Group, after: int, chans: seq<string>, w: World): seq<Alert>
    requires g.params.Some?
  {
    if |chans| == 0 then []
    else
      var vs := w.recent(chans[|chans| - 1], after);
      ChannelAlerts(u, g, after, chans[..|chans| - 1], w) + (if vs.None? then [] else VideoAlerts(u, g, after, vs.value, w))
  }

  /** `!group.channels || group.channels.length === 0 || !group.params`. */
  predicate GroupSkipped(g: Group)
  {
    g.channels.None? || |g.channels.value| == 0 || g.params.None?
  }

  function GroupAlerts(u: TrendUser, after: int, gs: seq<Group>, w: World): seq<Alert>
  {
    if |gs| == 0 then []
    else
      var g := gs[|gs| - 1];
      GroupAlerts(u, after, gs[..|gs| - 1], w) + (if GroupSkipped(g) then [] else ChannelAlerts(u, g, after, g.channels.value, w))
  }

  /** `filter_channels` that is blank, not JSON, not an array or an empty array skips the user. */
  predicate UserSkipped(u: TrendUser)
  {
    !u.filterChannels.Groups? || |u.filterChannels.groups| == 0
  }

  function UserAlerts(u: TrendUser, now: int, w: World): seq<Alert>
  {
    if UserSkipped(u) then [] else GroupAlerts(u, PublishedAfter(u, now), u.filterChannels.groups, w)
  }

  function AllAlerts(users: seq<TrendUser>, now: int, w: World): seq<Alert>
  {
    if |users| == 0 then [] else AllAlerts(users[..|users| - 1], now, w) + UserAlerts(users[|users| - 1], now, w)
  }

  /** `checkForTrendsAndAlertUsers`: nothing when the store is not ready or the user query fails. */
  function CheckForTrends(ready: bool, users: Option<seq<TrendUser>>, now: int, w: World): seq<Alert>
  {
    if !ready || users.None? then [] else AllAlerts(users.value, now, w)
  }

  // Properties of the walk.

  predicate AllMatched(alerts: seq<Alert>)
  {
    forall k :: 0 <= k < |alerts| ==> |alerts[k].matched| > 0
  }

  predicate Inert(p: Params)
  {
    p.minViews.None? && p.minLikes.None? && p.minComments.None? && p.likeViewRatio.None?
  }

  lemma {:induction false} VideoAlertsMatched(u: TrendUser, g: Group, after: int, vs: seq<Video>, w: World)
    requires g.params.Some?
    ensures AllMatched(VideoAlerts(u, g, after, vs, w))
    ensures Inert(g.params.value) ==> VideoAlerts(u, g, after, vs, w) == []
  {
    if |vs| > 0 {
      VideoAlertsMatched(u, g, after, vs[..|vs| - 1], w);
      if Inert(g.params.value) {
        InertParamsMatchNothing(vs[|vs| - 1], g.params.value, after);
      }
    }
  }

  lemma {:induction false} ChannelAlertsMatched(u: TrendUser, g: Group, after: int, chans: seq<string>, w: World)
    requires g.params.Some?
    ensures AllMatched(ChannelAlerts(u, g, after, chans, w))
    ensures Inert(g.params.value) ==> ChannelAlerts(u, g, after, chans, w) == []
  {
    if |chans| > 0 {
      ChannelAlertsMatched(u, g, after, chans[..|chans| - 1], w);
      var vs := w.recent(chans[|chans| - 1], after);
      if vs.Some? {
        VideoAlertsMatched(u, g, after, vs.value, w);
      }
    }
  }

  lemma {:induction false} GroupAlertsMatched(u: TrendUser, after: int, gs: seq<Group>, w: World)
    ensures AllMatched(GroupAlerts(u, after, gs, w))
    ensures (forall i :: 0 <= i < |gs| && gs[i].params.Some? ==> Inert(gs[i].params.value)) ==> GroupAlerts(u, after, gs, w) == []
  {
    if |gs| > 0 {
      GroupAlertsMatched(u, after, gs[..|gs| - 1], w);
      var g := gs[|gs| - 1];
      if !GroupSkipped(g) {
        ChannelAlertsMatched(u, g, after, g.channels.value, w);
      }
    }
  }

  /** Every recorded alert carries a non-empty map of met parameters. */
  lemma {:induction false} AllAlertsMatched(users: seq<TrendUser>, now: int, w: World)
    ensures AllMatched(AllAlerts(users, now, w))
  {
    if |users| > 0 {
      AllAlertsMatched(users[..|users| - 1], now, w);
      var u := users[|users| - 1];
      if !UserSkipped(u) {
        GroupAlertsMatched(u, PublishedAfter(u, now), u.filterChannels.groups, w);
      }
    }
  }

  /**
   * A user is skipped when `filter_channels` is blank, not JSON, not an array (such as the
   * `{"groups": …}` object) or an empty array; groups without channels or params add nothing;
   * groups whose params support none of the four checks never trigger.
   */
  lemma SkipRules(u: TrendUser, now: int, w: World)
    ensures UserSkipped(u) ==> UserAlerts(u, now, w) == []
    ensures u.filterChannels.Groups? &&
            (forall i :: 0 <= i < |u.filterChannels.groups| ==>
               GroupSkipped(u.filterChannels.groups[i]) || Inert(u.filterChannels.groups[i].params.value)) ==>
            UserAlerts(u, now, w) == []
  {
    if u.filterChannels.Groups? && !UserSkipped(u) {
      GroupAlertsMatched(u, PublishedAfter(u, now), u.filterChannels.groups, w);
      GroupsInertOrSkipped(u, PublishedAfter(u, now), u.filterChannels.groups, w);
    }
  }

  lemma {:induction false} GroupsInertOrSkipped(u: TrendUser, after: int, gs: seq<Group>, w: World)
    ensures (forall i :: 0 <= i < |gs| ==> GroupSkipped(gs[i]) || Inert(gs[i].params.value)) ==> GroupAlerts(u, after, gs, w) == []
  {
    if |gs| > 0 && forall i :: 0 <= i < |gs| ==> GroupSkipped(gs[i]) || Inert(gs[i].params.value) {
      GroupsInertOrSkipped(u, after, gs[..|gs| - 1], w);
      var g := gs[|gs| - 1];
      if !GroupSkipped(g) {
        ChannelAlertsMatched(u, g, after, g.channels.value, w);
      }
    }
  }

  /** The published-within window defaults to 24 hours when the column is unset or 0. */
  lemma DefaultWindow(u: TrendUser, now: int)
    requires u.hoursFilter.None? || u.hoursFilter.value == 0
    ensures PublishedAfter(u, now) == now - 24 * 3600000
  {
  }

  // The loops.

  method CheckVideos(u: TrendUser, g: Group, after: int, vs: seq<Video>, w: World) returns (alerts: seq<Alert>)
    requires g.params.Some?
    ensures alerts == VideoAlerts(u, g, after, vs, w)
  {
    alerts := [];
    var i := 0;
    while i < |vs|
      invariant 0 <= i <= |vs|
      invariant alerts == VideoAlerts(u, g, after, vs[..i], w)
    {
      assert vs[..i + 1][..i] == vs[..i];
      var v := vs[i];
      if v.id != "" {
        var m := DoesVideoMeetCriteria(v, g.params.value, after);
        if m.Some? && |m.value| > 0 && !w.insertFails(u.id, v.id) {
          var st := v.statistics.value;
          alerts := alerts + [Alert(u.id, v.id, g.id, g.name, m.value, Count(st.viewCount), Count(st.likeCount), Count(st.commentCount))];
        }
      }
      i := i + 1;
    }
    assert vs[..|vs|] == vs;
  }

  method CheckChannels(u: TrendUser, g: Group, after: int, chans: seq<string>, w: World) returns (alerts: seq<Alert>)
    requires g.params.Some?
    ensures alerts == ChannelAlerts(u, g, after, chans, w)
  {
    alerts := [];
    var i := 0;
    while i < |chans|
      invariant 0 <= i <= |chans|
      invariant alerts == ChannelAlerts(u, g, after, chans[..i], w)
    {
      assert chans[..i + 1][..i] == chans[..i];
      var recent := w.recent(chans[i], after);
      if recent.Some? {
        var found := CheckVideos(u, g, after, recent.value, w);
        alerts := alerts + found;
      }
      i := i + 1;
    }
    assert chans[..|chans|] == chans;
  }

  method CheckGroups(u: TrendUser, after: int, gs: seq<Group>, w: World) returns (alerts: seq<Alert>)
    ensures alerts == GroupAlerts(u, after, gs, w)
  {
    alerts := [];
    var i := 0;
    while i < |gs|
      invariant 0 <= i <= |gs|
      invariant alerts == GroupAlerts(u, after, gs[..i], w)
    {
      assert gs[..i + 1][..i] == gs[..i];
      var g := gs[i];
      if !(g.channels.None? || |g.channels.value| == 0 || g.params.None?) {
        var found := CheckChannels(u, g, after, g.channels.value, w);
        alerts := alerts + found;
      }
      i := i + 1;
    }
    assert gs[..|gs|] == gs;
  }

  /** `checkForTrendsAndAlertUsers`: the alerts it inserts, in insertion order. */
  method CheckForTrendsAndAlertUsers(ready: bool, users: Option<seq<TrendUser>>, now: int, w: World) returns (alerts: seq<Alert>)
    ensures alerts == CheckForTrends(ready, users, now, w)
    ensures AllMatched(alerts)
  {
    alerts := [];
    if !ready || users.None? {
      return;
    }
    var us := users.value;
    var i := 0;
    while i < |us|
      invariant 0 <= i <= |us|
      invariant alerts == AllAlerts(us[..i], now, w)
    {
      assert us[..i + 1][..i] == us[..i];
      var u := us[i];
      if u.filterChannels.Groups? && |u.filterChannels.groups| > 0 {
        var found := CheckGroups(u, PublishedAfter(u, now), u.filterChannels.groups, w);
        alerts := alerts + found;
      }
      i := i + 1;
    }
    assert us[..|us|] == us;
    AllAlertsMatched(us, now, w);
  }
}
