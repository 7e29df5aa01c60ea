/**
 * `NotificationService`: formats the alert templates and delivers a trend alert over the
 * user's verified channels (e-mail, Discord, Telegram), then records the overall status on
 * the triggered-alert row.
 */
module NotificationService {
  import opened Wrappers
  import Js

  /** `x || d` on an optional string: a missing or empty value gives the default. */
  function Or(x: Option<string>, d: string): (r: string)
    ensures r == d || (x.Some? && r == x.value)
    ensures x.Some? && x.value != "" ==> r == x.value
  {
    if x.Some? && x.value != "" then x.value else d
  }

  // ------------------------------------------------------------------
  // Placeholders
  // ------------------------------------------------------------------

  datatype Placeholder =
    | VideoTitle | ChannelName | Views | Likes | Comments | VideoUrl | TimeAgo | GroupName | UserName

  /** The literal text a template writes for each placeholder. */
  function Token(p: Placeholder): (t: string)
    ensures |t| > 2 && t[0] == '{' && t[|t| - 1] == '}'
    ensures forall i :: 0 < i < |t| ==> t[i] != '{'
    ensures forall i :: 0 <= i < |t| - 1 ==> t[i] != '}'
  {
    match p
    case VideoTitle => "{video_title}"
    case ChannelName => "{channel_name}"
    case Views => "{views}"
    case Likes => "{likes}"
    case Comments => "{comments}"
    case VideoUrl => "{video_url}"
    case TimeAgo => "{time_ago}"
    case GroupName => "{group_name}"
    case UserName => "{user_name}"
  }

  /** Reads a token back; it makes `Token` injective. */
  function PlaceholderOf(t: string): Option<Placeholder>
  {
    match t
    case "{video_title}" => Some(VideoTitle)
    case "{channel_name}" => Some(ChannelName)
    case "{views}" => Some(Views)
    case "{likes}" => Some(Likes)
    case "{comments}" => Some(Comments)
    case "{video_url}" => Some(VideoUrl)
    case "{time_ago}" => Some(TimeAgo)
    case "{group_name}" => Some(GroupName)
    case "{user_name}" => Some(UserName)
    case _ => None
  }

  lemma TokenRoundTrip(p: Placeholder)
    ensures PlaceholderOf(Token(p)) == Some(p)
  {
  }

  /** The order in which `_formatMessage` runs its nine replacements. */
  const Order: seq<Placeholder> :=
    [VideoTitle, ChannelName, Views, Likes, Comments, VideoUrl, TimeAgo, GroupName, UserName]

  lemma InOrder(p: Placeholder)
    ensures p in Order
  {
  }

  // ------------------------------------------------------------------
  // The values substituted
  // ------------------------------------------------------------------

  /** The fields of a YouTube video object that the templates read. */
  datatype Video = Video(id: Option<string>, title: Option<string>, channelTitle: Option<string>,
                         publishedAt: Option<string>, viewCount: Option<string>,
                         likeCount: Option<string>, commentCount: Option<string>)

  datatype Group = Group(name: Option<string>)

  /** The user row: contact details, verification flags and the custom templates. */
  datatype Recipient = Recipient(
    names: Option<string>,
    emailVerified: bool, notificationEmail: Option<string>,
    discordVerified: bool, discordUserId: Option<string>,
    telegramVerified: bool, telegramChatId: Option<string>,
    subjectTemplate: Option<string>, previewTemplate: Option<string>,
    discordTemplate: Option<string>, telegramTemplate: Option<string>)

  const MinuteMs: int := 60000

  /** `Math.round(diffMs / 60000)`: the nearest whole minute, halves rounded up. */
  function RoundMinutes(diffMs: int): (m: int)
    ensures 2 * MinuteMs * m <= 2 * diffMs + MinuteMs < 2 * MinuteMs * m + 2 * MinuteMs
  {
    (2 * diffMs + MinuteMs) / (2 * MinuteMs)
  }

  function Ago(m: int): string
  {
    if m < 60 then Js.IntToString(m) + "m ago"
    else if m < 1440 then Js.IntToString(m / 60) + "h ago"
    else Js.IntToString(m / 1440) + "d ago"
  }

  /**
   * The `{time_ago}` value. `parseDate` is `new Date(s).getTime()`, `None` standing for an
   * invalid date: NaN fails both comparisons and prints as "NaN".
   */
  function TimeAgoText(publishedAt: Option<string>, now: int, parseDate: string -> Option<int>): string
  {
    if publishedAt.None? || publishedAt.value == "" then "recently"
    else match parseDate(publishedAt.value)
      case None => "NaNd ago"
      case Some(t) => Ago(RoundMinutes(now - t))
  }

  /** The value each placeholder is replaced with, defaults included. */
  function Value(p: Placeholder, video: Option<Video>, group: Option<Group>, user: Option<Recipient>,
                 now: int, parseDate: string -> Option<int>): string
  {
    var groupName := if group.Some? then Or(group.value.name, "N/A") else "N/A";
    match p
    case VideoTitle => if video.Some? then Or(video.value.title, "N/A") else "N/A"
    case ChannelName =>
      if video.Some? && video.value.channelTitle.Some? && video.value.channelTitle.value != "" then video.value.channelTitle.value
      else groupName
    case Views => if video.Some? then Or(video.value.viewCount, "0") else "0"
    case Likes => if video.Some? then Or(video.value.likeCount, "0") else "0"
    case Comments => if video.Some? then Or(video.value.commentCount, "0") else "0"
    case VideoUrl =>
      if video.Some? && video.value.id.Some? && video.value.id.value != "" then
        "https://www.youtube.com/watch?v=" + video.value.id.value
      else "#"
    case TimeAgo => if video.Some? then TimeAgoText(video.value.publishedAt, now, parseDate) else "recently"
    case GroupName => groupName
    case UserName => if user.Some? then Or(user.value.names, "User") else "User"
  }

  function Values(video: Option<Video>, group: Option<Group>, user: Option<Recipient>,
                  now: int, parseDate: string -> Option<int>): Placeholder -> string
  {
    p => Value(p, video, group, user, now, parseDate)
  }

  /** The chain of global replacements, applied in the order of `ps`. */
  function ApplyAll(s: string, ps: seq<Placeholder>, vals: Placeholder -> string): string
    decreases |ps|
  {
    if |ps| == 0 then s
    else ApplyAll(Js.ReplaceAll(s, Token(ps[0]), vals(ps[0])), ps[1..], vals)
  }

  const MissingTemplate: string := "Trend Alert: Video data missing."

  /** `_formatMessage(template, video, group, user)` at time `now`. */
  function FormatMessage(template: Option<string>, video: Option<Video>, group: Option<Group>,
                         user: Option<Recipient>, now: int, parseDate: string -> Option<int>): (r: string)
    ensures template.None? || template.value == "" ==> r == MissingTemplate
  {
    if template.None? || template.value == "" then MissingTemplate
    else ApplyAll(template.value, Order, Values(video, group, user, now, parseDate))
  }

  // ------------------------------------------------------------------
  // Properties of the formatter
  // ------------------------------------------------------------------

  /** The `{time_ago}` buckets: under 59.5 minutes, under 1439.5 minutes, and beyond. */
  lemma TimeAgoBuckets(s: string, now: int, parseDate: string -> Option<int>)
    requires s != "" && parseDate(s).Some?
    ensures var d := now - parseDate(s).value;
            var m := RoundMinutes(d);
            (d < 3570000 ==> TimeAgoText(Some(s), now, parseDate) == Js.IntToString(m) + "m ago") &&
            (3570000 <= d < 86370000 ==> TimeAgoText(Some(s), now, parseDate) == Js.IntToString(m / 60) + "h ago") &&
            (86370000 <= d ==> TimeAgoText(Some(s), now, parseDate) == Js.IntToString(m / 1440) + "d ago")
  {
    var d := now - parseDate(s).value;
    var m := RoundMinutes(d);
    assert m < 60 <==> d < 3570000;
    assert m < 1440 <==> d < 86370000;
  }

  /** A whole hour ago reads "1h ago", and a whole day "1d ago". */
  lemma TimeAgoExamples(s: string, now: int, parseDate: string -> Option<int>)
    requires s != "" && parseDate(s).Some?
    ensures now - parseDate(s).value == 3600000 ==> TimeAgoText(Some(s), now, parseDate) == "1h ago"
    ensures now - parseDate(s).value == 86400000 ==> TimeAgoText(Some(s), now, parseDate) == "1d ago"
  {
    OneAgo();
  }

  lemma OneAgo()
    ensures Ago(RoundMinutes(3600000)) == "1h ago" && Ago(RoundMinutes(86400000)) == "1d ago"
  {
    assert RoundMinutes(3600000) == 60;
    assert RoundMinutes(86400000) == 1440;
    assert Js.IntToString(1) == "1" by { Js.NatToStringValue(1); }
  }

  /** A template that names no placeholder comes back unchanged. */
  lemma {:induction false} ApplyAbsent(s: string, ps: seq<Placeholder>, vals: Placeholder -> string)
    requires forall p :: !Js.Contains(s, Token(p))
    ensures ApplyAll(s, ps, vals) == s
    decreases |ps|
  {
    if |ps| > 0 {
      Js.ReplaceAbsent(s, Token(ps[0]), vals(ps[0]));
      ApplyAbsent(s, ps[1..], vals);
    }
  }

  lemma FormatWithoutPlaceholders(template: string, video: Option<Video>, group: Option<Group>,
                                  user: Option<Recipient>, now: int, parseDate: string -> Option<int>)
    requires template != "" && forall p :: !Js.Contains(template, Token(p))
    ensures FormatMessage(Some(template), video, group, user, now, parseDate) == template
  {
    ApplyAbsent(template, Order, Values(video, group, user, now, parseDate));
  }

  /**
   * A template seen as a sequence of pieces: literal text, or a placeholder token. The
   * substitution property below holds for templates whose literal text has no `{`.
   */
  datatype Segment = Lit(text: string) | Slot(p: Placeholder)

  function SegmentText(g: Segment): string
  {
    match g
    case Lit(t) => t
    case Slot(p) => Token(p)
  }

  function Render(segs: seq<Segment>): string
    decreases |segs|
  {
    if |segs| == 0 then "" else SegmentText(segs[0]) + Render(segs[1..])
  }

  predicate Plain(segs: seq<Segment>)
  {
    forall i :: 0 <= i < |segs| && segs[i].Lit? ==> '{' !in segs[i].text
  }

  /** Every slot of placeholder `p` becomes the literal `v`. */
  function Subst(segs: seq<Segment>, p: Placeholder, v: string): (r: seq<Segment>)
    ensures |r| == |segs|
  {
    seq(|segs|, i requires 0 <= i < |segs| => if segs[i] == Slot(p) then Lit(v) else segs[i])
  }

  /** The same substitutions as `ApplyAll`, on the pieces. */
  function SubstAll(segs: seq<Segment>, ps: seq<Placeholder>, vals: Placeholder -> string): (r: seq<Segment>)
    ensures |r| == |segs|
    decreases |ps|
  {
    if |ps| == 0 then segs else SubstAll(Subst(segs, ps[0], vals(ps[0])), ps[1..], vals)
  }

  /** Every slot of the template filled with its value. */
  function Fill(segs: seq<Segment>, vals: Placeholder -> string): (r: seq<Segment>)
    ensures |r| == |segs|
  {
    seq(|segs|, i requires 0 <= i < |segs| => if segs[i].Slot? then Lit(vals(segs[i].p)) else segs[i])
  }

  /** No token is a prefix of a different token followed by anything. */
  lemma TokenNotPrefix(p: Placeholder, q: Placeholder, rest: string)
    requires p != q
    ensures !Js.StartsWith(Token(q) + rest, Token(p))
  {
    var tp, tq := Token(p), Token(q);
    var s := tq + rest;
    TokenRoundTrip(p);
    TokenRoundTrip(q);
    if |tp| <= |s| {
      if |tp| <= |tq| {
        assert s[..|tp|] == tq[..|tp|];
        assert tq[..|tp|][|tp| - 1] == tq[|tp| - 1];
      } else {
        assert s[..|tp|][|tq| - 1] == '}';
      }
    }
  }

  /** One global replacement of a token acts on the pieces as `Subst`. */
  lemma {:induction false} SubstStep(segs: seq<Segment>, p: Placeholder, v: string)
    requires Plain(segs) && '{' !in v
    ensures Js.ReplaceAll(Render(segs), Token(p), v) == Render(Subst(segs, p, v))
    decreases |segs|
  {
    var pat := Token(p);
    if |segs| > 0 {
      var rest := segs[1..];
      var r := Render(rest);
      assert Plain(rest) by {
        forall i | 0 <= i < |rest| && rest[i].Lit? ensures '{' !in rest[i].text {
          assert rest[i] == segs[i + 1];
        }
      }
      SubstStep(rest, p, v);
      var sub := Subst(segs, p, v);
      assert sub[1..] == Subst(rest, p, v);
      assert Render(sub) == SegmentText(sub[0]) + Render(Subst(rest, p, v));
      match segs[0]
      case Lit(t) =>
        Js.ReplaceSkip(t, r, pat, v);
      case Slot(q) =>
        if q == p {
          ReplaceAtToken(p, r, v);
        } else {
          ReplacePastToken(p, q, r, v);
        }
    }
  }

  /** A token at the front is replaced. */
  lemma ReplaceAtToken(p: Placeholder, r: string, v: string)
    ensures Js.ReplaceAll(Token(p) + r, Token(p), v) == v + Js.ReplaceAll(r, Token(p), v)
  {
    var tp := Token(p);
    assert (tp + r)[..|tp|] == tp;
    assert (tp + r)[|tp|..] == r;
  }

  /** A different token at the front is copied unchanged. */
  lemma ReplacePastToken(p: Placeholder, q: Placeholder, r: string, v: string)
    requires p != q
    ensures Js.ReplaceAll(Token(q) + r, Token(p), v) == Token(q) + Js.ReplaceAll(r, Token(p), v)
  {
    var tp, tq := Token(p), Token(q);
    TokenNotPrefix(p, q, r);
    assert '{' !in tq[1..];
    Js.ReplaceSkipHead(tq, r, tp, v);
  }

  lemma SubstPlain(segs: seq<Segment>, p: Placeholder, v: string)
    requires Plain(segs) && '{' !in v
    ensures Plain(Subst(segs, p, v))
  {
  }

  /** The whole replacement chain acts on the pieces as `SubstAll`. */
  lemma {:induction false} ApplyAllRender(segs: seq<Segment>, ps: seq<Placeholder>, vals: Placeholder -> string)
    requires Plain(segs) && forall p :: '{' !in vals(p)
    ensures ApplyAll(Render(segs), ps, vals) == Render(SubstAll(segs, ps, vals))
    decreases |ps|
  {
    if |ps| > 0 {
      SubstStep(segs, ps[0], vals(ps[0]));
      SubstPlain(segs, ps[0], vals(ps[0]));
      ApplyAllRender(Subst(segs, ps[0], vals(ps[0])), ps[1..], vals);
    }
  }

  /** Piece by piece, `SubstAll` fills exactly the slots whose placeholder is in `ps`. */
  lemma {:induction false} SubstAllAt(segs: seq<Segment>, ps: seq<Placeholder>, vals: Placeholder -> string)
    ensures forall i :: 0 <= i < |segs| ==>
              SubstAll(segs, ps, vals)[i] ==
              (if segs[i].Slot? && segs[i].p in ps then Lit(vals(segs[i].p)) else segs[i])
    decreases |ps|
  {
    if |ps| > 0 {
      var once := Subst(segs, ps[0], vals(ps[0]));
      SubstAllAt(once, ps[1..], vals);
      forall i | 0 <= i < |segs|
        ensures SubstAll(segs, ps, vals)[i] ==
                (if segs[i].Slot? && segs[i].p in ps then Lit(vals(segs[i].p)) else segs[i])
      {
        if segs[i].Slot? && segs[i].p != ps[0] {
          assert segs[i].p in ps <==> segs[i].p in ps[1..];
        }
      }
    }
  }

  /**
   * Substitution: a non-empty template made of `{`-free text and placeholder tokens comes back
   * with every token replaced by its value and nothing else changed, as long as no value holds
   * a `{`.
   */
  lemma FormatFillsTemplate(segs: seq<Segment>, video: Option<Video>, group: Option<Group>,
                            user: Option<Recipient>, now: int, parseDate: string -> Option<int>)
    requires Render(segs) != "" && Plain(segs)
    requires forall p :: '{' !in Value(p, video, group, user, now, parseDate)
    ensures FormatMessage(Some(Render(segs)), video, group, user, now, parseDate) ==
            Render(Fill(segs, Values(video, group, user, now, parseDate)))
  {
    var vals := Values(video, group, user, now, parseDate);
    ApplyAllRender(segs, Order, vals);
    SubstAllAt(segs, Order, vals);
    forall i | 0 <= i < |segs| && segs[i].Slot? ensures segs[i].p in Order {
      InOrder(segs[i].p);
    }
    assert SubstAll(segs, Order, vals) == Fill(segs, vals);
  }

  /** The defaults: an empty video, no group and no user. */
  lemma DefaultValues(now: int, parseDate: string -> Option<int>)
    ensures var v := Some(Video(None, None, None, None, None, None, None));
            Value(VideoTitle, v, None, None, now, parseDate) == "N/A" &&
            Value(ChannelName, v, None, None, now, parseDate) == "N/A" &&
            Value(Views, v, None, None, now, parseDate) == "0" &&
            Value(Likes, v, None, None, now, parseDate) == "0" &&
            Value(Comments, v, None, None, now, parseDate) == "0" &&
            Value(VideoUrl, v, None, None, now, parseDate) == "#" &&
            Value(TimeAgo, v, None, None, now, parseDate) == "recently" &&
            Value(GroupName, v, None, None, now, parseDate) == "N/A" &&
            Value(UserName, v, None, None, now, parseDate) == "User"
  {
  }

  /** The channel name falls back to the group's name, then to "N/A". */
  lemma ChannelNameFallback(video: Option<Video>, group: Option<Group>, user: Option<Recipient>,
                            now: int, parseDate: string -> Option<int>)
    ensures var c := Value(ChannelName, video, group, user, now, parseDate);
            (video.Some? && video.value.channelTitle.Some? && video.value.channelTitle.value != "" ==>
               c == video.value.channelTitle.value) &&
            ((video.None? || video.value.channelTitle.None? || video.value.channelTitle.value == "") ==>
               c == Value(GroupName, video, group, user, now, parseDate))
  {
  }

  // ------------------------------------------------------------------
  // sendTrendAlert
  // ------------------------------------------------------------------

  const DefaultSubject: string := "\U{1F525} Trending Video Alert: {video_title}"
  const DefaultPreview: string := "Video '{video_title}' is trending!"
  const DefaultDiscord: string :=
    "**\U{1F525} Video Trend Alert!**\nVideo: {video_title}\nChannel: {channel_name}\nViews: {views}, Likes: {likes}\n{video_url}"
  const DefaultTelegram: string :=
    "\U{1F525} Video Trend Alert!\nVideo: {video_title}\nChannel: {channel_name}\nViews: {views}, Likes: {likes}\n{video_url}"
  const TextBody: string :=
    "Video '{video_title}' by {channel_name} is trending! Views: {views}, Likes: {likes}, URL: {video_url}"

  /** `${group.name}` in a template literal: a missing name prints as "undefined". */
  function Shown(x: Option<string>): string
  {
    if x.Some? then x.value else "undefined"
  }

  /**
   * The HTML body, with the user's name and the group's name interpolated before formatting
   * (written in short pieces, which keeps the verifier's sequence terms small).
   */
  function BodyHtml(userName: string, groupName: string): string
  {
    "\n" +
    "                <h1>\U{1F525} Video Trend Alert!</h1>\n" +
    "                <p>Hi " + userName + ",</p>\n" +
    "                <p>The video <strong>{video_title}</strong>" +
    " by <em>{channel_name}</em>" +
    " (from your group '" + groupName + "')" +
    " is currently trending!</p>\n" +
    "                <ul>\n" +
    "                    <li><strong>Views:</strong> {views}</li>\n" +
    "                    <li><strong>Likes:</strong> {likes}</li>\n" +
    "                    <li><strong>Comments:</strong> {comments}</li>\n" +
    "                    <li><strong>Published:</strong> {time_ago}</li>\n" +
    "                </ul>\n" +
    "                <p><a href=\"{video_url}\">Watch on YouTube</a></p>\n" +
    "                <p>Thanks,<br/>Trendy Bot</p>\n" +
    "            "
  }

  datatype Channel = Email | Discord | Telegram

  /** What was handed to the e-mail, Discord and Telegram services. */
  datatype Outgoing =
    | Mail(to: string, subject: string, text: string, html: string)
    | DiscordDm(userId: string, text: string)
    | TelegramPost(chatId: string, text: string)

  /** A `notificationLog` entry (its timestamp is not modelled). */
  datatype LogEntry =
    | Delivered(channel: Channel, to: string)
    | Failed(channel: Channel, error: string)

  /** What `sendDiscordDM` did: resolved true, resolved false, or threw with a message. */
  datatype DmResult = DmSent | DmFalse | DmThrew(message: string)

  /** Why the Telegram request failed: the error message and, when the API answered, its body as JSON text. */
  datatype PostError = PostError(message: string, details: Option<string>)

  /** The answers of the three services and of the environment. */
  datatype Delivery = Delivery(
    email: Option<string>,       // None: sent; Some(m): sendEmail threw m
    discord: DmResult,
    telegram: Option<PostError>, // None: posted
    botTokenSet: bool,
    supabaseReady: bool)

  /** The outcome of a call past its parameter check. */
  datatype AlertRun = AlertRun(outbox: seq<Outgoing>, log: seq<LogEntry>, sentTo: seq<string>,
                               status: string, update: Option<(string, seq<LogEntry>)>)

  const BotTokenMissing: string := "TELEGRAM_BOT_TOKEN is not set in environment variables."
  const DmReturnedFalse: string := "DiscordService.sendDiscordDM returned false."

  predicate Truthy(x: Option<string>)
  {
    x.Some? && x.value != ""
  }

  predicate EmailGate(u: Recipient)
  {
    u.emailVerified && Truthy(u.notificationEmail)
  }

  predicate DiscordGate(u: Recipient)
  {
    u.discordVerified && Truthy(u.discordUserId)
  }

  predicate TelegramGate(u: Recipient)
  {
    u.telegramVerified && Truthy(u.telegramChatId)
  }

  function ChannelLabel(c: Channel): string
  {
    match c
    case Email => "Email"
    case Discord => "Discord"
    case Telegram => "Telegram"
  }

  function Format(template: Option<string>, d: string, video: Video, group: Group, user: Recipient,
                  now: int, parseDate: string -> Option<int>): string
  {
    FormatMessage(Some(Or(template, d)), Some(video), Some(group), Some(user), now, parseDate)
  }

  /** The texts an alert sends: the e-mail subject, plain-text and HTML bodies, the Discord DM and the Telegram message. */
  datatype Texts = Texts(subject: string, text: string, html: string, discord: string, telegram: string)

  /** Each text is its template (or the default) formatted for this video, group and user. */
  function TextsOf(u: Recipient, video: Video, group: Group, now: int, parseDate: string -> Option<int>): Texts
  {
    Texts(Format(u.subjectTemplate, DefaultSubject, video, group, u, now, parseDate),
          Format(Some(TextBody), TextBody, video, group, u, now, parseDate),
          Format(Some(BodyHtml(Or(u.names, "there"), Shown(group.name))), "", video, group, u, now, parseDate),
          Format(u.discordTemplate, DefaultDiscord, video, group, u, now, parseDate),
          Format(u.telegramTemplate, DefaultTelegram, video, group, u, now, parseDate))
  }

  /** Everything handed to the three services, in order; without a bot token nothing is posted. */
  function Outbox(u: Recipient, env: Delivery, t: Texts): seq<Outgoing>
  {
    (if EmailGate(u) then [Mail(u.notificationEmail.value, t.subject, t.text, t.html)] else []) +
    (if DiscordGate(u) then [DiscordDm(u.discordUserId.value, t.discord)] else []) +
    (if TelegramGate(u) && env.botTokenSet then [TelegramPost(u.telegramChatId.value, t.telegram)] else [])
  }

  /** The e-mail entry: none unless the gate is open; success unless `sendEmail` threw. */
  function EmailEntry(u: Recipient, env: Delivery): seq<LogEntry>
  {
    if !EmailGate(u) then []
    else if env.email.None? then [Delivered(Email, u.notificationEmail.value)]
    else [Failed(Email, env.email.value)]
  }

  /** The Discord entry: a DM that resolves false is a failure too. */
  function DiscordEntry(u: Recipient, env: Delivery): seq<LogEntry>
  {
    if !DiscordGate(u) then []
    else match env.discord
      case DmSent => [Delivered(Discord, u.discordUserId.value)]
      case DmFalse => [Failed(Discord, DmReturnedFalse)]
      case DmThrew(m) => [Failed(Discord, m)]
  }

  function PostErrorText(e: PostError): string
  {
    if e.details.Some? then e.message + " - Details: " + e.details.value else e.message
  }

  /** The Telegram entry: without a bot token the attempt fails before any request. */
  function TelegramEntry(u: Recipient, env: Delivery): seq<LogEntry>
  {
    if !TelegramGate(u) then []
    else if !env.botTokenSet then [Failed(Telegram, BotTokenMissing)]
    else if env.telegram.None? then [Delivered(Telegram, u.telegramChatId.value)]
    else [Failed(Telegram, PostErrorText(env.telegram.value))]
  }

  /** `notificationLog` at the end of the three steps. */
  function Log(u: Recipient, env: Delivery): seq<LogEntry>
  {
    EmailEntry(u, env) + DiscordEntry(u, env) + TelegramEntry(u, env)
  }

  /** The channels named in the successful entries, in log order. */
  function SuccessNames(log: seq<LogEntry>): (r: seq<string>)
    ensures |r| <= |log|
  {
    if |log| == 0 then []
    else SuccessNames(log[..|log| - 1]) +
         (if log[|log| - 1].Delivered? then [ChannelLabel(log[|log| - 1].channel)] else [])
  }

  function OverallStatus(sentTo: seq<string>, anyFailed: bool): string
  {
    if |sentTo| > 0 then "NOTIFIED (" + Js.Join(sentTo, ", ") + ")"
    else if anyFailed then "NOTIFICATION_FAILED_ALL_ATTEMPTED"
    else "NO_VERIFIED_CHANNELS"
  }

  predicate AnyFailed(log: seq<LogEntry>)
  {
    exists j :: 0 <= j < |log| && log[j].Failed?
  }

  /** The specification of `sendTrendAlert`: the three steps in order, then the status. */
  function TrendAlert(user: Option<Recipient>, alertRecord: Option<string>, video: Option<Video>,
                      group: Option<Group>, env: Delivery, now: int, parseDate: string -> Option<int>): Option<AlertRun>
  {
    if user.None? || alertRecord.None? || video.None? || group.None? then None
    else Some(RunFor(user.value, env, Outbox(user.value, env, TextsOf(user.value, video.value, group.value, now, parseDate))))
  }

  /** The run for one recipient once its messages are built: the log, `sentTo` and the status. */
  function RunFor(u: Recipient, env: Delivery, outbox: seq<Outgoing>): AlertRun
  {
    var log := Log(u, env);
    var sentTo := SuccessNames(log);
    var status := OverallStatus(sentTo, AnyFailed(log));
    AlertRun(outbox, log, sentTo, status, if env.supabaseReady then Some((status, log)) else None)
  }

  /** Appends one step's entries to the log, pushing each success onto `sentTo`. */
  method Record(log: seq<LogEntry>, sentTo: seq<string>, entries: seq<LogEntry>)
    returns (log': seq<LogEntry>, sentTo': seq<string>)
    requires |entries| <= 1 && sentTo == SuccessNames(log)
    ensures log' == log + entries && sentTo' == SuccessNames(log')
  {
    log' := log + entries;
    sentTo' := sentTo;
    if |entries| == 1 {
      assert log'[..|log'| - 1] == log;
      if entries[0].Delivered? {
        sentTo' := sentTo + [ChannelLabel(entries[0].channel)];
      }
    } else {
      assert log' == log;
    }
  }

  /** The three delivery steps: `notificationLog` and `sentTo` as they stand afterwards. */
  method Deliver(u: Recipient, env: Delivery) returns (log: seq<LogEntry>, sentTo: seq<string>)
    ensures log == Log(u, env) && sentTo == SuccessNames(log)
  {
    log, sentTo := [], [];
    log, sentTo := Record(log, sentTo, EmailEntry(u, env));
    log, sentTo := Record(log, sentTo, DiscordEntry(u, env));
    log, sentTo := Record(log, sentTo, TelegramEntry(u, env));
    assert [] + EmailEntry(u, env) == EmailEntry(u, env);
  }

  /** `notificationLog.some(log => log.status === 'failed')`. */
  method SomeFailed(log: seq<LogEntry>) returns (found: bool)
    ensures found == AnyFailed(log)
  {
    found := false;
    var i := 0;
    while i < |log| && !found
      invariant 0 <= i <= |log|
      invariant found == (exists j :: 0 <= j < i && log[j].Failed?)
    {
      found := log[i].Failed?;
      i := i + 1;
    }
  }

  /** `sendTrendAlert(user, alertRecord, video, group)`, the services' answers being `env`. */
  method SendTrendAlert(user: Option<Recipient>, alertRecord: Option<string>, video: Option<Video>,
                        group: Option<Group>, env: Delivery, now: int, parseDate: string -> Option<int>)
    returns (run: Option<AlertRun>)
    ensures run == TrendAlert(user, alertRecord, video, group, env, now, parseDate)
  {
    if user.None? || alertRecord.None? || video.None? || group.None? {
      return None;
    }
    var outbox := Outbox(user.value, env, TextsOf(user.value, video.value, group.value, now, parseDate));
    var r := Attempt(user.value, env, outbox);
    run := Some(r);
  }

  /** The three delivery steps and the status written to the alert record, if Supabase is ready. */
  method Attempt(u: Recipient, env: Delivery, outbox: seq<Outgoing>) returns (r: AlertRun)
    ensures r == RunFor(u, env, outbox)
  {
    var log, sentTo := Deliver(u, env);
    var failed := SomeFailed(log);
    var status := OverallStatus(sentTo, failed);
    if !env.supabaseReady {
      return AlertRun(outbox, log, sentTo, status, None);
    }
    r := AlertRun(outbox, log, sentTo, status, Some((status, log)));
  }

  // ------------------------------------------------------------------
  // Properties of sendTrendAlert
  // ------------------------------------------------------------------

  lemma {:induction false} SuccessNamesAppend(a: seq<LogEntry>, b: seq<LogEntry>)
    ensures SuccessNames(a + b) == SuccessNames(a) + SuccessNames(b)
    decreases |b|
  {
    if |b| == 0 {
      assert a + b == a;
    } else {
      assert (a + b)[..|a + b| - 1] == a + b[..|b| - 1];
      SuccessNamesAppend(a, b[..|b| - 1]);
    }
  }

  /** Each channel is attempted exactly when its gate is open, and is logged once. */
  lemma ChannelGating(u: Recipient, env: Delivery)
    ensures var log := Log(u, env);
            (EmailGate(u) <==> exists j :: 0 <= j < |log| && log[j].channel == Email) &&
            (DiscordGate(u) <==> exists j :: 0 <= j < |log| && log[j].channel == Discord) &&
            (TelegramGate(u) <==> exists j :: 0 <= j < |log| && log[j].channel == Telegram) &&
            |log| == (if EmailGate(u) then 1 else 0) + (if DiscordGate(u) then 1 else 0) +
                     (if TelegramGate(u) then 1 else 0)
  {
    EntryShapes(u, env);
    GatedThree(Log(u, env), EmailEntry(u, env), DiscordEntry(u, env), TelegramEntry(u, env),
               EmailGate(u), DiscordGate(u), TelegramGate(u));
  }

  /** Each step logs one entry, for its own channel, exactly when its gate is open. */
  lemma EntryShapes(u: Recipient, env: Delivery)
    ensures |EmailEntry(u, env)| == (if EmailGate(u) then 1 else 0)
    ensures |DiscordEntry(u, env)| == (if DiscordGate(u) then 1 else 0)
    ensures |TelegramEntry(u, env)| == (if TelegramGate(u) then 1 else 0)
    ensures EmailGate(u) ==> EmailEntry(u, env)[0].channel == Email
    ensures DiscordGate(u) ==> DiscordEntry(u, env)[0].channel == Discord
    ensures TelegramGate(u) ==> TelegramEntry(u, env)[0].channel == Telegram
  {
  }

  /** Three steps that log one entry for their own channel exactly when their gate is open. */
  lemma GatedThree(log: seq<LogEntry>, e: seq<LogEntry>, d: seq<LogEntry>, t: seq<LogEntry>, ge: bool, gd: bool, gt: bool)
    requires log == e + d + t
    requires |e| == (if ge then 1 else 0) && |d| == (if gd then 1 else 0) && |t| == (if gt then 1 else 0)
    requires (ge ==> e[0].channel == Email) && (gd ==> d[0].channel == Discord) && (gt ==> t[0].channel == Telegram)
    ensures (ge <==> exists j :: 0 <= j < |log| && log[j].channel == Email) &&
            (gd <==> exists j :: 0 <= j < |log| && log[j].channel == Discord) &&
            (gt <==> exists j :: 0 <= j < |log| && log[j].channel == Telegram) &&
            |log| == (if ge then 1 else 0) + (if gd then 1 else 0) + (if gt then 1 else 0)
  {
    assert forall j :: 0 <= j < |log| ==>
             log[j] == (if j < |e| then e[0] else if j < |e| + |d| then d[0] else t[0]);
    if ge { assert log[0] == e[0]; }
    if gd { assert log[|e|] == d[0]; }
    if gt { assert log[|e| + |d|] == t[0]; }
  }

  /** A single entry names its channel in `sentTo` exactly when it is a success. */
  lemma SuccessNamesOne(entries: seq<LogEntry>)
    requires |entries| <= 1
    ensures SuccessNames(entries) ==
            if |entries| == 1 && entries[0].Delivered? then [ChannelLabel(entries[0].channel)] else []
  {
    if |entries| == 1 {
      assert entries[..0] == [];
    }
  }

  predicate EmailOk(u: Recipient, env: Delivery)
  {
    EmailGate(u) && env.email.None?
  }

  predicate DiscordOk(u: Recipient, env: Delivery)
  {
    DiscordGate(u) && env.discord == DmSent
  }

  predicate TelegramOk(u: Recipient, env: Delivery)
  {
    TelegramGate(u) && env.botTokenSet && env.telegram.None?
  }

  /** `sentTo` lists the channels that succeeded, always in the order Email, Discord, Telegram. */
  lemma SentToOrder(u: Recipient, env: Delivery)
    ensures SuccessNames(Log(u, env)) ==
            (if EmailOk(u, env) then ["Email"] else []) + (if DiscordOk(u, env) then ["Discord"] else []) +
            (if TelegramOk(u, env) then ["Telegram"] else [])
  {
    var e, d, t := EmailEntry(u, env), DiscordEntry(u, env), TelegramEntry(u, env);
    EntryNames(u, env);
    SuccessNamesAppend(e, d);
    SuccessNamesAppend(e + d, t);
    assert Log(u, env) == (e + d) + t;
  }

  /** Each channel's entry contributes its name exactly when that channel succeeded. */
  lemma EntryNames(u: Recipient, env: Delivery)
    ensures SuccessNames(EmailEntry(u, env)) == (if EmailOk(u, env) then ["Email"] else [])
    ensures SuccessNames(DiscordEntry(u, env)) == (if DiscordOk(u, env) then ["Discord"] else [])
    ensures SuccessNames(TelegramEntry(u, env)) == (if TelegramOk(u, env) then ["Telegram"] else [])
  {
    SuccessNamesOne(EmailEntry(u, env));
    SuccessNamesOne(DiscordEntry(u, env));
    SuccessNamesOne(TelegramEntry(u, env));
  }

  /** The log holds a failure exactly when some open channel did not succeed. */
  lemma FailuresLogged(u: Recipient, env: Delivery)
    ensures AnyFailed(Log(u, env)) <==>
            (EmailGate(u) && !EmailOk(u, env)) || (DiscordGate(u) && !DiscordOk(u, env)) ||
            (TelegramGate(u) && !TelegramOk(u, env))
  {
    FailedInThree(EmailEntry(u, env), DiscordEntry(u, env), TelegramEntry(u, env));
  }

  /** A log of at most three single entries holds a failure exactly when one of them is one. */
  lemma FailedInThree(e: seq<LogEntry>, d: seq<LogEntry>, t: seq<LogEntry>)
    requires |e| <= 1 && |d| <= 1 && |t| <= 1
    ensures AnyFailed(e + d + t) <==> (|e| == 1 && e[0].Failed?) || (|d| == 1 && d[0].Failed?) || (|t| == 1 && t[0].Failed?)
  {
    var log := e + d + t;
    assert forall j :: 0 <= j < |log| ==>
             log[j] == (if j < |e| then e[0] else if j < |e| + |d| then d[0] else t[0]);
    if |e| == 1 { assert log[0] == e[0]; }
    if |d| == 1 { assert log[|e|] == d[0]; }
    if |t| == 1 { assert log[|e| + |d|] == t[0]; }
  }

  /**
   * The overall status: "NOTIFIED (...)" listing the channels that succeeded; otherwise a
   * failure when some channel was attempted; otherwise no verified channel.
   */
  lemma StatusTable(u: Recipient, env: Delivery)
    ensures var sentTo := SuccessNames(Log(u, env));
            var status := OverallStatus(sentTo, AnyFailed(Log(u, env)));
            var anyOk := EmailOk(u, env) || DiscordOk(u, env) || TelegramOk(u, env);
            (anyOk ==> status == "NOTIFIED (" + Js.Join(sentTo, ", ") + ")") &&
            (status == "NOTIFICATION_FAILED_ALL_ATTEMPTED" <==>
               !anyOk && (EmailGate(u) || DiscordGate(u) || TelegramGate(u))) &&
            (status == "NO_VERIFIED_CHANNELS" <==> !EmailGate(u) && !DiscordGate(u) && !TelegramGate(u))
  {
    SentToOrder(u, env);
    FailuresLogged(u, env);
    NotifiedDistinct(Js.Join(SuccessNames(Log(u, env)), ", "));
  }

  /** A "NOTIFIED (...)" status is neither of the other two. */
  lemma NotifiedDistinct(names: string)
    ensures "NOTIFIED (" + names + ")" != "NOTIFICATION_FAILED_ALL_ATTEMPTED"
    ensures "NOTIFIED (" + names + ")" != "NO_VERIFIED_CHANNELS"
  {
    var n := "NOTIFIED (" + names + ")";
    assert n[6] == 'E' && "NOTIFICATION_FAILED_ALL_ATTEMPTED"[6] == 'C';
    assert n[2] == 'T' && "NO_VERIFIED_CHANNELS"[2] == '_';
  }

  /** A Discord DM that resolves false is logged as a failure with a fixed message. */
  lemma DiscordFalseIsFailure(u: Recipient, env: Delivery)
    requires DiscordGate(u) && env.discord == DmFalse
    ensures DiscordEntry(u, env) == [Failed(Discord, DmReturnedFalse)]
  {
  }

  /** Without a bot token, no Telegram request is made and the attempt is logged as failed. */
  lemma MissingBotToken(u: Recipient, env: Delivery, t: Texts)
    requires TelegramGate(u) && !env.botTokenSet
    ensures TelegramEntry(u, env) == [Failed(Telegram, BotTokenMissing)]
    ensures forall j :: 0 <= j < |Outbox(u, env, t)| ==> !Outbox(u, env, t)[j].TelegramPost?
  {
  }

  /** The alert row is updated with the status and the log exactly when the database is ready. */
  lemma UpdateWhenReady(user: Option<Recipient>, alertRecord: Option<string>, video: Option<Video>,
                        group: Option<Group>, env: Delivery, now: int, parseDate: string -> Option<int>)
    ensures var run := TrendAlert(user, alertRecord, video, group, env, now, parseDate);
            (run.None? <==> user.None? || alertRecord.None? || video.None? || group.None?) &&
            (run.Some? ==> (run.value.update.Some? <==> env.supabaseReady)) &&
            (run.Some? && run.value.update.Some? ==> run.value.update.value == (run.value.status, run.value.log))
  {
  }

  /** A `{`-free text followed by one placeholder becomes that text followed by its value. */
  lemma FormatTextThenToken(text: string, p: Placeholder, video: Option<Video>, group: Option<Group>,
                            user: Option<Recipient>, now: int, parseDate: string -> Option<int>)
    requires '{' !in text
    requires forall q :: '{' !in Value(q, video, group, user, now, parseDate)
    ensures FormatMessage(Some(text + Token(p)), video, group, user, now, parseDate) ==
            text + Value(p, video, group, user, now, parseDate)
  {
    var segs := [Lit(text), Slot(p)];
    var vals := Values(video, group, user, now, parseDate);
    TextThenSlot(text, p, vals);
    FormatFillsTemplate(segs, video, group, user, now, parseDate);
  }

  /** The pieces of a `{`-free text followed by one slot, before and after filling. */
  lemma TextThenSlot(text: string, p: Placeholder, vals: Placeholder -> string)
    requires '{' !in text
    ensures Plain([Lit(text), Slot(p)])
    ensures Render([Lit(text), Slot(p)]) == text + Token(p) != ""
    ensures Render(Fill([Lit(text), Slot(p)], vals)) == text + vals(p)
  {
    var segs := [Lit(text), Slot(p)];
    assert Render(segs[1..][1..]) == "";
    TokenRoundTrip(p);
    var filled := Fill(segs, vals);
    assert filled[1..][1..] == [];
  }

  /** With the default subject, the subject line is the default text followed by the title. */
  lemma DefaultSubjectFilled(user: Recipient, video: Video, group: Group, now: int, parseDate: string -> Option<int>)
    requires !Truthy(user.subjectTemplate)
    requires forall p :: '{' !in Value(p, Some(video), Some(group), Some(user), now, parseDate)
    ensures Format(user.subjectTemplate, DefaultSubject, video, group, user, now, parseDate) ==
            "\U{1F525} Trending Video Alert: " + Value(VideoTitle, Some(video), Some(group), Some(user), now, parseDate)
  {
    var text := "\U{1F525} Trending Video Alert: ";
    assert DefaultSubject == text + Token(VideoTitle);
    FormatTextThenToken(text, VideoTitle, Some(video), Some(group), Some(user), now, parseDate);
  }
}
