/**
 * The user controller: eight authenticated handlers over one user record in the NocoDB user
 * table. The five update handlers fill an update object field by field from the request body
 * and send it to the store; the three readers copy a few columns of the stored record,
 * filling gaps with defaults. Column names come from the environment, each with a default.
 * The store's answers are inputs.
 */
module UserController {
  import opened Wrappers
  import opened JsonValue
  import Js

  /** `process.env`: variable name to value. */
  type Env = map<string, string>

  /** `process.env.NAME || fallback`. */
  function Column(env: Env, name: string, fallback: string): (c: string)
    ensures c == fallback || (name in env && c == env[name] && c != "")
    ensures name !in env ==> c == fallback
  {
    if name in env && env[name] != "" then env[name] else fallback
  }

  /** The password column removed from every user record a handler sends back. */
  function PasswordColumn(env: Env): string
  {
    Column(env, "NOCODB_PASSWORD_COLUMN", "password")
  }

  // ---------------------------------------------------------------------------------------
  // Filling an object field by field
  // ---------------------------------------------------------------------------------------

  /** One guarded assignment `data[column] = value`; an undefined value (`None`) is skipped. */
  type Slot<V> = (string, Option<V>)

  /** The assignment of one slot. */
  function Put<V>(m: map<string, V>, s: Slot<V>): map<string, V>
  {
    if s.1.Some? then m[s.0 := s.1.value] else m
  }

  /** The object after the assignments of `slots`, in order, starting from `{}`. */
  function Fill<V>(slots: seq<Slot<V>>): map<string, V>
  {
    if |slots| == 0 then map[] else Put(Fill(slots[..|slots| - 1]), slots[|slots| - 1])
  }

  lemma FillSnoc<V>(slots: seq<Slot<V>>, s: Slot<V>)
    ensures Fill(slots + [s]) == Put(Fill(slots), s)
  {
    assert (slots + [s])[..|slots|] == slots;
  }

  /** A key is in the object exactly when some defined slot assigns it. */
  lemma {:induction false} FillKeys<V>(slots: seq<Slot<V>>, k: string)
    ensures k in Fill(slots) <==> exists i :: 0 <= i < |slots| && slots[i].0 == k && slots[i].1.Some?
    decreases |slots|
  {
    if |slots| > 0 {
      var init := slots[..|slots| - 1];
      FillKeys(init, k);
      if k in Fill(slots) {
        if !(slots[|slots| - 1].0 == k && slots[|slots| - 1].1.Some?) {
          var i :| 0 <= i < |init| && init[i].0 == k && init[i].1.Some?;
          assert slots[i] == init[i];
        }
      } else {
        forall i | 0 <= i < |slots| && slots[i].0 == k
          ensures slots[i].1.None?
        {
          if i < |init| {
            assert slots[i] == init[i];
          }
        }
      }
    }
  }

  /** The value of a key is the one written by the last defined slot that assigns it. */
  lemma {:induction false} FillValue<V>(slots: seq<Slot<V>>, i: nat)
    requires i < |slots| && slots[i].1.Some?
    requires forall j :: i < j < |slots| && slots[j].1.Some? ==> slots[j].0 != slots[i].0
    ensures slots[i].0 in Fill(slots) && Fill(slots)[slots[i].0] == slots[i].1.value
    decreases |slots|
  {
    if i < |slots| - 1 {
      var init := slots[..|slots| - 1];
      forall j | i < j < |init| && init[j].1.Some?
        ensures init[j].0 != init[i].0
      {
        assert init[j] == slots[j];
      }
      FillValue(init, i);
    }
  }

  /** No two slots name the same column. */
  predicate Distinct<V>(slots: seq<Slot<V>>)
  {
    forall i, j :: 0 <= i < j < |slots| ==> slots[i].0 != slots[j].0
  }

  /** With distinct columns the object holds exactly the defined slots, each with its value. */
  lemma FillDistinct<V>(slots: seq<Slot<V>>)
    requires Distinct(slots)
    ensures forall i :: 0 <= i < |slots| ==>
              (slots[i].0 in Fill(slots) <==> slots[i].1.Some?) &&
              (slots[i].1.Some? ==> Fill(slots)[slots[i].0] == slots[i].1.value)
    ensures forall k :: k in Fill(slots) ==> exists i :: 0 <= i < |slots| && slots[i].0 == k
  {
    forall i | 0 <= i < |slots|
      ensures slots[i].0 in Fill(slots) <==> slots[i].1.Some?
      ensures slots[i].1.Some? ==> Fill(slots)[slots[i].0] == slots[i].1.value
    {
      FillKeys(slots, slots[i].0);
      if slots[i].1.Some? {
        FillValue(slots, i);
      }
    }
    forall k | k in Fill(slots)
      ensures exists i :: 0 <= i < |slots| && slots[i].0 == k
    {
      FillKeys(slots, k);
    }
  }

  /** `if (value !== undefined) data[column] = value`, with `done` the assignments made so far. */
  method Assign<V>(data: map<string, V>, column: string, value: Option<V>, ghost done: seq<Slot<V>>)
    returns (d: map<string, V>)
    requires data == Fill(done)
    ensures d == Fill(done + [(column, value)])
  {
    if value.Some? {
      d := data[column := value.value];
    } else {
      d := data;
    }
    FillSnoc(done, (column, value));
  }

  // ---------------------------------------------------------------------------------------
  // Requests, store answers and responses
  // ---------------------------------------------------------------------------------------

  /** What an update handler writes: a body value, or the JSON text of an array. */
  datatype Cell = Raw(v: Value) | JsonText(array: seq<Value>)

  /** `NocoDBService.updateUser`: the updated record, or a thrown error. */
  datatype UpdateResult = Updated(user: map<string, Value>) | UpdateFailed

  /** `NocoDBService.getUserRecordById`: the record, null, or a thrown error. */
  datatype FetchResult = Found(record: map<string, Value>) | NotFound | FetchFailed

  datatype Response =
    | Message(status: nat, message: string)
    | WithUser(status: nat, message: string, user: map<string, Value>)
    | Fields(status: nat, fields: map<string, Value>)
    | Echo(status: nat, message: string, name: string, values: map<string, Value>)
    /** `next(error)`. */
    | PassedOn
    /** The handler throws before its `try`, so no response is produced. */
    | Thrown

  /** The response, and the object sent to `updateUser` if the store was called. */
  datatype Handled = Handled(response: Response, sent: Option<map<string, Cell>>)

  const NotAuthorized: string := "Not authorized, user ID missing"
  const UserNotFound: string := "User not found"

  function Unauthorized(): Handled
  {
    Handled(Message(401, NotAuthorized), None)
  }

  function Lift(x: Option<Value>): Option<Cell>
  {
    if x.Some? then Some(Raw(x.value)) else None
  }

  /** The record without its password column. */
  function WithoutPassword(user: map<string, Value>, env: Env): map<string, Value>
  {
    user - {PasswordColumn(env)}
  }

  /** The store's answer to an update as the handler's response. */
  function AfterUpdate(data: map<string, Cell>, store: UpdateResult, env: Env, message: string): Handled
  {
    match store
    case UpdateFailed => Handled(PassedOn, Some(data))
    case Updated(user) => Handled(WithUser(200, message, WithoutPassword(user, env)), Some(data))
  }

  /** `Object.keys(data).reduce((acc, key) => { acc[key] = updatedUser[key]; ... }, {})`. */
  function Echoed(data: map<string, Cell>, user: map<string, Value>): map<string, Value>
  {
    map k | k in data.Keys && k in user :: user[k]
  }

  /** The store's answer to an update, echoing only the updated keys. */
  function AfterEchoUpdate(data: map<string, Cell>, store: UpdateResult, message: string, name: string): Handled
  {
    match store
    case UpdateFailed => Handled(PassedOn, Some(data))
    case Updated(user) => Handled(Echo(200, message, name, Echoed(data, user)), Some(data))
  }

  // ---------------------------------------------------------------------------------------
  // updateUserPreferences
  // ---------------------------------------------------------------------------------------

  datatype PreferencesBody = PreferencesBody(niche: Option<Value>, selectedChannels: Option<Value>,
                                             channelInputs: Option<Value>)

  /** `selectedChannels`, stored as JSON text only when it is an array. */
  function ChannelsCell(x: Option<Value>): Option<Cell>
  {
    if x.Some? && x.value.List? then Some(JsonText(x.value.items)) else None
  }

  /** `channelInputs.key`, read only when `channelInputs` is an object. */
  function InputCell(inputs: Option<Value>, key: string): Option<Cell>
  {
    if inputs.Some? && IsObject(inputs.value) then Lift(Member(inputs.value, key)) else None
  }

  function OnboardingColumn(env: Env): string
  {
    Column(env, "NOCODB_ONBOARDING_COLUMN", "onboarding_complete")
  }

  function PreferenceSlots(b: PreferencesBody, env: Env): seq<Slot<Cell>>
  {
    [(Column(env, "NOCODB_NICHE_COLUMN", "niche"), Lift(b.niche)),
     (Column(env, "NOCODB_NOTIF_CHANNELS_COLUMN", "notification_channels"), ChannelsCell(b.selectedChannels)),
     (Column(env, "NOCODB_NOTIF_EMAIL_COLUMN", "notification_email"), InputCell(b.channelInputs, "email")),
     (Column(env, "NOCODB_NOTIF_TELEGRAM_COLUMN", "notification_telegram"), InputCell(b.channelInputs, "telegram")),
     (Column(env, "NOCODB_NOTIF_DISCORD_COLUMN", "notification_discord"), InputCell(b.channelInputs, "discord")),
     (OnboardingColumn(env), Some(Raw(Bool(true))))]
  }

  /** `channelInputs: null` passes the `typeof` test, and reading `null.email` throws. */
  predicate NullInputs(b: PreferencesBody)
  {
    b.channelInputs == Some(Null)
  }

  function PreferencesOutcome(userId: string, b: PreferencesBody, env: Env, store: UpdateResult): Handled
  {
    if userId == "" then Unauthorized()
    else if NullInputs(b) then Handled(Thrown, None)
    else
      var data := Fill(PreferenceSlots(b, env));
      if |data| == 0 then Handled(Message(400, "No preference data provided to update."), None)
      else AfterUpdate(data, store, env, "Preferences updated successfully")
  }

  /**
   * The guarded assignments of the onboarding update object; `None` when reading the
   * members of a null `channelInputs` throws.
   */
  method BuildPreferences(b: PreferencesBody, env: Env) returns (data: Option<map<string, Cell>>)
    ensures NullInputs(b) ==> data.None?
    ensures !NullInputs(b) ==> data == Some(Fill(PreferenceSlots(b, env)))
  {
    var d: map<string, Cell> := map[];
    ghost var done: seq<Slot<Cell>> := [];
    var column := Column(env, "NOCODB_NICHE_COLUMN", "niche");
    d := Assign(d, column, Lift(b.niche), done);
    done := done + [(column, Lift(b.niche))];
    column := Column(env, "NOCODB_NOTIF_CHANNELS_COLUMN", "notification_channels");
    d := Assign(d, column, ChannelsCell(b.selectedChannels), done);
    done := done + [(column, ChannelsCell(b.selectedChannels))];
    var withInputs := AssignInputs(d, b, env, done);
    if withInputs.None? {
      return None;
    }
    d := withInputs.value;
    done := done + PreferenceSlots(b, env)[2..5];
    d := Assign(d, OnboardingColumn(env), Some(Raw(Bool(true))), done);
    done := done + [(OnboardingColumn(env), Some(Raw(Bool(true))))];
    assert done == PreferenceSlots(b, env);
    return Some(d);
  }

  lemma InputSlots(b: PreferencesBody, env: Env)
    ensures PreferenceSlots(b, env)[2..5] ==
            [(Column(env, "NOCODB_NOTIF_EMAIL_COLUMN", "notification_email"), InputCell(b.channelInputs, "email")),
             (Column(env, "NOCODB_NOTIF_TELEGRAM_COLUMN", "notification_telegram"), InputCell(b.channelInputs, "telegram")),
             (Column(env, "NOCODB_NOTIF_DISCORD_COLUMN", "notification_discord"), InputCell(b.channelInputs, "discord"))]
  {
  }

  /** The three `channelInputs` members, assigned only when `channelInputs` is an object. */
  method AssignInputs(data: map<string, Cell>, b: PreferencesBody, env: Env, ghost done: seq<Slot<Cell>>)
    returns (d: Option<map<string, Cell>>)
    requires data == Fill(done)
    ensures NullInputs(b) ==> d.None?
    ensures !NullInputs(b) ==> d == Some(Fill(done + PreferenceSlots(b, env)[2..5]))
  {
    var m := data;
    ghost var slots := done;
    var emailColumn := Column(env, "NOCODB_NOTIF_EMAIL_COLUMN", "notification_email");
    var telegramColumn := Column(env, "NOCODB_NOTIF_TELEGRAM_COLUMN", "notification_telegram");
    var discordColumn := Column(env, "NOCODB_NOTIF_DISCORD_COLUMN", "notification_discord");
    InputSlots(b, env);
    if b.channelInputs.Some? && IsObject(b.channelInputs.value) {
      var inputs := b.channelInputs.value;
      if inputs.Null? {
        return None;
      }
      m := Assign(m, emailColumn, Lift(Member(inputs, "email")), slots);
      slots := slots + [(emailColumn, Lift(Member(inputs, "email")))];
      m := Assign(m, telegramColumn, Lift(Member(inputs, "telegram")), slots);
      slots := slots + [(telegramColumn, Lift(Member(inputs, "telegram")))];
      m := Assign(m, discordColumn, Lift(Member(inputs, "discord")), slots);
      slots := slots + [(discordColumn, Lift(Member(inputs, "discord")))];
    } else {
      FillSnoc(slots, (emailColumn, None));
      slots := slots + [(emailColumn, None)];
      FillSnoc(slots, (telegramColumn, None));
      slots := slots + [(telegramColumn, None)];
      FillSnoc(slots, (discordColumn, None));
      slots := slots + [(discordColumn, None)];
    }
    assert slots == done + PreferenceSlots(b, env)[2..5];
    return Some(m);
  }

  method UpdateUserPreferences(userId: string, b: PreferencesBody, env: Env, store: UpdateResult) returns (h: Handled)
    ensures h == PreferencesOutcome(userId, b, env, store)
  {
    if userId == "" {
      return Unauthorized();
    }
    var built := BuildPreferences(b, env);
    if built.None? {
      return Handled(Thrown, None);
    }
    var data := built.value;
    if |data| == 0 {
      return Handled(Message(400, "No preference data provided to update."), None);
    }
    h := AfterUpdate(data, store, env, "Preferences updated successfully");
  }

  // ---------------------------------------------------------------------------------------
  // updateProfile and updateNotificationSettings
  // ---------------------------------------------------------------------------------------

  datatype ProfileBody = ProfileBody(name: Option<Value>, companyName: Option<Value>)

  function ProfileSlots(b: ProfileBody, env: Env): seq<Slot<Cell>>
  {
    [(Column(env, "NOCODB_NAME_COLUMN", "name"), Lift(b.name)),
     (Column(env, "NOCODB_COMPANY_NAME_COLUMN", "company_name"), Lift(b.companyName))]
  }

  function ProfileOutcome(userId: string, b: ProfileBody, env: Env, store: UpdateResult): Handled
  {
    if userId == "" then Unauthorized()
    else
      var data := Fill(ProfileSlots(b, env));
      if |data| == 0 then Handled(Message(200, "No profile data provided to update."), None)
      else AfterUpdate(data, store, env, "Profile updated successfully")
  }

  method UpdateProfile(userId: string, b: ProfileBody, env: Env, store: UpdateResult) returns (h: Handled)
    ensures h == ProfileOutcome(userId, b, env, store)
  {
    if userId == "" {
      return Unauthorized();
    }
    var data: map<string, Cell> := map[];
    ghost var done: seq<Slot<Cell>> := [];
    var column := Column(env, "NOCODB_NAME_COLUMN", "name");
    data := Assign(data, column, Lift(b.name), done);
    done := done + [(column, Lift(b.name))];
    column := Column(env, "NOCODB_COMPANY_NAME_COLUMN", "company_name");
    data := Assign(data, column, Lift(b.companyName), done);
    done := done + [(column, Lift(b.companyName))];
    assert done == ProfileSlots(b, env);
    if |data| == 0 {
      return Handled(Message(200, "No profile data provided to update."), None);
    }
    h := AfterUpdate(data, store, env, "Profile updated successfully");
  }

  datatype NotificationBody = NotificationBody(telegramChatId: Option<Value>, discordWebhookUrl: Option<Value>,
                                               deliveryPreference: Option<Value>)

  function TelegramChatColumn(env: Env): string
  {
    Column(env, "NOCODB_TELEGRAM_CHAT_ID_COLUMN", "telegram_chat_id")
  }

  function DiscordWebhookColumn(env: Env): string
  {
    Column(env, "NOCODB_DISCORD_WEBHOOK_COLUMN", "discord_webhook_url")
  }

  function DeliveryColumn(env: Env): string
  {
    Column(env, "NOCODB_DELIVERY_PREF_COLUMN", "delivery_preference")
  }

  function NotificationSlots(b: NotificationBody, env: Env): seq<Slot<Cell>>
  {
    [(TelegramChatColumn(env), Lift(b.telegramChatId)),
     (DiscordWebhookColumn(env), Lift(b.discordWebhookUrl)),
     (DeliveryColumn(env), Lift(b.deliveryPreference))]
  }

  function NotificationOutcome(userId: string, b: NotificationBody, env: Env, store: UpdateResult): Handled
  {
    if userId == "" then Unauthorized()
    else
      var data := Fill(NotificationSlots(b, env));
      if |data| == 0 then Handled(Message(200, "No notification settings provided to update."), None)
      else AfterUpdate(data, store, env, "Notification settings updated successfully")
  }

  /** The update object of `updateNotificationSettings`: each field assigned when it was sent. */
  method NotificationData(b: NotificationBody, env: Env) returns (data: map<string, Cell>)
    ensures data == Fill(NotificationSlots(b, env))
  {
    data := map[];
    ghost var done: seq<Slot<Cell>> := [];
    data := Assign(data, TelegramChatColumn(env), Lift(b.telegramChatId), done);
    done := done + [(TelegramChatColumn(env), Lift(b.telegramChatId))];
    data := Assign(data, DiscordWebhookColumn(env), Lift(b.discordWebhookUrl), done);
    done := done + [(DiscordWebhookColumn(env), Lift(b.discordWebhookUrl))];
    data := Assign(data, DeliveryColumn(env), Lift(b.deliveryPreference), done);
    done := done + [(DeliveryColumn(env), Lift(b.deliveryPreference))];
    assert done == NotificationSlots(b, env);
  }

  method UpdateNotificationSettings(userId: string, b: NotificationBody, env: Env, store: UpdateResult) returns (h: Handled)
    ensures h == NotificationOutcome(userId, b, env, store)
  {
    if userId == "" {
      return Unauthorized();
    }
    var data := NotificationData(b, env);
    if |data| == 0 {
      return Handled(Message(200, "No notification settings provided to update."), None);
    }
    h := AfterUpdate(data, store, env, "Notification settings updated successfully");
  }

  // ---------------------------------------------------------------------------------------
  // The readers: getNotificationSettings, getAlertPreferences, getAlertTemplates
  // ---------------------------------------------------------------------------------------

  /** A reader's answer: 401, 404, `next(error)`, or 200 with the columns `reply` builds. */
  function ReadOutcome(userId: string, fetch: FetchResult, fields: map<string, Value> -> map<string, Value>): Handled
  {
    if userId == "" then Unauthorized()
    else match fetch
      case FetchFailed => Handled(PassedOn, None)
      case NotFound => Handled(Message(404, UserNotFound), None)
      case Found(record) => Handled(Fields(200, fields(record)), None)
  }

  /** `[column]: record[column] ?? d`. */
  function Defaulted(record: map<string, Value>, column: string, d: Value): Slot<Value>
  {
    (column, Some(OrNullish(Lookup(record, column), d)))
  }

  function NotificationSettings(record: map<string, Value>, env: Env): map<string, Value>
  {
    Fill([Defaulted(record, TelegramChatColumn(env), Str("")),
          Defaulted(record, DiscordWebhookColumn(env), Str("")),
          Defaulted(record, DeliveryColumn(env), Str("Instantly"))])
  }

  method GetNotificationSettings(userId: string, fetch: FetchResult, env: Env) returns (h: Handled)
    ensures h == ReadOutcome(userId, fetch, r => NotificationSettings(r, env))
  {
    if userId == "" {
      return Unauthorized();
    }
    match fetch
    case FetchFailed => h := Handled(PassedOn, None);
    case NotFound => h := Handled(Message(404, UserNotFound), None);
    case Found(record) => h := Handled(Fields(200, NotificationSettings(record, env)), None);
  }

  /** The seven alert-preference columns, in the order the handlers write them. */
  function ViewsColumn(env: Env): string { Column(env, "NOCODB_THRESHOLD_VIEWS_COLUMN", "threshold_views") }
  function LikesColumn(env: Env): string { Column(env, "NOCODB_THRESHOLD_LIKES_COLUMN", "threshold_likes") }
  function CommentsColumn(env: Env): string { Column(env, "NOCODB_THRESHOLD_COMMENTS_COLUMN", "threshold_comments") }
  function VelocityColumn(env: Env): string { Column(env, "NOCODB_THRESHOLD_VELOCITY_COLUMN", "threshold_velocity") }
  function ChannelsColumn(env: Env): string { Column(env, "NOCODB_FILTER_CHANNELS_COLUMN", "filter_channels") }
  function NichesColumn(env: Env): string { Column(env, "NOCODB_FILTER_NICHES_COLUMN", "filter_niches") }
  function HashtagsColumn(env: Env): string { Column(env, "NOCODB_FILTER_HASHTAGS_COLUMN", "filter_hashtags") }

  function AlertPreferences(record: map<string, Value>, env: Env): map<string, Value>
  {
    Fill([Defaulted(record, ViewsColumn(env), Num(10000)),
          Defaulted(record, LikesColumn(env), Num(1000)),
          Defaulted(record, CommentsColumn(env), Num(100)),
          Defaulted(record, VelocityColumn(env), Num(500)),
          Defaulted(record, ChannelsColumn(env), Str("")),
          Defaulted(record, NichesColumn(env), Str("")),
          Defaulted(record, HashtagsColumn(env), Str(""))])
  }

  method GetAlertPreferences(userId: string, fetch: FetchResult, env: Env) returns (h: Handled)
    ensures h == ReadOutcome(userId, fetch, r => AlertPreferences(r, env))
  {
    if userId == "" {
      return Unauthorized();
    }
    match fetch
    case FetchFailed => h := Handled(PassedOn, None);
    case NotFound => h := Handled(Message(404, UserNotFound), None);
    case Found(record) => h := Handled(Fields(200, AlertPreferences(record, env)), None);
  }

  /** The fallback templates. */
  const DefaultTelegram: string :=
    "\U{1F525} TRENDING: {video_title}\n\n\U{1F4C8} {views} views \U{2022} {likes} likes \U{2022} {comments} comments" +
    "\n\n\U{1F464} {channel_name}\n\n\U{1F552} Posted {time_ago}\n\n\U{1F449} {video_url}"
  const DefaultDiscord: string :=
    "**\U{1F525} TRENDING VIDEO ALERT \U{1F525}**\n\n**Title:** {video_title}\n**Channel:** {channel_name}" +
    "\n\n**Stats:** \U{1F4C8} {views} views | \U{1F44D} {likes} likes | \U{1F4AC} {comments} comments" +
    "\n**Posted:** {time_ago}\n\n{video_url}"
  const DefaultEmailSubject: string := "\U{1F525} New Trending Shorts Alert from Trendy"
  const DefaultEmailPreview: string := "A new video is trending: {video_title}"

  function TemplateTelegramColumn(env: Env): string { Column(env, "NOCODB_TEMPLATE_TELEGRAM_COLUMN", "alert_template_telegram") }
  function TemplateDiscordColumn(env: Env): string { Column(env, "NOCODB_TEMPLATE_DISCORD_COLUMN", "alert_template_discord") }
  function TemplateSubjectColumn(env: Env): string { Column(env, "NOCODB_TEMPLATE_EMAIL_SUBJECT_COLUMN", "alert_template_email_subject") }
  function TemplatePreviewColumn(env: Env): string { Column(env, "NOCODB_TEMPLATE_EMAIL_PREVIEW_COLUMN", "alert_template_email_preview") }

  /** `[column]: record[column] || d`. */
  function OrDefaultTemplate(record: map<string, Value>, column: string, d: string): Slot<Value>
  {
    (column, Some(OrFalsy(Lookup(record, column), Str(d))))
  }

  function AlertTemplates(record: map<string, Value>, env: Env): map<string, Value>
  {
    Fill([OrDefaultTemplate(record, TemplateTelegramColumn(env), DefaultTelegram),
          OrDefaultTemplate(record, TemplateDiscordColumn(env), DefaultDiscord),
          OrDefaultTemplate(record, TemplateSubjectColumn(env), DefaultEmailSubject),
          OrDefaultTemplate(record, TemplatePreviewColumn(env), DefaultEmailPreview)])
  }

  method GetAlertTemplates(userId: string, fetch: FetchResult, env: Env) returns (h: Handled)
    ensures h == ReadOutcome(userId, fetch, r => AlertTemplates(r, env))
  {
    if userId == "" {
      return Unauthorized();
    }
    match fetch
    case FetchFailed => h := Handled(PassedOn, None);
    case NotFound => h := Handled(Message(404, UserNotFound), None);
    case Found(record) => h := Handled(Fields(200, AlertTemplates(record, env)), None);
  }

  // ---------------------------------------------------------------------------------------
  // updateAlertPreferences and updateAlertTemplates
  // ---------------------------------------------------------------------------------------

  datatype AlertPreferencesBody = AlertPreferencesBody(
    thresholdViews: Option<Value>, thresholdLikes: Option<Value>, thresholdComments: Option<Value>,
    thresholdVelocity: Option<Value>, filterChannels: Option<Value>, filterNiches: Option<Value>,
    filterHashtags: Option<Value>)

  /** `parseInt(x, 10) || 0` of a present threshold. */
  function Threshold(x: Option<Value>): Option<Cell>
  {
    if x.Some? then Some(Raw(Num(IntOrZero(x.value)))) else None
  }

  function AlertPreferenceSlots(b: AlertPreferencesBody, env: Env): seq<Slot<Cell>>
  {
    [(ViewsColumn(env), Threshold(b.thresholdViews)),
     (LikesColumn(env), Threshold(b.thresholdLikes)),
     (CommentsColumn(env), Threshold(b.thresholdComments)),
     (VelocityColumn(env), Threshold(b.thresholdVelocity)),
     (ChannelsColumn(env), Lift(b.filterChannels)),
     (NichesColumn(env), Lift(b.filterNiches)),
     (HashtagsColumn(env), Lift(b.filterHashtags))]
  }

  function AlertPreferencesOutcome(userId: string, b: AlertPreferencesBody, env: Env, store: UpdateResult): Handled
  {
    if userId == "" then Unauthorized()
    else
      var data := Fill(AlertPreferenceSlots(b, env));
      if |data| == 0 then Handled(Message(200, "No alert preferences provided to update."), None)
      else AfterEchoUpdate(data, store, "Alert preferences updated successfully", "preferences")
  }

  /** The seven guarded assignments of the alert-preference update object. */
  method BuildAlertPreferences(b: AlertPreferencesBody, env: Env) returns (data: map<string, Cell>)
    ensures data == Fill(AlertPreferenceSlots(b, env))
  {
    data := map[];
    ghost var done: seq<Slot<Cell>> := [];
    data := Assign(data, ViewsColumn(env), Threshold(b.thresholdViews), done);
    done := done + [(ViewsColumn(env), Threshold(b.thresholdViews))];
    data := Assign(data, LikesColumn(env), Threshold(b.thresholdLikes), done);
    done := done + [(LikesColumn(env), Threshold(b.thresholdLikes))];
    data := Assign(data, CommentsColumn(env), Threshold(b.thresholdComments), done);
    done := done + [(CommentsColumn(env), Threshold(b.thresholdComments))];
    data := Assign(data, VelocityColumn(env), Threshold(b.thresholdVelocity), done);
    done := done + [(VelocityColumn(env), Threshold(b.thresholdVelocity))];
    data := Assign(data, ChannelsColumn(env), Lift(b.filterChannels), done);
    done := done + [(ChannelsColumn(env), Lift(b.filterChannels))];
    data := Assign(data, NichesColumn(env), Lift(b.filterNiches), done);
    done := done + [(NichesColumn(env), Lift(b.filterNiches))];
    data := Assign(data, HashtagsColumn(env), Lift(b.filterHashtags), done);
    done := done + [(HashtagsColumn(env), Lift(b.filterHashtags))];
    assert done == AlertPreferenceSlots(b, env);
  }

  method UpdateAlertPreferences(userId: string, b: AlertPreferencesBody, env: Env, store: UpdateResult) returns (h: Handled)
    ensures h == AlertPreferencesOutcome(userId, b, env, store)
  {
    if userId == "" {
      return Unauthorized();
    }
    var data := BuildAlertPreferences(b, env);
    if |data| == 0 {
      return Handled(Message(200, "No alert preferences provided to update."), None);
    }
    h := AfterEchoUpdate(data, store, "Alert preferences updated successfully", "preferences");
  }

  datatype TemplatesBody = TemplatesBody(templateTelegram: Option<Value>, templateDiscord: Option<Value>,
                                         templateEmailSubject: Option<Value>, templateEmailPreview: Option<Value>)

  function TemplateSlots(b: TemplatesBody, env: Env): seq<Slot<Cell>>
  {
    [(TemplateTelegramColumn(env), Lift(b.templateTelegram)),
     (TemplateDiscordColumn(env), Lift(b.templateDiscord)),
     (TemplateSubjectColumn(env), Lift(b.templateEmailSubject)),
     (TemplatePreviewColumn(env), Lift(b.templateEmailPreview))]
  }

  function TemplatesOutcome(userId: string, b: TemplatesBody, env: Env, store: UpdateResult): Handled
  {
    if userId == "" then Unauthorized()
    else
      var data := Fill(TemplateSlots(b, env));
      if |data| == 0 then Handled(Message(200, "No alert templates provided to update."), None)
      else AfterEchoUpdate(data, store, "Alert templates updated successfully", "templates")
  }

  /** The four guarded assignments of the template update object. */
  method BuildTemplates(b: TemplatesBody, env: Env) returns (data: map<string, Cell>)
    ensures data == Fill(TemplateSlots(b, env))
  {
    data := map[];
    ghost var done: seq<Slot<Cell>> := [];
    data := Assign(data, TemplateTelegramColumn(env), Lift(b.templateTelegram), done);
    done := done + [(TemplateTelegramColumn(env), Lift(b.templateTelegram))];
    data := Assign(data, TemplateDiscordColumn(env), Lift(b.templateDiscord), done);
    done := done + [(TemplateDiscordColumn(env), Lift(b.templateDiscord))];
    data := Assign(data, TemplateSubjectColumn(env), Lift(b.templateEmailSubject), done);
    done := done + [(TemplateSubjectColumn(env), Lift(b.templateEmailSubject))];
    data := Assign(data, TemplatePreviewColumn(env), Lift(b.templateEmailPreview), done);
    done := done + [(TemplatePreviewColumn(env), Lift(b.templateEmailPreview))];
    assert done == TemplateSlots(b, env);
  }

  method UpdateAlertTemplates(userId: string, b: TemplatesBody, env: Env, store: UpdateResult) returns (h: Handled)
    ensures h == TemplatesOutcome(userId, b, env, store)
  {
    if userId == "" {
      return Unauthorized();
    }
    var data := BuildTemplates(b, env);
    if |data| == 0 {
      return Handled(Message(200, "No alert templates provided to update."), None);
    }
    h := AfterEchoUpdate(data, store, "Alert templates updated successfully", "templates");
  }

  // ---------------------------------------------------------------------------------------
  // Properties
  // ---------------------------------------------------------------------------------------

  /** Every handler answers 401 and calls no store when the request carries no user id. */
  lemma MissingUserRejected(pb: PreferencesBody, rb: ProfileBody, nb: NotificationBody, ab: AlertPreferencesBody,
                            tb: TemplatesBody, env: Env, store: UpdateResult, fetch: FetchResult)
    ensures PreferencesOutcome("", pb, env, store) == Handled(Message(401, NotAuthorized), None)
    ensures ProfileOutcome("", rb, env, store) == Handled(Message(401, NotAuthorized), None)
    ensures NotificationOutcome("", nb, env, store) == Handled(Message(401, NotAuthorized), None)
    ensures AlertPreferencesOutcome("", ab, env, store) == Handled(Message(401, NotAuthorized), None)
    ensures TemplatesOutcome("", tb, env, store) == Handled(Message(401, NotAuthorized), None)
    ensures ReadOutcome("", fetch, r => NotificationSettings(r, env)) == Handled(Message(401, NotAuthorized), None)
    ensures ReadOutcome("", fetch, r => AlertPreferences(r, env)) == Handled(Message(401, NotAuthorized), None)
    ensures ReadOutcome("", fetch, r => AlertTemplates(r, env)) == Handled(Message(401, NotAuthorized), None)
  {
  }

  /**
   * The onboarding handler always writes `onboarding_complete: true`, so its update object is
   * never empty, the store is always called and the 400 answer cannot happen.
   */
  lemma OnboardingAlwaysWritten(userId: string, b: PreferencesBody, env: Env, store: UpdateResult)
    requires userId != "" && !NullInputs(b)
    ensures var h := PreferencesOutcome(userId, b, env, store);
            h.sent.Some? && OnboardingColumn(env) in h.sent.value &&
            h.sent.value[OnboardingColumn(env)] == Raw(Bool(true)) &&
            h.response != Message(400, "No preference data provided to update.")
  {
    var slots := PreferenceSlots(b, env);
    assert Fill(slots) == Put(Fill(slots[..5]), slots[5]);
  }

  /** A null `channelInputs` makes the onboarding handler throw before it reaches the store. */
  lemma NullInputsThrow(userId: string, b: PreferencesBody, env: Env, store: UpdateResult)
    requires userId != "" && NullInputs(b)
    ensures PreferencesOutcome(userId, b, env, store) == Handled(Thrown, None)
  {
  }

  /** `d` holds `column` exactly when `value` is defined, and then holds that value. */
  ghost predicate Writes<V>(d: map<string, V>, column: string, value: Option<V>)
  {
    (column in d <==> value.Some?) && (value.Some? ==> d[column] == value.value)
  }

  /** With distinct columns, the object writes every slot and holds no other column. */
  lemma FillWrites<V>(slots: seq<Slot<V>>)
    requires Distinct(slots)
    ensures forall i :: 0 <= i < |slots| ==> Writes(Fill(slots), slots[i].0, slots[i].1)
    ensures forall k :: k in Fill(slots) ==> exists i :: 0 <= i < |slots| && slots[i].0 == k
  {
    FillDistinct(slots);
  }

  lemma PreferenceColumnsDistinct(b: PreferencesBody)
    ensures Distinct(PreferenceSlots(b, map[]))
  {
    var slots := PreferenceSlots(b, map[]);
    assert slots[0].0 == "niche" && slots[1].0 == "notification_channels" && slots[2].0 == "notification_email";
    assert slots[3].0 == "notification_telegram" && slots[4].0 == "notification_discord";
    assert slots[5].0 == "onboarding_complete";
    assert slots[2].0[13] == 'e' && slots[3].0[13] == 't' && slots[4].0[13] == 'd';
  }

  /**
   * With the default column names, the onboarding update holds the niche exactly when it was
   * sent, the channel list only when it is an array (as its JSON text), each channel input only
   * when `channelInputs` is an object holding it, and the onboarding flag; nothing else.
   */
  lemma PreferencesWritten(b: PreferencesBody)
    ensures var d := Fill(PreferenceSlots(b, map[]));
            Writes(d, "niche", Lift(b.niche)) &&
            Writes(d, "notification_channels", ChannelsCell(b.selectedChannels)) &&
            Writes(d, "notification_email", InputCell(b.channelInputs, "email")) &&
            Writes(d, "notification_telegram", InputCell(b.channelInputs, "telegram")) &&
            Writes(d, "notification_discord", InputCell(b.channelInputs, "discord")) &&
            Writes(d, "onboarding_complete", Some(Raw(Bool(true)))) &&
            d.Keys <= {"niche", "notification_channels", "notification_email", "notification_telegram",
                       "notification_discord", "onboarding_complete"}
  {
    var slots := PreferenceSlots(b, map[]);
    PreferenceColumnsDistinct(b);
    FillWrites(slots);
    assert slots[0].0 == "niche" && slots[1].0 == "notification_channels" && slots[2].0 == "notification_email";
    assert slots[3].0 == "notification_telegram" && slots[4].0 == "notification_discord";
    assert slots[5].0 == "onboarding_complete";
  }

  /** What the onboarding handler sends to the store is that update object. */
  lemma PreferencesSent(userId: string, b: PreferencesBody, env: Env, store: UpdateResult)
    requires userId != "" && !NullInputs(b)
    ensures PreferencesOutcome(userId, b, env, store).sent == Some(Fill(PreferenceSlots(b, env)))
  {
    OnboardingAlwaysWritten(userId, b, env, store);
  }

  /** `selectedChannels` is written, as its JSON text, only when it is an array. */
  lemma ChannelsCellMeaning(x: Option<Value>)
    ensures ChannelsCell(x).Some? <==> x.Some? && x.value.List?
    ensures ChannelsCell(x).Some? ==> ChannelsCell(x).value == JsonText(x.value.items)
  {
  }

  /** Reading `channelInputs.key` writes the member only when `channelInputs` is an object that has it. */
  lemma InputCellMeaning(inputs: Option<Value>, key: string)
    ensures InputCell(inputs, key).Some? <==> inputs.Some? && inputs.value.Obj? && key in inputs.value.fields
    ensures InputCell(inputs, key).Some? ==> InputCell(inputs, key).value == Raw(inputs.value.fields[key])
  {
  }

  /** An update with no field in its object: no store call, exactly when every field is undefined. */
  lemma {:induction false} FillEmpty<V>(slots: seq<Slot<V>>)
    ensures |Fill(slots)| == 0 <==> forall i :: 0 <= i < |slots| ==> slots[i].1.None?
  {
    if |Fill(slots)| == 0 {
      forall i | 0 <= i < |slots|
        ensures slots[i].1.None?
      {
        FillKeys(slots, slots[i].0);
      }
    } else {
      var k :| k in Fill(slots);
      FillKeys(slots, k);
    }
  }

  /** A profile update with no field given answers 200 without calling the store; any field given calls it. */
  lemma ProfileNoFields(userId: string, b: ProfileBody, env: Env, store: UpdateResult)
    requires userId != ""
    ensures ProfileOutcome(userId, b, env, store).sent.None? <==> b.name.None? && b.companyName.None?
    ensures b.name.None? && b.companyName.None? ==>
              ProfileOutcome(userId, b, env, store).response == Message(200, "No profile data provided to update.")
  {
    var slots := ProfileSlots(b, env);
    FillEmpty(slots);
    assert slots[0].1.None? <==> b.name.None?;
    assert slots[1].1.None? <==> b.companyName.None?;
  }

  /** A notification update with no field given answers 200 without calling the store; any field given calls it. */
  lemma NotificationNoFields(userId: string, b: NotificationBody, env: Env, store: UpdateResult)
    requires userId != ""
    ensures NotificationOutcome(userId, b, env, store).sent.None? <==>
              b.telegramChatId.None? && b.discordWebhookUrl.None? && b.deliveryPreference.None?
    ensures b.telegramChatId.None? && b.discordWebhookUrl.None? && b.deliveryPreference.None? ==>
              NotificationOutcome(userId, b, env, store).response ==
              Message(200, "No notification settings provided to update.")
  {
    var slots := NotificationSlots(b, env);
    FillEmpty(slots);
    assert slots[0].1.None? <==> b.telegramChatId.None?;
    assert slots[1].1.None? <==> b.discordWebhookUrl.None?;
    assert slots[2].1.None? <==> b.deliveryPreference.None?;
  }

  /** A template update with no template given answers 200 without calling the store; any template given calls it. */
  lemma TemplatesNoFields(userId: string, b: TemplatesBody, env: Env, store: UpdateResult)
    requires userId != ""
    ensures TemplatesOutcome(userId, b, env, store).sent.None? <==>
              b.templateTelegram.None? && b.templateDiscord.None? && b.templateEmailSubject.None? &&
              b.templateEmailPreview.None?
    ensures b.templateTelegram.None? && b.templateDiscord.None? && b.templateEmailSubject.None? &&
            b.templateEmailPreview.None? ==>
              TemplatesOutcome(userId, b, env, store).response == Message(200, "No alert templates provided to update.")
  {
    var slots := TemplateSlots(b, env);
    FillEmpty(slots);
    assert slots[0].1.None? <==> b.templateTelegram.None?;
    assert slots[1].1.None? <==> b.templateDiscord.None?;
    assert slots[2].1.None? <==> b.templateEmailSubject.None?;
    assert slots[3].1.None? <==> b.templateEmailPreview.None?;
  }

  /** With the default column names, a profile update writes exactly the given fields. */
  lemma ProfileWritten(userId: string, b: ProfileBody, store: UpdateResult)
    requires userId != "" && (b.name.Some? || b.companyName.Some?)
    ensures var h := ProfileOutcome(userId, b, map[], store);
            h.sent.Some? &&
            Writes(h.sent.value, "name", Lift(b.name)) &&
            Writes(h.sent.value, "company_name", Lift(b.companyName)) &&
            h.sent.value.Keys <= {"name", "company_name"}
  {
    var slots := ProfileSlots(b, map[]);
    assert slots[0].0 == "name" && slots[1].0 == "company_name";
    FillWrites(slots);
    ProfileNoFields(userId, b, map[], store);
  }

  /** With the default column names, a notification update writes exactly the given fields. */
  lemma NotificationWritten(userId: string, b: NotificationBody, store: UpdateResult)
    requires userId != "" && (b.telegramChatId.Some? || b.discordWebhookUrl.Some? || b.deliveryPreference.Some?)
    ensures var h := NotificationOutcome(userId, b, map[], store);
            h.sent.Some? &&
            Writes(h.sent.value, "telegram_chat_id", Lift(b.telegramChatId)) &&
            Writes(h.sent.value, "discord_webhook_url", Lift(b.discordWebhookUrl)) &&
            Writes(h.sent.value, "delivery_preference", Lift(b.deliveryPreference)) &&
            h.sent.value.Keys <= {"telegram_chat_id", "discord_webhook_url", "delivery_preference"}
  {
    NotificationNoFields(userId, b, map[], store);
    NotificationSent(userId, b, map[], store);
    NotificationFill(b);
  }

  /** Once a field is given, the update object sent is the filled slots. */
  lemma NotificationSent(userId: string, b: NotificationBody, env: Env, store: UpdateResult)
    requires userId != "" && |Fill(NotificationSlots(b, env))| != 0
    ensures NotificationOutcome(userId, b, env, store).sent == Some(Fill(NotificationSlots(b, env)))
  {
  }

  /** The default notification columns are written exactly as given. */
  lemma NotificationFill(b: NotificationBody)
    ensures var d := Fill(NotificationSlots(b, map[]));
            Writes(d, "telegram_chat_id", Lift(b.telegramChatId)) &&
            Writes(d, "discord_webhook_url", Lift(b.discordWebhookUrl)) &&
            Writes(d, "delivery_preference", Lift(b.deliveryPreference)) &&
            d.Keys <= {"telegram_chat_id", "discord_webhook_url", "delivery_preference"}
  {
    var slots := NotificationSlots(b, map[]);
    assert slots[0].0 == "telegram_chat_id" && slots[1].0 == "discord_webhook_url";
    assert slots[2].0 == "delivery_preference";
    FillWrites(slots);
  }

  lemma AlertColumnsDistinct(b: AlertPreferencesBody)
    ensures Distinct(AlertPreferenceSlots(b, map[]))
  {
    var slots := AlertPreferenceSlots(b, map[]);
    assert slots[0].0 == "threshold_views" && slots[1].0 == "threshold_likes";
    assert slots[2].0 == "threshold_comments" && slots[3].0 == "threshold_velocity";
    assert slots[4].0 == "filter_channels" && slots[5].0 == "filter_niches" && slots[6].0 == "filter_hashtags";
    assert slots[0].0[10] == 'v' && slots[1].0[10] == 'l' && slots[2].0[10] == 'c' && slots[3].0[10] == 'v';
    assert slots[0].0[11] == 'i' && slots[3].0[11] == 'e';
    assert slots[4].0[7] == 'c' && slots[5].0[7] == 'n' && slots[6].0[7] == 'h';
  }

  /**
   * With the default column names, an alert-preference update stores `parseInt(x, 10) || 0`
   * for each given threshold and each given filter as sent; only the seven known columns can
   * be written, so any other body field is dropped.
   */
  lemma AlertPreferencesWritten(b: AlertPreferencesBody)
    ensures var d := Fill(AlertPreferenceSlots(b, map[]));
            Writes(d, "threshold_views", Threshold(b.thresholdViews)) &&
            Writes(d, "threshold_likes", Threshold(b.thresholdLikes)) &&
            Writes(d, "threshold_comments", Threshold(b.thresholdComments)) &&
            Writes(d, "threshold_velocity", Threshold(b.thresholdVelocity)) &&
            Writes(d, "filter_channels", Lift(b.filterChannels)) &&
            Writes(d, "filter_niches", Lift(b.filterNiches)) &&
            Writes(d, "filter_hashtags", Lift(b.filterHashtags)) &&
            d.Keys <= {"threshold_views", "threshold_likes", "threshold_comments", "threshold_velocity",
                       "filter_channels", "filter_niches", "filter_hashtags"}
  {
    var slots := AlertPreferenceSlots(b, map[]);
    AlertColumnsDistinct(b);
    FillWrites(slots);
    assert slots[0].0 == "threshold_views" && slots[1].0 == "threshold_likes";
    assert slots[2].0 == "threshold_comments" && slots[3].0 == "threshold_velocity";
    assert slots[4].0 == "filter_channels" && slots[5].0 == "filter_niches" && slots[6].0 == "filter_hashtags";
  }

  /** The alert-preference handler sends that object whenever it is not empty, and nothing otherwise. */
  lemma AlertPreferencesSent(userId: string, b: AlertPreferencesBody, env: Env, store: UpdateResult)
    requires userId != ""
    ensures var d := Fill(AlertPreferenceSlots(b, env));
            AlertPreferencesOutcome(userId, b, env, store).sent == if |d| == 0 then None else Some(d)
  {
  }

  /** A threshold is written as `parseInt(x, 10) || 0`: numbers and their decimal text are kept, words become 0. */
  lemma ThresholdMeaning(n: int)
    ensures Threshold(Some(Num(n))) == Some(Raw(Num(n)))
    ensures Threshold(Some(Str(Js.IntToString(n)))) == Some(Raw(Num(n)))
    ensures Threshold(Some(Str(""))) == Some(Raw(Num(0))) && Threshold(Some(Null)) == Some(Raw(Num(0)))
  {
    IntOrZeroReads(n, "");
    IntOrZeroWords();
    ThresholdIs(Num(n), n);
    ThresholdIs(Str(Js.IntToString(n)), n);
    ThresholdIs(Str(""), 0);
    ThresholdIs(Null, 0);
  }

  lemma ThresholdIs(v: Value, k: int)
    requires IntOrZero(v) == k
    ensures Threshold(Some(v)) == Some(Raw(Num(k)))
  {
  }

  /** The response is the store's record with the password column removed and every other column kept. */
  predicate StripsPassword(r: Response, user: map<string, Value>, env: Env)
  {
    r.WithUser? ==>
      PasswordColumn(env) !in r.user &&
      forall k :: k in user && k != PasswordColumn(env) ==> k in r.user && r.user[k] == user[k]
  }

  lemma AfterUpdateStrips(data: map<string, Cell>, user: map<string, Value>, env: Env, message: string)
    ensures StripsPassword(AfterUpdate(data, Updated(user), env, message).response, user, env)
  {
  }

  /** The update handlers that return the user strip the password column from the store's record. */
  lemma PasswordStripped(userId: string, pb: PreferencesBody, rb: ProfileBody, nb: NotificationBody,
                         env: Env, user: map<string, Value>)
    ensures StripsPassword(PreferencesOutcome(userId, pb, env, Updated(user)).response, user, env)
    ensures StripsPassword(ProfileOutcome(userId, rb, env, Updated(user)).response, user, env)
    ensures StripsPassword(NotificationOutcome(userId, nb, env, Updated(user)).response, user, env)
  {
    PreferencesStrip(userId, pb, env, user);
    ProfileStrip(userId, rb, env, user);
    NotificationStrip(userId, nb, env, user);
  }

  lemma PreferencesStrip(userId: string, b: PreferencesBody, env: Env, user: map<string, Value>)
    ensures StripsPassword(PreferencesOutcome(userId, b, env, Updated(user)).response, user, env)
  {
    if userId != "" && !NullInputs(b) {
      AfterUpdateStrips(Fill(PreferenceSlots(b, env)), user, env, "Preferences updated successfully");
    }
  }

  lemma ProfileStrip(userId: string, b: ProfileBody, env: Env, user: map<string, Value>)
    ensures StripsPassword(ProfileOutcome(userId, b, env, Updated(user)).response, user, env)
  {
    if userId != "" {
      AfterUpdateStrips(Fill(ProfileSlots(b, env)), user, env, "Profile updated successfully");
    }
  }

  lemma NotificationStrip(userId: string, b: NotificationBody, env: Env, user: map<string, Value>)
    ensures StripsPassword(NotificationOutcome(userId, b, env, Updated(user)).response, user, env)
  {
    if userId != "" {
      AfterUpdateStrips(Fill(NotificationSlots(b, env)), user, env, "Notification settings updated successfully");
    }
  }

  /** The response holds, for exactly the written columns the record has, the record's values. */
  predicate EchoesWritten(h: Handled, user: map<string, Value>)
  {
    h.response.Echo? ==>
      h.sent.Some? && h.response.values.Keys == h.sent.value.Keys * user.Keys &&
      forall k :: k in h.response.values ==> h.response.values[k] == user[k]
  }

  /** The alert-preference and template updates echo back only the columns they wrote. */
  lemma EchoesOnlyUpdated(userId: string, ab: AlertPreferencesBody, tb: TemplatesBody, env: Env,
                          user: map<string, Value>)
    ensures EchoesWritten(AlertPreferencesOutcome(userId, ab, env, Updated(user)), user)
    ensures EchoesWritten(TemplatesOutcome(userId, tb, env, Updated(user)), user)
  {
    PreferencesEchoWritten(userId, ab, env, user);
    TemplatesEchoWritten(userId, tb, env, user);
  }

  lemma PreferencesEchoWritten(userId: string, ab: AlertPreferencesBody, env: Env, user: map<string, Value>)
    ensures EchoesWritten(AlertPreferencesOutcome(userId, ab, env, Updated(user)), user)
  {
  }

  lemma TemplatesEchoWritten(userId: string, tb: TemplatesBody, env: Env, user: map<string, Value>)
    ensures EchoesWritten(TemplatesOutcome(userId, tb, env, Updated(user)), user)
  {
  }

  /** With the default column names, the notification reader fills gaps with '' and 'Instantly'. */
  lemma NotificationDefaults(record: map<string, Value>)
    ensures var f := NotificationSettings(record, map[]);
            f.Keys == {"telegram_chat_id", "discord_webhook_url", "delivery_preference"} &&
            f["telegram_chat_id"] == OrNullish(Lookup(record, "telegram_chat_id"), Str("")) &&
            f["discord_webhook_url"] == OrNullish(Lookup(record, "discord_webhook_url"), Str("")) &&
            f["delivery_preference"] == OrNullish(Lookup(record, "delivery_preference"), Str("Instantly"))
  {
    var slots := [Defaulted(record, "telegram_chat_id", Str("")),
                  Defaulted(record, "discord_webhook_url", Str("")),
                  Defaulted(record, "delivery_preference", Str("Instantly"))];
    assert NotificationSettings(record, map[]) == Fill(slots);
    FillWrites(slots);
    forall k | k in Fill(slots)
      ensures k in {"telegram_chat_id", "discord_webhook_url", "delivery_preference"}
    {
      var i :| 0 <= i < |slots| && slots[i].0 == k;
      assert i == 0 || i == 1 || i == 2;
    }
    assert Writes(Fill(slots), slots[0].0, slots[0].1);
    assert Writes(Fill(slots), slots[1].0, slots[1].1);
    assert Writes(Fill(slots), slots[2].0, slots[2].1);
  }

  function AlertReaderSlots(record: map<string, Value>): seq<Slot<Value>>
  {
    [Defaulted(record, "threshold_views", Num(10000)),
     Defaulted(record, "threshold_likes", Num(1000)),
     Defaulted(record, "threshold_comments", Num(100)),
     Defaulted(record, "threshold_velocity", Num(500)),
     Defaulted(record, "filter_channels", Str("")),
     Defaulted(record, "filter_niches", Str("")),
     Defaulted(record, "filter_hashtags", Str(""))]
  }

  lemma AlertReaderWrites(record: map<string, Value>)
    ensures AlertPreferences(record, map[]) == Fill(AlertReaderSlots(record))
    ensures var slots := AlertReaderSlots(record);
            forall i :: 0 <= i < |slots| ==> Writes(Fill(slots), slots[i].0, slots[i].1)
    ensures var slots := AlertReaderSlots(record);
            forall k :: k in Fill(slots) ==> exists i :: 0 <= i < |slots| && slots[i].0 == k
  {
    var slots := AlertReaderSlots(record);
    AlertColumnsDistinct(AlertPreferencesBody(None, None, None, None, None, None, None));
    assert Distinct(slots);
    FillWrites(slots);
  }

  /**
   * With the default column names, the alert-preference reader fills null or missing values
   * with 10000, 1000, 100 and 500 for the thresholds and "" for the three filters.
   */
  lemma AlertPreferenceDefaults(record: map<string, Value>)
    ensures var f := AlertPreferences(record, map[]);
            f.Keys == {"threshold_views", "threshold_likes", "threshold_comments", "threshold_velocity",
                       "filter_channels", "filter_niches", "filter_hashtags"} &&
            f["threshold_views"] == OrNullish(Lookup(record, "threshold_views"), Num(10000)) &&
            f["threshold_likes"] == OrNullish(Lookup(record, "threshold_likes"), Num(1000)) &&
            f["threshold_comments"] == OrNullish(Lookup(record, "threshold_comments"), Num(100)) &&
            f["threshold_velocity"] == OrNullish(Lookup(record, "threshold_velocity"), Num(500)) &&
            f["filter_channels"] == OrNullish(Lookup(record, "filter_channels"), Str("")) &&
            f["filter_niches"] == OrNullish(Lookup(record, "filter_niches"), Str("")) &&
            f["filter_hashtags"] == OrNullish(Lookup(record, "filter_hashtags"), Str(""))
  {
    var slots := AlertReaderSlots(record);
    AlertReaderWrites(record);
    var f := Fill(slots);
    forall k | k in f
      ensures k in {"threshold_views", "threshold_likes", "threshold_comments", "threshold_velocity",
                    "filter_channels", "filter_niches", "filter_hashtags"}
    {
      var i :| 0 <= i < |slots| && slots[i].0 == k;
      assert i == 0 || i == 1 || i == 2 || i == 3 || i == 4 || i == 5 || i == 6;
    }
    assert Writes(f, slots[0].0, slots[0].1);
    assert Writes(f, slots[1].0, slots[1].1);
    assert Writes(f, slots[2].0, slots[2].1);
    assert Writes(f, slots[3].0, slots[3].1);
    assert Writes(f, slots[4].0, slots[4].1);
    assert Writes(f, slots[5].0, slots[5].1);
    assert Writes(f, slots[6].0, slots[6].1);
  }

  /** Four defined slots fill the object that assigns them in order. */
  lemma FillFour<V>(a: Slot<V>, b: Slot<V>, c: Slot<V>, d: Slot<V>)
    requires a.1.Some? && b.1.Some? && c.1.Some? && d.1.Some?
    ensures Fill([a, b, c, d]) == map[a.0 := a.1.value, b.0 := b.1.value, c.0 := c.1.value, d.0 := d.1.value]
  {
    var empty: seq<Slot<V>> := [];
    FillSnoc(empty, a);
    assert empty + [a] == [a];
    FillSnoc([a], b);
    assert [a] + [b] == [a, b];
    FillSnoc([a, b], c);
    assert [a, b] + [c] == [a, b, c];
    FillSnoc([a, b, c], d);
    assert [a, b, c] + [d] == [a, b, c, d];
  }

  /** With the default column names, the template reader replaces every falsy value by its default. */
  lemma TemplateDefaults(record: map<string, Value>)
    ensures var f := AlertTemplates(record, map[]);
            f.Keys == {"alert_template_telegram", "alert_template_discord", "alert_template_email_subject",
                       "alert_template_email_preview"} &&
            f["alert_template_telegram"] == OrFalsy(Lookup(record, "alert_template_telegram"), Str(DefaultTelegram)) &&
            f["alert_template_discord"] == OrFalsy(Lookup(record, "alert_template_discord"), Str(DefaultDiscord)) &&
            f["alert_template_email_subject"] ==
              OrFalsy(Lookup(record, "alert_template_email_subject"), Str(DefaultEmailSubject)) &&
            f["alert_template_email_preview"] ==
              OrFalsy(Lookup(record, "alert_template_email_preview"), Str(DefaultEmailPreview))
  {
    var t := OrDefaultTemplate(record, "alert_template_telegram", DefaultTelegram);
    var d := OrDefaultTemplate(record, "alert_template_discord", DefaultDiscord);
    var e := OrDefaultTemplate(record, "alert_template_email_subject", DefaultEmailSubject);
    var p := OrDefaultTemplate(record, "alert_template_email_preview", DefaultEmailPreview);
    assert AlertTemplates(record, map[]) == Fill([t, d, e, p]);
    FillFour(t, d, e, p);
    assert e.0[21] == 's' && p.0[21] == 'p';
  }
}
