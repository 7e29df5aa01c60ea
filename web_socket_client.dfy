/**
 * The web client's WebSocket hook: the connection reference, and what it does with each
 * server message, above all which user fields a subscription or Telegram status update asks
 * the auth context to change. Frames arrive already decoded; the socket itself is left out.
 */
module WebSocketClient {
  import opened Wrappers
  import opened JsonValue
  import UserController

  type User = map<string, Value>

  /** A partial user for `updateUserContext`: each key with its new value, None for `undefined`. */
  type Fields = map<string, Option<Value>>

  /** Build-time variables naming the user columns. */
  type Env = map<string, string>

  function PlanKey(env: Env): string { UserController.Column(env, "VITE_CURRENT_PLAN_COLUMN", "current_plan") }
  function StatusKey(env: Env): string { UserController.Column(env, "VITE_SUB_STATUS_COLUMN", "subscription_status") }
  function VerifiedKey(env: Env): string { UserController.Column(env, "VITE_TELEGRAM_VERIFIED_COLUMN", "telegram_verified") }
  function ChatIdKey(env: Env): string { UserController.Column(env, "VITE_TELEGRAM_CHAT_ID_COLUMN", "telegram_chat_id") }

  /** `{ ...user, ...fields }`: a field set to `undefined` reads as absent afterwards. */
  function Apply(user: User, fields: Fields): (r: User)
    ensures forall k :: k in fields ==> Lookup(r, k) == fields[k]
    ensures forall k :: k !in fields ==> Lookup(r, k) == Lookup(user, k)
  {
    map k | k in user.Keys + fields.Keys && (k in fields ==> fields[k].Some?) ::
      if k in fields then fields[k].value else user[k]
  }

  /** A value `===` compares by content: absent, or neither an array nor an object. */
  predicate Primitive(x: Option<Value>)
  {
    x.None? || (!x.value.List? && !x.value.Obj?)
  }

  // ---------------------------------------------------------------------------------------
  // subscriptionUpdate
  // ---------------------------------------------------------------------------------------

  /** The fields a subscription update asks to change. */
  function SubscriptionFields(payload: Value, user: User, env: Env): Fields
  {
    var newPlan := Member(payload, "plan");
    var newStatus := Member(payload, "status");
    var m := if newPlan.Some? && !StrictEquals(newPlan, Lookup(user, PlanKey(env)))
             then map[PlanKey(env) := newPlan] else map[];
    if newStatus.Some? && !StrictEquals(newStatus, Lookup(user, StatusKey(env)))
    then m[StatusKey(env) := newStatus] else m
  }

  /**
   * The plan is asked for exactly when the payload has one that is not the user's current
   * plan (by `===`), and then with the payload's value; the same holds for the status; no
   * other field is touched.
   */
  lemma SubscriptionFieldsMeaning(payload: Value, user: User, env: Env)
    requires PlanKey(env) != StatusKey(env)
    ensures var f := SubscriptionFields(payload, user, env);
            var plan := Member(payload, "plan");
            var status := Member(payload, "status");
            (PlanKey(env) in f <==> plan.Some? && !StrictEquals(plan, Lookup(user, PlanKey(env)))) &&
            (StatusKey(env) in f <==> status.Some? && !StrictEquals(status, Lookup(user, StatusKey(env)))) &&
            (PlanKey(env) in f ==> f[PlanKey(env)] == plan) &&
            (StatusKey(env) in f ==> f[StatusKey(env)] == status) &&
            f.Keys <= {PlanKey(env), StatusKey(env)}
  {
  }

  /**
   * Once applied, the same subscription update asks for nothing more, provided the plan and
   * status it carries compare by content.
   */
  lemma SubscriptionSettles(payload: Value, user: User, env: Env)
    requires PlanKey(env) != StatusKey(env)
    requires Primitive(Member(payload, "plan")) && Primitive(Member(payload, "status"))
    ensures SubscriptionFields(payload, Apply(user, SubscriptionFields(payload, user, env)), env) == map[]
  {
    var f := SubscriptionFields(payload, user, env);
    var u := Apply(user, f);
    SubscriptionFieldsMeaning(payload, user, env);
    SubscriptionFieldsMeaning(payload, u, env);
    assert |SubscriptionFields(payload, u, env).Keys| == 0;
  }

  // ---------------------------------------------------------------------------------------
  // telegramStatusUpdate
  // ---------------------------------------------------------------------------------------

  /** `user[TELEGRAM_CHAT_ID_KEY] || null`. */
  function CurrentChatId(user: User, env: Env): Value
  {
    OrFalsy(Lookup(user, ChatIdKey(env)), Null)
  }

  /** `user[TELEGRAM_VERIFIED_KEY] === true`. */
  predicate CurrentlyVerified(user: User, env: Env)
  {
    Lookup(user, VerifiedKey(env)) == Some(Bool(true))
  }

  /** The fields a Telegram status update asks to change. */
  function TelegramFields(payload: Value, user: User, env: Env): Fields
  {
    var verified := Member(payload, "verified");
    var chatId := Member(payload, "chatId");
    var current := CurrentChatId(user, env);
    var m := if verified.Some? && !StrictEquals(verified, Some(Bool(CurrentlyVerified(user, env))))
             then map[VerifiedKey(env) := verified] else map[];
    if verified == Some(Bool(true)) && !StrictEquals(chatId, Some(current)) then m[ChatIdKey(env) := chatId]
    else if verified == Some(Bool(false)) && current != Null then m[ChatIdKey(env) := Some(Null)]
    else m
  }

  /**
   * `verified` is asked for exactly when given and not `===` the user's current verified flag;
   * the chat id is set to the payload's when verified is true and it differs from the current
   * one, cleared to null when verified is false and the user has one, and untouched otherwise.
   */
  lemma TelegramFieldsMeaning(payload: Value, user: User, env: Env)
    requires VerifiedKey(env) != ChatIdKey(env)
    ensures var f := TelegramFields(payload, user, env);
            var verified := Member(payload, "verified");
            var chatId := Member(payload, "chatId");
            var current := CurrentChatId(user, env);
            (VerifiedKey(env) in f <==>
               verified.Some? && !StrictEquals(verified, Some(Bool(CurrentlyVerified(user, env))))) &&
            (VerifiedKey(env) in f ==> f[VerifiedKey(env)] == verified) &&
            (ChatIdKey(env) in f <==>
               (verified == Some(Bool(true)) && !StrictEquals(chatId, Some(current))) ||
               (verified == Some(Bool(false)) && current != Null)) &&
            (ChatIdKey(env) in f ==> f[ChatIdKey(env)] == if verified == Some(Bool(true)) then chatId else Some(Null)) &&
            f.Keys <= {VerifiedKey(env), ChatIdKey(env)}
  {
  }

  /**
   * A verified status without a chat id, for a user who has one, sets the chat id to
   * `undefined`, so the user is left with no chat id at all.
   */
  lemma VerifiedWithoutChatId(user: User, env: Env)
    requires VerifiedKey(env) != ChatIdKey(env) && CurrentChatId(user, env) != Null
    ensures var f := TelegramFields(Obj(map["verified" := Bool(true)]), user, env);
            ChatIdKey(env) in f && f[ChatIdKey(env)] == None &&
            Lookup(Apply(user, f), ChatIdKey(env)) == None
  {
    TelegramFieldsMeaning(Obj(map["verified" := Bool(true)]), user, env);
  }

  /**
   * Once applied, the same Telegram status asks for nothing more, provided `verified` is a
   * boolean (or absent) and, when it is true, the chat id is null or a non-empty text or a
   * non-zero number.
   */
  lemma TelegramSettles(payload: Value, user: User, env: Env)
    requires VerifiedKey(env) != ChatIdKey(env)
    requires var v := Member(payload, "verified"); v.None? || v.value.Bool?
    requires var c := Member(payload, "chatId");
             Member(payload, "verified") == Some(Bool(true)) ==>
               c.Some? && Primitive(c) && (c.value == Null || !Falsy(c.value))
    ensures TelegramFields(payload, Apply(user, TelegramFields(payload, user, env)), env) == map[]
  {
    var f := TelegramFields(payload, user, env);
    var u := Apply(user, f);
    TelegramFieldsMeaning(payload, user, env);
    TelegramFieldsMeaning(payload, u, env);
    var verified := Member(payload, "verified");
    if verified.Some? && VerifiedKey(env) in f {
      assert Lookup(u, VerifiedKey(env)) == verified;
    }
    assert |TelegramFields(payload, u, env).Keys| == 0;
  }

  // ---------------------------------------------------------------------------------------
  // The message handler
  // ---------------------------------------------------------------------------------------

  /** A frame as `onmessage` receives it: text or bytes (parsed, or None when not JSON), or anything else. */
  datatype Frame = Data(parsed: Option<Value>) | Unsupported

  /** What handling one message does. */
  datatype Effect =
    | NoEffect
    /** `{ type: 'authenticate', token }` is sent. */
    | SendAuth(token: string)
    | CloseSocket
    | UpdateUser(fields: Fields)
    /** An exception, caught and logged. */
    | Failed

  const TypeAuthRequest: Value := Str("auth_request")
  const TypeAuthSuccess: Value := Str("auth_success")
  const TypeAuthError: Value := Str("auth_error")
  const TypeSubscription: Value := Str("subscriptionUpdate")
  const TypeTelegram: Value := Str("telegramStatusUpdate")

  predicate Truthy(x: Option<Value>)
  {
    x.Some? && !Falsy(x.value)
  }

  /**
   * What one parsed message does. `open` is whether the socket is open, `current` whether the
   * reference still holds it, `user` the user the handler sees and `updater` whether the auth
   * context supplies `updateUserContext` (calling a missing one throws).
   */
  function MessageEffect(message: Value, token: Option<string>, open: bool, current: bool, user: Option<User>,
                         updater: bool, env: Env): Effect
  {
    if message.Null? then Failed
    else
      var kind := Member(message, "type");
      var payload := Member(message, "payload");
      if kind == Some(TypeAuthRequest) then
        if token.Some? && token.value != "" && current && open then SendAuth(token.value) else NoEffect
      else if kind == Some(TypeAuthSuccess) then NoEffect
      else if kind == Some(TypeAuthError) then
        if current then CloseSocket else NoEffect
      else if kind == Some(TypeSubscription) then
        if Truthy(payload) && user.Some? then
          var f := SubscriptionFields(payload.value, user.value, env);
          if |f| > 0 then (if updater then UpdateUser(f) else Failed) else NoEffect
        else NoEffect
      else if kind == Some(TypeTelegram) then
        if Truthy(payload) && user.Some? && updater then
          var f := TelegramFields(payload.value, user.value, env);
          if |f| > 0 then UpdateUser(f) else NoEffect
        else NoEffect
      else NoEffect
  }

  function FrameEffect(frame: Frame, token: Option<string>, open: bool, current: bool, user: Option<User>,
                       updater: bool, env: Env): Effect
  {
    match frame
    case Unsupported => NoEffect
    case Data(parsed) =>
      if parsed.None? then Failed else MessageEffect(parsed.value, token, open, current, user, updater, env)
  }

  /** The user context is never asked to apply an empty update. */
  lemma UpdatesNeverEmpty(frame: Frame, token: Option<string>, open: bool, current: bool, user: Option<User>,
                          updater: bool, env: Env)
    ensures var e := FrameEffect(frame, token, open, current, user, updater, env);
            e.UpdateUser? ==> |e.fields| > 0 && user.Some? && updater
  {
  }

  /** A message of any other type, or with no user, changes no user state. */
  lemma UnknownTypeDoesNothing(message: Value, token: Option<string>, open: bool, current: bool,
                               user: Option<User>, updater: bool, env: Env)
    requires !message.Null?
    ensures var kind := Member(message, "type");
            kind != Some(TypeAuthRequest) && kind != Some(TypeAuthError) ==>
              !MessageEffect(message, token, open, current, user, updater, env).SendAuth? &&
              !MessageEffect(message, token, open, current, user, updater, env).CloseSocket?
    ensures var kind := Member(message, "type");
            kind != Some(TypeSubscription) && kind != Some(TypeTelegram) ==>
              !MessageEffect(message, token, open, current, user, updater, env).UpdateUser?
    ensures user.None? ==> !MessageEffect(message, token, open, current, user, updater, env).UpdateUser?
    ensures !message.Obj? ==> MessageEffect(message, token, open, current, user, updater, env) == NoEffect
  {
  }

  /** The token is sent only on request, only over an open socket, and only when there is one. */
  lemma AuthOnRequest(message: Value, token: Option<string>, open: bool, current: bool, user: Option<User>,
                      updater: bool, env: Env)
    ensures var e := MessageEffect(message, token, open, current, user, updater, env);
            e.SendAuth? <==> Member(message, "type") == Some(TypeAuthRequest) && !message.Null? &&
                             token.Some? && token.value != "" && current && open
    ensures var e := MessageEffect(message, token, open, current, user, updater, env);
            e.SendAuth? ==> e.token == token.value
  {
  }

  /**
   * As written the auth context does not supply `updateUserContext`: a subscription update
   * that changes something throws (and is only logged), and a Telegram status update is
   * skipped, so neither ever reaches the user.
   */
  lemma UpdatesLostWithoutUpdater(message: Value, token: Option<string>, open: bool, current: bool,
                                  user: Option<User>, env: Env)
    ensures !MessageEffect(message, token, open, current, user, false, env).UpdateUser?
    ensures var p := Member(message, "payload");
            Member(message, "type") == Some(TypeSubscription) && !message.Null? && Truthy(p) && user.Some? &&
            |SubscriptionFields(p.value, user.value, env)| > 0 ==>
              MessageEffect(message, token, open, current, user, false, env) == Failed
  {
  }

  /**
   * With an updater, a subscription update naming a plan other than the user's leaves the
   * user on that plan once applied.
   */
  lemma UpdatesApplied(plan: Value, user: User, env: Env, token: Option<string>, open: bool, current: bool)
    requires PlanKey(env) != StatusKey(env) && Primitive(Some(plan)) && Lookup(user, PlanKey(env)) != Some(plan)
    ensures var m := Obj(map["type" := TypeSubscription, "payload" := Obj(map["plan" := plan])]);
            var e := MessageEffect(m, token, open, current, Some(user), true, env);
            e.UpdateUser? && Lookup(Apply(user, e.fields), PlanKey(env)) == Some(plan)
  {
    var p := Obj(map["plan" := plan]);
    var m := Obj(map["type" := TypeSubscription, "payload" := p]);
    assert Member(m, "type") == Some(TypeSubscription) && Member(m, "payload") == Some(p);
    assert Member(p, "plan") == Some(plan);
    SubscriptionFieldsMeaning(p, user, env);
    var f := SubscriptionFields(p, user, env);
    assert PlanKey(env) in f;
    assert MessageEffect(m, token, open, current, Some(user), true, env) == UpdateUser(f);
  }

  /** With an updater, any Telegram status change is passed on whole. */
  lemma TelegramPassedOn(payload: Value, user: User, env: Env, token: Option<string>, open: bool, current: bool)
    requires !Falsy(payload) && |TelegramFields(payload, user, env)| > 0
    ensures var m := Obj(map["type" := TypeTelegram, "payload" := payload]);
            MessageEffect(m, token, open, current, Some(user), true, env) == UpdateUser(TelegramFields(payload, user, env))
  {
    var m := Obj(map["type" := TypeTelegram, "payload" := payload]);
    assert Member(m, "type") == Some(TypeTelegram) && Member(m, "payload") == Some(payload);
  }

  /** The hook's connection state. */
  class Connection {
    /** Whether `ws.current` holds a socket. */
    var current: bool
    var isConnected: bool
    var lastMessage: Option<Value>

    constructor()
      ensures !current && !isConnected && lastMessage.None?
    {
      current, isConnected, lastMessage := false, false, None;
    }

    /** `connectWebSocket`: a socket is opened only with a token and none already held. */
    method Connect(token: Option<string>) returns (started: bool)
      modifies this
      ensures started <==> token.Some? && token.value != "" && !old(current)
      ensures current == (old(current) || started)
      ensures isConnected == old(isConnected) && lastMessage == old(lastMessage)
    {
      if token.None? || token.value == "" || current {
        return false;
      }
      current := true;
      started := true;
    }

    method OnOpen()
      modifies this
      ensures isConnected && current == old(current) && lastMessage == old(lastMessage)
    {
      isConnected := true;
    }

    method OnClose()
      modifies this
      ensures !isConnected && !current && lastMessage == old(lastMessage)
    {
      isConnected, current := false, false;
    }

    /** The effect's cleanup: a held socket is closed and the reference cleared. */
    method Cleanup() returns (closed: bool)
      modifies this
      ensures closed == old(current) && !current
      ensures isConnected == old(isConnected) && lastMessage == old(lastMessage)
    {
      closed := current;
      current := false;
    }

    /** `sendMessage`: the message goes out only over an open socket that is held. */
    method SendMessage(open: bool) returns (sent: bool)
      ensures sent <==> current && open
    {
      sent := current && open;
    }

    /** The subscription arm: the update object, filled key by key. */
    static method BuildSubscriptionFields(payload: Value, user: User, env: Env) returns (fields: Fields)
      ensures fields == SubscriptionFields(payload, user, env)
    {
      fields := map[];
      var newPlan := Member(payload, "plan");
      var newStatus := Member(payload, "status");
      if newPlan.Some? && !StrictEquals(newPlan, Lookup(user, PlanKey(env))) {
        fields := fields[PlanKey(env) := newPlan];
      }
      if newStatus.Some? && !StrictEquals(newStatus, Lookup(user, StatusKey(env))) {
        fields := fields[StatusKey(env) := newStatus];
      }
    }

    /** The Telegram arm: the update object, filled key by key. */
    static method BuildTelegramFields(payload: Value, user: User, env: Env) returns (fields: Fields)
      ensures fields == TelegramFields(payload, user, env)
    {
      fields := map[];
      var verified := Member(payload, "verified");
      var chatId := Member(payload, "chatId");
      var currentVerified := Lookup(user, VerifiedKey(env)) == Some(Bool(true));
      var currentChatId := OrFalsy(Lookup(user, ChatIdKey(env)), Null);
      if verified.Some? && !StrictEquals(verified, Some(Bool(currentVerified))) {
        fields := fields[VerifiedKey(env) := verified];
      }
      if verified == Some(Bool(true)) && !StrictEquals(chatId, Some(currentChatId)) {
        fields := fields[ChatIdKey(env) := chatId];
      } else if verified == Some(Bool(false)) && currentChatId != Null {
        fields := fields[ChatIdKey(env) := Some(Null)];
      }
    }

    /** `onmessage`: every parsed message becomes the last message, and then takes its effect. */
    method OnMessage(frame: Frame, token: Option<string>, open: bool, user: Option<User>, updater: bool, env: Env)
      returns (effect: Effect)
      modifies this
      ensures effect == FrameEffect(frame, token, open, old(current), user, updater, env)
      ensures lastMessage == if frame.Data? && frame.parsed.Some? then frame.parsed else old(lastMessage)
      ensures current == old(current) && isConnected == old(isConnected)
    {
      if frame.Unsupported? {
        return NoEffect;
      }
      if frame.parsed.None? {
        return Failed;
      }
      var message := frame.parsed.value;
      lastMessage := Some(message);
      effect := Dispatch(message, token, open, current, user, updater, env);
    }

    /** The `switch` on the message type. */
    static method Dispatch(message: Value, token: Option<string>, open: bool, current: bool, user: Option<User>,
                           updater: bool, env: Env) returns (effect: Effect)
      ensures effect == MessageEffect(message, token, open, current, user, updater, env)
    {
      if message.Null? {
        return Failed;
      }
      var kind := Member(message, "type");
      var payload := Member(message, "payload");
      effect := NoEffect;
      if kind == Some(TypeAuthRequest) {
        if token.Some? && token.value != "" && current && open {
          effect := SendAuth(token.value);
        }
      } else if kind == Some(TypeAuthSuccess) {
        // Only logged.
        effect := NoEffect;
      } else if kind == Some(TypeAuthError) {
        if current {
          effect := CloseSocket;
        }
      } else if kind == Some(TypeSubscription) {
        if Truthy(payload) && user.Some? {
          var fields := BuildSubscriptionFields(payload.value, user.value, env);
          if |fields| > 0 {
            effect := if updater then UpdateUser(fields) else Failed;
          }
        }
      } else if kind == Some(TypeTelegram) {
        if Truthy(payload) && user.Some? && updater {
          var fields := BuildTelegramFields(payload.value, user.value, env);
          if |fields| > 0 {
            effect := UpdateUser(fields);
          }
        }
      }
    }
  }
}
