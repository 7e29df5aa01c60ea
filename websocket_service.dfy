/**
 * The WebSocket service: a registry of open connections, each with the user it has
 * authenticated as (null until then), the per-message handler that authenticates a
 * connection or answers it, and `sendToUser`, which hands a message to every open connection
 * of one user. Parsing a message, verifying a token and the sockets' own state are inputs.
 */
module WebSocketService {
  import opened Wrappers
  import opened JsonValue
  import AuthController
  import Js

  /** A connection's identity (the `ws` object used as the registry's key). */
  type Conn = nat

  /** A registry entry: the temporary client id (`Date.now()` at connection) and the user id. */
  datatype Meta = Meta(id: Option<int>, userId: Value)

  /** A message sent to the client: its `type` and `message` fields. */
  datatype Reply = Reply(kind: string, message: Option<string>)

  const AuthRequest: Reply := Reply("auth_request", Some("Please send authentication token."))
  const InvalidFormat: Reply := Reply("error", Some("Invalid message format. Expected JSON."))
  const AuthSuccess: Reply := Reply("auth_success", Some("Authentication successful."))
  const AuthError: Reply := Reply("auth_error", Some("Invalid or expired token."))
  const AuthRequired: Reply := Reply("auth_required", Some("Please authenticate first."))
  const Pong: Reply := Reply("pong", None)

  /** What handling one message does for the client: a reply, nothing, or an uncaught TypeError. */
  datatype Outcome = Sent(reply: Reply) | Silent | Thrown

  /** The outcome of one message, and the user id the connection is then set to, if any. */
  datatype Step = Step(outcome: Outcome, authenticateAs: Option<Value>)

  /** `clients.get(ws)`. */
  function Entry(clients: map<Conn, Meta>, ws: Conn): Option<Meta>
  {
    if ws in clients then Some(clients[ws]) else None
  }

  /** `{ ...clients.get(ws), userId }`: a missing entry spreads as `{}`, so the id is lost. */
  function Authenticated(entry: Option<Meta>, userId: Value): Meta
  {
    if entry.Some? then entry.value.(userId := userId) else Meta(None, userId)
  }

  /** `messageData.type === 'authenticate' && messageData.token`. */
  predicate IsAuthenticate(data: Value)
  {
    Member(data, "type") == Some(Str("authenticate")) &&
    Member(data, "token").Some? && !Falsy(Member(data, "token").value)
  }

  /**
   * The message handler on a connection whose entry is `entry`: `parsed` is `JSON.parse` of
   * the frame (None on a syntax error), `decoded` what `jwt.verify` returns (None when it
   * throws). Reading `type` of a parsed `null` throws outside every `try`.
   */
  function HandleMessage(entry: Option<Meta>, parsed: Option<Value>, decoded: Option<Value>): (s: Step)
    ensures s.authenticateAs.Some? ==> s.outcome == Sent(AuthSuccess) && !Falsy(s.authenticateAs.value)
  {
    if parsed.None? then Step(Sent(InvalidFormat), None)
    else if parsed.value.Null? then Step(Thrown, None)
    else
      var data := parsed.value;
      if IsAuthenticate(data) then
        var userId := if decoded.Some? then Member(decoded.value, "userId") else None;
        if userId.Some? && !Falsy(userId.value) then Step(Sent(AuthSuccess), userId)
        else Step(Sent(AuthError), None)
      else if entry.None? || Falsy(entry.value.userId) then Step(Sent(AuthRequired), None)
      else if Member(data, "type") == Some(Str("ping")) then Step(Sent(Pong), None)
      else Step(Silent, None)
  }

  /** `order` without `ws`. */
  function Without(order: seq<Conn>, ws: Conn): (r: seq<Conn>)
    ensures forall c :: c in r <==> c in order && c != ws
    ensures |r| <= |order|
  {
    if order == [] then []
    else if order[|order| - 1] == ws then Without(order[..|order| - 1], ws)
    else Without(order[..|order| - 1], ws) + [order[|order| - 1]]
  }

  /** No connection appears twice. */
  predicate Distinct(order: seq<Conn>)
  {
    forall i, j :: 0 <= i < j < |order| ==> order[i] != order[j]
  }

  lemma {:induction false} WithoutDistinct(order: seq<Conn>, ws: Conn)
    requires Distinct(order)
    ensures Distinct(Without(order, ws))
  {
    if order != [] {
      var init := order[..|order| - 1];
      var last := order[|order| - 1];
      assert Distinct(init);
      WithoutDistinct(init, ws);
      if last != ws {
        var r := Without(init, ws);
        assert last !in init;
        assert last !in r;
        assert Without(order, ws) == r + [last];
      }
    }
  }

  /**
   * The connections, in the registry's iteration order, that `sendToUser` hands the message
   * to: open ones whose user id is strictly equal to the number `target`.
   */
  function Targets(order: seq<Conn>, clients: map<Conn, Meta>, target: int, open: set<Conn>): (r: seq<Conn>)
    ensures forall c :: c in r <==> c in order && c in clients && clients[c].userId == Num(target) && c in open
  {
    if order == [] then []
    else
      var c := order[|order| - 1];
      var rest := Targets(order[..|order| - 1], clients, target, open);
      if c in clients && clients[c].userId == Num(target) && c in open then rest + [c] else rest
  }

  /** Whether some connection in `attempted` took the message without its `send` throwing. */
  predicate AnyDelivered(attempted: seq<Conn>, failing: set<Conn>)
  {
    exists i :: 0 <= i < |attempted| && attempted[i] !in failing
  }

  class Registry {
    /** The registry's keys in insertion order, which is the order `Map` iterates in. */
    var order: seq<Conn>
    var clients: map<Conn, Meta>

    ghost predicate Valid()
      reads this
    {
      Distinct(order) && forall c :: c in clients <==> c in order
    }

    constructor()
      ensures Valid() && order == [] && clients == map[]
    {
      order := [];
      clients := map[];
    }

    /** `clients.set(ws, m)`: a new key goes last, an existing key keeps its place. */
    method Set(ws: Conn, m: Meta)
      modifies this
      requires Valid()
      ensures Valid()
      ensures clients == old(clients)[ws := m]
      ensures order == if ws in old(clients) then old(order) else old(order) + [ws]
    {
      if ws !in clients {
        order := order + [ws];
      }
      clients := clients[ws := m];
    }

    /** A new connection: registered with user id null, then sent an authentication request. */
    method Connect(ws: Conn, now: int) returns (reply: Reply)
      modifies this
      requires Valid()
      ensures Valid()
      ensures clients == old(clients)[ws := Meta(Some(now), Null)]
      ensures order == if ws in old(clients) then old(order) else old(order) + [ws]
      ensures reply == AuthRequest
    {
      Set(ws, Meta(Some(now), Null));
      reply := AuthRequest;
    }

    /** One message on `ws`: the registry changes only when the connection authenticates. */
    method OnMessage(ws: Conn, parsed: Option<Value>, decoded: Option<Value>) returns (outcome: Outcome)
      modifies this
      requires Valid()
      ensures Valid()
      ensures var step := HandleMessage(Entry(old(clients), ws), parsed, decoded);
              outcome == step.outcome &&
              (step.authenticateAs.None? ==> clients == old(clients) && order == old(order)) &&
              (step.authenticateAs.Some? ==>
                 clients == old(clients)[ws := Authenticated(Entry(old(clients), ws), step.authenticateAs.value)] &&
                 order == if ws in old(clients) then old(order) else old(order) + [ws])
    {
      var step := HandleMessage(Entry(clients, ws), parsed, decoded);
      if step.authenticateAs.Some? {
        Set(ws, Authenticated(Entry(clients, ws), step.authenticateAs.value));
      }
      outcome := step.outcome;
    }

    /** `close` and `error` both delete the connection's entry. */
    method Disconnect(ws: Conn)
      modifies this
      requires Valid()
      ensures Valid()
      ensures clients == old(clients) - {ws}
      ensures order == Without(old(order), ws)
    {
      WithoutDistinct(order, ws);
      order := Without(order, ws);
      clients := clients - {ws};
    }

    /**
     * `sendToUser(userId, message)`: NaN gives false with no send, and so does a number that is
     * not an integer, which no connection's integer user id equals; otherwise every open
     * connection whose user id is strictly `Number(userId)` is sent the message, in registry
     * order, and the answer is whether at least one send did not throw. `open` holds the
     * connections whose `readyState` is OPEN and `failing` those whose `send` throws.
     */
    method SendToUser(userId: Value, open: set<Conn>, failing: set<Conn>) returns (found: bool, attempted: seq<Conn>)
      requires Valid()
      ensures ToNumber(userId).None? ==> !found && attempted == []
      ensures ToNumber(userId).Some? ==> attempted == Targets(order, clients, ToNumber(userId).value, open)
      ensures found <==> AnyDelivered(attempted, failing)
      ensures found <==> exists c :: c in clients && c in open && c !in failing &&
                                     ToNumber(userId).Some? && clients[c].userId == Num(ToNumber(userId).value)
    {
      var target := ToNumber(userId);
      if target.None? {
        return false, [];
      }
      found := false;
      attempted := [];
      var i := 0;
      while i < |order|
        invariant 0 <= i <= |order|
        invariant attempted == Targets(order[..i], clients, target.value, open)
        invariant found <==> AnyDelivered(attempted, failing)
      {
        var c := order[i];
        TargetsStep(order, i, clients, target.value, open);
        if c in clients && clients[c].userId == Num(target.value) && c in open {
          DeliveredSnoc(attempted, c, failing);
          attempted := attempted + [c];
          if c !in failing {
            found := true;
          }
        }
        i := i + 1;
      }
      assert order[..i] == order;
      DeliveredMeaning(order, clients, target.value, open, failing);
    }
  }

  /** One more connection of the registry extends the targets by it, when it qualifies. */
  lemma TargetsStep(order: seq<Conn>, i: nat, clients: map<Conn, Meta>, target: int, open: set<Conn>)
    requires i < |order|
    ensures var c := order[i];
            Targets(order[..i + 1], clients, target, open) ==
            Targets(order[..i], clients, target, open) +
            (if c in clients && clients[c].userId == Num(target) && c in open then [c] else [])
  {
    assert order[..i + 1][..i] == order[..i];
  }

  lemma DeliveredSnoc(attempted: seq<Conn>, c: Conn, failing: set<Conn>)
    ensures AnyDelivered(attempted + [c], failing) <==> AnyDelivered(attempted, failing) || c !in failing
  {
    var a := attempted + [c];
    if AnyDelivered(a, failing) && c in failing {
      var k :| 0 <= k < |a| && a[k] !in failing;
      assert k < |attempted| && attempted[k] == a[k];
    }
    if AnyDelivered(attempted, failing) {
      var k :| 0 <= k < |attempted| && attempted[k] !in failing;
      assert a[k] == attempted[k];
    }
    if c !in failing {
      assert a[|attempted|] == c;
    }
  }

  /**
   * Over a registry whose order lists exactly its keys, some target takes the message exactly
   * when some open, non-failing connection has the target user id.
   */
  lemma DeliveredMeaning(order: seq<Conn>, clients: map<Conn, Meta>, target: int, open: set<Conn>, failing: set<Conn>)
    requires forall c :: c in clients <==> c in order
    ensures AnyDelivered(Targets(order, clients, target, open), failing) <==>
            exists c :: c in clients && c in open && c !in failing && clients[c].userId == Num(target)
  {
    var t := Targets(order, clients, target, open);
    if AnyDelivered(t, failing) {
      var k :| 0 <= k < |t| && t[k] !in failing;
      assert t[k] in t;
    }
    if exists c :: c in clients && c in open && c !in failing && clients[c].userId == Num(target) {
      var c :| c in clients && c in open && c !in failing && clients[c].userId == Num(target);
      assert c in t;
      var k :| 0 <= k < |t| && t[k] == c;
    }
  }

  // ---------------------------------------------------------------------------------------
  // Properties of the handler
  // ---------------------------------------------------------------------------------------

  /** A frame that is not JSON is answered with an error and changes nothing. */
  lemma NonJsonRejected(entry: Option<Meta>, decoded: Option<Value>)
    ensures HandleMessage(entry, None, decoded) == Step(Sent(InvalidFormat), None)
  {
  }

  /**
   * An authenticate message sets the connection's user exactly when the verified payload has
   * a truthy `userId`, and then to that id; otherwise it answers auth_error.
   */
  lemma AuthenticateIff(entry: Option<Meta>, data: Value, decoded: Option<Value>)
    requires !data.Null? && IsAuthenticate(data)
    ensures var s := HandleMessage(entry, Some(data), decoded);
            var u := if decoded.Some? then Member(decoded.value, "userId") else None;
            (s.authenticateAs.Some? <==> u.Some? && !Falsy(u.value)) &&
            (s.authenticateAs.Some? ==> s.authenticateAs == u && s.outcome == Sent(AuthSuccess)) &&
            (s.authenticateAs.None? ==> s.outcome == Sent(AuthError))
  {
  }

  /**
   * Login and signup tokens carry `{ id }` and no `userId`, so presenting one (verified or
   * not) is answered with auth_error and leaves the connection unauthenticated.
   */
  lemma AuthTokensRejected(entry: Option<Meta>, token: Value, id: Option<Value>, env: map<string, string>)
    requires !Falsy(token)
    ensures var data := Obj(map["type" := Str("authenticate"), "token" := token]);
            var payload := Obj(AuthController.GenerateToken(id, env).payload);
            HandleMessage(entry, Some(data), Some(payload)) == Step(Sent(AuthError), None) &&
            HandleMessage(entry, Some(data), None) == Step(Sent(AuthError), None)
  {
    var data := Obj(map["type" := Str("authenticate"), "token" := token]);
    assert IsAuthenticate(data);
  }

  /** Before authentication any other message is answered auth_required. */
  lemma AuthenticationRequired(entry: Option<Meta>, data: Value, decoded: Option<Value>)
    requires !data.Null? && !IsAuthenticate(data)
    requires entry.None? || Falsy(entry.value.userId)
    ensures HandleMessage(entry, Some(data), decoded) == Step(Sent(AuthRequired), None)
  {
  }

  /** An authenticated connection gets pong for a ping and no reply for anything else. */
  lemma AuthenticatedAnswers(meta: Meta, data: Value, decoded: Option<Value>)
    requires !data.Null? && !IsAuthenticate(data) && !Falsy(meta.userId)
    ensures HandleMessage(Some(meta), Some(data), decoded) ==
            Step(if Member(data, "type") == Some(Str("ping")) then Sent(Pong) else Silent, None)
  {
  }

  /** A NaN user id (an object, or text that is not a number) reaches no connection. */
  lemma NaNReachesNobody(fields: map<string, Value>, s: string)
    requires |s| > 0 && 'a' <= s[0] <= 'z'
    ensures ToNumber(Obj(fields)).None? && ToNumber(Str(s)).None?
  {
    ToNumberNaN(s, fields);
  }

  /**
   * A user id given as its decimal text targets the same connections as the number itself:
   * sending to "42" and to 42 reach the same open connections.
   */
  lemma TextAndNumberAgree(n: int)
    ensures ToNumber(Str(Js.IntToString(n))) == ToNumber(Num(n)) == Some(n)
  {
    ToNumberReads(n, "");
  }

  /**
   * Decimal text with a point or an exponent targets the connections of the integer it
   * denotes: "42.000" reaches user 42, "4.2e1" reaches user 42 (and "4.2e2" user 420), and
   * "42.5" reaches nobody.
   */
  lemma DecimalTextTargets(n: nat, z: nat, c: nat, e: nat)
    requires c < 10 && e >= 1
    ensures ToNumber(Str(Js.NatToString(n) + "." + Zeros(z))) == ToNumber(Num(n)) == Some(n)
    ensures ToNumber(Str(Js.NatToString(n) + "." + Digit(c) + "e" + Js.NatToString(e))) == ToNumber(Num(Shift(10 * n + c, e - 1)))
    ensures c != 0 ==> ToNumber(Str(Js.NatToString(n) + "." + Digit(c))).None?
  {
    PointZerosNumber(n, z);
    PointExponentNumber(n, c, e);
    if c != 0 {
      FractionNumber(n, c);
    }
  }

  /** After a disconnect, no later send targets that connection. */
  lemma DisconnectedNotTargeted(order: seq<Conn>, clients: map<Conn, Meta>, ws: Conn, target: int, open: set<Conn>)
    ensures ws !in Targets(Without(order, ws), clients - {ws}, target, open)
  {
  }
}
