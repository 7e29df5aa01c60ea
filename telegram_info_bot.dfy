/**
 * The `/getinfo` Telegram bot: replies with the user's id, username and chat id, written in
 * the MarkdownV2 style of the Telegram Bot API ("Formatting options": the characters
 * `_ * [ ] ( ) ~ ` > # + - = | { } . !` and the backslash itself are escaped with a
 * preceding backslash).
 */
module TelegramInfoBot {
  import opened Wrappers
  import Js

  // ------------------------------------------------------------------
  // MarkdownV2 escaping
  // ------------------------------------------------------------------

  predicate Special(c: char)
  {
    c == '\\' || c == '_' || c == '*' || c == '[' || c == ']' || c == '(' || c == ')' || c == '~' ||
    c == '`' || c == '>' || c == '#' || c == '+' || c == '-' || c == '=' || c == '|' || c == '{' ||
    c == '}' || c == '.' || c == '!'
  }

  /** Puts a backslash before every special character. */
  function Escape(s: string): (r: string)
    ensures |s| <= |r| <= 2 * |s|
    decreases |s|
  {
    if |s| == 0 then ""
    else (if Special(s[0]) then ['\\', s[0]] else [s[0]]) + Escape(s[1..])
  }

  /** Drops the backslash of each escape pair. */
  function Unescape(t: string): string
    decreases |t|
  {
    if |t| == 0 then ""
    else if t[0] == '\\' && |t| >= 2 then [t[1]] + Unescape(t[2..])
    else [t[0]] + Unescape(t[1..])
  }

  /** A string made only of plain characters and backslash-escaped special characters. */
  predicate WellEscaped(t: string)
    decreases |t|
  {
    |t| == 0 ||
    (t[0] == '\\' && |t| >= 2 && Special(t[1]) && WellEscaped(t[2..])) ||
    (!Special(t[0]) && WellEscaped(t[1..]))
  }

  lemma {:induction false} EscapeRoundTrip(s: string)
    ensures Unescape(Escape(s)) == s
    decreases |s|
  {
    if |s| > 0 {
      var t := Escape(s);
      var rest := Escape(s[1..]);
      EscapeRoundTrip(s[1..]);
      if Special(s[0]) {
        assert t == ['\\', s[0]] + rest;
        assert t[2..] == rest;
      } else {
        assert t == [s[0]] + rest;
        assert t[1..] == rest;
        assert s[0] != '\\';
      }
      assert s == [s[0]] + s[1..];
    }
  }

  /** Every special character of the output is escaped, and nothing else is. */
  lemma {:induction false} EscapeWellEscaped(s: string)
    ensures WellEscaped(Escape(s))
    decreases |s|
  {
    if |s| > 0 {
      var t := Escape(s);
      EscapeWellEscaped(s[1..]);
      if Special(s[0]) {
        assert t[2..] == Escape(s[1..]);
      } else {
        assert t[1..] == Escape(s[1..]);
      }
    }
  }

  /** Conversely, a well-escaped text is the escape of its unescaped form. */
  lemma {:induction false} UnescapeEscape(t: string)
    requires WellEscaped(t)
    ensures Escape(Unescape(t)) == t
    decreases |t|
  {
    if |t| > 0 {
      if t[0] == '\\' && |t| >= 2 && Special(t[1]) && WellEscaped(t[2..]) {
        UnescapeEscape(t[2..]);
        var u := Unescape(t);
        assert u == [t[1]] + Unescape(t[2..]);
        assert u[1..] == Unescape(t[2..]);
        assert t == ['\\', t[1]] + t[2..];
      } else {
        assert !Special(t[0]) && WellEscaped(t[1..]);
        assert t[0] != '\\';
        UnescapeEscape(t[1..]);
        var u := Unescape(t);
        assert u[1..] == Unescape(t[1..]);
        assert t == [t[0]] + t[1..];
      }
    }
  }

  /** Text free of special characters is left as it is. */
  lemma {:induction false} EscapePlain(s: string)
    requires forall i :: 0 <= i < |s| ==> !Special(s[i])
    ensures Escape(s) == s
    decreases |s|
  {
    if |s| > 0 {
      EscapePlain(s[1..]);
      assert s == [s[0]] + s[1..];
    }
  }

  lemma EscapeAppend(a: string, b: string)
    ensures Escape(a + b) == Escape(a) + Escape(b)
    decreases |a|
  {
    if |a| > 0 {
      assert (a + b)[1..] == a[1..] + b;
      EscapeAppend(a[1..], b);
    } else {
      assert a + b == b;
    }
  }

  /** `str(chat.id)` escaped: digits stay, and a negative id starts with an escaped minus. */
  lemma EscapeChatId(n: int)
    ensures n >= 0 ==> Escape(Js.IntToString(n)) == Js.IntToString(n)
    ensures n < 0 ==> Escape(Js.IntToString(n)) == "\\-" + Js.IntToString(-n)
  {
    var digits := Js.NatToString(if n < 0 then -n else n);
    assert forall i :: 0 <= i < |digits| ==> !Special(digits[i]);
    EscapePlain(digits);
    if n < 0 {
      assert Js.IntToString(n) == "-" + digits;
      EscapeAppend("-", digits);
      assert Escape("-") == "\\-";
    }
  }

  // ------------------------------------------------------------------
  // Replies
  // ------------------------------------------------------------------

  datatype TgUser = TgUser(id: int, username: Option<string>)
  datatype TgChat = TgChat(id: int)
  datatype Update = Update(user: Option<TgUser>, chat: Option<TgChat>)

  /** One `reply_text` call: its text, and whether it asked for MarkdownV2 parsing. */
  datatype Reply = Reply(text: string, markdownV2: bool)

  const CannotIdentify: string := "Sorry, I couldn't identify your chat. Please try again."
  const NoChatId: string := "Sorry, I couldn't get your chat ID. Please try again."
  const InfoUnavailable: string := "Sorry, I couldn't retrieve the info right now. Please try again later."
  const SomethingWrong: string := "Sorry, something went wrong. Please try again later."

  /** The literal written for a missing username, escaped in the source by hand. */
  const NotSet: string := "\\(Not Set\\)"

  function UsernamePart(username: Option<string>): string
  {
    if username.Some? && username.value != "" then "@" + Escape(username.value) else NotSet
  }

  /** The user-id and username lines, and the label of the chat-id line. */
  function InfoLead(userId: int, username: Option<string>): string
  {
    "\U{1F194} Your Telegram User ID: `" + Js.IntToString(userId) + "`\n" +
    "\U{1F464} Username: " + UsernamePart(username) + "\n" +
    "\U{1F4AC} This Chat ID: "
  }

  /** The escaped chat id in fixed-width formatting. */
  function ChatCode(chatId: int): string
  {
    "`" + Escape(Js.IntToString(chatId)) + "`"
  }

  const InfoMiddle: string := "\n\nPlease copy the **Chat ID** \\("
  const InfoTail: string := "\\) and paste it into the Trendy Notification Settings page\\."

  /** The reply's text, for a user id, a username and a chat id. */
  function InfoMessage(userId: int, username: Option<string>, chatId: int): string
  {
    InfoLead(userId, username) + ChatCode(chatId) + InfoMiddle + ChatCode(chatId) + InfoTail
  }

  /**
   * `get_info`: the replies it attempts. `accepted` says whether Telegram accepts the first
   * reply; when it raises, the handler's `except` branch sends the fallback text.
   */
  function GetInfo(u: Update, accepted: bool): (r: seq<Reply>)
    ensures 1 <= |r| <= 2
    ensures |r| == 2 <==> !accepted
    ensures |r| == 2 ==> r[1] == Reply(InfoUnavailable, false)
  {
    var first :=
      if u.user.None? || u.chat.None? then Reply(CannotIdentify, false)
      else if u.chat.value.id == 0 then Reply(NoChatId, false)
      else Reply(InfoMessage(u.user.value.id, u.user.value.username, u.chat.value.id), true);
    if accepted then [first] else [first, Reply(InfoUnavailable, false)]
  }

  /** `error_handler`: replies once when the update carries a message, and never raises. */
  function ErrorHandler(update: Option<bool>): (r: seq<Reply>)
    ensures |r| <= 1
    ensures |r| == 1 <==> update == Some(true)
    ensures |r| == 1 ==> r[0] == Reply(SomethingWrong, false)
  {
    if update.Some? && update.value then [Reply(SomethingWrong, false)] else []
  }

  datatype Startup = Started(token: string) | TokenMissing(message: string)

  /** The module-level token check done before any bot is built. */
  function StartBot(token: Option<string>): (r: Startup)
    ensures r.Started? <==> token.Some? && token.value != ""
    ensures r.Started? ==> r.token == token.value
  {
    if token.None? || token.value == "" then
      TokenMissing("TELEGRAM_BOT_TOKEN environment variable is not set. Please set it in your .env file.")
    else Started(token.value)
  }

  // ------------------------------------------------------------------
  // Properties of the replies
  // ------------------------------------------------------------------

  /** Without a user or a chat, the only reply is the identification failure. */
  lemma MissingUserOrChat(u: Update)
    requires u.user.None? || u.chat.None?
    ensures GetInfo(u, true) == [Reply(CannotIdentify, false)]
  {
  }

  /** A zero chat id gets the chat-id failure and nothing else. */
  lemma ZeroChatId(u: Update)
    requires u.user.Some? && u.chat.Some? && u.chat.value.id == 0
    ensures GetInfo(u, true) == [Reply(NoChatId, false)]
  {
  }

  /** On success exactly one reply is sent, as MarkdownV2, beginning with the user-id line. */
  lemma InfoReply(u: Update)
    requires u.user.Some? && u.chat.Some? && u.chat.value.id != 0
    ensures var r := GetInfo(u, true);
            |r| == 1 && r[0].markdownV2 &&
            Js.StartsWith(r[0].text, "\U{1F194} Your Telegram User ID: `" + Js.IntToString(u.user.value.id) + "`\n")
  {
    var head := "\U{1F194} Your Telegram User ID: `" + Js.IntToString(u.user.value.id) + "`\n";
    var userId, username, chatId := u.user.value.id, u.user.value.username, u.chat.value.id;
    assert GetInfo(u, true) == [Reply(InfoMessage(userId, username, chatId), true)];
    LeadStartsWithId(userId, username);
    var lead := InfoLead(userId, username);
    var rest := ChatCode(chatId) + InfoMiddle + ChatCode(chatId) + InfoTail;
    assert InfoMessage(userId, username, chatId) == lead + rest;
    PrefixStep(lead, rest, head);
  }

  lemma LeadStartsWithId(userId: int, username: Option<string>)
    ensures Js.StartsWith(InfoLead(userId, username), "\U{1F194} Your Telegram User ID: `" + Js.IntToString(userId) + "`\n")
  {
    var head := "\U{1F194} Your Telegram User ID: `" + Js.IntToString(userId) + "`\n";
    var x1 := head + "\U{1F464} Username: ";
    var x2 := x1 + UsernamePart(username);
    var x3 := x2 + "\n";
    HeadFirst(head, "\U{1F464} Username: ");
    PrefixStep(x1, UsernamePart(username), head);
    PrefixStep(x2, "\n", head);
    PrefixStep(x3, "\U{1F4AC} This Chat ID: ", head);
  }

  lemma HeadFirst(head: string, rest: string)
    ensures Js.StartsWith(head + rest, head)
  {
    assert (head + rest)[..|head|] == head;
  }

  /** A prefix of `a` is a prefix of `a + b`. */
  lemma PrefixStep(a: string, b: string, p: string)
    requires Js.StartsWith(a, p)
    ensures Js.StartsWith(a + b, p)
  {
    assert (a + b)[..|p|] == a[..|p|];
  }

  /** The escaped chat id appears twice in the reply, each time inside backticks. */
  lemma ChatIdTwice(userId: int, username: Option<string>, chatId: int)
    ensures var m := InfoMessage(userId, username, chatId);
            var code := "`" + Escape(Js.IntToString(chatId)) + "`";
            exists k :: 0 <= k <= |m| && Js.Contains(m[..k], code) && Js.Contains(m[k..], code)
  {
    var code := ChatCode(chatId);
    assert InfoMessage(userId, username, chatId) == InfoLead(userId, username) + code + InfoMiddle + code + InfoTail;
    TwiceIn(InfoLead(userId, username), code, InfoMiddle, InfoTail);
  }

  /** A text that holds a piece at two places can be cut between them. */
  lemma TwiceIn(a: string, code: string, middle: string, tail: string)
    ensures var m := a + code + middle + code + tail;
            exists k :: 0 <= k <= |m| && Js.Contains(m[..k], code) && Js.Contains(m[k..], code)
  {
    var m := a + code + middle + code + tail;
    var k := |a + code|;
    assert m[..k] == a + code + "";
    assert m[k..] == middle + code + tail;
    ContainsMiddle(a, code, "");
    ContainsMiddle(middle, code, tail);
  }

  lemma ContainsMiddle(x: string, y: string, z: string)
    ensures Js.Contains(x + y + z, y)
  {
    var s := x + y + z;
    assert s[|x|..][..|y|] == y;
    assert Js.StartsWith(s[|x|..], y);
  }

  /** A username is shown escaped after "@"; a missing one as the already escaped "(Not Set)". */
  lemma UsernameShown(username: Option<string>)
    ensures username.Some? && username.value != "" ==>
              UsernamePart(username) == "@" + Escape(username.value) &&
              Unescape(UsernamePart(username)[1..]) == username.value
    ensures (username.None? || username.value == "") ==> UsernamePart(username) == Escape("(Not Set)")
  {
    if username.Some? && username.value != "" {
      EscapeRoundTrip(username.value);
      assert UsernamePart(username)[1..] == Escape(username.value);
    } else {
      NotSetIsEscaped();
    }
  }

  /** A parenthesised plain word is escaped by escaping its two parentheses. */
  lemma EscapeParenthesised(w: string)
    requires forall i :: 0 <= i < |w| ==> !Special(w[i])
    ensures Escape("(" + w + ")") == "\\(" + w + "\\)"
  {
    EscapePlain(w);
    EscapeAppend("(" + w, ")");
    EscapeAppend("(", w);
    assert Escape("(") == "\\(" && Escape(")") == "\\)";
  }

  /** The hand-escaped literal is exactly the escape of "(Not Set)". */
  lemma NotSetIsEscaped()
    ensures Escape("(Not Set)") == NotSet
  {
    var w := "Not Set";
    EscapeParenthesised(w);
    assert "(Not Set)" == "(" + w + ")";
    assert "\\(" + w + "\\)" == NotSet;
  }

  /** Any failure of the first reply leads to the fallback reply. */
  lemma FailureFallsBack(u: Update)
    ensures GetInfo(u, false)[1] == Reply(InfoUnavailable, false)
    ensures GetInfo(u, false)[0] == GetInfo(u, true)[0]
  {
  }
}
