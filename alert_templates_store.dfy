/**
 * The alert-templates store of the web client: the four message templates being edited, the
 * copy last loaded or saved (`initialTemplates`), and the actions that load them, edit one
 * field, reset one field to its default and save the changed fields. Request outcomes are inputs.
 */
module AlertTemplatesStore {
  import opened Wrappers
  import opened JsonValue
  import UserController

  datatype Field = Telegram | Discord | EmailSubject | EmailPreview

  /** `Object.keys(templates)`: the order the state object's keys are created in. */
  const Keys: seq<Field> := [Telegram, Discord, EmailSubject, EmailPreview]

  datatype Templates = Templates(telegram: string, discord: string, emailSubject: string, emailPreview: string)

  /** `templates[field]`. */
  function Get(t: Templates, f: Field): string
  {
    match f
    case Telegram => t.telegram
    case Discord => t.discord
    case EmailSubject => t.emailSubject
    case EmailPreview => t.emailPreview
  }

  /** `{ ...t, [field]: v }`. */
  function With(t: Templates, f: Field, v: string): (r: Templates)
    ensures Get(r, f) == v
    ensures forall g :: g != f ==> Get(r, g) == Get(t, g)
  {
    match f
    case Telegram => t.(telegram := v)
    case Discord => t.(discord := v)
    case EmailSubject => t.(emailSubject := v)
    case EmailPreview => t.(emailPreview := v)
  }

  /** `keyMap`: the database column of each field. */
  function KeyMap(f: Field): string
  {
    match f
    case Telegram => "alert_template_telegram"
    case Discord => "alert_template_discord"
    case EmailSubject => "alert_template_email_subject"
    case EmailPreview => "alert_template_email_preview"
  }

  /** The state key of each field, which is also the body field the update handler reads. */
  function StateKey(f: Field): string
  {
    match f
    case Telegram => "templateTelegram"
    case Discord => "templateDiscord"
    case EmailSubject => "templateEmailSubject"
    case EmailPreview => "templateEmailPreview"
  }

  predicate Injective(key: Field -> string)
  {
    forall f, g :: key(f) == key(g) ==> f == g
  }

  /** Both key maps send the four fields to four different names. */
  lemma KeysInjective()
    ensures Injective(KeyMap) && Injective(StateKey)
  {
    forall f, g | KeyMap(f) == KeyMap(g)
      ensures f == g
    {
      assert KeyMap(f)[15] == KeyMap(g)[15];
      if KeyMap(f)[15] == 'e' {
        assert KeyMap(f)[21] == KeyMap(g)[21];
      }
    }
    forall f, g | StateKey(f) == StateKey(g)
      ensures f == g
    {
      assert StateKey(f)[8] == StateKey(g)[8];
      if StateKey(f)[8] == 'E' {
        assert StateKey(f)[13] == StateKey(g)[13];
      }
    }
  }

  // ---------------------------------------------------------------------------------------
  // Defaults
  // ---------------------------------------------------------------------------------------

  /**
   * The fallback templates as the store file holds them: every emoji is its UTF-8 bytes read
   * as Windows-1252 text (so the fire emoji is the four characters U+00F0 U+0178 U+201D U+00A5).
   */
  const TelegramAsWritten: string :=
    "\U{00F0}\U{0178}\U{201D}\U{00A5} TRENDING: {video_title}\n\n\U{00F0}\U{0178}\U{201C}\U{02C6} {views} views " +
    "\U{00E2}\U{20AC}\U{00A2} {likes} likes \U{00E2}\U{20AC}\U{00A2} {comments} comments\n\n" +
    "\U{00F0}\U{0178}\U{2018}\U{00A4} {channel_name}\n\n\U{00F0}\U{0178}\U{2022}\U{2019} Posted {time_ago}\n\n" +
    "\U{00F0}\U{0178}\U{2018}\U{2030} {video_url}"
  const DiscordAsWritten: string :=
    "**\U{00F0}\U{0178}\U{201D}\U{00A5} TRENDING VIDEO ALERT \U{00F0}\U{0178}\U{201D}\U{00A5}**\n\n" +
    "**Title:** {video_title}\n**Channel:** {channel_name}\n\n**Stats:** \U{00F0}\U{0178}\U{201C}\U{02C6} {views} views | " +
    "\U{00F0}\U{0178}\U{2018} {likes} likes | \U{00F0}\U{0178}\U{2019}\U{00AC} {comments} comments\n" +
    "**Posted:** {time_ago}\n\n{video_url}"
  const EmailSubjectAsWritten: string := "\U{00F0}\U{0178}\U{201D}\U{00A5} New Trending Shorts Alert from Trendy"

  function DefaultTemplatesAsWritten(): Templates
  {
    Templates(TelegramAsWritten, DiscordAsWritten, EmailSubjectAsWritten, UserController.DefaultEmailPreview)
  }

  /** The fallback templates with their emoji intact: the server's own defaults. */
  const DefaultTemplates: Templates :=
    Templates(UserController.DefaultTelegram, UserController.DefaultDiscord, UserController.DefaultEmailSubject,
              UserController.DefaultEmailPreview)

  // ---------------------------------------------------------------------------------------
  // Loading
  // ---------------------------------------------------------------------------------------

  /** `value || fallback` for a template read from the response (a truthy non-string is shown as text). */
  function TextOr(x: Option<Value>, fallback: string): (r: string)
    ensures x.None? || Falsy(x.value) ==> r == fallback
    ensures x.Some? && x.value.Str? && x.value.s != "" ==> r == x.value.s
  {
    if x.Some? && !Falsy(x.value) then ToJsString(x.value) else fallback
  }

  /**
   * The templates built from the response body, which is keyed by column name; a missing or
   * empty template falls back to the store's own (mis-decoded) default.
   */
  function FetchedTemplates(data: map<string, Value>): Templates
  {
    var d := DefaultTemplatesAsWritten();
    Templates(TextOr(Lookup(data, KeyMap(Telegram)), Get(d, Telegram)),
              TextOr(Lookup(data, KeyMap(Discord)), Get(d, Discord)),
              TextOr(Lookup(data, KeyMap(EmailSubject)), Get(d, EmailSubject)),
              TextOr(Lookup(data, KeyMap(EmailPreview)), Get(d, EmailPreview)))
  }

  /** A failed request, or the response body (None when it is null, which throws on indexing). */
  datatype FetchResponse = FetchFailed | Fetched(data: Option<map<string, Value>>)

  /** What loading leaves in both `templates` and `initialTemplates`. */
  function FetchOutcome(token: Option<string>, response: FetchResponse): Templates
  {
    if token.None? || token.value == "" then DefaultTemplatesAsWritten()
    else match response
      case FetchFailed => DefaultTemplatesAsWritten()
      case Fetched(data) => if data.Some? then FetchedTemplates(data.value) else DefaultTemplatesAsWritten()
  }

  // ---------------------------------------------------------------------------------------
  // Saving
  // ---------------------------------------------------------------------------------------

  predicate Differs(t: Templates, init: Templates, f: Field)
  {
    Get(t, f) != Get(init, f)
  }

  /** The `saveTemplates` payload after visiting `fs`: `key(f) ↦ templates[f]` for each differing field. */
  function Changed(t: Templates, init: Templates, fs: seq<Field>, key: Field -> string): map<string, string>
  {
    if fs == [] then map[]
    else
      var f := fs[|fs| - 1];
      var m := Changed(t, init, fs[..|fs| - 1], key);
      if Differs(t, init, f) then m[key(f) := Get(t, f)] else m
  }

  /** `hasChanges` after visiting `fs`. */
  predicate AnyDiffers(t: Templates, init: Templates, fs: seq<Field>)
  {
    exists i :: 0 <= i < |fs| && Differs(t, init, fs[i])
  }

  lemma ChangedSnoc(t: Templates, init: Templates, fs: seq<Field>, i: nat, key: Field -> string)
    requires i < |fs|
    ensures Changed(t, init, fs[..i + 1], key) ==
            if Differs(t, init, fs[i]) then Changed(t, init, fs[..i], key)[key(fs[i]) := Get(t, fs[i])]
            else Changed(t, init, fs[..i], key)
    ensures AnyDiffers(t, init, fs[..i + 1]) <==> AnyDiffers(t, init, fs[..i]) || Differs(t, init, fs[i])
  {
    assert fs[..i + 1][..i] == fs[..i];
    AnyDiffersSnoc(t, init, fs[..i], fs[i]);
    assert fs[..i] + [fs[i]] == fs[..i + 1];
  }

  lemma AnyDiffersSnoc(t: Templates, init: Templates, p: seq<Field>, f: Field)
    ensures AnyDiffers(t, init, p + [f]) <==> AnyDiffers(t, init, p) || Differs(t, init, f)
  {
    var q := p + [f];
    if AnyDiffers(t, init, q) && !Differs(t, init, f) {
      var j :| 0 <= j < |q| && Differs(t, init, q[j]);
      assert j < |p| && p[j] == q[j];
    }
    if AnyDiffers(t, init, p) {
      var j :| 0 <= j < |p| && Differs(t, init, p[j]);
      assert q[j] == p[j];
    }
    if Differs(t, init, f) {
      assert q[|p|] == f;
    }
  }

  /** Every payload key names a differing field. */
  lemma {:induction false} ChangedDomain(t: Templates, init: Templates, fs: seq<Field>, key: Field -> string, k: string)
    requires k in Changed(t, init, fs, key)
    ensures exists i :: 0 <= i < |fs| && key(fs[i]) == k && Differs(t, init, fs[i])
    decreases |fs|
  {
    var init' := fs[..|fs| - 1];
    var f := fs[|fs| - 1];
    if !(key(f) == k && Differs(t, init, f)) {
      ChangedDomain(t, init, init', key, k);
      var i :| 0 <= i < |init'| && key(init'[i]) == k && Differs(t, init, init'[i]);
      assert fs[i] == init'[i];
    }
  }

  /**
   * With an injective key map and no field visited twice, the payload holds `key(f)` exactly
   * for the visited fields that differ, each with its current text.
   */
  lemma {:induction false} ChangedFields(t: Templates, init: Templates, fs: seq<Field>, key: Field -> string, f: Field)
    requires Injective(key) && f in fs
    requires forall i, j :: 0 <= i < j < |fs| ==> fs[i] != fs[j]
    ensures key(f) in Changed(t, init, fs, key) <==> Differs(t, init, f)
    ensures key(f) in Changed(t, init, fs, key) ==> Changed(t, init, fs, key)[key(f)] == Get(t, f)
    decreases |fs|
  {
    var init' := fs[..|fs| - 1];
    var g := fs[|fs| - 1];
    if f == g {
      if key(f) in Changed(t, init, init', key) {
        ChangedDomain(t, init, init', key, key(f));
        assert false;
      }
    } else {
      var j :| 0 <= j < |fs| && fs[j] == f;
      assert j < |init'| && init'[j] == f;
      ChangedFields(t, init, init', key, f);
    }
  }

  /**
   * The full save payload maps `key(f)` to the current text of exactly the fields that differ
   * from the last loaded or saved copy, and holds nothing else; it is empty exactly when the
   * two copies are equal.
   */
  lemma SavePayload(t: Templates, init: Templates, key: Field -> string)
    requires Injective(key)
    ensures forall f :: (key(f) in Changed(t, init, Keys, key) <==> Differs(t, init, f))
    ensures forall f :: Differs(t, init, f) ==> Changed(t, init, Keys, key)[key(f)] == Get(t, f)
    ensures forall k :: k in Changed(t, init, Keys, key) ==> exists f :: key(f) == k
    ensures AnyDiffers(t, init, Keys) <==> t != init
  {
    forall f
      ensures key(f) in Changed(t, init, Keys, key) <==> Differs(t, init, f)
      ensures Differs(t, init, f) ==> Changed(t, init, Keys, key)[key(f)] == Get(t, f)
    {
      assert f in Keys by {
        match f
        case Telegram => assert Keys[0] == f;
        case Discord => assert Keys[1] == f;
        case EmailSubject => assert Keys[2] == f;
        case EmailPreview => assert Keys[3] == f;
      }
      ChangedFields(t, init, Keys, key, f);
    }
    forall k | k in Changed(t, init, Keys, key)
      ensures exists f :: key(f) == k
    {
      ChangedDomain(t, init, Keys, key, k);
    }
    if t != init {
      if t.telegram != init.telegram {
        assert Differs(t, init, Keys[0]);
      } else if t.discord != init.discord {
        assert Differs(t, init, Keys[1]);
      } else if t.emailSubject != init.emailSubject {
        assert Differs(t, init, Keys[2]);
      } else {
        assert Differs(t, init, Keys[3]);
      }
    }
  }

  /**
   * The `forEach` over the state keys in `saveTemplates`: the payload, keyed by column name
   * through `keyMap`, and `hasChanges`.
   */
  method CollectChanges(t: Templates, init: Templates) returns (payload: map<string, string>, hasChanges: bool)
    ensures payload == Changed(t, init, Keys, KeyMap)
    ensures hasChanges <==> AnyDiffers(t, init, Keys)
  {
    payload, hasChanges := map[], false;
    for i := 0 to |Keys|
      invariant payload == Changed(t, init, Keys[..i], KeyMap)
      invariant hasChanges <==> AnyDiffers(t, init, Keys[..i])
    {
      var key := Keys[i];
      ChangedSnoc(t, init, Keys, i, KeyMap);
      if Get(t, key) != Get(init, key) {
        payload := payload[KeyMap(key) := Get(t, key)];
        hasChanges := true;
      }
    }
    assert Keys[..|Keys|] == Keys;
  }

  class Store {
    var templates: Option<Templates>
    var initialTemplates: Option<Templates>
    var isLoading: bool
    var isSaving: bool
    var isResetting: map<Field, bool>

    constructor()
      ensures templates == None && initialTemplates == None
      ensures isLoading && !isSaving && isResetting == map[]
    {
      templates := None;
      initialTemplates := None;
      isLoading := true;
      isSaving := false;
      isResetting := map[];
    }

    /** `fetchTemplates`: both copies become the loaded templates, or the defaults. */
    method FetchTemplates(token: Option<string>, response: FetchResponse)
      modifies this
      ensures templates == Some(FetchOutcome(token, response)) && initialTemplates == templates
      ensures !isLoading && isSaving == old(isSaving) && isResetting == old(isResetting)
    {
      var defaults := DefaultTemplatesAsWritten();
      if token.None? || token.value == "" {
        isLoading, templates, initialTemplates := false, Some(defaults), Some(defaults);
        return;
      }
      isLoading := true;
      match response {
        case FetchFailed =>
          templates, initialTemplates := Some(defaults), Some(defaults);
        case Fetched(data) =>
          if data.None? {
            templates, initialTemplates := Some(defaults), Some(defaults);
          } else {
            var fetched := FetchedTemplates(data.value);
            templates, initialTemplates := Some(fetched), Some(fetched);
          }
      }
      isLoading := false;
    }

    /** `setTemplateField`: only the named field changes, and nothing is created when unloaded. */
    method SetTemplateField(f: Field, value: string)
      modifies this
      ensures templates == if old(templates).Some? then Some(With(old(templates).value, f, value)) else None
      ensures initialTemplates == old(initialTemplates) && isLoading == old(isLoading)
      ensures isSaving == old(isSaving) && isResetting == old(isResetting)
    {
      if templates.Some? {
        templates := Some(With(templates.value, f, value));
      }
    }

    /**
     * `resetTemplateField`: the field shows the store's default at once; with a token and
     * loaded templates that default is sent under the field's column name alone, and a
     * successful request also records it in `initialTemplates`. Returns the payload sent, if any.
     */
    method ResetTemplateField(f: Field, token: Option<string>, saveOk: bool) returns (sent: Option<map<string, string>>)
      modifies this
      ensures var d := Get(DefaultTemplatesAsWritten(), f);
              templates == (if old(templates).Some? then Some(With(old(templates).value, f, d)) else None) &&
              isResetting == old(isResetting)[f := false] &&
              (token.None? || token.value == "" || old(templates).None? ==>
                 sent.None? && initialTemplates == old(initialTemplates)) &&
              (token.Some? && token.value != "" && old(templates).Some? ==>
                 sent == Some(map[KeyMap(f) := d]) &&
                 initialTemplates == (if saveOk && old(initialTemplates).Some?
                                      then Some(With(old(initialTemplates).value, f, d))
                                      else old(initialTemplates)))
      ensures isLoading == old(isLoading) && isSaving == old(isSaving)
    {
      var d := Get(DefaultTemplatesAsWritten(), f);
      var current := templates;
      isResetting := isResetting[f := true];
      if templates.Some? {
        templates := Some(With(templates.value, f, d));
      }
      if token.None? || token.value == "" || current.None? {
        isResetting := isResetting[f := false];
        return None;
      }
      sent := Some(map[KeyMap(f) := d]);
      if saveOk && initialTemplates.Some? {
        initialTemplates := Some(With(initialTemplates.value, f, d));
      }
      isResetting := isResetting[f := false];
    }

    /**
     * `saveTemplates`: without a token or either copy nothing happens; otherwise the fields that
     * differ are collected in key order under their column names, nothing is sent when none
     * differs, and a successful request makes the edited copy the new `initialTemplates`.
     * Returns the payload sent, if any.
     */
    method SaveTemplates(token: Option<string>, saveOk: bool) returns (sent: Option<map<string, string>>)
      modifies this
      ensures token.None? || token.value == "" || old(templates).None? || old(initialTemplates).None? ==>
                sent.None? && initialTemplates == old(initialTemplates) && isSaving == old(isSaving)
      ensures token.Some? && token.value != "" && old(templates).Some? && old(initialTemplates).Some? ==>
                var t := old(templates).value;
                var init := old(initialTemplates).value;
                sent == (if AnyDiffers(t, init, Keys) then Some(Changed(t, init, Keys, KeyMap)) else None) &&
                initialTemplates == (if sent.Some? && saveOk then old(templates) else old(initialTemplates)) &&
                !isSaving
      ensures templates == old(templates) && isLoading == old(isLoading) && isResetting == old(isResetting)
    {
      if token.None? || token.value == "" || templates.None? || initialTemplates.None? {
        return None;
      }
      isSaving := true;
      var payload, hasChanges := CollectChanges(templates.value, initialTemplates.value);
      if !hasChanges {
        isSaving := false;
        return None;
      }
      sent := Some(payload);
      if saveOk {
        initialTemplates := templates;
      }
      isSaving := false;
    }
  }

  // ---------------------------------------------------------------------------------------
  // How the server's update handler reads what the store sends
  // ---------------------------------------------------------------------------------------

  /** The request body as the update handler destructures it. */
  function BodyOf(payload: map<string, string>): UserController.TemplatesBody
  {
    UserController.TemplatesBody(
      if StateKey(Telegram) in payload then Some(Str(payload[StateKey(Telegram)])) else None,
      if StateKey(Discord) in payload then Some(Str(payload[StateKey(Discord)])) else None,
      if StateKey(EmailSubject) in payload then Some(Str(payload[StateKey(EmailSubject)])) else None,
      if StateKey(EmailPreview) in payload then Some(Str(payload[StateKey(EmailPreview)])) else None)
  }

  /** No column name is a body field name. */
  lemma ColumnsAreNotBodyFields(f: Field, g: Field)
    ensures KeyMap(f) != StateKey(g)
  {
    assert KeyMap(f)[0] == 'a' && StateKey(g)[0] == 't';
  }

  /**
   * As written, the save payload is keyed by column name, which the update handler does not
   * read: however many templates changed, the server stores nothing and answers 200 "No alert
   * templates provided to update.", which the store then takes for a successful save.
   */
  lemma SaveAsWrittenIgnored(userId: string, t: Templates, init: Templates, env: UserController.Env,
                             store: UserController.UpdateResult)
    requires userId != ""
    ensures var h := UserController.TemplatesOutcome(userId, BodyOf(Changed(t, init, Keys, KeyMap)), env, store);
            h.response == UserController.Message(200, "No alert templates provided to update.") && h.sent.None?
  {
    var p := Changed(t, init, Keys, KeyMap);
    NoStateKeys(t, init);
    var b := BodyOf(p);
    assert b == UserController.TemplatesBody(None, None, None, None) by {
      assert StateKey(Telegram) !in p && StateKey(Discord) !in p;
      assert StateKey(EmailSubject) !in p && StateKey(EmailPreview) !in p;
    }
    UserController.TemplatesNoFields(userId, b, env, store);
  }

  /** The payload as written holds column names only, never one of the body's field names. */
  lemma NoStateKeys(t: Templates, init: Templates)
    ensures forall g :: StateKey(g) !in Changed(t, init, Keys, KeyMap)
  {
    var p := Changed(t, init, Keys, KeyMap);
    forall g
      ensures StateKey(g) !in p
    {
      if StateKey(g) in p {
        ChangedDomain(t, init, Keys, KeyMap, StateKey(g));
        var i :| 0 <= i < |Keys| && KeyMap(Keys[i]) == StateKey(g) && Differs(t, init, Keys[i]);
        ColumnsAreNotBodyFields(Keys[i], g);
      }
    }
  }

  /** The four template columns the handler writes differ from one another. */
  lemma TemplateColumnsDistinct(b: UserController.TemplatesBody)
    ensures UserController.Distinct(UserController.TemplateSlots(b, map[]))
    ensures forall f :: UserController.TemplateSlots(b, map[])[FieldIndex(f)].0 == KeyMap(f)
  {
    var s := UserController.TemplateSlots(b, map[]);
    assert s[0].0 == KeyMap(Telegram) && s[1].0 == KeyMap(Discord);
    assert s[2].0 == KeyMap(EmailSubject) && s[3].0 == KeyMap(EmailPreview);
    KeysInjective();
    forall i, j | 0 <= i < j < |s|
      ensures s[i].0 != s[j].0
    {
      assert s[i].0 == KeyMap(Keys[i]) && s[j].0 == KeyMap(Keys[j]);
    }
  }

  /** The position of a field in `Keys`, which is also its slot in the update handler. */
  function FieldIndex(f: Field): (i: nat)
    ensures i < |Keys| && Keys[i] == f
  {
    match f
    case Telegram => 0
    case Discord => 1
    case EmailSubject => 2
    case EmailPreview => 3
  }

  /**
   * Keyed by the body field names, the save payload makes the update handler (with its default
   * column names) write exactly the changed templates, each to its column with its new text.
   */
  lemma SaveStoresChanges(t: Templates, init: Templates)
    ensures var data := UserController.Fill(UserController.TemplateSlots(BodyOf(Changed(t, init, Keys, StateKey)), map[]));
            (forall f :: KeyMap(f) in data <==> Differs(t, init, f)) &&
            (forall f :: Differs(t, init, f) ==> data[KeyMap(f)] == UserController.Raw(Str(Get(t, f)))) &&
            (forall k :: k in data ==> exists f :: KeyMap(f) == k)
  {
    var p := Changed(t, init, Keys, StateKey);
    KeysInjective();
    SavePayload(t, init, StateKey);
    var b := BodyOf(p);
    var s := UserController.TemplateSlots(b, map[]);
    TemplateColumnsDistinct(b);
    UserController.FillWrites(s);
    var data := UserController.Fill(s);
    forall f
      ensures KeyMap(f) in data <==> Differs(t, init, f)
      ensures Differs(t, init, f) ==> data[KeyMap(f)] == UserController.Raw(Str(Get(t, f)))
    {
      var i := FieldIndex(f);
      assert UserController.Writes(data, s[i].0, s[i].1);
      assert s[i].1 == if StateKey(f) in p then Some(UserController.Raw(Str(p[StateKey(f)]))) else None by {
        match f
        case Telegram =>
        case Discord =>
        case EmailSubject =>
        case EmailPreview =>
      }
    }
    forall k | k in data
      ensures exists f :: KeyMap(f) == k
    {
      var i :| 0 <= i < |s| && s[i].0 == k;
      assert KeyMap(Keys[i]) == k;
    }
  }

  // ---------------------------------------------------------------------------------------
  // Defaults, as written and as intended
  // ---------------------------------------------------------------------------------------

  /**
   * As written, a reset sends the mis-decoded default, while a user who never saved a template
   * is shown the server's default: the two subjects already differ in their first character.
   */
  lemma MisdecodedDefaultDiffers()
    ensures DefaultTemplatesAsWritten().emailSubject != UserController.DefaultEmailSubject
    ensures Get(FetchedTemplates(UserController.AlertTemplates(map[], map[])), EmailSubject) ==
            UserController.DefaultEmailSubject
  {
    assert DefaultTemplatesAsWritten().emailSubject[0] != UserController.DefaultEmailSubject[0];
    UserController.TemplateDefaults(map[]);
  }

  /**
   * As written, a reset sends the default under the field's column name, which the update
   * handler does not read: the server stores nothing and answers 200 "No alert templates
   * provided to update.", which the store takes for a successful reset.
   */
  lemma ResetAsWrittenIgnored(userId: string, f: Field, env: UserController.Env, store: UserController.UpdateResult)
    requires userId != ""
    ensures var h := UserController.TemplatesOutcome(userId, BodyOf(map[KeyMap(f) := Get(DefaultTemplatesAsWritten(), f)]),
                                                     env, store);
            h.response == UserController.Message(200, "No alert templates provided to update.") && h.sent.None?
  {
    var p := map[KeyMap(f) := Get(DefaultTemplatesAsWritten(), f)];
    forall g
      ensures StateKey(g) !in p
    {
      ColumnsAreNotBodyFields(f, g);
    }
    var b := BodyOf(p);
    assert b == UserController.TemplatesBody(None, None, None, None) by {
      assert StateKey(Telegram) !in p && StateKey(Discord) !in p;
      assert StateKey(EmailSubject) !in p && StateKey(EmailPreview) !in p;
    }
    UserController.TemplatesNoFields(userId, b, env, store);
  }

  /**
   * Sent under the field's body name, a reset to `v` makes the update handler write that one
   * template column, with `v`, and nothing else.
   */
  lemma ResetStoresDefault(f: Field, v: string)
    ensures UserController.Fill(UserController.TemplateSlots(BodyOf(map[StateKey(f) := v]), map[])) ==
            map[KeyMap(f) := UserController.Raw(Str(v))]
  {
    var p := map[StateKey(f) := v];
    KeysInjective();
    var b := BodyOf(p);
    var s := UserController.TemplateSlots(b, map[]);
    TemplateColumnsDistinct(b);
    UserController.FillWrites(s);
    var data := UserController.Fill(s);
    forall g
      ensures KeyMap(g) in data <==> g == f
      ensures g == f ==> data[KeyMap(g)] == UserController.Raw(Str(v))
    {
      var i := FieldIndex(g);
      assert UserController.Writes(data, s[i].0, s[i].1);
      assert s[i].1 == if StateKey(g) in p then Some(UserController.Raw(Str(p[StateKey(g)]))) else None by {
        match g
        case Telegram =>
        case Discord =>
        case EmailSubject =>
        case EmailPreview =>
      }
    }
    forall k | k in data
      ensures k == KeyMap(f)
    {
      var i :| 0 <= i < |s| && s[i].0 == k;
      assert KeyMap(Keys[i]) == k;
    }
  }

  /**
   * With the intended defaults, resetting a field and reloading shows the same text as a user
   * who never set that template: the server's default.
   */
  lemma ResetMatchesFreshUser(f: Field)
    ensures var stored := map[KeyMap(f) := Str(Get(DefaultTemplates, f))];
            Get(FetchedTemplates(UserController.AlertTemplates(stored, map[])), f) ==
            Get(FetchedTemplates(UserController.AlertTemplates(map[], map[])), f) ==
            Get(DefaultTemplates, f)
  {
    var stored := map[KeyMap(f) := Str(Get(DefaultTemplates, f))];
    UserController.TemplateDefaults(stored);
    UserController.TemplateDefaults(map[]);
    assert Get(DefaultTemplates, f) != "" by {
      match f
      case Telegram => assert |UserController.DefaultTelegram| > 0;
      case Discord => assert |UserController.DefaultDiscord| > 0;
      case EmailSubject => assert |UserController.DefaultEmailSubject| > 0;
      case EmailPreview => assert |UserController.DefaultEmailPreview| > 0;
    }
  }

  /** Loading with no token, or a failed load, gives the store's own defaults in both copies. */
  lemma FetchFallsBack(response: FetchResponse, data: map<string, Value>)
    ensures FetchOutcome(None, response) == FetchOutcome(Some(""), response) == DefaultTemplatesAsWritten()
    ensures FetchOutcome(Some("t"), FetchFailed) == FetchOutcome(Some("t"), Fetched(None)) == DefaultTemplatesAsWritten()
    ensures forall f :: Lookup(data, KeyMap(f)).None? ==> Get(FetchOutcome(Some("t"), Fetched(Some(data))), f) ==
                                                           Get(DefaultTemplatesAsWritten(), f)
  {
    forall f | Lookup(data, KeyMap(f)).None?
      ensures Get(FetchOutcome(Some("t"), Fetched(Some(data))), f) == Get(DefaultTemplatesAsWritten(), f)
    {
      match f
      case Telegram =>
      case Discord =>
      case EmailSubject =>
      case EmailPreview =>
    }
  }
}
