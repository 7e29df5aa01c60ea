/**
 * The dashboard layout's three helpers: the initials shown in the avatar fallback, which
 * navigation entry is active, and where the avatar image comes from.
 */
module DashboardLayout {
  import opened Wrappers
  import Js
  import opened JsonValue

  /** A missing or empty string is falsy. */
  predicate Present(x: Option<string>)
  {
    x.Some? && x.value != ""
  }

  // ---------------------------------------------------------------------------------------
  // getUserInitials
  // ---------------------------------------------------------------------------------------

  /** A word's first character inside a template literal: an empty word gives "undefined". */
  function FirstChar(word: string): string
  {
    if word == "" then "undefined" else [word[0]]
  }

  /** `getUserInitials` as written: the name split at every single space. */
  function InitialsAsWritten(name: Option<string>, email: Option<string>): string
  {
    if !Present(name) && !Present(email) then "U"
    else if Present(name) then
      var parts := Js.Split(name.value, ' ');
      if |parts| > 1 then FirstChar(parts[0]) + FirstChar(parts[|parts| - 1])
      else Js.ToUpper(Js.Take(name.value, 2))
    else Js.ToUpper(Js.Take(email.value, 2))
  }

  /** A name with a trailing space shows "undefined" in place of a second initial. */
  lemma TrailingSpaceInitials()
    ensures InitialsAsWritten(Some("Ann "), None) == "Aundefined"
  {
    var name := ['A', 'n', 'n', ' '];
    assert name == "Ann ";
    assert Js.IndexOfChar(name, ' ') == Some(3) by {
      assert name[0] != ' ' && name[1] != ' ' && name[2] != ' ' && name[3] == ' ';
      assert name[1..] == ['n', 'n', ' '] && name[1..][1..] == ['n', ' '] && name[1..][1..][1..] == [' '];
    }
    assert name[..3] == "Ann" && name[4..] == [];
    assert Js.Split(name, ' ') == ["Ann", ""];
  }

  /** The words of a name: the pieces between spaces that are not empty. */
  function Words(name: Option<string>): (r: seq<string>)
    ensures forall i :: 0 <= i < |r| ==> r[i] != ""
  {
    if Present(name) then Js.Filter(Js.Split(name.value, ' '), (w: string) => w != "") else []
  }

  /**
   * The initials from the name's words: the first characters of the first and last word when
   * there are several, the first two characters upper-cased of a single word, otherwise of the
   * email, otherwise "U".
   */
  function Initials(name: Option<string>, email: Option<string>): (r: string)
    ensures 1 <= |r| <= 2
    ensures |Words(name)| > 1 ==> r == [Words(name)[0][0], Words(name)[|Words(name)| - 1][0]]
  {
    var words := Words(name);
    if |words| > 1 then [words[0][0], words[|words| - 1][0]]
    else if |words| == 1 then Js.ToUpper(Js.Take(words[0], 2))
    else if Present(email) then Js.ToUpper(Js.Take(email.value, 2))
    else "U"
  }

  lemma SplitOnePiece(s: string)
    requires |Js.Split(s, ' ')| == 1
    ensures Js.Split(s, ' ') == [s]
  {
  }

  /** A name whose pieces are all words has those pieces as its words. */
  lemma WordsOfWellSpaced(name: string)
    requires forall i :: 0 <= i < |Js.Split(name, ' ')| ==> Js.Split(name, ' ')[i] != ""
    ensures Words(Some(name)) == if name == "" then [] else Js.Split(name, ' ')
  {
    if name != "" {
      Js.FilterKeepsAll(Js.Split(name, ' '), (w: string) => w != "");
    }
  }

  lemma AgreeOnOneWord(name: string, email: Option<string>)
    requires name != "" && Js.Split(name, ' ') == [name]
    ensures InitialsAsWritten(Some(name), email) == Initials(Some(name), email)
  {
    assert InitialsAsWritten(Some(name), email) == Js.ToUpper(Js.Take(name, 2));
    Js.FilterKeepsAll([name], (w: string) => w != "");
    assert Words(Some(name)) == [name];
  }

  lemma AgreeOnManyWords(name: string, email: Option<string>)
    requires name != "" && |Js.Split(name, ' ')| > 1
    requires Words(Some(name)) == Js.Split(name, ' ')
    ensures InitialsAsWritten(Some(name), email) == Initials(Some(name), email)
  {
    var parts := Js.Split(name, ' ');
    assert parts[0] != "" && parts[|parts| - 1] != "";
    assert InitialsAsWritten(Some(name), email) == FirstChar(parts[0]) + FirstChar(parts[|parts| - 1]);
  }

  lemma AgreeOnWords(name: string, email: Option<string>)
    requires name != ""
    requires forall i :: 0 <= i < |Js.Split(name, ' ')| ==> Js.Split(name, ' ')[i] != ""
    ensures InitialsAsWritten(Some(name), email) == Initials(Some(name), email)
  {
    if |Js.Split(name, ' ')| == 1 {
      SplitOnePiece(name);
      AgreeOnOneWord(name, email);
    } else {
      WordsOfWellSpaced(name);
      AgreeOnManyWords(name, email);
    }
  }

  /**
   * On names whose words are separated by single spaces, with none before or after, the
   * written initials are the intended ones: "U" with neither name nor email, and the email's
   * first two characters upper-cased without a name.
   */
  lemma InitialsAgree(name: Option<string>, email: Option<string>)
    requires Present(name) ==> forall i :: 0 <= i < |Js.Split(name.value, ' ')| ==> Js.Split(name.value, ' ')[i] != ""
    ensures InitialsAsWritten(name, email) == Initials(name, email)
    ensures !Present(name) && !Present(email) ==> Initials(name, email) == "U"
    ensures !Present(name) && Present(email) ==> Initials(name, email) == Js.ToUpper(Js.Take(email.value, 2))
  {
    if Present(name) {
      AgreeOnWords(name.value, email);
    }
  }

  // ---------------------------------------------------------------------------------------
  // isActive
  // ---------------------------------------------------------------------------------------

  const SettingsPath := "/settings"

  predicate IsActive(path: string, pathname: string)
  {
    if path == SettingsPath then Js.StartsWith(pathname, SettingsPath) else pathname == path
  }

  /** Every page under the settings path marks settings active; any other entry needs its exact path. */
  lemma ActiveMeaning(path: string, rest: string)
    ensures IsActive(SettingsPath, SettingsPath + rest)
    ensures path != SettingsPath ==> (IsActive(path, path + rest) <==> rest == "")
  {
    assert (SettingsPath + rest)[..|SettingsPath|] == SettingsPath;
    if path != SettingsPath && rest != "" {
      assert |path + rest| > |path|;
    }
  }

  // ---------------------------------------------------------------------------------------
  // getAvatarSrc
  // ---------------------------------------------------------------------------------------

  /** The avatar image: the ui-avatars picture for a label, or an upload resolved against a base. */
  datatype Avatar = Fallback(caption: string) | Uploaded(path: string, base: string)

  /** `name || email || 'U'`. */
  function FallbackLabel(name: Option<string>, email: Option<string>): string
  {
    if Present(name) then name.value else if Present(email) then email.value else "U"
  }

  const DevApiUrl := "http://localhost:5001/api"

  /** `BACKEND_API_BASE_URL`: relative in a production build, else the configured or local URL. */
  function ApiBase(production: bool, configured: Option<string>): string
  {
    if production then "/api" else if Present(configured) then configured.value else DevApiUrl
  }

  predicate AsciiLetter(c: char)
  {
    'a' <= c <= 'z' || 'A' <= c <= 'Z'
  }

  predicate SchemeChar(c: char)
  {
    AsciiLetter(c) || '0' <= c <= '9' || c == '+' || c == '-' || c == '.'
  }

  /** The URL constructor takes only an absolute base, one that starts with a scheme and a colon. */
  predicate AcceptsBase(base: string)
  {
    |base| > 0 && AsciiLetter(base[0]) &&
    exists k :: 0 < k < |base| && base[k] == ':' && forall m :: 0 < m < k ==> SchemeChar(base[m])
  }

  /** A string photo path under "/uploads". */
  predicate IsUpload(photo: Option<Value>)
  {
    photo.Some? && photo.value.Str? && photo.value.s != "" && Js.StartsWith(photo.value.s, "/uploads")
  }

  /** `getAvatarSrc` as written: the upload is resolved against the API base without "/api". */
  function AvatarAsWritten(name: Option<string>, email: Option<string>, photo: Option<Value>,
                           production: bool, configured: Option<string>): Avatar
  {
    var fallback := Fallback(FallbackLabel(name, email));
    if IsUpload(photo) then
      var origin := Js.ReplaceFirst(ApiBase(production, configured), "/api", "");
      if AcceptsBase(origin) then Uploaded(photo.value.s, origin) else fallback
    else fallback
  }

  /** In a production build the base is empty, the URL constructor throws, and no upload is shown. */
  lemma ProductionNeverShowsUpload(name: Option<string>, email: Option<string>, photo: Option<Value>, configured: Option<string>)
    ensures AvatarAsWritten(name, email, photo, true, configured) == Fallback(FallbackLabel(name, email))
  {
    assert Js.StartsWith("/api", "/api");
    assert Js.ReplaceFirst("/api", "/api", "") == "";
  }

  /**
   * `getAvatarSrc` with the upload resolved against the page's own origin in a production
   * build, where the API is served from that origin.
   */
  function AvatarSrc(name: Option<string>, email: Option<string>, photo: Option<Value>,
                  production: bool, configured: Option<string>, pageOrigin: string): Avatar
  {
    var fallback := Fallback(FallbackLabel(name, email));
    if IsUpload(photo) then
      var origin := if production then pageOrigin else Js.ReplaceFirst(ApiBase(production, configured), "/api", "");
      if AcceptsBase(origin) then Uploaded(photo.value.s, origin) else fallback
    else fallback
  }

  lemma {:induction false} ReplaceTrailingApi(o: string)
    requires forall i :: 0 <= i <= |o| ==> !Js.StartsWith(o[i..], "/api")
    ensures Js.ReplaceFirst(o + "/api", "/api", "") == o
  {
    if o == [] {
      assert Js.StartsWith("/api", "/api");
    } else {
      assert !Js.StartsWith(o, "/api") by { assert o[0..] == o; }
      assert !Js.StartsWith(o + "/api", "/api") by {
        if |o| < 4 {
          assert (o + "/api")[|o|] == '/';
          assert ['/', 'a', 'p', 'i'] == "/api";
          assert "/api"[|o|] != '/';
        }
        if |o| >= 4 {
          assert (o + "/api")[..4] == o[..4];
        }
      }
      assert (o + "/api")[1..] == o[1..] + "/api";
      forall i | 0 <= i <= |o[1..]|
        ensures !Js.StartsWith(o[1..][i..], "/api")
      {
        assert o[1..][i..] == o[i + 1..];
      }
      ReplaceTrailingApi(o[1..]);
    }
  }

  /**
   * An upload is shown exactly when the photo is a string path under "/uploads" and the base
   * is accepted: in production the page's origin, otherwise the API URL with its first "/api"
   * removed (an API URL ending in its only "/api" gives its origin). Anything else shows the
   * fallback picture for the name, else the email, else "U".
   */
  lemma AvatarMeaning(name: Option<string>, email: Option<string>, photo: Option<Value>,
                      configured: Option<string>, pageOrigin: string, o: string)
    requires forall i :: 0 <= i <= |o| ==> !Js.StartsWith(o[i..], "/api")
    ensures IsUpload(photo) && AcceptsBase(pageOrigin) ==>
              AvatarSrc(name, email, photo, true, configured, pageOrigin) == Uploaded(photo.value.s, pageOrigin)
    ensures IsUpload(photo) && AcceptsBase(o) && configured == Some(o + "/api") ==>
              AvatarSrc(name, email, photo, false, configured, pageOrigin) == Uploaded(photo.value.s, o)
    ensures !IsUpload(photo) ==>
              AvatarSrc(name, email, photo, true, configured, pageOrigin) == Fallback(FallbackLabel(name, email))
    ensures AvatarSrc(name, email, photo, false, configured, pageOrigin) == AvatarAsWritten(name, email, photo, false, configured)
  {
    ReplaceTrailingApi(o);
    assert |o + "/api"| > 0;
  }
}
