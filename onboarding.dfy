/**
 * The onboarding wizard: four steps (welcome, niche, notifications, completion), the
 * notification-input validators, the step-by-step `handleNext`, and the notification-channel
 * and tracked-channel lists it edits.
 */
module Onboarding {
  import opened Wrappers
  import Js

  /** `OnboardingSteps.length`. */
  const StepCount := 4
  const NicheStep := 1
  const NotificationStep := 2

  // ---------------------------------------------------------------------------------------
  // Validators
  // ---------------------------------------------------------------------------------------

  predicate NoSpace(s: string)
  {
    forall k :: 0 <= k < |s| ==> !Js.IsSpace(s[k])
  }

  /**
   * `isValidEmail`, the pattern `^\S+@\S+\.\S+$`: no white space, an '@' after at least one
   * character, and a '.' with at least one character between it and the '@' and at least one
   * after it.
   */
  predicate IsValidEmail(s: string)
  {
    NoSpace(s) && exists i, j :: 1 <= i && i + 2 <= j <= |s| - 2 && s[i] == '@' && s[j] == '.'
  }

  /** The position of the last `c` in `s`, if any. */
  function LastIndexOf(s: string, c: char): (r: Option<nat>)
    ensures r.None? ==> c !in s
    ensures r.Some? ==> r.value < |s| && s[r.value] == c && forall k :: r.value < k < |s| ==> s[k] != c
  {
    if s == [] then None
    else if s[|s| - 1] == c then Some(|s| - 1)
    else LastIndexOf(s[..|s| - 1], c)
  }

  /**
   * A left-to-right reading of the same pattern: the first '@' after the first character and
   * the last '.' before the last character, at least two apart.
   */
  predicate EmailScan(s: string)
  {
    if |s| < 2 || !NoSpace(s) then false
    else
      var at := Js.IndexOfChar(s[1..], '@');
      var dot := LastIndexOf(s[..|s| - 1], '.');
      at.Some? && dot.Some? && at.value + 1 + 2 <= dot.value
  }

  /** The pattern holds exactly when the scan accepts. */
  lemma EmailScanMatches(s: string)
    ensures IsValidEmail(s) <==> EmailScan(s)
  {
    if IsValidEmail(s) {
      var i, j :| 1 <= i && i + 2 <= j <= |s| - 2 && s[i] == '@' && s[j] == '.';
      var at := Js.IndexOfChar(s[1..], '@');
      assert s[1..][i - 1] == '@';
      var dot := LastIndexOf(s[..|s| - 1], '.');
      assert s[..|s| - 1][j] == '.';
    }
    if EmailScan(s) {
      var at := Js.IndexOfChar(s[1..], '@');
      var dot := LastIndexOf(s[..|s| - 1], '.');
      assert s[at.value + 1] == '@' && s[dot.value] == '.';
    }
  }

  const DiscordWebhookPrefix := "https://discord.com/api/webhooks/"

  /** `isValidDiscordWebhook`. */
  predicate IsValidDiscordWebhook(url: string)
  {
    Js.StartsWith(url, DiscordWebhookPrefix)
  }

  /**
   * Readings of the address pattern: a dotted domain passes; a dot right after the '@', a dot
   * as the last character and white space each fail it.
   */
  lemma EmailExamples()
    ensures IsValidEmail("ann@site.io")
    ensures !IsValidEmail("ann@.io") && !IsValidEmail("ann@site.") && !IsValidEmail("a nn@site.io")
  {
    DottedDomainPasses();
    DotAfterAtFails();
    TrailingDotFails();
    assert "a nn@site.io"[1] == ' ';
  }

  lemma DottedDomainPasses()
    ensures IsValidEmail("ann@site.io")
  {
    var good := ['a', 'n', 'n', '@', 's', 'i', 't', 'e', '.', 'i', 'o'];
    assert good == "ann@site.io";
    assert good[3] == '@' && good[8] == '.';
  }

  lemma DotAfterAtFails()
    ensures !IsValidEmail("ann@.io")
  {
    EmailScanMatches("ann@.io");
  }

  lemma TrailingDotFails()
    ensures !IsValidEmail("ann@site.")
  {
    EmailScanMatches("ann@site.");
  }

  /** A webhook URL under the prefix passes; the same URL over plain http does not. */
  lemma WebhookExamples(rest: string)
    ensures IsValidDiscordWebhook(DiscordWebhookPrefix + rest)
    ensures !IsValidDiscordWebhook("http://discord.com/api/webhooks/" + rest)
  {
    assert (DiscordWebhookPrefix + rest)[..|DiscordWebhookPrefix|] == DiscordWebhookPrefix;
    var plain := "http://discord.com/api/webhooks/" + rest;
    if |DiscordWebhookPrefix| <= |plain| {
      assert plain[4] == ':' && DiscordWebhookPrefix[4] == 's';
      assert plain[..|DiscordWebhookPrefix|][4] == ':';
    }
  }

  // ---------------------------------------------------------------------------------------
  // handleNext
  // ---------------------------------------------------------------------------------------

  datatype TrackedChannel = TrackedChannel(
    id: string, title: string, thumbnailUrl: Option<string>, subscriberCount: Option<int>)

  datatype Notice =
    | NeedNiche | NeedChannel | InputRequired(channel: string) | InvalidEmail | InvalidDiscord
    | LoginAgain | EnterChannelQuery | LookupFailed(message: string) | AlreadyAdded

  /** The body of `PUT /users/preferences`. */
  datatype Preferences = Preferences(
    niche: Option<string>, selectedChannels: seq<string>, channelInputs: map<string, string>,
    trackedChannelIds: seq<string>)

  datatype NextOutcome = Blocked(notice: Notice) | Advanced | Saving(body: Preferences)

  /** A missing or empty string is falsy. */
  predicate Present(x: Option<string>)
  {
    x.Some? && x.value != ""
  }

  /** `channelInputs[id]?.trim() || ""`. */
  function InputOf(inputs: map<string, string>, id: string): string
  {
    if id in inputs then Js.Trim(inputs[id]) else ""
  }

  /** What is wrong with one selected channel's input, if anything. */
  function InputProblem(id: string, inputs: map<string, string>): (r: Option<Notice>)
    ensures r.None? <==> (InputOf(inputs, id) != "" &&
                          (id == "email" ==> IsValidEmail(InputOf(inputs, id))) &&
                          (id == "discord" ==> IsValidDiscordWebhook(InputOf(inputs, id))))
  {
    var v := InputOf(inputs, id);
    if v == "" then Some(InputRequired(id))
    else if id == "email" && !IsValidEmail(v) then Some(InvalidEmail)
    else if id == "discord" && !IsValidDiscordWebhook(v) then Some(InvalidDiscord)
    else None
  }

  /** The problem of the first selected channel that has one. */
  function FirstProblem(selected: seq<string>, inputs: map<string, string>): (r: Option<Notice>)
    ensures r.None? <==> forall k :: 0 <= k < |selected| ==> InputProblem(selected[k], inputs).None?
  {
    if selected == [] then None
    else if InputProblem(selected[0], inputs).Some? then InputProblem(selected[0], inputs)
    else
      var r := FirstProblem(selected[1..], inputs);
      AllFineAfterHead(selected, inputs, r.None?);
      r
  }

  /** With a fine first channel, all channels are fine exactly when all after it are. */
  lemma AllFineAfterHead(selected: seq<string>, inputs: map<string, string>, restFine: bool)
    requires |selected| > 0 && InputProblem(selected[0], inputs).None?
    requires restFine <==> forall k :: 0 <= k < |selected[1..]| ==> InputProblem(selected[1..][k], inputs).None?
    ensures restFine <==> forall k :: 0 <= k < |selected| ==> InputProblem(selected[k], inputs).None?
  {
    var fine := (id: string) => InputProblem(id, inputs).None?;
    AllAfterHead(selected, fine);
  }

  /** All elements satisfy `ok` exactly when the first does and all after it do. */
  lemma AllAfterHead<T>(s: seq<T>, ok: T -> bool)
    requires |s| > 0
    ensures (forall k :: 0 <= k < |s| ==> ok(s[k])) <==> ok(s[0]) && forall k :: 0 <= k < |s[1..]| ==> ok(s[1..][k])
  {
    assert forall k :: 1 <= k < |s| ==> s[k] == s[1..][k - 1];
  }

  lemma {:induction false} FirstProblemSkip(selected: seq<string>, inputs: map<string, string>, i: nat)
    requires i <= |selected|
    requires forall k :: 0 <= k < i ==> InputProblem(selected[k], inputs).None?
    ensures FirstProblem(selected, inputs) == FirstProblem(selected[i..], inputs)
  {
    if i > 0 {
      assert selected[1..][i - 1..] == selected[i..];
      FirstProblemSkip(selected[1..], inputs, i - 1);
    }
  }

  /** The notification step's loop, stopping at the first channel with a problem. */
  method CheckInputs(selected: seq<string>, inputs: map<string, string>) returns (problem: Option<Notice>)
    ensures problem == FirstProblem(selected, inputs)
  {
    problem := None;
    var i := 0;
    while i < |selected|
      invariant 0 <= i <= |selected|
      invariant FirstProblem(selected[i..], inputs) == FirstProblem(selected, inputs)
    {
      var p := InputProblem(selected[i], inputs);
      if p.Some? {
        problem := p;
        break;
      }
      assert selected[i..][1..] == selected[i + 1..];
      i := i + 1;
    }
  }

  /** `trackedChannels.map(ch => ch.id)`. */
  function Ids(tracked: seq<TrackedChannel>): (r: seq<string>)
    ensures |r| == |tracked| && forall i :: 0 <= i < |tracked| ==> r[i] == tracked[i].id
  {
    if tracked == [] then [] else Ids(tracked[..|tracked| - 1]) + [tracked[|tracked| - 1].id]
  }

  /** What `handleNext` does from a step with the given selections. */
  function NextOf(step: int, niche: Option<string>, selected: seq<string>, inputs: map<string, string>,
                  tracked: seq<TrackedChannel>, token: Option<string>): NextOutcome
  {
    if step == NicheStep && !Present(niche) then Blocked(NeedNiche)
    else if step == NotificationStep && |selected| == 0 then Blocked(NeedChannel)
    else if step == NotificationStep && FirstProblem(selected, inputs).Some? then
      Blocked(FirstProblem(selected, inputs).value)
    else if step == StepCount - 1 then
      if !Present(token) then Blocked(LoginAgain)
      else Saving(Preferences(niche, selected, inputs, Ids(tracked)))
    else Advanced
  }

  /**
   * The wizard advances exactly when the current step is not the last and its validation
   * passes: a niche on the niche step; on the notification step at least one channel, each
   * with a non-blank input, a valid address for email and a webhook URL for Discord.
   */
  lemma NextAdvances(step: int, niche: Option<string>, selected: seq<string>, inputs: map<string, string>,
                     tracked: seq<TrackedChannel>, token: Option<string>)
    ensures NextOf(step, niche, selected, inputs, tracked, token).Advanced? <==>
              (step != StepCount - 1 && (step == NicheStep ==> Present(niche)) &&
               (step == NotificationStep ==>
                  (|selected| > 0 && forall k :: 0 <= k < |selected| ==> InputProblem(selected[k], inputs).None?)))
  {
  }

  /** The last step sends the preferences, with the tracked channels' ids, once signed in. */
  lemma NextSaves(step: int, niche: Option<string>, selected: seq<string>, inputs: map<string, string>,
                  tracked: seq<TrackedChannel>, token: Option<string>)
    ensures var o := NextOf(step, niche, selected, inputs, tracked, token);
            (o.Saving? <==> step == StepCount - 1 && Present(token)) &&
            (o.Saving? ==>
               (o.body.niche == niche && o.body.selectedChannels == selected && o.body.channelInputs == inputs &&
                |o.body.trackedChannelIds| == |tracked| &&
                forall i :: 0 <= i < |tracked| ==> o.body.trackedChannelIds[i] == tracked[i].id))
  {
  }

  /** The notification step reports the problem of the first selected channel that has one. */
  lemma NextStopsAtFirst(niche: Option<string>, selected: seq<string>, inputs: map<string, string>,
                         tracked: seq<TrackedChannel>, token: Option<string>, k: nat)
    requires k < |selected| && InputProblem(selected[k], inputs).Some?
    requires forall m :: 0 <= m < k ==> InputProblem(selected[m], inputs).None?
    ensures NextOf(NotificationStep, niche, selected, inputs, tracked, token) == Blocked(InputProblem(selected[k], inputs).value)
  {
    FirstProblemAt(selected, inputs, k);
  }

  lemma FirstProblemAt(selected: seq<string>, inputs: map<string, string>, k: nat)
    requires k < |selected| && InputProblem(selected[k], inputs).Some?
    requires forall m :: 0 <= m < k ==> InputProblem(selected[m], inputs).None?
    ensures FirstProblem(selected, inputs) == InputProblem(selected[k], inputs)
  {
    FirstProblemSkip(selected, inputs, k);
    var t := selected[k..];
    assert t[0] == selected[k];
  }

  // ---------------------------------------------------------------------------------------
  // Channel lists
  // ---------------------------------------------------------------------------------------

  /** `handleChannelToggle`: checking appends the channel, unchecking drops every copy of it. */
  function ChannelToggled(selected: seq<string>, id: string, checked: bool): (r: seq<string>)
    ensures checked ==> r == selected + [id]
    ensures !checked ==> id !in r && forall c :: c != id ==> multiset(r)[c] == multiset(selected)[c]
  {
    if checked then selected + [id]
    else
      var p := (c: string) => c != id;
      var r := Js.Filter(selected, p);
      assert forall c :: c != id ==> multiset(r)[c] == multiset(selected)[c] by {
        forall c | c != id
          ensures multiset(r)[c] == multiset(selected)[c]
        {
          Js.FilterCount(selected, p, c);
        }
      }
      r
  }

  predicate UniqueIds(tracked: seq<TrackedChannel>)
  {
    forall i, j :: 0 <= i < j < |tracked| ==> tracked[i].id != tracked[j].id
  }

  predicate Tracks(tracked: seq<TrackedChannel>, id: string)
  {
    exists i :: 0 <= i < |tracked| && tracked[i].id == id
  }

  /** `handleConfirmAddChannel`'s list: a looked-up channel is added unless its id is tracked. */
  function Confirmed(tracked: seq<TrackedChannel>, found: TrackedChannel): (r: seq<TrackedChannel>)
    ensures Tracks(r, found.id)
    ensures forall id :: id != found.id ==> (Tracks(r, id) <==> Tracks(tracked, id))
    ensures UniqueIds(tracked) ==> UniqueIds(r)
    ensures Tracks(tracked, found.id) ==> r == tracked
    ensures !Tracks(tracked, found.id) ==> r == tracked + [found]
  {
    if Tracks(tracked, found.id) then tracked
    else
      var r := tracked + [found];
      assert r[|tracked|] == found;
      assert forall id :: Tracks(tracked, id) ==> Tracks(r, id) by {
        forall id | Tracks(tracked, id)
          ensures Tracks(r, id)
        {
          var i :| 0 <= i < |tracked| && tracked[i].id == id;
          assert r[i] == tracked[i];
        }
      }
      r
  }

  /** `handleRemoveChannel`'s list: every channel with the id goes, the rest stay in order. */
  function Removed(tracked: seq<TrackedChannel>, id: string): (r: seq<TrackedChannel>)
    ensures !Tracks(r, id)
    ensures forall c: TrackedChannel :: c.id != id ==> multiset(r)[c] == multiset(tracked)[c]
  {
    var p := (c: TrackedChannel) => c.id != id;
    var r := Js.Filter(tracked, p);
    assert forall c: TrackedChannel :: c.id != id ==> multiset(r)[c] == multiset(tracked)[c] by {
      forall c: TrackedChannel | c.id != id
        ensures multiset(r)[c] == multiset(tracked)[c]
      {
        Js.FilterCount(tracked, p, c);
      }
    }
    r
  }

  /** The outcome of `POST /youtube/lookup`. */
  datatype LookupResponse = Found(channel: TrackedChannel) | LookupError(message: Option<string>)

  // ---------------------------------------------------------------------------------------
  // The page state
  // ---------------------------------------------------------------------------------------

  class OnboardingPage {
    var currentStep: int
    var selectedNiche: Option<string>
    var selectedChannels: seq<string>
    var channelInputs: map<string, string>
    var channelInput: string
    var lookupResult: Option<TrackedChannel>
    var lookupError: Option<string>
    var trackedChannels: seq<TrackedChannel>

    constructor()
      ensures currentStep == 0 && selectedNiche == None && selectedChannels == []
      ensures channelInputs == map["email" := "", "telegram" := "", "discord" := ""]
      ensures channelInput == "" && lookupResult == None && lookupError == None && trackedChannels == []
    {
      currentStep, selectedNiche, selectedChannels := 0, None, [];
      channelInputs := map["email" := "", "telegram" := "", "discord" := ""];
      channelInput, lookupResult, lookupError, trackedChannels := "", None, None, [];
    }

    /** `handleNext`; `token` is the signed-in session's token. */
    method HandleNext(token: Option<string>) returns (outcome: NextOutcome)
      modifies this
      ensures outcome == NextOf(old(currentStep), selectedNiche, selectedChannels, channelInputs, trackedChannels, token)
      ensures currentStep == if outcome.Advanced? then old(currentStep) + 1 else old(currentStep)
      ensures 0 <= old(currentStep) < StepCount ==> 0 <= currentStep < StepCount
      ensures selectedNiche == old(selectedNiche) && selectedChannels == old(selectedChannels)
      ensures channelInputs == old(channelInputs) && trackedChannels == old(trackedChannels)
      ensures channelInput == old(channelInput) && lookupResult == old(lookupResult) && lookupError == old(lookupError)
    {
      if currentStep == NicheStep && !Present(selectedNiche) {
        return Blocked(NeedNiche);
      }
      if currentStep == NotificationStep {
        if |selectedChannels| == 0 {
          return Blocked(NeedChannel);
        }
        var problem := CheckInputs(selectedChannels, channelInputs);
        if problem.Some? {
          return Blocked(problem.value);
        }
      }
      if currentStep == StepCount - 1 {
        if !Present(token) {
          return Blocked(LoginAgain);
        }
        return Saving(Preferences(selectedNiche, selectedChannels, channelInputs, Ids(trackedChannels)));
      }
      currentStep := currentStep + 1;
      outcome := Advanced;
    }

    method HandleChannelToggle(id: string, checked: bool)
      modifies this
      ensures selectedChannels == ChannelToggled(old(selectedChannels), id, checked)
      ensures currentStep == old(currentStep) && selectedNiche == old(selectedNiche)
      ensures channelInputs == old(channelInputs) && trackedChannels == old(trackedChannels)
      ensures channelInput == old(channelInput) && lookupResult == old(lookupResult) && lookupError == old(lookupError)
    {
      if checked {
        selectedChannels := selectedChannels + [id];
      } else {
        selectedChannels := Js.Filter(selectedChannels, (c: string) => c != id);
      }
    }

    method HandleChannelInput(id: string, value: string)
      modifies this
      ensures channelInputs == old(channelInputs)[id := value]
      ensures currentStep == old(currentStep) && selectedNiche == old(selectedNiche)
      ensures selectedChannels == old(selectedChannels) && trackedChannels == old(trackedChannels)
      ensures channelInput == old(channelInput) && lookupResult == old(lookupResult) && lookupError == old(lookupError)
    {
      channelInputs := channelInputs[id := value];
    }

    /**
     * `handleChannelLookup`: a blank query or a missing session only shows a notice; otherwise
     * the trimmed query is sent and the result or the error message is kept.
     */
    method HandleChannelLookup(token: Option<string>, response: LookupResponse) returns (sent: Option<string>, notice: Option<Notice>)
      modifies this
      ensures var query := Js.Trim(old(channelInput));
              (sent.Some? <==> query != "" && Present(token)) && (sent.Some? ==> sent.value == query)
      ensures sent.None? ==> lookupResult == old(lookupResult) && lookupError == old(lookupError) && channelInput == old(channelInput)
      ensures sent.None? ==> notice == Some(if Js.Trim(old(channelInput)) == "" then EnterChannelQuery else LoginAgain)
      ensures sent.Some? && response.Found? ==>
                lookupResult == Some(response.channel) && lookupError == None && channelInput == "" && notice == None
      ensures sent.Some? && response.LookupError? ==>
                var message := if Present(response.message) then response.message.value else "Channel lookup failed.";
                lookupResult == None && lookupError == Some(message) && channelInput == old(channelInput) &&
                notice == Some(LookupFailed(message))
      ensures trackedChannels == old(trackedChannels) && currentStep == old(currentStep)
      ensures selectedNiche == old(selectedNiche) && selectedChannels == old(selectedChannels)
      ensures channelInputs == old(channelInputs)
    {
      var query := Js.Trim(channelInput);
      if query == "" {
        return None, Some(EnterChannelQuery);
      }
      if !Present(token) {
        return None, Some(LoginAgain);
      }
      lookupError, lookupResult := None, None;
      sent := Some(query);
      match response
      case Found(channel) =>
        lookupResult, channelInput := Some(channel), "";
        notice := None;
      case LookupError(m) =>
        var message := if Present(m) then m.value else "Channel lookup failed.";
        lookupError := Some(message);
        notice := Some(LookupFailed(message));
    }

    method HandleConfirmAddChannel() returns (notice: Option<Notice>)
      modifies this
      ensures old(lookupResult).None? ==>
                trackedChannels == old(trackedChannels) && lookupResult == None && lookupError == old(lookupError) && notice == None
      ensures old(lookupResult).Some? ==>
                trackedChannels == Confirmed(old(trackedChannels), old(lookupResult).value) && lookupResult == None &&
                (notice == Some(AlreadyAdded) <==> Tracks(old(trackedChannels), old(lookupResult).value.id)) &&
                (notice == None ==> lookupError == None) &&
                (notice == Some(AlreadyAdded) ==> lookupError == old(lookupError))
      ensures currentStep == old(currentStep) && selectedNiche == old(selectedNiche)
      ensures selectedChannels == old(selectedChannels) && channelInputs == old(channelInputs)
      ensures channelInput == old(channelInput)
    {
      if lookupResult.None? {
        return None;
      }
      var found := lookupResult.value;
      if Tracks(trackedChannels, found.id) {
        lookupResult := None;
        return Some(AlreadyAdded);
      }
      trackedChannels := trackedChannels + [found];
      lookupResult, lookupError := None, None;
      notice := None;
    }

    method HandleRemoveChannel(id: string)
      modifies this
      ensures trackedChannels == Removed(old(trackedChannels), id)
      ensures currentStep == old(currentStep) && selectedNiche == old(selectedNiche)
      ensures selectedChannels == old(selectedChannels) && channelInputs == old(channelInputs)
      ensures channelInput == old(channelInput) && lookupResult == old(lookupResult) && lookupError == old(lookupError)
    {
      trackedChannels := Js.Filter(trackedChannels, (c: TrackedChannel) => c.id != id);
    }
  }
}
