/**
 * The subscription and trial lifecycle of one user record: free-trial start, the Viral plan,
 * the Surge/Spark plans, one-shot Telegram code verification and trial expiry. The user
 * table is a map from record id to record; each handler writes a column patch into it. Store
 * failures, the clock (milliseconds) and the random bytes behind the access code are inputs.
 */
module SubscriptionLogic {
  import opened Wrappers
  import Helpers

  type UserId = nat

  const DayMs: nat := 86400000
  const TrialDays: nat := 3

  /**
   * The columns of a user record this service reads or writes. `isTrialUsed` and
   * `isTelegramCodeValid` are true exactly when the column holds the boolean `true` (the
   * source compares with `=== true`); an empty `telegramAccessCode` is a missing one.
   */
  datatype User = User(
    trialStartedAt: Option<int>,
    trialExpiresAt: Option<int>,
    isTrialUsed: bool,
    subscriptionStatus: string,
    currentPlan: string,
    telegramAccessCode: string,
    isTelegramCodeValid: bool,
    telegramChatId: Option<string>)

  /** The column names of the update objects. */
  datatype Column =
    | TrialStartedAt | TrialExpiresAt | IsTrialUsed | SubscriptionStatus
    | CurrentPlan | TelegramAccessCode | IsTelegramCodeValid | TelegramChatId

  datatype Value = Bool(b: bool) | Str(s: string) | Time(t: int)

  type Patch = map<Column, Value>

  /** The `{success, message, accessCode?}` object every handler returns. */
  datatype Outcome = Outcome(success: bool, message: string, accessCode: Option<string>)

  /** Whether the store's record read, or its update, throws. */
  datatype Faults = Faults(readFails: bool, writeFails: bool)

  /** The handler's answer and the table after it. */
  datatype Step = Step(outcome: Outcome, users: map<UserId, User>)

  const TrialErrorMessage: string := "An unexpected error occurred while starting the trial."
  const SubscribeErrorMessage: string := "An unexpected error occurred during subscription."
  const VerifyErrorMessage: string := "An unexpected error occurred during verification."

  function Fail(message: string): Outcome
  {
    Outcome(false, message, None)
  }

  /** `getUserRecordById`: a falsy id or an unknown record gives null. */
  function Lookup(users: map<UserId, User>, id: UserId): (r: Option<User>)
    ensures r.Some? <==> id != 0 && id in users
    ensures r.Some? ==> r.value == users[id]
  {
    if id != 0 && id in users then Some(users[id]) else None
  }

  /** PATCH semantics: every column in the patch takes the patch's value, the others stay. */
  function Apply(u: User, patch: Patch): User
  {
    User(
      trialStartedAt := if TrialStartedAt in patch && patch[TrialStartedAt].Time? then Some(patch[TrialStartedAt].t) else u.trialStartedAt,
      trialExpiresAt := if TrialExpiresAt in patch && patch[TrialExpiresAt].Time? then Some(patch[TrialExpiresAt].t) else u.trialExpiresAt,
      isTrialUsed := if IsTrialUsed in patch && patch[IsTrialUsed].Bool? then patch[IsTrialUsed].b else u.isTrialUsed,
      subscriptionStatus := if SubscriptionStatus in patch && patch[SubscriptionStatus].Str? then patch[SubscriptionStatus].s else u.subscriptionStatus,
      currentPlan := if CurrentPlan in patch && patch[CurrentPlan].Str? then patch[CurrentPlan].s else u.currentPlan,
      telegramAccessCode := if TelegramAccessCode in patch && patch[TelegramAccessCode].Str? then patch[TelegramAccessCode].s else u.telegramAccessCode,
      isTelegramCodeValid := if IsTelegramCodeValid in patch && patch[IsTelegramCodeValid].Bool? then patch[IsTelegramCodeValid].b else u.isTelegramCodeValid,
      telegramChatId := if TelegramChatId in patch && patch[TelegramChatId].Str? then Some(patch[TelegramChatId].s) else u.telegramChatId)
  }

  /**
   * `updateUser`: throws on a falsy id, an empty patch or a store failure; otherwise the
   * record (when it exists) is patched.
   */
  function Write(users: map<UserId, User>, id: UserId, patch: Patch, writeFails: bool): (r: Option<map<UserId, User>>)
    ensures r.Some? <==> id != 0 && |patch| > 0 && !writeFails
    ensures r.Some? ==> r.value.Keys == users.Keys
    ensures r.Some? ==> forall j :: j in users && j != id ==> r.value[j] == users[j]
    ensures r.Some? && id in users ==> r.value[id] == Apply(users[id], patch)
  {
    if id == 0 || |patch| == 0 || writeFails then None
    else if id in users then Some(users[id := Apply(users[id], patch)])
    else Some(users)
  }

  // ---------------------------------------------------------------------------------------
  // The update objects.

  function TrialPatch(now: int, code: string): Patch
  {
    map[TrialStartedAt := Time(now),
        TrialExpiresAt := Time(now + TrialDays * DayMs),
        IsTrialUsed := Bool(true),
        SubscriptionStatus := Str("Active"),
        CurrentPlan := Str("Free Trial"),
        TelegramAccessCode := Str(code),
        IsTelegramCodeValid := Bool(true)]
  }

  function ViralPatch(code: string): Patch
  {
    map[CurrentPlan := Str("Viral"),
        SubscriptionStatus := Str("Active"),
        TelegramAccessCode := Str(code),
        IsTelegramCodeValid := Bool(true)]
  }

  function OtherPlanPatch(planName: string): Patch
  {
    map[CurrentPlan := Str(planName), SubscriptionStatus := Str("Active")]
  }

  function VerifiedPatch(chatId: string): Patch
  {
    map[TelegramChatId := Str(chatId), IsTelegramCodeValid := Bool(false)]
  }

  function ExpiryPatch(): Patch
  {
    map[IsTelegramCodeValid := Bool(false), SubscriptionStatus := Str("Inactive"), CurrentPlan := Str("")]
  }

  /** What each update object does to a record. */
  lemma TrialPatchApplied(u: User, now: int, code: string)
    ensures |TrialPatch(now, code)| > 0
    ensures Apply(u, TrialPatch(now, code)) ==
            u.(trialStartedAt := Some(now), trialExpiresAt := Some(now + TrialDays * DayMs), isTrialUsed := true,
               subscriptionStatus := "Active", currentPlan := "Free Trial", telegramAccessCode := code,
               isTelegramCodeValid := true)
  {
    assert TrialStartedAt in TrialPatch(now, code);
  }

  lemma ViralPatchApplied(u: User, code: string)
    ensures |ViralPatch(code)| > 0
    ensures Apply(u, ViralPatch(code)) ==
            u.(currentPlan := "Viral", subscriptionStatus := "Active", telegramAccessCode := code, isTelegramCodeValid := true)
  {
    assert CurrentPlan in ViralPatch(code);
  }

  lemma VerifiedPatchApplied(u: User, chatId: string)
    ensures |VerifiedPatch(chatId)| > 0
    ensures Apply(u, VerifiedPatch(chatId)) == u.(telegramChatId := Some(chatId), isTelegramCodeValid := false)
  {
    assert TelegramChatId in VerifiedPatch(chatId);
  }

  lemma ExpiryPatchApplied(u: User)
    ensures |ExpiryPatch()| > 0
    ensures Apply(u, ExpiryPatch()) == u.(isTelegramCodeValid := false, subscriptionStatus := "Inactive", currentPlan := "")
  {
    assert CurrentPlan in ExpiryPatch();
  }

  // ---------------------------------------------------------------------------------------
  // The handlers, as functions of the table.

  /** `startFreeTrial(userId)` at time `now`, the access code drawn from `bytes`. */
  function StartTrialStep(users: map<UserId, User>, id: UserId, now: int, bytes: seq<Helpers.Byte>, faults: Faults): Step
  {
    if faults.readFails then Step(Fail(TrialErrorMessage), users)
    else
      var user := Lookup(users, id);
      if user.None? then Step(Fail("User not found."), users)
      else if user.value.isTrialUsed then Step(Fail("Free trial already used for this account."), users)
      else
        var code := Helpers.AccessCode(Some(12), bytes);
        var written := Write(users, id, TrialPatch(now, code), faults.writeFails);
        if written.None? then Step(Fail(TrialErrorMessage), users)
        else Step(Outcome(true, "Free trial started successfully.", Some(code)), written.value)
  }

  /** `handleViralSubscription(userId)`. */
  function ViralStep(users: map<UserId, User>, id: UserId, bytes: seq<Helpers.Byte>, faults: Faults): Step
  {
    if faults.readFails then Step(Fail(SubscribeErrorMessage), users)
    else if Lookup(users, id).None? then Step(Fail("User not found."), users)
    else
      var code := Helpers.AccessCode(Some(12), bytes);
      var written := Write(users, id, ViralPatch(code), faults.writeFails);
      if written.None? then Step(Fail(SubscribeErrorMessage), users)
      else Step(Outcome(true, "Successfully subscribed to Viral plan.", Some(code)), written.value)
  }

  /** `handleOtherSubscription(userId, planName)`: no record read, no code written. */
  function OtherPlanStep(users: map<UserId, User>, id: UserId, planName: string, writeFails: bool): Step
  {
    if planName != "Surge" && planName != "Spark" then Step(Fail("Invalid plan specified."), users)
    else
      var written := Write(users, id, OtherPlanPatch(planName), writeFails);
      if written.None? then Step(Fail(SubscribeErrorMessage), users)
      else Step(Outcome(true, "Successfully subscribed to " + planName + " plan.", None), written.value)
  }

  /** `verifyTelegramCodeAndUpdate(userId, submittedCode, telegramChatId)`. */
  function VerifyStep(users: map<UserId, User>, id: UserId, submitted: string, chatId: string, faults: Faults): Step
  {
    if faults.readFails then Step(Fail(VerifyErrorMessage), users)
    else
      var user := Lookup(users, id);
      if user.None? then Step(Fail("User not found."), users)
      else if user.value.telegramAccessCode == "" || user.value.telegramAccessCode != submitted then
        Step(Fail("Invalid verification code."), users)
      else if !user.value.isTelegramCodeValid then
        Step(Fail("Verification code has already been used or is invalid."), users)
      else
        var written := Write(users, id, VerifiedPatch(chatId), faults.writeFails);
        if written.None? then Step(Fail(VerifyErrorMessage), users)
        else Step(Outcome(true, "Telegram account connected successfully.", None), written.value)
  }

  /** One row returned by the store's `findUsers` query: its id (0 when missing) and expiry. */
  datatype FoundUser = FoundUser(id: UserId, trialExpiresAt: Option<int>)

  /** The in-code double check of `expireInactiveTrials`. */
  predicate ExpiresBefore(f: FoundUser, now: int)
  {
    f.id != 0 && f.trialExpiresAt.Some? && f.trialExpiresAt.value < now
  }

  /**
   * `expireInactiveTrials` over the rows the query returned; an update that throws for an
   * id in `failing` is logged and the loop goes on.
   */
  function ExpireAll(users: map<UserId, User>, found: seq<FoundUser>, now: int, failing: set<UserId>): map<UserId, User>
  {
    if |found| == 0 then users
    else
      var before := ExpireAll(users, found[..|found| - 1], now, failing);
      var f := found[|found| - 1];
      if ExpiresBefore(f, now) then
        var written := Write(before, f.id, ExpiryPatch(), f.id in failing);
        if written.Some? then written.value else before
      else before
  }

  // ---------------------------------------------------------------------------------------
  // Properties.

  predicate OnlyOneChanged(users: map<UserId, User>, after: map<UserId, User>, id: UserId)
  {
    after.Keys == users.Keys && forall j :: j in users && j != id ==> after[j] == users[j]
  }

  /** A failed trial start leaves the table as it was; a thrown read becomes the generic message. */
  lemma TrialFailureWritesNothing(users: map<UserId, User>, id: UserId, now: int, bytes: seq<Helpers.Byte>, faults: Faults)
    ensures !StartTrialStep(users, id, now, bytes, faults).outcome.success ==> StartTrialStep(users, id, now, bytes, faults).users == users
    ensures faults.readFails ==> StartTrialStep(users, id, now, bytes, faults).outcome == Fail(TrialErrorMessage)
  {
  }

  lemma ViralFailureWritesNothing(users: map<UserId, User>, id: UserId, bytes: seq<Helpers.Byte>, faults: Faults)
    ensures !ViralStep(users, id, bytes, faults).outcome.success ==> ViralStep(users, id, bytes, faults).users == users
    ensures faults.readFails ==> ViralStep(users, id, bytes, faults).outcome == Fail(SubscribeErrorMessage)
  {
  }

  lemma OtherPlanFailureWritesNothing(users: map<UserId, User>, id: UserId, planName: string, writeFails: bool)
    ensures !OtherPlanStep(users, id, planName, writeFails).outcome.success ==> OtherPlanStep(users, id, planName, writeFails).users == users
    ensures writeFails ==> !OtherPlanStep(users, id, planName, writeFails).outcome.success
  {
  }

  lemma VerifyFailureWritesNothing(users: map<UserId, User>, id: UserId, submitted: string, chatId: string, faults: Faults)
    ensures !VerifyStep(users, id, submitted, chatId, faults).outcome.success ==> VerifyStep(users, id, submitted, chatId, faults).users == users
    ensures faults.readFails ==> VerifyStep(users, id, submitted, chatId, faults).outcome == Fail(VerifyErrorMessage)
  {
  }

  /** An unknown user is refused with 'User not found.' by the three handlers that read it. */
  lemma UnknownUserRefused(users: map<UserId, User>, id: UserId, now: int, bytes: seq<Helpers.Byte>,
                           submitted: string, chatId: string, faults: Faults)
    requires !faults.readFails && (id == 0 || id !in users)
    ensures StartTrialStep(users, id, now, bytes, faults) == Step(Fail("User not found."), users)
    ensures ViralStep(users, id, bytes, faults) == Step(Fail("User not found."), users)
    ensures VerifyStep(users, id, submitted, chatId, faults) == Step(Fail("User not found."), users)
  {
  }

  /**
   * A started trial writes the trial columns: status Active, plan Free Trial, a valid
   * twelve-digit code, and an expiry exactly three days after the start.
   */
  lemma TrialStartWrites(users: map<UserId, User>, id: UserId, now: int, bytes: seq<Helpers.Byte>, faults: Faults)
    requires |bytes| == 6
    requires StartTrialStep(users, id, now, bytes, faults).outcome.success
    ensures id in users && !users[id].isTrialUsed
    ensures var after := StartTrialStep(users, id, now, bytes, faults).users;
            var code := StartTrialStep(users, id, now, bytes, faults).outcome.accessCode;
            OnlyOneChanged(users, after, id) &&
            code.Some? && |code.value| == 12 &&
            after[id] == users[id].(trialStartedAt := Some(now),
                                    trialExpiresAt := Some(now + 3 * DayMs),
                                    isTrialUsed := true,
                                    subscriptionStatus := "Active",
                                    currentPlan := "Free Trial",
                                    telegramAccessCode := code.value,
                                    isTelegramCodeValid := true)
  {
    var code := Helpers.AccessCode(Some(12), bytes);
    assert Helpers.ByteLength(Helpers.ClampLength(Some(12))) == 6;
    TrialPatchApplied(users[id], now, code);
  }

  /** A user gets at most one trial: after a successful start every later start is refused. */
  lemma AtMostOneTrial(users: map<UserId, User>, id: UserId, now: int, bytes: seq<Helpers.Byte>, faults: Faults,
                       now2: int, bytes2: seq<Helpers.Byte>, faults2: Faults)
    requires StartTrialStep(users, id, now, bytes, faults).outcome.success
    requires !faults2.readFails
    ensures var after := StartTrialStep(users, id, now, bytes, faults).users;
            StartTrialStep(after, id, now2, bytes2, faults2) == Step(Fail("Free trial already used for this account."), after)
  {
    TrialPatchApplied(users[id], now, Helpers.AccessCode(Some(12), bytes));
  }

  /** The Viral update object never holds a trial column, whatever the code. */
  lemma ViralPatchKeys(code: string)
    ensures TrialStartedAt !in ViralPatch(code) && TrialExpiresAt !in ViralPatch(code) && IsTrialUsed !in ViralPatch(code)
    ensures ViralPatch(code).Keys == {CurrentPlan, SubscriptionStatus, TelegramAccessCode, IsTelegramCodeValid}
  {
  }

  /** The Viral plan writes plan, status and a fresh valid code, and changes no other user. */
  lemma ViralWrites(users: map<UserId, User>, id: UserId, bytes: seq<Helpers.Byte>, faults: Faults)
    requires ViralStep(users, id, bytes, faults).outcome.success
    ensures id in users
    ensures var after := ViralStep(users, id, bytes, faults).users;
            var code := ViralStep(users, id, bytes, faults).outcome.accessCode;
            OnlyOneChanged(users, after, id) && code.Some? &&
            after[id] == users[id].(currentPlan := "Viral", subscriptionStatus := "Active",
                                    telegramAccessCode := code.value, isTelegramCodeValid := true)
  {
    var code := Helpers.AccessCode(Some(12), bytes);
    var written := Write(users, id, ViralPatch(code), faults.writeFails);
    assert ViralStep(users, id, bytes, faults) == Step(Outcome(true, "Successfully subscribed to Viral plan.", Some(code)), written.value);
    ViralWritten(users, id, code, faults.writeFails);
  }

  /** Writing the Viral patch with any code changes only that user's plan, status and code columns. */
  lemma ViralWritten(users: map<UserId, User>, id: UserId, code: string, writeFails: bool)
    requires id in users && Write(users, id, ViralPatch(code), writeFails).Some?
    ensures var after := Write(users, id, ViralPatch(code), writeFails).value;
            OnlyOneChanged(users, after, id) &&
            after[id] == users[id].(currentPlan := "Viral", subscriptionStatus := "Active",
                                    telegramAccessCode := code, isTelegramCodeValid := true)
  {
    ViralPatchApplied(users[id], code);
  }

  /** Only "Surge" and "Spark" are accepted; for them the code columns are never written. */
  lemma OtherPlanRules(users: map<UserId, User>, id: UserId, planName: string, writeFails: bool)
    ensures planName != "Surge" && planName != "Spark" ==>
            OtherPlanStep(users, id, planName, writeFails) == Step(Fail("Invalid plan specified."), users)
    ensures TelegramAccessCode !in OtherPlanPatch(planName) && IsTelegramCodeValid !in OtherPlanPatch(planName)
    ensures var after := OtherPlanStep(users, id, planName, writeFails).users;
            OtherPlanStep(users, id, planName, writeFails).outcome.success ==>
            (planName == "Surge" || planName == "Spark") && OnlyOneChanged(users, after, id) &&
            (id in users ==> after[id] == users[id].(currentPlan := planName, subscriptionStatus := "Active"))
  {
  }

  /** Verification succeeds exactly for a non-empty stored code, equal to the submitted one and flagged valid. */
  lemma VerifySucceedsIff(users: map<UserId, User>, id: UserId, submitted: string, chatId: string, faults: Faults)
    requires !faults.readFails && !faults.writeFails
    ensures VerifyStep(users, id, submitted, chatId, faults).outcome.success <==>
            id != 0 && id in users && users[id].telegramAccessCode != "" &&
            users[id].telegramAccessCode == submitted && users[id].isTelegramCodeValid
  {
  }

  /** A verified code stores the chat id, is invalidated, and cannot verify a second time. */
  lemma VerifyIsOneShot(users: map<UserId, User>, id: UserId, submitted: string, chatId: string, faults: Faults,
                        chatId2: string, faults2: Faults)
    requires VerifyStep(users, id, submitted, chatId, faults).outcome.success
    requires !faults2.readFails
    ensures var after := VerifyStep(users, id, submitted, chatId, faults).users;
            id in users && OnlyOneChanged(users, after, id) &&
            after[id] == users[id].(telegramChatId := Some(chatId), isTelegramCodeValid := false) &&
            VerifyStep(after, id, submitted, chatId2, faults2) ==
              Step(Fail("Verification code has already been used or is invalid."), after)
  {
    VerifiedPatchApplied(users[id], chatId);
    var written := Write(users, id, VerifiedPatch(chatId), faults.writeFails);
    assert VerifyStep(users, id, submitted, chatId, faults) ==
           Step(Outcome(true, "Telegram account connected successfully.", None), written.value);
  }

  /** The expiry pass only touches rows with an id whose expiry is strictly before now. */
  lemma {:induction false} ExpireOnlyExpired(users: map<UserId, User>, found: seq<FoundUser>, now: int, failing: set<UserId>)
    ensures ExpireAll(users, found, now, failing).Keys == users.Keys
    ensures forall j :: j in users && ExpireAll(users, found, now, failing)[j] != users[j] ==>
              j !in failing && exists k :: 0 <= k < |found| && found[k].id == j && ExpiresBefore(found[k], now)
  {
    if |found| > 0 {
      ExpireOnlyExpired(users, found[..|found| - 1], now, failing);
      var before := ExpireAll(users, found[..|found| - 1], now, failing);
      var after := ExpireAll(users, found, now, failing);
      forall j | j in users && after[j] != users[j]
        ensures j !in failing && exists k :: 0 <= k < |found| && found[k].id == j && ExpiresBefore(found[k], now)
      {
        if before[j] != users[j] {
          var k :| 0 <= k < |found| - 1 && found[..|found| - 1][k].id == j && ExpiresBefore(found[..|found| - 1][k], now);
          assert found[k] == found[..|found| - 1][k];
        } else {
          assert found[|found| - 1].id == j;
        }
      }
    }
  }

  /** Every returned row with an id, an expiry before now and a working update ends Inactive with plan "" and the code invalid. */
  lemma {:induction false} ExpireDeactivates(users: map<UserId, User>, found: seq<FoundUser>, now: int, failing: set<UserId>, k: nat)
    requires k < |found| && ExpiresBefore(found[k], now) && found[k].id in users && found[k].id !in failing
    ensures found[k].id in ExpireAll(users, found, now, failing)
    ensures var u := ExpireAll(users, found, now, failing)[found[k].id];
            u.subscriptionStatus == "Inactive" && u.currentPlan == "" && !u.isTelegramCodeValid
  {
    var init := found[..|found| - 1];
    var id := found[k].id;
    ExpireOnlyExpired(users, init, now, failing);
    var before := ExpireAll(users, init, now, failing);
    ExpiryPatchApplied(before[id]);
    if k < |found| - 1 {
      assert init[k] == found[k];
      ExpireDeactivates(users, init, now, failing, k);
    }
  }

  // ---------------------------------------------------------------------------------------
  // The user table, updated in place by the handlers.

  class UserTable {
    var users: map<UserId, User>

    constructor (initial: map<UserId, User>)
      ensures users == initial
    {
      users := initial;
    }

    /** Applies a handler's patch to the table, or reports that the store threw. */
    method Update(id: UserId, patch: Patch, writeFails: bool) returns (ok: bool)
      modifies this
      ensures var w := Write(old(users), id, patch, writeFails);
              ok == w.Some? && users == (if ok then w.value else old(users))
    {
      if id == 0 || |patch| == 0 || writeFails {
        return false;
      }
      if id in users {
        users := users[id := Apply(users[id], patch)];
      }
      return true;
    }

    method StartFreeTrial(id: UserId, now: int, bytes: seq<Helpers.Byte>, faults: Faults) returns (outcome: Outcome)
      modifies this
      ensures Step(outcome, users) == StartTrialStep(old(users), id, now, bytes, faults)
    {
      if faults.readFails {
        return Fail(TrialErrorMessage);
      }
      var user := Lookup(users, id);
      if user.None? {
        return Fail("User not found.");
      }
      if user.value.isTrialUsed {
        return Fail("Free trial already used for this account.");
      }
      var code := Helpers.AccessCode(Some(12), bytes);
      var ok := Update(id, TrialPatch(now, code), faults.writeFails);
      if !ok {
        return Fail(TrialErrorMessage);
      }
      return Outcome(true, "Free trial started successfully.", Some(code));
    }

    method HandleViralSubscription(id: UserId, bytes: seq<Helpers.Byte>, faults: Faults) returns (outcome: Outcome)
      modifies this
      ensures Step(outcome, users) == ViralStep(old(users), id, bytes, faults)
    {
      if faults.readFails {
        return Fail(SubscribeErrorMessage);
      }
      var user := Lookup(users, id);
      if user.None? {
        return Fail("User not found.");
      }
      var code := Helpers.AccessCode(Some(12), bytes);
      var ok := Update(id, ViralPatch(code), faults.writeFails);
      if !ok {
        return Fail(SubscribeErrorMessage);
      }
      return Outcome(true, "Successfully subscribed to Viral plan.", Some(code));
    }

    method HandleOtherSubscription(id: UserId, planName: string, writeFails: bool) returns (outcome: Outcome)
      modifies this
      ensures Step(outcome, users) == OtherPlanStep(old(users), id, planName, writeFails)
    {
      if planName != "Surge" && planName != "Spark" {
        return Fail("Invalid plan specified.");
      }
      var ok := Update(id, OtherPlanPatch(planName), writeFails);
      if !ok {
        return Fail(SubscribeErrorMessage);
      }
      return Outcome(true, "Successfully subscribed to " + planName + " plan.", None);
    }

    method VerifyTelegramCode(id: UserId, submitted: string, chatId: string, faults: Faults) returns (outcome: Outcome)
      modifies this
      ensures Step(outcome, users) == VerifyStep(old(users), id, submitted, chatId, faults)
    {
      if faults.readFails {
        return Fail(VerifyErrorMessage);
      }
      var user := Lookup(users, id);
      if user.None? {
        return Fail("User not found.");
      }
      var expected := user.value.telegramAccessCode;
      if expected == "" || expected != submitted {
        return Fail("Invalid verification code.");
      }
      if !user.value.isTelegramCodeValid {
        return Fail("Verification code has already been used or is invalid.");
      }
      var ok := Update(id, VerifiedPatch(chatId), faults.writeFails);
      if !ok {
        return Fail(VerifyErrorMessage);
      }
      return Outcome(true, "Telegram account connected successfully.", None);
    }

    /** `expireInactiveTrials`: the for-loop over the rows the query returned. */
    method ExpireInactiveTrials(found: seq<FoundUser>, now: int, failing: set<UserId>)
      modifies this
      ensures users == ExpireAll(old(users), found, now, failing)
    {
      ghost var u0 := users;
      var i := 0;
      while i < |found|
        invariant 0 <= i <= |found|
        invariant users == ExpireAll(u0, found[..i], now, failing)
      {
        assert found[..i + 1][..i] == found[..i];
        var f := found[i];
        if f.id != 0 && f.trialExpiresAt.Some? && f.trialExpiresAt.value < now {
          var ok := Update(f.id, ExpiryPatch(), f.id in failing);
        }
        i := i + 1;
      }
      assert found[..|found|] == found;
    }
  }
}
