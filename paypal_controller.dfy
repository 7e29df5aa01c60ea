/**
 * `approveSubscription`: a logged-in user's PayPal subscription is fetched from PayPal, must be
 * ACTIVE and on one of the three known plans, and then the plan, the subscription id and the
 * status are written to the user's record. The PayPal fetch and the store write are inputs.
 */
module PaypalController {
  import opened Wrappers

  /** `PAYPAL_PLAN_MAP`: PayPal plan ids to internal plan names. */
  const PlanMap: map<string, string> := map[
    "P-4Y4434518B3747137NACRKNY" := "Spark",
    "P-6NC15818DS298615RNACRLEY" := "Surge",
    "P-4XX40417EU7326443NACRM4Q" := "Viral"]

  /** The outcome of `paypalClient.execute(SubscriptionsGetRequest(id))`. */
  datatype PaypalFetch =
    | FetchFailed(statusCode: Option<int>, message: string)
    | Fetched(status: Option<string>, planId: Option<string>)

  /** The three column names, each `process.env.X || default`; the environment is an input. */
  datatype Columns = Columns(plan: string, subscriptionId: string, status: string)

  function DefaultColumns(): Columns
  {
    Columns("current_plan", "paypal_subscription_id", "subscription_status")
  }

  /** The answer: an HTTP status and message, or the error passed on to the next handler. */
  datatype Response = Reply(status: nat, message: string) | PassedToErrorHandler

  datatype Approval = Approval(response: Response, written: Option<map<string, string>>)

  /** The update object of step 4. */
  function ApprovalUpdate(cols: Columns, planName: string, subscriptionId: string): map<string, string>
  {
    map[cols.plan := planName][cols.subscriptionId := subscriptionId][cols.status := "ACTIVE"]
  }

  /** `${value}` of an optional string. */
  function Shown(s: Option<string>): string
  {
    if s.Some? then s.value else "undefined"
  }

  /** `approveSubscription` for user `userId` ("" when absent) and the subscription id in the body. */
  function Approve(userId: string, subscriptionId: string, fetch: PaypalFetch, cols: Columns, writeFails: bool): Approval
  {
    if userId == "" || subscriptionId == "" then
      Approval(Reply(401, "Not authorized, user ID or subscriptionID missing"), None)
    else
      match fetch
      case FetchFailed(code, msg) =>
        var status := if code.Some? && code.value > 0 then code.value else 500;
        var message := if msg != "" then msg else "Failed to retrieve subscription details from PayPal.";
        Approval(Reply(status, message), None)
      case Fetched(status, planId) =>
        if status != Some("ACTIVE") then
          Approval(Reply(400, "PayPal subscription status is " + Shown(status) + ", expected ACTIVE."), None)
        else if planId.None? || planId.value == "" then
          Approval(Reply(500, "Could not determine plan from PayPal subscription."), None)
        else if planId.value !in PlanMap then
          Approval(Reply(500, "Server configuration error: Unknown Plan ID mapping."), None)
        else
          var planName := PlanMap[planId.value];
          if writeFails then Approval(PassedToErrorHandler, None)
          else
            Approval(Reply(200, "Subscription to " + planName + " plan activated successfully!"),
                     Some(ApprovalUpdate(cols, planName, subscriptionId)))
  }

  /** The plan map is injective onto exactly Spark, Surge and Viral. */
  lemma PlanMapInjective()
    ensures |PlanMap| == 3
    ensures PlanMap.Values == {"Spark", "Surge", "Viral"}
    ensures forall a, b :: a in PlanMap && b in PlanMap && PlanMap[a] == PlanMap[b] ==> a == b
  {
    assert PlanMap.Keys == {"P-4Y4434518B3747137NACRKNY", "P-6NC15818DS298615RNACRLEY", "P-4XX40417EU7326443NACRM4Q"};
    assert "P-4Y4434518B3747137NACRKNY" in PlanMap && PlanMap["P-4Y4434518B3747137NACRKNY"] == "Spark";
    assert "P-6NC15818DS298615RNACRLEY" in PlanMap && PlanMap["P-6NC15818DS298615RNACRLEY"] == "Surge";
    assert "P-4XX40417EU7326443NACRM4Q" in PlanMap && PlanMap["P-4XX40417EU7326443NACRM4Q"] == "Viral";
  }

  /** A missing user or subscription id gives 401 whatever PayPal would have said. */
  lemma UnauthorizedBeforePaypal(userId: string, subscriptionId: string, f1: PaypalFetch, f2: PaypalFetch,
                                 cols: Columns, w1: bool, w2: bool)
    requires userId == "" || subscriptionId == ""
    ensures Approve(userId, subscriptionId, f1, cols, w1) == Approve(userId, subscriptionId, f2, cols, w2)
    ensures Approve(userId, subscriptionId, f1, cols, w1).response.Reply?
    ensures Approve(userId, subscriptionId, f1, cols, w1).response.status == 401
  {
  }

  /** A failed fetch answers with its status code (500 when it has none) and writes nothing. */
  lemma FetchErrorStatus(userId: string, subscriptionId: string, code: Option<int>, msg: string, cols: Columns, w: bool)
    requires userId != "" && subscriptionId != ""
    ensures var a := Approve(userId, subscriptionId, FetchFailed(code, msg), cols, w);
            a.written.None? && a.response.Reply? &&
            a.response.status == (if code.Some? && code.value > 0 then code.value else 500)
  {
  }

  /**
   * Nothing is written unless the subscription is ACTIVE and its plan id is one of the three
   * known ids; a status other than ACTIVE gives 400, a missing or unknown plan 500.
   */
  lemma WriteOnlyWhenActiveAndKnown(userId: string, subscriptionId: string, fetch: PaypalFetch, cols: Columns, w: bool)
    requires userId != "" && subscriptionId != "" && fetch.Fetched?
    ensures fetch.status != Some("ACTIVE") ==>
              Approve(userId, subscriptionId, fetch, cols, w).response.status == 400
    ensures fetch.status == Some("ACTIVE") && (fetch.planId.None? || fetch.planId.value !in PlanMap) ==>
              Approve(userId, subscriptionId, fetch, cols, w).response.status == 500
    ensures Approve(userId, subscriptionId, fetch, cols, w).written.Some? <==>
              fetch.status == Some("ACTIVE") && fetch.planId.Some? && fetch.planId.value in PlanMap && !w
  {
    assert "" !in PlanMap;
  }

  /** A success writes exactly the plan name, the subscription id and status ACTIVE. */
  lemma SuccessWritesThreeColumns(userId: string, subscriptionId: string, fetch: PaypalFetch, w: bool)
    requires Approve(userId, subscriptionId, fetch, DefaultColumns(), w).written.Some?
    ensures var m := Approve(userId, subscriptionId, fetch, DefaultColumns(), w).written.value;
            m.Keys == {"current_plan", "paypal_subscription_id", "subscription_status"} &&
            m["current_plan"] == PlanMap[fetch.planId.value] &&
            m["paypal_subscription_id"] == subscriptionId &&
            m["subscription_status"] == "ACTIVE"
    ensures Approve(userId, subscriptionId, fetch, DefaultColumns(), w).response.Reply?
    ensures Approve(userId, subscriptionId, fetch, DefaultColumns(), w).response.status == 200
  {
  }
}
