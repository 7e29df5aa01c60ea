/**
 * `handleSubscriptionSuccess`: the PayPal webhook router. Only subscription activations are
 * acted on; the PayPal plan id is mapped through the three configured plan ids to an internal
 * plan name, and the matching subscription handler is called. The handler's result becomes
 * the HTTP answer.
 */
module SubscriptionController {
  import opened Wrappers
  import SubscriptionLogic

  const ActivatedEvent: string := "BILLING.SUBSCRIPTION.ACTIVATED"

  /** The parts of the webhook body the router reads; "" stands for a missing or empty value. */
  datatype Event = Event(eventType: string, customId: string, planId: string)

  /** `PAYPAL_VIRAL_PLAN_ID`, `PAYPAL_SURGE_PLAN_ID`, `PAYPAL_SPARK_PLAN_ID`. */
  datatype PlanIds = PlanIds(viral: Option<string>, surge: Option<string>, spark: Option<string>)

  datatype Response =
    | Text(status: nat, text: string)
    | Json(status: nat, error: Option<string>, message: string)

  /** Where the router sends the request: an immediate answer, or one of the two handlers. */
  datatype Route =
    | Answer(response: Response)
    | CallViral(userId: string)
    | CallOther(userId: string, planName: string)

  /** `paypalPlanId === process.env.X`: an unset variable matches nothing. */
  predicate Matches(planId: string, configured: Option<string>)
  {
    configured.Some? && configured.value == planId
  }

  /** Steps 1 to 3 of the handler: event filter, extraction, plan mapping. */
  function RouteEvent(ev: Event, plans: PlanIds): Route
  {
    if ev.eventType == "" || ev.eventType != ActivatedEvent then Answer(Text(200, "Event type ignored."))
    else if ev.customId == "" then
      Answer(Json(400, Some("Bad Request"), "User ID could not be determined from webhook resource."))
    else if ev.planId == "" then
      Answer(Json(400, Some("Bad Request"), "Plan ID could not be determined from webhook resource."))
    else if Matches(ev.planId, plans.viral) then CallViral(ev.customId)
    else if Matches(ev.planId, plans.surge) then CallOther(ev.customId, "Surge")
    else if Matches(ev.planId, plans.spark) then CallOther(ev.customId, "Spark")
    else Answer(Text(200, "Plan ID not relevant to this application."))
  }

  /** Step 4: the handler's result as the HTTP answer. */
  function ResultResponse(result: SubscriptionLogic.Outcome): (r: Response)
    ensures r.status == 200 <==> result.success
    ensures r.status == 200 || r.status == 500
    ensures r.Json? && r.message == result.message
  {
    if result.success then Json(200, None, result.message)
    else Json(500, Some("Internal Server Error"), result.message)
  }

  /** The whole handler, `result` being what the called subscription handler returned. */
  function HandleSubscriptionSuccess(ev: Event, plans: PlanIds, result: SubscriptionLogic.Outcome): Response
  {
    match RouteEvent(ev, plans)
    case Answer(r) => r
    case CallViral(_) => ResultResponse(result)
    case CallOther(_, _) => ResultResponse(result)
  }

  /** Any event other than an activation is acknowledged with 200 and dispatches nothing. */
  lemma OtherEventsIgnored(ev: Event, plans: PlanIds)
    requires ev.eventType != ActivatedEvent
    ensures RouteEvent(ev, plans) == Answer(Text(200, "Event type ignored."))
  {
  }

  /** A missing custom id, then a missing plan id, gives 400 with no dispatch. */
  lemma MissingFieldsRejected(ev: Event, plans: PlanIds)
    requires ev.eventType == ActivatedEvent
    ensures ev.customId == "" ==> RouteEvent(ev, plans).Answer? && RouteEvent(ev, plans).response.status == 400
    ensures ev.planId == "" ==> RouteEvent(ev, plans).Answer? && RouteEvent(ev, plans).response.status == 400
  {
  }

  /**
   * Routing table of an activation that names a user and a plan: Viral when the plan id is
   * the configured Viral id, then Surge, then Spark; otherwise 200 and no update.
   */
  lemma ActivationRouting(ev: Event, plans: PlanIds)
    requires ev.eventType == ActivatedEvent && ev.customId != "" && ev.planId != ""
    ensures RouteEvent(ev, plans) == CallViral(ev.customId) <==> Matches(ev.planId, plans.viral)
    ensures RouteEvent(ev, plans) == CallOther(ev.customId, "Surge") <==>
            !Matches(ev.planId, plans.viral) && Matches(ev.planId, plans.surge)
    ensures RouteEvent(ev, plans) == CallOther(ev.customId, "Spark") <==>
            !Matches(ev.planId, plans.viral) && !Matches(ev.planId, plans.surge) && Matches(ev.planId, plans.spark)
    ensures RouteEvent(ev, plans).Answer? <==>
            !Matches(ev.planId, plans.viral) && !Matches(ev.planId, plans.surge) && !Matches(ev.planId, plans.spark)
    ensures RouteEvent(ev, plans).Answer? ==> RouteEvent(ev, plans).response == Text(200, "Plan ID not relevant to this application.")
  {
  }

  /**
   * The router only ever hands `handleOtherSubscription` a plan it accepts, so its
   * 'Invalid plan specified.' branch is never reached from the webhook.
   */
  lemma OtherRouteAccepted(ev: Event, plans: PlanIds, users: map<SubscriptionLogic.UserId, SubscriptionLogic.User>,
                           id: SubscriptionLogic.UserId, writeFails: bool)
    requires RouteEvent(ev, plans).CallOther?
    ensures var plan := RouteEvent(ev, plans).planName;
            (plan == "Surge" || plan == "Spark") &&
            SubscriptionLogic.OtherPlanStep(users, id, plan, writeFails).outcome.message != "Invalid plan specified."
  {
  }

  /** A dispatched request answers 200 exactly when the handler succeeded, and 500 otherwise. */
  lemma DispatchStatus(ev: Event, plans: PlanIds, result: SubscriptionLogic.Outcome)
    requires !RouteEvent(ev, plans).Answer?
    ensures HandleSubscriptionSuccess(ev, plans, result).status == (if result.success then 200 else 500)
  {
  }
}
