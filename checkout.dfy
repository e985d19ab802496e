/** `POST /api/create-checkout-session`: parameter validation, the price
    lookup, linking a Stripe customer to a logged-in caller, the development
    fallback without a price id, and the fallback when Stripe throws.
    Environment variables and the Stripe outcomes are inputs; the fake ids
    the server builds from the clock and `Math.random` are given fresh. */
module Checkout {
  import opened Base
  import opened Records
  import opened StoreOps
  import opened Entitlement
  import opened Handlers
  import Webhook
  import Store

  datatype Plan = Premium | Pro
  datatype Period = Month | Year

  function PlanName(p: Plan): string
  {
    match p
    case Premium => "premium"
    case Pro => "pro"
  }

  function PeriodName(q: Period): string
  {
    match q
    case Month => "month"
    case Year => "year"
  }

  /** `['premium', 'pro'].includes(plan)`. */
  function ParsePlan(s: Option<string>): (r: Option<Plan>)
    ensures r.Some? <==> s == Some("premium") || s == Some("pro")
    ensures r.Some? ==> s == Some(PlanName(r.value))
  {
    if s == Some("premium") then Some(Premium)
    else if s == Some("pro") then Some(Pro)
    else None
  }

  /** `['month', 'year'].includes(billing)`. */
  function ParsePeriod(s: Option<string>): (r: Option<Period>)
    ensures r.Some? <==> s == Some("month") || s == Some("year")
    ensures r.Some? ==> s == Some(PeriodName(r.value))
  {
    if s == Some("month") then Some(Month)
    else if s == Some("year") then Some(Year)
    else None
  }

  lemma ParseNamesRoundTrip(p: Plan, q: Period)
    ensures ParsePlan(Some(PlanName(p))) == Some(p)
    ensures ParsePeriod(Some(PeriodName(q))) == Some(q)
  {
  }

  /** `PRICE_PREMIUM_MONTHLY_ID`, `PRICE_PREMIUM_YEARLY_ID`,
      `PRICE_PRO_MONTHLY_ID`, `PRICE_PRO_YEARLY_ID`. */
  datatype PriceConfig = PriceConfig(
    premiumMonthly: Option<string>,
    premiumYearly: Option<string>,
    proMonthly: Option<string>,
    proYearly: Option<string>)

  function PriceFor(cfg: PriceConfig, p: Plan, q: Period): Option<string>
  {
    match (p, q)
    case (Premium, Month) => cfg.premiumMonthly
    case (Premium, Year) => cfg.premiumYearly
    case (Pro, Month) => cfg.proMonthly
    case (Pro, Year) => cfg.proYearly
  }

  predicate DistinctPrices(cfg: PriceConfig)
  {
    var ids := [cfg.premiumMonthly, cfg.premiumYearly, cfg.proMonthly, cfg.proYearly];
    forall i, j :: 0 <= i < j < 4 ==> ids[i] != ids[j]
  }

  /** Each plan and period reads its own variable: with four distinct
      settings, the price id determines the plan and the period. */
  lemma PriceIdentifiesPlanAndPeriod(cfg: PriceConfig, p1: Plan, q1: Period, p2: Plan, q2: Period)
    requires DistinctPrices(cfg)
    requires PriceFor(cfg, p1, q1) == PriceFor(cfg, p2, q2)
    ensures p1 == p2 && q1 == q2
  {
    var ids := [cfg.premiumMonthly, cfg.premiumYearly, cfg.proMonthly, cfg.proYearly];
    assert ids[0] != ids[1] && ids[0] != ids[2] && ids[0] != ids[3];
    assert ids[1] != ids[2] && ids[1] != ids[3] && ids[2] != ids[3];
  }

  /** The caller, when a valid bearer token with a truthy id came along;
      otherwise the request proceeds as a guest. */
  function TokenUser(token: Option<Claims>): (r: Option<int>)
    ensures r.Some? <==> token.Some? && token.value.id != 0
    ensures r.Some? ==> r.value == token.value.id
  {
    if token.Some? && token.value.id != 0 then Some(token.value.id) else None
  }

  /** Deployment settings and the outcomes of the Stripe calls. */
  datatype CheckoutEnv = CheckoutEnv(
    production: bool,
    prices: PriceConfig,
    newCustomerId: string,     // id returned by `stripe.customers.create`
    customerCreateFails: bool, // `stripe.customers.create` throws
    sessionCreateFails: bool,  // `stripe.checkout.sessions.create` throws
    devCustomerId: string,     // the `dev_cust_...` placeholder
    fakeSubId: string)         // the `dev_..._sub_...` id of a fallback subscription

  /** The metadata the Stripe session carries back to the webhook. */
  datatype SessionMetadata = SessionMetadata(plan: Plan, period: Period, userId: Option<int>)

  datatype CheckoutOutcome =
    | BadParameters                                               // 400
    | MissingPriceId                                              // 500 in production
    | DevSession                                                  // fake session id
    | StripeSession(metadata: SessionMetadata, customer: Option<string>)
    | FallbackSession                                             // Stripe threw; fake session id

  datatype CheckoutReply = CheckoutReply(outcome: CheckoutOutcome, doc: Doc)

  /** A Stripe customer is created unless the stored user already has one. */
  predicate NeedsCustomer(users: seq<User>, userId: int)
  {
    !(FindUserById(users, userId).Some? && Present(FindUserById(users, userId).value.stripeCustomerId))
  }

  /** The locally activated subscription of both fallbacks. */
  function ActivationRequest(userId: int, p: Plan, q: Period, subId: string): UpsertRequest
  {
    UpsertRequest(Some(userId), subId, Some(PlanName(p)), Some(PeriodName(q)), "active")
  }

  /** The development path without a price id: activate a subscription for
      the caller and give them a placeholder customer if they still have none. */
  function DevActivation(d: Doc, userId: int, p: Plan, q: Period, customer: Option<string>, env: CheckoutEnv, now: nat): Doc
  {
    var d1 := d.(subscriptions := UpsertRows(d.subscriptions, ActivationRequest(userId, p, q, env.fakeSubId), now));
    if Present(customer) then d1 else d1.(users := SetCustomerRows(d1.users, userId, env.devCustomerId))
  }

  /** The error fallback as its comment describes it: when a caller is known,
      activate a subscription locally. */
  function Fallback(d: Doc, userId: Option<int>, p: Plan, q: Period, subId: string, now: nat): (r: Doc)
    ensures userId.None? ==> r == d
    ensures userId.Some? ==>
      && FindSubscriptionByStripeId(r.subscriptions, subId).Some?
      && FindSubscriptionByStripeId(r.subscriptions, subId).value.status == "active"
    ensures r.users == d.users && r.alerts == d.alerts && r.deals == d.deals
  {
    if userId.None? then d
    else
      UpsertLastWriteWins(d.subscriptions, ActivationRequest(userId.value, p, q, subId), now);
      d.(subscriptions := UpsertRows(d.subscriptions, ActivationRequest(userId.value, p, q, subId), now))
  }

  /** The error fallback as written: `userId`, `plan` and `billing` are
      block-scoped to the `try`, so the catch block's first reference to
      `userId` throws a ReferenceError, which the inner catch swallows. */
  function FallbackAsWritten(d: Doc): (r: Doc)
    ensures r.subscriptions == d.subscriptions && r.users == d.users
  {
    d
  }

  /** The fallback taken when a Stripe call throws: as written when
      `corrected` is false, as its comment describes it otherwise. */
  function CatchFallback(d: Doc, userId: Option<int>, p: Plan, q: Period, subId: string, now: nat, corrected: bool): Doc
  {
    if corrected then Fallback(d, userId, p, q, subId, now) else FallbackAsWritten(d)
  }

  /** `stripe.customers.create` is called, and throws. */
  predicate CustomerCreationThrows(d: Doc, token: Option<Claims>, env: CheckoutEnv)
  {
    TokenUser(token).Some? && NeedsCustomer(d.users, TokenUser(token).value) && env.customerCreateFails
  }

  /** The handler; `corrected` selects the error fallback (see `Fallback`
      and `FallbackAsWritten`). */
  function CheckoutStep(
    d: Doc, plan: Option<string>, billing: Option<string>, token: Option<Claims>, env: CheckoutEnv, now: nat,
    corrected: bool): (r: CheckoutReply)
    ensures r.outcome == BadParameters <==> ParsePlan(plan).None? || ParsePeriod(billing).None?
    ensures r.outcome == BadParameters ==> r.doc == d
    ensures TokenUser(token).None? ==> r.doc == d
    ensures r.doc.alerts == d.alerts && r.doc.deals == d.deals
    ensures r.outcome.StripeSession? ==> r.outcome.metadata.userId == TokenUser(token) && r.doc.subscriptions == d.subscriptions
    ensures r.outcome == MissingPriceId ==> env.production && r.doc.subscriptions == d.subscriptions
    ensures r.outcome == FallbackSession <==>
      && ParsePlan(plan).Some? && ParsePeriod(billing).Some?
      && (CustomerCreationThrows(d, token, env)
          || (Present(PriceFor(env.prices, ParsePlan(plan).value, ParsePeriod(billing).value)) && env.sessionCreateFails))
    ensures r.outcome == FallbackSession && !corrected ==> r.doc.subscriptions == d.subscriptions
    ensures r.outcome == FallbackSession && CustomerCreationThrows(d, token, env) ==> r.doc.users == d.users
    ensures r.outcome == FallbackSession && corrected && TokenUser(token).Some? ==>
      && FindSubscriptionByStripeId(r.doc.subscriptions, env.fakeSubId).Some?
      && FindSubscriptionByStripeId(r.doc.subscriptions, env.fakeSubId).value.status == "active"
  {
    var p := ParsePlan(plan);
    var q := ParsePeriod(billing);
    if p.None? || q.None? then CheckoutReply(BadParameters, d)
    else
      var priceId := PriceFor(env.prices, p.value, q.value);
      var uid := TokenUser(token);
      if CustomerCreationThrows(d, token, env) then
        CheckoutReply(FallbackSession, CatchFallback(d, uid, p.value, q.value, env.fakeSubId, now, corrected))
      else
        var customer :=
          if uid.None? then None
          else if NeedsCustomer(d.users, uid.value) then Some(env.newCustomerId)
          else FindUserById(d.users, uid.value).value.stripeCustomerId;
        var d1 :=
          if uid.Some? && NeedsCustomer(d.users, uid.value) then d.(users := SetCustomerRows(d.users, uid.value, env.newCustomerId))
          else d;
        if !Present(priceId) then
          if env.production then CheckoutReply(MissingPriceId, d1)
          else if uid.Some? then CheckoutReply(DevSession, DevActivation(d1, uid.value, p.value, q.value, customer, env, now))
          else CheckoutReply(DevSession, d1)
        else if env.sessionCreateFails then
          CheckoutReply(FallbackSession, CatchFallback(d1, uid, p.value, q.value, env.fakeSubId, now, corrected))
        else
          CheckoutReply(StripeSession(SessionMetadata(p.value, q.value, uid), customer), d1)
  }

  /** `POST /api/create-checkout-session`, step by step against the store. */
  method CreateCheckoutSession(
    db: Store.Db, plan: Option<string>, billing: Option<string>, token: Option<Claims>, env: CheckoutEnv, now: nat,
    corrected: bool)
    returns (r: CheckoutOutcome)
    modifies db
    ensures CheckoutReply(r, db.Snapshot()) == CheckoutStep(old(db.Snapshot()), plan, billing, token, env, now, corrected)
    ensures old(db.Valid()) ==> db.Valid()
  {
    var p := ParsePlan(plan);
    var q := ParsePeriod(billing);
    if p.None? || q.None? {
      return BadParameters;
    }
    var priceId := PriceFor(env.prices, p.value, q.value);
    var uid := TokenUser(token);
    var customer: Option<string> := None;
    if uid.Some? {
      var row := FindUserById(db.users, uid.value);
      if row.Some? && Present(row.value.stripeCustomerId) {
        customer := row.value.stripeCustomerId;
      } else {
        if env.customerCreateFails {
          if corrected {
            var activated := db.UpsertSubscription(ActivationRequest(uid.value, p.value, q.value, env.fakeSubId), now);
          }
          return FallbackSession;
        }
        customer := Some(env.newCustomerId);
        var linked := db.UpdateUserStripeCustomerId(uid.value, env.newCustomerId);
      }
    }
    if !Present(priceId) {
      if env.production {
        return MissingPriceId;
      }
      if uid.Some? {
        var activated := db.UpsertSubscription(ActivationRequest(uid.value, p.value, q.value, env.fakeSubId), now);
        if !Present(customer) {
          var linked := db.UpdateUserStripeCustomerId(uid.value, env.devCustomerId);
        }
      }
      return DevSession;
    }
    if env.sessionCreateFails {
      if corrected && uid.Some? {
        var activated := db.UpsertSubscription(ActivationRequest(uid.value, p.value, q.value, env.fakeSubId), now);
      }
      return FallbackSession;
    }
    r := StripeSession(SessionMetadata(p.value, q.value, uid), customer);
  }

  // ------------------------------------------------------------ properties

  /** Outside production, a missing price id activates a subscription for a
      logged-in caller who had none, so they pass the entitlement gate. */
  lemma DevCheckoutEntitles(d: Doc, p: Plan, q: Period, claims: Claims, env: CheckoutEnv, now: nat, corrected: bool)
    requires claims.id != 0 && !env.production && !Present(PriceFor(env.prices, p, q))
    requires !(NeedsCustomer(d.users, claims.id) && env.customerCreateFails)
    requires forall i :: 0 <= i < |d.subscriptions| ==> d.subscriptions[i].userId != Some(claims.id)
    requires forall i :: 0 <= i < |d.subscriptions| ==> d.subscriptions[i].stripeSubscriptionId != env.fakeSubId
    ensures var r := CheckoutStep(d, Some(PlanName(p)), Some(PeriodName(q)), Some(claims), env, now, corrected);
      r.outcome == DevSession && UserHasActiveSubscription(r.doc.subscriptions, claims.id)
  {
    ParseNamesRoundTrip(p, q);
    ActivationEntitles(d.subscriptions, claims.id, env.fakeSubId, Some(PlanName(p)), Some(PeriodName(q)), now);
  }

  /** The customer is created before the price is looked at: a stored caller
      without a customer is linked to the new one even when production then
      answers `Missing price ID`. */
  lemma MissingPriceStillLinksCustomer(d: Doc, p: Plan, q: Period, claims: Claims, env: CheckoutEnv, now: nat, corrected: bool)
    requires claims.id != 0 && env.production && !Present(PriceFor(env.prices, p, q)) && !env.customerCreateFails
    requires FindUserById(d.users, claims.id).Some? && FindUserById(d.users, claims.id).value.stripeCustomerId.None?
    ensures var r := CheckoutStep(d, Some(PlanName(p)), Some(PeriodName(q)), Some(claims), env, now, corrected);
      && r.outcome == MissingPriceId
      && FindUserById(r.doc.users, claims.id).Some?
      && FindUserById(r.doc.users, claims.id).value.stripeCustomerId == Some(env.newCustomerId)
  {
    ParseNamesRoundTrip(p, q);
    SetCustomerFrame(d.users, claims.id, env.newCustomerId);
  }

  /** A Stripe session stores no subscription; the completed checkout, once
      delivered to the webhook with the session's metadata and an active
      subscription, entitles the caller. */
  lemma StripeCheckoutThenWebhookEntitles(
    d: Doc, p: Plan, q: Period, claims: Claims, env: CheckoutEnv, now: nat, corrected: bool,
    sub: Webhook.StripeSubscription, customer: Option<string>, t: nat)
    requires claims.id != 0 && Present(PriceFor(env.prices, p, q)) && !env.sessionCreateFails
    requires !(NeedsCustomer(d.users, claims.id) && env.customerCreateFails)
    requires forall i :: 0 <= i < |d.subscriptions| ==> d.subscriptions[i].userId != Some(claims.id)
    requires forall i :: 0 <= i < |d.subscriptions| ==> d.subscriptions[i].stripeSubscriptionId != sub.id
    requires sub.status == "active"
    ensures var r := CheckoutStep(d, Some(PlanName(p)), Some(PeriodName(q)), Some(claims), env, now, corrected);
      && r.outcome.StripeSession?
      && r.doc.subscriptions == d.subscriptions
      && var session := Webhook.CheckoutSession(r.outcome.metadata.userId, Some(PlanName(p)), Some(PeriodName(q)), customer, Some(sub));
         UserHasActiveSubscription(Webhook.ApplyEvent(r.doc, Webhook.CheckoutSessionCompleted(session), t).subscriptions, claims.id)
  {
    ParseNamesRoundTrip(p, q);
    var r := CheckoutStep(d, Some(PlanName(p)), Some(PeriodName(q)), Some(claims), env, now, corrected);
    var session := Webhook.CheckoutSession(Some(claims.id), Some(PlanName(p)), Some(PeriodName(q)), customer, Some(sub));
    Webhook.CheckoutOfActiveSubscriptionEntitles(r.doc, session, t);
  }

  /** Corrected fallback: when Stripe throws for a logged-in caller without
      rows, the locally activated subscription entitles them. */
  lemma FallbackActivates(d: Doc, userId: int, p: Plan, q: Period, subId: string, now: nat)
    requires forall i :: 0 <= i < |d.subscriptions| ==> d.subscriptions[i].userId != Some(userId)
    requires forall i :: 0 <= i < |d.subscriptions| ==> d.subscriptions[i].stripeSubscriptionId != subId
    ensures UserHasActiveSubscription(Fallback(d, Some(userId), p, q, subId, now).subscriptions, userId)
  {
    ActivationEntitles(d.subscriptions, userId, subId, Some(PlanName(p)), Some(PeriodName(q)), now);
  }

  /** On the route: when `stripe.checkout.sessions.create` throws for a
      logged-in caller without rows, the handler as written answers with the
      success page yet leaves the caller locked out, while the corrected
      handler entitles them. */
  lemma SessionFailureFallbacks(d: Doc, p: Plan, q: Period, claims: Claims, env: CheckoutEnv, now: nat)
    requires claims.id != 0 && Present(PriceFor(env.prices, p, q)) && env.sessionCreateFails
    requires !(NeedsCustomer(d.users, claims.id) && env.customerCreateFails)
    requires forall i :: 0 <= i < |d.subscriptions| ==> d.subscriptions[i].userId != Some(claims.id)
    requires forall i :: 0 <= i < |d.subscriptions| ==> d.subscriptions[i].stripeSubscriptionId != env.fakeSubId
    ensures var asWritten := CheckoutStep(d, Some(PlanName(p)), Some(PeriodName(q)), Some(claims), env, now, false);
      asWritten.outcome == FallbackSession && !UserHasActiveSubscription(asWritten.doc.subscriptions, claims.id)
    ensures var fixed := CheckoutStep(d, Some(PlanName(p)), Some(PeriodName(q)), Some(claims), env, now, true);
      fixed.outcome == FallbackSession && UserHasActiveSubscription(fixed.doc.subscriptions, claims.id)
  {
    ParseNamesRoundTrip(p, q);
    var d1 := if NeedsCustomer(d.users, claims.id) then d.(users := SetCustomerRows(d.users, claims.id, env.newCustomerId)) else d;
    FallbackAsWrittenLeavesCallerLocked(d1, claims.id);
    FallbackActivates(d1, claims.id, p, q, env.fakeSubId, now);
  }

  /** As written, the same caller stays without an entitling subscription
      after the fallback, although the response still sends them to the
      success page. */
  lemma FallbackAsWrittenLeavesCallerLocked(d: Doc, userId: int)
    requires forall i :: 0 <= i < |d.subscriptions| ==> d.subscriptions[i].userId != Some(userId)
    ensures !UserHasActiveSubscription(FallbackAsWritten(d).subscriptions, userId)
  {
    NoRowsNoEntitlement(d.subscriptions, userId);
  }
}
