/** The Stripe webhook receiver: the signature gate and the fold of one
    billing event into the store through `upsertSubscription` and
    `updateUserStripeCustomerId`. Stripe itself (signature check, session
    retrieval) is represented by its outcomes, given as inputs. */
module Webhook {
  import opened Base
  import opened Records
  import opened StoreOps
  import opened Seqs
  import opened Entitlement
  import Store

  /** The subscription object of an event, or of a retrieved session:
      `product` is `items.data[0].price.product` and `interval` is
      `items.data[0].price.recurring.interval`. */
  datatype StripeSubscription = StripeSubscription(
    id: string,
    customer: string,
    status: string,
    product: Option<string>,
    interval: Option<string>)

  /** A checkout session as retrieved from Stripe. `metaUserId` is
      `Number(metadata.userId)` when `metadata.userId` is a non-empty numeric
      string, and None otherwise. */
  datatype CheckoutSession = CheckoutSession(
    metaUserId: Option<int>,
    metaPlan: Option<string>,
    metaBilling: Option<string>,
    customer: Option<string>,
    subscription: Option<StripeSubscription>)

  datatype Event =
    | CheckoutSessionCompleted(session: CheckoutSession)
    | InvoicePaymentSucceeded
    | SubscriptionCreated(sub: StripeSubscription)
    | SubscriptionUpdated(sub: StripeSubscription)
    | SubscriptionDeleted(sub: StripeSubscription)
    | Unhandled(eventType: string)

  datatype WebhookResponse =
    | AcceptedUnverified   // 200 `{ received: true }` without a configured secret
    | SignatureRejected    // 400 `Webhook Error: ...`
    | Received             // 200 `{ received: true }` after handling

  /** The metadata user id is used when it is truthy (present and non-zero). */
  predicate MetaUserTruthy(s: CheckoutSession)
  {
    s.metaUserId.Some? && s.metaUserId.value != 0
  }

  /** The user a completed checkout belongs to: the metadata user id, or else
      the user linked to the session's customer; None when the result is
      falsy (absent or 0). */
  function CheckoutUserId(users: seq<User>, s: CheckoutSession): (r: Option<int>)
    ensures r.Some? ==> r.value != 0
    ensures MetaUserTruthy(s) ==> r == s.metaUserId
    ensures !MetaUserTruthy(s) && r.Some? ==>
      Present(s.customer) && exists i :: 0 <= i < |users| && users[i].stripeCustomerId == s.customer && users[i].id == r.value
    ensures !MetaUserTruthy(s) && Present(s.customer) && FindUserByStripeCustomer(users, s.customer.value).Some?
      && FindUserByStripeCustomer(users, s.customer.value).value.id != 0
      ==> r == Some(FindUserByStripeCustomer(users, s.customer.value).value.id)
    ensures !MetaUserTruthy(s) && !Present(s.customer) ==> r.None?
  {
    if MetaUserTruthy(s) then s.metaUserId
    else if Present(s.customer) then
      (match FindUserByStripeCustomer(users, s.customer.value)
       case Some(u) => if u.id != 0 then Some(u.id) else None
       case None => None)
    else None
  }

  /** The `customer` field of a retrieved session: an id string, or the
      customer object when the session is retrieved with
      `expand: ['customer']`. */
  datatype CustomerField = CustomerRef(id: string) | ExpandedCustomer(id: string)

  /** `u.stripe_customer_id === customer`: a stored id string is never
      strictly equal to an object. */
  predicate StrictlyEqualsCustomer(stored: Option<string>, c: CustomerField)
  {
    c.CustomerRef? && stored == Some(c.id)
  }

  /** The user lookup of a completed checkout as written, comparing stored
      ids with the session's `customer` field as retrieved. */
  function CheckoutUserIdAsWritten(users: seq<User>, s: CheckoutSession, customer: CustomerField): (r: Option<int>)
    ensures r.Some? ==> r.value != 0
    ensures MetaUserTruthy(s) ==> r == s.metaUserId
    ensures customer.ExpandedCustomer? ==> (r.Some? <==> MetaUserTruthy(s))
  {
    if MetaUserTruthy(s) then s.metaUserId
    else
      (match FirstIndex(users, (u: User) => StrictlyEqualsCustomer(u.stripeCustomerId, customer))
       case Some(i) => if users[i].id != 0 then Some(users[i].id) else None
       case None => None)
  }

  /** As written, a checkout without a metadata user id is not attributed
      to the user linked to its customer: the expanded customer matches no
      stored id, so the event is dropped. */
  lemma ExpandedCustomerLeavesCheckoutUnattributed()
    ensures var users := [User(1, "u@x.com", "h", Some("cus_1"), 0)];
      var s := CheckoutSession(None, None, None, Some("cus_1"), Some(StripeSubscription("sub_1", "cus_1", "active", None, None)));
      CheckoutUserIdAsWritten(users, s, ExpandedCustomer("cus_1")) == None
  {
  }

  /** Comparing customer ids, the same checkout is attributed to the linked
      user and entitles them. */
  lemma LinkedCustomerAttributesCheckout()
    ensures var users := [User(1, "u@x.com", "h", Some("cus_1"), 0)];
      var s := CheckoutSession(None, None, None, Some("cus_1"), Some(StripeSubscription("sub_1", "cus_1", "active", None, None)));
      && CheckoutUserId(users, s) == Some(1)
      && UserHasActiveSubscription(ApplyEvent(Doc(users, [], [], []), CheckoutSessionCompleted(s), 0).subscriptions, 1)
  {
    var users := [User(1, "u@x.com", "h", Some("cus_1"), 0)];
    var s := CheckoutSession(None, None, None, Some("cus_1"), Some(StripeSubscription("sub_1", "cus_1", "active", None, None)));
    assert FindUserByStripeCustomer(users, "cus_1") == Some(users[0]);
    CheckoutOfActiveSubscriptionEntitles(Doc(users, [], [], []), s, 0);
  }

  /** The upsert of a completed checkout: `metadata.plan || product || null`,
      `metadata.billing || interval || null`. */
  function CheckoutRequest(s: CheckoutSession, userId: int): UpsertRequest
    requires s.subscription.Some?
  {
    var sub := s.subscription.value;
    UpsertRequest(Some(userId), sub.id, FirstPresent(s.metaPlan, sub.product), FirstPresent(s.metaBilling, sub.interval), sub.status)
  }

  function CreatedRequest(sub: StripeSubscription, userId: int): UpsertRequest
  {
    UpsertRequest(Some(userId), sub.id, OrNull(sub.product), OrNull(sub.interval), sub.status)
  }

  /** `customer.subscription.updated` upserts with `user_id: null`. */
  function UpdatedRequest(sub: StripeSubscription): UpsertRequest
  {
    UpsertRequest(None, sub.id, OrNull(sub.product), OrNull(sub.interval), sub.status)
  }

  /** `customer.subscription.deleted` upserts `canceled` with no plan or period. */
  function DeletedRequest(sub: StripeSubscription): UpsertRequest
  {
    UpsertRequest(None, sub.id, None, None, "canceled")
  }

  /** The document after handling one verified event. */
  function ApplyEvent(d: Doc, ev: Event, now: nat): (r: Doc)
    ensures r.alerts == d.alerts && r.deals == d.deals
    ensures !ev.CheckoutSessionCompleted? ==> r.users == d.users
    ensures |d.subscriptions| <= |r.subscriptions| <= |d.subscriptions| + 1
  {
    match ev
    case CheckoutSessionCompleted(s) =>
      var uid := CheckoutUserId(d.users, s);
      if uid.Some? && s.subscription.Some? then
        var subs := UpsertRows(d.subscriptions, CheckoutRequest(s, uid.value), now);
        var users := if Present(s.customer) then SetCustomerRows(d.users, uid.value, s.customer.value) else d.users;
        d.(subscriptions := subs, users := users)
      else d
    case InvoicePaymentSucceeded => d
    case SubscriptionCreated(sub) =>
      (match FindUserByStripeCustomer(d.users, sub.customer)
       case Some(u) => d.(subscriptions := UpsertRows(d.subscriptions, CreatedRequest(sub, u.id), now))
       case None => d)
    case SubscriptionUpdated(sub) => d.(subscriptions := UpsertRows(d.subscriptions, UpdatedRequest(sub), now))
    case SubscriptionDeleted(sub) => d.(subscriptions := UpsertRows(d.subscriptions, DeletedRequest(sub), now))
    case Unhandled(_) => d
  }

  /** `POST /api/webhook`: without a secret the event is acknowledged and not
      processed; with one, a bad signature is rejected and nothing changes;
      otherwise the event is applied and acknowledged. */
  method HandleWebhook(db: Store.Db, secretConfigured: bool, signatureValid: bool, ev: Event, now: nat)
    returns (resp: WebhookResponse)
    modifies db
    ensures !secretConfigured ==> resp == AcceptedUnverified && db.Snapshot() == old(db.Snapshot())
    ensures secretConfigured && !signatureValid ==> resp == SignatureRejected && db.Snapshot() == old(db.Snapshot())
    ensures secretConfigured && signatureValid ==> resp == Received && db.Snapshot() == ApplyEvent(old(db.Snapshot()), ev, now)
    ensures old(db.Valid()) ==> db.Valid()
  {
    if !secretConfigured {
      return AcceptedUnverified;
    }
    if !signatureValid {
      return SignatureRejected;
    }
    match ev {
      case CheckoutSessionCompleted(s) =>
        var uid := CheckoutUserId(db.users, s);
        if uid.Some? && s.subscription.Some? {
          var row := db.UpsertSubscription(CheckoutRequest(s, uid.value), now);
          if Present(s.customer) {
            var linked := db.UpdateUserStripeCustomerId(uid.value, s.customer.value);
          }
        }
      case InvoicePaymentSucceeded =>
      case SubscriptionCreated(sub) =>
        var owner := FindUserByStripeCustomer(db.users, sub.customer);
        if owner.Some? {
          var row := db.UpsertSubscription(CreatedRequest(sub, owner.value.id), now);
        }
      case SubscriptionUpdated(sub) =>
        var row := db.UpsertSubscription(UpdatedRequest(sub), now);
      case SubscriptionDeleted(sub) =>
        var row := db.UpsertSubscription(DeletedRequest(sub), now);
      case Unhandled(_) =>
    }
    resp := Received;
  }

  // ------------------------------------------------------------ properties

  /** Handling any verified event keeps the document well formed. */
  lemma ApplyEventKeepsWellFormed(d: Doc, ev: Event, now: nat)
    requires WellFormed(d)
    ensures WellFormed(ApplyEvent(d, ev, now))
  {
    match ev
    case CheckoutSessionCompleted(s) =>
      var uid := CheckoutUserId(d.users, s);
      if uid.Some? && s.subscription.Some? {
        var d1 := d.(subscriptions := UpsertRows(d.subscriptions, CheckoutRequest(s, uid.value), now));
        UpsertKeepsWellFormed(d, CheckoutRequest(s, uid.value), now);
        if Present(s.customer) {
          SetCustomerKeepsWellFormed(d1, uid.value, s.customer.value);
        }
      }
    case InvoicePaymentSucceeded =>
    case SubscriptionCreated(sub) =>
      var owner := FindUserByStripeCustomer(d.users, sub.customer);
      if owner.Some? {
        UpsertKeepsWellFormed(d, CreatedRequest(sub, owner.value.id), now);
      }
    case SubscriptionUpdated(sub) => UpsertKeepsWellFormed(d, UpdatedRequest(sub), now);
    case SubscriptionDeleted(sub) => UpsertKeepsWellFormed(d, DeletedRequest(sub), now);
    case Unhandled(_) =>
  }

  /** `invoice.payment_succeeded` and unhandled event types leave the store
      unchanged. */
  lemma InvoiceAndUnhandledChangeNothing(d: Doc, ev: Event, now: nat)
    requires ev.InvoicePaymentSucceeded? || ev.Unhandled?
    ensures ApplyEvent(d, ev, now) == d
  {
  }

  /** A completed checkout changes nothing unless both a user and a
      subscription are known. */
  lemma CheckoutNeedsUserAndSubscription(d: Doc, s: CheckoutSession, now: nat)
    requires CheckoutUserId(d.users, s).None? || s.subscription.None?
    ensures ApplyEvent(d, CheckoutSessionCompleted(s), now) == d
  {
  }

  /** With a user and a subscription, a completed checkout records the
      subscription's status under its Stripe id (owned by that user when the
      id is new) and then links the user to the session's customer, replacing
      whatever customer id the user had. */
  lemma CheckoutRecordsAndLinks(d: Doc, s: CheckoutSession, now: nat)
    requires CheckoutUserId(d.users, s).Some? && s.subscription.Some?
    ensures var r := ApplyEvent(d, CheckoutSessionCompleted(s), now);
      var uid := CheckoutUserId(d.users, s).value;
      var sub := s.subscription.value;
      && FindSubscriptionByStripeId(r.subscriptions, sub.id).Some?
      && FindSubscriptionByStripeId(r.subscriptions, sub.id).value.status == sub.status
      && (FindSubscriptionByStripeId(d.subscriptions, sub.id).None? ==>
            FindSubscriptionByStripeId(r.subscriptions, sub.id).value.userId == Some(uid))
      && (Present(s.customer) && FindUserById(d.users, uid).Some? ==>
            FindUserById(r.users, uid).Some? && FindUserById(r.users, uid).value.stripeCustomerId == s.customer)
      && (!Present(s.customer) ==> r.users == d.users)
  {
    var uid := CheckoutUserId(d.users, s).value;
    var req := CheckoutRequest(s, uid);
    UpsertLastWriteWins(d.subscriptions, req, now);
    if FindSubscriptionByStripeId(d.subscriptions, req.ref).None? {
      UpsertAppends(d.subscriptions, req, now);
    }
    if Present(s.customer) {
      SetCustomerFrame(d.users, uid, s.customer.value);
    }
  }

  /** A checkout whose session carries an active subscription unknown so far
      entitles a user who had no subscription rows. */
  lemma CheckoutOfActiveSubscriptionEntitles(d: Doc, s: CheckoutSession, now: nat)
    requires CheckoutUserId(d.users, s).Some? && s.subscription.Some?
    requires s.subscription.value.status == "active"
    requires forall i :: 0 <= i < |d.subscriptions| ==> d.subscriptions[i].userId != Some(CheckoutUserId(d.users, s).value)
    requires forall i :: 0 <= i < |d.subscriptions| ==> d.subscriptions[i].stripeSubscriptionId != s.subscription.value.id
    ensures UserHasActiveSubscription(ApplyEvent(d, CheckoutSessionCompleted(s), now).subscriptions, CheckoutUserId(d.users, s).value)
  {
    var uid := CheckoutUserId(d.users, s).value;
    var req := CheckoutRequest(s, uid);
    ActivationEntitles(d.subscriptions, uid, req.ref, req.plan, req.billingPeriod, now);
  }

  /** `customer.subscription.created` upserts only when the event's customer
      is linked to a stored user, and then on that user's behalf. */
  lemma CreatedNeedsKnownCustomer(d: Doc, sub: StripeSubscription, now: nat)
    ensures var r := ApplyEvent(d, SubscriptionCreated(sub), now);
      && (FindUserByStripeCustomer(d.users, sub.customer).None? ==> r == d)
      && (FindUserByStripeCustomer(d.users, sub.customer).Some? ==>
            r.users == d.users &&
            r.subscriptions == UpsertRows(d.subscriptions, CreatedRequest(sub, FindUserByStripeCustomer(d.users, sub.customer).value.id), now))
  {
  }

  /** `customer.subscription.updated` and `.deleted` on a known Stripe id keep
      that row's owner and copy the event's status, plan and period
      (`canceled` for a deletion, with plan and period cleared). */
  lemma UpdateKeepsOwner(d: Doc, ev: Event, now: nat, i: nat)
    requires ev.SubscriptionUpdated? || ev.SubscriptionDeleted?
    requires i < |d.subscriptions| && d.subscriptions[i].stripeSubscriptionId == ev.sub.id
    requires forall j :: 0 <= j < i ==> d.subscriptions[j].stripeSubscriptionId != ev.sub.id
    ensures var r := ApplyEvent(d, ev, now).subscriptions;
      && |r| == |d.subscriptions|
      && r[i].userId == d.subscriptions[i].userId
      && r[i].id == d.subscriptions[i].id
      && r[i].createdAt == d.subscriptions[i].createdAt
      && r[i].status == (if ev.SubscriptionDeleted? then "canceled" else ev.sub.status)
      && (ev.SubscriptionUpdated? ==> r[i].plan == OrNull(ev.sub.product) && r[i].billingPeriod == OrNull(ev.sub.interval))
      && (ev.SubscriptionDeleted? ==> r[i].plan == None && r[i].billingPeriod == None)
  {
    var req := if ev.SubscriptionUpdated? then UpdatedRequest(ev.sub) else DeletedRequest(ev.sub);
    UpsertExisting(d.subscriptions, req, now, i);
  }

  /** `customer.subscription.updated` and `.deleted` on an unknown Stripe id
      append one ownerless row carrying the event's Stripe id, status, plan and
      period, which changes no user's entitlement. */
  lemma UnknownRefAppendsOwnerlessRow(d: Doc, ev: Event, now: nat, userId: int)
    requires ev.SubscriptionUpdated? || ev.SubscriptionDeleted?
    requires forall j :: 0 <= j < |d.subscriptions| ==> d.subscriptions[j].stripeSubscriptionId != ev.sub.id
    ensures var r := ApplyEvent(d, ev, now).subscriptions;
      && |r| == |d.subscriptions| + 1
      && r[..|d.subscriptions|] == d.subscriptions
      && r[|d.subscriptions|].userId == None
      && r[|d.subscriptions|].stripeSubscriptionId == ev.sub.id
      && r[|d.subscriptions|].status == (if ev.SubscriptionDeleted? then "canceled" else ev.sub.status)
      && r[|d.subscriptions|].plan == (if ev.SubscriptionDeleted? then None else OrNull(ev.sub.product))
      && r[|d.subscriptions|].billingPeriod == (if ev.SubscriptionDeleted? then None else OrNull(ev.sub.interval))
      && UserHasActiveSubscription(r, userId) == UserHasActiveSubscription(d.subscriptions, userId)
  {
    var req := if ev.SubscriptionUpdated? then UpdatedRequest(ev.sub) else DeletedRequest(ev.sub);
    UpsertAppends(d.subscriptions, req, now);
    UpsertOfForeignRowKeepsEntitlement(d.subscriptions, req, now, userId);
  }

  /** Of two subscription updates for the same Stripe id, the one processed
      last decides the stored status, whatever their order at Stripe. */
  lemma LastProcessedUpdateWins(d: Doc, a: StripeSubscription, b: StripeSubscription, t1: nat, t2: nat)
    requires a.id == b.id
    ensures var r := ApplyEvent(ApplyEvent(d, SubscriptionUpdated(a), t1), SubscriptionUpdated(b), t2);
      FindSubscriptionByStripeId(r.subscriptions, b.id).Some? &&
      FindSubscriptionByStripeId(r.subscriptions, b.id).value.status == b.status
  {
    var d1 := ApplyEvent(d, SubscriptionUpdated(a), t1);
    UpsertLastWriteWins(d1.subscriptions, UpdatedRequest(b), t2);
  }

  /** Two documents that differ at most in subscription `updated_at` stamps. */
  ghost predicate SameDocExceptUpdatedAt(a: Doc, b: Doc)
  {
    a.users == b.users && a.alerts == b.alerts && a.deals == b.deals
    && SameExceptUpdatedAt(a.subscriptions, b.subscriptions)
  }

  /** Linking the user found by a customer id to that same customer keeps the
      lookup by customer pointing at a user with the same id. */
  lemma LinkKeepsCustomerLookup(users: seq<User>, customerId: string)
    requires FindUserByStripeCustomer(users, customerId).Some?
    ensures var uid := FindUserByStripeCustomer(users, customerId).value.id;
      var r := SetCustomerRows(users, uid, customerId);
      FindUserByStripeCustomer(r, customerId).Some? && FindUserByStripeCustomer(r, customerId).value.id == uid
  {
    var k := UserIndexByCustomer(users, customerId).value;
    var uid := users[k].id;
    var j := UserIndexById(users, uid).value;
    var r := SetCustomerRows(users, uid, customerId);
    SetCustomerFrame(users, uid, customerId);
    FirstIndexAt(r, (u: User) => u.stripeCustomerId == Some(customerId), j);
  }

  /** Redelivery is harmless: handling the same verified event twice leaves
      the document of handling it once, apart from `updated_at`. */
  lemma ApplyEventIdempotent(d: Doc, ev: Event, t1: nat, t2: nat)
    ensures SameDocExceptUpdatedAt(ApplyEvent(ApplyEvent(d, ev, t1), ev, t2), ApplyEvent(d, ev, t1))
  {
    var d1 := ApplyEvent(d, ev, t1);
    match ev
    case CheckoutSessionCompleted(s) =>
      var uid := CheckoutUserId(d.users, s);
      if uid.Some? && s.subscription.Some? {
        if !MetaUserTruthy(s) {
          LinkKeepsCustomerLookup(d.users, s.customer.value);
        }
        assert CheckoutUserId(d1.users, s) == uid;
        UpsertIdempotent(d.subscriptions, CheckoutRequest(s, uid.value), t1, t2);
        if Present(s.customer) {
          SetCustomerIdempotent(d.users, uid.value, s.customer.value);
        }
      }
    case InvoicePaymentSucceeded =>
    case SubscriptionCreated(sub) =>
      var owner := FindUserByStripeCustomer(d.users, sub.customer);
      if owner.Some? {
        UpsertIdempotent(d.subscriptions, CreatedRequest(sub, owner.value.id), t1, t2);
      }
    case SubscriptionUpdated(sub) => UpsertIdempotent(d.subscriptions, UpdatedRequest(sub), t1, t2);
    case SubscriptionDeleted(sub) => UpsertIdempotent(d.subscriptions, DeletedRequest(sub), t1, t2);
    case Unhandled(_) =>
  }
}
