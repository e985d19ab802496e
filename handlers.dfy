/** The decisions the HTTP handlers take in front of the store: signup,
    login, `/api/me`, alert creation and deletion, deal creation and update.
    A verified bearer token is represented by its claims; bcrypt is a
    deterministic `hashOf`, and a password matches a stored hash when it
    hashes to it. */
module Handlers {
  import opened Base
  import opened Records
  import opened StoreOps
  import opened Entitlement
  import Store

  /** The payload of a token: `{ id, email }`. */
  datatype Claims = Claims(id: int, email: string)

  // --------------------------------------------------------------- signup

  datatype SignupOutcome =
    | SignupMissingFields      // 400 `Missing fields`
    | EmailAlreadyUsed         // 400 `Email already used`
    | SignedUp(claims: Claims) // token and `{ id, email }`

  /** The outcome of `POST /api/signup` and the users array it leaves. */
  datatype SignupReply = SignupReply(outcome: SignupOutcome, users: seq<User>)

  function SignupStep(users: seq<User>, email: Option<string>, password: Option<string>, hashOf: string -> string, now: nat): (r: SignupReply)
    ensures r.outcome == SignupMissingFields <==> !Present(email) || !Present(password)
    ensures Present(email) && Present(password) ==>
      (r.outcome == EmailAlreadyUsed <==> exists i :: 0 <= i < |users| && users[i].email == Lower(email.value))
    ensures !r.outcome.SignedUp? ==> r.users == users
    ensures r.outcome.SignedUp? ==>
      && |r.users| == |users| + 1
      && r.users[..|users|] == users
      && r.users[|users|].email == Lower(email.value)
      && r.users[|users|].passwordHash == hashOf(password.value)
      && r.users[|users|].stripeCustomerId == None
      && (forall i :: 0 <= i < |users| ==> users[i].id < r.users[|users|].id)
      && r.outcome.claims == Claims(r.users[|users|].id, r.users[|users|].email)
  {
    if !Present(email) || !Present(password) then SignupReply(SignupMissingFields, users)
    else if FindUserByEmail(users, email.value).Some? then SignupReply(EmailAlreadyUsed, users)
    else
      var u := NewUser(users, email.value, hashOf(password.value), now);
      assert (users + [u])[..|users|] == users;
      assert forall i :: 0 <= i < |users| ==> UserIds(users)[i] == users[i].id;
      SignupReply(SignedUp(Claims(u.id, u.email)), users + [u])
  }

  /** `POST /api/signup`. */
  method Signup(db: Store.Db, email: Option<string>, password: Option<string>, hashOf: string -> string, now: nat)
    returns (r: SignupOutcome)
    modifies db
    ensures SignupReply(r, db.users) == SignupStep(old(db.users), email, password, hashOf, now)
    ensures db.subscriptions == old(db.subscriptions) && db.alerts == old(db.alerts) && db.deals == old(db.deals)
    ensures old(db.Valid()) ==> db.Valid()
  {
    if !Present(email) || !Present(password) {
      return SignupMissingFields;
    }
    var existing := FindUserByEmail(db.users, email.value);
    if existing.Some? {
      return EmailAlreadyUsed;
    }
    var user := db.CreateUser(email.value, hashOf(password.value), now);
    r := SignedUp(Claims(user.id, user.email));
  }

  /** Signup keeps stored e-mails pairwise distinct. */
  lemma SignupKeepsEmailsUnique(users: seq<User>, email: Option<string>, password: Option<string>, hashOf: string -> string, now: nat)
    requires UniqueEmails(users)
    ensures UniqueEmails(SignupStep(users, email, password, hashOf, now).users)
  {
  }

  /** The duplicate check is case-insensitive: once `e1` is registered, any
      `e2` that lower-cases to the same address is refused. */
  lemma CaseVariantIsDuplicate(users: seq<User>, e1: string, e2: string, p1: string, p2: string, hashOf: string -> string, t1: nat, t2: nat)
    requires |e1| > 0 && |e2| > 0 && |p1| > 0 && |p2| > 0
    requires Lower(e1) == Lower(e2)
    requires SignupStep(users, Some(e1), Some(p1), hashOf, t1).outcome.SignedUp?
    ensures SignupStep(SignupStep(users, Some(e1), Some(p1), hashOf, t1).users, Some(e2), Some(p2), hashOf, t2).outcome == EmailAlreadyUsed
  {
    var users1 := SignupStep(users, Some(e1), Some(p1), hashOf, t1).users;
    assert users1[|users|].email == Lower(e2);
  }

  /** An instance: `A@x.com` blocks a later `a@x.com`. */
  lemma UpperCaseSignupBlocksLowerCase(hashOf: string -> string)
    ensures var users1 := SignupStep([], Some("A@x.com"), Some("pw"), hashOf, 1).users;
      SignupStep(users1, Some("a@x.com"), Some("other"), hashOf, 2).outcome == EmailAlreadyUsed
  {
    assert Lower("A@x.com") == "a@x.com";
    assert Lower("a@x.com") == "a@x.com";
    CaseVariantIsDuplicate([], "A@x.com", "a@x.com", "pw", "other", hashOf, 1, 2);
  }

  // ---------------------------------------------------------------- login

  datatype LoginOutcome =
    | LoginMissingFields       // 400 `Missing fields`
    | InvalidCredentials       // 401 `Invalid credentials`
    | LoggedIn(claims: Claims)

  /** `POST /api/login`: the first user with the lower-cased e-mail, if the
      password matches its hash. */
  function Login(users: seq<User>, email: Option<string>, password: Option<string>, hashOf: string -> string): (r: LoginOutcome)
    ensures r == LoginMissingFields <==> !Present(email) || !Present(password)
    ensures r.LoggedIn? ==>
      exists i :: 0 <= i < |users| && users[i].email == Lower(email.value)
        && users[i].passwordHash == hashOf(password.value) && r.claims == Claims(users[i].id, users[i].email)
    ensures Present(email) && Present(password)
      && (forall i :: 0 <= i < |users| ==> users[i].email != Lower(email.value) || users[i].passwordHash != hashOf(password.value))
      ==> r == InvalidCredentials
  {
    if !Present(email) || !Present(password) then LoginMissingFields
    else match FindUserByEmail(users, email.value)
      case None => InvalidCredentials
      case Some(u) => if u.passwordHash == hashOf(password.value) then LoggedIn(Claims(u.id, u.email)) else InvalidCredentials
  }

  /** With unique e-mails, login succeeds exactly for a stored e-mail and a
      password that hashes to its stored hash. */
  lemma LoginSucceedsIffCredentialsMatch(users: seq<User>, email: string, password: string, hashOf: string -> string)
    requires UniqueEmails(users)
    requires |email| > 0 && |password| > 0
    ensures Login(users, Some(email), Some(password), hashOf).LoggedIn? <==>
      exists i :: 0 <= i < |users| && users[i].email == Lower(email) && users[i].passwordHash == hashOf(password)
  {
    if i :| 0 <= i < |users| && users[i].email == Lower(email) && users[i].passwordHash == hashOf(password) {
      var u := FindUserByEmail(users, email).value;
      var k := UserIndexByEmail(users, email).value;
      assert users[k] == u;
      assert k == i;
    }
  }

  /** An unknown e-mail and a wrong password give the same answer. */
  lemma LoginFailuresLookAlike(users: seq<User>, email: string, p1: string, p2: string, other: string, hashOf: string -> string)
    requires |email| > 0 && |p1| > 0 && |p2| > 0 && |other| > 0
    requires FindUserByEmail(users, email).Some? && FindUserByEmail(users, email).value.passwordHash != hashOf(p1)
    requires FindUserByEmail(users, other).None?
    ensures Login(users, Some(email), Some(p1), hashOf) == Login(users, Some(other), Some(p2), hashOf) == InvalidCredentials
  {
  }

  /** Whoever signs up can log in with the same e-mail (in any letter case)
      and password, and gets the claims signup returned. */
  lemma SignupThenLogin(users: seq<User>, email: string, password: string, loginEmail: string, hashOf: string -> string, now: nat)
    requires |email| > 0 && |password| > 0 && |loginEmail| > 0 && Lower(loginEmail) == Lower(email)
    requires SignupStep(users, Some(email), Some(password), hashOf, now).outcome.SignedUp?
    ensures var s := SignupStep(users, Some(email), Some(password), hashOf, now);
      Login(s.users, Some(loginEmail), Some(password), hashOf) == LoggedIn(s.outcome.claims)
  {
    var s := SignupStep(users, Some(email), Some(password), hashOf, now);
    var k := UserIndexByEmail(s.users, loginEmail);
    assert s.users[|users|].email == Lower(loginEmail);
    assert forall i :: 0 <= i < |users| ==> s.users[i] == users[i];
    assert k == Some(|users|);
  }

  // ------------------------------------------------------------------- me

  /** The user fields `/api/me` exposes; the password hash is not one of them. */
  datatype PublicUser = PublicUser(id: nat, email: string, stripeCustomerId: Option<string>, createdAt: nat)

  datatype MeReply =
    | UserNotFound  // 404
    | MeOk(user: PublicUser, subscriptions: seq<Subscription>)

  /** `GET /api/me` for the token's user id. */
  function Me(d: Doc, userId: int): (r: MeReply)
    ensures r.UserNotFound? <==> forall i :: 0 <= i < |d.users| ==> d.users[i].id != userId
    ensures r.MeOk? ==>
      exists i :: 0 <= i < |d.users| && d.users[i].id == userId
        && r.user == PublicUser(d.users[i].id, d.users[i].email, d.users[i].stripeCustomerId, d.users[i].createdAt)
    ensures r.MeOk? ==> r.subscriptions == GetSubscriptionsForUser(d.subscriptions, userId)
  {
    match FindUserById(d.users, userId)
    case None => UserNotFound
    case Some(u) => MeOk(PublicUser(u.id, u.email, u.stripeCustomerId, u.createdAt), GetSubscriptionsForUser(d.subscriptions, userId))
  }

  // --------------------------------------------------------------- alerts

  datatype AlertGate =
    | AlertForbidden        // 403 `Requires active subscription`
    | AlertMissingCriteria  // 400 `Missing criteria`
    | AlertAllowed

  /** `POST /api/alerts` checks the subscription before it looks at the body. */
  function CheckAlertRequest(subs: seq<Subscription>, userId: int, criteria: Option<Json>): (r: AlertGate)
    ensures !UserHasActiveSubscription(subs, userId) ==> r == AlertForbidden
    ensures UserHasActiveSubscription(subs, userId) && !Truthy(criteria) ==> r == AlertMissingCriteria
    ensures r == AlertAllowed <==> UserHasActiveSubscription(subs, userId) && Truthy(criteria)
  {
    if !UserHasActiveSubscription(subs, userId) then AlertForbidden
    else if !Truthy(criteria) then AlertMissingCriteria
    else AlertAllowed
  }

  datatype AlertReply = AlertRefused(reason: AlertGate) | AlertCreated(alert: Alert)

  /** `POST /api/alerts`: stores the alert only when the gate allows it. */
  method PostAlert(db: Store.Db, userId: int, criteria: Option<Json>, now: nat) returns (r: AlertReply)
    modifies db
    ensures var gate := CheckAlertRequest(old(db.subscriptions), userId, criteria);
      && (gate != AlertAllowed ==> r == AlertRefused(gate) && db.Snapshot() == old(db.Snapshot()))
      && (gate == AlertAllowed ==>
            && r == AlertCreated(NewAlert(old(db.alerts), userId, criteria.value, now))
            && db.alerts == old(db.alerts) + [r.alert]
            && db.users == old(db.users) && db.subscriptions == old(db.subscriptions) && db.deals == old(db.deals))
    ensures old(db.Valid()) ==> db.Valid()
  {
    var gate := CheckAlertRequest(db.subscriptions, userId, criteria);
    if gate != AlertAllowed {
      return AlertRefused(gate);
    }
    var alert := db.AddAlert(userId, criteria.value, now);
    r := AlertCreated(alert);
  }

  /** A user without an entitling subscription is refused even when the body
      also lacks criteria; an entitled user gets the body check. */
  lemma SubscriptionCheckedBeforeCriteria(subs: seq<Subscription>, userId: int)
    ensures !UserHasActiveSubscription(subs, userId) ==> CheckAlertRequest(subs, userId, None) == AlertForbidden
    ensures UserHasActiveSubscription(subs, userId) ==> CheckAlertRequest(subs, userId, None) == AlertMissingCriteria
  {
  }

  datatype DeleteReply = AlertNotFound | AlertDeleted

  /** `DELETE /api/alerts/:id`; `alertId` is None when the path segment is not
      a number (`Number` yields NaN, which matches no id). */
  method DeleteAlertRoute(db: Store.Db, userId: int, alertId: Option<int>) returns (r: DeleteReply)
    modifies db
    ensures alertId.None? ==> r == AlertNotFound && db.Snapshot() == old(db.Snapshot())
    ensures alertId.Some? ==>
      && db.alerts == AlertsWithout(old(db.alerts), alertId.value, userId)
      && db.users == old(db.users) && db.subscriptions == old(db.subscriptions) && db.deals == old(db.deals)
    ensures alertId.Some? ==> (r == AlertNotFound <==>
      forall j :: 0 <= j < |old(db.alerts)| ==> !(old(db.alerts)[j].id == alertId.value && old(db.alerts)[j].userId == userId))
    ensures old(db.Valid()) ==> db.Valid()
  {
    if alertId.None? {
      return AlertNotFound;
    }
    var deleted := db.DeleteAlert(alertId.value, userId);
    r := if deleted.Some? then AlertDeleted else AlertNotFound;
  }

  // ---------------------------------------------------------------- deals

  datatype DealReply = MissingInputOrMetrics | DealSaved(deal: Deal)

  /** `POST /api/deals` needs a truthy `input` and `metrics`; it does not look
      at the caller's subscription. */
  method PostDeal(
    db: Store.Db, userId: int, title: Option<Json>, location: Option<Json>, input: Option<Json>, metrics: Option<Json>,
    tags: Option<Json>, note: Option<Json>, now: nat) returns (r: DealReply)
    modifies db
    ensures !Truthy(input) || !Truthy(metrics) ==> r == MissingInputOrMetrics && db.Snapshot() == old(db.Snapshot())
    ensures Truthy(input) && Truthy(metrics) ==>
      && r == DealSaved(NewDeal(old(db.deals), userId, title, location, input.value, metrics.value, tags, note, now))
      && db.deals == old(db.deals) + [r.deal]
      && db.users == old(db.users) && db.subscriptions == old(db.subscriptions) && db.alerts == old(db.alerts)
    ensures old(db.Valid()) ==> db.Valid()
  {
    if !Truthy(input) || !Truthy(metrics) {
      return MissingInputOrMetrics;
    }
    var deal := db.AddDealRecord(userId, title, location, input.value, metrics.value, tags, note, now);
    r := DealSaved(deal);
  }

  datatype PatchReply = DealNotFound | DealUpdated(deal: Deal)

  /** `PATCH /api/deals/:id`; `dealId` is None when the path segment is not a
      number. */
  method PatchDeal(db: Store.Db, userId: int, dealId: Option<int>, tags: Option<Json>, note: Option<Json>, now: nat)
    returns (r: PatchReply)
    modifies db
    ensures dealId.None? ==> r == DealNotFound && db.Snapshot() == old(db.Snapshot())
    ensures dealId.Some? ==>
      && db.deals == UpdatedDeals(old(db.deals), userId, dealId.value, tags, note, now)
      && db.users == old(db.users) && db.subscriptions == old(db.subscriptions) && db.alerts == old(db.alerts)
    ensures dealId.Some? ==> (r == DealNotFound <==>
      forall j :: 0 <= j < |old(db.deals)| ==> !(old(db.deals)[j].id == dealId.value && old(db.deals)[j].userId == userId))
    ensures r.DealUpdated? ==> r.deal in db.deals && r.deal.userId == userId
    ensures old(db.Valid()) ==> db.Valid()
  {
    if dealId.None? {
      return DealNotFound;
    }
    var updated := db.UpdateDealRecord(userId, dealId.value, tags, note, now);
    r := if updated.Some? then DealUpdated(updated.value) else DealNotFound;
  }
}
