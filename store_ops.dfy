/** The store helpers of the backend as functions from the collections they
    read to the collections they write back (the specification the methods of
    `Store.Db` are proved against), with the properties each one keeps. */
module StoreOps {
  import opened Base
  import opened Ids
  import opened Seqs
  import opened Records

  // ---------------------------------------------------------------- users

  function UserIndexById(users: seq<User>, id: int): Option<nat>
  {
    FirstIndex(users, (u: User) => u.id == id)
  }

  /** `findUserById`: the first user with this id. */
  function FindUserById(users: seq<User>, id: int): (r: Option<User>)
    ensures r.Some? ==> r.value in users && r.value.id == id
    ensures r.None? <==> forall i :: 0 <= i < |users| ==> users[i].id != id
    ensures r.Some? ==>
      exists i :: 0 <= i < |users| && users[i] == r.value && forall j :: 0 <= j < i ==> users[j].id != id
  {
    match UserIndexById(users, id)
    case None => None
    case Some(i) => Some(users[i])
  }

  function UserIndexByEmail(users: seq<User>, email: string): Option<nat>
  {
    FirstIndex(users, (u: User) => u.email == Lower(email))
  }

  /** `findUserByEmail`: the query is lower-cased, the stored e-mail is not. */
  function FindUserByEmail(users: seq<User>, email: string): (r: Option<User>)
    ensures r.Some? ==> r.value in users && r.value.email == Lower(email)
    ensures r.None? <==> forall i :: 0 <= i < |users| ==> users[i].email != Lower(email)
    ensures r.Some? ==>
      exists i :: 0 <= i < |users| && users[i] == r.value && forall j :: 0 <= j < i ==> users[j].email != Lower(email)
  {
    match UserIndexByEmail(users, email)
    case None => None
    case Some(i) => Some(users[i])
  }

  function UserIndexByCustomer(users: seq<User>, customerId: string): Option<nat>
  {
    FirstIndex(users, (u: User) => u.stripeCustomerId == Some(customerId))
  }

  /** `findUserByStripeCustomer`: the first user linked to this Stripe
      customer. Customer ids are not unique: a checkout can link a second user
      to a customer already linked to another. */
  function FindUserByStripeCustomer(users: seq<User>, customerId: string): (r: Option<User>)
    ensures r.Some? ==> r.value in users && r.value.stripeCustomerId == Some(customerId)
    ensures r.None? <==> forall i :: 0 <= i < |users| ==> users[i].stripeCustomerId != Some(customerId)
    ensures r.Some? ==>
      exists i :: 0 <= i < |users| && users[i] == r.value && forall j :: 0 <= j < i ==> users[j].stripeCustomerId != Some(customerId)
  {
    match UserIndexByCustomer(users, customerId)
    case None => None
    case Some(i) => Some(users[i])
  }

  /** The record `createUser` appends. */
  function NewUser(users: seq<User>, email: string, passwordHash: string, now: nat): (r: User)
    ensures forall i :: 0 <= i < |users| ==> users[i].id < r.id
    ensures Lower(r.email) == r.email && |r.email| == |email|
    ensures r.stripeCustomerId == None && r.createdAt == now
  {
    assert forall i :: 0 <= i < |users| ==> UserIds(users)[i] == users[i].id;
    LowerIsNormalForm(email);
    User(NextId(UserIds(users)), Lower(email), passwordHash, None, now)
  }

  /** `updateUserStripeCustomerId`: the users array after the write. */
  function SetCustomerRows(users: seq<User>, userId: int, customerId: string): (r: seq<User>)
    ensures |r| == |users| && UserIds(r) == UserIds(users)
    ensures forall i :: 0 <= i < |users| ==> r[i].email == users[i].email && r[i].passwordHash == users[i].passwordHash
  {
    match UserIndexById(users, userId)
    case None => users
    case Some(i) => users[i := users[i].(stripeCustomerId := Some(customerId))]
  }

  /** The first user with the id, and only it, gets the customer id; no other
      field of any user changes; without such a user nothing changes. */
  lemma SetCustomerFrame(users: seq<User>, userId: int, customerId: string)
    ensures var r := SetCustomerRows(users, userId, customerId);
      && |r| == |users|
      && (forall j :: 0 <= j < |users| ==> r[j].(stripeCustomerId := users[j].stripeCustomerId) == users[j])
      && (forall j :: 0 <= j < |users| && users[j].id != userId ==> r[j] == users[j])
      && (FindUserById(users, userId).None? ==> r == users)
      && (FindUserById(users, userId).Some? ==> FindUserById(r, userId) == Some(FindUserById(users, userId).value.(stripeCustomerId := Some(customerId))))
  {
    var r := SetCustomerRows(users, userId, customerId);
    match UserIndexById(users, userId)
    case None =>
    case Some(i) =>
      assert UserIndexById(r, userId) == Some(i) by {
        assert r[i].id == userId;
        assert forall j :: 0 <= j < i ==> r[j] == users[j];
        FirstIndexAt(r, (u: User) => u.id == userId, i);
      }
  }

  /** `FirstIndex` is determined by the first position satisfying `p`. */
  lemma FirstIndexAt<T>(s: seq<T>, p: T -> bool, i: nat)
    requires i < |s| && p(s[i]) && forall j :: 0 <= j < i ==> !p(s[j])
    ensures FirstIndex(s, p) == Some(i)
  {
  }

  /** Setting the same customer id twice is setting it once. */
  lemma SetCustomerIdempotent(users: seq<User>, userId: int, customerId: string)
    ensures SetCustomerRows(SetCustomerRows(users, userId, customerId), userId, customerId)
         == SetCustomerRows(users, userId, customerId)
  {
    SetCustomerFrame(users, userId, customerId);
    var r := SetCustomerRows(users, userId, customerId);
    match UserIndexById(users, userId)
    case None =>
    case Some(i) =>
      FirstIndexAt(r, (u: User) => u.id == userId, i);
      assert r[i := r[i].(stripeCustomerId := Some(customerId))] == r;
  }

  // -------------------------------------------------------- subscriptions

  /** The arguments of `upsertSubscription`. */
  datatype UpsertRequest = UpsertRequest(
    userId: Option<int>,
    ref: string,
    plan: Option<string>,
    billingPeriod: Option<string>,
    status: string)

  function SubscriptionIndexByRef(subs: seq<Subscription>, ref: string): Option<nat>
  {
    FirstIndex(subs, (s: Subscription) => s.stripeSubscriptionId == ref)
  }

  /** `findSubscriptionByStripeId`. */
  function FindSubscriptionByStripeId(subs: seq<Subscription>, ref: string): (r: Option<Subscription>)
    ensures r.Some? ==> r.value in subs && r.value.stripeSubscriptionId == ref
    ensures r.None? <==> forall i :: 0 <= i < |subs| ==> subs[i].stripeSubscriptionId != ref
  {
    match SubscriptionIndexByRef(subs, ref)
    case None => None
    case Some(i) => Some(subs[i])
  }

  /** The four field writes on an existing row. */
  function Overwrite(s: Subscription, req: UpsertRequest, now: nat): (r: Subscription)
    ensures r.id == s.id && r.userId == s.userId && r.stripeSubscriptionId == s.stripeSubscriptionId
    ensures r.createdAt == s.createdAt
  {
    s.(status := req.status, plan := req.plan, billingPeriod := req.billingPeriod, updatedAt := now)
  }

  /** The row appended for an unknown Stripe subscription id. */
  function NewSubscription(subs: seq<Subscription>, req: UpsertRequest, now: nat): (r: Subscription)
    ensures forall i :: 0 <= i < |subs| ==> subs[i].id < r.id
    ensures r.userId == req.userId && r.stripeSubscriptionId == req.ref
    ensures r.createdAt == now && r.updatedAt == now
  {
    assert forall i :: 0 <= i < |subs| ==> SubscriptionIds(subs)[i] == subs[i].id;
    Subscription(NextId(SubscriptionIds(subs)), req.userId, req.ref, req.plan, req.billingPeriod, req.status, now, now)
  }

  /** `upsertSubscription`: the subscriptions array after the write. */
  function UpsertRows(subs: seq<Subscription>, req: UpsertRequest, now: nat): (r: seq<Subscription>)
    ensures FindSubscriptionByStripeId(subs, req.ref).Some? ==> |r| == |subs|
    ensures FindSubscriptionByStripeId(subs, req.ref).None? ==> |r| == |subs| + 1 && r[..|subs|] == subs
  {
    match SubscriptionIndexByRef(subs, req.ref)
    case Some(i) => subs[i := Overwrite(subs[i], req, now)]
    case None => subs + [NewSubscription(subs, req, now)]
  }

  /** The row `upsertSubscription` returns. */
  function UpsertedRow(subs: seq<Subscription>, req: UpsertRequest, now: nat): Subscription
  {
    match SubscriptionIndexByRef(subs, req.ref)
    case Some(i) => Overwrite(subs[i], req, now)
    case None => NewSubscription(subs, req, now)
  }

  /** An existing row (the first with the Stripe id) gets only its status,
      plan, billing period and `updated_at` overwritten; its id, owner and
      `created_at` stay, and every other row stays. */
  lemma UpsertExisting(subs: seq<Subscription>, req: UpsertRequest, now: nat, i: nat)
    requires i < |subs| && subs[i].stripeSubscriptionId == req.ref
    requires forall j :: 0 <= j < i ==> subs[j].stripeSubscriptionId != req.ref
    ensures var r := UpsertRows(subs, req, now);
      && |r| == |subs|
      && r[i].id == subs[i].id && r[i].userId == subs[i].userId
      && r[i].stripeSubscriptionId == req.ref && r[i].createdAt == subs[i].createdAt
      && r[i].status == req.status && r[i].plan == req.plan
      && r[i].billingPeriod == req.billingPeriod && r[i].updatedAt == now
      && (forall j :: 0 <= j < |subs| && j != i ==> r[j] == subs[j])
      && UpsertedRow(subs, req, now) == r[i]
  {
    FirstIndexAt(subs, (s: Subscription) => s.stripeSubscriptionId == req.ref, i);
  }

  /** An unknown Stripe id appends exactly one row, whose id is greater than
      every stored id and whose owner is the one requested. */
  lemma UpsertAppends(subs: seq<Subscription>, req: UpsertRequest, now: nat)
    requires forall j :: 0 <= j < |subs| ==> subs[j].stripeSubscriptionId != req.ref
    ensures var r := UpsertRows(subs, req, now);
      && |r| == |subs| + 1 && r[..|subs|] == subs
      && (forall j :: 0 <= j < |subs| ==> subs[j].id < r[|subs|].id)
      && r[|subs|].id == NextId(SubscriptionIds(subs))
      && r[|subs|].userId == req.userId && r[|subs|].stripeSubscriptionId == req.ref
      && r[|subs|].status == req.status && r[|subs|].plan == req.plan
      && r[|subs|].billingPeriod == req.billingPeriod
      && r[|subs|].createdAt == now && r[|subs|].updatedAt == now
      && UpsertedRow(subs, req, now) == r[|subs|]
  {
    var ids := SubscriptionIds(subs);
    forall j | 0 <= j < |subs| ensures subs[j].id < NextId(ids) {
      assert ids[j] == subs[j].id;
    }
  }

  /** After the upsert the first row carrying the Stripe id holds the
      requested status, plan and period: the last event processed wins. */
  lemma UpsertLastWriteWins(subs: seq<Subscription>, req: UpsertRequest, now: nat)
    ensures FindSubscriptionByStripeId(UpsertRows(subs, req, now), req.ref) == Some(UpsertedRow(subs, req, now))
    ensures UpsertedRow(subs, req, now).status == req.status
    ensures UpsertedRow(subs, req, now).plan == req.plan
    ensures UpsertedRow(subs, req, now).billingPeriod == req.billingPeriod
  {
    var r := UpsertRows(subs, req, now);
    match SubscriptionIndexByRef(subs, req.ref)
    case Some(i) =>
      UpsertExisting(subs, req, now, i);
      FirstIndexAt(r, (s: Subscription) => s.stripeSubscriptionId == req.ref, i);
    case None =>
      UpsertAppends(subs, req, now);
      FirstIndexAt(r, (s: Subscription) => s.stripeSubscriptionId == req.ref, |subs|);
  }

  /** The upsert never creates a second row for a Stripe id: with one row per
      id before, there is one row per id after, and one row for this id. */
  lemma UpsertKeepsRefsUnique(subs: seq<Subscription>, req: UpsertRequest, now: nat)
    requires UniqueRefs(subs)
    ensures UniqueRefs(UpsertRows(subs, req, now))
    ensures FindSubscriptionByStripeId(UpsertRows(subs, req, now), req.ref).Some?
  {
    UpsertLastWriteWins(subs, req, now);
    match SubscriptionIndexByRef(subs, req.ref)
    case Some(i) =>
      UpsertExisting(subs, req, now, i);
    case None =>
      UpsertAppends(subs, req, now);
  }

  /** Rows that agree on everything except `updated_at`. */
  ghost predicate SameExceptUpdatedAt(a: seq<Subscription>, b: seq<Subscription>)
  {
    |a| == |b| && forall i :: 0 <= i < |a| ==> a[i].(updatedAt := 0) == b[i].(updatedAt := 0)
  }

  /** Applying the same upsert twice leaves the rows of applying it once,
      apart from `updated_at`. */
  lemma UpsertIdempotent(subs: seq<Subscription>, req: UpsertRequest, t1: nat, t2: nat)
    ensures SameExceptUpdatedAt(UpsertRows(UpsertRows(subs, req, t1), req, t2), UpsertRows(subs, req, t1))
  {
    var once := UpsertRows(subs, req, t1);
    var twice := UpsertRows(once, req, t2);
    match SubscriptionIndexByRef(subs, req.ref)
    case Some(i) =>
      UpsertExisting(subs, req, t1, i);
      UpsertExisting(once, req, t2, i);
    case None =>
      UpsertAppends(subs, req, t1);
      UpsertExisting(once, req, t2, |subs|);
  }

  // --------------------------------------------------------------- alerts

  /** The record `addAlert` appends. */
  function NewAlert(alerts: seq<Alert>, userId: int, criteria: Json, now: nat): (r: Alert)
    ensures forall i :: 0 <= i < |alerts| ==> alerts[i].id < r.id
    ensures r.userId == userId && r.criteria == criteria && r.emailSentCount == 0
  {
    assert forall i :: 0 <= i < |alerts| ==> AlertIds(alerts)[i] == alerts[i].id;
    Alert(NextId(AlertIds(alerts)), userId, criteria, 0, now)
  }

  function AlertIndexById(alerts: seq<Alert>, alertId: int): Option<nat>
  {
    FirstIndex(alerts, (a: Alert) => a.id == alertId)
  }

  /** `incrementAlertEmailCount`: the alerts array after the write. */
  function IncrementedAlerts(alerts: seq<Alert>, alertId: int): (r: seq<Alert>)
    ensures |r| == |alerts| && AlertIds(r) == AlertIds(alerts)
    ensures forall i :: 0 <= i < |alerts| ==> r[i].emailSentCount >= alerts[i].emailSentCount
  {
    match AlertIndexById(alerts, alertId)
    case None => alerts
    case Some(i) => alerts[i := alerts[i].(emailSentCount := alerts[i].emailSentCount + 1)]
  }

  /** `j` is the first alert with this id. */
  ghost predicate FirstWithId(alerts: seq<Alert>, alertId: int, j: int)
  {
    0 <= j < |alerts| && alerts[j].id == alertId && forall k :: 0 <= k < j ==> alerts[k].id != alertId
  }

  /** Only the counter of the first alert with the id moves, by one; every
      other field and every other alert stays. */
  lemma IncrementCountsOnce(alerts: seq<Alert>, alertId: int)
    ensures var r := IncrementedAlerts(alerts, alertId);
      && |r| == |alerts|
      && (forall j :: 0 <= j < |alerts| ==> r[j].(emailSentCount := alerts[j].emailSentCount) == alerts[j])
      && (forall j :: 0 <= j < |alerts| ==>
            r[j].emailSentCount == alerts[j].emailSentCount + (if FirstWithId(alerts, alertId, j) then 1 else 0))
      && ((forall j :: 0 <= j < |alerts| ==> alerts[j].id != alertId) ==> r == alerts)
  {
    match AlertIndexById(alerts, alertId)
    case None =>
    case Some(i) =>
      forall j | 0 <= j < |alerts| ensures FirstWithId(alerts, alertId, j) <==> j == i {
      }
  }

  function AlertIndexForOwner(alerts: seq<Alert>, alertId: int, userId: int): Option<nat>
  {
    FirstIndex(alerts, (a: Alert) => a.id == alertId && a.userId == userId)
  }

  /** `deleteAlert`: the alerts array after the `splice`. */
  function AlertsWithout(alerts: seq<Alert>, alertId: int, userId: int): (r: seq<Alert>)
    ensures |r| == |alerts| || |r| == |alerts| - 1
    ensures multiset(r) <= multiset(alerts)
  {
    match AlertIndexForOwner(alerts, alertId, userId)
    case None => alerts
    case Some(i) =>
      assert alerts == alerts[..i] + [alerts[i]] + alerts[i + 1..];
      alerts[..i] + alerts[i + 1..]
  }

  /** `j` is the first alert with this id and this owner. */
  ghost predicate FirstOwnedMatch(alerts: seq<Alert>, alertId: int, userId: int, j: int)
  {
    && 0 <= j < |alerts| && alerts[j].id == alertId && alerts[j].userId == userId
    && forall k :: 0 <= k < j ==> !(alerts[k].id == alertId && alerts[k].userId == userId)
  }

  /** Deletion removes exactly the first alert matching both id and owner and
      keeps the others in order; without a match nothing changes; no alert of
      another owner is ever removed. */
  lemma DeleteRemovesFirstOwnedMatch(alerts: seq<Alert>, alertId: int, userId: int)
    ensures var r := AlertsWithout(alerts, alertId, userId);
      && (forall j :: FirstOwnedMatch(alerts, alertId, userId, j) ==> r == alerts[..j] + alerts[j + 1..])
      && ((forall j :: 0 <= j < |alerts| ==> !(alerts[j].id == alertId && alerts[j].userId == userId)) ==> r == alerts)
      && (forall a: Alert :: a.userId != userId ==> multiset(r)[a] == multiset(alerts)[a])
  {
    var r := AlertsWithout(alerts, alertId, userId);
    match AlertIndexForOwner(alerts, alertId, userId)
    case None =>
    case Some(i) =>
      forall j | FirstOwnedMatch(alerts, alertId, userId, j) ensures j == i {
      }
      assert alerts == alerts[..i] + [alerts[i]] + alerts[i + 1..];
      assert multiset(alerts) == multiset(r) + multiset{alerts[i]};
  }

  /** An alert together with its owner's e-mail (`undefined` when the owner
      is gone), as `alertsPending` returns it. */
  datatype PendingAlert = PendingAlert(alert: Alert, email: Option<string>)

  function OwnerEmail(users: seq<User>, userId: int): Option<string>
  {
    match FindUserById(users, userId)
    case None => None
    case Some(u) => Some(u.email)
  }

  predicate UnderCeiling(a: Alert)
  {
    a.emailSentCount < 999
  }

  function AlertsOf(pending: seq<PendingAlert>): seq<Alert>
  {
    seq(|pending|, i requires 0 <= i < |pending| => pending[i].alert)
  }

  /** `alertsPending`: the alerts whose counter is below the ceiling of 999,
      in stored order, each with its owner's e-mail. */
  function AlertsPending(users: seq<User>, alerts: seq<Alert>): (r: seq<PendingAlert>)
    ensures AlertsOf(r) == Filter(alerts, UnderCeiling)
    ensures forall i :: 0 <= i < |r| ==> r[i].email == OwnerEmail(users, r[i].alert.userId)
  {
    if |alerts| == 0 then []
    else
      var rest := AlertsPending(users, alerts[1..]);
      if UnderCeiling(alerts[0]) then
        var r := [PendingAlert(alerts[0], OwnerEmail(users, alerts[0].userId))] + rest;
        assert AlertsOf(r) == [alerts[0]] + AlertsOf(rest);
        r
      else rest
  }

  function AlertCreatedAt(a: Alert): nat
  {
    a.createdAt
  }

  /** The `GET /api/alerts` listing: the caller's alerts, newest first. */
  function ListAlertsForUser(alerts: seq<Alert>, userId: int): (r: seq<Alert>)
    ensures forall i :: 0 <= i < |r| ==> r[i].userId == userId
    ensures multiset(r) == multiset(Filter(alerts, (a: Alert) => a.userId == userId))
    ensures NewestFirst(r, AlertCreatedAt)
  {
    var mine := Filter(alerts, (a: Alert) => a.userId == userId);
    var r := SortNewestFirst(mine, AlertCreatedAt);
    assert forall i :: 0 <= i < |r| ==> r[i] in multiset(mine);
    r
  }

  // ---------------------------------------------------------------- deals

  /** The record `addDealRecord` appends: `title || null`,
      `location || null`, `tags || []`, `note || ""`. */
  function NewDeal(
    deals: seq<Deal>, userId: int, title: Option<Json>, location: Option<Json>,
    input: Json, metrics: Json, tags: Option<Json>, note: Option<Json>, now: nat): (r: Deal)
    ensures forall i :: 0 <= i < |deals| ==> deals[i].id < r.id
    ensures r.userId == userId && r.input == input && r.metrics == metrics
    ensures r.createdAt == now && r.updatedAt == now
  {
    assert forall i :: 0 <= i < |deals| ==> DealIds(deals)[i] == deals[i].id;
    Deal(
      NextId(DealIds(deals)), userId,
      if Truthy(title) then title.value else JNull,
      if Truthy(location) then location.value else JNull,
      input, metrics,
      if Truthy(tags) then tags.value else JArr([]),
      if Truthy(note) then note.value else JStr(""),
      now, now)
  }

  function DealCreatedAt(d: Deal): nat
  {
    d.createdAt
  }

  /** `listDealsForUser`: the caller's deals, newest first. */
  function ListDealsForUser(deals: seq<Deal>, userId: int): (r: seq<Deal>)
    ensures forall i :: 0 <= i < |r| ==> r[i].userId == userId
    ensures multiset(r) == multiset(Filter(deals, (d: Deal) => d.userId == userId))
    ensures NewestFirst(r, DealCreatedAt)
  {
    var mine := Filter(deals, (d: Deal) => d.userId == userId);
    var r := SortNewestFirst(mine, DealCreatedAt);
    assert forall i :: 0 <= i < |r| ==> r[i] in multiset(mine);
    r
  }

  /** A saved deal is listed back to its owner with its `input` and
      `metrics` payloads exactly as submitted. */
  lemma DealRoundTrip(
    deals: seq<Deal>, userId: int, title: Option<Json>, location: Option<Json>,
    input: Json, metrics: Json, tags: Option<Json>, note: Option<Json>, now: nat)
    ensures var d := NewDeal(deals, userId, title, location, input, metrics, tags, note, now);
      && d in ListDealsForUser(deals + [d], userId)
      && d.input == input && d.metrics == metrics
  {
    var d := NewDeal(deals, userId, title, location, input, metrics, tags, note, now);
    var p := (x: Deal) => x.userId == userId;
    assert (deals + [d])[|deals|] == d;
    assert d in Filter(deals + [d], p);
    assert d in multiset(ListDealsForUser(deals + [d], userId));
  }

  function DealIndexForOwner(deals: seq<Deal>, dealId: int, userId: int): Option<nat>
  {
    FirstIndex(deals, (d: Deal) => d.id == dealId && d.userId == userId)
  }

  /** The `tags`/`note` writes: tags only when an array is given, note only
      when a string is given; `updated_at` always. */
  function Retagged(d: Deal, tags: Option<Json>, note: Option<Json>, now: nat): (r: Deal)
    ensures r.(tags := d.tags, note := d.note, updatedAt := d.updatedAt) == d
    ensures r.updatedAt == now
    ensures r.tags.JArr? || r.tags == d.tags
    ensures r.note.JStr? || r.note == d.note
  {
    d.(tags := if tags.Some? && tags.value.JArr? then tags.value else d.tags,
       note := if note.Some? && note.value.JStr? then note.value else d.note,
       updatedAt := now)
  }

  /** `updateDealRecord`: the deals array after the write. */
  function UpdatedDeals(deals: seq<Deal>, userId: int, dealId: int, tags: Option<Json>, note: Option<Json>, now: nat): (r: seq<Deal>)
    ensures |r| == |deals| && DealIds(r) == DealIds(deals)
    ensures forall i :: 0 <= i < |deals| && deals[i].userId != userId ==> r[i] == deals[i]
  {
    match DealIndexForOwner(deals, dealId, userId)
    case None => deals
    case Some(i) => deals[i := Retagged(deals[i], tags, note, now)]
  }

  /** Without a deal matching both id and owner nothing changes. On a match
      only that deal's tags, note and `updated_at` may change; its id, owner,
      title, location, input, metrics and `created_at` stay; deals of other
      owners never change. */
  lemma UpdateDealFrame(deals: seq<Deal>, userId: int, dealId: int, tags: Option<Json>, note: Option<Json>, now: nat)
    ensures var r := UpdatedDeals(deals, userId, dealId, tags, note, now);
      && |r| == |deals|
      && ((forall j :: 0 <= j < |deals| ==> !(deals[j].id == dealId && deals[j].userId == userId)) ==> r == deals)
      && (forall j :: 0 <= j < |deals| ==>
            r[j].(tags := deals[j].tags, note := deals[j].note, updatedAt := deals[j].updatedAt) == deals[j])
      && (forall j :: 0 <= j < |deals| && deals[j].userId != userId ==> r[j] == deals[j])
      && (forall j :: 0 <= j < |deals| && r[j] != deals[j] ==>
            && deals[j].id == dealId
            && r[j].updatedAt == now
            && r[j].tags == (if tags.Some? && tags.value.JArr? then tags.value else deals[j].tags)
            && r[j].note == (if note.Some? && note.value.JStr? then note.value else deals[j].note))
  {
  }

  // ---------------------------------------------- the document invariant

  lemma IdsOfAppend(users: seq<User>, u: User, subs: seq<Subscription>, s: Subscription,
                    alerts: seq<Alert>, a: Alert, deals: seq<Deal>, d: Deal)
    ensures UserIds(users + [u]) == UserIds(users) + [u.id]
    ensures SubscriptionIds(subs + [s]) == SubscriptionIds(subs) + [s.id]
    ensures AlertIds(alerts + [a]) == AlertIds(alerts) + [a.id]
    ensures DealIds(deals + [d]) == DealIds(deals) + [d.id]
  {
  }

  /** `createUser` keeps the document well formed. */
  lemma CreateUserKeepsWellFormed(d: Doc, email: string, passwordHash: string, now: nat)
    requires WellFormed(d)
    ensures WellFormed(d.(users := d.users + [NewUser(d.users, email, passwordHash, now)]))
  {
    var u := NewUser(d.users, email, passwordHash, now);
    IdsOfAppend(d.users, u, [], NewSubscription([], UpsertRequest(None, "", None, None, ""), 0), [], NewAlert([], 0, JNull, 0), [], NewDeal([], 0, None, None, JNull, JNull, None, None, 0));
    NextIdKeepsDistinct(UserIds(d.users));
    LowerIsNormalForm(email);
  }

  /** `updateUserStripeCustomerId` keeps the document well formed. */
  lemma SetCustomerKeepsWellFormed(d: Doc, userId: int, customerId: string)
    requires WellFormed(d)
    ensures WellFormed(d.(users := SetCustomerRows(d.users, userId, customerId)))
  {
    SetCustomerFrame(d.users, userId, customerId);
    assert UserIds(SetCustomerRows(d.users, userId, customerId)) == UserIds(d.users);
  }

  /** `upsertSubscription` keeps the document well formed. */
  lemma UpsertKeepsWellFormed(d: Doc, req: UpsertRequest, now: nat)
    requires WellFormed(d)
    ensures WellFormed(d.(subscriptions := UpsertRows(d.subscriptions, req, now)))
  {
    var subs := d.subscriptions;
    UpsertKeepsRefsUnique(subs, req, now);
    match SubscriptionIndexByRef(subs, req.ref)
    case Some(i) =>
      UpsertExisting(subs, req, now, i);
      assert SubscriptionIds(UpsertRows(subs, req, now)) == SubscriptionIds(subs);
    case None =>
      var s := NewSubscription(subs, req, now);
      assert SubscriptionIds(subs + [s]) == SubscriptionIds(subs) + [s.id];
      NextIdKeepsDistinct(SubscriptionIds(subs));
  }

  /** `addAlert` keeps the document well formed. */
  lemma AddAlertKeepsWellFormed(d: Doc, userId: int, criteria: Json, now: nat)
    requires WellFormed(d)
    ensures WellFormed(d.(alerts := d.alerts + [NewAlert(d.alerts, userId, criteria, now)]))
  {
    var a := NewAlert(d.alerts, userId, criteria, now);
    assert AlertIds(d.alerts + [a]) == AlertIds(d.alerts) + [a.id];
    NextIdKeepsDistinct(AlertIds(d.alerts));
  }

  /** `incrementAlertEmailCount` keeps the document well formed. */
  lemma IncrementKeepsWellFormed(d: Doc, alertId: int)
    requires WellFormed(d)
    ensures WellFormed(d.(alerts := IncrementedAlerts(d.alerts, alertId)))
  {
    IncrementCountsOnce(d.alerts, alertId);
    assert AlertIds(IncrementedAlerts(d.alerts, alertId)) == AlertIds(d.alerts);
  }

  /** `deleteAlert` keeps the document well formed. */
  lemma DeleteAlertKeepsWellFormed(d: Doc, alertId: int, userId: int)
    requires WellFormed(d)
    ensures WellFormed(d.(alerts := AlertsWithout(d.alerts, alertId, userId)))
  {
    match AlertIndexForOwner(d.alerts, alertId, userId)
    case None =>
    case Some(i) =>
      var ids := AlertIds(d.alerts);
      RemoveKeepsDistinct(ids, i);
      assert AlertIds(d.alerts[..i] + d.alerts[i + 1..]) == ids[..i] + ids[i + 1..];
  }

  /** `addDealRecord` keeps the document well formed. */
  lemma AddDealKeepsWellFormed(
    d: Doc, userId: int, title: Option<Json>, location: Option<Json>,
    input: Json, metrics: Json, tags: Option<Json>, note: Option<Json>, now: nat)
    requires WellFormed(d)
    ensures WellFormed(d.(deals := d.deals + [NewDeal(d.deals, userId, title, location, input, metrics, tags, note, now)]))
  {
    var x := NewDeal(d.deals, userId, title, location, input, metrics, tags, note, now);
    assert DealIds(d.deals + [x]) == DealIds(d.deals) + [x.id];
    NextIdKeepsDistinct(DealIds(d.deals));
  }

  /** `updateDealRecord` keeps the document well formed. */
  lemma UpdateDealKeepsWellFormed(d: Doc, userId: int, dealId: int, tags: Option<Json>, note: Option<Json>, now: nat)
    requires WellFormed(d)
    ensures WellFormed(d.(deals := UpdatedDeals(d.deals, userId, dealId, tags, note, now)))
  {
    UpdateDealFrame(d.deals, userId, dealId, tags, note, now);
    assert DealIds(UpdatedDeals(d.deals, userId, dealId, tags, note, now)) == DealIds(d.deals);
  }

  /** Three inserts into an empty collection get ids 1, 2 and 3. */
  lemma ThreeInsertsNumberFromOne(userId: int, c1: Json, c2: Json, c3: Json, t1: nat, t2: nat, t3: nat)
    ensures var a1 := NewAlert([], userId, c1, t1);
            var a2 := NewAlert([a1], userId, c2, t2);
            var a3 := NewAlert([a1, a2], userId, c3, t3);
            a1.id == 1 && a2.id == 2 && a3.id == 3
  {
    var a1 := NewAlert([], userId, c1, t1);
    var a2 := NewAlert([a1], userId, c2, t2);
    assert AlertIds([a1]) == [1];
    assert AlertIds([a1, a2]) == [1, 2];
  }
}
