/** The in-memory record store: the lowdb document as an object whose four
    arrays the helpers change in place. Each method is proved to leave exactly
    the collections its specification function in `StoreOps` describes, and
    to touch no other collection. */
module Store {
  import opened Base
  import opened Ids
  import opened Records
  import opened StoreOps

  class Db {
    var users: seq<User>
    var subscriptions: seq<Subscription>
    var alerts: seq<Alert>
    var deals: seq<Deal>

    /** The document as it would be written back. */
    function Snapshot(): Doc
      reads this
    {
      Doc(users, subscriptions, alerts, deals)
    }

    ghost predicate Valid()
      reads this
    {
      WellFormed(Snapshot())
    }

    /** `initDb`: the document read from disk, or four empty collections on
        the first run. */
    constructor Open(loaded: Option<Doc>)
      ensures Snapshot() == (if loaded.Some? then loaded.value else EmptyDoc)
    {
      var d := if loaded.Some? then loaded.value else EmptyDoc;
      users, subscriptions, alerts, deals := d.users, d.subscriptions, d.alerts, d.deals;
    }

    /** `createUser`: appends a user with the next id and the lower-cased
        e-mail, and no Stripe customer yet. */
    method CreateUser(email: string, passwordHash: string, now: nat) returns (user: User)
      modifies this
      ensures user == NewUser(old(users), email, passwordHash, now)
      ensures users == old(users) + [user]
      ensures subscriptions == old(subscriptions) && alerts == old(alerts) && deals == old(deals)
      ensures old(Valid()) ==> Valid()
    {
      ghost var before := Snapshot();
      var id := NextId(UserIds(users));
      user := User(id, Lower(email), passwordHash, None, now);
      users := users + [user];
      if WellFormed(before) {
        CreateUserKeepsWellFormed(before, email, passwordHash, now);
      }
    }

    /** `updateUserStripeCustomerId`: returns the updated user, or None when
        no user has the id. */
    method UpdateUserStripeCustomerId(userId: int, customerId: string) returns (r: Option<User>)
      modifies this
      ensures users == SetCustomerRows(old(users), userId, customerId)
      ensures r.None? <==> FindUserById(old(users), userId).None?
      ensures r.Some? ==> r.value.id == userId && r.value.stripeCustomerId == Some(customerId)
      ensures subscriptions == old(subscriptions) && alerts == old(alerts) && deals == old(deals)
      ensures old(Valid()) ==> Valid()
    {
      ghost var before := Snapshot();
      var idx := UserIndexById(users, userId);
      if idx.None? {
        return None;
      }
      var u := users[idx.value].(stripeCustomerId := Some(customerId));
      users := users[idx.value := u];
      r := Some(u);
      if WellFormed(before) {
        SetCustomerKeepsWellFormed(before, userId, customerId);
      }
    }

    /** `upsertSubscription`: overwrite the row with this Stripe id, or append
        a new one; returns the row as stored. */
    method UpsertSubscription(req: UpsertRequest, now: nat) returns (row: Subscription)
      modifies this
      ensures subscriptions == UpsertRows(old(subscriptions), req, now)
      ensures row == UpsertedRow(old(subscriptions), req, now)
      ensures users == old(users) && alerts == old(alerts) && deals == old(deals)
      ensures old(Valid()) ==> Valid()
    {
      ghost var before := Snapshot();
      var idx := SubscriptionIndexByRef(subscriptions, req.ref);
      if idx.Some? {
        var existing := subscriptions[idx.value];
        row := existing.(status := req.status, plan := req.plan, billingPeriod := req.billingPeriod, updatedAt := now);
        subscriptions := subscriptions[idx.value := row];
      } else {
        var id := NextId(SubscriptionIds(subscriptions));
        row := Subscription(id, req.userId, req.ref, req.plan, req.billingPeriod, req.status, now, now);
        subscriptions := subscriptions + [row];
      }
      if WellFormed(before) {
        UpsertKeepsWellFormed(before, req, now);
      }
    }

    /** `addAlert`: appends an alert with the next id and a zero counter. */
    method AddAlert(userId: int, criteria: Json, now: nat) returns (alert: Alert)
      modifies this
      ensures alert == NewAlert(old(alerts), userId, criteria, now)
      ensures alerts == old(alerts) + [alert]
      ensures users == old(users) && subscriptions == old(subscriptions) && deals == old(deals)
      ensures old(Valid()) ==> Valid()
    {
      ghost var before := Snapshot();
      var id := NextId(AlertIds(alerts));
      alert := Alert(id, userId, criteria, 0, now);
      alerts := alerts + [alert];
      if WellFormed(before) {
        AddAlertKeepsWellFormed(before, userId, criteria, now);
      }
    }

    /** `incrementAlertEmailCount`: returns the updated alert, or None when
        no alert has the id. */
    method IncrementAlertEmailCount(alertId: int) returns (r: Option<Alert>)
      modifies this
      ensures alerts == IncrementedAlerts(old(alerts), alertId)
      ensures r.None? <==> forall j :: 0 <= j < |old(alerts)| ==> old(alerts)[j].id != alertId
      ensures r.Some? ==> r.value in alerts && r.value.id == alertId
      ensures users == old(users) && subscriptions == old(subscriptions) && deals == old(deals)
      ensures old(Valid()) ==> Valid()
    {
      ghost var before := Snapshot();
      var idx := AlertIndexById(alerts, alertId);
      if idx.None? {
        return None;
      }
      var a := alerts[idx.value].(emailSentCount := alerts[idx.value].emailSentCount + 1);
      alerts := alerts[idx.value := a];
      assert alerts[idx.value] == a;
      r := Some(a);
      if WellFormed(before) {
        IncrementKeepsWellFormed(before, alertId);
      }
    }

    /** `deleteAlert`: splices out the first alert with this id and owner and
        returns it, or returns None and changes nothing. */
    method DeleteAlert(alertId: int, userId: int) returns (r: Option<Alert>)
      modifies this
      ensures alerts == AlertsWithout(old(alerts), alertId, userId)
      ensures r.None? <==> forall j :: 0 <= j < |old(alerts)| ==> !(old(alerts)[j].id == alertId && old(alerts)[j].userId == userId)
      ensures r.Some? ==> r.value in old(alerts) && r.value.id == alertId && r.value.userId == userId
      ensures users == old(users) && subscriptions == old(subscriptions) && deals == old(deals)
      ensures old(Valid()) ==> Valid()
    {
      ghost var before := Snapshot();
      var idx := AlertIndexForOwner(alerts, alertId, userId);
      if idx.None? {
        return None;
      }
      var i := idx.value;
      r := Some(alerts[i]);
      alerts := alerts[..i] + alerts[i + 1..];
      if WellFormed(before) {
        DeleteAlertKeepsWellFormed(before, alertId, userId);
      }
    }

    /** `addDealRecord`: appends a deal with the next id and the defaults for
        absent optional fields. */
    method AddDealRecord(
      userId: int, title: Option<Json>, location: Option<Json>, input: Json, metrics: Json,
      tags: Option<Json>, note: Option<Json>, now: nat) returns (deal: Deal)
      modifies this
      ensures deal == NewDeal(old(deals), userId, title, location, input, metrics, tags, note, now)
      ensures deals == old(deals) + [deal]
      ensures users == old(users) && subscriptions == old(subscriptions) && alerts == old(alerts)
      ensures old(Valid()) ==> Valid()
    {
      ghost var before := Snapshot();
      var id := NextId(DealIds(deals));
      deal := Deal(
        id, userId,
        if Truthy(title) then title.value else JNull,
        if Truthy(location) then location.value else JNull,
        input, metrics,
        if Truthy(tags) then tags.value else JArr([]),
        if Truthy(note) then note.value else JStr(""),
        now, now);
      deals := deals + [deal];
      if WellFormed(before) {
        AddDealKeepsWellFormed(before, userId, title, location, input, metrics, tags, note, now);
      }
    }

    /** `updateDealRecord`: rewrites tags/note of the caller's deal and
        returns it, or returns None and changes nothing. */
    method UpdateDealRecord(userId: int, dealId: int, tags: Option<Json>, note: Option<Json>, now: nat) returns (r: Option<Deal>)
      modifies this
      ensures deals == UpdatedDeals(old(deals), userId, dealId, tags, note, now)
      ensures r.None? <==> forall j :: 0 <= j < |old(deals)| ==> !(old(deals)[j].id == dealId && old(deals)[j].userId == userId)
      ensures r.Some? ==> r.value in deals && r.value.id == dealId && r.value.userId == userId && r.value.updatedAt == now
      ensures users == old(users) && subscriptions == old(subscriptions) && alerts == old(alerts)
      ensures old(Valid()) ==> Valid()
    {
      ghost var before := Snapshot();
      var idx := DealIndexForOwner(deals, dealId, userId);
      if idx.None? {
        return None;
      }
      var d := deals[idx.value];
      if tags.Some? && tags.value.JArr? {
        d := d.(tags := tags.value);
      }
      if note.Some? && note.value.JStr? {
        d := d.(note := note.value);
      }
      d := d.(updatedAt := now);
      deals := deals[idx.value := d];
      assert deals[idx.value] == d;
      r := Some(d);
      if WellFormed(before) {
        UpdateDealKeepsWellFormed(before, userId, dealId, tags, note, now);
      }
    }
  }
}
