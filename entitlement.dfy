/** The entitlement gate of the backend: a user is entitled when the newest of
    their subscription rows (earliest stored among equal `created_at`) has
    status `active` or `trialing`. */
module Entitlement {
  import opened Base
  import opened Seqs
  import opened Records
  import opened StoreOps

  predicate IsEntitlingStatus(status: string)
  {
    status == "active" || status == "trialing"
  }

  function SubscriptionCreatedAt(s: Subscription): nat
  {
    s.createdAt
  }

  /** The user's rows in stored order (`filter((s) => s.user_id === userId)`);
      ownerless rows belong to nobody. */
  function OwnedBy(subs: seq<Subscription>, userId: int): seq<Subscription>
  {
    Filter(subs, (s: Subscription) => s.userId == Some(userId))
  }

  /** `getSubscriptionsForUser`: the user's rows, newest first. */
  function GetSubscriptionsForUser(subs: seq<Subscription>, userId: int): (r: seq<Subscription>)
    ensures forall i :: 0 <= i < |r| ==> r[i].userId == Some(userId)
    ensures multiset(r) == multiset(OwnedBy(subs, userId))
    ensures NewestFirst(r, SubscriptionCreatedAt)
  {
    var rows := OwnedBy(subs, userId);
    var r := SortNewestFirst(rows, SubscriptionCreatedAt);
    assert forall i :: 0 <= i < |r| ==> r[i] in multiset(rows);
    r
  }

  /** `userHasActiveSubscription`: filter, sort newest first, look at the head. */
  function UserHasActiveSubscription(subs: seq<Subscription>, userId: int): (r: bool)
    ensures r ==> exists i :: 0 <= i < |subs| && subs[i].userId == Some(userId) && IsEntitlingStatus(subs[i].status)
    ensures (forall i :: 0 <= i < |subs| ==> subs[i].userId != Some(userId)) ==> !r
  {
    var rows := GetSubscriptionsForUser(subs, userId);
    var owned := OwnedBy(subs, userId);
    if |rows| > 0 then
      assert rows[0] in multiset(owned);
      assert owned[0] in subs;
      IsEntitlingStatus(rows[0].status)
    else false
  }

  /** Row `i` of `rows` is the user's current one: no row is newer, and every
      earlier-stored row is strictly older. */
  ghost predicate IsCurrentRow(rows: seq<Subscription>, i: int)
  {
    && 0 <= i < |rows|
    && (forall j :: 0 <= j < |rows| ==> rows[j].createdAt <= rows[i].createdAt)
    && (forall j :: 0 <= j < i ==> rows[j].createdAt < rows[i].createdAt)
  }

  /** A non-empty set of rows has exactly one current row. */
  lemma CurrentRowExistsUnique(rows: seq<Subscription>)
    requires |rows| > 0
    ensures IsCurrentRow(rows, LatestIndex(rows, SubscriptionCreatedAt))
    ensures forall i :: IsCurrentRow(rows, i) ==> i == LatestIndex(rows, SubscriptionCreatedAt)
  {
    var k := LatestIndex(rows, SubscriptionCreatedAt);
    forall i | IsCurrentRow(rows, i) ensures i == k {
    }
  }

  /** The gate is true exactly when the user has rows and the current one
      (greatest `created_at`, earliest stored among ties) is active or
      trialing. */
  lemma EntitledIffCurrentRowEntitles(subs: seq<Subscription>, userId: int)
    ensures var rows := OwnedBy(subs, userId);
      UserHasActiveSubscription(subs, userId) <==>
        exists i :: IsCurrentRow(rows, i) && IsEntitlingStatus(rows[i].status)
  {
    var rows := OwnedBy(subs, userId);
    if |rows| > 0 {
      SortHeadIsLatest(rows, SubscriptionCreatedAt);
      CurrentRowExistsUnique(rows);
    }
  }

  /** A user without subscription rows is never entitled. */
  lemma NoRowsNoEntitlement(subs: seq<Subscription>, userId: int)
    requires forall i :: 0 <= i < |subs| ==> subs[i].userId != Some(userId)
    ensures !UserHasActiveSubscription(subs, userId)
  {
  }

  /** An older active row does not help once a strictly newer row of the user
      has a non-entitling status such as `canceled`. */
  lemma NewerRowOverridesOlder(subs: seq<Subscription>, userId: int, k: nat)
    requires k < |subs| && subs[k].userId == Some(userId) && !IsEntitlingStatus(subs[k].status)
    requires forall j :: 0 <= j < |subs| && j != k && subs[j].userId == Some(userId) ==> subs[j].createdAt < subs[k].createdAt
    ensures !UserHasActiveSubscription(subs, userId)
  {
    var rows := OwnedBy(subs, userId);
    EntitledIffCurrentRowEntitles(subs, userId);
    assert subs[k] in rows;
  }

  /** The scenario of a user whose older row is canceled and whose newer row
      is active: the newer row wins and the user is entitled. */
  lemma NewestActiveRowWins(t1: nat, t2: nat)
    requires t1 < t2
    ensures var subs := [
        Subscription(1, Some(7), "s1", None, None, "canceled", t1, t1),
        Subscription(2, Some(7), "s2", None, None, "active", t2, t2)];
      UserHasActiveSubscription(subs, 7)
  {
    var subs := [
      Subscription(1, Some(7), "s1", None, None, "canceled", t1, t1),
      Subscription(2, Some(7), "s2", None, None, "active", t2, t2)];
    var rows := OwnedBy(subs, 7);
    assert subs[1..][1..] == [];
    assert rows == subs;
    EntitledIffCurrentRowEntitles(subs, 7);
    assert IsCurrentRow(rows, 1);
  }

  /** A user with no rows becomes entitled once an `active` row is upserted
      for a new Stripe id. */
  lemma ActivationEntitles(subs: seq<Subscription>, userId: int, ref: string, plan: Option<string>, period: Option<string>, now: nat)
    requires forall i :: 0 <= i < |subs| ==> subs[i].userId != Some(userId)
    requires forall i :: 0 <= i < |subs| ==> subs[i].stripeSubscriptionId != ref
    ensures UserHasActiveSubscription(UpsertRows(subs, UpsertRequest(Some(userId), ref, plan, period, "active"), now), userId)
  {
    var req := UpsertRequest(Some(userId), ref, plan, period, "active");
    var s1 := UpsertRows(subs, req, now);
    UpsertAppends(subs, req, now);
    OnlyRowOfUser(subs, s1[|subs|], userId);
    EntitledIffCurrentRowEntitles(s1, userId);
    assert IsCurrentRow(OwnedBy(s1, userId), 0);
  }

  /** When the user's rows are exactly one appended row, that row is all the
      gate looks at. */
  lemma OnlyRowOfUser(subs: seq<Subscription>, row: Subscription, userId: int)
    requires forall i :: 0 <= i < |subs| ==> subs[i].userId != Some(userId)
    requires row.userId == Some(userId)
    ensures OwnedBy(subs + [row], userId) == [row]
  {
    var p := (s: Subscription) => s.userId == Some(userId);
    FilterNone(subs, p);
    FilterAppend(subs, [row], p);
  }

  /** A user with a single row is entitled exactly when that row's status
      entitles. */
  lemma SingleRowDecides(subs: seq<Subscription>, userId: int, row: Subscription)
    requires OwnedBy(subs, userId) == [row]
    ensures UserHasActiveSubscription(subs, userId) == IsEntitlingStatus(row.status)
  {
    var rows := GetSubscriptionsForUser(subs, userId);
    assert multiset(rows) == multiset{row};
    assert |rows| == 1;
    assert rows[0] in multiset(rows);
  }

  /** The rows after activating `ref` for a user with no rows, then
      cancelling it: the same rows, the activated one now canceled. */
  lemma ActivateThenCancelRows(subs: seq<Subscription>, userId: int, ref: string, plan: Option<string>, period: Option<string>, t1: nat, t2: nat)
    requires forall i :: 0 <= i < |subs| ==> subs[i].stripeSubscriptionId != ref
    ensures var s1 := UpsertRows(subs, UpsertRequest(Some(userId), ref, plan, period, "active"), t1);
      var s2 := UpsertRows(s1, UpsertRequest(None, ref, None, None, "canceled"), t2);
      && |s2| == |s1| == |subs| + 1
      && s2 == subs + [s2[|subs|]]
      && s2[|subs|].userId == Some(userId) && s2[|subs|].status == "canceled"
  {
    var req1 := UpsertRequest(Some(userId), ref, plan, period, "active");
    var req2 := UpsertRequest(None, ref, None, None, "canceled");
    var s1 := UpsertRows(subs, req1, t1);
    UpsertAppends(subs, req1, t1);
    UpsertExisting(s1, req2, t2, |subs|);
  }

  /** Continuing from the activation: upserting the same Stripe id again as
      `canceled` overwrites that row instead of adding one, and the user is no
      longer entitled. */
  lemma CancellationRevokes(subs: seq<Subscription>, userId: int, ref: string, plan: Option<string>, period: Option<string>, t1: nat, t2: nat)
    requires forall i :: 0 <= i < |subs| ==> subs[i].userId != Some(userId)
    requires forall i :: 0 <= i < |subs| ==> subs[i].stripeSubscriptionId != ref
    ensures var s1 := UpsertRows(subs, UpsertRequest(Some(userId), ref, plan, period, "active"), t1);
      var s2 := UpsertRows(s1, UpsertRequest(None, ref, None, None, "canceled"), t2);
      |s2| == |s1| && !UserHasActiveSubscription(s2, userId)
  {
    var s1 := UpsertRows(subs, UpsertRequest(Some(userId), ref, plan, period, "active"), t1);
    var s2 := UpsertRows(s1, UpsertRequest(None, ref, None, None, "canceled"), t2);
    ActivateThenCancelRows(subs, userId, ref, plan, period, t1, t2);
    OnlyRowOfUser(subs, s2[|subs|], userId);
    SingleRowDecides(s2, userId, s2[|subs|]);
  }

  /** An upsert that neither finds nor creates a row of the user leaves the
      user's entitlement as it was: ownerless rows and other users' rows do
      not count. */
  lemma UpsertOfForeignRowKeepsEntitlement(subs: seq<Subscription>, req: UpsertRequest, now: nat, userId: int)
    requires req.userId != Some(userId)
    requires forall i :: 0 <= i < |subs| && subs[i].stripeSubscriptionId == req.ref ==> subs[i].userId != Some(userId)
    ensures OwnedBy(UpsertRows(subs, req, now), userId) == OwnedBy(subs, userId)
    ensures UserHasActiveSubscription(UpsertRows(subs, req, now), userId) == UserHasActiveSubscription(subs, userId)
  {
    var p := (s: Subscription) => s.userId == Some(userId);
    match SubscriptionIndexByRef(subs, req.ref)
    case Some(i) =>
      UpsertExisting(subs, req, now, i);
      assert UpsertRows(subs, req, now) == subs[i := Overwrite(subs[i], req, now)];
      FilterUpdateRejected(subs, i, Overwrite(subs[i], req, now), p);
    case None =>
      UpsertAppends(subs, req, now);
      FilterAppend(subs, [NewSubscription(subs, req, now)], p);
  }
}
