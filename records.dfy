/** The four record kinds of the JSON document (`users`, `subscriptions`,
    `alerts`, `deals`) and the invariant the store keeps over them.
    Timestamps are readings of a monotone clock instead of ISO strings. */
module Records {
  import opened Base
  import opened Ids

  datatype User = User(
    id: nat,
    email: string,
    passwordHash: string,
    stripeCustomerId: Option<string>,
    createdAt: nat)

  /** `userId` is None for the rows that `customer.subscription.updated` and
      `.deleted` append with `user_id: null`. */
  datatype Subscription = Subscription(
    id: nat,
    userId: Option<int>,
    stripeSubscriptionId: string,
    plan: Option<string>,
    billingPeriod: Option<string>,
    status: string,
    createdAt: nat,
    updatedAt: nat)

  datatype Alert = Alert(
    id: nat,
    userId: int,
    criteria: Json,
    emailSentCount: nat,
    createdAt: nat)

  /** `title`, `location`, `tags` and `note` are kept as the JSON values the
      client sent (after the `|| null`, `|| []`, `|| ""` defaults). */
  datatype Deal = Deal(
    id: nat,
    userId: int,
    title: Json,
    location: Json,
    input: Json,
    metrics: Json,
    tags: Json,
    note: Json,
    createdAt: nat,
    updatedAt: nat)

  /** The whole persisted document. */
  datatype Doc = Doc(
    users: seq<User>,
    subscriptions: seq<Subscription>,
    alerts: seq<Alert>,
    deals: seq<Deal>)

  /** `{ users: [], subscriptions: [], alerts: [], deals: [] }` */
  const EmptyDoc: Doc := Doc([], [], [], [])

  function UserIds(users: seq<User>): seq<nat>
  {
    seq(|users|, i requires 0 <= i < |users| => users[i].id)
  }

  function SubscriptionIds(subs: seq<Subscription>): seq<nat>
  {
    seq(|subs|, i requires 0 <= i < |subs| => subs[i].id)
  }

  function AlertIds(alerts: seq<Alert>): seq<nat>
  {
    seq(|alerts|, i requires 0 <= i < |alerts| => alerts[i].id)
  }

  function DealIds(deals: seq<Deal>): seq<nat>
  {
    seq(|deals|, i requires 0 <= i < |deals| => deals[i].id)
  }

  /** At most one row per Stripe subscription id. */
  ghost predicate UniqueRefs(subs: seq<Subscription>)
  {
    forall i, j :: 0 <= i < j < |subs| ==> subs[i].stripeSubscriptionId != subs[j].stripeSubscriptionId
  }

  /** Every stored e-mail is lower-cased. */
  ghost predicate EmailsLowercase(users: seq<User>)
  {
    forall i :: 0 <= i < |users| ==> Lower(users[i].email) == users[i].email
  }

  /** What every store operation keeps: ids unique within each collection,
      one row per Stripe subscription id, lower-cased e-mails. */
  ghost predicate WellFormed(d: Doc)
  {
    && DistinctIds(UserIds(d.users))
    && DistinctIds(SubscriptionIds(d.subscriptions))
    && DistinctIds(AlertIds(d.alerts))
    && DistinctIds(DealIds(d.deals))
    && UniqueRefs(d.subscriptions)
    && EmailsLowercase(d.users)
  }

  /** Uniqueness of e-mails, which signup (not the store) enforces. */
  ghost predicate UniqueEmails(users: seq<User>)
  {
    forall i, j :: 0 <= i < j < |users| ==> users[i].email != users[j].email
  }
}
