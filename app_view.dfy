/** The decisions of the front-end application shell: the verdict shown for a
    score, the guard before an analysis is shown, and which page `/alerts`
    renders, together with how the client's subscription predicate relates to
    the server's entitlement gate. */
module AppView {
  import opened Base
  import opened Records
  import opened Entitlement
  import opened Seqs
  import opened Handlers
  import opened DealCalculator

  // ------------------------------------------------------------- verdicts

  datatype Verdict = Excellent | Good | Fair | Fragile | Avoid

  /** The text displayed for each verdict. */
  function VerdictText(v: Verdict): string
  {
    match v
    case Excellent => "Excellent deal, rare à trouver. À sécuriser rapidement."
    case Good => "Bon deal, intéressant pour du long terme."
    case Fair => "Correct mais optimisable (prix, charges ou financement)."
    case Fragile => "Deal fragile, à analyser plus en profondeur."
    case Avoid => "Deal à éviter dans l’état actuel des chiffres."
  }

  /** 4 for the best band down to 0 for the worst. */
  function Rank(v: Verdict): nat
  {
    match v
    case Excellent => 4
    case Good => 3
    case Fair => 2
    case Fragile => 1
    case Avoid => 0
  }

  /** The band of `verdictFromScore`: the first threshold (85, 70, 55, 40)
      the score reaches. */
  function VerdictBand(score: int): (v: Verdict)
    ensures v == Excellent <==> score >= 85
    ensures v == Good <==> 70 <= score < 85
    ensures v == Fair <==> 55 <= score < 70
    ensures v == Fragile <==> 40 <= score < 55
    ensures v == Avoid <==> score < 40
  {
    if score >= 85 then Excellent
    else if score >= 70 then Good
    else if score >= 55 then Fair
    else if score >= 40 then Fragile
    else Avoid
  }

  /** `verdictFromScore`. */
  function VerdictFromScore(score: int): (r: string)
    ensures r == VerdictText(Excellent) <==> score >= 85
    ensures r == VerdictText(Good) <==> 70 <= score < 85
    ensures r == VerdictText(Fair) <==> 55 <= score < 70
    ensures r == VerdictText(Fragile) <==> 40 <= score < 55
    ensures r == VerdictText(Avoid) <==> score < 40
  {
    VerdictText(VerdictBand(score))
  }

  /** The five texts are distinct, so the text shown names exactly one band. */
  lemma VerdictTextNamesBand(v: Verdict, w: Verdict)
    requires VerdictText(v) == VerdictText(w)
    ensures v == w
  {
  }

  /** A higher score never gets a lower verdict. */
  lemma VerdictMonotone(s1: int, s2: int)
    requires s1 <= s2
    ensures Rank(VerdictBand(s1)) <= Rank(VerdictBand(s2))
  {
  }

  /** A score on a threshold gets the higher band, one below gets the lower. */
  lemma ThresholdsBelongToHigherBand()
    ensures VerdictBand(85) == Excellent && VerdictBand(84) == Good
    ensures VerdictBand(70) == Good && VerdictBand(69) == Fair
    ensures VerdictBand(55) == Fair && VerdictBand(54) == Fragile
    ensures VerdictBand(40) == Fragile && VerdictBand(39) == Avoid
  {
  }

  /** Metrics in the top band of all three terms make an excellent deal;
      metrics in the bottom band of all three make one to avoid. */
  lemma ExtremeMetricsVerdicts(gy: real, ny: real, cf: real)
    ensures gy > 10.0 && ny > 8.0 && cf >= 200.0 ==> VerdictBand(ScoreFromMetrics(gy, ny, cf)) == Excellent
    ensures gy <= 6.0 && ny <= 4.0 && cf < 0.0 ==> VerdictBand(ScoreFromMetrics(gy, ny, cf)) == Avoid
  {
    ClampNeverBinds(gy, ny, cf);
  }

  // ------------------------------------------------------ analysis guard

  /** `handleAnalyze` shows results only for a non-zero price and rent. */
  predicate CanAnalyze(input: DealInput)
  {
    input.purchasePrice != 0.0 && input.rentMonthly != 0.0
  }

  /** Every analysed deal has a non-zero gross yield. */
  lemma AnalysedDealHasGrossYield(input: DealInput)
    requires CanAnalyze(input)
    ensures GrossYield(input) != 0.0
  {
    assert GrossYield(input) * input.purchasePrice == input.rentMonthly * 1200.0;
  }

  // ------------------------------------------------- subscription predicate

  /** `['active', 'trialing'].includes(sub.status)` over a list, as `.some`
      walks it. */
  function SomeEntitling(subs: seq<Subscription>): (r: bool)
    ensures r <==> exists i :: 0 <= i < |subs| && IsEntitlingStatus(subs[i].status)
  {
    if |subs| == 0 then false
    else IsEntitlingStatus(subs[0].status) || SomeEntitling(subs[1..])
  }

  /** The `me` state of the client: null before `/api/me` answered, else
      the body it returned, whose `subscriptions` may be missing. */
  datatype MeView = MeView(subscriptions: Option<seq<Subscription>>)

  /** `me?.subscriptions?.some(...)`: false when `me` or the list is missing. */
  predicate HasActiveSubscription(me: Option<MeView>)
  {
    me.Some? && me.value.subscriptions.Some? && SomeEntitling(me.value.subscriptions.value)
  }

  lemma MissingOrEmptyListIsLocked()
    ensures !HasActiveSubscription(None)
    ensures !HasActiveSubscription(Some(MeView(None)))
    ensures !HasActiveSubscription(Some(MeView(Some([]))))
  {
  }

  datatype Page = AuthPage | LockedPage | AlertsManager

  /** The page `/alerts` renders; a token is the string kept in local
      storage, and the empty string counts as no token. */
  function AlertsRoute(token: Option<string>, me: Option<MeView>): (p: Page)
    ensures p == AuthPage <==> !Present(token)
    ensures p == LockedPage <==> Present(token) && !HasActiveSubscription(me)
    ensures p == AlertsManager <==> Present(token) && HasActiveSubscription(me)
  {
    if !Present(token) then AuthPage
    else if !HasActiveSubscription(me) then LockedPage
    else AlertsManager
  }

  /** The view of a successful `/api/me` answer. */
  function ViewOf(reply: MeReply): Option<MeView>
  {
    match reply
    case MeOk(_, subs) => Some(MeView(Some(subs)))
    case UserNotFound => None
  }

  /** Whoever the server lets create alerts sees the alerts manager: the
      server's gate implies the client's predicate on `/api/me`. */
  lemma ServerGateImpliesClientPredicate(d: Doc, userId: int)
    requires Me(d, userId).MeOk?
    requires UserHasActiveSubscription(d.subscriptions, userId)
    ensures AlertsRoute(Some("t"), ViewOf(Me(d, userId))) == AlertsManager
  {
    var rows := GetSubscriptionsForUser(d.subscriptions, userId);
    assert IsEntitlingStatus(rows[0].status);
    assert SomeEntitling(rows);
  }

  /** The converse fails: a user whose older row is active and whose newer
      row is canceled sees the alerts manager, yet the server refuses to
      create alerts for them. */
  lemma ClientPredicateIsWeakerThanServerGate()
    ensures var d := Doc(
              [User(7, "u@x.com", "h", None, 0)],
              [Subscription(1, Some(7), "sub_old", None, None, "active", 1, 1),
               Subscription(2, Some(7), "sub_new", None, None, "canceled", 2, 2)],
              [], []);
      && AlertsRoute(Some("t"), ViewOf(Me(d, 7))) == AlertsManager
      && CheckAlertRequest(d.subscriptions, 7, Some(JStr("T2 Lyon"))) == AlertForbidden
  {
    var subs := [Subscription(1, Some(7), "sub_old", None, None, "active", 1, 1),
                 Subscription(2, Some(7), "sub_new", None, None, "canceled", 2, 2)];
    NewerRowOverridesOlder(subs, 7, 1);
    var rows := GetSubscriptionsForUser(subs, 7);
    assert subs[0] in multiset(OwnedBy(subs, 7));
    assert subs[0] in multiset(rows);
    assert SomeEntitling(rows);
  }
}
