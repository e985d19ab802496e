# Real-estate deal analyser: verified model of the backend store, billing and scoring

The application helps small investors judge rental properties. The front end
computes yields, a monthly cashflow and a 0–100 deal score with a verdict.
The Express backend keeps users, Stripe subscriptions, search alerts and saved
deals in one JSON document. It sells Premium/Pro plans through Stripe Checkout
and a webhook, and gates alerts behind an active subscription.

This Dafny project models that core and proves its properties:

- `base.dfy` (`Base`): optional values, JSON values, JavaScript truthiness of
  request fields, `a || b || null` defaults, ASCII lower-casing.
- `ids.dfy` (`Ids`): `nextId` over a collection.
- `seqs.dfy` (`Seqs`): `find`/`findIndex`, `filter`, and the stable newest-first
  `sort` by `created_at`.
- `records.dfy` (`Records`): the four record kinds, the document, and the
  invariant the store keeps.
- `store_ops.dfy` (`StoreOps`): each store helper as a function from the
  collections it reads to the ones it writes back, with its properties.
- `store.dfy` (`Store`): the document as class `Db` with four sequence fields.
  Each helper is a method proved to leave exactly what its `StoreOps` function
  describes, to leave the other collections alone, and to keep the invariant.
- `entitlement.dfy` (`Entitlement`): `getSubscriptionsForUser` and
  `userHasActiveSubscription`, with a reference "current row" characterisation.
- `webhook.dfy` (`Webhook`): the signature gate and the fold of Stripe events
  into the store.
- `handlers.dfy` (`Handlers`): signup, login, `/api/me`, alert and deal routes.
- `checkout.dfy` (`Checkout`): `/api/create-checkout-session`.
- `deal_calculator.dfy` (`DealCalculator`): yields, cashflow, score and the
  yearly premium fees, over reals.
- `app_view.dfy` (`AppView`): verdict bands, the analysis guard, the `/alerts`
  page choice, and how the client's subscription predicate relates to the
  server's gate.

Timestamps are readings of a `nat` clock passed in by the caller. A verified
bearer token is its claims `{ id, email }`. bcrypt is a deterministic `hashOf`,
and a password matches a stored hash when it hashes to it. Stripe calls are
represented by their outcomes, given as inputs.

## Model

| member | source | states |
|---|---|---|
| Ids.MaxId | backend/server.js:40 | the maximum of a non-empty id list is one of its elements and bounds all of them |
| Ids.NextId | backend/server.js:37-41 | 1 for an empty collection; otherwise one more than a stored id, and above every stored id |
| Ids.NextIdKeepsDistinct | backend/server.js:37-41 | appending `nextId` to distinct ids keeps them distinct |
| Ids.RemoveKeepsDistinct | backend/server.js:133 | splicing out one record keeps ids distinct |
| Base.LowerIsNormalForm | backend/server.js:50 | a lower-cased e-mail has no upper-case letter and lower-casing it again changes nothing |
| Base.OrNull | backend/server.js:436 | `x \|\| null` keeps a non-empty string and turns an empty or missing one into null |
| Base.FirstPresent | backend/server.js:410-411 | `a \|\| b \|\| null` picks the first non-empty of the two |
| StoreOps.FindUserById | backend/server.js:43-46 | the result has the id, is the first stored user with it, and is null iff no user has it |
| StoreOps.FindUserByEmail | backend/server.js:48-51 | the result's stored e-mail equals the lower-cased query, it is the first stored user whose e-mail does, and it is null iff none does |
| StoreOps.FindUserByStripeCustomer | backend/server.js:53-56 | the result is the first stored user linked to the customer (customer ids need not be unique), and is null iff no user is linked |
| StoreOps.SetCustomerFrame | backend/server.js:67-74 | only the first user with the id changes, only in `stripe_customer_id`; an unknown id changes nothing |
| StoreOps.NewUser | backend/server.js:58-65 | the new user's id is above every stored id; its e-mail is lower-case and as long as the one given; no customer; created now |
| StoreOps.SetCustomerRows | backend/server.js:67-74 | the same users with the same ids, e-mails and hashes in the same order |
| StoreOps.SetCustomerIdempotent | backend/server.js:67-74 | writing the same customer id twice equals writing it once |
| StoreOps.FindSubscriptionByStripeId | backend/server.js:81-84 | the result carries the Stripe id, and is null iff no row does |
| StoreOps.Overwrite | backend/server.js:89-93 | the overwritten row keeps its `id`, `user_id`, Stripe id and `created_at` |
| StoreOps.NewSubscription | backend/server.js:95-97 | the new row's id is above every stored id; owner and Stripe id come from the request; created and updated now |
| StoreOps.UpsertRows | backend/server.js:86-101 | a known Stripe id keeps the length; an unknown one appends one row after the unchanged old ones |
| StoreOps.UpsertExisting | backend/server.js:86-93 | on a known Stripe id, that row keeps `id`, `user_id`, `created_at`; gets the new `status`, `plan`, `billing_period`, `updated_at`; every other row is unchanged |
| StoreOps.UpsertAppends | backend/server.js:94-98 | on an unknown Stripe id, exactly one row is appended, numbered `nextId` and above every stored id |
| StoreOps.UpsertLastWriteWins | backend/server.js:86-101 | after an upsert, the lookup by Stripe id returns the row written, with the requested status, plan and period |
| StoreOps.UpsertKeepsRefsUnique | backend/server.js:86-101 | an upsert never creates a second row with the same Stripe id |
| StoreOps.UpsertIdempotent | backend/server.js:86-101 | applying the same upsert twice equals applying it once, apart from `updated_at` |
| StoreOps.NewAlert | backend/server.js:103-110 | the new alert's id is above every stored id; owner and criteria from the request; counter 0 |
| StoreOps.IncrementedAlerts | backend/server.js:120-127 | same length and ids; no counter decreases |
| StoreOps.AlertsWithout | backend/server.js:129-136 | at most one alert fewer, and only alerts that were there (a sub-multiset) |
| StoreOps.IncrementCountsOnce | backend/server.js:120-127 | only the first alert with the id changes, and only its counter, by one; no match changes nothing |
| StoreOps.DeleteRemovesFirstOwnedMatch | backend/server.js:129-136 | removes exactly the first alert matching id and owner and keeps the rest in order; no match changes nothing; other users' alerts are untouched |
| StoreOps.AlertsPending | backend/server.js:112-118 | the alerts are those under 999 sent e-mails, in order, each paired with its owner's e-mail (missing if no owner) |
| StoreOps.ListAlertsForUser | backend/server.js:554-559 | exactly the caller's alerts, newest first |
| StoreOps.ListDealsForUser | backend/server.js:161-166 | exactly the caller's deals, newest first |
| StoreOps.NewDeal | backend/server.js:140-159 | the new deal's id is above every stored id; owner, `input` and `metrics` from the request; created and updated now |
| StoreOps.Retagged | backend/server.js:174-176 | only `tags`, `note` and `updated_at` change; `updated_at` is now; tags become an array or stay, note becomes a string or stays |
| StoreOps.UpdatedDeals | backend/server.js:168-179 | same length and ids; other owners' deals unchanged |
| StoreOps.DealRoundTrip | backend/server.js:140-166 | a saved deal appears in its owner's list with the `input` and `metrics` sent |
| StoreOps.UpdateDealFrame | backend/server.js:168-179 | only a deal matching id and owner changes: `tags` only for an array, `note` only for a string, `updated_at` refreshed; `input`, `metrics`, `title`, `location`, `created_at` untouched; no match changes nothing |
| StoreOps.CreateUserKeepsWellFormed | backend/server.js:58-65 | creating a user keeps ids distinct, Stripe ids unique and e-mails lower-case |
| StoreOps.SetCustomerKeepsWellFormed | backend/server.js:67-74 | linking a customer keeps the document invariant |
| StoreOps.UpsertKeepsWellFormed | backend/server.js:86-101 | an upsert keeps the document invariant |
| StoreOps.AddAlertKeepsWellFormed | backend/server.js:103-110 | adding an alert keeps the document invariant |
| StoreOps.IncrementKeepsWellFormed | backend/server.js:120-127 | counting an e-mail keeps the document invariant |
| StoreOps.DeleteAlertKeepsWellFormed | backend/server.js:129-136 | deleting an alert keeps the document invariant |
| StoreOps.AddDealKeepsWellFormed | backend/server.js:140-159 | saving a deal keeps the document invariant |
| StoreOps.UpdateDealKeepsWellFormed | backend/server.js:168-179 | updating a deal keeps the document invariant |
| StoreOps.ThreeInsertsNumberFromOne | backend/server.js:37-41 | three alerts added to an empty collection get ids 1, 2, 3 |
| Store.Db.Open | backend/server.js:31-35 | the document read from disk, or four empty collections |
| Store.Db.CreateUser | backend/server.js:58-65 | appends a user with the next id, lower-cased e-mail and no customer; nothing else changes |
| Store.Db.UpdateUserStripeCustomerId | backend/server.js:67-74 | returns null iff no user has the id, else the updated user; only `users` changes |
| Store.Db.UpsertSubscription | backend/server.js:86-101 | the subscriptions become the upsert of the old ones; returns the stored row; nothing else changes |
| Store.Db.AddAlert | backend/server.js:103-110 | appends an alert with the next id and a zero counter; nothing else changes |
| Store.Db.IncrementAlertEmailCount | backend/server.js:120-127 | null iff no alert has the id, else the incremented alert; only `alerts` changes |
| Store.Db.DeleteAlert | backend/server.js:129-136 | null iff no alert matches id and owner, else the removed alert; only `alerts` changes |
| Store.Db.AddDealRecord | backend/server.js:140-159 | appends a deal with the next id and the `\|\| null`, `\|\| []`, `\|\| ""` defaults; nothing else changes |
| Store.Db.UpdateDealRecord | backend/server.js:168-179 | null iff no deal matches id and owner, else the updated deal; only `deals` changes |
| Entitlement.GetSubscriptionsForUser | backend/server.js:76-79 | exactly the user's rows (a permutation of the filtered rows), newest first |
| Entitlement.UserHasActiveSubscription | backend/server.js:475-480 | entitled only when some row of the user is `active` or `trialing`; a user without rows is not entitled |
| Entitlement.SingleRowDecides | backend/server.js:475-480 | when the user has exactly one row, that row's status decides |
| Entitlement.CurrentRowExistsUnique | backend/server.js:477 | a non-empty row list has exactly one newest row, the earliest stored among ties |
| Entitlement.EntitledIffCurrentRowEntitles | backend/server.js:475-480 | the gate is true iff the user has rows and the newest one (earliest stored among ties) is `active` or `trialing` |
| Entitlement.NoRowsNoEntitlement | backend/server.js:478 | a user without rows is not entitled |
| Entitlement.NewerRowOverridesOlder | backend/server.js:475-480 | a strictly newer non-entitling row hides any older active row |
| Entitlement.NewestActiveRowWins | backend/server.js:475-480 | an older canceled row does not hide a newer active one |
| Entitlement.ActivationEntitles | backend/server.js:86-101 | an `active` upsert for a new Stripe id entitles a user who had no rows |
| Entitlement.OnlyRowOfUser | backend/server.js:477 | when the appended row is the user's only one, the filter yields just that row |
| Entitlement.ActivateThenCancelRows | backend/server.js:86-101 | activating then cancelling a new Stripe id leaves one appended row, owned by the user, `canceled` |
| Entitlement.CancellationRevokes | backend/server.js:455-464 | cancelling that Stripe id afterwards updates the row in place and revokes the entitlement |
| Entitlement.UpsertOfForeignRowKeepsEntitlement | backend/server.js:444-464 | an upsert that neither finds nor creates a row of the user leaves the user's entitlement unchanged |
| Webhook.CheckoutUserId | backend/server.js:401-406 | metadata user id when truthy; otherwise the id of the first user linked to the session's customer id; never 0 |
| Webhook.CheckoutUserIdAsWritten | backend/server.js:399-406 | with the customer expanded to an object, only a truthy metadata user id attributes the session; never 0 |
| Webhook.ExpandedCustomerLeavesCheckoutUnattributed | backend/server.js:399-408 | a session without metadata whose expanded customer belongs to user 1 is attributed to no one |
| Webhook.LinkedCustomerAttributesCheckout | backend/server.js:401-419 | comparing customer ids attributes that session to user 1, and the checkout then entitles user 1 |
| Webhook.ApplyEvent | backend/server.js:394-469 | alerts and deals never change; only a completed checkout touches users; subscriptions grow by at most one row |
| Webhook.HandleWebhook | backend/server.js:377-472 | no secret: acknowledged, store unchanged; bad signature: 400, store unchanged; otherwise the event is applied; the invariant is kept |
| Webhook.ApplyEventKeepsWellFormed | backend/server.js:394-469 | every event keeps the document invariant |
| Webhook.InvoiceAndUnhandledChangeNothing | backend/server.js:426-428 | invoice and unhandled events leave the store unchanged |
| Webhook.CheckoutNeedsUserAndSubscription | backend/server.js:408 | a completed checkout without a user id or subscription changes nothing |
| Webhook.CheckoutRecordsAndLinks | backend/server.js:408-418 | otherwise the subscription's status is stored under its Stripe id (owned by the user when new), and the user's customer id becomes the session customer, whatever it was |
| Webhook.CheckoutOfActiveSubscriptionEntitles | backend/server.js:395-419 | a checkout carrying a new active subscription entitles a user who had no rows |
| Webhook.CreatedNeedsKnownCustomer | backend/server.js:429-442 | `customer.subscription.created` upserts only when the customer maps to a stored user, and then for that user |
| Webhook.UpdateKeepsOwner | backend/server.js:444-464 | `.updated`/`.deleted` on a known Stripe id keep that row's owner, id and creation time; `.updated` stores the event's status, plan (`product \|\| null`) and period (`interval \|\| null`); `.deleted` stores `canceled` with plan and period null |
| Webhook.UnknownRefAppendsOwnerlessRow | backend/server.js:444-464 | `.updated`/`.deleted` on an unknown Stripe id append one row with `user_id` null, the event's Stripe id, and the status, plan and period the event writes (`canceled`, null, null for `.deleted`), which changes no user's entitlement |
| Webhook.LastProcessedUpdateWins | backend/server.js:444-453 | of two updates for one Stripe id, the one processed last decides the stored status |
| Webhook.LinkKeepsCustomerLookup | backend/server.js:403-417 | re-linking the user found by a customer keeps the customer lookup on that user |
| Webhook.ApplyEventIdempotent | backend/server.js:394-469 | handling the same event twice equals handling it once, apart from `updated_at` |
| Handlers.SignupStep | backend/server.js:320-335 | missing fields iff e-mail or password is empty; duplicate iff a stored e-mail equals the lower-cased one; otherwise one user appended with the hash and a fresh id, and its claims returned |
| Handlers.Signup | backend/server.js:320-335 | the store's users follow the signup function; nothing else changes |
| Handlers.SignupKeepsEmailsUnique | backend/server.js:324-326 | signup keeps stored e-mails pairwise distinct |
| Handlers.CaseVariantIsDuplicate | backend/server.js:48-51 | once an e-mail is registered, every address with the same lower-case form is refused |
| Handlers.UpperCaseSignupBlocksLowerCase | backend/server.js:320-335 | `A@x.com` registered blocks `a@x.com` |
| Handlers.Login | backend/server.js:338-347 | missing fields iff one is empty; success only for a stored e-mail whose hash matches, with its claims; no matching pair gives `Invalid credentials` |
| Handlers.LoginSucceedsIffCredentialsMatch | backend/server.js:338-347 | with unique e-mails, login succeeds iff some user has the e-mail and the password's hash |
| Handlers.LoginFailuresLookAlike | backend/server.js:342-344 | an unknown e-mail and a wrong password get the same answer |
| Handlers.SignupThenLogin | backend/server.js:320-347 | after signup, logging in with any letter case of the e-mail returns the claims signup returned |
| Handlers.Me | backend/server.js:350-356 | 404 iff no user has the id; otherwise the user's public fields (no hash) and their rows newest first |
| Handlers.CheckAlertRequest | backend/server.js:488-495 | 403 whenever the user is not entitled, whatever the body; `Missing criteria` only for an entitled user; allowed iff entitled and criteria truthy |
| Handlers.PostAlert | backend/server.js:488-495 | refused requests change nothing; allowed ones append the alert and change nothing else |
| Handlers.SubscriptionCheckedBeforeCriteria | backend/server.js:490-492 | a request without criteria gets 403 when not entitled and 400 when entitled |
| Handlers.DeleteAlertRoute | backend/server.js:561-569 | 404 iff no alert matches id and owner (or the id is not a number); only `alerts` changes |
| Handlers.PostDeal | backend/server.js:500-523 | 400 and no change unless `input` and `metrics` are truthy; otherwise one deal appended; subscriptions are not consulted |
| Handlers.PatchDeal | backend/server.js:538-551 | 404 iff no deal matches id and owner (or the id is not a number); only `deals` changes |
| Checkout.ParsePlan | backend/server.js:223 | accepts exactly `premium` and `pro` |
| Checkout.ParsePeriod | backend/server.js:223 | accepts exactly `month` and `year` |
| Checkout.ParseNamesRoundTrip | backend/server.js:223-237 | parsing a plan's or period's name gives it back |
| Checkout.PriceIdentifiesPlanAndPeriod | backend/server.js:227-237 | each plan and period reads its own price variable |
| Checkout.TokenUser | backend/server.js:240-249 | the caller is the token's id when the token is valid and the id truthy; otherwise a guest |
| Checkout.CheckoutStep | backend/server.js:219-317 | 400 iff plan or billing is invalid, then nothing changes; a guest changes nothing; alerts and deals never change; a Stripe session stores no subscription and carries the caller's id; `Missing price ID` only in production; the fallback answer comes iff plan and billing are valid and either the customer creation throws or a price is present and the session creation throws; `corrected` selects the catch block: as written (`false`) the fallback stores no subscription, corrected it stores an `active` row under the fake id for a known caller; a fallback after a failed customer creation leaves users unchanged |
| Checkout.CreateCheckoutSession | backend/server.js:219-317 | the store and the answer follow the checkout function with the same `corrected` choice of catch block; the invariant is kept |
| Checkout.DevCheckoutEntitles | backend/server.js:266-283 | outside production, a missing price id activates a subscription that entitles a caller who had none, with either catch block |
| Checkout.MissingPriceStillLinksCustomer | backend/server.js:251-268 | the customer is created and linked before the price is checked, even when production then answers 500, with either catch block |
| Checkout.StripeCheckoutThenWebhookEntitles | backend/server.js:287-300 | the session's metadata, returned by the webhook with a new active subscription, entitles the caller, with either catch block |
| Checkout.SessionFailureFallbacks | backend/server.js:285-316 | when the session creation throws for a caller without rows, both variants answer with the fallback session; as written the caller stays unentitled, corrected the caller is entitled |
| Checkout.Fallback | backend/server.js:302-316 | when a caller is known, the fallback stores an active row under the fake id; users, alerts and deals unchanged |
| Checkout.FallbackActivates | backend/server.js:302-316 | the corrected fallback entitles a caller who had no rows |
| Checkout.FallbackAsWritten | backend/server.js:302-316 | as written, the fallback stores nothing |
| Checkout.FallbackAsWrittenLeavesCallerLocked | backend/server.js:302-316 | as written, a caller without rows stays unentitled after the fallback |
| DealCalculator.MonthlyLoanPayment | frontend/src/dealCalculator.ts:16-27 | 0 without a principal or a duration; the annuity for a non-zero rate |
| DealCalculator.ZeroRateRepaysPrincipal | frontend/src/dealCalculator.ts:25 | at a zero rate the payments over all months add up to the principal |
| DealCalculator.GrossYield | frontend/src/dealCalculator.ts:29-32 | 0 for a zero price; otherwise yield × price = yearly rent × 100 |
| DealCalculator.NetYield | frontend/src/dealCalculator.ts:34-39 | 0 for a zero price; otherwise yield × price = (yearly rent − yearly charges) × 100 |
| DealCalculator.YieldGapIsCharges | frontend/src/dealCalculator.ts:29-39 | the two yields differ by yearly charges as a percentage of the price |
| DealCalculator.NetYieldAtMostGross | frontend/src/dealCalculator.ts:29-39 | with a positive price and non-negative charges and tax, net yield ≤ gross yield |
| DealCalculator.Principal | frontend/src/dealCalculator.ts:56 | the financed amount is non-negative, and is 0 or price − down payment |
| DealCalculator.MonthlyCashflow | frontend/src/dealCalculator.ts:41-68 | cashflow = rent − charges − tax/12 − the loan payment on the financed amount − a twelfth of the yearly premium total |
| DealCalculator.CashflowWithoutPremiumFields | frontend/src/dealCalculator.ts:41-68 | with no premium field, cashflow = rent − charges − tax/12 − loan payment |
| DealCalculator.ManagementFeesYearly | frontend/src/dealCalculator.ts:97-100 | 0 when the percentage is absent |
| DealCalculator.RentalInsuranceYearly | frontend/src/dealCalculator.ts:102-105 | 0 when the monthly insurance is absent |
| DealCalculator.SourceWithholdingYearly | frontend/src/dealCalculator.ts:107-110 | 0 when the rate is absent |
| DealCalculator.SocialContributionsYearly | frontend/src/dealCalculator.ts:112-115 | 0 when the rate is absent |
| DealCalculator.TotalTaxesAndFeesYearly | frontend/src/dealCalculator.ts:117-119 | 0 when no premium field is set |
| DealCalculator.Clamp | frontend/src/dealCalculator.ts:92 | the result lies in [0, 100] and equals the score when it already does |
| DealCalculator.ScoreFromMetrics | frontend/src/dealCalculator.ts:75-92 | the score lies in [0, 100] |
| DealCalculator.ClampNeverBinds | frontend/src/dealCalculator.ts:75-92 | 50 plus the three band terms lies in [30, 95], so the clamp changes nothing |
| DealCalculator.ScoreMonotone | frontend/src/dealCalculator.ts:77-90 | raising one of gross yield, net yield or cashflow, the others fixed, never lowers the score |
| DealCalculator.DealScore | frontend/src/dealCalculator.ts:70-93 | every deal scores between 30 and 95 |
| AppView.VerdictFromScore | frontend/src/App.tsx:17-25 | each of the five verdict texts comes iff the score is in its band: ≥85, [70, 85), [55, 70), [40, 55), below 40 |
| AppView.VerdictBand | frontend/src/App.tsx:17-25 | ≥85, [70, 85), [55, 70), [40, 55) and below 40 map to the five verdicts, each iff |
| AppView.VerdictTextNamesBand | frontend/src/App.tsx:17-25 | the five texts are distinct |
| AppView.VerdictMonotone | frontend/src/App.tsx:17-25 | a higher score never gets a lower verdict |
| AppView.ThresholdsBelongToHigherBand | frontend/src/App.tsx:18-23 | 85, 70, 55, 40 fall into the higher band, one less into the lower |
| AppView.ExtremeMetricsVerdicts | frontend/src/App.tsx:17-25 | top-band metrics give the best verdict, bottom-band metrics the worst |
| AppView.AnalysedDealHasGrossYield | frontend/src/App.tsx:119-126 | results are shown only for a deal with a non-zero gross yield |
| AppView.SomeEntitling | frontend/src/App.tsx:238-240 | true iff some subscription is `active` or `trialing` |
| AppView.MissingOrEmptyListIsLocked | frontend/src/App.tsx:238-240 | a missing `me`, a missing list and an empty list all give false |
| AppView.AlertsRoute | frontend/src/App.tsx:232-316 | auth page iff no token; locked page iff a token but no active subscription; alerts manager otherwise |
| AppView.ServerGateImpliesClientPredicate | frontend/src/App.tsx:238-240 | a user the server lets create alerts sees the alerts manager |
| AppView.ClientPredicateIsWeakerThanServerGate | frontend/src/App.tsx:238-240 | an older active row with a newer canceled one shows the alerts manager while the server answers 403 |

## Left out

- lowdb file I/O (`db.read`/`db.write`) is not modelled; the document is in-memory state. The lost-update race between overlapping read-modify-write handlers is a concurrency issue and is left out.
- Express routing, CORS, dotenv and the HTTP plumbing are left out. Each handler's decision is a result datatype.
- `/api/session` and `/api/health` are left out: they only relay Stripe's answer or a constant.
- `/api/analysis/advanced` is left out. It applies the same entitlement gate as alert creation and returns a fixed placeholder.
- The Stripe SDK (`customers.create`, `checkout.sessions.create`/`retrieve`, `webhooks.constructEvent`) is foreign. The signature outcome, the retrieved session, the new customer id and whether a call throws are inputs.
- Errors thrown by the store inside handlers (the `Unable to ...` answers and the webhook's swallowed errors) are left out. The modelled store cannot fail.
- bcryptjs is a deterministic `hashOf`. Its random salt is not modelled.
- jsonwebtoken signing, expiry and verification are left out. A verified token is its claims.
- The `setInterval` alert runner is left out: it uses a timer, `Math.random` and mail I/O. Its helpers `alertsPending` and `incrementAlertEmailCount` are modelled.
- The fake session, subscription and customer ids built from `Date.now()` and `Math.random()` are inputs.
- ISO timestamps are a `nat` clock, so `new Date(...)` ordering is integer ordering.
- Lower-casing covers ASCII letters only.
- Records are assumed to always carry an `id` and an `email_sent_count`. The `|| 0` defaults for missing fields in `nextId` and `incrementAlertEmailCount` are not modelled.
- `Webhook.CheckoutUserId` is the corrected lookup of the second finding. Line 417 of `backend/server.js` stores the expanded customer object as `stripe_customer_id`; the model stores the customer's id string there, because the field holds strings.
- `Webhook.CheckoutUserId`: a non-numeric or fractional `metadata.userId` is modelled as absent.
- `DealCalculator.MonthlyLoanPayment`: the `Math.pow` annuity for a non-zero rate is an input. IEEE-754 rounding and NaN are not modelled; numbers are exact reals.
- The React state, rendering and fetch wrappers of the front end are left out. The Dashboard repeats the client subscription predicate, and billing.ts repeats the server's plan check.
- Three behaviours of the code to note, all modelled: without a webhook secret, events are acknowledged but not processed; `customer.subscription.updated`/`.deleted` do not look up the account and upsert with `user_id` null; a completed checkout overwrites the user's `stripe_customer_id` unconditionally.
- Webhook.HandleWebhook: the signature outcome is an input. `express.json()` is mounted for every route at line 19 of `backend/server.js`, before the webhook route's `express.raw` at line 377, so `constructEvent` at line 387 may receive an already parsed body and reject every delivery once a secret is set. Body parsing and the Stripe SDK's signature check are not modelled.

## Findings

| source | as written | input that shows it | evidently intended | confidence | as-written member | corrected member |
|---|---|---|---|---|---|---|
| backend/server.js:302-316 | the catch block of `/api/create-checkout-session` reads `userId`, `plan` and `billing`; all three are block-scoped to the `try`, so the read throws a ReferenceError, the inner catch swallows it, and no subscription is stored | a logged-in user with no subscription rows, plan `pro`, billing `month`, and `stripe.checkout.sessions.create` throwing | store an `active` subscription for the caller under the fake id, as the comment says, so the success page matches the account | high, not executed | Checkout.FallbackAsWritten, Checkout.FallbackAsWrittenLeavesCallerLocked, Checkout.SessionFailureFallbacks | Checkout.Fallback, Checkout.FallbackActivates, Checkout.SessionFailureFallbacks |
| backend/server.js:399-417 | the webhook retrieves the session with `expand: ['subscription', 'customer']`, so `s.customer` is a customer object; `findUserByStripeCustomer(s.customer)` compares that object with stored id strings and never matches, and line 417 stores the object as `stripe_customer_id` | user 1 linked to `cus_1`, a `checkout.session.completed` without `metadata.userId` whose customer is `cus_1` and whose subscription `sub_1` is active | attribute the session to the user linked to the customer's id | medium, not executed | Webhook.CheckoutUserIdAsWritten, Webhook.ExpandedCustomerLeavesCheckoutUnattributed | Webhook.CheckoutUserId, Webhook.LinkedCustomerAttributesCheckout |
