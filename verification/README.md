# Verified model of the relay platform

A Dafny model of the parts of an affordable-housing platform (a NestJS API and a Next.js dashboard)
that hold real protocols, ledgers and text algorithms, with proofs of what they guarantee.

| files | what they model |
|---|---|
| `AuthTokens`, `TabSession` | refresh-token families on the server; the dashboard's single-flight refresh, composed with the server over a wire that may lose requests and answers |
| `GigJobs`, `SponsoredListings`, `PropertyBoosts`, `Subscriptions`, `HqsInspections`, `TenantScreenings`, `Applications`, `Payments`, `PaymentEffects` | seven services behind one at-least-once payment webhook, each alone and all together, and what each payment buys |
| `Regex`, `SeparatorCollapse`, `ContactInfoDetector` | the rule-based contact-information detector and the regular expressions it is made of |
| `ContactPatterns` | the detector's patterns, lists, verdict and reports in the characters of a message |
| `WordRewrites`, `Disguises` | rewriting whole words; number words and look-alike letters, and numbers spelled out with them |
| `BlankRewrites`, `WordedEmails` | rewriting blanks; "at" and "dot", and addresses spelled out with them |
| `Moderation`, `Messages`, `SplitNumbers`, `Conversations`, `SmsRouting` | judging messages with their sender's history, escalating sanctions, what split numbers get through, starting conversations, sharing out relay numbers, routing inbound SMS by menu |
| `JsText`, `UriComponent`, `ContentDisposition` | UTF-16 strings and UTF-8, percent-encoding, and the file-name header printed by the API and parsed by the dashboard |
| `Ics`, `IcsBytes` | calendar files, read back by a reader of RFC 5545, as text and as bytes |
| `RateLimiter` | the fixed-window limiter |

Each service is a class whose methods follow the source statement by statement. A method's contract
equates the new database state with a specification function of the old one (`Step`, `Webhook`,
`Composed`, `Route`, ...), and says in the old fields when it succeeds and which row it changes to what; the
lemmas are about these functions and about every run of them. A row id is
a position in a table, and a handler either reaches a new state or refuses with a status.

## What is proved

- **Sessions.** With any number of callers meeting 401s at any moment, at most one refresh is under way.
  Unless an answer is lost after the server rotated the token, or the user's password is reset, the server
  never detects a reuse from the tab and the stored token is live whenever nothing is under way. Both
  exceptions are real: `LostAnswerSignsOut` and `ResetLooksLikeReuse` show the sign-out they cause after any
  run, and `LostAnswerHappens` and `ResetHappens` give runs where they occur. Every token of a run was earned
  by one event entitled to it, and keeps the terms it was made out on.
- **Payments.** Over every run mixing requests with duplicated, reordered and unpaid deliveries, each order
  changes the stored state at most once and at most one record in seven tables. A delivery has an effect
  exactly if it is paid and a record awaits its order and is ready for it. Different orders commute. From the
  checkout to the first paid delivery, over any run in between that does not undo it, each payment buys exactly
  its tier, boost, inspection, screening, application, listing time, budget or voucher.
- **Prepaid clicks.** Clicks interleave statement by statement. Budget left plus billed clicks is what was
  paid in, nothing is overdrawn, and no visit is billed twice. Paid periods never overlap.
- **Detector.** The verdict equals the plain disjunction of all patterns over the raw, the at/dot-normalized
  and the fully normalized text, whatever the skip guards and already-found filters do. The normalized
  search for a bare number succeeds exactly if the undisguised text shows a phone number, however spaced. Every
  pattern matches exactly what its predicate on characters says. A number spelled in any mix of figures and
  number words is blocked, and so is every address spelled out with "at" and "dot".
- **Enforcement.** Over every run, a user's n blocked messages have met the first n sanctions of the ladder,
  and the third silences its user for a day unless staff lift the restriction. Up to six consecutive delivered
  messages of half an hour pass the detector together with what came before them; alone they show a number
  exactly if they open with it and what came before ends in a figure.
- **Printers and parsers.** The header round trip holds for a name exactly if its cleaned form is not empty
  and holds no live marker of the extended parameter. A calendar's text always reads back; its bytes do
  exactly if no fold falls inside a surrogate pair, and its lines keep to 75 octets exactly if each is ASCII
  up to its last physical line and that one is short enough.
- **Limiter.** A key's lifetime allows at most the limit. Any stretch as long as the window sees at most
  2·limit − 1 allowed calls, and for every limit some calls reach that.
- **Relay numbers, SMS, screenings.** Loads stay balanced; texts are stored once, under their own sender;
  results reach only those they concern.

## Where the code differs from what is written about it

- The dashboard's comment on the single-flight guard says concurrent requests never spend a token twice. That
  holds, but a lost answer still makes the next refresh look like theft (`TabSession.LostAnswerSignsOut`).
- The calendar code says it folds at 75 octets. It folds at 75 UTF-16 units: `IcsBytes.OctetLimit` says which
  lines keep the octet limit all the same, and `IcsBytes.AccentsBreakTheLimit` gives one that does not. A fold
  may also cut a character in two (`IcsBytes.CutCharacterIsLost`).
- The header printer keeps the text `filename*=UTF-8''` inside a file name, and the parser then reads whatever
  follows it there instead of the real parameter (`ContentDisposition.MarkerFoolsTheParser`).
- The history check is written to catch a number broken across several messages. It judges the whole history
  only, so a figure sent before the pieces makes the run too long for a number and lets them through:
  `SplitNumbers.StretchesOverRuns` says exactly when, and `SplitNumbers.SplitNumberGetsThrough` gives a run.
- The repository's README describes ID submissions and tenant packets as paid. The code has no payment there,
  and neither has the model.

## Assumptions

- A handler is one atomic step, except the sponsored click, whose three database statements interleave with
  everything else. The payment controller runs its seven services one after another.
- The payment and SMS providers hand out fresh ids, the platform fee is a percentage between 0 and 100, and
  hashes are injective. Tokens are not guessed.
- Times, provider ids, query orders the database does not fix, and the verdict of the optional AI classifier
  are inputs. Where the source reads the clock several times in a handler, the model reads it once.
- The schema's unique columns hold: a voucher per job, a click per listing, tenant and day, a message per
  provider id, a phone number per row, a relay assignment per conversation.

## Model

| member | source | states |
|---|---|---|
| AuthTokens.AuthService.IssueTokenPair | apps/api/src/auth/auth.service.ts:270-300 | adds one live row, in the given family or in a fresh one |
| AuthTokens.AuthService.Register | apps/api/src/auth/auth.service.ts:46-92 | a taken address is refused; otherwise a new user gets a new family |
| AuthTokens.AuthService.Login | apps/api/src/auth/auth.service.ts:109-125 | a known user gets a new family |
| AuthTokens.AuthService.Refresh | apps/api/src/auth/auth.service.ts:135-174 | a row that is unknown is invalid, a revoked one is reuse and revokes what is live of its family, an expired one and an inactive user's are refused and change nothing, and exactly an unrevoked, unexpired one of an active user is revoked and succeeded in its family until now plus the lifetime |
| AuthTokens.AuthService.Logout | apps/api/src/auth/auth.service.ts:176-182 | revokes exactly the live token presented |
| AuthTokens.AuthService.RequestPasswordReset | apps/api/src/auth/auth.service.ts:191-224 | only an active user gets a reset, valid for an hour |
| AuthTokens.AuthService.ResetPassword | apps/api/src/auth/auth.service.ts:226-256 | an unused, unexpired reset is spent and revokes every live token of its user |
| AuthTokens.FamiliesStaySingle | apps/api/src/auth/auth.service.ts:135-174 | over every run, at most one live token and one user per family |
| AuthTokens.DeadForever | apps/api/src/auth/auth.service.ts:146-156 | a family without a live token never gets one again |
| AuthTokens.ReuseKillsTheFamily | apps/api/src/auth/auth.service.ts:146-156 | after a detected reuse no token of the family is ever live again |
| AuthTokens.ResetKillsTheSessions | apps/api/src/auth/auth.service.ts:236-246 | after a password reset no token of the user's existing families is ever live again |
| AuthTokens.LogoutKillsTheFamily | apps/api/src/auth/auth.service.ts:176-182 | logging out with the live token ends its session for good |
| AuthTokens.RotatedTokensAreDetected | apps/api/src/auth/auth.service.ts:135-174 | a rotated token, presented any time later, is always detected as reuse |
| AuthTokens.NextTokens | apps/api/src/auth/auth.service.ts:135-174 | an event adds a token exactly if it is a registration, a known user's sign-in or a refresh with an unrevoked, unexpired token of an active user; it is made out to that user until now plus the lifetime |
| AuthTokens.TokensAreEarned | apps/api/src/auth/auth.service.ts:270-300 | over every run: each token came from one such event and still has its user, family and expiry, so no refresh with an expired token or for a suspended user ever added one |
| TabSession.ApiClient.RefreshAccessToken | apps/dashboard/src/lib/api.ts:21-30 | sends one request with the stored token if none is under way, otherwise waits for it; gives up without a stored token |
| TabSession.ApiClient.FinishRefresh | apps/dashboard/src/lib/api.ts:33-47 | a granted pair is stored, a refusal clears the store, a network error leaves it; every waiting caller retries with the granted token or gives up, and the others are left alone |
| TabSession.AtMostOneRefresh | apps/dashboard/src/lib/api.ts:19-51 | over every run at most one refresh is under way, and nobody waits for one that is not |
| TabSession.UndisturbedTabStaysSignedIn | apps/dashboard/src/lib/api.ts:21-51 | without a lost rotated answer or a reset, the server never takes its reuse branch for the tab, and the stored token is live whenever nothing is under way |
| TabSession.UndisturbedFromTheStart | apps/dashboard/src/lib/api.ts:63-67 | the same from an empty server and a signed-out tab, for any run of any number of callers |
| TabSession.ReuseIffRevoked | apps/api/src/auth/auth.service.ts:135-174 | after any run that leaves nothing under way, the tab's next refresh is taken for reuse exactly if its stored token is revoked |
| TabSession.RotationRevokesTheStored | apps/dashboard/src/lib/token-store.ts:17-38 | after any run, while the rotated answer is under way the stored token is the revoked one |
| TabSession.LostAnswerSignsOut | apps/dashboard/src/lib/api.ts:40-47 | after any run, losing that answer kills the family at the next refresh and signs the user out |
| TabSession.LostAnswerHappens | apps/dashboard/src/lib/api.ts:21-51 | a concrete possible run in which a lost answer makes the next refresh count as theft |
| TabSession.ResetLooksLikeReuse | apps/api/src/auth/auth.service.ts:236-246 | after any run, a reset elsewhere makes the idle tab's next refresh a detected reuse |
| TabSession.ResetHappens | apps/api/src/auth/auth.service.ts:226-256 | a concrete possible run in which a reset signs the tab out the same way |
| GigJobs.GigJobsService.Create | apps/api/src/gig-jobs/gig-jobs.service.ts:39-76 | landlords, managers and administrators post an open job; a named property must exist, and landlords and managers must own or manage it |
| GigJobs.GigJobsService.Claim | apps/api/src/gig-jobs/gig-jobs.service.ts:113-144 | a tenant claims an open job through an own conversation, with the poster if the poster is a landlord or manager |
| GigJobs.GigJobsService.MarkComplete | apps/api/src/gig-jobs/gig-jobs.service.ts:146-164 | the claimer completes a claimed job |
| GigJobs.GigJobsService.RejectCompletion | apps/api/src/gig-jobs/gig-jobs.service.ts:166-184 | the poster sends a completed job back |
| GigJobs.GigJobsService.Cancel | apps/api/src/gig-jobs/gig-jobs.service.ts:186-204 | the poster cancels an open or claimed job |
| GigJobs.GigJobsService.PayAndConfirm | apps/api/src/gig-jobs/gig-jobs.service.ts:206-236 | the poster attaches a new order to a completed job |
| GigJobs.GigJobsService.HandlePaymentWebhook | apps/api/src/gig-jobs/gig-jobs.service.ts:239-285 | a paid order confirms the completed job it belongs to and issues its voucher; answers whether the order was its own |
| GigJobs.GigJobsService.ApplyVoucher | apps/api/src/gig-jobs/gig-jobs.service.ts:305-323 | the voucher's landlord or staff apply it once |
| GigJobs.FeeIsFair | apps/api/src/gig-jobs/gig-jobs.service.ts:264-266 | the fee lies in [0, payout] and within half a cent of the percentage |
| GigJobs.VoucherIsFair | apps/api/src/gig-jobs/gig-jobs.service.ts:264-281 | fee and credit add up to the payout; the voucher is the claimer's, with the conversation's landlord |
| GigJobs.StepKeepsInv | apps/api/src/gig-jobs/gig-jobs.service.ts:113-323 | a request confirms no job and issues no voucher; a confirmed job stays as it is, and its voucher too, except that applying marks it applied; every voucher fits its job |
| GigJobs.WebhookKeepsInv | apps/api/src/gig-jobs/gig-jobs.service.ts:239-285 | a delivery keeps: confirmed exactly if there is a voucher, and every voucher fits its job |
| SponsoredListings.JobReferralsService.Create | apps/api/src/job-referrals/job-referrals.service.ts:56-75 | an unpaid referral is active at once |
| SponsoredListings.JobReferralsService.CreateSponsored | apps/api/src/job-referrals/job-referrals.service.ts:77-123 | an employer's listing waits for its activation payment with an empty ledger |
| SponsoredListings.JobReferralsService.RequireOwnSponsoredListing | apps/api/src/job-referrals/job-referrals.service.ts:173-188 | who may top up or renew, and when |
| SponsoredListings.JobReferralsService.TopUp | apps/api/src/job-referrals/job-referrals.service.ts:125-147 | records the amount a new order will add |
| SponsoredListings.JobReferralsService.Renew | apps/api/src/job-referrals/job-referrals.service.ts:149-171 | records a renewal under a new order |
| SponsoredListings.JobReferralsService.Close | apps/api/src/job-referrals/job-referrals.service.ts:237-255 | the poster closes a listing that is not closed |
| SponsoredListings.JobReferralsService.ReadForClick | apps/api/src/job-referrals/job-referrals.service.ts:263-276 | the first statement of a click: only an active, running listing lets it in |
| SponsoredListings.JobReferralsService.InsertVisit | apps/api/src/job-referrals/job-referrals.service.ts:278-291 | the second statement: one visit per listing, tenant and day |
| SponsoredListings.JobReferralsService.BillClick | apps/api/src/job-referrals/job-referrals.service.ts:292-298 | the third statement: decrement and count, only if the budget covers the cost |
| SponsoredListings.JobReferralsService.HandlePaymentWebhook | apps/api/src/job-referrals/job-referrals.service.ts:304-371 | a paid order completes the pending operation, or only clears it on a closed listing; answers whether the order was its own |
| SponsoredListings.BudgetIsConserved | apps/api/src/job-referrals/job-referrals.service.ts:278-356 | over every interleaving: budget left plus cost times billed clicks is what was credited, the budget is never negative, billed clicks never exceed distinct visits |
| SponsoredListings.PaidTimeNeverOverlaps | apps/api/src/job-referrals/job-referrals.service.ts:324-368 | the granted intervals are 30 days each and pairwise disjoint, and the last one ends with the period |
| SponsoredListings.ClosedIsForever | apps/api/src/job-referrals/job-referrals.service.ts:237-255 | a closed listing stays closed, and later payments credit and grant nothing |
| Subscriptions.SubscriptionsService.GetOrCreateMine | apps/api/src/subscriptions/subscriptions.service.ts:38-46 | a landlord gets the one row there is, created if missing |
| Subscriptions.SubscriptionsService.CreateCheckout | apps/api/src/subscriptions/subscriptions.service.ts:48-76 | a checkout records the wanted tier and a new order |
| Subscriptions.SubscriptionsService.HandlePaymentWebhook | apps/api/src/subscriptions/subscriptions.service.ts:78-105 | the first row waiting for a paid order gets the tier it wanted, the configured days from now, and nothing pending; unpaid deliveries and other rows change nothing |
| PropertyBoosts.PropertiesService.PurchaseBoost | apps/api/src/properties/properties.service.ts:645-671 | staff, the owner and the assigned managers of an existing property may start a boost order |
| PropertyBoosts.PropertiesService.CanManage | apps/api/src/properties/properties.service.ts:701-720 | exactly staff, the owner and the assigned managers |
| PropertyBoosts.PropertiesService.HandlePaymentWebhook | apps/api/src/properties/properties.service.ts:673-699 | a paid order boosts its property for the period and is forgotten |
| HqsInspections.HqsInspectionsService.Create | apps/api/src/hqs-inspections/hqs-inspections.service.ts:45-78 | for whom may manage the property, an open request is returned, otherwise one is created awaiting payment |
| HqsInspections.HqsInspectionsService.AssertCanManageProperty | apps/api/src/hqs-inspections/hqs-inspections.service.ts:25-43 | an unknown property is not found; others than staff, owner and assigned managers are refused |
| HqsInspections.HqsInspectionsService.Cancel | apps/api/src/hqs-inspections/hqs-inspections.service.ts:89-104 | only an open request can be cancelled, by whom may manage its property |
| HqsInspections.HqsInspectionsService.Request | apps/api/src/hqs-inspections/hqs-inspections.service.ts:106-137 | a walkthrough is requested only after payment, by whom may manage the property |
| HqsInspections.HqsInspectionsService.HandlePaymentWebhook | apps/api/src/hqs-inspections/hqs-inspections.service.ts:139-161 | a paid order pays the request that awaits it |
| HqsInspections.StepKeepsInv | apps/api/src/hqs-inspections/hqs-inspections.service.ts:45-137 | at most one open request per property, and paid or requested only with a payment date |
| Applications.ApplicationsService.CreateOrGet | apps/api/src/applications/applications.service.ts:107-142 | one application per conversation; the tenant's own one is returned if it exists |
| Applications.ApplicationsService.Update | apps/api/src/applications/applications.service.ts:150-223 | a denied or withdrawn application reopens; one that is submitted, under review or approved does not |
| Applications.ApplicationsService.Pay | apps/api/src/applications/applications.service.ts:225-261 | a fee that is still open gets its checkout once |
| Applications.ApplicationsService.Submit | apps/api/src/applications/applications.service.ts:263-298 | only a started application goes out, and only with its fee paid |
| Applications.ApplicationsService.Withdraw | apps/api/src/applications/applications.service.ts:300-315 | the tenant withdraws what is submitted or under review |
| Applications.ApplicationsService.MarkUnderReview | apps/api/src/applications/applications.service.ts:346-361 | only a submitted application comes under review |
| Applications.ApplicationsService.Decide | apps/api/src/applications/applications.service.ts:363-384 | only a submitted or reviewed application is decided |
| Applications.ApplicationsService.HandlePaymentWebhook | apps/api/src/applications/applications.service.ts:386-408 | a paid order dates the payment of the unpaid application it belongs to |
| Applications.StepKeepsInv | apps/api/src/applications/applications.service.ts:107-384 | one application per conversation, and none past the start with an unpaid fee |
| TenantScreenings.TenantScreeningsService.EnsureCheckout | apps/api/src/tenant-screenings/tenant-screenings.service.ts:79-98 | a screening keeps the first checkout it gets |
| TenantScreenings.TenantScreeningsService.CreateMine | apps/api/src/tenant-screenings/tenant-screenings.service.ts:110-130 | the tenant's unpaid portable screening is reused or created |
| TenantScreenings.TenantScreeningsService.RequestForTenant | apps/api/src/tenant-screenings/tenant-screenings.service.ts:132-177 | the same on another user's request, naming the first initiator |
| TenantScreenings.TenantScreeningsService.CreateForConversation | apps/api/src/tenant-screenings/tenant-screenings.service.ts:179-217 | only the landlord asks, and a live screening of the conversation is reused |
| TenantScreenings.TenantScreeningsService.Pay | apps/api/src/tenant-screenings/tenant-screenings.service.ts:227-234 | the tenant gets a checkout for an unpaid screening |
| TenantScreenings.TenantScreeningsService.Decline | apps/api/src/tenant-screenings/tenant-screenings.service.ts:236-246 | the tenant declines an unpaid screening |
| TenantScreenings.TenantScreeningsService.Share | apps/api/src/tenant-screenings/tenant-screenings.service.ts:248-270 | a completed, unexpired portable screening is shared into an own conversation, once |
| TenantScreenings.TenantScreeningsService.MarkSubmittedExternally | apps/api/src/tenant-screenings/tenant-screenings.service.ts:400-411 | only a paid screening is submitted |
| TenantScreenings.TenantScreeningsService.UploadResult | apps/api/src/tenant-screenings/tenant-screenings.service.ts:413-443 | only a paid or submitted screening gets a result, with its expiry |
| TenantScreenings.TenantScreeningsService.CancelByAdmin | apps/api/src/tenant-screenings/tenant-screenings.service.ts:445-456 | what is neither complete, declined nor cancelled can be cancelled |
| TenantScreenings.TenantScreeningsService.HandlePaymentWebhook | apps/api/src/tenant-screenings/tenant-screenings.service.ts:365-387 | a paid order pays the screening that awaits it |
| TenantScreenings.ScreeningsStayInOrder | apps/api/src/tenant-screenings/tenant-screenings.service.ts:110-456 | over every run: a paid or complete screening's own order was reported paid, at most one unpaid portable screening per tenant, at most one live screening per conversation |
| TenantScreenings.ResultsReachOnlyInsiders | apps/api/src/tenant-screenings/tenant-screenings.service.ts:300-337 | a download reaches only staff, the tenant, the initiator, or a landlord in a conversation with that tenant |
| TenantScreenings.DownloadsExactlyIf | apps/api/src/tenant-screenings/tenant-screenings.service.ts:300-337 | a result is handed out exactly to staff, the tenant, the initiator, the conversation's landlord and landlords it was shared with, and only of a complete screening whose file has a name and a type |
| TenantScreenings.ConversationShows | apps/api/src/tenant-screenings/tenant-screenings.service.ts:347-361 | a conversation stands for its own newest complete screening, else for the complete one shared into it last |
| TenantScreenings.ConversationPathIsNeverRefused | apps/api/src/tenant-screenings/tenant-screenings.service.ts:339-363 | the inner access check never refuses whom the conversation path let in |
| Payments.PaymentWebhooksController.Handle | apps/api/src/id-submissions/payment-webhooks.controller.ts:38-53 | a validly signed event is offered to all seven services, anything else changes nothing |
| Payments.DeliverySettles | apps/api/src/id-submissions/payment-webhooks.controller.ts:44-51 | a paid delivery changes exactly the records that await its order, to their settled form |
| Payments.DeliveryTakesEffect | apps/api/src/id-submissions/payment-webhooks.controller.ts:44-51 | a delivery changes something exactly if it is paid and a record awaits its order and is ready |
| Payments.DeliveryChangesOneRecord | apps/api/src/id-submissions/payment-webhooks.controller.ts:44-51 | one delivery changes at most one record system-wide, a job counted with its voucher |
| Payments.PaymentsTakeEffectOnce | apps/api/src/id-submissions/payment-webhooks.controller.ts:38-53 | over every run each order changes the stored state at most once |
| Payments.ConfirmedJobsHaveTheirVoucher | apps/api/src/gig-jobs/gig-jobs.service.ts:249-283 | over every run a job is confirmed exactly if it has its voucher, made out to its claimer and the right landlord, and a paid delivery of the run under its order split the payout, the fee within half a cent of that delivery's percentage |
| Payments.DifferentOrdersCommute | apps/api/src/id-submissions/payment-webhooks.controller.ts:44-51 | deliveries of different orders can be swapped |
| Payments.NextOrders | apps/api/src/applications/applications.service.ts:225-244 | a step attaches no order but its own new one, to one record, and revives no spent order |
| PaymentEffects.CheckoutBuysItsTier | apps/api/src/subscriptions/subscriptions.service.ts:48-105 | over every run: after a checkout and the first paid delivery of its order, with no later checkout of that user between, the user's one row has exactly that tier, the configured days from the delivery and nothing pending |
| PaymentEffects.BoostIsBought | apps/api/src/properties/properties.service.ts:645-699 | over every run: the paid boost order makes its property boosted for the configured days and is forgotten, unless another was attached |
| PaymentEffects.InspectionIsPaid | apps/api/src/hqs-inspections/hqs-inspections.service.ts:45-161 | over every run: the paid order of a new inspection request makes it paid, now, unless it was cancelled |
| PaymentEffects.ScreeningIsPaid | apps/api/src/tenant-screenings/tenant-screenings.service.ts:227-387 | over every run: the paid order of an unpaid screening makes it paid, now, unless it was declined or cancelled |
| PaymentEffects.ApplicationIsPaid | apps/api/src/applications/applications.service.ts:225-408 | over every run: the paid order of an open fee dates that application as paid, whatever happens to it in between |
| PaymentEffects.ListingIsActivated | apps/api/src/job-referrals/job-referrals.service.ts:77-356 | over every run: the paid order of a new listing makes it active for thirty days on its initial budget, unless it was closed |
| PaymentEffects.TopUpIsAdded | apps/api/src/job-referrals/job-referrals.service.ts:125-356 | over every run: a paid top-up adds exactly its amount to what clicks have left, and changes nothing else |
| PaymentEffects.RenewalIsGranted | apps/api/src/job-referrals/job-referrals.service.ts:149-368 | over every run: a paid renewal adds thirty days to the period still running, or starts thirty from now |
| PaymentEffects.JobIsConfirmed | apps/api/src/gig-jobs/gig-jobs.service.ts:206-285 | over every run: a paid job is confirmed and its claimer has an unapplied voucher that splits the payout, unless the completion was rejected or paid anew |
| PaymentEffects.UnpaidChangesNothing | apps/api/src/id-submissions/payment-webhooks.controller.ts:44-51 | an unpaid delivery leaves every table alone |
| Regex.EndsAreMatches | apps/api/src/moderation/contact-info-detector.util.ts:20-30 | the backtracking matcher finds exactly the matches the pattern has |
| Regex.MatchAllFinds | apps/api/src/moderation/contact-info-detector.util.ts:153-175 | a global search finds something exactly if some substring matches |
| Regex.MatchAllReturns | apps/api/src/moderation/contact-info-detector.util.ts:153-175 | every string a search returns is a matching substring |
| Regex.LowerKeepsMatches | apps/api/src/moderation/contact-info-detector.util.ts:78-91 | a case-insensitive pattern matches the same places after lower-casing |
| SeparatorCollapse.CollapseDigitSeparators | apps/api/src/moderation/contact-info-detector.util.ts:107-115 | the loop ends at the fixpoint, without separators between digits and with every other character in order |
| SeparatorCollapse.PassIsSqueeze | apps/api/src/moderation/contact-info-detector.util.ts:107-115 | one global replacement drops every run of separators between two digits |
| SeparatorCollapse.OneRoundSuffices | apps/api/src/moderation/contact-info-detector.util.ts:107-115 | the first round already reaches the fixpoint |
| SeparatorCollapse.SqueezeKeepsTheRest | apps/api/src/moderation/contact-info-detector.util.ts:107-115 | collapsing keeps the exact sequence of non-separator characters |
| SeparatorCollapse.ContiguousPhoneMatches | apps/api/src/moderation/contact-info-detector.util.ts:26 | the bare-number pattern matches exactly ten digits, or eleven starting with 1, standing alone |
| SeparatorCollapse.CollapseFindsSpacedPhones | apps/api/src/moderation/contact-info-detector.util.ts:189-211 | the collapsed text holds a bare number exactly if the text holds a maximal digit-and-separator run of ten digits, or eleven starting with 1, bounded by non-word characters |
| ContactInfoDetector.FindKeywordMatches | apps/api/src/moderation/contact-info-detector.util.ts:117-131 | reports the keywords that occur, in the list's order |
| ContactInfoDetector.SearchAsTyped | apps/api/src/moderation/contact-info-detector.util.ts:149-175 | reports on phones, e-mail addresses and links in the text as typed, without counting a number twice |
| ContactInfoDetector.SearchNormalized | apps/api/src/moderation/contact-info-detector.util.ts:177-211 | adds worded addresses and disguised numbers, behind the skip guards and the already-found filters |
| ContactInfoDetector.DetectContactInfo | apps/api/src/moderation/contact-info-detector.util.ts:149-233 | builds exactly the specified reports, and blocks exactly if a pattern or keyword, applied plainly, finds something; the rows of Disguises, WordedEmails and ContactPatterns say in characters what that is |
| ContactInfoDetector.BlockedIsPlain | apps/api/src/moderation/contact-info-detector.util.ts:153-229 | the skip guards and filters never change the verdict |
| ContactInfoDetector.PhoneVerdict | apps/api/src/moderation/contact-info-detector.util.ts:189-211 | the guarded phone searches find something exactly if the plain ones do |
| ContactInfoDetector.EmailVerdict | apps/api/src/moderation/contact-info-detector.util.ts:177-187 | the same for e-mail addresses |
| ContactInfoDetector.SettledHasNoGroupedPhone | apps/api/src/moderation/contact-info-detector.util.ts:191-194 | the grouped phone pattern can match nothing in collapsed text |
| ContactInfoDetector.PlainlyKeepsNumbers | apps/api/src/moderation/contact-info-detector.util.ts:190 | lower-casing the text and squeezing its blanks, as the second skip guard does, neither makes nor breaks a bare number |
| ContactInfoDetector.SpacedPhoneIsBlocked | apps/api/src/moderation/contact-info-detector.util.ts:89-115 | a message whose undisguised text shows a phone number is blocked, whatever the spelling or spacing |
| WordRewrites.ReplaceWholeWords | apps/api/src/moderation/contact-info-detector.util.ts:76-91 | a global replacement between word boundaries rewrites exactly the maximal words its pattern means and copies everything else |
| Disguises.NumberWordsLaw | apps/api/src/moderation/contact-info-detector.util.ts:63-91 | each maximal word that is one of the eleven number words becomes its figure, everything else is only lower-cased |
| Disguises.LookalikesLaw | apps/api/src/moderation/contact-info-detector.util.ts:99-104 | O, o, I and l become figures exactly in words of two to four such letters and digits that hold a digit |
| Disguises.SpelledPhoneIsBlocked | apps/api/src/moderation/contact-info-detector.util.ts:189-211 | ten digits, or eleven starting with 1, in any mix of figures and number words in any letter case with any blanks, dots and dashes between, are blocked wherever the text around leaves them alone |
| BlankRewrites.ReplacePadded | apps/api/src/moderation/contact-info-detector.util.ts:83-84 | the replacement of a padded mark takes all the blanks around every mark and nothing else |
| BlankRewrites.ReplaceBlanks | apps/api/src/moderation/contact-info-detector.util.ts:85 | every run of blanks within a line becomes one blank |
| WordedEmails.AtDotLaw | apps/api/src/moderation/contact-info-detector.util.ts:78-86 | the words at and dot become their signs, signs lose the blanks around them, and runs of blanks become one |
| WordedEmails.WordedEmailIsBlocked | apps/api/src/moderation/contact-info-detector.util.ts:177-187 | every user, at, host, dot, domain is blocked: words or signs, in any letter case and with any blanks, wherever no word runs into it |
| ContactPatterns.GroupedMatches | apps/api/src/moderation/contact-info-detector.util.ts:20 | the grouped pattern matches exactly: an optional country code, three figures with or without parentheses, a separator, three figures, a separator, four figures and the end of the word |
| ContactPatterns.EmailMatches | apps/api/src/moderation/contact-info-detector.util.ts:28 | the e-mail pattern matches exactly the addresses, character by character |
| ContactPatterns.LinkMatches | apps/api/src/moderation/contact-info-detector.util.ts:30 | its first half matches exactly what starts with http://, https:// or www. in any letter case and goes on without blanks to the end of a word |
| ContactPatterns.DomainMatches | apps/api/src/moderation/contact-info-detector.util.ts:30 | its second half matches exactly a host name with one of the five top-level domains in any letter case |
| ContactPatterns.BlockedMeans | apps/api/src/moderation/contact-info-detector.util.ts:153-229 | a message is blocked exactly if it shows an address as typed or worded, a link, a grouped, bare or disguised number, or a listed word |
| ContactPatterns.LowerIsAlphabetic | apps/api/src/moderation/contact-info-detector.util.ts:123 | lower-casing takes A to Z to a to z letter by letter and leaves the rest |
| ContactPatterns.KeywordsAreReported | apps/api/src/moderation/contact-info-detector.util.ts:32-61 | a word is reported as social media, payment or off-platform exactly if it is on that list and occurs in any letter case |
| ContactPatterns.TypedContactsAreReported | apps/api/src/moderation/contact-info-detector.util.ts:153-173 | addresses, links and grouped numbers that are shown are reported as typed, with their confidence |
| ContactPatterns.NumbersAreReportedOnce | apps/api/src/moderation/contact-info-detector.util.ts:158-163 | a bare match is reported exactly if no grouped number with the same figures is |
| ContactPatterns.DisguisedContactsAreReported | apps/api/src/moderation/contact-info-detector.util.ts:177-211 | what is shown only after a rewriting is reported as normalized, with its confidence |
| ContactPatterns.ReportsAreOfTheirKind | apps/api/src/moderation/contact-info-detector.util.ts:153-215 | every report is of one of the nine kinds, with its confidence |
| ContactPatterns.ReportsAreRanked | apps/api/src/moderation/contact-info-detector.util.ts:153-215 | the reports come in the order of the layers, which decides between equal confidences |
| Moderation.ModerationService.EvaluateWithHistory | apps/api/src/moderation/moderation.service.ts:37-60 | direct rules first, then the recent history, then the classifier; a message gets through exactly if it passes alone, passes after the sender's recent ones, and the classifier has nothing |
| Moderation.ModerationService.DetectSplitAcrossHistory | apps/api/src/moderation/moderation.service.ts:69-105 | the sender's last five delivered messages of half an hour, oldest first, joined with the new one |
| Moderation.ModerationService.IsRestricted | apps/api/src/moderation/moderation.service.ts:125-134 | an unlifted restriction without end, or not yet over |
| Moderation.ModerationService.RecordViolationAndEscalate | apps/api/src/moderation/moderation.service.ts:147-210 | one violation with the sanction of its rank, with its restriction or flag |
| Moderation.ModerationService.ImposeRestriction | apps/api/src/moderation/moderation-admin.service.ts:92-123 | staff restrict an existing user for some hours, or without end |
| Moderation.ModerationService.LiftRestriction | apps/api/src/moderation/moderation-admin.service.ts:125-145 | staff lift an existing restriction |
| Moderation.RecentIsNewest | apps/api/src/moderation/moderation.service.ts:74-88 | the history is the newest end of all the messages the query could return, at most five; HistoryIsRecent says which those are |
| Moderation.HistoryIsRecent | apps/api/src/moderation/moderation.service.ts:74-88 | every message of the history is a stored one of that conversation and that sender, not blocked and at most 30 * 60 * 1000 ms old; a stored message with these properties that is missing has five newer ones with them in it |
| Moderation.EvaluateMeans | apps/api/src/moderation/moderation.service.ts:37-104 | a blocked message gets the first report of highest confidence; one blocked only with the history gets that of the joined text as a history report of at most 65 percent without a snippet; any other gets the classifier's verdict |
| Moderation.CombinedIsJoined | apps/api/src/moderation/moderation.service.ts:93 | the text judged is that history, oldest first, joined with the new message by blanks |
| Moderation.WorstIsFirstHighest | apps/api/src/messages/messages.service.ts:91 | the reported match is the first one of the highest confidence |
| Moderation.SplitPhoneIsStopped | apps/api/src/moderation/moderation.service.ts:69-105 | a phone number spread over recent messages stops the one that completes it |
| Moderation.UnrestrictedMeansOver | apps/api/src/moderation/moderation.service.ts:125-134 | a user let through has had the automatic restriction lifted or run out |
| Moderation.OfCounts | apps/api/src/moderation/moderation.service.ts:147-165 | the rank of a sanction is the number of the user's stored violations |
| Moderation.RecordKeepsInv | apps/api/src/moderation/moderation.service.ts:147-210 | recording a violation of an unrestricted user keeps every user in step with the ladder |
| Moderation.StaffKeepsInv | apps/api/src/moderation/moderation-admin.service.ts:92-145 | so does whatever staff impose and lift |
| Messages.MessagesService.Compose | apps/api/src/messages/messages.service.ts:47-187 | the gates in order; a blocked message is kept, recorded as a violation and flags its conversation, any other moves the conversation on |
| Messages.MessagesService.IngestInbound | apps/api/src/messages/messages.service.ts:195-353 | an id already stored changes nothing; otherwise the same gates, without the party check |
| Messages.ComposedMeans | apps/api/src/messages/messages.service.ts:47-187 | in fields: who is refused why; a stopped message is stored as blocked, flags its conversation and is recorded under its report, a delivered one is stored with its recipient and dates its conversation |
| Messages.IngestedMeans | apps/api/src/messages/messages.service.ts:195-353 | the same for a text: a stored id changes nothing, and a stopped text flags no conversation |
| Messages.EscalationOverRuns | apps/api/src/moderation/moderation.service.ts:147-210 | over every run: n blocked messages are n violations with the first n sanctions; flags number max(0, n-3); one automatic restriction once n reaches 3; no later violation within a day of it unless staff lifted it |
| Messages.RestrictionHoldsOverRuns | apps/api/src/messages/messages.service.ts:59-63 | over every run: for a day after a third violation nothing its sender writes is stored, unless staff lifted the restriction |
| Messages.DeliveriesPassOverRuns | apps/api/src/moderation/moderation.service.ts:37-60 | over every run: what was delivered showed nothing, alone or after its sender's recent messages, and outbound messages come from a party |
| SplitNumbers.StretchesOverRuns | apps/api/src/moderation/moderation.service.ts:69-105 | over every run, for up to six consecutive delivered messages of one sender in one conversation within half an hour: joined by blanks with the ones of the half hour before them, if they are not yet six, they pass the detector; alone they show a number exactly if they open with it and what came before ends in a figure |
| SplitNumbers.FullStretchesPass | apps/api/src/moderation/moderation.service.ts:69-105 | over every run: six of them, or all there are, pass the detector when they are joined by blanks |
| SplitNumbers.SecondShows | apps/api/src/moderation/moderation.service.ts:90-94 | of two texts that together show no number, the second shows one by itself exactly if it opens with it and the first ends in a figure |
| SplitNumbers.SplitNumberGetsThrough | apps/api/src/moderation/moderation.service.ts:60-68 | a possible run that delivers 5, 904 5 and 55 1234, of which the last two show a number |
| Conversations.ConversationsService.AssignRelayNumber | apps/api/src/conversations/conversations.service.ts:183-197 | the first candidate with room after a stable sort by load, and none only if none has room |
| Conversations.ConversationsService.StartConversation | apps/api/src/conversations/conversations.service.ts:39-132 | role, property, unit and bed are checked in turn; an open conversation is reused, otherwise one is created with a relay number; the first message may be refused and still leave it open |
| Conversations.NewConversationFits | apps/api/src/conversations/conversations.service.ts:52-109 | a conversation that starts is with the property's last manager or its owner, about a unit of the property and a bed of that unit where named, over a number with room, and the tenant had none open about it |
| Conversations.StartsExactlyIf | apps/api/src/conversations/conversations.service.ts:39-132 | a conversation starts exactly if a tenant asks about an active property and a unit and bed that belong to it, has none about it going on, and some active number carries fewer conversations than its capacity |
| Conversations.OpenConversationIsReused | apps/api/src/conversations/conversations.service.ts:73-132 | a first message goes to the tenant's conversation about the property that is going on |
| Conversations.LoadCounts | apps/api/src/conversations/conversations.service.ts:183-197 | a number's load is how many conversations run over it |
| Conversations.AssignedIsLeast | apps/api/src/conversations/conversations.service.ts:183-197 | the chosen number is active, has room, no active number with room carries less and none before it in the candidates' order as little; none is chosen only if all are full |
| Conversations.RelaysStayBalanced | apps/api/src/conversations/conversations.service.ts:85-109 | over every run, whatever order candidates come in: no number above its capacity, none more than one above an active number with room |
| SmsRouting.SmsRoutingService.RouteText | apps/api/src/sms/sms-routing.service.ts:38-120 | a reply with the number of an entry of a waiting menu takes the held message out of it; otherwise an unknown number, an unverified phone or no candidate is not found, one candidate gets the text, and several are asked about for ten minutes |
| SmsRouting.SmsRoutingService.Inbound | apps/api/src/sms/sms-webhooks.controller.ts:32-72 | a bad signature changes nothing; what is routed is ingested, under the id and body it is routed with |
| SmsRouting.TextsAreStoredFaithfully | apps/api/src/sms/sms-routing.service.ts:38-120 | over every run with retries, overwritten and expired menus: each id is stored at most once, with the text sent under it, as from the verified owner of the sending phone, in a conversation of that owner over the number it was sent to |
| SmsRouting.ReplyDeliversTheHeldText | apps/api/src/sms/sms-routing.service.ts:42-59 | a valid reply delivers the held message into the selected conversation and is not stored itself |
| SmsRouting.OnlyConversationGetsTheText | apps/api/src/sms/sms-routing.service.ts:76-98 | a text from a verified phone that can belong to exactly one open conversation over the number goes there, as from the phone's owner |
| SmsRouting.SeveralConversationsAreAskedFor | apps/api/src/sms/sms-routing.service.ts:76-119 | one that can belong to several is held, and the menu lists exactly these |
| SmsRouting.StoredTextsAreNotStoredAgain | apps/api/src/messages/messages.service.ts:206-215 | a repeated delivery of a stored id changes nothing, whichever way it is routed |
| SmsRouting.NumberSelects | apps/api/src/sms/sms-routing.service.ts:49-50 | any spelling of an entry's number selects it: blanks before, zeros in front, text behind |
| SmsRouting.ShownNumberSelects | apps/api/src/sms/sms-routing.service.ts:49-50 | the decimal figures of n select the n-th entry, and nothing if there is none |
| RateLimiter.RateLimiterService.Consume | apps/api/src/redis/rate-limiter.service.ts:20-32 | counts one call on the key, starting a new lifetime if none is running, allows it up to the limit, tells the seconds left to the nearest, and touches no other key |
| RateLimiter.LifetimeLimit | apps/api/src/redis/rate-limiter.service.ts:20-32 | a key's lifetime starts with an allowed call and allows at most the limit |
| RateLimiter.WindowBound | apps/api/src/redis/rate-limiter.service.ts:20-32 | any stretch of time as long as the window sees at most 2 * limit - 1 allowed calls, none if the limit is 0 |
| RateLimiter.BoundIsReached | apps/api/src/redis/rate-limiter.service.ts:20-32 | for every window and limit some calls reach that bound |
| JsText.Utf8RoundTrip | apps/api/src/showings/ics.util.ts:49 | the octets of a code point decode to it |
| JsText.BytesReadBack | apps/api/src/showings/ics.util.ts:49 | a reader of the bytes gets the string with every unpaired surrogate replaced |
| JsText.BytesRoundTrip | apps/api/src/showings/ics.util.ts:49 | bytes bring a string back exactly if it has no unpaired surrogate |
| UriComponent.RoundTrip | apps/api/src/common/utils/content-disposition.util.ts:12 | encoding fails exactly on unpaired surrogates, and decoding undoes it |
| UriComponent.EncodedIsPlain | apps/api/src/common/utils/content-disposition.util.ts:12 | encoded text has only kept characters and percent signs |
| UriComponent.EncodedAscii | apps/api/src/common/utils/content-disposition.util.ts:12 | of ASCII, letters, figures and nine marks stay as they are; anything else becomes a percent sign and two upper-case hexadecimal digits |
| UriComponent.DecodeShrinks | apps/dashboard/src/lib/api.ts:111 | decoding makes no text longer, nor empty |
| ContentDisposition.HeaderRoundTrip | apps/dashboard/src/lib/api.ts:108-114 | parsing the printed header gives the cleaned name exactly if it is not empty and holds no marker that a further unit other than a semicolon follows |
| ContentDisposition.MarkedNameReads | apps/dashboard/src/lib/api.ts:108-114 | what exactly is read for a name with a live marker |
| ContentDisposition.UnmarkedReadsBack | apps/dashboard/src/lib/api.ts:110-111 | without a live marker the extended parameter is what is read |
| ContentDisposition.MarkedIsLost | apps/dashboard/src/lib/api.ts:110-111 | with one, what follows the first of them in the quoted fallback is decoded instead, a shorter text |
| ContentDisposition.MarkerFoolsTheParser | apps/dashboard/src/lib/api.ts:110-111 | a concrete name that comes back as another: a.pdf with a quote |
| ContentDisposition.EmptyNameReadsAsDownload | apps/api/src/common/utils/content-disposition.util.ts:11 | the empty name is read as "download" |
| ContentDisposition.HeaderIsPrintable | apps/api/src/common/utils/content-disposition.util.ts:9-14 | the header is printable ASCII whose only quotes delimit the fallback; building fails exactly on unpaired surrogates |
| ContentDisposition.HeaderText | apps/api/src/common/utils/content-disposition.util.ts:9-14 | the header is the mode, the name with an underscore for all but printable ASCII, or download, in quotes, and the encoded name |
| ContentDisposition.CleanOfConcat | apps/api/src/common/utils/content-disposition.util.ts:10 | cleaning works unit by unit |
| ContentDisposition.CleanOfOne | apps/api/src/common/utils/content-disposition.util.ts:10 | it drops exactly carriage returns, line feeds and quotes |
| Ics.ChainIsOnePass | apps/api/src/showings/ics.util.ts:5-7 | the chained replacements equal a one-pass escape |
| Ics.UnescapeUndoes | apps/api/src/showings/ics.util.ts:5-7 | unescaping gives back every text |
| Ics.FoldLine | apps/api/src/showings/ics.util.ts:10-21 | the loop builds the physical lines and joins them |
| Ics.FoldsAreFull | apps/api/src/showings/ics.util.ts:10-21 | a line of at most 75 units stays whole, and of a longer one every physical line but the last has exactly 75 |
| Ics.LinesFit | apps/api/src/showings/ics.util.ts:10-21 | no physical line of a file, as a reader splits it, is longer than 75 units |
| Ics.LinesReadBack | apps/api/src/showings/ics.util.ts:10-21 | splitting and unfolding a file gives back its lines |
| Ics.TimestampForm | apps/api/src/showings/ics.util.ts:1-3 | a timestamp is the UTC date-time form of RFC 5545, to the second |
| Ics.TimestampTells | apps/api/src/showings/ics.util.ts:1-3 | the numbers read from a timestamp's figures are the year, month, day, hour, minute and second, with a T and a Z in their places |
| Ics.BuildShowingIcs | apps/api/src/showings/ics.util.ts:23-50 | the file is the UTF-8 of the folded, joined and terminated lines |
| Ics.CalendarReadsBack | apps/api/src/showings/ics.util.ts:31-49 | what a reader finds by name after splitting, unfolding and unescaping: the one UID, DTSTAMP, DTSTART and DTEND with the identity, the current time, the start and the end, the one SUMMARY, DESCRIPTION and LOCATION with their texts, and the other nine properties as written, in their places; no line is longer than 75 units |
| IcsBytes.OctetLimit | apps/api/src/showings/ics.util.ts:9-21 | the physical lines of a line keep to 75 octets exactly if it has at most 75 octets, or is longer than 75 units, ASCII up to its last physical line, and that one is short enough; ASCII lines do |
| IcsBytes.CalendarOctetLimit | apps/api/src/showings/ics.util.ts:31-49 | the file consists of the octets of the calendar's physical lines, and these keep to 75 octets exactly if every property line does |
| IcsBytes.AccentsBreakTheLimit | apps/api/src/showings/ics.util.ts:9-21 | forty accented letters as a summary make a physical line of 48 units and 88 octets |
| IcsBytes.CalendarBytesReadBack | apps/api/src/showings/ics.util.ts:49 | decoding the file gives back the calendar exactly if no fold falls inside a surrogate pair |
| IcsBytes.CutCharacterIsLost | apps/api/src/showings/ics.util.ts:9-21 | a summary of 66 letters and an emoji does not come back |

## Left out

- Handler races other than sponsored clicks: two concurrent refreshes, webhook deliveries or conversation starts interleave in the code; the model serializes them.
- Signature checks are a boolean: which of the seven services notices a bad signature first is not told apart.
- ContactInfoDetector.DetectContactInfo: on ASCII text only, since lower-casing beyond it changes lengths and classes, and white space beyond it is not modelled.
- Moderation.SplitPhoneIsStopped: speaks of any text, but says what the code does on ASCII text only, where the detector's functions are the code's.
- Messages.DeliveriesPassOverRuns: the same.
- SplitNumbers.StretchesOverRuns: the same.
- GigJobs.FeeIsFair: over exact reals; the code computes the percentage in double precision, which can round a fee that lies within rounding error of half a cent the other way.
- Moderation.ModerationService.EvaluateWithHistory: returns the one report that decides, not the list of matches and the sanitized text.
- The sanitized text of blocked messages and the snippets of disguised matches: redaction depends on overlapping snippets and letter case.
- The mapping of the AI classifier's categories: its verdict is an input.
- Ics.CalendarReadsBack: requires an identifier without a line break, which is what the database hands out; years run from 0 to 9999.
- RateLimiter.RateLimiterService.Consume: increment and expiry are one step, so a crash between them, which would leave a key without an end, is not modelled.
- SmsRouting.SmsRoutingService.RouteText: phone numbers and relay numbers are compared as values, the menu's JSON is a record, and the text of the menu message is not modelled.
- Delivery-status callbacks: they change only the status of messages the platform sent, which nothing here depends on.
- Text messages and e-mails sent on the way, audit logs and live updates: effects nothing here reads. A failed send would abort a handler half-way.
- How properties, units, beds and manager assignments come about: they are given, and may change between requests.
- Password hashes, JWT access tokens, AES, HMAC, phone verification and the checkout calls: foreign code; their results are inputs.
- Showing schedules, waitlists, lenders, voucher access, user roles, search and the user interface: simple guards or wiring that would only add easy members.
- Haversine distances, search-preview percentages and randomised feeds: floating-point trigonometry and probability.
