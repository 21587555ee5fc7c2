# Website-builder SaaS backend and client pages, modelled in Dafny

The system sells website-building plans. A client signs up with a password or a
Google identity token. The client fills in a five-step onboarding wizard that
creates a business profile, picks a plan, and pays through a hosted checkout
of the card processor. The payment is confirmed twice: by the processor's
webhook, and by the dashboard calling a verification endpoint when the browser
returns from checkout. A super-admin manages plans (which mirror products and
prices at the processor), users, admins and the transaction ledger. An admin
edits page content and reads dashboard statistics. System settings hold the
processor keys, with the environment as fallback. An exchange rate from USD to
INR is cached in memory for an hour.

The model has one Dafny module per core source file:

- `subscriptions.dfy`: checkout session creation, the webhook dispatcher and its two handlers, and session verification.
- `stripe_config.dfy`: the key and webhook-secret fallback, and the exchange-rate cache (`RateCache`).
- `plans.dfy`: the localised public price list, and plan create, update and delete.
- `auth_middleware.dfy`: the bearer-token guard and the two role gates.
- `users.dfy`: the profile upsert and the profile read.
- `super_admin.dfy`: admins, user deletion and editing, and the ordered listings.
- `admin_stats.dfy`: the dashboard statistics.
- `content.dfy`: page content read, upsert and admin listing.
- `settings.dfy`: the get-or-create settings row, its public view, and its update.
- `auth.dfy`: register, login, Google login and the token payload.
- `dashboard_page.dfy`, `onboarding.dfy`, `plan_form.dfy`, `sidebar.dfy`, `users_page.dfy`, `transactions_page.dfy`, `login_page.dfy`: the client pages.

Shared helper modules:

- `records.dfy`: the rows of the database.
- `store.dfy` (module `Db`): the database as a class `Store`, one `seq` field per table plus an id counter.
- `browser.dfy`: the browser, as a class `Window` holding `localStorage` and an ordered trace of requests and navigations.
- `wrappers.dfy`: `Option`, and `Patch` for request fields. A field is either left undefined (`Keep`), sent as null (`SetNull`), or given a value (`Set`).
- `numbers.dfy`: rounding on reals.
- `text.dfy`: string helpers (lower case, trim, split, join, contains).
- `seqs.dfy`: sequence helpers (find, filter, subsequence, unique keys, insertion sort).

Each server handler is a method on the store with a field-precise `modifies`
frame. Its `ensures` ties the new tables and the reply to a value-level
specification function of the old tables, and the properties are lemmas about
those functions.

Replies of outside services are method parameters, with `None` standing for a
call that threw:

- the card processor;
- the exchange-rate service;
- geolocation;
- password hashing;
- token signing;
- the clock.

Client pages are classes over their component state, and each handler's
effects are appended to the window's trace.

## Model

| member | source | states |
|---|---|---|
| Subscriptions.ResolveCurrency | server/controllers/subscriptionController.js:53-63 | A currency sent in the body wins. Otherwise the result is INR exactly when the trimmed, lower-cased country is "india" or "in", and USD in every other case. |
| Subscriptions.CountryDetection | server/controllers/subscriptionController.js:53-63 | Worked cases of ResolveCurrency: " India " and "IN" give INR, no country gives USD, and an explicit USD overrides India. |
| Subscriptions.InrUnitAmount | server/controllers/subscriptionController.js:82 | The paise amount is the USD price times the rate times 100, rounded to the nearest whole number. |
| Subscriptions.PlanByName | server/controllers/subscriptionController.js:26-33 | The first plan whose name equals the request's name ignoring case; none exactly when no plan matches. |
| Subscriptions.CheckoutFailureOrder | server/controllers/subscriptionController.js:14-38 | With a key available, checks fail in order: unknown user 404, then missing plan name 400, then no matching plan 404. Each failure leaves users and the rate cache untouched. |
| Subscriptions.CheckoutNeedsKey | server/controllers/subscriptionController.js:8 | With no key in settings or the environment the request fails with a 500 before any lookup. |
| Subscriptions.CreatedSessionLineItem | server/controllers/subscriptionController.js:66-107 | A created session has quantity 1 and the plan has a USD price id. The dynamic INR item is used exactly when the currency is INR: product of the USD price, rounded rate-converted amount, month/year interval, and the cache advances by one rate lookup. Otherwise the item is the USD price id and the cache is untouched. |
| Subscriptions.CheckoutCustomer | server/controllers/subscriptionController.js:109-127 | An existing customer reference is reused and no user row changes. Without one, the new customer is used and stored on exactly that user. |
| Subscriptions.WithCustomer | server/controllers/subscriptionController.js:109-145 | A stored customer reference is reused. Otherwise a new customer is created and saved on that user, and a failed creation throws with the tables unchanged. |
| Subscriptions.CheckoutForPlan | server/controllers/subscriptionController.js:68-107 | For INR: a plan without a USD price id fails with 500, and a failed product lookup throws. Otherwise the item is a dynamic INR monthly or yearly price at round(USD × rate × 100). For any other currency: a plan without a USD price id fails with 400, else the USD price id is the item. |
| Subscriptions.CheckoutSpec | server/controllers/subscriptionController.js:5-150 | The failures come in source order: no processor key (500), unknown user (404), no plan name (400), no plan with that name ignoring case (404). Then the currency rule and the plan step decide the rest. The failure cases write nothing. |
| Subscriptions.CheckoutPlan | server/controllers/subscriptionController.js:66-145 | The line item, customer and session steps equal the plan step of the checkout specification. |
| Subscriptions.CreateCheckoutSession | server/controllers/subscriptionController.js:5-150 | The reply, the users table and the rate cache after the call equal the checkout specification applied to the old state. |
| Subscriptions.AttachCustomer | server/controllers/subscriptionController.js:109-145 | The customer step and session creation, equal to their specification on the users table. |
| Subscriptions.Amount | server/controllers/subscriptionController.js:251 | The ledger amount is the session total divided by 100, or 0 without a total. |
| Subscriptions.PaymentId | server/controllers/subscriptionController.js:303 | The payment id is the payment intent when there is one, else the session id. |
| Subscriptions.TxFor | server/controllers/subscriptionController.js:248-256 | The ledger row: the session's user, amount and payment id, currency defaulting to "usd", status "succeeded". |
| Subscriptions.SubFor | server/controllers/subscriptionController.js:225-233 | The subscription row: the session's user and plan, the processor id, ACTIVE, and the period end in milliseconds. |
| Subscriptions.MarkPaid | server/controllers/subscriptionController.js:239-244 | Only the owner's profile changes, and only its payment status becomes "Paid". |
| Subscriptions.MarkPaidKeepsUnique | server/controllers/subscriptionController.js:239-244 | Marking a profile paid keeps profiles unique per user. |
| Subscriptions.MarkPaidTwice | server/controllers/subscriptionController.js:296-299 | Marking the same profile paid twice equals marking it once. |
| Subscriptions.LocalStatus | server/controllers/subscriptionController.js:274 | The local status is ACTIVE exactly when the processor status is "active", otherwise CANCELED. |
| Subscriptions.SubscriptionChangedSpec | server/controllers/subscriptionController.js:264-280 | Only the row with the processor id gets the new status and period end. With no such row nothing changes and nothing is created. |
| Subscriptions.RejectedWebhookWritesNothing | server/controllers/subscriptionController.js:176-192 | A missing key or a signature that fails verification gives a rejection and leaves the tables unchanged. |
| Subscriptions.VerifiedWebhookAcknowledged | server/controllers/subscriptionController.js:194-212 | Every verified event is acknowledged, except a completed session whose subscription cannot be retrieved (which throws and writes nothing). Invoice and unhandled events change nothing. |
| Subscriptions.SubscriptionChangeKeepsRows | server/controllers/subscriptionController.js:203-207 | Update and delete events are handled alike and touch only the subscriptions table, never changing its size. |
| Subscriptions.RedeliveryDuplicatesSubscription | server/controllers/subscriptionController.js:222-233 | Delivering the same completed session twice inserts two subscription rows with the same processor id, because the insert has no existence check. |
| Subscriptions.CompletedSpec | server/controllers/subscriptionController.js:215-262 | No subscription id, or a failed retrieval, leaves the tables unchanged and the event unanswered. Otherwise an ACTIVE subscription row is appended blindly. When the owner has a profile it is marked Paid and a ledger row is appended; without one, neither happens. |
| Subscriptions.HandleCheckoutSessionCompleted | server/controllers/subscriptionController.js:215-262 | The tables after the handler equal the completed-session specification: a subscription row appended, then Paid and a ledger row only when the profile exists. |
| Subscriptions.HandleSubscriptionUpdated | server/controllers/subscriptionController.js:264-280 | The subscriptions table becomes the subscription-change specification of the old table. |
| Subscriptions.WebhookSpec | server/controllers/subscriptionController.js:176-212 | A missing key or a signature that fails verification gives 400 with no writes. A completed session goes to the completed-session step, and an updated or deleted subscription to the status update. Every other event is acknowledged with no writes. |
| Subscriptions.DispatchEvent | server/controllers/subscriptionController.js:194-212 | The switch on the event type leaves the tables and the reply as the webhook specification says for a verified event. |
| Subscriptions.HandleWebhook | server/controllers/subscriptionController.js:176-212 | The reply and the tables equal the webhook specification, with the secret chosen by the settings fallback. |
| Subscriptions.VerifyRejectsWithoutWrites | server/controllers/subscriptionController.js:282-346 | No session id gives 400. An unpaid session gives 400. A missing profile writes nothing. |
| Subscriptions.VerifyEstablishes | server/controllers/subscriptionController.js:292-343 | After a successful verification the user is Paid, a ledger row has the payment id, and the subscription exists when the session has one. At most one row is added to each table, and none to the ledger when the payment was already recorded. |
| Subscriptions.MarkPaidFound | server/controllers/subscriptionController.js:296-299 | After marking, the owner's lookup still finds the same profile, and marking it again changes nothing. |
| Subscriptions.VerifyPaidTwice | server/controllers/subscriptionController.js:296-343 | Recording the same paid session twice writes nothing the second time. |
| Subscriptions.VerifyIdempotent | server/controllers/subscriptionController.js:282-346 | Verifying the same session a second time leaves the tables as the first call left them. |
| Subscriptions.VerifyAfterWebhookAddsNoRows | server/controllers/subscriptionController.js:215-346 | Verification after the webhook handled the same session changes no table. |
| Subscriptions.WebhookAfterVerifyDuplicates | server/controllers/subscriptionController.js:225-340 | In the other order, a webhook after verification adds a second subscription row and a second ledger row. |
| Subscriptions.VerifySpec | server/controllers/subscriptionController.js:282-346 | No session id gives 400 and no key or a failed retrieval throws, all with no writes. An unpaid session gives 400 "Payment not completed yet." and a missing profile throws, also with no writes. Otherwise the paid step applies. |
| Subscriptions.VerifyPaid | server/controllers/subscriptionController.js:292-343 | The profile is marked Paid. A ledger row is added unless one already has that payment id. A subscription row is added only for a truthy subscription id no row carries yet, and a failed retrieval then throws after the first two writes. |
| Subscriptions.RecordVerifiedPayment | server/controllers/subscriptionController.js:292-343 | The three writes equal the paid step of the verification specification. |
| Subscriptions.VerifyCheckoutSession | server/controllers/subscriptionController.js:282-346 | The reply and the tables equal the verification specification of the old tables. |
| StripeConfig.SecretKey | server/utils/stripe.js:11-30 | A non-empty settings key wins, else a non-empty environment key. With neither the client cannot be made, and any key returned is non-empty. |
| StripeConfig.WebhookSecret | server/utils/stripe.js:36-39 | A non-empty settings secret wins, otherwise the environment value. |
| StripeConfig.SettingsKeyWins | server/utils/stripe.js:18-19 | A key saved in the first settings row is used whatever the environment holds. |
| StripeConfig.FreshIsServed | server/utils/stripe.js:46-49 | A non-zero rate younger than an hour is returned and the cache is unchanged, whatever the service would answer. |
| StripeConfig.RefreshStores | server/utils/stripe.js:58-65 | A stale or empty cache with a non-zero fetched rate stores it with this call's time and returns it. |
| StripeConfig.FailureKeepsCache | server/utils/stripe.js:58-71 | When the fetch fails the cache is untouched and the old rate, or 90 when there is none, is returned. |
| StripeConfig.StaleStaysStale | server/utils/stripe.js:46-71 | A failed refresh does not advance the fetch time, so every later call fetches again. |
| StripeConfig.RateAlwaysDefined | server/utils/stripe.js:45-72 | The returned rate is never zero, and the cache never holds a zero. |
| StripeConfig.RateStep | server/utils/stripe.js:45-72 | A cached non-zero rate younger than one hour is served without fetching. Otherwise a fetched non-zero rate is stored with the call time and returned. If the fetch fails, the cached rate, or 90 when there is none, is returned and the cache is left alone. |
| StripeConfig.RateCache.GetConversionRate | server/utils/stripe.js:45-72 | The method's rate and new cache fields are the cache step applied to the old fields, and the rate is non-zero. |
| Plans.StripeInterval | server/controllers/planController.js:100 | The processor interval is "month" exactly for MONTHLY, else "year". Checkout asks for the same interval (server/controllers/subscriptionController.js:92). |
| Plans.MinorUnits | server/controllers/planController.js:110 | The unit amount is the price times 100 rounded to the nearest whole number. |
| Plans.InrFromUsd | server/controllers/planController.js:89 | The INR price is the USD price times the rate, rounded up. |
| Plans.UsdFromInr | server/controllers/planController.js:92 | The USD price is the INR price divided by the rate, to within half a cent. |
| Plans.Localise | server/controllers/planController.js:29-53 | In India the price is the rounded-up INR conversion, no price id, INR and the rupee sign. Elsewhere it is the USD price and USD id with "$". Name, interval, features and the popular flag are copied. |
| Plans.PublicPlansCorrect | server/controllers/planController.js:10-59 | One entry per active plan, a permutation of the active plans in ascending INR price, each its localisation. The currency is INR exactly when the country is "IN". |
| Plans.IndianPriceExample | server/controllers/planController.js:34 | A worked case of Localise: a 65 USD plan at rate 83 is listed at 5395 in India. |
| Plans.PublicPlansSpec | server/controllers/planController.js:10-59 | Country "IN" from the geolocation gives currency INR, and anything else gives USD. The list is the active plans by ascending INR price, each localised for that country at the given rate. |
| Plans.GetPublicPlans | server/controllers/planController.js:10-59 | The reply is the public list at the rate the cache step yields, and the cache advances by that step. |
| Plans.DerivePrices | server/controllers/planController.js:85-97 | Only USD given: INR is derived. Only INR given: USD is derived. Otherwise both stay as sent. |
| Plans.DerivedInrBounds | server/controllers/planController.js:88-89 | A derived INR price is at least the exact conversion and less than one rupee above it. |
| Plans.CreatedPlanCorrect | server/controllers/planController.js:79-140 | A created plan is appended with a fresh id, non-zero prices and both new price ids. It is active, popular only when sent true, and made by one product and two price calls (INR then USD) in minor units. |
| Plans.CreateNeedsPrice | server/controllers/planController.js:95-97 | With neither price the reply is 400, no row is written and the processor is not called. |
| Plans.CreatePlanSpec | server/controllers/planController.js:79-140 | No processor key throws before anything. Otherwise one rate lookup, then the missing price is derived from the other. With neither price the request fails with 400. Otherwise one product and two prices are created in order, and a failing call throws with no row written. On success the row is appended with a fresh id. |
| Plans.CreatePlan | server/controllers/planController.js:79-140 | The reply, plans table, id counter, cache and processor calls equal the create specification. |
| Plans.StorePlan | server/controllers/planController.js:99-135 | The processor calls and the row insert equal their specification once the prices are known. |
| Plans.ExistingProduct | server/controllers/planController.js:161-175 | A product is found exactly when the plan has a price id without "placeholder" and retrieval answers. It is that answer. |
| Plans.ApplyUpdate | server/controllers/planController.js:226-236 | Sent fields overwrite and unsent ones keep their values. New price ids replace the old ones when prices were renewed. |
| Plans.ChooseProductCorrect | server/controllers/planController.js:177-189 | The product is recreated exactly when none can be found. Otherwise it is renamed exactly when a different non-empty name is sent. |
| Plans.UpdateInr | server/controllers/planController.js:149-152 | Sending only a USD price re-derives INR; otherwise INR is as sent. |
| Plans.UpdateUnknownPlan | server/controllers/planController.js:154-156 | An unknown id gives 404, writes nothing and calls nothing. |
| Plans.UpdatedPlanCorrect | server/controllers/planController.js:191-236 | Only that plan's row changes. New INR and USD prices are created and stored exactly when a price or the interval changed or the product is new. Otherwise the old price ids are kept. |
| Plans.UnchangedPricesKeepIds | server/controllers/planController.js:193-198 | An edit sending no price, interval or id keeps prices, interval and price ids. |
| Plans.UpdatePlanSpec | server/controllers/planController.js:142-243 | The rate lookup comes first. An unknown id gives 404 and no key throws, both with no calls. Then the product step runs and a failure throws. Then the price and row step: new prices are made only on a price-relevant change or a new product. |
| Plans.UpdatePlan | server/controllers/planController.js:142-243 | The reply, plans table, cache and processor calls equal the update specification. |
| Plans.ResolveProduct | server/controllers/planController.js:161-189 | The product step equals its specification. |
| Plans.WritePlanUpdate | server/controllers/planController.js:193-236 | The price renewal and row write equal their specification. |
| Plans.DeleteRemovesOnlyThatPlan | server/controllers/planController.js:245-293 | An unknown id gives 404 with no change. A known plan's row is removed, and only it, whatever the processor does; the rest keep their order. |
| Plans.FilterDropsOne | server/controllers/planController.js:287 | With unique ids, removing one id shortens the table by exactly one. |
| Plans.DeletePlanSpec | server/controllers/planController.js:245-293 | An unknown id gives 404 with no calls. Otherwise the USD price, the INR price and then the product are archived, each only when present. The first processor error stops the archiving and is swallowed, and the row is deleted either way. |
| Plans.DeletePlan | server/controllers/planController.js:245-293 | The reply, plans table and archive calls equal the delete specification. |
| AuthMiddleware.SecondWord | middleware/authMiddleware.js:11 | A word follows a space exactly when the header has one, and that word holds no space. |
| AuthMiddleware.ProtectAccepts | middleware/authMiddleware.js:6-14 | A verified bearer token sets the user and calls next, with no response. |
| AuthMiddleware.ProtectRejectsBadToken | middleware/authMiddleware.js:15-18 | On a fresh request, a token that fails verification gives one 401 "token failed", and next is not called. |
| AuthMiddleware.ProtectRejectsMissingHeader | middleware/authMiddleware.js:21-23 | On a fresh request, a missing or non-bearer header gives one 401 "no token". |
| AuthMiddleware.BareBearerThrows | middleware/authMiddleware.js:11-23 | For "Bearer" and "Bearer " the 401 "token failed" is sent, and the "no token" send after it throws because the response is already out. |
| AuthMiddleware.ProtectRespondsOrPasses | middleware/authMiddleware.js:3-24 | On a fresh request, either next is called once with a user set and no response, or next is not called and exactly one 401 is sent. The guard throws exactly for a Bearer header with no token after it. |
| AuthMiddleware.SendJson | middleware/authMiddleware.js:17 | A response is sent when none is out yet; a second send throws and leaves the sent response as it was. |
| AuthMiddleware.ProtectSpec | middleware/authMiddleware.js:3-24 | A Bearer header whose second word verifies sets the user and calls next once. A Bearer header whose token fails verification sends a 401 "token failed"; if no truthy token was found, the 401 "no token" send follows it and throws. Without a Bearer header a 401 "no token" is sent. |
| AuthMiddleware.Request.Json | middleware/authMiddleware.js:17 | Sends the response, or records the throw when one is already out, as SendJson says, and reports whether it threw. |
| AuthMiddleware.Request.Protect | middleware/authMiddleware.js:3-24 | The request and response state after the guard is the guard specification of the old state; a throwing send ends the guard at once. |
| AuthMiddleware.GatesNested | middleware/authMiddleware.js:26-40 | Passing the super-admin gate implies passing the admin gate; editors and users pass neither. |
| AuthMiddleware.AdminOnly | middleware/authMiddleware.js:26-32 | Passes exactly for ADMIN or SUPER_ADMIN, else 403 "Not authorized as admin". |
| AuthMiddleware.SuperAdminOnly | middleware/authMiddleware.js:34-40 | Passes exactly for SUPER_ADMIN, else 403 "Not authorized as super admin". |
| Users.ApplyPersonal | server/controllers/userController.js:33-43 | Only the six personal columns change, each by its patch. |
| Users.PatchCols | server/controllers/userController.js:51-66 | Every column after the update is its patch applied to the old column. |
| Users.WithDefaults | server/controllers/userController.js:67-83 | A new profile without a payment status gets "Pending"; every other column is as sent. |
| Users.ProfilePatch | server/controllers/userController.js:45-83 | plan_price is always written: the text when non-empty, else null. Form columns are passed as sent, and nothing outside the business columns is touched. |
| Users.UpsertProfile | server/controllers/userController.js:49-84 | A user without a profile gets a new row at the end, with the patch applied over the defaults. An existing profile has only the sent columns replaced, in place. |
| Users.UpsertProfileCorrect | server/controllers/userController.js:49-84 | Afterwards the user has exactly one profile holding the patched columns (created if absent), and every other profile is unchanged. |
| Users.UpsertIdempotent | server/controllers/userController.js:49-84 | Saving the same body twice equals saving it once. |
| Users.PatchTwice | server/controllers/userController.js:66-84 | Applying a patch again to its own result changes nothing. |
| Users.ClientCanWritePaid | server/controllers/userController.js:64-81 | A body sending payment status "Paid" stores "Paid" on the profile. |
| Users.CreateOrUpdateProfile | server/controllers/userController.js:4-91 | An unknown user throws with no writes. Otherwise the user row gets the personal patch, the profiles table gets the upsert, and the reply is the saved profile. |
| Users.GetProfile | server/controllers/userController.js:93-128 | 404 exactly when the user or profile is missing. Otherwise the profile with the six personal fields of the user. |
| Users.ProfileReadAfterSave | server/controllers/userController.js:4-128 | Reading after a save finds the profile and the saved personal fields. |
| SuperAdmin.GetAllAdmins | server/controllers/superAdminController.js:5-23 | One entry per ADMIN row. |
| SuperAdmin.GetAllAdminsCorrect | server/controllers/superAdminController.js:7-17 | Every entry has role ADMIN, and every ADMIN row is listed; SUPER_ADMIN rows are not. |
| SuperAdmin.PromoteSpec | server/controllers/superAdminController.js:26-53 | A missing email makes the lookup throw (500) with no change. An unknown email gives 404 with no change. Otherwise only that user's role becomes ADMIN, and the reply carries its id, email and new role. |
| SuperAdmin.DemoteSpec | server/controllers/superAdminController.js:56-75 | An unknown id throws with no change. Otherwise only that user's role becomes USER, and the reply carries its id, email and new role. |
| SuperAdmin.PromoteToAdmin | server/controllers/superAdminController.js:26-53 | A missing email makes the lookup throw (500) with no change. An unknown email gives 404 with no change. Otherwise only that user's role becomes ADMIN, whatever it was. |
| SuperAdmin.DemoteAdmin | server/controllers/superAdminController.js:56-75 | An unknown id throws with no change. Otherwise only that user's role becomes USER. |
| SuperAdmin.PromoteThenDemote | server/controllers/superAdminController.js:26-75 | Promoting an account by email and then demoting the id the promotion returned leaves it a plain USER, not the role it held before. Both replies report that account. |
| SuperAdmin.DeleteUserSpec | server/controllers/superAdminController.js:132-141 | The profiles, subscriptions and transactions of the user are deleted, then the user row. Every table keeps the other rows in order. |
| SuperAdmin.DeleteUserCorrect | server/controllers/superAdminController.js:132-141 | No row of the user is left in the users, profiles, subscriptions or transactions tables. Every other row stays, in order. |
| SuperAdmin.DeleteUnknownKeepsUsers | server/controllers/superAdminController.js:127-148 | Deleting an unknown id leaves the users table unchanged. |
| SuperAdmin.DeleteUser | server/controllers/superAdminController.js:127-148 | The four tables after the call equal the cascade specification. The reply is success exactly when the user existed. |
| SuperAdmin.UpdateUser | server/controllers/superAdminController.js:151-198 | An unknown id throws with no writes. Otherwise the personal patch is applied, the profile is upserted only when business data is sent, and the reply carries the new user and profile. |
| SuperAdmin.EditKeepsProfilePosition | server/controllers/superAdminController.js:165-186 | Editing an existing profile keeps the table size and the profile's position. |
| SuperAdmin.NewerIsPreorder | server/controllers/superAdminController.js:88 | Ordering by creation time, newest first, is a total preorder for users and for transactions. |
| SuperAdmin.WithPlans | server/controllers/superAdminController.js:83-86 | Each embedded subscription is paired with its plan, in the same order. |
| SuperAdmin.GetAllUsers | server/controllers/superAdminController.js:78-95 | One listing per user. |
| SuperAdmin.ListingSubsExact | server/controllers/superAdminController.js:82-88 | A listing embeds every ACTIVE subscription of its user and nothing else. |
| SuperAdmin.GetAllUsersOrder | server/controllers/superAdminController.js:80-89 | The listing is the user table reordered newest first. |
| SuperAdmin.GetAllUsersCorrect | server/controllers/superAdminController.js:80-89 | Users appear newest first as a permutation of the table. Each embeds exactly its own ACTIVE subscriptions. |
| SuperAdmin.GetUserById | server/controllers/superAdminController.js:98-124 | 404 exactly for an unknown id. Otherwise the detail is that user. |
| SuperAdmin.UserDetailTransactions | server/controllers/superAdminController.js:109-111 | The user's transactions, all of them and only them, newest first. |
| SuperAdmin.GetAllTransactions | server/controllers/superAdminController.js:201-220 | One listing per transaction. |
| SuperAdmin.GetAllTransactionsCorrect | server/controllers/superAdminController.js:201-220 | All transactions newest first, as a permutation of the ledger. |
| AdminStats.RevenueNonNegative | controllers/adminController.js:18-27 | With non-negative prices the summed revenue is non-negative. |
| AdminStats.Revenue | controllers/adminController.js:13-22 | The sum of the plan prices of the given subscriptions, accumulated left to right from 0. |
| AdminStats.DashboardStats | controllers/adminController.js:4-34 | The user count, the ACTIVE count and the revenue of the ACTIVE subscriptions rounded to two decimals. An ACTIVE subscription without its plan makes the handler throw. |
| AdminStats.DashboardStatsCorrect | controllers/adminController.js:4-29 | The user count is the number of rows and the active count is the size of the summed set. Revenue is the rounded sum to within half a cent, and non-negative with non-negative prices. |
| AdminStats.AddSubscriptionRevenue | controllers/adminController.js:18-22 | Adding an ACTIVE subscription raises revenue by its plan's price and the count by one; any other status changes neither. |
| AdminStats.SumRevenue | controllers/adminController.js:13-22 | The loop succeeds exactly when every subscription has its plan, and then totals the price sum. |
| AdminStats.GetDashboardStats | controllers/adminController.js:4-34 | The reply equals the statistics specification of the tables. |
| Content.PageRows | controllers/contentController.js:9-14 | Exactly the rows of that page that are active. |
| Content.SectionMap | controllers/contentController.js:17-20 | The reduce: each row in turn sets its section to its content, so a later row with the same section wins. |
| Content.SectionMapHas | controllers/contentController.js:17-20 | Every considered row's section is a key of the result. |
| Content.SectionMapOnly | controllers/contentController.js:17-20 | Every key of the result is the section of some considered row. |
| Content.SectionMapValue | controllers/contentController.js:17-20 | With unique sections each key maps to its row's content. |
| Content.PageContentCorrect | controllers/contentController.js:4-27 | The keys are exactly the sections of the active rows of the page, each mapped to its content. |
| Content.GetPageContent | controllers/contentController.js:4-27 | The accumulating loop yields the section map of the page's active rows. |
| Content.ActiveFlag | controllers/contentController.js:43-49 | An omitted flag is true, a sent one is kept. |
| Content.ContentIndex | controllers/contentController.js:34-40 | The row with the page and section pair; none exactly when no row has it. |
| Content.UpsertContent | controllers/contentController.js:34-51 | An existing (page, section) row gets the sent flag, defaulting to true, and the sent content, keeping its old content when none is sent. A new pair is appended, and creating it without content throws. |
| Content.UpsertContentCorrect | controllers/contentController.js:34-51 | The upsert fails exactly when the pair is new and no content is sent. Otherwise exactly one row has the pair, holding the sent content (or its old content when none is sent) and the flag, and other rows are unchanged. The table grows only when the pair was new. |
| Content.UniqueKeyAt | controllers/contentController.js:34-40 | With unique pairs, looking up a row's own pair finds that row. |
| Content.UpsertContentIdempotent | controllers/contentController.js:29-58 | Saving the same body twice equals saving it once. |
| Content.UpdatePageContent | controllers/contentController.js:29-58 | A body without a page or section name throws (500) with no write, because the unique key is incomplete. Otherwise a failed upsert throws with no write, and a successful one becomes the table, with the reply being its row for the pair. |
| Content.StrLeTransitive | controllers/contentController.js:62-64 | String order is transitive (with Reflexive, Total and Antisymmetric beside it). |
| Content.ContentLeIsPreorder | controllers/contentController.js:62-64 | Page then section ordering is a total preorder. |
| Content.AllContentAdmin | controllers/contentController.js:60-69 | Every row, ordered by page name and then by section name. |
| Content.AllContentAdminCorrect | controllers/contentController.js:60-69 | All rows exactly once, ordered by page, then section. |
| Settings.FindOrCreate | controllers/settingsController.js:7-13 | The table becomes its get-or-create and the returned row is its first row. |
| Settings.EnsureRow | controllers/settingsController.js:7-13 | An empty row is created only when none exists; otherwise the table is unchanged. |
| Settings.EnsureRowIdempotent | controllers/settingsController.js:7-13 | Repeated reads never create a second row. |
| Settings.GetSettings | controllers/settingsController.js:5-24 | The table is the get-or-create of the old one, and the reply is its first row, secrets included. |
| Settings.PublicView | controllers/settingsController.js:35-38 | The public view carries the AI switch. |
| Settings.PublicViewHidesSecrets | controllers/settingsController.js:27-43 | Rows with the same AI switch have the same public view, so no key leaks. |
| Settings.GetPublicSettings | controllers/settingsController.js:27-43 | The reply is the public view of the first row, created if absent. |
| Settings.ApplySettings | controllers/settingsController.js:57-73 | Each of the six fields is replaced when sent and kept otherwise. |
| Settings.UpdateSettingsSpec | controllers/settingsController.js:57-73 | The update keeps a single row when there was at most one. |
| Settings.EmptyUpdateChangesNothing | controllers/settingsController.js:57-73 | An update sending nothing only ensures the row exists. |
| Settings.SavedKeysAreUsed | controllers/settingsController.js:57-73 | After saving a non-empty key and secret, the processor client and the webhook use them. |
| Settings.ClearedKeyFallsBack | controllers/settingsController.js:57-73 | After clearing the key, the environment key is used. |
| Settings.UpdateSettings | controllers/settingsController.js:46-80 | The table after the call is the update specification, and the reply is the updated row. |
| Auth.Payload | server/controllers/authController.js:6-12 | The token carries exactly id, email and role. |
| Auth.PayloadIgnoresProfile | server/controllers/authController.js:6-12 | Users agreeing on id, email and role get the same token. |
| Auth.RegisterRules | server/controllers/authController.js:17-66 | Missing email or password, or a taken email, gives 400 with no row. Otherwise one USER row is appended and returned. The role sent in the body plays no part. |
| Auth.RegisterKeepsUnique | server/controllers/authController.js:21-49 | Ids and emails stay unique, and the id counter stays ahead of every id. |
| Auth.RegisterSpec | server/controllers/authController.js:17-66 | A missing email or password, or a taken email, gives 400 with no write. Otherwise a USER row with the hashed password and a fresh id is appended, and the reply is the signed payload. |
| Auth.Register | server/controllers/authController.js:17-66 | The reply, users table and counter equal the register specification. |
| Auth.Login | server/controllers/authController.js:68-102 | A missing email throws (500), and so does a missing password for a known email, because the hash comparison rejects it. Otherwise the login succeeds exactly when the email is known, a password is given and it matches the hash; then the reply is that user's signed payload. Every other case, an unknown email included, gets the same 400 "Invalid credentials". |
| Auth.LoginDoesNotRevealAccounts | server/controllers/authController.js:73-85 | An unknown email and a wrong password give the same 400 "Invalid credentials". |
| Auth.RegisterThenLogin | server/controllers/authController.js:17-102 | A just-registered user can log in and gets a USER payload. |
| Auth.SplitName | server/controllers/authController.js:116-118 | The name split on spaces: the first piece, and the remaining pieces joined back with spaces. |
| Auth.SplitNameCorrect | server/controllers/authController.js:116-118 | The first name is the text before the first space and the last name the rest. No space gives an empty last name; no name gives two empty strings. |
| Auth.SplitNameJoins | server/controllers/authController.js:116-118 | First name, a space and last name rebuild the name. |
| Auth.FillNames | server/controllers/authController.js:134-145 | An empty stored name is filled from the split, a set one kept; nothing else changes. |
| Auth.GoogleLoginRules | server/controllers/authController.js:120-164 | An unknown email creates a USER with the split names. A known user keeps role and set names, fills only empty ones, and no other row changes. |
| Auth.GoogleLoginSpec | server/controllers/authController.js:104-164 | A failed identity check gives 400. An unknown email gets a new USER row with the split names. A known user has only empty names filled. The reply is the signed payload and the names. |
| Auth.GoogleLogin | server/controllers/authController.js:104-164 | The reply, users table and counter equal the Google login specification. |
| DashboardPage.CheckEffects | client/src/app/dashboard/page.tsx:19-35 | Verification is posted exactly when returning from checkout, the address is cleaned exactly when it succeeded, and the profile fetch always comes last, once. |
| DashboardPage.VerifyFailureStillFetches | client/src/app/dashboard/page.tsx:24-35 | A failed verification is followed by the profile fetch, as after a successful one. |
| DashboardPage.ProfileAfter | client/src/app/dashboard/page.tsx:35-47 | A fetched profile is shown, a 404 clears it, and any other error keeps it. |
| DashboardPage.ViewOf | client/src/app/dashboard/page.tsx:53-64 | The wizard shows exactly when loaded with no profile, the overview exactly when loaded with one. |
| DashboardPage.NotFoundShowsWizard | client/src/app/dashboard/page.tsx:38-64 | A 404 lands in the onboarding wizard. |
| DashboardPage.Actions | client/src/app/dashboard/page.tsx:125-157 | A paid profile offers only Contact Us. Preview is offered exactly to an unpaid profile with a preview address. |
| DashboardPage.PublishGating | client/src/app/dashboard/page.tsx:146-157 | Publish is offered exactly to an unpaid profile ready to launch, and carries its selected plan. |
| DashboardPage.StatusLabel | client/src/app/dashboard/page.tsx:99 | The website status, or "In Review". |
| DashboardPage.PlanLabel | client/src/app/dashboard/page.tsx:111 | The selected plan, or "None". |
| DashboardPage.PaymentLabel | client/src/app/dashboard/page.tsx:120 | The payment status, or "Pending". |
| DashboardPage.StatusTone | client/src/app/dashboard/page.tsx:95-98 | Green exactly for "Ready to Launch", blue exactly for "In Development". |
| DashboardPage.PaymentTone | client/src/app/dashboard/page.tsx:117-119 | Green exactly for "Paid", orange otherwise. |
| DashboardPage.Dashboard.CheckProfile | client/src/app/dashboard/page.tsx:15-51 | Loading ends, the profile follows the fetch, and the trace gains exactly the page's requests. |
| DashboardPage.Dashboard.HandlePublish | client/src/app/dashboard/page.tsx:146-157 | Posts the selected plan and follows the returned address only when one came back. |
| Onboarding.Preselect | src/components/dashboard/OnboardingWizard.tsx:94-106 | The first plan matching the saved value by name ignoring case, or by id, gives name and price. No saved value or no match gives empty ones. |
| Onboarding.PreselectIgnoresCase | src/components/dashboard/OnboardingWizard.tsx:100 | A saved name in another case still selects the plan. |
| Onboarding.CountryCode | src/components/dashboard/OnboardingWizard.tsx:65-83 | The lower-cased detected code, else "us". |
| Onboarding.FillIfEmpty | src/components/dashboard/OnboardingWizard.tsx:113-115 | A filled field is kept; an empty one takes the guess, or stays empty. |
| Onboarding.InitMerge | src/components/dashboard/OnboardingWizard.tsx:108-118 | Names and email come from the account and the preselected plan is set. Exactly the eight merged keys are added, and every other field is unchanged. |
| Onboarding.InitMergeLocation | src/components/dashboard/OnboardingWizard.tsx:113-115 | Country, state and city take the location guess only where the form's field is empty. |
| Onboarding.FilledLocationKept | src/components/dashboard/OnboardingWizard.tsx:113-115 | A location already entered survives any guess. |
| Onboarding.WithPlan | src/components/dashboard/OnboardingWizard.tsx:385 | A plan card sets the plan name and price text and leaves every other field unchanged. |
| Onboarding.ChooseIndustry | src/components/dashboard/OnboardingWizard.tsx:558-567 | "Other" enters custom mode with an empty industry; anything else leaves it and stores the choice. |
| Onboarding.ChosenIndustryShown | src/components/dashboard/OnboardingWizard.tsx:557-567 | The drop-down shows back whatever was chosen. |
| Onboarding.NextStep | src/components/dashboard/OnboardingWizard.tsx:131-145 | Step 1 without a mobile number stays; anything else advances by one. |
| Onboarding.NextStaysInRange | src/components/dashboard/OnboardingWizard.tsx:131-146 | From a step showing Next, the new step is within 1 to 5 and at most one further. Leaving step 1 needs a mobile number. |
| Onboarding.ForwardButton | src/components/dashboard/OnboardingWizard.tsx:749-773 | Next is shown exactly below step 5, Complete Setup on it. |
| Onboarding.SubmitNotGatedOnPlan | src/components/dashboard/OnboardingWizard.tsx:749-764 | Where Next is shown it is never disabled, the buttons ignore the selected plan, and Complete Setup is disabled exactly while saving. |
| Onboarding.Wizard.InitData | src/components/dashboard/OnboardingWizard.tsx:49-125 | Plans and symbol follow the first list. Country code, the merge and the second list need the account. The form changes only when both arrive, and the trace gains the page's requests in order. |
| Onboarding.Wizard.FetchSettings | src/components/dashboard/OnboardingWizard.tsx:180-192 | The AI switch follows the public settings when they arrive. |
| Onboarding.Wizard.HandleChange | src/components/dashboard/OnboardingWizard.tsx:127-129 | One named field takes the value. |
| Onboarding.Wizard.ChangeMobile | src/components/dashboard/OnboardingWizard.tsx:469-472 | The number is stored and a non-empty one clears the mobile error. |
| Onboarding.Wizard.HandleNext | src/components/dashboard/OnboardingWizard.tsx:131-145 | The step is the next-step function of the old step, the mobile error records whether it was missing, and the step stays within 1 to 5. |
| Onboarding.Wizard.HandlePrev | src/components/dashboard/OnboardingWizard.tsx:146 | With Back enabled the step goes down by one and stays within 1 to 5. |
| Onboarding.Wizard.SelectPlan | src/components/dashboard/OnboardingWizard.tsx:385 | The form becomes the plan-card update of the old form. |
| Onboarding.Wizard.SelectIndustry | src/components/dashboard/OnboardingWizard.tsx:558-567 | Custom mode and the form follow the industry choice. |
| Onboarding.Wizard.OpenAiModal | src/components/dashboard/OnboardingWizard.tsx:195-203 | Opens a fresh modal exactly with a business name and an industry, else changes nothing. |
| Onboarding.Wizard.TriggerAiGeneration | src/components/dashboard/OnboardingWizard.tsx:206-225 | A blank prompt sends nothing. Otherwise one request is sent, a reply fills the draft, and generation ends. |
| Onboarding.Wizard.UseContent | src/components/dashboard/OnboardingWizard.tsx:227-230 | The draft becomes the description and the modal closes. |
| Onboarding.Wizard.UploadLogo | src/components/dashboard/OnboardingWizard.tsx:234-257 | Without a file nothing happens. With one the upload is sent, and only a successful upload stores the address. |
| Onboarding.Wizard.HandleSubmit | src/components/dashboard/OnboardingWizard.tsx:148-160 | The whole form is posted, only a successful save reloads, and loading ends. |
| PlanForm.FromInitial | client/src/components/super-admin/PlanForm.tsx:30-44 | Features default to one empty entry unless a non-empty list is given. The plan is active unless explicitly given, popular only when given true, and interval defaults to MONTHLY. |
| PlanForm.BlankPlanLoadsEmpty | client/src/components/super-admin/PlanForm.tsx:18-44 | A plan with nothing set loads as the empty form. |
| PlanForm.RemoveAt | client/src/components/super-admin/PlanForm.tsx:64-67 | Exactly that index goes and the rest keep their order; an index past the end removes nothing. |
| PlanForm.CleanFeatures | client/src/components/super-admin/PlanForm.tsx:75 | Exactly the features that are not blank once trimmed are kept. |
| PlanForm.CleanFeaturesKeepsOrder | client/src/components/super-admin/PlanForm.tsx:75 | The kept features are in their original order, and a list without blanks is kept whole. |
| PlanForm.PayloadOf | client/src/components/super-admin/PlanForm.tsx:76-82 | The payload is the form with cleaned features. |
| PlanForm.PayloadIgnoresInr | client/src/components/super-admin/PlanForm.tsx:81-82 | The INR price never reaches the payload. |
| PlanForm.SubmitTarget | client/src/components/super-admin/PlanForm.tsx:84-102 | PUT to the plan's path when editing with an id, else POST to /plans. |
| PlanForm.Editor.Load | client/src/components/super-admin/PlanForm.tsx:30-44 | A given plan replaces the form by its loaded form; none leaves it. |
| PlanForm.Editor.HandleChange | client/src/components/super-admin/PlanForm.tsx:46-52 | Only the named text field changes. |
| PlanForm.Editor.HandleFeatureChange | client/src/components/super-admin/PlanForm.tsx:54-58 | The copy loop replaces exactly one entry; the length and the other entries stay. |
| PlanForm.Editor.AddFeature | client/src/components/super-admin/PlanForm.tsx:60-62 | Exactly one empty entry is appended. |
| PlanForm.Editor.RemoveFeature | client/src/components/super-admin/PlanForm.tsx:64-67 | The features become the removal of that index. |
| PlanForm.Editor.TogglePopular | client/src/components/super-admin/PlanForm.tsx:166 | Only the popular flag flips. |
| PlanForm.Editor.ToggleActive | client/src/components/super-admin/PlanForm.tsx:185 | Only the active flag flips. |
| PlanForm.Editor.HandleSubmit | client/src/components/super-admin/PlanForm.tsx:69-115 | The cleaned payload goes to the submit target, only success navigates back to the plan list, and loading ends. |
| Sidebar.DashboardExactOnly | client/src/components/super-admin/Sidebar.tsx:17-39 | The dashboard entry is highlighted exactly at its own path. |
| Sidebar.SubRouteHighlights | client/src/components/super-admin/Sidebar.tsx:39 | A sub-route highlights its section and not the dashboard. |
| Sidebar.AtMostOneActive | client/src/components/super-admin/Sidebar.tsx:16-39 | For any pathname at most one of the five entries is highlighted. |
| Sidebar.SignOut | client/src/components/super-admin/Sidebar.tsx:60-64 | Token and user leave storage, in that order, then the browser goes to /login. |
| UsersPage.FilterUsers | client/src/app/super-admin/users/page.tsx:94-98 | Exactly the users whose email, first name or last name contains the search, ignoring case. |
| UsersPage.FilterUsersCorrect | client/src/app/super-admin/users/page.tsx:94-98 | The result keeps the list's order, and an empty search keeps everyone. |
| UsersPage.WithoutUser | client/src/app/super-admin/users/page.tsx:81 | Exactly the users with another id remain. |
| UsersPage.WithoutUserKeepsOrder | client/src/app/super-admin/users/page.tsx:81 | The rest keep their order, and an absent id changes nothing. |
| UsersPage.AvatarInitial | client/src/app/super-admin/users/page.tsx:144 | The first name's first letter, else the email's. |
| UsersPage.PlanLabel | client/src/app/super-admin/users/page.tsx:173 | The selected plan, or "Free". |
| UsersPage.PaymentLabel | client/src/app/super-admin/users/page.tsx:179 | The payment status, or "Unpaid". |
| UsersPage.UserList.ToggleDropdown | client/src/app/super-admin/users/page.tsx:37-49 | The open row's button closes the menu; any other opens that row's menu below its button. |
| UsersPage.UserList.HandleDelete | client/src/app/super-admin/users/page.tsx:67-92 | Without confirmation nothing happens. With it the request is sent, and only success removes the row. |
| TransactionsPage.FilterTransactions | src/app/super-admin/transactions/page.tsx:30-34 | Exactly the rows whose user email, user first name or payment id contains the search, ignoring case. |
| TransactionsPage.FilterKeepsOrder | src/app/super-admin/transactions/page.tsx:30-34 | The filter keeps the rows' order. |
| TransactionsPage.EmptySearch | src/app/super-admin/transactions/page.tsx:30-34 | An empty search keeps a row exactly when one of the three fields exists, so a deleted user's row without a payment id is hidden. |
| TransactionsPage.LastNameIgnored | src/app/super-admin/transactions/page.tsx:30-34 | Changing the last name never changes the match. |
| TransactionsPage.DisplayId | src/app/super-admin/transactions/page.tsx:87-92 | The first 16 characters and "...", or "N/A" without an id. |
| TransactionsPage.StatusBadge | src/app/super-admin/transactions/page.tsx:111-114 | Green exactly for "succeeded", yellow exactly for "pending", red otherwise. |
| LoginPage.RouteFor | src/app/login/page.tsx:27-33 | ADMIN and EDITOR go to /admin, SUPER_ADMIN to /super-admin, everyone else to /dashboard. |
| LoginPage.ErrorText | src/app/login/page.tsx:35 | The server's error when it has one, else "Login failed". |
| LoginPage.LoginForm.HandleSubmit | src/app/login/page.tsx:17-39 | On success token and user are stored before routing by role, and no error is left. On failure storage is unchanged and the error is shown. Loading ends either way. |

## Left out

- The card processor is not modelled. Its replies to products, prices, customers, sessions, subscription retrieval and webhook signature checks are parameters.
- `createPortalSession` (server/controllers/subscriptionController.js:152-174) is not modelled. It only forwards to the processor's billing portal.
- The database is a sequence per table. The schema is not part of this model. `Db.Store.Valid` keeps the unique indexes the handlers rely on: user id and email, plan id, one profile per user, and content page with section. No unique index is assumed on subscription processor ids, so the webhook's blind subscription insert adds a duplicate row instead of failing.
- Foreign keys are not modelled. Profiles, subscriptions and transactions probably reference users, and subscriptions reference plans. A write that breaks such a reference would fail with 500; the model performs it.
- `Plans.DeletePlanSpec`: removes the plan row even while subscriptions still reference it. With a foreign key the delete would fail with 500 after the archive calls.
- `Subscriptions.CompletedSpec`: appends the subscription row, and the ledger row, for whatever user and plan ids the session metadata carries, even ids with no row.
- `Subscriptions.VerifyPaid`: appends the subscription row for whatever plan id the session metadata carries, even one with no row.
- `Content.AllContentAdmin`: orders page and section names by character code (`Content.StrLe`). The database orders by its collation, which can differ for mixed-case or non-ASCII names.
- `Content.UpsertContent`: treats the content column as required, so creating a row without content throws. The schema is not part of this model; if the column were optional, Prisma would store null instead.
- Concurrent requests (the webhook/verifier race, parallel refreshes of the rate cache) are not modelled; each call runs alone.
- Express's default error handler is not part of this model. When the guard throws, `AuthMiddleware.Exchange.threw` records it; the handler then logs the error and closes the connection after the 401 already sent.
- Record ids are natural numbers from a counter instead of generated identifiers.
- Prices and rates are reals. IEEE double rounding in `Math.ceil`, `Math.round`, `toFixed(2)` and `parseFloat` is not modelled.
- Password hashing, token signing and verification, the Google identity check, geolocation, the exchange-rate request, the location lookup in the wizard and the clock are parameters.
- `Text.ToLower`: lower-cases ASCII letters only. `toLowerCase` also folds other scripts.
- `Text.Trim`: strips the ASCII white space (space, tab, line feed, carriage return, vertical tab, form feed) plus U+00A0 and U+FEFF. JavaScript's `trim` also strips U+1680, U+2000 to U+200A, U+2028, U+2029, U+202F, U+205F and U+3000.
- `PlanForm.Editor.HandleSubmit`: sends the USD price as the typed text. The page converts it with `parseFloat`.
- `PlanForm.Editor.HandleFeatureChange`: requires an index inside the list, since the page only calls it for rendered rows. Writing past the end of a JavaScript array would extend it.
- `UsersPage.UserList`: closing the menu on scroll or on a click outside it (client/src/app/super-admin/users/page.tsx:17-33) is not modelled. The initial fetch is the constructor's argument.
- `Onboarding.Wizard.UploadLogo`: the local preview image is not modelled.
- `getAllPlansAdmin` (server/controllers/planController.js:66-75) and `getMe` (server/controllers/authController.js:166-183) are not modelled. They are plain reads with no logic beyond the query.
- File upload to object storage, the AI text generation, server wiring, routes and seed or check scripts are not modelled.
- Page rendering, toasts and alerts, the marketing pages, the admin pages that only show fetched data, the settings form, the profile and preview pages, the Google button and the signup page are not modelled.
- The transactions page's currency formatting is not modelled. It wraps the platform's number formatter.
