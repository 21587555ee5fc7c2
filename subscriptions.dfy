/**
 * Billing: starting a hosted checkout, the processor's webhook, and the
 * verifier the dashboard calls on return from checkout. The processor's
 * replies are parameters; `None` stands for a call that throws.
 */
module Subscriptions {
  import opened Wrappers
  import opened Text
  import opened Seqs
  import opened Numbers
  import opened Records
  import opened Db
  import opened StripeConfig
  import Plans

  // ------------------------------------------------------------------
  // Checkout
  // ------------------------------------------------------------------

  /** `user.country ? user.country.trim().toLowerCase() : ''`. */
  function NormalisedCountry(country: Option<string>): string {
    if TruthyStr(country) then ToLower(Trim(country.value)) else ""
  }

  /** The currency of the checkout: the body's, else INR for India and USD for everyone else. */
  function ResolveCurrency(bodyCurrency: Option<string>, country: Option<string>): (c: string)
    ensures TruthyStr(bodyCurrency) ==> c == bodyCurrency.value
    ensures !TruthyStr(bodyCurrency) ==>
              (c == "INR" <==> NormalisedCountry(country) == "india" || NormalisedCountry(country) == "in")
    ensures !TruthyStr(bodyCurrency) ==> c == "INR" || c == "USD"
  {
    if TruthyStr(bodyCurrency) then bodyCurrency.value
    else if NormalisedCountry(country) == "india" || NormalisedCountry(country) == "in" then "INR"
    else "USD"
  }

  /** " India " normalises to "india". */
  lemma NormaliseSpacedIndia()
    ensures NormalisedCountry(Some(" India ")) == "india"
  {
    assert " India " == [' '] + "India" + [' '];
    TrimSurrounded("India");
    LowerIndia();
  }

  lemma LowerIndia()
    ensures ToLower("India") == "india"
  {
    var lower := ToLower("India");
    assert lower[0] == 'i';
  }

  /** "IN" normalises to "in". */
  lemma NormaliseCodeIndia()
    ensures NormalisedCountry(Some("IN")) == "in"
  {
    TrimKeeps("IN");
    var lower := ToLower("IN");
    assert lower[0] == 'i' && lower[1] == 'n';
    assert lower == "in";
  }

  /**
   * Worked cases of `ResolveCurrency`: country detection ignores case and
   * surrounding white space, and an explicit currency wins.
   */
  lemma CountryDetection()
    ensures ResolveCurrency(None, Some(" India ")) == "INR"
    ensures ResolveCurrency(None, Some("IN")) == "INR"
    ensures ResolveCurrency(None, None) == "USD"
    ensures ResolveCurrency(Some("USD"), Some("India")) == "USD"
  {
    NormaliseSpacedIndia();
    NormaliseCodeIndia();
    assert !TruthyStr(None);
    assert NormalisedCountry(None) == "";
    assert TruthyStr(Some("USD"));
  }

  datatype LineItem =
    | DynamicPrice(currency: string, product: string, unitAmount: int, interval: string, quantity: nat)
    | FixedPrice(price: string, quantity: nat)

  /** The INR amount in paise: the USD price converted and rounded to a whole paisa. */
  function InrUnitAmount(priceUsd: real, rate: real): (r: int)
    ensures r as real <= priceUsd * rate * 100.0 + 0.5 < r as real + 1.0
  {
    Round(priceUsd * rate * 100.0)
  }

  /** A case-insensitive `plan.findFirst` on the name. */
  function PlanByName(plans: seq<PlanRow>, name: string): (r: Option<nat>)
    ensures r.Some? ==> r.value < |plans| && EqualsIgnoreCase(plans[r.value].name, name)
    ensures r.Some? ==> forall j :: 0 <= j < r.value ==> !EqualsIgnoreCase(plans[j].name, name)
    ensures r.None? <==> forall j :: 0 <= j < |plans| ==> !EqualsIgnoreCase(plans[j].name, name)
  {
    FindIndex(plans, (p: PlanRow) => EqualsIgnoreCase(p.name, name))
  }

  datatype CheckoutReply =
    | Created(sessionId: string, url: string, item: LineItem, customer: string)
    | CheckoutFail(status: nat, error: string)
    | CheckoutThrown

  /** The processor's replies: the USD price's product, the exchange rate, a new customer, a new session. */
  datatype CheckoutReplies = CheckoutReplies(
    usdProduct: Option<string>,
    fetchedRate: Option<real>,
    newCustomer: Option<string>,
    session: Option<(string, string)>)

  datatype CheckoutState = CheckoutState(users: seq<UserRow>, rates: RateState)
  datatype CheckoutStep = CheckoutStep(reply: CheckoutReply, after: CheckoutState)

  /** The session is created for `customer`. */
  function OpenSession(st: CheckoutState, customer: string, item: LineItem, r: CheckoutReplies): CheckoutStep {
    match r.session
    case None => CheckoutStep(CheckoutThrown, st)
    case Some(s) => CheckoutStep(Created(s.0, s.1, item, customer), st)
  }

  /** The customer reference is reused when set, created and saved otherwise. */
  function WithCustomer(st: CheckoutState, ui: nat, item: LineItem, r: CheckoutReplies): CheckoutStep
    requires ui < |st.users|
  {
    var user := st.users[ui];
    if TruthyStr(user.stripeCustomerId) then OpenSession(st, user.stripeCustomerId.value, item, r)
    else match r.newCustomer
      case None => CheckoutStep(CheckoutThrown, st)
      case Some(c) =>
        OpenSession(st.(users := st.users[ui := user.(stripeCustomerId := Some(c))]), c, item, r)
  }

  /** `createCheckoutSession` on the users table and the rate cache. */
  function CheckoutSpec(st: CheckoutState, plans: seq<PlanRow>, settings: seq<SettingsRow>, envKey: Option<string>,
                        userId: nat, planName: Option<string>, currency: Option<string>, now: int,
                        r: CheckoutReplies): CheckoutStep
  {
    if SecretKey(settings, envKey).None? then CheckoutStep(CheckoutThrown, st)
    else match UserIndex(st.users, userId)
      case None => CheckoutStep(CheckoutFail(404, "User not found"), st)
      case Some(ui) =>
        if !TruthyStr(planName) then CheckoutStep(CheckoutFail(400, "Plan name is required"), st)
        else match PlanByName(plans, planName.value)
          case None => CheckoutStep(CheckoutFail(404, "Plan not found"), st)
          case Some(pi) => CheckoutForPlan(st, ui, plans[pi], ResolveCurrency(currency, st.users[ui].country), now, r)
  }

  /** The line item for the found plan in the resolved currency, then the customer step. */
  function CheckoutForPlan(st: CheckoutState, ui: nat, plan: PlanRow, cur: string, now: int,
                           r: CheckoutReplies): CheckoutStep
    requires ui < |st.users|
  {
    if cur == "INR" then
      if !TruthyStr(plan.stripePriceIdUsd) then
        CheckoutStep(CheckoutFail(500, "USD Price ID missing on plan, cannot fetch product."), st)
      else if r.usdProduct.None? then CheckoutStep(CheckoutThrown, st)
      else
        var rr := RateStep(st.rates, now, r.fetchedRate);
        var item := DynamicPrice("inr", r.usdProduct.value, InrUnitAmount(plan.priceUsd, rr.rate),
                                 Plans.StripeInterval(plan.interval), 1);
        WithCustomer(st.(rates := rr.next), ui, item, r)
    else if !TruthyStr(plan.stripePriceIdUsd) then
      CheckoutStep(CheckoutFail(400, "Price ID not configured for this plan"), st)
    else WithCustomer(st, ui, FixedPrice(plan.stripePriceIdUsd.value, 1), r)
  }

  /** The request fails in this order and changes nothing: no user, no plan name, no such plan. */
  lemma CheckoutFailureOrder(st: CheckoutState, plans: seq<PlanRow>, settings: seq<SettingsRow>,
                             envKey: Option<string>, userId: nat, planName: Option<string>,
                             currency: Option<string>, now: int, r: CheckoutReplies)
    requires SecretKey(settings, envKey).Some?
    ensures var out := CheckoutSpec(st, plans, settings, envKey, userId, planName, currency, now, r);
            && (UserIndex(st.users, userId).None? ==> out == CheckoutStep(CheckoutFail(404, "User not found"), st))
            && (UserIndex(st.users, userId).Some? && !TruthyStr(planName) ==>
                  out == CheckoutStep(CheckoutFail(400, "Plan name is required"), st))
            && (UserIndex(st.users, userId).Some? && TruthyStr(planName)
                && (forall j :: 0 <= j < |plans| ==> !EqualsIgnoreCase(plans[j].name, planName.value)) ==>
                  out == CheckoutStep(CheckoutFail(404, "Plan not found"), st))
  {
  }

  /** Without a usable secret key nothing else is looked at. */
  lemma CheckoutNeedsKey(st: CheckoutState, plans: seq<PlanRow>, settings: seq<SettingsRow>,
                         envKey: Option<string>, userId: nat, planName: Option<string>,
                         currency: Option<string>, now: int, r: CheckoutReplies)
    requires !TruthyStr(SettingsKey(settings)) && !TruthyStr(envKey)
    ensures CheckoutSpec(st, plans, settings, envKey, userId, planName, currency, now, r) == CheckoutStep(CheckoutThrown, st)
  {
  }

  /** A created session passed every check; what is left is the customer step on the chosen line item. */
  lemma CreatedPath(st: CheckoutState, plans: seq<PlanRow>, settings: seq<SettingsRow>,
                    envKey: Option<string>, userId: nat, planName: Option<string>,
                    currency: Option<string>, now: int, r: CheckoutReplies)
    requires CheckoutSpec(st, plans, settings, envKey, userId, planName, currency, now, r).reply.Created?
    ensures UserIndex(st.users, userId).Some? && TruthyStr(planName) && PlanByName(plans, planName.value).Some?
    ensures var ui := UserIndex(st.users, userId).value;
            var plan := plans[PlanByName(plans, planName.value).value];
            var out := CheckoutSpec(st, plans, settings, envKey, userId, planName, currency, now, r);
            && TruthyStr(plan.stripePriceIdUsd)
            && (ResolveCurrency(currency, st.users[ui].country) == "INR" ==>
                  var rr := RateStep(st.rates, now, r.fetchedRate);
                  && r.usdProduct.Some?
                  && out == WithCustomer(st.(rates := rr.next), ui,
                                         DynamicPrice("inr", r.usdProduct.value, InrUnitAmount(plan.priceUsd, rr.rate),
                                                      Plans.StripeInterval(plan.interval), 1), r))
            && (ResolveCurrency(currency, st.users[ui].country) != "INR" ==>
                  out == WithCustomer(st, ui, FixedPrice(plan.stripePriceIdUsd.value, 1), r))
  {
    assert SecretKey(settings, envKey).Some?;
  }

  /** The customer step keeps the line item and the rate cache, and saves only a new customer reference. */
  lemma CustomerStep(st: CheckoutState, ui: nat, item: LineItem, r: CheckoutReplies)
    requires ui < |st.users| && WithCustomer(st, ui, item, r).reply.Created?
    ensures var out := WithCustomer(st, ui, item, r);
            var user := st.users[ui];
            && out.reply.item == item && out.after.rates == st.rates
            && (TruthyStr(user.stripeCustomerId) ==>
                  out.reply.customer == user.stripeCustomerId.value && out.after.users == st.users)
            && (!TruthyStr(user.stripeCustomerId) ==>
                  r.newCustomer == Some(out.reply.customer)
                  && out.after.users == st.users[ui := user.(stripeCustomerId := r.newCustomer)])
  {
    if !TruthyStr(st.users[ui].stripeCustomerId) {
      assert r.newCustomer.Some?;
    }
  }

  /** What a created session was asked for: one unit of the right price for the resolved currency. */
  lemma CreatedSessionLineItem(st: CheckoutState, plans: seq<PlanRow>, settings: seq<SettingsRow>,
                               envKey: Option<string>, userId: nat, planName: Option<string>,
                               currency: Option<string>, now: int, r: CheckoutReplies)
    requires CheckoutSpec(st, plans, settings, envKey, userId, planName, currency, now, r).reply.Created?
    ensures UserIndex(st.users, userId).Some? && TruthyStr(planName) && PlanByName(plans, planName.value).Some?
    ensures var out := CheckoutSpec(st, plans, settings, envKey, userId, planName, currency, now, r);
            var user := st.users[UserIndex(st.users, userId).value];
            var plan := plans[PlanByName(plans, planName.value).value];
            && out.reply.item.quantity == 1
            && TruthyStr(plan.stripePriceIdUsd)
            && (out.reply.item.DynamicPrice? <==> ResolveCurrency(currency, user.country) == "INR")
            && (out.reply.item.FixedPrice? ==> out.reply.item.price == plan.stripePriceIdUsd.value)
            && (out.reply.item.DynamicPrice? ==>
                  var rr := RateStep(st.rates, now, r.fetchedRate);
                  && out.reply.item == DynamicPrice("inr", r.usdProduct.value, InrUnitAmount(plan.priceUsd, rr.rate),
                                                    Plans.StripeInterval(plan.interval), 1)
                  && out.after.rates == rr.next)
            && (out.reply.item.FixedPrice? ==> out.after.rates == st.rates)
  {
    CreatedPath(st, plans, settings, envKey, userId, planName, currency, now, r);
    var ui := UserIndex(st.users, userId).value;
    var plan := plans[PlanByName(plans, planName.value).value];
    if ResolveCurrency(currency, st.users[ui].country) == "INR" {
      var rr := RateStep(st.rates, now, r.fetchedRate);
      CustomerStep(st.(rates := rr.next), ui,
                   DynamicPrice("inr", r.usdProduct.value, InrUnitAmount(plan.priceUsd, rr.rate),
                                Plans.StripeInterval(plan.interval), 1), r);
    } else {
      CustomerStep(st, ui, FixedPrice(plan.stripePriceIdUsd.value, 1), r);
    }
  }

  /**
   * The customer reference: an existing one is reused and the users table is
   * left alone; otherwise the new one is saved on that user and nothing else
   * in the table changes.
   */
  lemma CheckoutCustomer(st: CheckoutState, plans: seq<PlanRow>, settings: seq<SettingsRow>,
                         envKey: Option<string>, userId: nat, planName: Option<string>,
                         currency: Option<string>, now: int, r: CheckoutReplies)
    requires CheckoutSpec(st, plans, settings, envKey, userId, planName, currency, now, r).reply.Created?
    ensures UserIndex(st.users, userId).Some?
    ensures var out := CheckoutSpec(st, plans, settings, envKey, userId, planName, currency, now, r);
            var ui := UserIndex(st.users, userId).value;
            var user := st.users[ui];
            && (TruthyStr(user.stripeCustomerId) ==>
                  out.reply.customer == user.stripeCustomerId.value && out.after.users == st.users)
            && (!TruthyStr(user.stripeCustomerId) ==>
                  r.newCustomer == Some(out.reply.customer)
                  && out.after.users == st.users[ui := user.(stripeCustomerId := r.newCustomer)])
  {
    CreatedPath(st, plans, settings, envKey, userId, planName, currency, now, r);
    var ui := UserIndex(st.users, userId).value;
    var plan := plans[PlanByName(plans, planName.value).value];
    if ResolveCurrency(currency, st.users[ui].country) == "INR" {
      var rr := RateStep(st.rates, now, r.fetchedRate);
      CustomerStep(st.(rates := rr.next), ui,
                   DynamicPrice("inr", r.usdProduct.value, InrUnitAmount(plan.priceUsd, rr.rate),
                                Plans.StripeInterval(plan.interval), 1), r);
    } else {
      CustomerStep(st, ui, FixedPrice(plan.stripePriceIdUsd.value, 1), r);
    }
  }

  method CreateCheckoutSession(db: Store, cache: RateCache, envKey: Option<string>, userId: nat,
                               planName: Option<string>, currency: Option<string>, now: int,
                               r: CheckoutReplies) returns (reply: CheckoutReply)
    requires db.Valid() && cache.Valid()
    modifies db`users, cache
    ensures db.Valid() && cache.Valid()
    ensures CheckoutStep(reply, CheckoutState(db.users, cache.State()))
            == CheckoutSpec(CheckoutState(old(db.users), old(cache.State())), db.plans, db.settings, envKey,
                            userId, planName, currency, now, r)
  {
    if SecretKey(db.settings, envKey).None? {
      return CheckoutThrown;
    }
    var found := UserIndex(db.users, userId);
    if found.None? {
      return CheckoutFail(404, "User not found");
    }
    var ui := found.value;
    var user := db.users[ui];
    if !TruthyStr(planName) {
      return CheckoutFail(400, "Plan name is required");
    }
    var planAt := PlanByName(db.plans, planName.value);
    if planAt.None? {
      return CheckoutFail(404, "Plan not found");
    }
    reply := CheckoutPlan(db, cache, ui, db.plans[planAt.value], ResolveCurrency(currency, user.country), now, r);
  }

  /** The line item for the found plan, then the customer step. */
  method CheckoutPlan(db: Store, cache: RateCache, ui: nat, plan: PlanRow, cur: string, now: int,
                      r: CheckoutReplies) returns (reply: CheckoutReply)
    requires db.Valid() && cache.Valid() && ui < |db.users|
    modifies db`users, cache
    ensures db.Valid() && cache.Valid()
    ensures CheckoutStep(reply, CheckoutState(db.users, cache.State()))
            == CheckoutForPlan(CheckoutState(old(db.users), old(cache.State())), ui, plan, cur, now, r)
  {
    var item: LineItem;
    if cur == "INR" {
      if !TruthyStr(plan.stripePriceIdUsd) {
        return CheckoutFail(500, "USD Price ID missing on plan, cannot fetch product.");
      }
      if r.usdProduct.None? {
        return CheckoutThrown;
      }
      var rate := cache.GetConversionRate(now, r.fetchedRate);
      item := DynamicPrice("inr", r.usdProduct.value, InrUnitAmount(plan.priceUsd, rate), Plans.StripeInterval(plan.interval), 1);
    } else {
      if !TruthyStr(plan.stripePriceIdUsd) {
        return CheckoutFail(400, "Price ID not configured for this plan");
      }
      item := FixedPrice(plan.stripePriceIdUsd.value, 1);
    }
    reply := AttachCustomer(db, ui, item, cache.State(), r);
  }

  /** The customer step and the session creation of `createCheckoutSession`. */
  method AttachCustomer(db: Store, ui: nat, item: LineItem, rates: RateState, r: CheckoutReplies)
    returns (reply: CheckoutReply)
    requires db.Valid() && ui < |db.users|
    modifies db`users
    ensures db.Valid()
    ensures CheckoutStep(reply, CheckoutState(db.users, rates))
            == WithCustomer(CheckoutState(old(db.users), rates), ui, item, r)
  {
    var user := db.users[ui];
    var customerId := user.stripeCustomerId;
    if !TruthyStr(customerId) {
      if r.newCustomer.None? {
        return CheckoutThrown;
      }
      customerId := r.newCustomer;
      UpdateKeepsUnique(db.users, ui, user.(stripeCustomerId := customerId), UserIdOf);
      UpdateKeepsUnique(db.users, ui, user.(stripeCustomerId := customerId), UserEmailOf);
      db.users := db.users[ui := user.(stripeCustomerId := customerId)];
    }
    if r.session.None? {
      return CheckoutThrown;
    }
    reply := Created(r.session.value.0, r.session.value.1, item, customerId.value);
  }

  // ------------------------------------------------------------------
  // What the processor sends
  // ------------------------------------------------------------------

  /** A processor subscription; `currentPeriodEnd` is in seconds. */
  datatype StripeSub = StripeSub(id: string, status: string, currentPeriodEnd: int)

  /** A checkout session with the metadata the checkout attached to it. */
  datatype CheckoutSession = CheckoutSession(
    id: string,
    paymentStatus: string,
    userId: nat,
    planId: nat,
    subscription: Option<string>,
    amountTotal: Option<int>,
    currency: Option<string>,
    paymentIntent: Option<string>)

  datatype Event =
    | SessionCompleted(session: CheckoutSession)
    | InvoicePaymentSucceeded
    | SubscriptionUpdated(sub: StripeSub)
    | SubscriptionDeleted(sub: StripeSub)
    | Unhandled(kind: string)

  /** The `type` string of each event the dispatcher tells apart. */
  function EventType(e: Event): string {
    match e
    case SessionCompleted(_) => "checkout.session.completed"
    case InvoicePaymentSucceeded => "invoice.payment_succeeded"
    case SubscriptionUpdated(_) => "customer.subscription.updated"
    case SubscriptionDeleted(_) => "customer.subscription.deleted"
    case Unhandled(k) => k
  }

  /** `amount_total / 100`, or 0 when the total is missing or zero. */
  function Amount(s: CheckoutSession): (a: real)
    ensures s.amountTotal.Some? ==> a * 100.0 == s.amountTotal.value as real
    ensures s.amountTotal.None? ==> a == 0.0
  {
    if s.amountTotal.Some? && s.amountTotal.value != 0 then s.amountTotal.value as real / 100.0 else 0.0
  }

  /** The payment intent id when the session carries one as a string, else the session's own id. */
  function PaymentId(s: CheckoutSession): (p: string)
    ensures s.paymentIntent.Some? ==> p == s.paymentIntent.value
    ensures s.paymentIntent.None? ==> p == s.id
  {
    if s.paymentIntent.Some? then s.paymentIntent.value else s.id
  }

  /** The ledger entry recorded for a paid session. */
  function TxFor(s: CheckoutSession, now: int): (t: TransactionRow)
    ensures t.userId == s.userId && t.amount == Amount(s) && t.stripePaymentId == PaymentId(s)
    ensures t.currency == OrStr(s.currency, "usd") && t.status == "succeeded" && t.createdAt == now
  {
    TransactionRow(s.userId, Amount(s), OrStr(s.currency, "usd"), "succeeded", PaymentId(s), now)
  }

  /** The local subscription recorded for a session; the period end becomes ms. */
  function SubFor(s: CheckoutSession, stripeId: string, sub: StripeSub): (row: SubscriptionRow)
    ensures row.userId == s.userId && row.planId == s.planId && row.stripeSubscriptionId == stripeId
    ensures row.status == Active && row.currentPeriodEnd == sub.currentPeriodEnd * 1000
  {
    SubscriptionRow(s.userId, s.planId, stripeId, Active, sub.currentPeriodEnd * 1000)
  }

  /** The profile at `i` with `payment_status` set to "Paid". */
  function MarkPaid(profiles: seq<ProfileRow>, i: nat): (r: seq<ProfileRow>)
    requires i < |profiles|
    ensures |r| == |profiles| && r[i].userId == profiles[i].userId
    ensures r[i].cols == profiles[i].cols[PaymentStatusCol := "Paid"]
    ensures forall j :: 0 <= j < |r| && j != i ==> r[j] == profiles[j]
  {
    profiles[i := profiles[i].(cols := profiles[i].cols[PaymentStatusCol := "Paid"])]
  }

  lemma MarkPaidKeepsUnique(profiles: seq<ProfileRow>, i: nat)
    requires i < |profiles| && UniqueBy(profiles, ProfileOwner)
    ensures UniqueBy(MarkPaid(profiles, i), ProfileOwner)
  {
    UpdateKeepsUnique(profiles, i, profiles[i].(cols := profiles[i].cols[PaymentStatusCol := "Paid"]), ProfileOwner);
  }

  /** The owner's profile is already Paid. */
  predicate IsPaid(b: Billing, userId: nat) {
    var i := ProfileIndex(b.profiles, userId);
    i.Some? && PaymentStatusCol in b.profiles[i.value].cols && b.profiles[i.value].cols[PaymentStatusCol] == "Paid"
  }

  lemma MarkPaidTwice(profiles: seq<ProfileRow>, i: nat)
    requires i < |profiles|
    ensures MarkPaid(MarkPaid(profiles, i), i) == MarkPaid(profiles, i)
  {
    assert MarkPaid(profiles, i)[i].cols[PaymentStatusCol := "Paid"] == MarkPaid(profiles, i)[i].cols;
  }

  /** Marking the found profile keeps it the one found for its owner, and a second mark changes nothing. */
  lemma MarkPaidFound(profiles: seq<ProfileRow>, userId: nat, i: nat)
    requires ProfileIndex(profiles, userId) == Some(i)
    ensures ProfileIndex(MarkPaid(profiles, i), userId) == Some(i)
    ensures MarkPaid(MarkPaid(profiles, i), i) == MarkPaid(profiles, i)
  {
    var marked := MarkPaid(profiles, i);
    assert forall j :: 0 <= j < i ==> marked[j] == profiles[j];
    MarkPaidTwice(profiles, i);
  }

  // ------------------------------------------------------------------
  // Webhook
  // ------------------------------------------------------------------

  datatype WebhookReply = Received | SignatureRejected | Unanswered
  datatype WebhookStep = WebhookStep(reply: WebhookReply, after: Billing)

  /**
   * `handleCheckoutSessionCompleted`: an ACTIVE subscription inserted with no
   * existence check, then Paid on the profile and a ledger entry; when the
   * profile is missing the update throws, which is caught, and no ledger entry
   * is made. When the subscription cannot be retrieved the handler throws and
   * nothing is written.
   */
  function CompletedSpec(b: Billing, s: CheckoutSession, retrieved: Option<StripeSub>, now: int): WebhookStep {
    if s.subscription.None? || retrieved.None? then WebhookStep(Unanswered, b)
    else
      var subs := b.subs + [SubFor(s, s.subscription.value, retrieved.value)];
      match ProfileIndex(b.profiles, s.userId)
      case None => WebhookStep(Received, Billing(b.profiles, subs, b.txs))
      case Some(i) => WebhookStep(Received, Billing(MarkPaid(b.profiles, i), subs, b.txs + [TxFor(s, now)]))
  }

  /** The status kept locally for a processor status. */
  function LocalStatus(status: string): (r: SubStatus)
    ensures r == Active <==> status == "active"
  {
    if status == "active" then Active else Canceled
  }

  /** `handleSubscriptionUpdated`: the first row with that processor id gets the new status and period end. */
  function SubscriptionChangedSpec(subs: seq<SubscriptionRow>, sub: StripeSub): (r: seq<SubscriptionRow>)
    ensures |r| == |subs|
    ensures SubIndex(subs, sub.id).None? ==> r == subs
    ensures SubIndex(subs, sub.id).Some? ==>
              var i := SubIndex(subs, sub.id).value;
              && r[i] == subs[i].(status := LocalStatus(sub.status), currentPeriodEnd := sub.currentPeriodEnd * 1000)
              && forall j :: 0 <= j < |r| && j != i ==> r[j] == subs[j]
  {
    match SubIndex(subs, sub.id)
    case None => subs
    case Some(i) => subs[i := subs[i].(status := LocalStatus(sub.status), currentPeriodEnd := sub.currentPeriodEnd * 1000)]
  }

  /**
   * `handleWebhook`. `keyOk` says `getStripeClient` succeeded and `verified`
   * is what signature verification produced (`None` when it throws).
   */
  function WebhookSpec(b: Billing, keyOk: bool, verified: Option<Event>, retrieved: Option<StripeSub>, now: int): WebhookStep {
    if !keyOk || verified.None? then WebhookStep(SignatureRejected, b)
    else match verified.value
      case SessionCompleted(s) => CompletedSpec(b, s, retrieved, now)
      case SubscriptionUpdated(sub) => WebhookStep(Received, b.(subs := SubscriptionChangedSpec(b.subs, sub)))
      case SubscriptionDeleted(sub) => WebhookStep(Received, b.(subs := SubscriptionChangedSpec(b.subs, sub)))
      case InvoicePaymentSucceeded => WebhookStep(Received, b)
      case Unhandled(_) => WebhookStep(Received, b)
  }

  /** A request that fails verification is rejected and writes nothing. */
  lemma RejectedWebhookWritesNothing(b: Billing, keyOk: bool, verified: Option<Event>,
                                     retrieved: Option<StripeSub>, now: int)
    requires !keyOk || verified.None?
    ensures WebhookSpec(b, keyOk, verified, retrieved, now) == WebhookStep(SignatureRejected, b)
  {
  }

  /**
   * Every verified event is acknowledged except a completed session whose
   * subscription cannot be retrieved; events other than the three handled
   * kinds change nothing.
   */
  lemma VerifiedWebhookAcknowledged(b: Billing, e: Event, retrieved: Option<StripeSub>, now: int)
    ensures var out := WebhookSpec(b, true, Some(e), retrieved, now);
            && (out.reply == Received
                <==> !(e.SessionCompleted? && (e.session.subscription.None? || retrieved.None?)))
            && (out.reply != SignatureRejected)
            && ((e.InvoicePaymentSucceeded? || e.Unhandled?) ==> out.after == b)
            && (out.reply == Unanswered ==> out.after == b)
  {
  }

  /** A subscription change never adds or removes a row and only touches the matching one. */
  lemma SubscriptionChangeKeepsRows(b: Billing, sub: StripeSub, now: int)
    ensures var out := WebhookSpec(b, true, Some(SubscriptionUpdated(sub)), None, now);
            && out.after.profiles == b.profiles && out.after.txs == b.txs
            && |out.after.subs| == |b.subs|
            && (SubIndex(b.subs, sub.id).None? ==> out.after == b)
    ensures WebhookSpec(b, true, Some(SubscriptionDeleted(sub)), None, now)
            == WebhookSpec(b, true, Some(SubscriptionUpdated(sub)), None, now)
  {
  }

  /** A second delivery of the same completed session inserts a second subscription row. */
  lemma RedeliveryDuplicatesSubscription(b: Billing, s: CheckoutSession, sub: StripeSub, now1: int, now2: int)
    requires s.subscription.Some?
    ensures var once := CompletedSpec(b, s, Some(sub), now1).after;
            var twice := CompletedSpec(once, s, Some(sub), now2).after;
            && |twice.subs| == |b.subs| + 2
            && twice.subs[|b.subs|].stripeSubscriptionId == twice.subs[|b.subs| + 1].stripeSubscriptionId
  {
  }

  method HandleCheckoutSessionCompleted(db: Store, s: CheckoutSession, retrieved: Option<StripeSub>, now: int)
    returns (answered: bool)
    requires db.Valid()
    modifies db`profiles, db`subs, db`txs
    ensures db.Valid()
    ensures WebhookStep(if answered then Received else Unanswered, db.BillingView())
            == CompletedSpec(old(db.BillingView()), s, retrieved, now)
  {
    if s.subscription.None? || retrieved.None? {
      return false;
    }
    db.subs := db.subs + [SubFor(s, s.subscription.value, retrieved.value)];
    var i := ProfileIndex(db.profiles, s.userId);
    if i.Some? {
      MarkPaidKeepsUnique(db.profiles, i.value);
      db.profiles := MarkPaid(db.profiles, i.value);
      db.txs := db.txs + [TxFor(s, now)];
    }
    answered := true;
  }

  method HandleSubscriptionUpdated(db: Store, sub: StripeSub)
    modifies db`subs
    ensures db.subs == SubscriptionChangedSpec(old(db.subs), sub)
  {
    var i := SubIndex(db.subs, sub.id);
    if i.Some? {
      db.subs := db.subs[i.value := db.subs[i.value].(status := LocalStatus(sub.status),
                                                        currentPeriodEnd := sub.currentPeriodEnd * 1000)];
    }
  }

  /**
   * `handleWebhook`. `construct` is signature verification of the raw body
   * under the webhook secret in use.
   */
  method HandleWebhook(db: Store, envKey: Option<string>, envSecret: Option<string>,
                       construct: Option<string> -> Option<Event>, retrieved: Option<StripeSub>, now: int)
    returns (reply: WebhookReply)
    requires db.Valid()
    modifies db`profiles, db`subs, db`txs
    ensures db.Valid()
    ensures WebhookStep(reply, db.BillingView())
            == WebhookSpec(old(db.BillingView()), SecretKey(db.settings, envKey).Some?,
                           construct(WebhookSecret(db.settings, envSecret)), retrieved, now)
  {
    if SecretKey(db.settings, envKey).None? {
      return SignatureRejected;
    }
    var event := construct(WebhookSecret(db.settings, envSecret));
    if event.None? {
      return SignatureRejected;
    }
    reply := DispatchEvent(db, event.value, retrieved, now);
  }

  /** The `switch` on the verified event's type. */
  method DispatchEvent(db: Store, e: Event, retrieved: Option<StripeSub>, now: int) returns (reply: WebhookReply)
    requires db.Valid()
    modifies db`profiles, db`subs, db`txs
    ensures db.Valid()
    ensures WebhookStep(reply, db.BillingView()) == WebhookSpec(old(db.BillingView()), true, Some(e), retrieved, now)
  {
    match e
    case SessionCompleted(s) =>
      var answered := HandleCheckoutSessionCompleted(db, s, retrieved, now);
      reply := if answered then Received else Unanswered;
    case SubscriptionUpdated(sub) =>
      HandleSubscriptionUpdated(db, sub);
      reply := Received;
    case SubscriptionDeleted(sub) =>
      HandleSubscriptionUpdated(db, sub);
      reply := Received;
    case InvoicePaymentSucceeded =>
      reply := Received;
    case Unhandled(_) =>
      reply := Received;
  }

  // ------------------------------------------------------------------
  // Verifier
  // ------------------------------------------------------------------

  datatype VerifyReply = Verified | VerifyFail(status: nat, error: string) | VerifyThrown
  datatype VerifyStep = VerifyStep(reply: VerifyReply, after: Billing)

  /**
   * `verifyCheckoutSession` once the session is paid and its owner has a
   * profile at `i`: Paid on the profile, a ledger entry unless one has that
   * payment id, and a subscription unless one has that processor id.
   */
  function VerifyPaid(b: Billing, s: CheckoutSession, i: nat, retrieved: Option<StripeSub>, now: int): VerifyStep
    requires i < |b.profiles|
  {
    var profiles := MarkPaid(b.profiles, i);
    var txs := if HasPayment(b.txs, PaymentId(s)) then b.txs else b.txs + [TxFor(s, now)];
    if TruthyStr(s.subscription) && SubIndex(b.subs, s.subscription.value).None? then
      if retrieved.None? then VerifyStep(VerifyThrown, Billing(profiles, b.subs, txs))
      else VerifyStep(Verified, Billing(profiles, b.subs + [SubFor(s, s.subscription.value, retrieved.value)], txs))
    else VerifyStep(Verified, Billing(profiles, b.subs, txs))
  }

  /**
   * `verifyCheckoutSession`. `session` is the processor's session record
   * (`None` when retrieval throws); `retrieved` its subscription.
   */
  function VerifySpec(b: Billing, sessionId: Option<string>, keyOk: bool, session: Option<CheckoutSession>,
                      retrieved: Option<StripeSub>, now: int): VerifyStep
  {
    if !TruthyStr(sessionId) then VerifyStep(VerifyFail(400, "Session ID is required"), b)
    else if !keyOk || session.None? then VerifyStep(VerifyThrown, b)
    else if session.value.paymentStatus != "paid" then VerifyStep(VerifyFail(400, "Payment not completed yet."), b)
    else match ProfileIndex(b.profiles, session.value.userId)
      case None => VerifyStep(VerifyThrown, b)
      case Some(i) => VerifyPaid(b, session.value, i, retrieved, now)
  }

  /** No session id, an unpaid session, or a missing profile: nothing is written. */
  lemma VerifyRejectsWithoutWrites(b: Billing, sessionId: Option<string>, keyOk: bool,
                                   session: Option<CheckoutSession>, retrieved: Option<StripeSub>, now: int)
    ensures !TruthyStr(sessionId) ==>
              VerifySpec(b, sessionId, keyOk, session, retrieved, now) == VerifyStep(VerifyFail(400, "Session ID is required"), b)
    ensures TruthyStr(sessionId) && keyOk && session.Some? && session.value.paymentStatus != "paid" ==>
              VerifySpec(b, sessionId, keyOk, session, retrieved, now) == VerifyStep(VerifyFail(400, "Payment not completed yet."), b)
    ensures session.Some? && ProfileIndex(b.profiles, session.value.userId).None? ==>
              VerifySpec(b, sessionId, keyOk, session, retrieved, now).after == b
  {
  }

  /**
   * After a successful verification the profile is Paid and the ledger entry
   * and subscription exist; at most one row is added to each table.
   */
  lemma VerifyEstablishes(b: Billing, sessionId: Option<string>, keyOk: bool, s: CheckoutSession,
                          retrieved: Option<StripeSub>, now: int)
    requires VerifySpec(b, sessionId, keyOk, Some(s), retrieved, now).reply == Verified
    ensures var after := VerifySpec(b, sessionId, keyOk, Some(s), retrieved, now).after;
            && IsPaid(after, s.userId)
            && HasPayment(after.txs, PaymentId(s))
            && (TruthyStr(s.subscription) ==> SubIndex(after.subs, s.subscription.value).Some?)
            && |b.txs| <= |after.txs| <= |b.txs| + 1
            && |b.subs| <= |after.subs| <= |b.subs| + 1
            && (HasPayment(b.txs, PaymentId(s)) ==> after.txs == b.txs)
  {
    var i := ProfileIndex(b.profiles, s.userId).value;
    var after := VerifySpec(b, sessionId, keyOk, Some(s), retrieved, now).after;
    assert after.profiles == MarkPaid(b.profiles, i);
    MarkPaidFound(b.profiles, s.userId, i);
    if !HasPayment(b.txs, PaymentId(s)) {
      assert after.txs[|b.txs|].stripePaymentId == PaymentId(s);
    }
    if TruthyStr(s.subscription) && SubIndex(b.subs, s.subscription.value).None? {
      assert after.subs[|b.subs|].stripeSubscriptionId == s.subscription.value;
    }
  }

  /** Recording the same paid session twice leaves the tables as the first recording left them. */
  lemma VerifyPaidTwice(b: Billing, s: CheckoutSession, i: nat, retrieved: Option<StripeSub>, now1: int, now2: int)
    requires ProfileIndex(b.profiles, s.userId) == Some(i)
    ensures var once := VerifyPaid(b, s, i, retrieved, now1).after;
            i < |once.profiles| && VerifyPaid(once, s, i, retrieved, now2).after == once
  {
    var once := VerifyPaid(b, s, i, retrieved, now1).after;
    MarkPaidFound(b.profiles, s.userId, i);
    assert HasPayment(once.txs, PaymentId(s)) by {
      if !HasPayment(b.txs, PaymentId(s)) {
        assert once.txs[|b.txs|].stripePaymentId == PaymentId(s);
      }
    }
    if TruthyStr(s.subscription) && SubIndex(b.subs, s.subscription.value).None? && retrieved.Some? {
      assert once.subs[|b.subs|].stripeSubscriptionId == s.subscription.value;
    }
  }

  /** A repeat verification of the same session leaves the tables as the first one left them. */
  lemma {:induction false} VerifyIdempotent(b: Billing, sessionId: Option<string>, keyOk: bool,
                                            session: Option<CheckoutSession>, retrieved: Option<StripeSub>,
                                            now1: int, now2: int)
    ensures var once := VerifySpec(b, sessionId, keyOk, session, retrieved, now1).after;
            VerifySpec(once, sessionId, keyOk, session, retrieved, now2).after == once
  {
    if TruthyStr(sessionId) && keyOk && session.Some? && session.value.paymentStatus == "paid"
       && ProfileIndex(b.profiles, session.value.userId).Some? {
      var s := session.value;
      var i := ProfileIndex(b.profiles, s.userId).value;
      VerifyPaidTwice(b, s, i, retrieved, now1, now2);
      MarkPaidFound(b.profiles, s.userId, i);
    }
  }

  /**
   * The key reconciliation property: once the webhook has handled a
   * completed session, verifying that same session writes nothing at all.
   */
  lemma {:induction false} VerifyAfterWebhookAddsNoRows(b: Billing, s: CheckoutSession, sub: StripeSub, now1: int,
                                                        sessionId: Option<string>, keyOk: bool,
                                                        retrieved: Option<StripeSub>, now2: int)
    requires s.subscription.Some?
    ensures var hooked := WebhookSpec(b, true, Some(SessionCompleted(s)), Some(sub), now1).after;
            var verified := VerifySpec(hooked, sessionId, keyOk, Some(s), retrieved, now2).after;
            verified == hooked
  {
    var hooked := WebhookSpec(b, true, Some(SessionCompleted(s)), Some(sub), now1).after;
    match ProfileIndex(b.profiles, s.userId)
    case None =>
      assert hooked.profiles == b.profiles;
    case Some(i) =>
      assert hooked.profiles == MarkPaid(b.profiles, i);
      MarkPaidFound(b.profiles, s.userId, i);
      assert hooked.txs[|b.txs|].stripePaymentId == PaymentId(s);
      assert hooked.subs[|b.subs|].stripeSubscriptionId == s.subscription.value;
  }

  /** The converse order is not safe: the webhook after a verification inserts its rows again. */
  lemma WebhookAfterVerifyDuplicates(b: Billing, sessionId: Option<string>, s: CheckoutSession,
                                     retrieved: StripeSub, now1: int, now2: int)
    requires TruthyStr(sessionId) && s.paymentStatus == "paid" && TruthyStr(s.subscription)
    requires ProfileIndex(b.profiles, s.userId).Some?
    requires SubIndex(b.subs, s.subscription.value).None? && !HasPayment(b.txs, PaymentId(s))
    ensures var verified := VerifySpec(b, sessionId, true, Some(s), Some(retrieved), now1).after;
            var hooked := WebhookSpec(verified, true, Some(SessionCompleted(s)), Some(retrieved), now2).after;
            && |hooked.subs| == |b.subs| + 2 && |hooked.txs| == |b.txs| + 2
  {
    var verified := VerifySpec(b, sessionId, true, Some(s), Some(retrieved), now1).after;
    var i := ProfileIndex(b.profiles, s.userId).value;
    assert ProfileIndex(verified.profiles, s.userId).Some? by {
      assert verified.profiles[i].userId == s.userId;
    }
  }

  /** The writes of a paid session whose owner's profile is at `i`. */
  method RecordVerifiedPayment(db: Store, s: CheckoutSession, i: nat, retrieved: Option<StripeSub>, now: int)
    returns (reply: VerifyReply)
    requires db.Valid() && i < |db.profiles|
    modifies db`profiles, db`subs, db`txs
    ensures db.Valid()
    ensures VerifyStep(reply, db.BillingView()) == VerifyPaid(old(db.BillingView()), s, i, retrieved, now)
  {
    MarkPaidKeepsUnique(db.profiles, i);
    db.profiles := MarkPaid(db.profiles, i);
    var paymentId := PaymentId(s);
    if !HasPayment(db.txs, paymentId) {
      db.txs := db.txs + [TxFor(s, now)];
    }
    if TruthyStr(s.subscription) {
      var existing := SubIndex(db.subs, s.subscription.value);
      if existing.None? {
        if retrieved.None? {
          return VerifyThrown;
        }
        db.subs := db.subs + [SubFor(s, s.subscription.value, retrieved.value)];
      }
    }
    reply := Verified;
  }

  method VerifyCheckoutSession(db: Store, sessionId: Option<string>, envKey: Option<string>,
                               session: Option<CheckoutSession>, retrieved: Option<StripeSub>, now: int)
    returns (reply: VerifyReply)
    requires db.Valid()
    modifies db`profiles, db`subs, db`txs
    ensures db.Valid()
    ensures VerifyStep(reply, db.BillingView())
            == VerifySpec(old(db.BillingView()), sessionId, SecretKey(db.settings, envKey).Some?, session, retrieved, now)
  {
    if !TruthyStr(sessionId) {
      return VerifyFail(400, "Session ID is required");
    }
    if SecretKey(db.settings, envKey).None? || session.None? {
      return VerifyThrown;
    }
    var s := session.value;
    if s.paymentStatus != "paid" {
      return VerifyFail(400, "Payment not completed yet.");
    }
    var i := ProfileIndex(db.profiles, s.userId);
    if i.None? {
      return VerifyThrown;
    }
    reply := RecordVerifiedPayment(db, s, i.value, retrieved, now);
  }
}
