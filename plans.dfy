/**
 * Plans: the localised public price list, creating a plan together with
 * its processor product and prices, updating it (recreating processor
 * prices only when something price-relevant changed), and deleting it.
 */
module Plans {
  import opened Wrappers
  import opened Text
  import opened Seqs
  import opened Numbers
  import opened Records
  import opened Db
  import opened StripeConfig

  /** A calls made on the processor, in order. */
  datatype StripeCall =
    | CreateProduct(name: string)
    | RenameProduct(product: string, newName: string)
    | CreatePrice(product: string, unitAmount: int, currency: string, interval: string)
    | ArchivePrice(price: string)
    | ArchiveProduct(product: string)

  /** JavaScript truthiness of an optional number. */
  predicate TruthyNum(x: Option<real>) {
    x.Some? && x.value != 0.0
  }

  /** The processor interval for a plan interval; checkout asks for the same one. */
  function StripeInterval(interval: string): (r: string)
    ensures r == "month" <==> interval == "MONTHLY"
    ensures r == "month" || r == "year"
  {
    if interval == "MONTHLY" then "month" else "year"
  }

  /** The amount in minor units (paise or cents). */
  function MinorUnits(price: real): (r: int)
    ensures r as real <= price * 100.0 + 0.5 < r as real + 1.0
  {
    Round(price * 100.0)
  }

  /** `Math.ceil(usd * rate)`: the USD price converted to whole rupees, rounded up. */
  function InrFromUsd(usd: real, rate: real): (r: real)
    ensures usd * rate <= r < usd * rate + 1.0
  {
    Ceil(usd * rate) as real
  }

  /** `parseFloat((inr / rate).toFixed(2))`. */
  function UsdFromInr(inr: real, rate: real): (r: real)
    requires rate != 0.0
    ensures -0.005 < r - inr / rate <= 0.005
  {
    Round2(inr / rate)
  }

  // ------------------------------------------------------------------
  // Public price list
  // ------------------------------------------------------------------

  const RupeeSign: string := "\U{20B9}"

  /** One entry of the public price list. */
  datatype PublicPlan = PublicPlan(
    id: nat,
    name: string,
    price: real,
    currency: string,
    symbol: string,
    interval: string,
    features: seq<string>,
    isPopular: bool,
    stripePriceId: Option<string>)

  datatype PublicPlans = PublicPlans(country: string, currency: string, plans: seq<PublicPlan>)

  /** The country used: the geolocation's, or "US" when the lookup finds nothing. */
  function CountryOf(geo: Option<string>): string {
    if geo.Some? then geo.value else "US"
  }

  function PriceInrLe(a: PlanRow, b: PlanRow): bool {
    a.priceInr <= b.priceInr
  }

  function IsActivePlan(p: PlanRow): bool {
    p.isActive
  }

  /** `plan.findMany({ where: { is_active: true }, orderBy: { price_inr: 'asc' } })`. */
  function ActiveByPrice(plans: seq<PlanRow>): seq<PlanRow> {
    SortBy(Filter(plans, IsActivePlan), PriceInrLe)
  }

  /** The public view of one plan for a country. */
  function Localise(p: PlanRow, country: string, rate: real): (q: PublicPlan)
    ensures q.id == p.id && q.name == p.name && q.interval == p.interval
    ensures q.features == p.features && q.isPopular == p.isPopular
    ensures country == "IN" ==> (q.price == InrFromUsd(p.priceUsd, rate) && q.stripePriceId.None?
                                 && q.currency == "INR" && q.symbol == RupeeSign)
    ensures country != "IN" ==> (q.price == p.priceUsd && q.stripePriceId == p.stripePriceIdUsd
                                 && q.currency == "USD" && q.symbol == "$")
  {
    var inIndia := country == "IN";
    PublicPlan(p.id, p.name,
               if inIndia then InrFromUsd(p.priceUsd, rate) else p.priceUsd,
               if inIndia then "INR" else "USD",
               if inIndia then RupeeSign else "$",
               p.interval, p.features, p.isPopular,
               if inIndia then None else p.stripePriceIdUsd)
  }

  function LocaliseAll(ps: seq<PlanRow>, country: string, rate: real): (r: seq<PublicPlan>)
    ensures |r| == |ps|
    ensures forall i :: 0 <= i < |ps| ==> r[i] == Localise(ps[i], country, rate)
  {
    if ps == [] then [] else [Localise(ps[0], country, rate)] + LocaliseAll(ps[1..], country, rate)
  }

  /** `getPublicPlans` for a geolocation result and a conversion rate. */
  function PublicPlansSpec(plans: seq<PlanRow>, geo: Option<string>, rate: real): PublicPlans {
    var country := CountryOf(geo);
    PublicPlans(country, if country == "IN" then "INR" else "USD",
                LocaliseAll(ActiveByPrice(plans), country, rate))
  }

  /**
   * The price list has one entry per active plan, in ascending INR price,
   * each the localisation of that plan.
   */
  lemma PublicPlansCorrect(plans: seq<PlanRow>, geo: Option<string>, rate: real)
    ensures var out := PublicPlansSpec(plans, geo, rate);
            var sorted := ActiveByPrice(plans);
            && |out.plans| == Count(plans, IsActivePlan)
            && multiset(sorted) == multiset(Filter(plans, IsActivePlan))
            && (forall i :: 0 <= i < |sorted| ==> sorted[i].isActive && sorted[i] in plans)
            && (forall i :: 0 < i < |sorted| ==> sorted[i - 1].priceInr <= sorted[i].priceInr)
            && (forall i :: 0 <= i < |sorted| ==> out.plans[i] == Localise(sorted[i], out.country, rate))
            && (out.currency == "INR" <==> geo == Some("IN"))
  {
    var sorted := ActiveByPrice(plans);
    assert TotalPreorder(PriceInrLe);
    SortByCorrect(Filter(plans, IsActivePlan), PriceInrLe);
    forall i | 0 <= i < |sorted|
      ensures sorted[i].isActive && sorted[i] in plans
    {
      assert sorted[i] in multiset(Filter(plans, IsActivePlan));
    }
  }

  /** A worked case of `Localise`: 65 USD at a rate of 83 is shown as 5395 INR. */
  lemma IndianPriceExample(p: PlanRow)
    requires p.priceUsd == 65.0
    ensures Localise(p, "IN", 83.0).price == 5395.0
  {
    WholeNumbers(5395);
  }

  /** `getPublicPlans`: reads the plans, consults the rate cache, and writes no row. */
  method GetPublicPlans(db: Store, cache: RateCache, geo: Option<string>, now: int, fetched: Option<real>)
    returns (out: PublicPlans)
    requires cache.Valid()
    modifies cache
    ensures cache.Valid()
    ensures out == PublicPlansSpec(db.plans, geo, RateStep(old(cache.State()), now, fetched).rate)
    ensures cache.State() == RateStep(old(cache.State()), now, fetched).next
  {
    var rate := cache.GetConversionRate(now, fetched);
    out := PublicPlansSpec(db.plans, geo, rate);
  }

  // ------------------------------------------------------------------
  // Creating a plan
  // ------------------------------------------------------------------

  /**
   * The price pair after derivation: INR from USD (rounded up) when only USD
   * is given, USD from INR (to two decimals) when only INR is given.
   */
  function DerivePrices(usd: Option<real>, inr: Option<real>, rate: real): (r: (Option<real>, Option<real>))
    requires rate != 0.0
    ensures TruthyNum(usd) && !TruthyNum(inr) ==> r == (usd, Some(InrFromUsd(usd.value, rate)))
    ensures TruthyNum(inr) && !TruthyNum(usd) ==> r == (Some(UsdFromInr(inr.value, rate)), inr)
    ensures TruthyNum(usd) == TruthyNum(inr) ==> r == (usd, inr)
  {
    if TruthyNum(usd) && !TruthyNum(inr) then (usd, Some(InrFromUsd(usd.value, rate)))
    else if TruthyNum(inr) && !TruthyNum(usd) then (Some(UsdFromInr(inr.value, rate)), inr)
    else (usd, inr)
  }

  /** A derived INR price is never below the converted USD price, and less than one rupee above it. */
  lemma DerivedInrBounds(usd: real, rate: real)
    requires rate != 0.0 && usd != 0.0
    ensures var inr := DerivePrices(Some(usd), None, rate).1.value;
            usd * rate <= inr < usd * rate + 1.0
  {
  }

  datatype PlanRequest = PlanRequest(
    name: string,
    interval: string,
    features: seq<string>,
    isPopular: Option<bool>,
    priceUsd: Option<real>,
    priceInr: Option<real>)

  /** The processor's replies: the new product and the new INR and USD prices. */
  datatype CreateReplies = CreateReplies(product: Option<string>, inrPrice: Option<string>, usdPrice: Option<string>)

  datatype CreateReply = PlanCreated(plan: PlanRow) | CreateFail(status: nat, error: string) | CreateThrown

  datatype CreateOutcome = CreateOutcome(reply: CreateReply, plans: seq<PlanRow>, nextId: nat,
                                         rates: RateState, calls: seq<StripeCall>)

  /** `createPlan` once the prices are settled: the check, the processor objects, the row. */
  function CreateWithPrices(plans: seq<PlanRow>, nextId: nat, rates: RateState, req: PlanRequest,
                            usd: Option<real>, inr: Option<real>, now: int, r: CreateReplies): CreateOutcome
  {
    if !TruthyNum(usd) || !TruthyNum(inr) then
      CreateOutcome(CreateFail(400, "Price (USD) is determined to be required."), plans, nextId, rates, [])
    else
      var interval := StripeInterval(req.interval);
      if r.product.None? then CreateOutcome(CreateThrown, plans, nextId, rates, [CreateProduct(req.name)])
      else
        var product := r.product.value;
        var callInr := [CreateProduct(req.name), CreatePrice(product, MinorUnits(inr.value), "inr", interval)];
        if r.inrPrice.None? then CreateOutcome(CreateThrown, plans, nextId, rates, callInr)
        else
          var calls := callInr + [CreatePrice(product, MinorUnits(usd.value), "usd", interval)];
          if r.usdPrice.None? then CreateOutcome(CreateThrown, plans, nextId, rates, calls)
          else
            var row := PlanRow(nextId, req.name, inr.value, usd.value, req.interval, req.features,
                               req.isPopular == Some(true), true, r.inrPrice, r.usdPrice, now);
            CreateOutcome(PlanCreated(row), plans + [row], nextId + 1, rates, calls)
  }

  /** `createPlan` on the plans table, the id counter and the rate cache. */
  function CreatePlanSpec(plans: seq<PlanRow>, nextId: nat, rates: RateState, keyOk: bool,
                          req: PlanRequest, now: int, fetched: Option<real>, r: CreateReplies): CreateOutcome
    requires NonZeroCache(rates)
  {
    if !keyOk then CreateOutcome(CreateThrown, plans, nextId, rates, [])
    else
      var rr := RateStep(rates, now, fetched);
      RateAlwaysDefined(rates, now, fetched);
      var prices := DerivePrices(req.priceUsd, req.priceInr, rr.rate);
      CreateWithPrices(plans, nextId, rr.next, req, prices.0, prices.1, now, r)
  }

  /**
   * A created plan carries both prices and both new price ids, was priced on
   * the processor in minor units of each currency with the mapped interval,
   * and is the only row added.
   */
  lemma CreatedPlanCorrect(plans: seq<PlanRow>, nextId: nat, rates: RateState, keyOk: bool,
                           req: PlanRequest, now: int, fetched: Option<real>, r: CreateReplies)
    requires NonZeroCache(rates)
    requires CreatePlanSpec(plans, nextId, rates, keyOk, req, now, fetched, r).reply.PlanCreated?
    ensures var out := CreatePlanSpec(plans, nextId, rates, keyOk, req, now, fetched, r);
            var p := out.reply.plan;
            && out.plans == plans + [p] && p.id == nextId && out.nextId == nextId + 1
            && p.priceInr != 0.0 && p.priceUsd != 0.0
            && p.stripePriceIdInr == r.inrPrice && p.stripePriceIdUsd == r.usdPrice
            && (p.isPopular <==> req.isPopular == Some(true)) && p.isActive
            && out.calls == [CreateProduct(req.name),
                             CreatePrice(r.product.value, MinorUnits(p.priceInr), "inr", StripeInterval(req.interval)),
                             CreatePrice(r.product.value, MinorUnits(p.priceUsd), "usd", StripeInterval(req.interval))]
            && (TruthyNum(req.priceUsd) && !TruthyNum(req.priceInr) ==>
                  p.priceUsd == req.priceUsd.value
                  && p.priceInr == InrFromUsd(req.priceUsd.value, RateStep(rates, now, fetched).rate))
  {
    RateAlwaysDefined(rates, now, fetched);
  }

  /** Without a price in either currency the plan is refused and no row is written. */
  lemma CreateNeedsPrice(plans: seq<PlanRow>, nextId: nat, rates: RateState, req: PlanRequest, now: int,
                         fetched: Option<real>, r: CreateReplies)
    requires NonZeroCache(rates) && !TruthyNum(req.priceUsd) && !TruthyNum(req.priceInr)
    ensures var out := CreatePlanSpec(plans, nextId, rates, true, req, now, fetched, r);
            out.reply == CreateFail(400, "Price (USD) is determined to be required.") && out.plans == plans
            && out.calls == []
  {
    RateAlwaysDefined(rates, now, fetched);
  }

  method CreatePlan(db: Store, cache: RateCache, envKey: Option<string>, req: PlanRequest, now: int,
                    fetched: Option<real>, r: CreateReplies) returns (reply: CreateReply, calls: seq<StripeCall>)
    requires db.Valid() && cache.Valid()
    modifies db`plans, db`nextId, cache
    ensures db.Valid() && cache.Valid()
    ensures CreateOutcome(reply, db.plans, db.nextId, cache.State(), calls)
            == CreatePlanSpec(old(db.plans), old(db.nextId), old(cache.State()), SecretKey(db.settings, envKey).Some?,
                              req, now, fetched, r)
  {
    if SecretKey(db.settings, envKey).None? {
      return CreateThrown, [];
    }
    var rate := cache.GetConversionRate(now, fetched);
    var usd, inr := req.priceUsd, req.priceInr;
    if TruthyNum(usd) && !TruthyNum(inr) {
      inr := Some(InrFromUsd(usd.value, rate));
    } else if TruthyNum(inr) && !TruthyNum(usd) {
      usd := Some(UsdFromInr(inr.value, rate));
    }
    reply, calls := StorePlan(db, cache.State(), req, usd, inr, now, r);
  }

  /** The part of `createPlan` after the prices are settled. */
  method StorePlan(db: Store, rates: RateState, req: PlanRequest, usd: Option<real>, inr: Option<real>, now: int,
                   r: CreateReplies) returns (reply: CreateReply, calls: seq<StripeCall>)
    requires db.Valid()
    modifies db`plans, db`nextId
    ensures db.Valid()
    ensures CreateOutcome(reply, db.plans, db.nextId, rates, calls)
            == CreateWithPrices(old(db.plans), old(db.nextId), rates, req, usd, inr, now, r)
  {
    calls := [];
    if !TruthyNum(usd) || !TruthyNum(inr) {
      return CreateFail(400, "Price (USD) is determined to be required."), calls;
    }
    var interval := StripeInterval(req.interval);
    calls := calls + [CreateProduct(req.name)];
    if r.product.None? {
      return CreateThrown, calls;
    }
    calls := calls + [CreatePrice(r.product.value, MinorUnits(inr.value), "inr", interval)];
    if r.inrPrice.None? {
      return CreateThrown, calls;
    }
    calls := calls + [CreatePrice(r.product.value, MinorUnits(usd.value), "usd", interval)];
    if r.usdPrice.None? {
      return CreateThrown, calls;
    }
    var id := db.FreshId();
    var row := PlanRow(id, req.name, inr.value, usd.value, req.interval, req.features,
                       req.isPopular == Some(true), true, r.inrPrice, r.usdPrice, now);
    AppendKeepsUnique(db.plans, row, PlanIdOf);
    db.plans := db.plans + [row];
    reply := PlanCreated(row);
  }

  // ------------------------------------------------------------------
  // Updating a plan
  // ------------------------------------------------------------------

  /**
   * The body of an update. `None` is a property that was not sent; the
   * remaining properties are spread into the update as they are.
   */
  datatype PlanUpdate = PlanUpdate(
    name: Option<string>,
    priceInr: Option<real>,
    priceUsd: Option<real>,
    interval: Option<string>,
    features: Option<seq<string>>,
    isPopular: Option<bool>,
    isActive: Option<bool>,
    stripePriceIdInr: Patch<string>,
    stripePriceIdUsd: Patch<string>)

  /** `existingPlan.stripe_price_id_inr || existingPlan.stripe_price_id_usd`. */
  function PriceIdToProbe(p: PlanRow): Option<string> {
    if TruthyStr(p.stripePriceIdInr) then p.stripePriceIdInr else p.stripePriceIdUsd
  }

  /**
   * `getProductId`: the product behind the plan's price, or `None` when there
   * is no price id, it is a placeholder, or retrieval fails (`retrieved` is
   * the processor's answer).
   */
  function ExistingProduct(p: PlanRow, retrieved: Option<string>): (r: Option<string>)
    ensures r.Some? <==> TruthyStr(PriceIdToProbe(p)) && !Contains(PriceIdToProbe(p).value, "placeholder")
                         && retrieved.Some?
    ensures r.Some? ==> r == retrieved
  {
    var priceId := PriceIdToProbe(p);
    if !TruthyStr(priceId) then None
    else if Contains(priceId.value, "placeholder") then None
    else retrieved
  }

  /** Some price-relevant field was sent with a value different from the stored one. */
  predicate PriceRelevantChange(p: PlanRow, inr: Option<real>, u: PlanUpdate) {
    (inr.Some? && inr.value != p.priceInr)
    || (u.priceUsd.Some? && u.priceUsd.value != p.priceUsd)
    || (u.interval.Some? && u.interval.value != p.interval)
  }

  /** The row after `plan.update`: sent fields overwrite, unsent ones stay, new price ids win. */
  function ApplyUpdate(p: PlanRow, inr: Option<real>, u: PlanUpdate, newIds: Option<(string, string)>): (q: PlanRow)
    ensures q.id == p.id && q.createdAt == p.createdAt
    ensures q.name == u.name.GetOr(p.name) && q.interval == u.interval.GetOr(p.interval)
    ensures q.priceInr == inr.GetOr(p.priceInr) && q.priceUsd == u.priceUsd.GetOr(p.priceUsd)
    ensures q.features == u.features.GetOr(p.features)
    ensures q.isPopular == u.isPopular.GetOr(p.isPopular) && q.isActive == u.isActive.GetOr(p.isActive)
    ensures newIds.Some? ==> q.stripePriceIdInr == Some(newIds.value.0) && q.stripePriceIdUsd == Some(newIds.value.1)
    ensures newIds.None? ==> q.stripePriceIdInr == ApplyPatch(p.stripePriceIdInr, u.stripePriceIdInr)
                             && q.stripePriceIdUsd == ApplyPatch(p.stripePriceIdUsd, u.stripePriceIdUsd)
  {
    var q := p.(name := u.name.GetOr(p.name), priceInr := inr.GetOr(p.priceInr),
                priceUsd := u.priceUsd.GetOr(p.priceUsd), interval := u.interval.GetOr(p.interval),
                features := u.features.GetOr(p.features), isPopular := u.isPopular.GetOr(p.isPopular),
                isActive := u.isActive.GetOr(p.isActive),
                stripePriceIdInr := ApplyPatch(p.stripePriceIdInr, u.stripePriceIdInr),
                stripePriceIdUsd := ApplyPatch(p.stripePriceIdUsd, u.stripePriceIdUsd));
    match newIds
    case None => q
    case Some(ids) => q.(stripePriceIdInr := Some(ids.0), stripePriceIdUsd := Some(ids.1))
  }

  /**
   * The processor's replies: the product of the probed price, a new product,
   * whether the rename succeeds, and the two new prices.
   */
  datatype UpdateReplies = UpdateReplies(
    retrieved: Option<string>,
    newProduct: Option<string>,
    renameOk: bool,
    inrPrice: Option<string>,
    usdPrice: Option<string>)

  /**
   * Step 2 of `updatePlan`: the product to price against, whether it was just
   * created, and the processor calls made; `ok` is false when a call threw.
   */
  datatype ProductChoice = ProductChoice(ok: bool, product: string, recreated: bool, calls: seq<StripeCall>)

  function ChooseProduct(p: PlanRow, u: PlanUpdate, r: UpdateReplies): ProductChoice {
    match ExistingProduct(p, r.retrieved)
    case None =>
      ProductChoice(r.newProduct.Some?, r.newProduct.GetOr(""), true,
                    [CreateProduct(if TruthyStr(u.name) then u.name.value else p.name)])
    case Some(product) =>
      if TruthyStr(u.name) && u.name.value != p.name then
        ProductChoice(r.renameOk, product, false, [RenameProduct(product, u.name.value)])
      else ProductChoice(true, product, false, [])
  }

  /**
   * A new product, named as sent or as stored, is made exactly when the plan
   * has no usable price to find its product through; otherwise the product
   * is renamed exactly when a different non-empty name is sent.
   */
  lemma ChooseProductCorrect(p: PlanRow, u: PlanUpdate, r: UpdateReplies)
    ensures var c := ChooseProduct(p, u, r);
            && (c.recreated <==> ExistingProduct(p, r.retrieved).None?)
            && (c.recreated ==> c.calls == [CreateProduct(if TruthyStr(u.name) then u.name.value else p.name)]
                                && (c.ok <==> r.newProduct.Some?))
            && (!c.recreated ==> c.product == r.retrieved.value && c.product == ExistingProduct(p, r.retrieved).value)
            && (!c.recreated ==> (c.calls != [] <==> TruthyStr(u.name) && u.name.value != p.name))
            && (forall k :: 0 <= k < |c.calls| ==> c.calls[k].CreateProduct? || c.calls[k].RenameProduct?)
  {
  }

  /** The interval the new prices use: `interval || existingPlan.interval`. */
  function NewInterval(p: PlanRow, u: PlanUpdate): string {
    if u.interval.Some? && u.interval.value != "" then u.interval.value else p.interval
  }

  /** New prices are created: something price-relevant changed or the product is new, and there is a product. */
  predicate RenewPrices(p: PlanRow, inr: Option<real>, u: PlanUpdate, c: ProductChoice) {
    (PriceRelevantChange(p, inr, u) || c.recreated) && c.product != ""
  }

  datatype UpdateReply = PlanUpdated(plan: PlanRow) | UpdateFail(status: nat, error: string) | UpdateThrown

  datatype UpdateOutcome = UpdateOutcome(reply: UpdateReply, plans: seq<PlanRow>, rates: RateState,
                                         calls: seq<StripeCall>)

  /** Steps 3 and 4 of `updatePlan`: new prices when needed, then the row update. */
  function UpdatePrices(plans: seq<PlanRow>, i: nat, rates: RateState, inr: Option<real>, u: PlanUpdate,
                        c: ProductChoice, r: UpdateReplies): UpdateOutcome
    requires i < |plans|
  {
    var p := plans[i];
    if RenewPrices(p, inr, u, c) then
      var interval := StripeInterval(NewInterval(p, u));
      var c1 := c.calls + [CreatePrice(c.product, MinorUnits(inr.GetOr(p.priceInr)), "inr", interval)];
      if r.inrPrice.None? then UpdateOutcome(UpdateThrown, plans, rates, c1)
      else
        var c2 := c1 + [CreatePrice(c.product, MinorUnits(u.priceUsd.GetOr(p.priceUsd)), "usd", interval)];
        if r.usdPrice.None? then UpdateOutcome(UpdateThrown, plans, rates, c2)
        else
          var q := ApplyUpdate(p, inr, u, Some((r.inrPrice.value, r.usdPrice.value)));
          UpdateOutcome(PlanUpdated(q), plans[i := q], rates, c2)
    else
      var q := ApplyUpdate(p, inr, u, None);
      UpdateOutcome(PlanUpdated(q), plans[i := q], rates, c.calls)
  }

  /** `price_inr` after step 0: derived from USD when only USD is sent. */
  function UpdateInr(u: PlanUpdate, rate: real): (r: Option<real>)
    ensures u.priceUsd.Some? && u.priceInr.None? ==> r == Some(InrFromUsd(u.priceUsd.value, rate))
    ensures !(u.priceUsd.Some? && u.priceInr.None?) ==> r == u.priceInr
  {
    if u.priceUsd.Some? && u.priceInr.None? then Some(InrFromUsd(u.priceUsd.value, rate)) else u.priceInr
  }

  /** `updatePlan` on the plans table and the rate cache. */
  function UpdatePlanSpec(plans: seq<PlanRow>, rates: RateState, keyOk: bool, id: nat, u: PlanUpdate,
                          now: int, fetched: Option<real>, r: UpdateReplies): UpdateOutcome
  {
    var rr := RateStep(rates, now, fetched);
    match PlanIndex(plans, id)
    case None => UpdateOutcome(UpdateFail(404, "Plan not found"), plans, rr.next, [])
    case Some(i) =>
      if !keyOk then UpdateOutcome(UpdateThrown, plans, rr.next, [])
      else
        var c := ChooseProduct(plans[i], u, r);
        if !c.ok then UpdateOutcome(UpdateThrown, plans, rr.next, c.calls)
        else UpdatePrices(plans, i, rr.next, UpdateInr(u, rr.rate), u, c, r)
  }

  /** An unknown id is refused with 404 and no processor call or row change. */
  lemma UpdateUnknownPlan(plans: seq<PlanRow>, rates: RateState, keyOk: bool, id: nat, u: PlanUpdate,
                          now: int, fetched: Option<real>, r: UpdateReplies)
    requires forall j :: 0 <= j < |plans| ==> plans[j].id != id
    ensures var out := UpdatePlanSpec(plans, rates, keyOk, id, u, now, fetched, r);
            out.reply == UpdateFail(404, "Plan not found") && out.plans == plans && out.calls == []
  {
  }

  /**
   * The plan row after an update: new price ids exactly when a price or the
   * interval changed or the product was recreated, each new price in minor
   * units of the new value; no other row changes.
   */
  lemma UpdatedPlanCorrect(plans: seq<PlanRow>, i: nat, rates: RateState, inr: Option<real>, u: PlanUpdate,
                           c: ProductChoice, r: UpdateReplies)
    requires i < |plans|
    requires UpdatePrices(plans, i, rates, inr, u, c, r).reply.PlanUpdated?
    ensures var out := UpdatePrices(plans, i, rates, inr, u, c, r);
            var p := plans[i];
            var q := out.reply.plan;
            && out.plans == plans[i := q]
            && (RenewPrices(p, inr, u, c) ==>
                  q == ApplyUpdate(p, inr, u, Some((r.inrPrice.value, r.usdPrice.value)))
                  && out.calls[|c.calls|..] ==
                     [CreatePrice(c.product, MinorUnits(q.priceInr), "inr", StripeInterval(NewInterval(p, u))),
                      CreatePrice(c.product, MinorUnits(q.priceUsd), "usd", StripeInterval(NewInterval(p, u)))])
            && (!RenewPrices(p, inr, u, c) ==> q == ApplyUpdate(p, inr, u, None) && out.calls == c.calls)
  {
  }

  /** Nothing price-relevant sent and a usable product: the price ids are only those spread from the body. */
  lemma UnchangedPricesKeepIds(p: PlanRow, u: PlanUpdate)
    requires u.priceInr.None? && u.priceUsd.None? && u.interval.None?
    requires u.stripePriceIdInr.Keep? && u.stripePriceIdUsd.Keep?
    ensures var q := ApplyUpdate(p, None, u, None);
            q.stripePriceIdInr == p.stripePriceIdInr && q.stripePriceIdUsd == p.stripePriceIdUsd
            && q.priceInr == p.priceInr && q.priceUsd == p.priceUsd && q.interval == p.interval
            && !PriceRelevantChange(p, None, u)
  {
  }

  method UpdatePlan(db: Store, cache: RateCache, envKey: Option<string>, id: nat, u: PlanUpdate, now: int,
                    fetched: Option<real>, r: UpdateReplies) returns (reply: UpdateReply, calls: seq<StripeCall>)
    requires db.Valid() && cache.Valid()
    modifies db`plans, cache
    ensures db.Valid() && cache.Valid()
    ensures UpdateOutcome(reply, db.plans, cache.State(), calls)
            == UpdatePlanSpec(old(db.plans), old(cache.State()), SecretKey(db.settings, envKey).Some?, id, u, now, fetched, r)
  {
    var rate := cache.GetConversionRate(now, fetched);
    var inr := u.priceInr;
    if u.priceUsd.Some? && u.priceInr.None? {
      inr := Some(InrFromUsd(u.priceUsd.value, rate));
    }
    var found := PlanIndex(db.plans, id);
    if found.None? {
      return UpdateFail(404, "Plan not found"), [];
    }
    var i := found.value;
    if SecretKey(db.settings, envKey).None? {
      return UpdateThrown, [];
    }
    var c := ResolveProduct(db.plans[i], u, r);
    if !c.ok {
      return UpdateThrown, c.calls;
    }
    reply, calls := WritePlanUpdate(db, i, cache.State(), inr, u, c, r);
  }

  /** `getProductId` and the product step of `updatePlan`. */
  method ResolveProduct(p: PlanRow, u: PlanUpdate, r: UpdateReplies) returns (c: ProductChoice)
    ensures c == ChooseProduct(p, u, r)
  {
    var productId := ExistingProduct(p, r.retrieved);
    var recreated := false;
    var calls: seq<StripeCall> := [];
    if productId.None? {
      calls := calls + [CreateProduct(if TruthyStr(u.name) then u.name.value else p.name)];
      if r.newProduct.None? {
        return ProductChoice(false, "", true, calls);
      }
      productId := r.newProduct;
      recreated := true;
    } else if TruthyStr(u.name) && u.name.value != p.name {
      calls := calls + [RenameProduct(productId.value, u.name.value)];
      if !r.renameOk {
        return ProductChoice(false, productId.value, false, calls);
      }
    }
    c := ProductChoice(true, productId.value, recreated, calls);
  }

  /** Steps 3 and 4 of `updatePlan` on the store. */
  method WritePlanUpdate(db: Store, i: nat, rates: RateState, inr: Option<real>, u: PlanUpdate,
                         c: ProductChoice, r: UpdateReplies)
    returns (reply: UpdateReply, calls: seq<StripeCall>)
    requires db.Valid() && i < |db.plans|
    modifies db`plans
    ensures db.Valid()
    ensures UpdateOutcome(reply, db.plans, rates, calls) == UpdatePrices(old(db.plans), i, rates, inr, u, c, r)
  {
    calls := c.calls;
    var p := db.plans[i];
    var newIds: Option<(string, string)> := None;
    if RenewPrices(p, inr, u, c) {
      var interval := StripeInterval(NewInterval(p, u));
      calls := calls + [CreatePrice(c.product, MinorUnits(inr.GetOr(p.priceInr)), "inr", interval)];
      if r.inrPrice.None? {
        return UpdateThrown, calls;
      }
      calls := calls + [CreatePrice(c.product, MinorUnits(u.priceUsd.GetOr(p.priceUsd)), "usd", interval)];
      if r.usdPrice.None? {
        return UpdateThrown, calls;
      }
      newIds := Some((r.inrPrice.value, r.usdPrice.value));
    }
    var q := ApplyUpdate(p, inr, u, newIds);
    UpdateKeepsUnique(db.plans, i, q, PlanIdOf);
    db.plans := db.plans[i := q];
    reply := PlanUpdated(q);
  }

  // ------------------------------------------------------------------
  // Deleting a plan
  // ------------------------------------------------------------------

  /** The archiving calls `deletePlan` makes, given the product its price leads to. */
  function ArchiveCalls(p: PlanRow, product: Option<string>): seq<StripeCall> {
    (if TruthyStr(p.stripePriceIdUsd) then [ArchivePrice(p.stripePriceIdUsd.value)] else [])
    + (if TruthyStr(p.stripePriceIdInr) then [ArchivePrice(p.stripePriceIdInr.value)] else [])
    + (if (TruthyStr(p.stripePriceIdUsd) || TruthyStr(p.stripePriceIdInr)) && TruthyStr(product)
       then [ArchiveProduct(product.value)] else [])
  }

  function HasOtherId(id: nat): PlanRow -> bool {
    (p: PlanRow) => p.id != id
  }

  datatype DeleteReply = PlanDeleted | DeleteFail(status: nat, error: string)
  datatype DeleteOutcome = DeleteOutcome(reply: DeleteReply, plans: seq<PlanRow>, calls: seq<StripeCall>)

  /**
   * `deletePlan`: archiving stops at the first processor error (`completed`
   * calls go through), which is swallowed; the row is deleted either way.
   */
  function DeletePlanSpec(plans: seq<PlanRow>, id: nat, product: Option<string>, completed: nat): DeleteOutcome {
    match PlanIndex(plans, id)
    case None => DeleteOutcome(DeleteFail(404, "Plan not found"), plans, [])
    case Some(i) =>
      var calls := ArchiveCalls(plans[i], product);
      DeleteOutcome(PlanDeleted, Filter(plans, HasOtherId(id)),
                    if completed < |calls| then calls[..completed] else calls)
  }

  /** Whatever the processor does, a known plan's row goes, and only it. */
  lemma DeleteRemovesOnlyThatPlan(plans: seq<PlanRow>, id: nat, product: Option<string>, completed: nat)
    requires UniqueBy(plans, PlanIdOf)
    ensures var out := DeletePlanSpec(plans, id, product, completed);
            && (PlanIndex(plans, id).None? ==> out.reply == DeleteFail(404, "Plan not found") && out.plans == plans)
            && (PlanIndex(plans, id).Some? ==>
                  out.reply == PlanDeleted
                  && |out.plans| == |plans| - 1
                  && Subseq(out.plans, plans)
                  && (forall j :: 0 <= j < |out.plans| ==> out.plans[j].id != id)
                  && (forall j :: 0 <= j < |plans| && plans[j].id != id ==> plans[j] in out.plans))
  {
    var keep := HasOtherId(id);
    FilterIsSubseq(plans, keep);
    if PlanIndex(plans, id).Some? {
      var i := PlanIndex(plans, id).value;
      FilterDropsOne(plans, i, id);
    }
  }

  /** With unique ids, filtering out one present id drops exactly one row. */
  lemma {:induction false} FilterDropsOne(plans: seq<PlanRow>, i: nat, id: nat)
    requires UniqueBy(plans, PlanIdOf) && i < |plans| && plans[i].id == id
    ensures |Filter(plans, HasOtherId(id))| == |plans| - 1
    decreases |plans|
  {
    var keep := HasOtherId(id);
    if i == 0 {
      assert forall j :: 0 <= j < |plans[1..]| ==> keep(plans[1..][j]) by {
        forall j | 0 <= j < |plans[1..]| ensures keep(plans[1..][j]) {
          assert PlanIdOf(plans[0]) != PlanIdOf(plans[j + 1]);
        }
      }
    } else {
      assert keep(plans[0]) by {
        assert PlanIdOf(plans[0]) != PlanIdOf(plans[i]);
      }
      assert UniqueBy(plans[1..], PlanIdOf);
      FilterDropsOne(plans[1..], i - 1, id);
    }
  }

  method DeletePlan(db: Store, id: nat, product: Option<string>, completed: nat)
    returns (reply: DeleteReply, calls: seq<StripeCall>)
    requires db.Valid()
    modifies db`plans
    ensures db.Valid()
    ensures DeleteOutcome(reply, db.plans, calls) == DeletePlanSpec(old(db.plans), id, product, completed)
  {
    var found := PlanIndex(db.plans, id);
    if found.None? {
      return DeleteFail(404, "Plan not found"), [];
    }
    var all := ArchiveCalls(db.plans[found.value], product);
    calls := if completed < |all| then all[..completed] else all;
    FilterKeepsUnique(db.plans, HasOtherId(id), PlanIdOf);
    db.plans := Filter(db.plans, HasOtherId(id));
    reply := PlanDeleted;
  }
}
