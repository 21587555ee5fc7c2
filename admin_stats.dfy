/**
 * The admin dashboard's figures: the user count, the active-subscription
 * count and the monthly revenue summed over the active subscriptions.
 */
module AdminStats {
  import opened Seqs
  import opened Numbers
  import opened Records
  import opened Db

  predicate IsActiveSub(s: SubscriptionRow) {
    s.status == Active
  }

  /** Every subscription has its plan (the included `sub.plan` is not null). */
  predicate AllPriced(plans: seq<PlanRow>, subs: seq<SubscriptionRow>) {
    forall k :: 0 <= k < |subs| ==> PlanIndex(plans, subs[k].planId).Some?
  }

  /** `sub.plan.price_usd`, read as 0 for a subscription without its plan. */
  function PriceUsd(plans: seq<PlanRow>, s: SubscriptionRow): real {
    match PlanIndex(plans, s.planId)
    case Some(p) => plans[p].priceUsd
    case None => 0.0
  }

  /** The sum of the plan prices, accumulated left to right from 0. */
  function Revenue(plans: seq<PlanRow>, subs: seq<SubscriptionRow>): real
    decreases |subs|
  {
    if subs == [] then 0.0
    else Revenue(plans, subs[..|subs| - 1]) + PriceUsd(plans, subs[|subs| - 1])
  }

  predicate NonNegativePrices(plans: seq<PlanRow>) {
    forall j :: 0 <= j < |plans| ==> plans[j].priceUsd >= 0.0
  }

  /** With non-negative prices the revenue is non-negative. */
  lemma {:induction false} RevenueNonNegative(plans: seq<PlanRow>, subs: seq<SubscriptionRow>)
    requires NonNegativePrices(plans)
    ensures Revenue(plans, subs) >= 0.0
    decreases |subs|
  {
    if subs != [] {
      RevenueNonNegative(plans, subs[..|subs| - 1]);
    }
  }

  datatype Stats = Stats(totalUsers: nat, activeSubscriptions: nat, monthlyRevenueUsd: real)
  datatype StatsReply = StatsOk(stats: Stats) | StatsThrown

  function ActiveSubs(subs: seq<SubscriptionRow>): seq<SubscriptionRow> {
    Filter(subs, IsActiveSub)
  }

  /** `getDashboardStats` on the store's tables. */
  function DashboardStats(users: seq<UserRow>, subs: seq<SubscriptionRow>, plans: seq<PlanRow>): StatsReply {
    var active := ActiveSubs(subs);
    if AllPriced(plans, active) then
      StatsOk(Stats(|users|, Count(subs, IsActiveSub), Round2(Revenue(plans, active))))
    else StatsThrown
  }

  /**
   * The user count is the number of user rows, the active count is the size
   * of the set that is summed, and the revenue is within half a cent of the
   * exact sum and non-negative when the prices are.
   */
  lemma DashboardStatsCorrect(users: seq<UserRow>, subs: seq<SubscriptionRow>, plans: seq<PlanRow>)
    requires DashboardStats(users, subs, plans).StatsOk?
    ensures var st := DashboardStats(users, subs, plans).stats;
            && st.totalUsers == |users|
            && st.activeSubscriptions == |ActiveSubs(subs)|
            && -0.005 < st.monthlyRevenueUsd - Revenue(plans, ActiveSubs(subs)) <= 0.005
            && (NonNegativePrices(plans) ==> st.monthlyRevenueUsd >= 0.0)
  {
    if NonNegativePrices(plans) {
      RevenueNonNegative(plans, ActiveSubs(subs));
      Round2NonNegative(Revenue(plans, ActiveSubs(subs)));
    }
  }

  /** A new ACTIVE subscription raises the exact revenue by its plan's price; any other leaves it. */
  lemma AddSubscriptionRevenue(plans: seq<PlanRow>, subs: seq<SubscriptionRow>, s: SubscriptionRow)
    requires AllPriced(plans, ActiveSubs(subs)) && PlanIndex(plans, s.planId).Some?
    ensures AllPriced(plans, ActiveSubs(subs + [s]))
    ensures Revenue(plans, ActiveSubs(subs + [s]))
            == Revenue(plans, ActiveSubs(subs)) + (if s.status == Active then PriceUsd(plans, s) else 0.0)
    ensures |ActiveSubs(subs + [s])| == |ActiveSubs(subs)| + (if s.status == Active then 1 else 0)
  {
    FilterAppend(subs, s, IsActiveSub);
    var a0 := ActiveSubs(subs);
    if s.status == Active {
      var a := a0 + [s];
      assert ActiveSubs(subs + [s]) == a;
      assert a[..|a| - 1] == a0;
      assert Revenue(plans, a) == Revenue(plans, a0) + PriceUsd(plans, s);
    } else {
      assert ActiveSubs(subs + [s]) == a0;
    }
  }

  /** One more row of the prefix adds that row's price. */
  lemma RevenuePrefix(plans: seq<PlanRow>, subs: seq<SubscriptionRow>, i: nat)
    requires i < |subs|
    ensures Revenue(plans, subs[..i + 1]) == Revenue(plans, subs[..i]) + PriceUsd(plans, subs[i])
  {
    var prefix := subs[..i + 1];
    assert prefix[..i] == subs[..i] && prefix[i] == subs[i];
  }

  /** A priced prefix grows by one when the next row has its plan. */
  lemma PricedPrefix(plans: seq<PlanRow>, subs: seq<SubscriptionRow>, i: nat)
    requires i < |subs|
    requires forall k :: 0 <= k < i ==> PlanIndex(plans, subs[k].planId).Some?
    requires PlanIndex(plans, subs[i].planId).Some?
    ensures forall k :: 0 <= k < i + 1 ==> PlanIndex(plans, subs[k].planId).Some?
  {
  }

  /** The `forEach` accumulation, stopping at the first row without its plan. */
  method SumRevenue(plans: seq<PlanRow>, subscriptions: seq<SubscriptionRow>) returns (ok: bool, total: real)
    ensures ok <==> AllPriced(plans, subscriptions)
    ensures ok ==> total == Revenue(plans, subscriptions)
  {
    total := 0.0;
    var i := 0;
    while i < |subscriptions|
      invariant 0 <= i <= |subscriptions|
      invariant forall k :: 0 <= k < i ==> PlanIndex(plans, subscriptions[k].planId).Some?
      invariant total == Revenue(plans, subscriptions[..i])
    {
      var p := PlanIndex(plans, subscriptions[i].planId);
      if p.None? {
        return false, total;
      }
      RevenuePrefix(plans, subscriptions, i);
      PricedPrefix(plans, subscriptions, i);
      total := total + plans[p.value].priceUsd;
      i := i + 1;
    }
    assert subscriptions[..i] == subscriptions;
    ok := true;
  }

  /** The handler: the two counts, then the revenue. */
  method GetDashboardStats(db: Store) returns (reply: StatsReply)
    ensures reply == DashboardStats(db.users, db.subs, db.plans)
  {
    var totalUsers := |db.users|;
    var activeSubscriptions := Count(db.subs, IsActiveSub);
    var ok, monthlyRevenueUsd := SumRevenue(db.plans, ActiveSubs(db.subs));
    if !ok {
      return StatsThrown;
    }
    reply := StatsOk(Stats(totalUsers, activeSubscriptions, Round2(monthlyRevenueUsd)));
  }
}
