/**
 * The relational store the controllers talk to through the ORM, held in
 * memory: one sequence per table, in insertion order, and a counter that
 * hands out fresh row ids.
 */
module Db {
  import opened Wrappers
  import opened Seqs
  import opened Records

  function UserIdOf(u: UserRow): nat { u.id }
  function UserEmailOf(u: UserRow): string { u.email }
  function PlanIdOf(p: PlanRow): nat { p.id }
  function ProfileOwner(p: ProfileRow): nat { p.userId }
  function ContentKey(c: ContentRow): (string, string) { (c.pageName, c.sectionName) }

  /** The tables the billing handlers write. */
  datatype Billing = Billing(profiles: seq<ProfileRow>, subs: seq<SubscriptionRow>, txs: seq<TransactionRow>)

  class Store {
    var users: seq<UserRow>
    var plans: seq<PlanRow>
    var profiles: seq<ProfileRow>
    var subs: seq<SubscriptionRow>
    var txs: seq<TransactionRow>
    var settings: seq<SettingsRow>
    var content: seq<ContentRow>
    var nextId: nat

    /** The unique indexes of the schema, and ids below the counter. */
    ghost predicate Valid()
      reads this
    {
      UniqueBy(users, UserIdOf) && UniqueBy(users, UserEmailOf)
      && (forall i :: 0 <= i < |users| ==> users[i].id < nextId)
      && UniqueBy(plans, PlanIdOf)
      && (forall i :: 0 <= i < |plans| ==> plans[i].id < nextId)
      && UniqueBy(profiles, ProfileOwner)
      && UniqueBy(content, ContentKey)
      && |settings| <= 1
    }

    constructor ()
      ensures Valid()
      ensures users == [] && plans == [] && profiles == [] && subs == [] && txs == []
      ensures settings == [] && content == [] && nextId == 0
    {
      users, plans, profiles, subs, txs := [], [], [], [], [];
      settings, content, nextId := [], [], 0;
    }

    function BillingView(): (b: Billing)
      reads this
      ensures b.profiles == profiles && b.subs == subs && b.txs == txs
    {
      Billing(profiles, subs, txs)
    }

    /** A fresh id, larger than every id handed out before. */
    method FreshId() returns (id: nat)
      modifies this`nextId
      ensures id == old(nextId) && nextId == id + 1
    {
      id := nextId;
      nextId := nextId + 1;
    }
  }

  /** `user.findUnique({ where: { id } })`. */
  function UserIndex(users: seq<UserRow>, id: nat): (r: Option<nat>)
    ensures r.Some? ==> r.value < |users| && users[r.value].id == id
    ensures r.None? <==> forall j :: 0 <= j < |users| ==> users[j].id != id
  {
    FindIndex(users, (u: UserRow) => u.id == id)
  }

  /** `user.findUnique({ where: { email } })`. */
  function UserIndexByEmail(users: seq<UserRow>, email: string): (r: Option<nat>)
    ensures r.Some? ==> r.value < |users| && users[r.value].email == email
    ensures r.None? <==> forall j :: 0 <= j < |users| ==> users[j].email != email
  {
    FindIndex(users, (u: UserRow) => u.email == email)
  }

  /** `plan.findUnique({ where: { id } })`. */
  function PlanIndex(plans: seq<PlanRow>, id: nat): (r: Option<nat>)
    ensures r.Some? ==> r.value < |plans| && plans[r.value].id == id
    ensures r.None? <==> forall j :: 0 <= j < |plans| ==> plans[j].id != id
  {
    FindIndex(plans, (p: PlanRow) => p.id == id)
  }

  /** `businessProfile.findUnique({ where: { user_id } })`. */
  function ProfileIndex(profiles: seq<ProfileRow>, userId: nat): (r: Option<nat>)
    ensures r.Some? ==> r.value < |profiles| && profiles[r.value].userId == userId
    ensures r.None? <==> forall j :: 0 <= j < |profiles| ==> profiles[j].userId != userId
  {
    FindIndex(profiles, (p: ProfileRow) => p.userId == userId)
  }

  /** `subscription.findFirst({ where: { stripe_subscription_id } })`. */
  function SubIndex(subs: seq<SubscriptionRow>, stripeId: string): (r: Option<nat>)
    ensures r.Some? ==> r.value < |subs| && subs[r.value].stripeSubscriptionId == stripeId
    ensures r.None? <==> forall j :: 0 <= j < |subs| ==> subs[j].stripeSubscriptionId != stripeId
  {
    FindIndex(subs, (s: SubscriptionRow) => s.stripeSubscriptionId == stripeId)
  }

  /** `transaction.findFirst({ where: { stripe_payment_id } })` found a row. */
  predicate HasPayment(txs: seq<TransactionRow>, paymentId: string) {
    exists j :: 0 <= j < |txs| && txs[j].stripePaymentId == paymentId
  }

  /** The first settings row (`systemSettings.findFirst()`). */
  function FirstSettings(settings: seq<SettingsRow>): (r: Option<SettingsRow>)
    ensures r.Some? <==> settings != []
    ensures r.Some? ==> r.value == settings[0]
  {
    if settings == [] then None else Some(settings[0])
  }

  /** Under a unique index on `id`, the lookup finds the one row with that id. */
  lemma UserIndexUnique(users: seq<UserRow>, j: nat)
    requires UniqueBy(users, UserIdOf) && j < |users|
    ensures UserIndex(users, users[j].id) == Some(j)
  {
    var i := UserIndex(users, users[j].id).value;
    assert UserIdOf(users[i]) == UserIdOf(users[j]);
  }

  /** Under a unique index on `user_id`, the lookup finds the one profile of that user. */
  lemma ProfileIndexUnique(profiles: seq<ProfileRow>, j: nat)
    requires UniqueBy(profiles, ProfileOwner) && j < |profiles|
    ensures ProfileIndex(profiles, profiles[j].userId) == Some(j)
  {
    var i := ProfileIndex(profiles, profiles[j].userId).value;
    assert ProfileOwner(profiles[i]) == ProfileOwner(profiles[j]);
  }
}
