/**
 * The super-admin console's back end: the admin list, role changes, the
 * user list and detail reads, the cascading user delete, the user edit and
 * the transaction ledger.
 */
module SuperAdmin {
  import opened Wrappers
  import opened Seqs
  import opened Records
  import opened Db
  import opened Users

  /** The columns `getAllAdmins` selects. */
  datatype AdminView = AdminView(id: nat, email: string, role: Role, createdAt: int)

  predicate IsAdminRow(u: UserRow) {
    u.role == Admin
  }

  function ViewOf(u: UserRow): AdminView {
    AdminView(u.id, u.email, u.role, u.createdAt)
  }

  /** `getAllAdmins`: the rows whose role is exactly ADMIN, in table order. */
  function GetAllAdmins(users: seq<UserRow>): (r: seq<AdminView>)
    ensures |r| == Count(users, IsAdminRow)
  {
    var admins := Filter(users, IsAdminRow);
    seq(|admins|, i requires 0 <= i < |admins| => ViewOf(admins[i]))
  }

  /** Every listed row is an ADMIN (never a SUPER_ADMIN), and every ADMIN is listed. */
  lemma GetAllAdminsCorrect(users: seq<UserRow>)
    ensures forall k :: 0 <= k < |GetAllAdmins(users)| ==> GetAllAdmins(users)[k].role == Admin
    ensures forall j :: 0 <= j < |users| && users[j].role == Admin ==> ViewOf(users[j]) in GetAllAdmins(users)
  {
    var admins := Filter(users, IsAdminRow);
    forall j | 0 <= j < |users| && users[j].role == Admin
      ensures ViewOf(users[j]) in GetAllAdmins(users)
    {
      assert IsAdminRow(users[j]);
      var k :| 0 <= k < |admins| && admins[k] == users[j];
      assert GetAllAdmins(users)[k] == ViewOf(users[j]);
    }
  }

  /** The columns the role changes select. */
  datatype RoleReply = RoleChanged(id: nat, email: string, role: Role) | RoleNotFound | RoleThrown

  /** The reply and the users table after a role change. */
  datatype RoleStep = RoleStep(reply: RoleReply, users: seq<UserRow>)

  /**
   * `promoteToAdmin`: a missing email makes the lookup throw, an unknown one
   * gets 404, else the role becomes ADMIN whatever it was.
   */
  function PromoteSpec(users: seq<UserRow>, email: Option<string>): (r: RoleStep)
    ensures email.None? ==> r == RoleStep(RoleThrown, users)
    ensures email.Some? && UserIndexByEmail(users, email.value).None? ==> r == RoleStep(RoleNotFound, users)
    ensures email.Some? && UserIndexByEmail(users, email.value).Some? ==>
              var i := UserIndexByEmail(users, email.value).value;
              && r.users == users[i := users[i].(role := Admin)]
              && r.reply == RoleChanged(users[i].id, email.value, Admin)
  {
    if email.None? then RoleStep(RoleThrown, users)
    else match UserIndexByEmail(users, email.value)
      case None => RoleStep(RoleNotFound, users)
      case Some(i) => RoleStep(RoleChanged(users[i].id, users[i].email, Admin), users[i := users[i].(role := Admin)])
  }

  /** `demoteAdmin`: the role becomes USER unconditionally; an unknown id makes the update throw. */
  function DemoteSpec(users: seq<UserRow>, id: nat): (r: RoleStep)
    ensures UserIndex(users, id).None? ==> r == RoleStep(RoleThrown, users)
    ensures UserIndex(users, id).Some? ==>
              var i := UserIndex(users, id).value;
              && r.users == users[i := users[i].(role := User)]
              && r.reply == RoleChanged(id, users[i].email, User)
  {
    match UserIndex(users, id)
    case None => RoleStep(RoleThrown, users)
    case Some(i) => RoleStep(RoleChanged(users[i].id, users[i].email, User), users[i := users[i].(role := User)])
  }

  method PromoteToAdmin(db: Store, email: Option<string>) returns (reply: RoleReply)
    requires db.Valid()
    modifies db`users
    ensures db.Valid()
    ensures RoleStep(reply, db.users) == PromoteSpec(old(db.users), email)
  {
    if email.None? {
      return RoleThrown;
    }
    var i := UserIndexByEmail(db.users, email.value);
    if i.None? {
      return RoleNotFound;
    }
    var u := db.users[i.value];
    UpdateKeepsUnique(db.users, i.value, u.(role := Admin), UserIdOf);
    UpdateKeepsUnique(db.users, i.value, u.(role := Admin), UserEmailOf);
    db.users := db.users[i.value := u.(role := Admin)];
    reply := RoleChanged(u.id, u.email, Admin);
  }

  method DemoteAdmin(db: Store, id: nat) returns (reply: RoleReply)
    requires db.Valid()
    modifies db`users
    ensures db.Valid()
    ensures RoleStep(reply, db.users) == DemoteSpec(old(db.users), id)
  {
    var i := UserIndex(db.users, id);
    if i.None? {
      return RoleThrown;
    }
    var u := db.users[i.value];
    UpdateKeepsUnique(db.users, i.value, u.(role := User), UserIdOf);
    UpdateKeepsUnique(db.users, i.value, u.(role := User), UserEmailOf);
    db.users := db.users[i.value := u.(role := User)];
    reply := RoleChanged(u.id, u.email, User);
  }

  /**
   * Promoting an account and then demoting it by the id the promotion
   * returned leaves it a plain USER, whatever role it held before.
   */
  lemma {:induction false} PromoteThenDemote(users: seq<UserRow>, email: string)
    requires UniqueBy(users, UserIdOf)
    requires UserIndexByEmail(users, email).Some?
    ensures var i := UserIndexByEmail(users, email).value;
            var promoted := PromoteSpec(users, Some(email));
            && promoted.reply.RoleChanged? && promoted.reply.id == users[i].id
            && DemoteSpec(promoted.users, promoted.reply.id).users == users[i := users[i].(role := User)]
            && DemoteSpec(promoted.users, promoted.reply.id).reply == RoleChanged(users[i].id, email, User)
  {
    var i := UserIndexByEmail(users, email).value;
    var promoted := PromoteSpec(users, Some(email));
    UpdateKeepsUnique(users, i, users[i].(role := Admin), UserIdOf);
    UserIndexUnique(promoted.users, i);
    assert promoted.users[i := promoted.users[i].(role := User)] == users[i := users[i].(role := User)];
  }

  /** The tables after `deleteUser` for `id`: each `deleteMany`, then the user row. */
  datatype Tables = Tables(users: seq<UserRow>, profiles: seq<ProfileRow>,
                           subs: seq<SubscriptionRow>, txs: seq<TransactionRow>)

  function DeleteUserSpec(t: Tables, id: nat): Tables {
    Tables(Filter(t.users, (u: UserRow) => u.id != id),
           Filter(t.profiles, (p: ProfileRow) => p.userId != id),
           Filter(t.subs, (s: SubscriptionRow) => s.userId != id),
           Filter(t.txs, (x: TransactionRow) => x.userId != id))
  }

  /**
   * No row of the deleted user remains in any of the four tables, every
   * other user's rows stay, and the survivors keep their order.
   */
  lemma DeleteUserCorrect(t: Tables, id: nat)
    ensures var d := DeleteUserSpec(t, id);
            && (forall j :: 0 <= j < |d.users| ==> d.users[j].id != id)
            && (forall j :: 0 <= j < |d.profiles| ==> d.profiles[j].userId != id)
            && (forall j :: 0 <= j < |d.subs| ==> d.subs[j].userId != id)
            && (forall j :: 0 <= j < |d.txs| ==> d.txs[j].userId != id)
            && (forall j :: 0 <= j < |t.users| && t.users[j].id != id ==> t.users[j] in d.users)
            && (forall j :: 0 <= j < |t.profiles| && t.profiles[j].userId != id ==> t.profiles[j] in d.profiles)
            && (forall j :: 0 <= j < |t.subs| && t.subs[j].userId != id ==> t.subs[j] in d.subs)
            && (forall j :: 0 <= j < |t.txs| && t.txs[j].userId != id ==> t.txs[j] in d.txs)
            && Subseq(d.users, t.users) && Subseq(d.profiles, t.profiles)
            && Subseq(d.subs, t.subs) && Subseq(d.txs, t.txs)
  {
    UsersWithout(t.users, id);
    ProfilesWithout(t.profiles, id);
    SubsWithout(t.subs, id);
    TxsWithout(t.txs, id);
  }

  lemma UsersWithout(users: seq<UserRow>, id: nat)
    ensures var d := Filter(users, (u: UserRow) => u.id != id);
            && (forall j :: 0 <= j < |d| ==> d[j].id != id)
            && (forall j :: 0 <= j < |users| && users[j].id != id ==> users[j] in d)
            && Subseq(d, users)
  {
    Kept(users, (u: UserRow) => u.id != id);
  }

  lemma ProfilesWithout(profiles: seq<ProfileRow>, id: nat)
    ensures var d := Filter(profiles, (p: ProfileRow) => p.userId != id);
            && (forall j :: 0 <= j < |d| ==> d[j].userId != id)
            && (forall j :: 0 <= j < |profiles| && profiles[j].userId != id ==> profiles[j] in d)
            && Subseq(d, profiles)
  {
    Kept(profiles, (p: ProfileRow) => p.userId != id);
  }

  lemma SubsWithout(subs: seq<SubscriptionRow>, id: nat)
    ensures var d := Filter(subs, (s: SubscriptionRow) => s.userId != id);
            && (forall j :: 0 <= j < |d| ==> d[j].userId != id)
            && (forall j :: 0 <= j < |subs| && subs[j].userId != id ==> subs[j] in d)
            && Subseq(d, subs)
  {
    Kept(subs, (s: SubscriptionRow) => s.userId != id);
  }

  lemma TxsWithout(txs: seq<TransactionRow>, id: nat)
    ensures var d := Filter(txs, (x: TransactionRow) => x.userId != id);
            && (forall j :: 0 <= j < |d| ==> d[j].userId != id)
            && (forall j :: 0 <= j < |txs| && txs[j].userId != id ==> txs[j] in d)
            && Subseq(d, txs)
  {
    Kept(txs, (x: TransactionRow) => x.userId != id);
  }

  /** Filtering keeps exactly the rows that pass, in their order. */
  lemma Kept<T>(s: seq<T>, p: T -> bool)
    ensures var d := Filter(s, p);
            && (forall j :: 0 <= j < |d| ==> p(d[j]))
            && (forall j :: 0 <= j < |s| && p(s[j]) ==> s[j] in d)
            && Subseq(d, s)
  {
    FilterIsSubseq(s, p);
  }

  /** Deleting a user that does not exist removes no user row. */
  lemma DeleteUnknownKeepsUsers(t: Tables, id: nat)
    requires UserIndex(t.users, id).None?
    ensures DeleteUserSpec(t, id).users == t.users
  {
  }

  datatype DeleteUserReply = UserDeleted | DeleteThrown

  /**
   * `deleteUser`: the three `deleteMany` calls always run; the final
   * `user.delete` throws for an unknown id, after they have run.
   */
  method DeleteUser(db: Store, id: nat) returns (reply: DeleteUserReply)
    requires db.Valid()
    modifies db`users, db`profiles, db`subs, db`txs
    ensures db.Valid()
    ensures Tables(db.users, db.profiles, db.subs, db.txs)
            == DeleteUserSpec(Tables(old(db.users), old(db.profiles), old(db.subs), old(db.txs)), id)
    ensures reply == UserDeleted <==> UserIndex(old(db.users), id).Some?
    ensures reply == DeleteThrown <==> UserIndex(old(db.users), id).None?
  {
    DeleteOwnedRows(db, id);
    if UserIndex(db.users, id).None? {
      return DeleteThrown;
    }
    FilterKeepsUnique(db.users, (u: UserRow) => u.id != id, UserIdOf);
    FilterKeepsUnique(db.users, (u: UserRow) => u.id != id, UserEmailOf);
    db.users := Filter(db.users, (u: UserRow) => u.id != id);
    reply := UserDeleted;
  }

  /** The three `deleteMany` calls: the user's profile, subscriptions and transactions. */
  method DeleteOwnedRows(db: Store, id: nat)
    requires db.Valid()
    modifies db`profiles, db`subs, db`txs
    ensures db.Valid()
    ensures db.profiles == Filter(old(db.profiles), (p: ProfileRow) => p.userId != id)
    ensures db.subs == Filter(old(db.subs), (s: SubscriptionRow) => s.userId != id)
    ensures db.txs == Filter(old(db.txs), (x: TransactionRow) => x.userId != id)
  {
    FilterKeepsUnique(db.profiles, (p: ProfileRow) => p.userId != id, ProfileOwner);
    db.profiles := Filter(db.profiles, (p: ProfileRow) => p.userId != id);
    db.subs := Filter(db.subs, (s: SubscriptionRow) => s.userId != id);
    db.txs := Filter(db.txs, (x: TransactionRow) => x.userId != id);
  }

  /** The edited user with the profile the update includes. */
  datatype UpdateUserReply = UserUpdated(user: UserRow, profile: Option<ProfileRow>) | UpdateThrown

  /**
   * `updateUser`: the six personal fields as sent; a business profile in the
   * body updates the existing one or creates one, and without one the
   * profile is left alone. An unknown id makes the update throw, with no writes.
   */
  method UpdateUser(db: Store, id: nat, personal: PersonalPatch, business: Option<map<string, Patch<string>>>)
    returns (reply: UpdateUserReply)
    requires db.Valid()
    modifies db`users, db`profiles
    ensures db.Valid()
    ensures UserIndex(old(db.users), id).None? ==>
              reply == UpdateThrown && db.users == old(db.users) && db.profiles == old(db.profiles)
    ensures UserIndex(old(db.users), id).Some? ==>
              var i := UserIndex(old(db.users), id).value;
              && db.users == old(db.users)[i := ApplyPersonal(old(db.users)[i], personal)]
              && db.profiles == (if business.Some? then UpsertProfile(old(db.profiles), id, business.value)
                                 else old(db.profiles))
              && reply == UserUpdated(db.users[i], match ProfileIndex(db.profiles, id)
                                                   case Some(k) => Some(db.profiles[k])
                                                   case None => None)
  {
    var i := UserIndex(db.users, id);
    if i.None? {
      return UpdateThrown;
    }
    SavePersonal(db, i.value, personal);
    if business.Some? {
      var _ := SaveProfile(db, id, business.value);
    }
    var k := ProfileIndex(db.profiles, id);
    reply := UserUpdated(db.users[i.value], if k.Some? then Some(db.profiles[k.value]) else None);
  }

  /** Editing an existing profile keeps the table's size and the profile's position. */
  lemma EditKeepsProfilePosition(profiles: seq<ProfileRow>, id: nat, patch: map<string, Patch<string>>)
    requires UniqueBy(profiles, ProfileOwner) && ProfileIndex(profiles, id).Some?
    ensures |UpsertProfile(profiles, id, patch)| == |profiles|
    ensures ProfileIndex(UpsertProfile(profiles, id, patch), id) == ProfileIndex(profiles, id)
  {
    UpsertProfileCorrect(profiles, id, patch);
    var r := UpsertProfile(profiles, id, patch);
    ProfileIndexUnique(r, ProfileIndex(profiles, id).value);
  }

  /** The newest row first (`orderBy created_at desc`). */
  predicate NewerUser(a: UserRow, b: UserRow) { a.createdAt >= b.createdAt }
  predicate NewerTx(a: TransactionRow, b: TransactionRow) { a.createdAt >= b.createdAt }

  lemma NewerIsPreorder()
    ensures TotalPreorder(NewerUser) && TotalPreorder(NewerTx)
  {
  }

  datatype SubWithPlan = SubWithPlan(sub: SubscriptionRow, plan: Option<PlanRow>)

  function WithPlan(plans: seq<PlanRow>, s: SubscriptionRow): SubWithPlan {
    SubWithPlan(s, match PlanIndex(plans, s.planId) case Some(p) => Some(plans[p]) case None => None)
  }

  function WithPlans(plans: seq<PlanRow>, subs: seq<SubscriptionRow>): (r: seq<SubWithPlan>)
    ensures |r| == |subs| && forall k :: 0 <= k < |r| ==> r[k].sub == subs[k]
  {
    seq(|subs|, k requires 0 <= k < |subs| => WithPlan(plans, subs[k]))
  }

  /** The user's active subscriptions, in table order. */
  function ActiveSubsOf(subs: seq<SubscriptionRow>, userId: nat): seq<SubscriptionRow> {
    Filter(subs, (s: SubscriptionRow) => s.userId == userId && s.status == Active)
  }

  function ProfileOf(profiles: seq<ProfileRow>, userId: nat): Option<ProfileRow> {
    match ProfileIndex(profiles, userId) case Some(k) => Some(profiles[k]) case None => None
  }

  /** One entry of `getAllUsers`. */
  datatype UserListing = UserListing(user: UserRow, profile: Option<ProfileRow>, activeSubs: seq<SubWithPlan>)

  function ListingOf(profiles: seq<ProfileRow>, subs: seq<SubscriptionRow>, plans: seq<PlanRow>, u: UserRow): UserListing {
    UserListing(u, ProfileOf(profiles, u.id), WithPlans(plans, ActiveSubsOf(subs, u.id)))
  }

  /** `getAllUsers`. */
  function GetAllUsers(users: seq<UserRow>, profiles: seq<ProfileRow>, subs: seq<SubscriptionRow>,
                       plans: seq<PlanRow>): (r: seq<UserListing>)
    ensures |r| == |users|
  {
    var sorted := SortBy(users, NewerUser);
    seq(|sorted|, k requires 0 <= k < |sorted| => ListingOf(profiles, subs, plans, sorted[k]))
  }

  /** A listing embeds exactly the user's active subscriptions. */
  lemma ListingSubsExact(profiles: seq<ProfileRow>, subs: seq<SubscriptionRow>, plans: seq<PlanRow>, u: UserRow)
    ensures var l := ListingOf(profiles, subs, plans, u);
            && l.user == u
            && (forall m :: 0 <= m < |l.activeSubs| ==>
                  l.activeSubs[m].sub.status == Active && l.activeSubs[m].sub.userId == u.id)
            && (forall j :: 0 <= j < |subs| && subs[j].userId == u.id && subs[j].status == Active ==>
                  exists m :: 0 <= m < |l.activeSubs| && l.activeSubs[m].sub == subs[j])
  {
    var l := ListingOf(profiles, subs, plans, u);
    var act := ActiveSubsOf(subs, u.id);
    forall j | 0 <= j < |subs| && subs[j].userId == u.id && subs[j].status == Active
      ensures exists m :: 0 <= m < |l.activeSubs| && l.activeSubs[m].sub == subs[j]
    {
      assert subs[j] in act;
      var m :| 0 <= m < |act| && act[m] == subs[j];
      assert l.activeSubs[m].sub == subs[j];
    }
  }

  /** The listing is the user table, newest first. */
  lemma GetAllUsersOrder(users: seq<UserRow>, profiles: seq<ProfileRow>, subs: seq<SubscriptionRow>,
                         plans: seq<PlanRow>)
    ensures var r := GetAllUsers(users, profiles, subs, plans);
            && (forall k :: 0 < k < |r| ==> r[k - 1].user.createdAt >= r[k].user.createdAt)
            && multiset(seq(|r|, k requires 0 <= k < |r| => r[k].user)) == multiset(users)
  {
    NewerIsPreorder();
    SortByCorrect(users, NewerUser);
    var r := GetAllUsers(users, profiles, subs, plans);
    assert seq(|r|, k requires 0 <= k < |r| => r[k].user) == SortBy(users, NewerUser);
  }

  /**
   * The list holds every user once, newest first, and each entry embeds only
   * that user's ACTIVE subscriptions, all of them.
   */
  lemma GetAllUsersCorrect(users: seq<UserRow>, profiles: seq<ProfileRow>, subs: seq<SubscriptionRow>,
                           plans: seq<PlanRow>)
    ensures var r := GetAllUsers(users, profiles, subs, plans);
            && (forall k :: 0 < k < |r| ==> r[k - 1].user.createdAt >= r[k].user.createdAt)
            && multiset(seq(|r|, k requires 0 <= k < |r| => r[k].user)) == multiset(users)
            && (forall k, m :: 0 <= k < |r| && 0 <= m < |r[k].activeSubs| ==>
                  r[k].activeSubs[m].sub.status == Active && r[k].activeSubs[m].sub.userId == r[k].user.id)
            && (forall k, j :: (0 <= k < |r| && 0 <= j < |subs| && subs[j].userId == r[k].user.id
                  && subs[j].status == Active) ==> exists m :: 0 <= m < |r[k].activeSubs| && r[k].activeSubs[m].sub == subs[j])
  {
    GetAllUsersOrder(users, profiles, subs, plans);
    var r := GetAllUsers(users, profiles, subs, plans);
    var sorted := SortBy(users, NewerUser);
    forall k | 0 <= k < |r|
      ensures (forall m :: 0 <= m < |r[k].activeSubs| ==>
                 r[k].activeSubs[m].sub.status == Active && r[k].activeSubs[m].sub.userId == r[k].user.id)
      ensures (forall j :: 0 <= j < |subs| && subs[j].userId == r[k].user.id && subs[j].status == Active ==>
                 exists m :: 0 <= m < |r[k].activeSubs| && r[k].activeSubs[m].sub == subs[j])
    {
      assert r[k] == ListingOf(profiles, subs, plans, sorted[k]);
      ListingSubsExact(profiles, subs, plans, sorted[k]);
    }
  }

  /** `getUserById`: the user with profile, all subscriptions, and transactions newest first. */
  datatype UserDetail = UserDetail(user: UserRow, profile: Option<ProfileRow>, subs: seq<SubWithPlan>,
                                   txs: seq<TransactionRow>)
  datatype DetailReply = Detail(detail: UserDetail) | DetailNotFound

  function TxsOf(txs: seq<TransactionRow>, userId: nat): seq<TransactionRow> {
    Filter(txs, (x: TransactionRow) => x.userId == userId)
  }

  function GetUserById(t: Tables, plans: seq<PlanRow>, id: nat): (r: DetailReply)
    ensures r.DetailNotFound? <==> UserIndex(t.users, id).None?
    ensures r.Detail? ==> r.detail.user == t.users[UserIndex(t.users, id).value] && r.detail.user.id == id
  {
    match UserIndex(t.users, id)
    case None => DetailNotFound
    case Some(i) =>
      Detail(UserDetail(t.users[i], ProfileOf(t.profiles, id),
                        WithPlans(plans, Filter(t.subs, (s: SubscriptionRow) => s.userId == id)),
                        SortBy(TxsOf(t.txs, id), NewerTx)))
  }

  /** The detail's transactions are exactly the user's, newest first. */
  lemma UserDetailTransactions(t: Tables, plans: seq<PlanRow>, id: nat)
    requires UserIndex(t.users, id).Some?
    ensures var d := GetUserById(t, plans, id).detail;
            && SortedBy(d.txs, NewerTx)
            && multiset(d.txs) == multiset(TxsOf(t.txs, id))
            && forall k :: 0 <= k < |d.txs| ==> d.txs[k].userId == id
  {
    NewerIsPreorder();
    SortByCorrect(TxsOf(t.txs, id), NewerTx);
    var d := GetUserById(t, plans, id).detail;
    forall k | 0 <= k < |d.txs| ensures d.txs[k].userId == id {
      assert d.txs[k] in multiset(TxsOf(t.txs, id));
    }
  }

  /** The user columns embedded in a ledger row, absent when the user is gone. */
  datatype TxUser = TxUser(firstName: Option<string>, lastName: Option<string>, email: string)
  datatype TxListing = TxListing(tx: TransactionRow, user: Option<TxUser>)

  function TxListingOf(users: seq<UserRow>, x: TransactionRow): TxListing {
    TxListing(x, match UserIndex(users, x.userId)
                  case Some(i) => Some(TxUser(users[i].firstName, users[i].lastName, users[i].email))
                  case None => None)
  }

  /** `getAllTransactions`. */
  function GetAllTransactions(txs: seq<TransactionRow>, users: seq<UserRow>): (r: seq<TxListing>)
    ensures |r| == |txs|
  {
    var sorted := SortBy(txs, NewerTx);
    seq(|sorted|, k requires 0 <= k < |sorted| => TxListingOf(users, sorted[k]))
  }

  /** The ledger lists every transaction once, newest first. */
  lemma GetAllTransactionsCorrect(txs: seq<TransactionRow>, users: seq<UserRow>)
    ensures var r := GetAllTransactions(txs, users);
            && (forall k :: 0 < k < |r| ==> r[k - 1].tx.createdAt >= r[k].tx.createdAt)
            && multiset(seq(|r|, k requires 0 <= k < |r| => r[k].tx)) == multiset(txs)
  {
    NewerIsPreorder();
    SortByCorrect(txs, NewerTx);
    var r := GetAllTransactions(txs, users);
    assert seq(|r|, k requires 0 <= k < |r| => r[k].tx) == SortBy(txs, NewerTx);
  }
}
