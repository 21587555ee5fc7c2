/**
 * The signed-in user's own profile: the onboarding upsert of the personal
 * fields and the business profile, and the profile read.
 */
module Users {
  import opened Wrappers
  import opened Seqs
  import opened Records
  import opened Db

  /** The six personal columns as sent in a body (`Keep` = not sent). */
  datatype PersonalPatch = PersonalPatch(
    firstName: Patch<string>,
    lastName: Patch<string>,
    mobile: Patch<string>,
    country: Patch<string>,
    state: Patch<string>,
    city: Patch<string>)

  /** The user row after `user.update` with the personal columns. */
  function ApplyPersonal(u: UserRow, p: PersonalPatch): (v: UserRow)
    ensures v.firstName == ApplyPatch(u.firstName, p.firstName) && v.lastName == ApplyPatch(u.lastName, p.lastName)
    ensures v.mobile == ApplyPatch(u.mobile, p.mobile) && v.country == ApplyPatch(u.country, p.country)
    ensures v.state == ApplyPatch(u.state, p.state) && v.city == ApplyPatch(u.city, p.city)
    ensures v.(firstName := u.firstName, lastName := u.lastName, mobile := u.mobile,
               country := u.country, state := u.state, city := u.city) == u
  {
    u.(firstName := ApplyPatch(u.firstName, p.firstName), lastName := ApplyPatch(u.lastName, p.lastName),
       mobile := ApplyPatch(u.mobile, p.mobile), country := ApplyPatch(u.country, p.country),
       state := ApplyPatch(u.state, p.state), city := ApplyPatch(u.city, p.city))
  }

  /** A nullable column of a profile. */
  function Col(cols: map<string, string>, k: string): Option<string> {
    if k in cols then Some(cols[k]) else None
  }

  /** A patch entry; an absent key is an undefined property. */
  function PatchAt(patch: map<string, Patch<string>>, k: string): Patch<string> {
    if k in patch then patch[k] else Keep
  }

  /** Column `k` after the ORM applies `patch` to `cols`. */
  function ColAfter(cols: map<string, string>, patch: map<string, Patch<string>>, k: string): Option<string> {
    ApplyPatch(Col(cols, k), PatchAt(patch, k))
  }

  /** The columns after an ORM update with `patch`: sent columns overwrite, the rest are unchanged. */
  function PatchCols(cols: map<string, string>, patch: map<string, Patch<string>>): (r: map<string, string>)
    ensures forall k :: Col(r, k) == ColAfter(cols, patch, k)
  {
    var r := map k | k in cols.Keys + patch.Keys && ColAfter(cols, patch, k).Some? :: ColAfter(cols, patch, k).value;
    assert forall k :: Col(r, k) == ColAfter(cols, patch, k) by {
      forall k ensures Col(r, k) == ColAfter(cols, patch, k) {
        if k !in cols.Keys + patch.Keys {
          assert Col(cols, k).None? && PatchAt(patch, k) == Keep;
        }
      }
    }
    r
  }

  /** The schema default: `payment_status` is "Pending" unless a create gives it. */
  function WithDefaults(patch: map<string, Patch<string>>): (d: map<string, Patch<string>>)
    ensures PatchAt(patch, PaymentStatusCol).Keep? ==> PatchAt(d, PaymentStatusCol) == Set("Pending")
    ensures forall k :: k != PaymentStatusCol || !PatchAt(patch, k).Keep? ==> PatchAt(d, k) == PatchAt(patch, k)
  {
    if PatchAt(patch, PaymentStatusCol).Keep? then patch[PaymentStatusCol := Set("Pending")] else patch
  }

  /** The columns of a newly created profile. */
  function CreateCols(patch: map<string, Patch<string>>): map<string, string> {
    PatchCols(map[], WithDefaults(patch))
  }

  /** The profile columns the onboarding form writes, `plan_price` aside. */
  const FormCols: set<string> := BusinessCols - {PlanPriceCol}

  /**
   * The business part of an onboarding body: the form columns as sent, and
   * `plan_price` always, as the sent text when non-empty and null otherwise.
   */
  function ProfilePatch(body: map<string, Patch<string>>, planPrice: Option<string>): (d: map<string, Patch<string>>)
    ensures PatchAt(d, PlanPriceCol) == if TruthyStr(planPrice) then Set(planPrice.value) else SetNull
    ensures forall k :: k in FormCols ==> PatchAt(d, k) == PatchAt(body, k)
    ensures forall k :: k !in BusinessCols ==> PatchAt(d, k) == Keep
  {
    var restricted := map k | k in body.Keys * FormCols :: body[k];
    restricted[PlanPriceCol := if TruthyStr(planPrice) then Set(planPrice.value) else SetNull]
  }

  /** What `businessProfile.upsert` on `user_id` leaves in the table. */
  function UpsertProfile(profiles: seq<ProfileRow>, userId: nat, patch: map<string, Patch<string>>): seq<ProfileRow> {
    match ProfileIndex(profiles, userId)
    case None => profiles + [ProfileRow(userId, CreateCols(patch))]
    case Some(i) => profiles[i := profiles[i].(cols := PatchCols(profiles[i].cols, patch))]
  }

  /**
   * After the upsert the user has exactly one profile (when profiles were
   * unique per user before), holding the patched columns, and every other
   * user's profile is unchanged.
   */
  lemma UpsertProfileCorrect(profiles: seq<ProfileRow>, userId: nat, patch: map<string, Patch<string>>)
    requires UniqueBy(profiles, ProfileOwner)
    ensures var r := UpsertProfile(profiles, userId, patch);
            && UniqueBy(r, ProfileOwner)
            && ProfileIndex(r, userId).Some?
            && (ProfileIndex(profiles, userId).Some? ==>
                  |r| == |profiles|
                  && r[ProfileIndex(profiles, userId).value].cols
                     == PatchCols(profiles[ProfileIndex(profiles, userId).value].cols, patch))
            && (ProfileIndex(profiles, userId).None? ==> r == profiles + [ProfileRow(userId, CreateCols(patch))])
            && (forall j :: 0 <= j < |profiles| && profiles[j].userId != userId ==> r[j] == profiles[j])
  {
    match ProfileIndex(profiles, userId)
    case None =>
      AppendKeepsUnique(profiles, ProfileRow(userId, CreateCols(patch)), ProfileOwner);
      var r := UpsertProfile(profiles, userId, patch);
      assert r[|profiles|].userId == userId;
    case Some(i) =>
      UpdateKeepsUnique(profiles, i, profiles[i].(cols := PatchCols(profiles[i].cols, patch)), ProfileOwner);
      assert UpsertProfile(profiles, userId, patch)[i].userId == userId;
      forall j | 0 <= j < |profiles| && profiles[j].userId != userId
        ensures UpsertProfile(profiles, userId, patch)[j] == profiles[j]
      {
      }
  }

  /** Upserting twice with the same body gives the same profiles as upserting once. */
  lemma UpsertIdempotent(profiles: seq<ProfileRow>, userId: nat, patch: map<string, Patch<string>>)
    requires UniqueBy(profiles, ProfileOwner)
    ensures var once := UpsertProfile(profiles, userId, patch);
            UpsertProfile(once, userId, patch) == once
  {
    var once := UpsertProfile(profiles, userId, patch);
    UpsertProfileCorrect(profiles, userId, patch);
    var i := ProfileIndex(once, userId).value;
    assert PatchCols(once[i].cols, patch) == once[i].cols by {
      PatchTwice(if ProfileIndex(profiles, userId).Some? then profiles[i].cols else map[], patch, once[i].cols,
                 ProfileIndex(profiles, userId).None?);
    }
  }

  /** Applying a patch to its own result changes nothing more. */
  lemma PatchTwice(cols: map<string, string>, patch: map<string, Patch<string>>, once: map<string, string>,
                   created: bool)
    requires once == if created then CreateCols(patch) else PatchCols(cols, patch)
    ensures PatchCols(once, patch) == once
  {
    var twice := PatchCols(once, patch);
    forall k | k in twice || k in once
      ensures k in twice && k in once && twice[k] == once[k]
    {
      assert Col(twice, k) == Col(once, k);
    }
  }

  /** A client-sent "Paid" payment status is stored as it is, on create and on update. */
  lemma ClientCanWritePaid(profiles: seq<ProfileRow>, userId: nat, body: map<string, Patch<string>>,
                           planPrice: Option<string>)
    requires UniqueBy(profiles, ProfileOwner)
    requires PatchAt(body, PaymentStatusCol) == Set("Paid")
    ensures var r := UpsertProfile(profiles, userId, ProfilePatch(body, planPrice));
            ProfileIndex(r, userId).Some? && Col(r[ProfileIndex(r, userId).value].cols, PaymentStatusCol) == Some("Paid")
  {
    var patch := ProfilePatch(body, planPrice);
    UpsertProfileCorrect(profiles, userId, patch);
    assert PaymentStatusCol in FormCols;
    var r := UpsertProfile(profiles, userId, patch);
    var i := ProfileIndex(r, userId).value;
    if ProfileIndex(profiles, userId).None? {
      ProfileIndexUnique(r, |profiles|);
    } else {
      ProfileIndexUnique(r, ProfileIndex(profiles, userId).value);
    }
  }

  datatype ProfileReply = ProfileSaved(profile: ProfileRow) | ProfileThrown

  /** The `user.update` of the personal columns. */
  method SavePersonal(db: Store, ui: nat, personal: PersonalPatch)
    requires db.Valid() && ui < |db.users|
    modifies db`users
    ensures db.Valid()
    ensures db.users == old(db.users)[ui := ApplyPersonal(old(db.users)[ui], personal)]
  {
    var updated := ApplyPersonal(db.users[ui], personal);
    UpdateKeepsUnique(db.users, ui, updated, UserIdOf);
    UpdateKeepsUnique(db.users, ui, updated, UserEmailOf);
    db.users := db.users[ui := updated];
  }

  /** The `businessProfile.upsert`, returning the saved row. */
  method SaveProfile(db: Store, userId: nat, patch: map<string, Patch<string>>) returns (saved: ProfileRow)
    requires db.Valid()
    modifies db`profiles
    ensures db.Valid()
    ensures db.profiles == UpsertProfile(old(db.profiles), userId, patch)
    ensures saved in db.profiles && saved.userId == userId
  {
    UpsertProfileCorrect(db.profiles, userId, patch);
    var profiles := UpsertProfile(db.profiles, userId, patch);
    db.profiles := profiles;
    saved := profiles[ProfileIndex(profiles, userId).value];
  }

  method CreateOrUpdateProfile(db: Store, userId: nat, personal: PersonalPatch, body: map<string, Patch<string>>,
                               planPrice: Option<string>) returns (reply: ProfileReply)
    requires db.Valid()
    modifies db`users, db`profiles
    ensures db.Valid()
    ensures UserIndex(old(db.users), userId).None? ==>
              reply == ProfileThrown && db.users == old(db.users) && db.profiles == old(db.profiles)
    ensures UserIndex(old(db.users), userId).Some? ==>
              var ui := UserIndex(old(db.users), userId).value;
              && db.users == old(db.users)[ui := ApplyPersonal(old(db.users)[ui], personal)]
              && db.profiles == UpsertProfile(old(db.profiles), userId, ProfilePatch(body, planPrice))
              && reply.ProfileSaved? && reply.profile in db.profiles && reply.profile.userId == userId
  {
    var ui := UserIndex(db.users, userId);
    if ui.None? {
      return ProfileThrown;
    }
    SavePersonal(db, ui.value, personal);
    var planPriceStr := if TruthyStr(planPrice) then planPrice else None;
    var patch := ProfilePatch(body, planPriceStr);
    assert patch == ProfilePatch(body, planPrice);
    var saved := SaveProfile(db, userId, patch);
    reply := ProfileSaved(saved);
  }

  /** The personal part of the user that the profile read nests. */
  datatype Personal = Personal(
    firstName: Option<string>,
    lastName: Option<string>,
    mobile: Option<string>,
    country: Option<string>,
    state: Option<string>,
    city: Option<string>)

  function PersonalOf(u: UserRow): Personal {
    Personal(u.firstName, u.lastName, u.mobile, u.country, u.state, u.city)
  }

  datatype ProfileView = ProfileView(profile: ProfileRow, user: Personal)
  datatype ProfileRead = Found(view: ProfileView) | ProfileNotFound

  /** `getProfile`: 404 unless the user and the profile exist; then the profile with six personal fields. */
  function GetProfile(users: seq<UserRow>, profiles: seq<ProfileRow>, userId: nat): (r: ProfileRead)
    ensures r.ProfileNotFound? <==> UserIndex(users, userId).None? || ProfileIndex(profiles, userId).None?
    ensures r.Found? ==> var u := users[UserIndex(users, userId).value];
                         && r.view.profile == profiles[ProfileIndex(profiles, userId).value]
                         && r.view.user == Personal(u.firstName, u.lastName, u.mobile, u.country, u.state, u.city)
                         && r.view.profile.userId == userId
  {
    match (UserIndex(users, userId), ProfileIndex(profiles, userId))
    case (Some(ui), Some(pi)) => Found(ProfileView(profiles[pi], PersonalOf(users[ui])))
    case _ => ProfileNotFound
  }

  /** A successful onboarding submission is read back: the profile exists and shows the new personal fields. */
  lemma ProfileReadAfterSave(users: seq<UserRow>, profiles: seq<ProfileRow>, userId: nat, personal: PersonalPatch,
                             patch: map<string, Patch<string>>)
    requires UniqueBy(profiles, ProfileOwner) && UniqueBy(users, UserIdOf)
    requires UserIndex(users, userId).Some?
    ensures var ui := UserIndex(users, userId).value;
            var users2 := users[ui := ApplyPersonal(users[ui], personal)];
            var read := GetProfile(users2, UpsertProfile(profiles, userId, patch), userId);
            read.Found? && read.view.user == PersonalOf(ApplyPersonal(users[ui], personal))
  {
    var ui := UserIndex(users, userId).value;
    var users2 := users[ui := ApplyPersonal(users[ui], personal)];
    UpsertProfileCorrect(profiles, userId, patch);
    UpdateKeepsUnique(users, ui, ApplyPersonal(users[ui], personal), UserIdOf);
    UserIndexUnique(users2, ui);
  }
}
