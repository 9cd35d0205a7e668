/**
 * The database setup script: make sure the administrator identity exists (create it only when
 * the listing does not show it), make sure its profile has the admin role (insert, falling
 * back to an update), and create the demo client identity when absent. Console output is not
 * modelled.
 */
module SetupScript {
  import opened Wrappers
  import opened Backend

  /** Failure injection for each remote call of one run, in order. */
  datatype ScriptFaults = ScriptFaults(
    listing: Outcome, createAdmin: Outcome, lookup: Outcome, insert: Outcome, update: Outcome,
    demoListing: Outcome, createDemo: Outcome, verify: Outcome)

  datatype ScriptReport =
    | AdminCreateFailed(message: string)
    | SetupDone(adminId: Id, adminCreated: bool, demoCreated: bool)
    | SetupCrashed

  /** The outcome of step 1. */
  datatype AdminStep = AdminReady(id: Id, created: bool) | AdminFailed(message: string) | AdminThrew

  /** No remote call of the run throws. */
  predicate NoThrow(f: ScriptFaults) {
    && !f.listing.Crash? && !f.createAdmin.Crash? && !f.lookup.Crash? && !f.insert.Crash? && !f.update.Crash?
    && !f.demoListing.Crash? && !f.createDemo.Crash? && !f.verify.Crash?
  }

  /** The company name this script gives the demo identity. */
  const DemoCompany := "Demo Company"

  /** The administrator profile row the script inserts. */
  function AdminProfile(id: Id, now: int): (p: Profile)
    ensures p.id == id && p.role == Admin && p.isActive
  {
    Profile(id, AdminEmail, AdminCompany, Admin, true, now, now, None)
  }

  /** Step 1's listing succeeds and shows the administrator identity. */
  predicate AdminListed(users: seq<User>, f: ScriptFaults) {
    f.listing.Succeed? && HasUserWithEmail(users, AdminEmail)
  }

  /** Step 1 ends with an administrator identity: the listed one, or a newly created one. */
  predicate AdminObtained(users: seq<User>, f: ScriptFaults) {
    !f.listing.Crash? && (AdminListed(users, f) || (f.createAdmin.Succeed? && !HasUserWithEmail(users, AdminEmail)))
  }

  /** The administrator id step 1 ends with: the listed identity's, or the next one issued. */
  function AdminIdOf(users: seq<User>, nextId: Id, f: ScriptFaults): Id
    requires AdminObtained(users, f)
  {
    if AdminListed(users, f) then FindUserByEmail(users, AdminEmail).value.id else nextId
  }

  /**
   * Whether a call of step 2 throws, given whether the administrator had a profile row: the
   * lookup, then the insert (reached unless the lookup found the row), then the update (reached
   * unless the insert added the row).
   */
  predicate ProfileStepThrows(f: ScriptFaults, hadProfile: bool) {
    || f.lookup.Crash?
    || (!(f.lookup.Succeed? && hadProfile) && f.insert.Crash?)
    || (!(f.insert.Succeed? && !hadProfile) && f.update.Crash?)
  }

  /** Every row as step 2's update `{ role: 'admin', company }` filtered on `id` leaves it. */
  function Promoted(rows: seq<Profile>, id: Id): seq<Profile> {
    seq(|rows|, k requires 0 <= k < |rows| => Patch(rows[k], id, Some(Admin), Some(AdminCompany)))
  }

  /** The profile table after step 2 for administrator `id`. */
  function ProfilesAfter(rows: seq<Profile>, id: Id, f: ScriptFaults, now: int): (r: seq<Profile>)
    // Only the administrator's row is written: every other row stays, in place.
    ensures forall k :: 0 <= k < |rows| ==> k < |r| && r[k].id == rows[k].id && (rows[k].id != id ==> r[k] == rows[k])
    // At most one row is added, and only when the administrator had none.
    ensures |r| == |rows| || (r == rows + [AdminProfile(id, now)] && !HasProfile(rows, id))
    // A throw, or a failed update of an existing row, leaves the table as it was.
    ensures ProfileStepThrows(f, HasProfile(rows, id)) ==> r == rows
    ensures HasProfile(rows, id) && !f.update.Succeed? ==> r == rows
  {
    var had := HasProfile(rows, id);
    if ProfileStepThrows(f, had) then rows
    else if had then (if f.update.Succeed? then Promoted(rows, id) else rows)
    else if f.insert.Succeed? then rows + [AdminProfile(id, now)] else rows
  }

  /** Step 3 creates the demo identity: step 2 did not throw, the listing answered, none exists and creation succeeds. */
  predicate DemoCreatedBy(users: seq<User>, f: ScriptFaults, hadProfile: bool) {
    && !ProfileStepThrows(f, hadProfile) && !f.demoListing.Crash?
    && f.createDemo.Succeed? && !HasUserWithEmail(users, DemoEmail)
  }

  /** Whether a call of step 3 throws: the listing, or the creation it leads to. */
  predicate DemoStepThrows(users: seq<User>, f: ScriptFaults) {
    f.demoListing.Crash? || (!(f.demoListing.Succeed? && HasUserWithEmail(users, DemoEmail)) && f.createDemo.Crash?)
  }

  /** The identity table after a run whose step 1 obtained the administrator identity. */
  function UsersAfterRun(users: seq<User>, nextId: Id, f: ScriptFaults, hadProfile: bool): (r: seq<User>)
    // The script never deletes an identity, and adds at most the administrator and the demo.
    ensures users <= r && |r| <= |users| + 2
  {
    var adminCreated := !AdminListed(users, f);
    var afterAdmin := if adminCreated then users + [AdminIdentity(nextId)] else users;
    var demoId := if adminCreated then nextId + 1 else nextId;
    if DemoCreatedBy(users, f, hadProfile) then afterAdmin + [DemoIdentity(demoId, DemoCompany)] else afterAdmin
  }

  /** Step 1: reuse the listed administrator identity, or create one. */
  method EnsureAdmin(store: Store, f: ScriptFaults) returns (r: AdminStep)
    requires store.Valid()
    modifies store
    ensures store.Valid() && store.profiles == old(store.profiles)
    ensures f.listing.Crash? ==> r == AdminThrew && store.Kept()
    ensures f.listing.Succeed? && HasUserWithEmail(old(store.users), AdminEmail) ==>
              r == AdminReady(FindUserByEmail(old(store.users), AdminEmail).value.id, false) && store.Kept()
    ensures !f.listing.Crash? && !(f.listing.Succeed? && HasUserWithEmail(old(store.users), AdminEmail)) ==>
              r == (match f.createAdmin
                    case Succeed => if HasUserWithEmail(old(store.users), AdminEmail) then AdminFailed(EmailTaken)
                                    else AdminReady(old(store.nextId), true)
                    case Fail(m) => AdminFailed(m)
                    case Crash => AdminThrew)
    ensures r.AdminReady? && r.created ==>
              store.users == old(store.users) + [AdminIdentity(old(store.nextId))] && store.nextId == old(store.nextId) + 1
    ensures !(r.AdminReady? && r.created) ==> store.Kept()
    ensures r.AdminReady? ==> exists k :: 0 <= k < |store.users| && store.users[k].id == r.id && store.users[k].email == AdminEmail
  {
    if f.listing.Crash? {
      return AdminThrew;
    }
    var adminExists := f.listing.Succeed? && HasUserWithEmail(store.users, AdminEmail);
    if !adminExists {
      var created := store.CreateUser(AdminEmail, "admin2024", Metadata(AdminCompany, Admin), f.createAdmin);
      match created {
        case Done(u) =>
          assert store.users[|store.users| - 1] == u;
          r := AdminReady(u.id, true);
        case Error(m) => r := AdminFailed(m);
        case Threw => r := AdminThrew;
      }
    } else {
      var admin := FindUserByEmail(store.users, AdminEmail);
      var k :| 0 <= k < |store.users| && store.users[k] == admin.value;
      r := AdminReady(admin.value.id, false);
    }
  }

  /**
   * Step 2: with no profile for the id, insert an admin profile and on an insert error fall
   * back to an update; with a profile, update its role and company. Answers whether a call threw.
   */
  method EnsureAdminProfile(store: Store, id: Id, f: ScriptFaults, now: int) returns (threw: bool)
    requires store.Valid()
    requires HasUser(store.users, id)
    modifies store
    ensures store.Valid() && store.users == old(store.users) && store.nextId == old(store.nextId)
    ensures NoThrow(f) ==> !threw
    ensures threw <==> ProfileStepThrows(f, HasProfile(old(store.profiles), id))
    ensures store.profiles == ProfilesAfter(old(store.profiles), id, f, now)
    ensures !threw && f.update.Succeed? && HasProfile(old(store.profiles), id) ==>
              && IsAdminProfile(store.profiles, id) && ProfileById(store.profiles, id).value.company == AdminCompany
    ensures !threw && f.insert.Succeed? && !HasProfile(old(store.profiles), id) ==>
              store.profiles == old(store.profiles) + [AdminProfile(id, now)] && IsAdminProfile(store.profiles, id)
    // The fallback update cannot help when there was no row to update.
    ensures !f.insert.Succeed? && !HasProfile(old(store.profiles), id) ==> store.profiles == old(store.profiles)
  {
    var existing := ReadById(store.profiles, id, f.lookup);
    if existing.Threw? {
      return true;
    }
    if !(existing.Done? && existing.value.Some?) {
      var inserted := store.InsertProfile(AdminProfile(id, now), f.insert);
      if inserted.Threw? {
        return true;
      }
      if inserted.Error? {
        threw := Promote(store, id, f.update);
        return;
      }
      assert store.profiles[|store.profiles| - 1] == AdminProfile(id, now);
      return false;
    }
    threw := Promote(store, id, f.update);
  }

  /** `update({ role: 'admin', company: 'TwoPelicans AI' }).eq('id', id)`; answers whether it threw. */
  method Promote(store: Store, id: Id, o: Outcome) returns (threw: bool)
    requires store.Valid()
    modifies store
    ensures store.Valid() && store.users == old(store.users) && store.nextId == old(store.nextId)
    ensures threw <==> o.Crash?
    ensures |store.profiles| == |old(store.profiles)|
    ensures o.Succeed? ==> forall k :: 0 <= k < |store.profiles| ==>
              store.profiles[k] == Patch(old(store.profiles)[k], id, Some(Admin), Some(AdminCompany))
    ensures !o.Succeed? ==> store.profiles == old(store.profiles)
    ensures !HasProfile(old(store.profiles), id) ==> store.profiles == old(store.profiles)
    ensures o.Succeed? && HasProfile(old(store.profiles), id) ==>
              IsAdminProfile(store.profiles, id) && ProfileById(store.profiles, id).value.company == AdminCompany
  {
    var updated := store.UpdateProfile(id, Some(Admin), Some(AdminCompany), o);
    threw := updated.Threw?;
    if updated.Done? && HasProfile(old(store.profiles), id) {
      var k :| 0 <= k < |old(store.profiles)| && old(store.profiles)[k].id == id;
      assert store.profiles[k].id == id;
      var p := ProfileById(store.profiles, id);
      var j :| 0 <= j < |store.profiles| && store.profiles[j] == p.value;
      assert store.profiles[j] == Patch(old(store.profiles)[j], id, Some(Admin), Some(AdminCompany));
    }
  }

  /** Step 3: create the demo identity unless the listing shows it. Answers (created, threw). */
  method EnsureDemo(store: Store, f: ScriptFaults) returns (created: bool, threw: bool)
    requires store.Valid()
    modifies store
    ensures store.Valid() && store.profiles == old(store.profiles)
    ensures created <==> !f.demoListing.Crash? && f.createDemo.Succeed? && !HasUserWithEmail(old(store.users), DemoEmail)
    ensures threw <==> f.demoListing.Crash?
                       || (!(f.demoListing.Succeed? && HasUserWithEmail(old(store.users), DemoEmail)) && f.createDemo.Crash?)
    ensures created ==> store.users == old(store.users) + [DemoIdentity(old(store.nextId), DemoCompany)]
    ensures !created ==> store.Kept()
  {
    if f.demoListing.Crash? {
      return false, true;
    }
    var hasDemo := f.demoListing.Succeed? && HasUserWithEmail(store.users, DemoEmail);
    if hasDemo {
      return false, false;
    }
    var demo := store.CreateUser(DemoEmail, "demo2024", Metadata(DemoCompany, Client), f.createDemo);
    created, threw := demo.Done?, demo.Threw?;
  }

  /** One run of the script. */
  method SetupDatabase(store: Store, f: ScriptFaults, now: int) returns (r: ScriptReport)
    requires store.Valid()
    modifies store
    ensures store.Valid()
    ensures f.listing.Crash? ==> r == SetupCrashed && store.Kept()
    // An administrator creation error stops the run before any profile step.
    ensures r.AdminCreateFailed? ==> store.Kept()
    ensures r.AdminCreateFailed? <==>
              && !f.listing.Crash? && !(f.listing.Succeed? && HasUserWithEmail(old(store.users), AdminEmail))
              && (f.createAdmin.Fail? || (f.createAdmin.Succeed? && HasUserWithEmail(old(store.users), AdminEmail)))
    // A listed administrator is reused, never created again.
    ensures f.listing.Succeed? && HasUserWithEmail(old(store.users), AdminEmail) && r.SetupDone? ==>
              r.adminId == FindUserByEmail(old(store.users), AdminEmail).value.id && !r.adminCreated
    ensures r.SetupDone? && r.adminCreated ==> r.adminId == old(store.nextId) && !HasUserWithEmail(old(store.users), AdminEmail)
    ensures HasUserWithEmail(old(store.users), AdminEmail) ==>
              Registrations(store.users, AdminEmail) == Registrations(old(store.users), AdminEmail)
    ensures Registrations(store.users, AdminEmail) <= Registrations(old(store.users), AdminEmail) + 1
    ensures r.SetupDone? ==> HasUserWithEmail(store.users, AdminEmail)
    // Only a run that obtains the administrator changes anything, and it deletes no identity.
    ensures !AdminObtained(old(store.users), f) ==> store.Kept() && !r.SetupDone?
    ensures r.SetupDone? ==> AdminObtained(old(store.users), f) && r.adminId == AdminIdOf(old(store.users), old(store.nextId), f)
    ensures AdminObtained(old(store.users), f) ==>
              var id := AdminIdOf(old(store.users), old(store.nextId), f);
              && store.profiles == ProfilesAfter(old(store.profiles), id, f, now)
              && store.users == UsersAfterRun(old(store.users), old(store.nextId), f, HasProfile(old(store.profiles), id))
    ensures old(store.users) <= store.users
    // The administrator's profile ends with the admin role when the write that applies succeeds.
    ensures r.SetupDone? && f.update.Succeed? && HasProfile(old(store.profiles), r.adminId) ==>
              IsAdminProfile(store.profiles, r.adminId) && ProfileById(store.profiles, r.adminId).value.company == AdminCompany
    ensures r.SetupDone? && f.insert.Succeed? && !HasProfile(old(store.profiles), r.adminId) ==>
              store.profiles == old(store.profiles) + [AdminProfile(r.adminId, now)]
    ensures r.SetupDone? && !f.insert.Succeed? && !HasProfile(old(store.profiles), r.adminId) ==>
              store.profiles == old(store.profiles)
    // The demo identity is created only if absent, and its failure does not stop the run.
    ensures r.SetupDone? ==> r.demoCreated == (f.createDemo.Succeed? && !HasUserWithEmail(old(store.users), DemoEmail))
    ensures (&& NoThrow(f)
             && ((f.listing.Succeed? && HasUserWithEmail(old(store.users), AdminEmail))
                 || (f.createAdmin.Succeed? && !HasUserWithEmail(old(store.users), AdminEmail)))) ==>
              r.SetupDone?
  {
    ghost var users0 := store.users;
    var admin := EnsureAdmin(store, f);
    if admin.AdminThrew? {
      return SetupCrashed;
    }
    if admin.AdminFailed? {
      return AdminCreateFailed(admin.message);
    }
    RegistrationsAppend(users0, AdminIdentity(old(store.nextId)), AdminEmail);
    RegisteredIffCounted(users0, AdminEmail);
    AppendOtherEmail(users0, AdminIdentity(old(store.nextId)), DemoEmail);
    assert AdminObtained(users0, f) && admin.id == AdminIdOf(users0, old(store.nextId), f);
    assert admin.created == !AdminListed(users0, f);
    ghost var users1, nextId1 := store.users, store.nextId;
    var demoCreated, threw := Finish(store, admin.id, f, now);
    RunUsers(users0, old(store.nextId), f, HasProfile(old(store.profiles), admin.id), users1, nextId1, demoCreated);
    if threw {
      return SetupCrashed;
    }
    r := SetupDone(admin.id, admin.created, demoCreated);
  }

  /** Appending an identity with another e-mail does not change whether `email` is registered. */
  lemma AppendOtherEmail(users: seq<User>, u: User, email: string)
    requires u.email != email
    ensures HasUserWithEmail(users + [u], email) == HasUserWithEmail(users, email)
  {
    assert forall k :: 0 <= k < |users| ==> (users + [u])[k] == users[k];
  }

  /** Step 1's identity table followed by the one step 3 leaves is the table `UsersAfterRun` describes. */
  lemma RunUsers(users0: seq<User>, nextId0: Id, f: ScriptFaults, hadProfile: bool, users1: seq<User>, nextId1: Id, demoCreated: bool)
    requires AdminObtained(users0, f)
    requires AdminListed(users0, f) ==> users1 == users0 && nextId1 == nextId0
    requires !AdminListed(users0, f) ==> users1 == users0 + [AdminIdentity(nextId0)] && nextId1 == nextId0 + 1
    requires demoCreated <==> DemoCreatedBy(users1, f, hadProfile)
    ensures users1 + (if demoCreated then [DemoIdentity(nextId1, DemoCompany)] else []) == UsersAfterRun(users0, nextId0, f, hadProfile)
  {
    if !AdminListed(users0, f) {
      AppendOtherEmail(users0, AdminIdentity(nextId0), DemoEmail);
    }
  }

  /** Steps 2 to 4, once the administrator identity `id` exists. Answers (demo created, threw). */
  method Finish(store: Store, id: Id, f: ScriptFaults, now: int) returns (demoCreated: bool, threw: bool)
    requires store.Valid()
    requires exists k :: 0 <= k < |store.users| && store.users[k].id == id && store.users[k].email == AdminEmail
    modifies store
    ensures store.Valid()
    ensures NoThrow(f) ==> !threw
    ensures HasUserWithEmail(store.users, AdminEmail)
    ensures Registrations(store.users, AdminEmail) == Registrations(old(store.users), AdminEmail)
    ensures !threw ==> demoCreated == (f.createDemo.Succeed? && !HasUserWithEmail(old(store.users), DemoEmail))
    ensures !threw && f.update.Succeed? && HasProfile(old(store.profiles), id) ==>
              IsAdminProfile(store.profiles, id) && ProfileById(store.profiles, id).value.company == AdminCompany
    ensures !threw && f.insert.Succeed? && !HasProfile(old(store.profiles), id) ==>
              store.profiles == old(store.profiles) + [AdminProfile(id, now)]
    ensures !threw && !f.insert.Succeed? && !HasProfile(old(store.profiles), id) ==> store.profiles == old(store.profiles)
    ensures store.profiles == ProfilesAfter(old(store.profiles), id, f, now)
    ensures demoCreated <==> DemoCreatedBy(old(store.users), f, HasProfile(old(store.profiles), id))
    ensures store.users == old(store.users) + (if demoCreated then [DemoIdentity(old(store.nextId), DemoCompany)] else [])
    ensures threw <==> ProfileStepThrows(f, HasProfile(old(store.profiles), id)) || DemoStepThrows(old(store.users), f) || f.verify.Crash?
  {
    ghost var users1 := store.users;
    ghost var k0 :| 0 <= k0 < |users1| && users1[k0].id == id && users1[k0].email == AdminEmail;
    threw := EnsureAdminProfile(store, id, f, now);
    if threw {
      return false, true;
    }
    ghost var nextId2 := store.nextId;
    var demoThrew;
    demoCreated, demoThrew := EnsureDemo(store, f);
    RegistrationsAppend(users1, DemoIdentity(nextId2, DemoCompany), AdminEmail);
    assert store.users[k0] == users1[k0];
    threw := demoThrew || f.verify.Crash?;
  }

  /** Running the script a second time over the state the first run left creates no second administrator. */
  method RunTwice(store: Store, f1: ScriptFaults, f2: ScriptFaults, now1: int, now2: int) returns (r1: ScriptReport, r2: ScriptReport)
    requires store.Valid()
    modifies store
    ensures store.Valid()
    ensures r1.SetupDone? && f2.listing.Succeed? ==> !r2.AdminCreateFailed? && (r2.SetupDone? ==> !r2.adminCreated)
    ensures !HasUserWithEmail(old(store.users), AdminEmail) && r1.SetupDone? ==> Registrations(store.users, AdminEmail) == 1
  {
    r1 := SetupDatabase(store, f1, now1);
    RegisteredIffCounted(store.users, AdminEmail);
    RegisteredIffCounted(old(store.users), AdminEmail);
    r2 := SetupDatabase(store, f2, now2);
  }
}
