/**
 * The one-time bootstrap API route (`/api/auth/setup`): behind a fixed setup key it creates
 * the administrator identity, asks for its profile's role to be set to admin, and creates a
 * demo client identity.
 */
module SetupRoute {
  import opened Wrappers
  import opened Backend

  const SetupKey := "twopelicans-setup-2024"
  const CompleteMessage := "Setup complete! Admin and demo users created."
  const PasswordWarning := "CHANGE YOUR PASSWORD IMMEDIATELY after first login!"

  datatype Body =
    | Refused(error: string)
    | Complete(message: string, admin: Option<string>, demo: Option<string>, important: string)

  datatype Response = Response(status: int, body: Body)

  /** Failure injection for the existence check, the two creations and the role update. */
  datatype SetupFaults = SetupFaults(existing: Outcome, createAdmin: Outcome, update: Outcome, createDemo: Outcome)

  const SetupFailed := Response(500, Refused("Setup failed"))

  /** The company name this route gives the demo identity. */
  const DemoCompany := "Demo Corp"

  /** The existence check did not find the administrator's profile (a failed read returns no data). */
  predicate NotSetUp(profiles: seq<Profile>, existing: Outcome) {
    !existing.Crash? && !(existing.Succeed? && ProfileByEmail(profiles, AdminEmail).Some?)
  }

  /** The administrator identity gets created: the check passed and the service accepts the e-mail. */
  predicate AdminCreated(users: seq<User>, profiles: seq<Profile>, setupKey: Option<string>, f: SetupFaults) {
    setupKey == Some(SetupKey) && NotSetUp(profiles, f.existing) && f.createAdmin.Succeed? && !HasUserWithEmail(users, AdminEmail)
  }

  method Post(store: Store, setupKey: Option<string>, f: SetupFaults) returns (r: Response)
    requires store.Valid()
    modifies store
    ensures store.Valid()
    ensures setupKey != Some(SetupKey) ==> r == Response(403, Refused("Invalid setup key")) && store.Kept()
    ensures setupKey == Some(SetupKey) && f.existing.Crash? ==> r == SetupFailed && store.Kept()
    ensures setupKey == Some(SetupKey) && f.existing.Succeed? && ProfileByEmail(old(store.profiles), AdminEmail).Some? ==>
              r == Response(400, Refused("Admin user already exists")) && store.Kept()
    // A creation error answers 400 and no demo identity is created.
    ensures setupKey == Some(SetupKey) && NotSetUp(old(store.profiles), f.existing) && f.createAdmin.Fail? ==>
              r == Response(400, Refused(f.createAdmin.message)) && store.Kept()
    ensures setupKey == Some(SetupKey) && NotSetUp(old(store.profiles), f.existing) && f.createAdmin.Succeed?
            && HasUserWithEmail(old(store.users), AdminEmail) ==>
              r == Response(400, Refused(EmailTaken)) && store.Kept()
    ensures setupKey == Some(SetupKey) && NotSetUp(old(store.profiles), f.existing) && f.createAdmin.Crash? ==>
              r == SetupFailed && store.Kept()
    // Role update and demo creation errors are only logged; a throw from either is a 500.
    ensures r.status == 200 <==>
              AdminCreated(old(store.users), old(store.profiles), setupKey, f) && !f.update.Crash? && !f.createDemo.Crash?
    ensures r.status == 200 ==>
              var demo := f.createDemo.Succeed? && !HasUserWithEmail(old(store.users), DemoEmail);
              && r.body == Complete(CompleteMessage, Some(AdminEmail), if demo then Some(DemoEmail) else None, PasswordWarning)
              && store.users == old(store.users) + [AdminIdentity(old(store.nextId))]
                               + (if demo then [DemoIdentity(old(store.nextId) + 1, DemoCompany)] else [])
    // Once created, the administrator identity stays, whatever fails later.
    ensures AdminCreated(old(store.users), old(store.profiles), setupKey, f) ==>
              |old(store.users)| < |store.users| && store.users[..|old(store.users)| + 1] == old(store.users) + [AdminIdentity(old(store.nextId))]
    // No profile row is ever written: the role update names an id no row has yet.
    ensures store.profiles == old(store.profiles)
    ensures AdminCreated(old(store.users), old(store.profiles), setupKey, f) ==> !HasProfile(store.profiles, old(store.nextId))
  {
    if setupKey != Some(SetupKey) {
      return Response(403, Refused("Invalid setup key"));
    }
    var existing := ReadByEmail(store.profiles, AdminEmail, f.existing);
    if existing.Threw? {
      return SetupFailed;
    }
    if existing.Done? && existing.value.Some? {
      return Response(400, Refused("Admin user already exists"));
    }
    var admin := store.CreateUser(AdminEmail, "admin2024", Metadata(AdminCompany, Admin), f.createAdmin);
    if admin.Error? {
      return Response(400, Refused(admin.message));
    }
    if admin.Threw? {
      return SetupFailed;
    }
    ghost var afterAdmin := store.users;
    assert !HasProfile(store.profiles, admin.value.id);
    r := Finish(store, admin.value.id, f);
    assert HasUserWithEmail(afterAdmin, DemoEmail) == HasUserWithEmail(old(store.users), DemoEmail) by {
      assert afterAdmin == old(store.users) + [AdminIdentity(old(store.nextId))];
      assert forall k :: 0 <= k < |old(store.users)| ==> afterAdmin[k] == old(store.users)[k];
    }
    assert store.users[..|afterAdmin|] == afterAdmin;
  }

  /** After the administrator identity exists: the role update, then the demo identity. */
  method Finish(store: Store, adminId: Id, f: SetupFaults) returns (r: Response)
    requires store.Valid() && !HasProfile(store.profiles, adminId)
    modifies store
    ensures store.Valid() && store.profiles == old(store.profiles)
    ensures r.status == 200 <==> !f.update.Crash? && !f.createDemo.Crash?
    ensures r.status != 200 ==> r == SetupFailed
    ensures r.status == 200 ==>
              var demo := f.createDemo.Succeed? && !HasUserWithEmail(old(store.users), DemoEmail);
              && r.body == Complete(CompleteMessage, Some(AdminEmail), if demo then Some(DemoEmail) else None, PasswordWarning)
              && store.users == old(store.users) + (if demo then [DemoIdentity(old(store.nextId), DemoCompany)] else [])
    ensures |old(store.users)| <= |store.users| && store.users[..|old(store.users)|] == old(store.users)
  {
    var updated := store.UpdateProfile(adminId, Some(Admin), None, f.update);
    if updated.Threw? {
      return SetupFailed;
    }
    var demo := store.CreateUser(DemoEmail, "demo2024", Metadata(DemoCompany, Client), f.createDemo);
    if demo.Threw? {
      return SetupFailed;
    }
    r := Response(200, Complete(CompleteMessage, Some(AdminEmail), if demo.Done? then Some(DemoEmail) else None, PasswordWarning));
  }
}
