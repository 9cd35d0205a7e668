/**
 * The admin user-management API route (`/api/auth/users`): GET lists profiles, POST provisions
 * a client account (identity, then profile, then a verifying read) with compensating deletion
 * of the identity, DELETE removes an identity by id. Each handler starts with the same admin
 * guard.
 */
module UsersRoute {
  import opened Wrappers
  import opened Backend
  import opened Validation
  import Mail
  import Contact

  /** What the guard concludes about the caller of a handler. */
  datatype Guard = Unauthenticated | Forbidden | Authorized(profile: Profile)

  /** The summary a successful POST returns. */
  datatype CreatedUser = CreatedUser(
    id: Id, email: string, company: string, created: bool, profileVerified: bool, loginTestPassed: bool)

  datatype Body =
    | Problem(error: string)
    | Listing(rows: seq<Profile>)
    | Created(user: CreatedUser, message: string)
    | Removed

  datatype Response = Response(status: int, body: Body)

  /** The JSON body of a POST; absent members are `None`. */
  datatype NewUserRequest = NewUserRequest(
    email: Option<string>, password: Option<string>, company: Option<string>, sendWelcomeEmail: Option<bool>)

  datatype Credentials = Credentials(email: string, password: string, company: string)

  /**
   * Failure injection for the remote calls of one POST, in the order the handler makes them:
   * identity creation, profile insert, compensating delete, verifying read, login probe,
   * sign-out after the probe, the relay's answer to the welcome e-mail, and the catch-block
   * cleanup delete.
   */
  datatype PostFaults = PostFaults(
    create: Outcome, insert: Outcome, rollback: Outcome, verify: Outcome,
    login: Outcome, signOut: Outcome, welcome: Mail.RelayReply, cleanup: Outcome)

  const InternalError := Response(500, Problem("Internal server error"))
  const CreatedMessage := "User created successfully with verified profile"
  /** The answers after a failed profile insert or read-back whose compensating delete succeeded. */
  const ProfileRolledBack := "Failed to create user profile. User creation rolled back."
  const VerifyRolledBack := "User creation verification failed. User creation rolled back."
  const WelcomeSubject := "Welcome to TwoPelicans AI Portal - "

  /**
   * The guard repeated at the top of GET, POST and DELETE: a session is required, and the
   * caller's own profile must have the role `admin`; a missing profile counts as not admin.
   */
  function AdminGuard(caller: Option<Id>, rows: seq<Profile>): (g: Guard)
    requires DistinctProfileIds(rows)
    ensures g.Unauthenticated? <==> caller.None?
    ensures g.Authorized? <==> caller.Some? && IsAdminProfile(rows, caller.value)
    ensures g.Authorized? ==> g.profile in rows && g.profile.id == caller.value && g.profile.role == Admin
    ensures g.Forbidden? ==> caller.Some? && forall k :: 0 <= k < |rows| && rows[k].id == caller.value ==> rows[k].role != Admin
  {
    if caller.None? then Unauthenticated
    else
      var p := ProfileById(rows, caller.value);
      if p.Some? && p.value.role == Admin then Authorized(p.value) else Forbidden
  }

  /** The response of a handler whose guard refused the caller: 401 without a session, else 403. */
  function Refusal(g: Guard): (r: Response)
    requires !g.Authorized?
    ensures r.status == (if g.Unauthenticated? then 401 else 403)
  {
    if g.Unauthenticated? then Response(401, Problem("Unauthorized")) else Response(403, Problem("Forbidden"))
  }

  /** The POST body checks, in the handler's order: required fields, e-mail format, password length. */
  function CheckNewUser(req: NewUserRequest): (r: Result<Credentials>)
    ensures r.Success? <==> && Present(req.email) && Present(req.password) && Present(req.company)
                            && IsValidEmail(req.email.value) && LongEnough(req.password.value)
    ensures r.Success? ==> r.value == Credentials(req.email.value, req.password.value, req.company.value)
    ensures !(Present(req.email) && Present(req.password) && Present(req.company)) ==>
              r == Failure("Email, password, and company are required")
    ensures Present(req.email) && Present(req.password) && Present(req.company) && !IsValidEmail(req.email.value) ==>
              r == Failure("Invalid email format")
    ensures Present(req.email) && Present(req.password) && Present(req.company) && IsValidEmail(req.email.value)
            && !LongEnough(req.password.value) ==>
              r == Failure("Password must be at least 8 characters long")
  {
    if !(Present(req.email) && Present(req.password) && Present(req.company)) then
      Failure("Email, password, and company are required")
    else if !IsValidEmail(req.email.value) then Failure("Invalid email format")
    else if !LongEnough(req.password.value) then Failure("Password must be at least 8 characters long")
    else Success(Credentials(req.email.value, req.password.value, req.company.value))
  }

  /** The identity a POST with valid input creates, given the id the store assigns. */
  function NewIdentity(c: Credentials, id: Id): User {
    ClientIdentity(id, c.email, c.password, c.company)
  }

  /** The profile row a POST inserts for the new identity. */
  function NewProfile(c: Credentials, id: Id, now: int): Profile {
    ClientProfile(id, c.email, c.company, now)
  }

  /** Every remote call up to the end of the login probe goes the way a full success needs. */
  predicate Completes(f: PostFaults) {
    && f.create.Succeed? && f.insert.Succeed? && f.verify.Succeed?
    && !f.login.Crash? && (f.login.Succeed? ==> !f.signOut.Crash?)
  }

  /** After the identity exists, a call throws and the catch block answers: the insert, a compensating delete, the read-back, the probe. */
  predicate ProvisionThrows(f: PostFaults) {
    || f.insert.Crash?
    || ((f.insert.Fail? || (f.insert.Succeed? && f.verify.Fail?)) && f.rollback.Crash?)
    || (f.insert.Succeed? && (f.verify.Crash? || (f.verify.Succeed? && (f.login.Crash? || (f.login.Succeed? && f.signOut.Crash?)))))
  }

  /** The welcome message for a new account: to the new address, with a subject naming the company. */
  function WelcomeEmail(email: string, company: string): (e: Mail.Email)
    ensures e.to == Some(email)
    ensures e.subject == WelcomeSubject + company
  {
    Mail.Email(None, Some(email), WelcomeSubject + company, None, "")
  }

  /** GET: the profiles table, newest first, for an admin caller. */
  method Get(store: Store, caller: Option<Id>, read: Outcome) returns (r: Response)
    requires store.Valid()
    ensures !AdminGuard(caller, store.profiles).Authorized? ==> r == Refusal(AdminGuard(caller, store.profiles))
    ensures r.status == 200 <==> AdminGuard(caller, store.profiles).Authorized? && read.Succeed?
    ensures r.status == 200 ==> r.body == Listing(NewestFirst(store.profiles))
    ensures AdminGuard(caller, store.profiles).Authorized? && !read.Succeed? ==> r == InternalError
  {
    var guard := AdminGuard(caller, store.profiles);
    if !guard.Authorized? {
      return Refusal(guard);
    }
    if !read.Succeed? {
      return InternalError;
    }
    r := Response(200, Listing(NewestFirst(store.profiles)));
  }

  /** The catch block of POST: delete the identity recorded in `createdUserId`, then answer 500. */
  method CleanUp(store: Store, createdUserId: Id, o: Outcome) returns (r: Response)
    requires store.Valid()
    modifies store
    ensures store.Valid() && store.profiles == old(store.profiles) && store.nextId == old(store.nextId)
    ensures o.Succeed? && (exists k :: 0 <= k < |old(store.users)| && old(store.users)[k].id == createdUserId) ==>
              store.users == WithoutUser(old(store.users), createdUserId)
    ensures !o.Succeed? ==> store.users == old(store.users)
    ensures r == InternalError
  {
    var _ := store.DeleteUser(createdUserId, o);
    r := InternalError;
  }

  /**
   * The welcome step as the handler performs it: `{to, subject, html}` is posted to the contact
   * route, which finds no `message` in it and answers 500 before reaching the relay; the handler
   * only logs a failed answer. Nothing is sent, whatever the contact route's configuration.
   */
  method RequestWelcome(mailer: Mail.Mailer, env: Contact.ContactEnv, email: string, company: string, answer: Mail.RelayReply)
    modifies mailer
    ensures mailer.outbox == old(mailer.outbox)
  {
    var e := WelcomeEmail(email, company);
    var form := Contact.FormOfWelcomeBody(email, e.subject, e.text);
    Contact.WelcomeRequestRejected(email, e.subject, e.text, env);
    var _ := Contact.Post(mailer, env, form, answer);
  }

  /**
   * The welcome step as evidently intended: one relay request to the new user; its answer is
   * ignored.
   */
  method SendWelcome(mailer: Mail.Mailer, email: string, company: string, answer: Mail.RelayReply)
    modifies mailer
    ensures mailer.outbox == old(mailer.outbox) + [WelcomeEmail(email, company)]
  {
    var _ := mailer.Send(WelcomeEmail(email, company), answer);
  }

  /** The guard admits the caller and the body passes the checks. */
  predicate Accepted(caller: Option<Id>, req: NewUserRequest, rows: seq<Profile>)
    requires DistinctProfileIds(rows)
  {
    AdminGuard(caller, rows).Authorized? && CheckNewUser(req).Success?
  }

  /** The requested e-mail is not registered yet, so the identity service can create it. */
  predicate Unregistered(req: NewUserRequest, users: seq<User>)
    requires CheckNewUser(req).Success?
  {
    !HasUserWithEmail(users, CheckNewUser(req).value.email)
  }

  /** POST: provision a client account, or leave no identity of this run behind. */
  method Post(store: Store, mailer: Mail.Mailer, contactEnv: Contact.ContactEnv, caller: Option<Id>,
               req: NewUserRequest, f: PostFaults, now: int)
    returns (r: Response)
    requires store.Valid()
    modifies store, mailer
    ensures store.Valid()
    // The guard comes first and, when it refuses, nothing is touched.
    ensures !AdminGuard(caller, old(store.profiles)).Authorized? ==>
              r == Refusal(AdminGuard(caller, old(store.profiles))) && store.Kept() && unchanged(mailer)
    // Invalid input: 400 and no identity call.
    ensures AdminGuard(caller, old(store.profiles)).Authorized? && CheckNewUser(req).Failure? ==>
              r == Response(400, Problem(CheckNewUser(req).error)) && store.Kept() && unchanged(mailer)
    // Identity creation answers an error: 400 with the service's message, no profile.
    ensures Accepted(caller, req, old(store.profiles)) && f.create.Fail? ==>
              r == Response(400, Problem(f.create.message)) && store.Kept() && unchanged(mailer)
    ensures Accepted(caller, req, old(store.profiles)) && !Unregistered(req, old(store.users)) && f.create.Succeed? ==>
              r == Response(400, Problem(EmailTaken)) && store.Kept() && unchanged(mailer)
    // Identity creation throws: `createdUserId` is still null, so nothing is deleted.
    ensures Accepted(caller, req, old(store.profiles)) && f.create.Crash? ==>
              r == InternalError && store.Kept() && unchanged(mailer)
    // Success exactly when every step up to the login probe went through.
    ensures r.status == 200 <==> Accepted(caller, req, old(store.profiles)) && Unregistered(req, old(store.users)) && Completes(f)
    ensures r.status == 200 ==>
              var c := CheckNewUser(req).value;
              && store.users == old(store.users) + [NewIdentity(c, old(store.nextId))]
              && store.profiles == old(store.profiles) + [NewProfile(c, old(store.nextId), now)]
              && r.body == Created(CreatedUser(old(store.nextId), c.email, c.company, true, true, f.login.Succeed?),
                                   CreatedMessage)
    // Profile insert answers an error: the identity is deleted and 500 returned.
    ensures Accepted(caller, req, old(store.profiles)) && Unregistered(req, old(store.users))
            && f.create.Succeed? && f.insert.Fail? && f.rollback.Succeed? ==>
              && r == Response(500, Problem(ProfileRolledBack))
              && store.users == old(store.users) && store.profiles == old(store.profiles)
    // The compensating delete answers an error: the same answer, but the identity stays.
    ensures Accepted(caller, req, old(store.profiles)) && Unregistered(req, old(store.users))
            && f.create.Succeed? && f.insert.Fail? && f.rollback.Fail? ==>
              && r == Response(500, Problem(ProfileRolledBack))
              && store.users == old(store.users) + [NewIdentity(CheckNewUser(req).value, old(store.nextId))]
              && store.profiles == old(store.profiles)
    // The verifying read finds no profile: the identity is deleted; the inserted row is left to the cascade.
    ensures Accepted(caller, req, old(store.profiles)) && Unregistered(req, old(store.users))
            && f.create.Succeed? && f.insert.Succeed? && f.verify.Fail? && f.rollback.Succeed? ==>
              && r == Response(500, Problem(VerifyRolledBack))
              && store.users == old(store.users)
              && store.profiles == old(store.profiles) + [NewProfile(CheckNewUser(req).value, old(store.nextId), now)]
    ensures Accepted(caller, req, old(store.profiles)) && Unregistered(req, old(store.users))
            && f.create.Succeed? && f.insert.Succeed? && f.verify.Fail? && f.rollback.Fail? ==>
              && r == Response(500, Problem(VerifyRolledBack))
              && store.users == old(store.users) + [NewIdentity(CheckNewUser(req).value, old(store.nextId))]
    // A throw after the identity exists reaches the catch block: the generic 500.
    ensures Accepted(caller, req, old(store.profiles)) && Unregistered(req, old(store.users))
            && f.create.Succeed? && ProvisionThrows(f) ==>
              r == InternalError
    // On every failure, at most the identity of this run can remain, and only if a delete call failed.
    ensures r.status != 200 ==>
              || store.users == old(store.users)
              || (&& CheckNewUser(req).Success? && !(f.rollback.Succeed? && f.cleanup.Succeed?)
                  && store.users == old(store.users) + [NewIdentity(CheckNewUser(req).value, old(store.nextId))])
    ensures r.status != 200 ==>
              || store.profiles == old(store.profiles)
              || (CheckNewUser(req).Success? && store.profiles == old(store.profiles) + [NewProfile(CheckNewUser(req).value, old(store.nextId), now)])
    // The welcome request reaches the contact route, which refuses it: no e-mail is ever sent.
    ensures mailer.outbox == old(mailer.outbox)
  {
    var guard := AdminGuard(caller, store.profiles);
    if !guard.Authorized? {
      return Refusal(guard);
    }
    var checked := CheckNewUser(req);
    if checked.Failure? {
      return Response(400, Problem(checked.error));
    }
    var cred := checked.value;
    ghost var before := store.users;
    var created := store.CreateUser(cred.email, cred.password, Metadata(cred.company, Client), f.create);
    if created.Error? {
      return Response(400, Problem(created.message));
    }
    if created.Threw? {
      return InternalError;
    }
    var createdUserId := created.value.id;
    RemoveAppended(before, created.value);
    assert store.users[|before|].id == createdUserId;
    var row := ClientProfile(createdUserId, created.value.email, cred.company, now);
    var failure := Provision(store, mailer, contactEnv, row, req.sendWelcomeEmail == Some(true), f);
    if failure.Some? {
      return failure.value;
    }
    r := Response(200, Created(CreatedUser(createdUserId, created.value.email, cred.company, true, true, f.login.Succeed?),
                               CreatedMessage));
  }

  /**
   * The part of POST after the identity exists: insert its profile, read it back, probe the
   * login, send the welcome e-mail; every failure deletes the identity `row.id` again.
   */
  method Provision(store: Store, mailer: Mail.Mailer, contactEnv: Contact.ContactEnv, row: Profile, welcome: bool,
                    f: PostFaults)
    returns (failure: Option<Response>)
    requires store.Valid()
    requires HasUser(store.users, row.id)
    requires !HasProfile(store.profiles, row.id)
    modifies store, mailer
    ensures store.Valid() && store.nextId == old(store.nextId)
    ensures failure.None? <==> f.insert.Succeed? && f.verify.Succeed? && !f.login.Crash? && (f.login.Succeed? ==> !f.signOut.Crash?)
    ensures failure.None? ==> store.users == old(store.users) && store.profiles == old(store.profiles) + [row]
    ensures failure.Some? ==> failure.value.status == 500
    ensures ProvisionThrows(f) ==> failure == Some(InternalError)
    ensures f.insert.Fail? && f.rollback.Succeed? ==>
              && failure == Some(Response(500, Problem(ProfileRolledBack)))
              && store.users == WithoutUser(old(store.users), row.id) && store.profiles == old(store.profiles)
    ensures f.insert.Fail? && f.rollback.Fail? ==>
              && failure == Some(Response(500, Problem(ProfileRolledBack)))
              && store.users == old(store.users) && store.profiles == old(store.profiles)
    ensures f.insert.Succeed? && f.verify.Fail? && f.rollback.Succeed? ==>
              && failure == Some(Response(500, Problem(VerifyRolledBack)))
              && store.users == WithoutUser(old(store.users), row.id) && store.profiles == old(store.profiles) + [row]
    ensures f.insert.Succeed? && f.verify.Fail? && f.rollback.Fail? ==>
              && failure == Some(Response(500, Problem(VerifyRolledBack)))
              && store.users == old(store.users) && store.profiles == old(store.profiles) + [row]
    ensures failure.Some? ==> store.users == old(store.users) || store.users == WithoutUser(old(store.users), row.id)
    ensures failure.Some? && f.rollback.Succeed? && f.cleanup.Succeed? ==> store.users == WithoutUser(old(store.users), row.id)
    ensures store.profiles == old(store.profiles) || store.profiles == old(store.profiles) + [row]
    ensures mailer.outbox == old(mailer.outbox)
  {
    var inserted := store.InsertProfile(row, f.insert);
    if inserted.Threw? {
      var r := CleanUp(store, row.id, f.cleanup);
      return Some(r);
    }
    if inserted.Error? {
      var r := RollBack(store, row.id, f, ProfileRolledBack);
      return Some(r);
    }
    assert store.profiles[|store.profiles| - 1].id == row.id;
    failure := Confirm(store, mailer, contactEnv, row, welcome, f);
  }

  /**
   * The part of POST after the profile row exists: read it back, probe the login, send the
   * welcome e-mail; every failure deletes the identity `row.id` again.
   */
  method Confirm(store: Store, mailer: Mail.Mailer, contactEnv: Contact.ContactEnv, row: Profile, welcome: bool,
                  f: PostFaults)
    returns (failure: Option<Response>)
    requires store.Valid() && HasUser(store.users, row.id) && HasProfile(store.profiles, row.id)
    modifies store, mailer
    ensures store.Valid() && store.nextId == old(store.nextId) && store.profiles == old(store.profiles)
    ensures failure.None? <==> f.verify.Succeed? && !f.login.Crash? && (f.login.Succeed? ==> !f.signOut.Crash?)
    ensures failure.None? ==> store.users == old(store.users)
    ensures failure.Some? ==> failure.value.status == 500
    ensures f.verify.Crash? || (f.verify.Fail? && f.rollback.Crash?) ==> failure == Some(InternalError)
    ensures f.verify.Succeed? && (f.login.Crash? || (f.login.Succeed? && f.signOut.Crash?)) ==> failure == Some(InternalError)
    ensures f.verify.Fail? && f.rollback.Succeed? ==>
              && failure == Some(Response(500, Problem(VerifyRolledBack)))
              && store.users == WithoutUser(old(store.users), row.id)
    ensures f.verify.Fail? && f.rollback.Fail? ==>
              failure == Some(Response(500, Problem(VerifyRolledBack))) && store.users == old(store.users)
    ensures failure.Some? ==> store.users == old(store.users) || store.users == WithoutUser(old(store.users), row.id)
    ensures failure.Some? && f.rollback.Succeed? && f.cleanup.Succeed? ==> store.users == WithoutUser(old(store.users), row.id)
    ensures mailer.outbox == old(mailer.outbox)
  {
    var verified := ReadById(store.profiles, row.id, f.verify);
    if verified.Threw? {
      var r := CleanUp(store, row.id, f.cleanup);
      return Some(r);
    }
    if !verified.Done? || verified.value.None? {
      var r := RollBack(store, row.id, f, VerifyRolledBack);
      return Some(r);
    }
    // The login probe: an error answer is only a warning; a throw reaches the catch block.
    if f.login.Crash? || (f.login.Succeed? && f.signOut.Crash?) {
      var r := CleanUp(store, row.id, f.cleanup);
      return Some(r);
    }
    if welcome {
      RequestWelcome(mailer, contactEnv, row.email, row.company, f.welcome);
    }
    failure := None;
  }

  /** The compensating delete after a failed profile step; a throw there reaches the catch block. */
  method RollBack(store: Store, createdUserId: Id, f: PostFaults, message: string) returns (r: Response)
    requires store.Valid()
    requires HasUser(store.users, createdUserId)
    modifies store
    ensures store.Valid() && store.profiles == old(store.profiles) && store.nextId == old(store.nextId)
    ensures r.status == 500
    // Only a throw from the delete changes the answer; an `{ error }` answer is not even read.
    ensures !f.rollback.Crash? ==> r == Response(500, Problem(message))
    ensures f.rollback.Crash? ==> r == InternalError
    ensures f.rollback.Fail? ==> store.users == old(store.users)
    ensures store.users == old(store.users) || store.users == WithoutUser(old(store.users), createdUserId)
    ensures f.rollback.Succeed? || (f.rollback.Crash? && f.cleanup.Succeed?) ==>
              store.users == WithoutUser(old(store.users), createdUserId)
  {
    var undo := store.DeleteUser(createdUserId, f.rollback);
    if undo.Threw? {
      r := CleanUp(store, createdUserId, f.cleanup);
      return;
    }
    r := Response(500, Problem(message));
  }

  /** DELETE `?id=`: remove one identity; profile rows are expected to cascade (not modelled). */
  method Delete(store: Store, caller: Option<Id>, userId: Option<Id>, o: Outcome) returns (r: Response)
    requires store.Valid()
    modifies store
    ensures store.Valid() && store.profiles == old(store.profiles)
    ensures !AdminGuard(caller, old(store.profiles)).Authorized? ==>
              r == Refusal(AdminGuard(caller, old(store.profiles))) && store.Kept()
    ensures AdminGuard(caller, old(store.profiles)).Authorized? && userId.None? ==>
              r == Response(400, Problem("User ID required")) && store.Kept()
    ensures r.status == 200 <==> && AdminGuard(caller, old(store.profiles)).Authorized? && userId.Some? && o.Succeed?
                                 && exists k :: 0 <= k < |old(store.users)| && old(store.users)[k].id == userId.value
    ensures r.status == 200 ==> r.body == Removed && store.users == WithoutUser(old(store.users), userId.value)
    ensures r.status != 200 ==> store.users == old(store.users)
    ensures AdminGuard(caller, old(store.profiles)).Authorized? && userId.Some? && o.Fail? ==>
              r == Response(400, Problem(o.message))
    ensures AdminGuard(caller, old(store.profiles)).Authorized? && userId.Some? && o.Crash? ==> r == InternalError
  {
    var guard := AdminGuard(caller, store.profiles);
    if !guard.Authorized? {
      return Refusal(guard);
    }
    if userId.None? {
      return Response(400, Problem("User ID required"));
    }
    var deleted := store.DeleteUser(userId.value, o);
    match deleted {
      case Done(_) => r := Response(200, Removed);
      case Error(m) => r := Response(400, Problem(m));
      case Threw => r := InternalError;
    }
  }
}
