/**
 * The portal administration command-line tool: argument parsing, password generation, and the
 * create / list / verify / delete commands against the hosted store. Console output is not
 * modelled; each command returns a report naming the outcome it would print.
 */
module PortalAdmin {
  import opened Wrappers
  import opened Backend
  import opened Strings
  import opened Validation
  import Seqs
  import Sorting
  import Passwords

  /** The alphabet of generated passwords (no `I`, `O`, `i`, `l`, `o`, `0` or `1`). */
  const PasswordAlphabet := "ABCDEFGHJKLMNPQRSTUVWXYZabcdefghjkmnpqrstuvwxyz23456789!@#$%^&*"

  /** A 16-character password from the tool's alphabet. */
  method GenerateSecurePassword() returns (pw: string)
    ensures |pw| == 16
    ensures forall k :: 0 <= k < |pw| ==> pw[k] in PasswordAlphabet
  {
    pw := Passwords.Draw(PasswordAlphabet, 16);
  }

  /** Parsed options: a key maps to `None` when it was the last argument (`undefined`). */
  type Options = map<string, Option<string>>

  /** `options[key]`, with an absent key read as `undefined`. */
  function OptionValue(options: Options, key: string): Option<string> {
    if key in options then options[key] else None
  }

  /** The key of the option pair starting at argument 2q+1: its first `--` removed. */
  function KeyOfPair(args: seq<string>, q: nat): string
    requires 2 * q + 1 < |args|
  {
    ReplaceFirst(args[2 * q + 1], "--", "")
  }

  /** The value of that pair: the next argument, or `undefined` past the end. */
  function ValueOfPair(args: seq<string>, q: nat): Option<string>
    requires 2 * q + 1 < |args|
  {
    if 2 * q + 2 < |args| then Some(args[2 * q + 2]) else None
  }

  /** The options after the first `p` pairs have been recorded, later pairs overwriting earlier ones. */
  function OptionsOf(args: seq<string>, p: nat): Options
    requires 2 * p <= |args|
  {
    if p == 0 then map[] else OptionsOf(args, p - 1)[KeyOfPair(args, p - 1) := ValueOfPair(args, p - 1)]
  }

  /** The command is the first argument; options come from consecutive pairs from index 1. */
  method ParseArgs(args: seq<string>) returns (command: Option<string>, options: Options)
    ensures command == if |args| > 0 then Some(args[0]) else None
    ensures options == OptionsOf(args, |args| / 2)
  {
    command := if |args| > 0 then Some(args[0]) else None;
    options := map[];
    var i := 1;
    while i < |args|
      invariant 1 <= i <= |args| + 1 && i % 2 == 1
      invariant options == OptionsOf(args, i / 2)
    {
      var key := ReplaceFirst(args[i], "--", "");
      var value := if i + 1 < |args| then Some(args[i + 1]) else None;
      options := options[key := value];
      i := i + 2;
    }
  }

  /**
   * A key is set exactly when some pair names it, and it holds the value of the last pair
   * that names it.
   */
  lemma OptionsLastWins(args: seq<string>, p: nat, key: string)
    requires 2 * p <= |args|
    ensures key in OptionsOf(args, p) <==> exists q :: 0 <= q < p && KeyOfPair(args, q) == key
    ensures forall q :: 0 <= q < p && KeyOfPair(args, q) == key && (forall q' :: q < q' < p ==> KeyOfPair(args, q') != key) ==>
              OptionsOf(args, p)[key] == ValueOfPair(args, q)
  {
    OptionsDomain(args, p, key);
    forall q | 0 <= q < p && KeyOfPair(args, q) == key && (forall q' :: q < q' < p ==> KeyOfPair(args, q') != key)
      ensures OptionsOf(args, p)[key] == ValueOfPair(args, q)
    {
      OptionsValue(args, p, q);
    }
  }

  /** The keys recorded after `p` pairs are the keys of those pairs. */
  lemma {:induction false} OptionsDomain(args: seq<string>, p: nat, key: string)
    requires 2 * p <= |args|
    ensures key in OptionsOf(args, p) <==> exists q :: 0 <= q < p && KeyOfPair(args, q) == key
  {
    if p > 0 {
      OptionsDomain(args, p - 1, key);
      if KeyOfPair(args, p - 1) == key {
        assert key in OptionsOf(args, p);
      }
    }
  }

  /** The pair `q` decides its key's value when no later pair among the first `p` names that key. */
  lemma {:induction false} OptionsValue(args: seq<string>, p: nat, q: nat)
    requires 2 * p <= |args| && q < p
    requires forall q' :: q < q' < p ==> KeyOfPair(args, q') != KeyOfPair(args, q)
    ensures KeyOfPair(args, q) in OptionsOf(args, p)
    ensures OptionsOf(args, p)[KeyOfPair(args, q)] == ValueOfPair(args, q)
  {
    if q < p - 1 {
      OptionsValue(args, p - 1, q);
    }
  }

  /** An option given as `--name value` is read under `name`. */
  lemma DashedKey(args: seq<string>, q: nat, name: string)
    requires 2 * q + 1 < |args| && args[2 * q + 1] == "--" + name
    ensures KeyOfPair(args, q) == name
  {
    assert StartsWith(args[2 * q + 1], "--");
    assert args[2 * q + 1][2..] == name;
  }

  // ---- create ----

  /** Failure injection for the remote calls of `create`, in order. */
  datatype CreateFaults = CreateFaults(
    lookup: Outcome, create: Outcome, insert: Outcome, rollback: Outcome, verify: Outcome,
    login: Outcome, signOut: Outcome)

  datatype CreateReport =
    | MissingFields
    | BadEmail
    | ShortPassword
    | AlreadyExists
    | AuthFailed(message: string)
    | ProfileFailed(message: string)
    | VerifyFailed
    | UserCreated(id: Id, loginTestPassed: bool)
    | Unexpected

  /** The password `create` uses: the one given, else a generated one (the destructuring default). */
  method ChoosePassword(options: Options) returns (pw: string)
    ensures OptionValue(options, "password").Some? ==> pw == OptionValue(options, "password").value
    ensures OptionValue(options, "password").None? ==>
              |pw| == 16 && forall k :: 0 <= k < |pw| ==> pw[k] in PasswordAlphabet
  {
    var given := OptionValue(options, "password");
    if given.Some? {
      pw := given.value;
    } else {
      pw := GenerateSecurePassword();
    }
  }

  /** The local checks of `create` pass: e-mail and company given, e-mail well formed, password long enough. */
  predicate Admissible(options: Options, pw: string) {
    && Present(OptionValue(options, "email")) && Present(OptionValue(options, "company"))
    && IsValidEmail(OptionValue(options, "email").value) && LongEnough(pw)
  }

  /**
   * The existence check found no profile with this e-mail (a failed read returns no data),
   * and the identity service has no identity with it either.
   */
  predicate Unclaimed(users: seq<User>, profiles: seq<Profile>, email: string, lookup: Outcome) {
    !lookup.Crash? && !(lookup.Succeed? && ProfileByEmail(profiles, email).Some?) && !HasUserWithEmail(users, email)
  }

  /**
   * `create`: local checks, existence check by e-mail, identity, profile, verifying read,
   * login probe. A failed insert or verify deletes the identity; a throw is only reported,
   * with no cleanup.
   */
  method CreateUser(store: Store, options: Options, f: CreateFaults, now: int) returns (r: CreateReport, pw: string)
    requires store.Valid()
    modifies store
    ensures store.Valid()
    ensures OptionValue(options, "password").Some? ==> pw == OptionValue(options, "password").value
    ensures OptionValue(options, "password").None? ==>
              |pw| == 16 && forall k :: 0 <= k < |pw| ==> pw[k] in PasswordAlphabet
    ensures !Present(OptionValue(options, "email")) || !Present(OptionValue(options, "company")) ==>
              r == MissingFields && store.Kept()
    ensures (Present(OptionValue(options, "email")) && Present(OptionValue(options, "company"))
             && !IsValidEmail(OptionValue(options, "email").value)) ==> r == BadEmail && store.Kept()
    ensures (Present(OptionValue(options, "email")) && Present(OptionValue(options, "company"))
             && IsValidEmail(OptionValue(options, "email").value) && !LongEnough(pw)) ==> r == ShortPassword && store.Kept()
    ensures Admissible(options, pw) && f.lookup.Crash? ==> r == Unexpected && store.Kept()
    ensures Admissible(options, pw) && f.lookup.Succeed? && ProfileByEmail(old(store.profiles), OptionValue(options, "email").value).Some? ==>
              r == AlreadyExists && store.Kept()
    ensures Admissible(options, pw) && !f.lookup.Crash? && !(f.lookup.Succeed? && ProfileByEmail(old(store.profiles), OptionValue(options, "email").value).Some?)
            && f.create.Fail? ==>
              r == AuthFailed(f.create.message) && store.Kept()
    ensures Admissible(options, pw) && !f.lookup.Crash? && !(f.lookup.Succeed? && ProfileByEmail(old(store.profiles), OptionValue(options, "email").value).Some?)
            && HasUserWithEmail(old(store.users), OptionValue(options, "email").value) && f.create.Succeed? ==>
              r == AuthFailed(EmailTaken) && store.Kept()
    ensures Admissible(options, pw) && !f.lookup.Crash? && !(f.lookup.Succeed? && ProfileByEmail(old(store.profiles), OptionValue(options, "email").value).Some?)
            && f.create.Crash? ==>
              r == Unexpected && store.Kept()
    ensures r.UserCreated? <==> && Admissible(options, pw) && Unclaimed(old(store.users), old(store.profiles), OptionValue(options, "email").value, f.lookup)
                                && f.create.Succeed? && f.insert.Succeed? && f.verify.Succeed?
                                && !f.login.Crash? && (f.login.Succeed? ==> !f.signOut.Crash?)
    ensures r.UserCreated? ==>
              var email, company := OptionValue(options, "email").value, OptionValue(options, "company").value;
              && r == UserCreated(old(store.nextId), f.login.Succeed?)
              && store.users == old(store.users) + [ClientIdentity(old(store.nextId), email, pw, company)]
              && store.profiles == old(store.profiles) + [ClientProfile(old(store.nextId), email, company, now)]
    // A failed profile insert or verification deletes the identity of this run.
    ensures Admissible(options, pw) && Unclaimed(old(store.users), old(store.profiles), OptionValue(options, "email").value, f.lookup)
            && f.create.Succeed? && f.insert.Fail? && f.rollback.Succeed? ==>
              r == ProfileFailed(f.insert.message) && store.users == old(store.users) && store.profiles == old(store.profiles)
    ensures Admissible(options, pw) && Unclaimed(old(store.users), old(store.profiles), OptionValue(options, "email").value, f.lookup)
            && f.create.Succeed? && f.insert.Succeed? && f.verify.Fail? && f.rollback.Succeed? ==>
              && r == VerifyFailed && store.users == old(store.users)
              && store.profiles == old(store.profiles) + [ClientProfile(old(store.nextId), OptionValue(options, "email").value,
                                                                       OptionValue(options, "company").value, now)]
    // A rollback that answers an error or throws leaves the identity behind.
    ensures Admissible(options, pw) && Unclaimed(old(store.users), old(store.profiles), OptionValue(options, "email").value, f.lookup)
            && f.create.Succeed? && f.insert.Fail? && !f.rollback.Succeed? ==>
              && r == (if f.rollback.Crash? then Unexpected else ProfileFailed(f.insert.message))
              && store.profiles == old(store.profiles)
              && store.users == old(store.users) + [ClientIdentity(old(store.nextId), OptionValue(options, "email").value, pw,
                                                                   OptionValue(options, "company").value)]
    ensures Admissible(options, pw) && Unclaimed(old(store.users), old(store.profiles), OptionValue(options, "email").value, f.lookup)
            && f.create.Succeed? && f.insert.Succeed? && f.verify.Fail? && !f.rollback.Succeed? ==>
              && r == (if f.rollback.Crash? then Unexpected else VerifyFailed)
              && store.profiles == old(store.profiles) + [ClientProfile(old(store.nextId), OptionValue(options, "email").value,
                                                                       OptionValue(options, "company").value, now)]
              && store.users == old(store.users) + [ClientIdentity(old(store.nextId), OptionValue(options, "email").value, pw,
                                                                   OptionValue(options, "company").value)]
    // Without a catch-block cleanup, a throw from the verifying read, the login probe or the sign-out
    // leaves both the identity and the profile behind.
    ensures Admissible(options, pw) && Unclaimed(old(store.users), old(store.profiles), OptionValue(options, "email").value, f.lookup)
            && f.create.Succeed? && f.insert.Succeed?
            && (f.verify.Crash? || (f.verify.Succeed? && (f.login.Crash? || (f.login.Succeed? && f.signOut.Crash?)))) ==>
              && r == Unexpected
              && store.profiles == old(store.profiles) + [ClientProfile(old(store.nextId), OptionValue(options, "email").value,
                                                                       OptionValue(options, "company").value, now)]
              && store.users == old(store.users) + [ClientIdentity(old(store.nextId), OptionValue(options, "email").value, pw,
                                                                   OptionValue(options, "company").value)]
    // Without a catch-block cleanup, a throw from the profile insert leaves the identity behind.
    ensures Admissible(options, pw) && Unclaimed(old(store.users), old(store.profiles), OptionValue(options, "email").value, f.lookup)
            && f.create.Succeed? && f.insert.Crash? ==>
              && r == Unexpected && store.profiles == old(store.profiles)
              && store.users == old(store.users) + [ClientIdentity(old(store.nextId), OptionValue(options, "email").value, pw,
                                                                   OptionValue(options, "company").value)]
    ensures || store.users == old(store.users)
            || (&& Admissible(options, pw)
                && store.users == old(store.users) + [ClientIdentity(old(store.nextId), OptionValue(options, "email").value, pw,
                                                                     OptionValue(options, "company").value)])
  {
    pw := ChoosePassword(options);
    var email, company := OptionValue(options, "email"), OptionValue(options, "company");
    if !Present(email) || !Present(company) {
      return MissingFields, pw;
    }
    if !IsValidEmail(email.value) {
      return BadEmail, pw;
    }
    if !LongEnough(pw) {
      return ShortPassword, pw;
    }
    var existing := ReadByEmail(store.profiles, email.value, f.lookup);
    if existing.Threw? {
      return Unexpected, pw;
    }
    if existing.Done? && existing.value.Some? {
      return AlreadyExists, pw;
    }
    ghost var before := store.users;
    var created := store.CreateUser(email.value, pw, Metadata(company.value, Client), f.create);
    if created.Error? {
      return AuthFailed(created.message), pw;
    }
    if created.Threw? {
      return Unexpected, pw;
    }
    RemoveAppended(before, created.value);
    assert store.users[|before|].id == created.value.id;
    r := Complete(store, ClientProfile(created.value.id, created.value.email, company.value, now), f);
  }

  /** `create` after the identity exists: profile insert, verifying read, login probe. */
  method Complete(store: Store, row: Profile, f: CreateFaults) returns (r: CreateReport)
    requires store.Valid()
    requires HasUser(store.users, row.id)
    requires !HasProfile(store.profiles, row.id)
    modifies store
    ensures store.Valid() && store.nextId == old(store.nextId)
    ensures r.UserCreated? <==> f.insert.Succeed? && f.verify.Succeed? && !f.login.Crash? && (f.login.Succeed? ==> !f.signOut.Crash?)
    ensures r.UserCreated? ==>
              r == UserCreated(row.id, f.login.Succeed?) && store.users == old(store.users) && store.profiles == old(store.profiles) + [row]
    ensures f.insert.Fail? ==> store.profiles == old(store.profiles)
    ensures f.insert.Fail? ==> r == if f.rollback.Crash? then Unexpected else ProfileFailed(f.insert.message)
    ensures f.insert.Fail? && f.rollback.Succeed? ==> store.users == WithoutUser(old(store.users), row.id)
    ensures f.insert.Succeed? && f.verify.Fail? ==>
              store.profiles == old(store.profiles) + [row] && r == if f.rollback.Crash? then Unexpected else VerifyFailed
    ensures f.insert.Succeed? && f.verify.Fail? && f.rollback.Succeed? ==> store.users == WithoutUser(old(store.users), row.id)
    ensures f.insert.Crash? ==> r == Unexpected && store.Kept()
    // The delete's answer is ignored and a throw is only reported: the identity goes only on a successful rollback.
    ensures !((f.insert.Fail? || (f.insert.Succeed? && f.verify.Fail?)) && f.rollback.Succeed?) ==> store.users == old(store.users)
    ensures f.insert.Succeed? && f.verify.Crash? ==> r == Unexpected && store.profiles == old(store.profiles) + [row]
    ensures f.insert.Succeed? && f.verify.Succeed? && (f.login.Crash? || (f.login.Succeed? && f.signOut.Crash?)) ==>
              r == Unexpected && store.profiles == old(store.profiles) + [row]
    ensures store.users == old(store.users) || store.users == WithoutUser(old(store.users), row.id)
    ensures store.profiles == old(store.profiles) || store.profiles == old(store.profiles) + [row]
  {
    var inserted := store.InsertProfile(row, f.insert);
    if inserted.Threw? {
      return Unexpected;
    }
    if inserted.Error? {
      var undo := store.DeleteUser(row.id, f.rollback);
      if undo.Threw? {
        return Unexpected;
      }
      return ProfileFailed(inserted.message);
    }
    assert store.profiles[|store.profiles| - 1].id == row.id;
    var verified := ReadById(store.profiles, row.id, f.verify);
    if verified.Threw? {
      return Unexpected;
    }
    if !verified.Done? || verified.value.None? {
      var undo := store.DeleteUser(row.id, f.rollback);
      if undo.Threw? {
        return Unexpected;
      }
      return VerifyFailed;
    }
    if f.login.Crash? || (f.login.Succeed? && f.signOut.Crash?) {
      return Unexpected;
    }
    r := UserCreated(row.id, f.login.Succeed?);
  }

  // ---- list ----

  datatype ListReport =
    | FetchFailed(message: string)
    | NoUsers
    | Grouped(admins: seq<Profile>, clients: seq<Profile>, total: nat)
    | ListingCrashed

  /** `list`: the profiles, newest first, grouped by role, with the counts it prints. */
  function ListUsers(rows: seq<Profile>, o: Outcome): (r: ListReport)
    ensures o.Fail? ==> r == FetchFailed(o.message)
    ensures o.Crash? ==> r == ListingCrashed
    ensures r == NoUsers <==> o.Succeed? && rows == []
    ensures r.Grouped? <==> o.Succeed? && rows != []
    ensures r.Grouped? ==> && (forall k :: 0 <= k < |r.admins| ==> r.admins[k].role == Admin && r.admins[k] in rows)
                           && (forall k :: 0 <= k < |r.clients| ==> r.clients[k].role == Client && r.clients[k] in rows)
                           && (forall k :: 0 <= k < |rows| ==> rows[k] in r.admins || rows[k] in r.clients)
                           && r.total == |rows| == |r.admins| + |r.clients|
                           && multiset(r.admins) + multiset(r.clients) == multiset(rows)
                           && Sorting.SortedDesc(r.admins, CreatedAt) && Sorting.SortedDesc(r.clients, CreatedAt)
  {
    match o
    case Fail(m) => FetchFailed(m)
    case Crash => ListingCrashed
    case Succeed =>
      if rows == [] then NoUsers
      else
        RoleGroupsOfListing(rows);
        Grouped(AdminRows(NewestFirst(rows)), ClientRows(NewestFirst(rows)), |rows|)
  }

  predicate IsAdminRow(p: Profile) { p.role == Admin }

  predicate IsClientRow(p: Profile) { p.role == Client }

  /** The admin rows of a listing, in listing order. */
  function AdminRows(listed: seq<Profile>): seq<Profile> { Seqs.Filter(listed, IsAdminRow) }

  /** The client rows of a listing, in listing order. */
  function ClientRows(listed: seq<Profile>): seq<Profile> { Seqs.Filter(listed, IsClientRow) }

  /** The role groups of the newest-first listing split the table between them, each newest first. */
  lemma RoleGroupsOfListing(rows: seq<Profile>)
    ensures var admins := AdminRows(NewestFirst(rows));
            var clients := ClientRows(NewestFirst(rows));
            && (forall k :: 0 <= k < |admins| ==> admins[k].role == Admin && admins[k] in rows)
            && (forall k :: 0 <= k < |clients| ==> clients[k].role == Client && clients[k] in rows)
            && (forall k :: 0 <= k < |rows| ==> rows[k] in admins || rows[k] in clients)
            && |rows| == |admins| + |clients|
            && multiset(admins) + multiset(clients) == multiset(rows)
            && Sorting.SortedDesc(admins, CreatedAt) && Sorting.SortedDesc(clients, CreatedAt)
  {
    var listed := NewestFirst(rows);
    NewestFirstSameRows(rows);
    NewestFirstOrdered(rows);
    Seqs.FilterPartition(listed, IsAdminRow, IsClientRow);
    Seqs.FilterSplitsMultiset(listed, IsAdminRow, IsClientRow);
    Sorting.FilterSortedDesc(listed, IsAdminRow, CreatedAt);
    Sorting.FilterSortedDesc(listed, IsClientRow, CreatedAt);
  }

  // ---- verify ----

  /** The four summaries `verify` prints. */
  datatype Verdict = FullyConfigured | ProfileMissing | IdentityMissing | DoesNotExist

  /** `verify`'s summary from whether the identity and the profile were found. */
  function Classify(identityFound: bool, profileFound: bool): (v: Verdict)
    ensures v == FullyConfigured <==> identityFound && profileFound
    ensures v == ProfileMissing <==> identityFound && !profileFound
    ensures v == IdentityMissing <==> !identityFound && profileFound
    ensures v == DoesNotExist <==> !identityFound && !profileFound
  {
    if identityFound && profileFound then FullyConfigured
    else if identityFound then ProfileMissing
    else if profileFound then IdentityMissing
    else DoesNotExist
  }

  /** Each of the four situations has its own summary. */
  lemma ClassifyDistinguishes(a: bool, p: bool, a': bool, p': bool)
    ensures Classify(a, p) == Classify(a', p') <==> a == a' && p == p'
  {
  }

  datatype VerifyReport = VerifyNeedsEmail | AuthCheckFailed(message: string) | Checked(verdict: Verdict) | VerifyCrashed

  /** `verify`: look the e-mail up among identities (`find`) and profiles (`.single()`). */
  function VerifyUser(users: seq<User>, profiles: seq<Profile>, options: Options, listing: Outcome, lookup: Outcome)
    : (r: VerifyReport)
    ensures !Present(OptionValue(options, "email")) ==> r == VerifyNeedsEmail
    ensures Present(OptionValue(options, "email")) && listing.Fail? ==> r == AuthCheckFailed(listing.message)
    ensures Present(OptionValue(options, "email")) && (listing.Crash? || (listing.Succeed? && lookup.Crash?)) ==> r == VerifyCrashed
    ensures r.Checked? <==> Present(OptionValue(options, "email")) && listing.Succeed? && !lookup.Crash?
    ensures r.Checked? ==>
              var email := OptionValue(options, "email").value;
              && (r.verdict in {FullyConfigured, ProfileMissing} <==> exists k :: 0 <= k < |users| && users[k].email == email)
              && (r.verdict in {FullyConfigured, IdentityMissing} <==> lookup.Succeed? && |RowsWithEmail(profiles, email)| == 1)
  {
    var email := OptionValue(options, "email");
    if !Present(email) then VerifyNeedsEmail
    else match listing
      case Fail(m) => AuthCheckFailed(m)
      case Crash => VerifyCrashed
      case Succeed =>
        var identity := FindUserByEmail(users, email.value);
        match ReadByEmail(profiles, email.value, lookup)
        case Threw => VerifyCrashed
        case Error(_) => Checked(Classify(identity.Some?, false))
        case Done(profile) => Checked(Classify(identity.Some?, profile.Some?))
  }

  // ---- delete ----

  datatype DeleteReport = DeleteNeedsEmail | Cancelled | NotFound | DeletionFailed(message: string) | UserDeleted | DeletionCrashed

  /** `delete`: after the typed confirmation, delete the identity of the profile with this e-mail. */
  method DeleteUser(store: Store, options: Options, answer: string, lookup: Outcome, o: Outcome) returns (r: DeleteReport)
    requires store.Valid()
    modifies store
    ensures store.Valid() && store.profiles == old(store.profiles) && store.nextId == old(store.nextId)
    ensures !Present(OptionValue(options, "email")) ==> r == DeleteNeedsEmail && store.Kept()
    ensures Present(OptionValue(options, "email")) && answer != "DELETE" ==> r == Cancelled && store.Kept()
    ensures r.UserDeleted? <==>
              && Present(OptionValue(options, "email")) && answer == "DELETE" && lookup.Succeed? && o.Succeed?
              && var p := ProfileByEmail(old(store.profiles), OptionValue(options, "email").value);
                 p.Some? && exists k :: 0 <= k < |old(store.users)| && old(store.users)[k].id == p.value.id
    ensures r.UserDeleted? ==>
              store.users == WithoutUser(old(store.users), ProfileByEmail(old(store.profiles), OptionValue(options, "email").value).value.id)
    ensures !r.UserDeleted? ==> store.users == old(store.users)
  {
    var email := OptionValue(options, "email");
    if !Present(email) {
      return DeleteNeedsEmail;
    }
    if answer != "DELETE" {
      return Cancelled;
    }
    var found := ReadByEmail(store.profiles, email.value, lookup);
    if found.Threw? {
      return DeletionCrashed;
    }
    if !found.Done? || found.value.None? {
      return NotFound;
    }
    var deleted := store.DeleteUser(found.value.value.id, o);
    match deleted {
      case Done(_) => r := UserDeleted;
      case Error(m) => r := DeletionFailed(m);
      case Threw => r := DeletionCrashed;
    }
  }
}
