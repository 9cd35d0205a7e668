/**
 * The hosted authentication service and database, modelled as abstract state: the identity
 * table (`auth.users`) and the `profiles` table, each a sequence of rows in insertion order.
 * Every remote call takes an `Outcome` that decides whether the service answers normally,
 * answers with an error, or the call throws.
 */
module Backend {
  import opened Wrappers
  import Seqs
  import Sorting

  /** Identity ids are assigned by the store and never reused. */
  type Id = nat

  datatype Role = Admin | Client

  /** `user_metadata` attached to an identity. */
  datatype Metadata = Metadata(company: string, role: Role)

  /** An identity in the authentication store. */
  datatype User = User(id: Id, email: string, password: string, emailConfirmed: bool, metadata: Metadata)

  /** A row of the `profiles` table; timestamps are opaque ordered integers. */
  datatype Profile = Profile(
    id: Id, email: string, company: string, role: Role, isActive: bool,
    createdAt: int, updatedAt: int, lastLogin: Option<int>)

  /** Failure injection for one remote call: a normal answer, an `{error}` answer, or a throw. */
  datatype Outcome = Succeed | Fail(message: string) | Crash

  /** What a remote call returns to its caller. */
  datatype Reply<+T> = Done(value: T) | Error(message: string) | Threw

  /** No two rows share an id (the primary key of either table). */
  ghost predicate DistinctProfileIds(rows: seq<Profile>) {
    forall i, j :: 0 <= i < j < |rows| ==> rows[i].id != rows[j].id
  }

  ghost predicate DistinctUserIds(users: seq<User>) {
    forall i, j :: 0 <= i < j < |users| ==> users[i].id != users[j].id
  }

  /** `.eq('id', id)` on the profiles table. */
  function RowsWithId(rows: seq<Profile>, id: Id): seq<Profile> {
    Seqs.Filter(rows, (p: Profile) => p.id == id)
  }

  /** `.eq('email', email)` on the profiles table. */
  function RowsWithEmail(rows: seq<Profile>, email: string): seq<Profile> {
    Seqs.Filter(rows, (p: Profile) => p.email == email)
  }

  /** `.single()`: the row when exactly one row matched; `null` data when none or several did. */
  function Single(rows: seq<Profile>): (r: Option<Profile>)
    ensures r.Some? <==> |rows| == 1
    ensures r.Some? ==> r.value in rows
  {
    if |rows| == 1 then Some(rows[0]) else None
  }

  /** The profile with the given id, if there is one. */
  function ProfileById(rows: seq<Profile>, id: Id): (r: Option<Profile>)
    requires DistinctProfileIds(rows)
    ensures r.Some? ==> r.value in rows && r.value.id == id
    ensures r.None? ==> forall k :: 0 <= k < |rows| ==> rows[k].id != id
  {
    var matching := RowsWithId(rows, id);
    OnlyMatch(rows, id);
    Single(matching)
  }

  /** The profile with the given e-mail when exactly one row has it. */
  function ProfileByEmail(rows: seq<Profile>, email: string): (r: Option<Profile>)
    ensures r.Some? ==> r.value in rows && r.value.email == email
    ensures (forall k :: 0 <= k < |rows| ==> rows[k].email != email) ==> r.None?
  {
    Single(RowsWithEmail(rows, email))
  }

  /** With distinct ids, an id matches no row or exactly one. */
  lemma {:induction false} OnlyMatch(rows: seq<Profile>, id: Id)
    requires DistinctProfileIds(rows)
    ensures |RowsWithId(rows, id)| <= 1
    ensures (exists k :: 0 <= k < |rows| && rows[k].id == id) ==> |RowsWithId(rows, id)| == 1
  {
    if rows != [] {
      var p := (q: Profile) => q.id == id;
      OnlyMatch(rows[1..], id);
      assert rows == [rows[0]] + rows[1..];
      Seqs.FilterAppend([rows[0]], rows[1..], p);
      if rows[0].id == id {
        assert forall k :: 0 <= k < |rows[1..]| ==> rows[1..][k].id != id by {
          forall k | 0 <= k < |rows[1..]| ensures rows[1..][k].id != id {
            assert rows[1..][k] == rows[k + 1];
          }
        }
        Seqs.FilterNone(rows[1..], p);
      } else {
        if exists k :: 0 <= k < |rows| && rows[k].id == id {
          var k :| 0 <= k < |rows| && rows[k].id == id;
          assert rows[1..][k - 1] == rows[k];
        }
      }
    }
  }

  /** The caller holds the admin role: `profile?.role === 'admin'` for the caller's own profile. */
  predicate IsAdminProfile(rows: seq<Profile>, id: Id)
    requires DistinctProfileIds(rows)
  {
    var p := ProfileById(rows, id);
    p.Some? && p.value.role == Admin
  }

  /** `users.some(u => u.email === email)` */
  predicate HasUserWithEmail(users: seq<User>, email: string) {
    exists k :: 0 <= k < |users| && users[k].email == email
  }

  /** `users.find(u => u.email === email)`: the first identity with that e-mail. */
  function FindUserByEmail(users: seq<User>, email: string): (r: Option<User>)
    ensures r.Some? <==> HasUserWithEmail(users, email)
    ensures r.Some? ==> r.value in users && r.value.email == email
  {
    if users == [] then None
    else if users[0].email == email then Some(users[0])
    else
      var r := FindUserByEmail(users[1..], email);
      assert HasUserWithEmail(users[1..], email) ==> HasUserWithEmail(users, email) by {
        if HasUserWithEmail(users[1..], email) {
          var k :| 0 <= k < |users[1..]| && users[1..][k].email == email;
          assert users[k + 1].email == email;
        }
      }
      assert HasUserWithEmail(users, email) ==> HasUserWithEmail(users[1..], email) by {
        if HasUserWithEmail(users, email) {
          var k :| 0 <= k < |users| && users[k].email == email;
          assert users[1..][k - 1].email == email;
        }
      }
      r
  }

  /** Deleting an identity by id. */
  function WithoutUser(users: seq<User>, id: Id): seq<User> {
    Seqs.Filter(users, (u: User) => u.id != id)
  }

  /** Deleting the identity appended last restores the table as it was before the append. */
  lemma RemoveAppended(users: seq<User>, u: User)
    requires forall k :: 0 <= k < |users| ==> users[k].id != u.id
    ensures WithoutUser(users + [u], u.id) == users
  {
    var p := (v: User) => v.id != u.id;
    Seqs.FilterAppend(users, [u], p);
    Seqs.FilterKeepsAll(users, p);
  }

  /** A read of one profile row, as the SDK reports it after `.single()`. */
  function ReadById(rows: seq<Profile>, id: Id, o: Outcome): (r: Reply<Option<Profile>>)
    requires DistinctProfileIds(rows)
    ensures o.Succeed? ==> r == Done(ProfileById(rows, id))
    ensures o.Fail? ==> r == Error(o.message)
    ensures o.Crash? ==> r == Threw
  {
    match o
    case Succeed => Done(ProfileById(rows, id))
    case Fail(m) => Error(m)
    case Crash => Threw
  }

  /** A read of the profile with an e-mail, as the SDK reports it after `.single()`. */
  function ReadByEmail(rows: seq<Profile>, email: string, o: Outcome): (r: Reply<Option<Profile>>)
    ensures o.Succeed? ==> r == Done(ProfileByEmail(rows, email))
    ensures o.Fail? ==> r == Error(o.message)
    ensures o.Crash? ==> r == Threw
  {
    match o
    case Succeed => Done(ProfileByEmail(rows, email))
    case Fail(m) => Error(m)
    case Crash => Threw
  }

  /** A profile row as `.update(patch).eq('id', id)` leaves it. */
  function Patch(p: Profile, id: Id, role: Option<Role>, company: Option<string>): (q: Profile)
    ensures q.id == p.id && q.email == p.email && q.isActive == p.isActive
    ensures p.id != id ==> q == p
    ensures p.id == id ==> q.role == role.GetOr(p.role) && q.company == company.GetOr(p.company)
  {
    if p.id == id then p.(role := role.GetOr(p.role), company := company.GetOr(p.company)) else p
  }

  /** The seeded administrator and demo accounts. */
  const AdminEmail := "ray@twopelicans.ai"
  const AdminCompany := "TwoPelicans AI"
  const DemoEmail := "demo@client.com"

  /** The administrator identity both setup paths create. */
  function AdminIdentity(id: Id): (u: User)
    ensures u.id == id && u.email == AdminEmail && u.metadata.role == Admin
  {
    User(id, AdminEmail, "admin2024", true, Metadata(AdminCompany, Admin))
  }

  /** The demo client identity; the two setup paths give it different company names. */
  function DemoIdentity(id: Id, company: string): (u: User)
    ensures u.id == id && u.email == DemoEmail && u.metadata == Metadata(company, Client)
  {
    User(id, DemoEmail, "demo2024", true, Metadata(company, Client))
  }

  /** How many identities are registered under an e-mail. */
  function Registrations(users: seq<User>, email: string): nat {
    |Seqs.Filter(users, WithEmail(email))|
  }

  /** `u.email === email`, as the test the registration count filters by. */
  function WithEmail(email: string): User -> bool {
    (u: User) => u.email == email
  }

  /** Appending one identity adds one registration for its own e-mail and none for others. */
  lemma RegistrationsAppend(users: seq<User>, u: User, email: string)
    ensures Registrations(users + [u], email) == Registrations(users, email) + (if u.email == email then 1 else 0)
  {
    Seqs.FilterAppend(users, [u], WithEmail(email));
  }

  /** An e-mail is registered exactly when its count of registrations is positive. */
  lemma RegisteredIffCounted(users: seq<User>, email: string)
    ensures HasUserWithEmail(users, email) <==> Registrations(users, email) > 0
  {
    var matching := Seqs.Filter(users, WithEmail(email));
    if HasUserWithEmail(users, email) {
      var k :| 0 <= k < |users| && users[k].email == email;
      assert WithEmail(email)(users[k]);
      assert users[k] in matching;
    }
    if |matching| > 0 {
      assert matching[0] in users && WithEmail(email)(matching[0]);
      var k :| 0 <= k < |users| && users[k] == matching[0];
      assert users[k].email == email;
    }
  }

  /** Some identity has the given id. */
  predicate HasUser(users: seq<User>, id: Id) {
    exists k :: 0 <= k < |users| && users[k].id == id
  }

  /** Some profile row has this id. */
  predicate HasProfile(rows: seq<Profile>, id: Id) {
    exists k :: 0 <= k < |rows| && rows[k].id == id
  }

  /** The identity both provisioning paths create for a new client. */
  function ClientIdentity(id: Id, email: string, password: string, company: string): (u: User)
    ensures u.id == id && u.email == email && u.emailConfirmed && u.metadata.role == Client
  {
    User(id, email, password, true, Metadata(company, Client))
  }

  /** The profile row both provisioning paths insert for a new client: active, role `client`. */
  function ClientProfile(id: Id, email: string, company: string, now: int): (p: Profile)
    ensures p.id == id && p.email == email && p.role == Client && p.isActive && p.lastLogin.None?
  {
    Profile(id, email, company, Client, true, now, now, None)
  }

  /** The ordering key of listings: the creation time. */
  function CreatedAt(p: Profile): int { p.createdAt }

  /** `order('created_at', { ascending: false })`: newest rows first. */
  function NewestFirst(rows: seq<Profile>): (r: seq<Profile>)
    ensures |r| == |rows|
  {
    Sorting.SortDesc(rows, CreatedAt)
  }

  /** The listing is ordered newest first and holds exactly the table's rows. */
  lemma NewestFirstOrdered(rows: seq<Profile>)
    ensures Sorting.SortedDesc(NewestFirst(rows), CreatedAt)
    ensures multiset(NewestFirst(rows)) == multiset(rows)
  {
    Sorting.SortDescSorted(rows, CreatedAt);
    Sorting.SortDescPermutation(rows, CreatedAt);
  }

  /** The listing holds exactly the table's rows. */
  lemma NewestFirstSameRows(rows: seq<Profile>)
    ensures forall k :: 0 <= k < |rows| ==> rows[k] in NewestFirst(rows)
    ensures forall x :: x in NewestFirst(rows) ==> x in rows
  {
    var listed := NewestFirst(rows);
    NewestFirstOrdered(rows);
    forall k | 0 <= k < |rows| ensures rows[k] in listed {
      assert rows[k] in multiset(rows);
    }
    forall x | x in listed ensures x in rows {
      assert x in multiset(listed);
    }
  }

  /** The identity service's answer to a second registration of an e-mail. */
  const EmailTaken := "A user with this email address has already been registered"
  /** The database's answers to a profile row whose id names no identity, or is already taken. */
  const ForeignKeyViolation := "insert or update on table \"profiles\" violates foreign key constraint \"profiles_id_fkey\""
  const DuplicateKey := "duplicate key value violates unique constraint \"profiles_pkey\""

  /** The remote store: identities, profiles and the id counter. */
  class Store {
    var users: seq<User>
    var profiles: seq<Profile>
    var nextId: Id

    /** Ids below the counter are the only ones issued, and both tables have distinct ids. */
    ghost predicate Valid()
      reads this
    {
      && (forall k :: 0 <= k < |users| ==> users[k].id < nextId)
      && (forall k :: 0 <= k < |profiles| ==> profiles[k].id < nextId)
      && DistinctUserIds(users)
      && DistinctProfileIds(profiles)
    }

    constructor (users0: seq<User>, profiles0: seq<Profile>, nextId0: Id)
      requires forall k :: 0 <= k < |users0| ==> users0[k].id < nextId0
      requires forall k :: 0 <= k < |profiles0| ==> profiles0[k].id < nextId0
      requires DistinctUserIds(users0) && DistinctProfileIds(profiles0)
      ensures Valid()
      ensures users == users0 && profiles == profiles0 && nextId == nextId0
    {
      users, profiles, nextId := users0, profiles0, nextId0;
    }

    /**
     * `auth.admin.createUser({email, password, email_confirm: true, user_metadata})`; the
     * service refuses an e-mail that is already registered.
     */
    method CreateUser(email: string, password: string, meta: Metadata, o: Outcome) returns (r: Reply<User>)
      requires Valid()
      modifies this
      ensures Valid() && profiles == old(profiles)
      ensures o.Succeed? && !HasUserWithEmail(old(users), email) ==>
                && r == Done(User(old(nextId), email, password, true, meta))
                && users == old(users) + [r.value] && nextId == old(nextId) + 1
      ensures o.Succeed? && HasUserWithEmail(old(users), email) ==>
                r == Error(EmailTaken) && users == old(users) && nextId == old(nextId)
      ensures o.Fail? ==> r == Error(o.message) && users == old(users) && nextId == old(nextId)
      ensures o.Crash? ==> r == Threw && users == old(users) && nextId == old(nextId)
    {
      match o {
        case Succeed =>
          if HasUserWithEmail(users, email) {
            return Error(EmailTaken);
          }
          var u := User(nextId, email, password, true, meta);
          users := users + [u];
          nextId := nextId + 1;
          r := Done(u);
        case Fail(m) => r := Error(m);
        case Crash => r := Threw;
      }
    }

    /** `auth.admin.deleteUser(id)`; profile rows are left as they are (no cascade is modelled). */
    method DeleteUser(id: Id, o: Outcome) returns (r: Reply<()>)
      requires Valid()
      modifies this
      ensures Valid() && profiles == old(profiles) && nextId == old(nextId)
      ensures r.Done? <==> o.Succeed? && exists k :: 0 <= k < |old(users)| && old(users)[k].id == id
      ensures r.Done? ==> users == WithoutUser(old(users), id)
      ensures !r.Done? ==> users == old(users)
      ensures o.Fail? ==> r == Error(o.message)
      ensures o.Crash? <==> r.Threw?
    {
      match o {
        case Succeed =>
          if exists k :: 0 <= k < |users| && users[k].id == id {
            var kept := WithoutUser(users, id);
            assert forall k :: 0 <= k < |kept| ==> kept[k] in users;
            KeptDistinct(users, id);
            users := kept;
            r := Done(());
          } else {
            r := Error("User not found");
          }
        case Fail(m) => r := Error(m);
        case Crash => r := Threw;
      }
    }

    /** Nothing in the store differs from the state before the call. */
    twostate predicate Kept()
      reads this
    {
      users == old(users) && profiles == old(profiles) && nextId == old(nextId)
    }

    /**
     * `from('profiles').insert(row)`: refused when the id is already present (primary key) or
     * names no identity (the profile id references the identity table).
     */
    method InsertProfile(row: Profile, o: Outcome) returns (r: Reply<()>)
      requires Valid()
      modifies this
      ensures Valid() && users == old(users) && nextId == old(nextId)
      ensures r.Done? <==> o.Succeed? && HasUser(users, row.id) && !HasProfile(old(profiles), row.id)
      ensures r.Done? ==> profiles == old(profiles) + [row]
      ensures !r.Done? ==> profiles == old(profiles)
      ensures o.Fail? ==> r == Error(o.message)
      ensures o.Crash? <==> r.Threw?
    {
      var known, taken := HasUser(users, row.id), HasProfile(profiles, row.id);
      match o {
        case Succeed =>
          if !known {
            r := Error(ForeignKeyViolation);
          } else if !taken {
            ghost var owner :| 0 <= owner < |users| && users[owner].id == row.id;
            AppendProfile(profiles, row, nextId);
            profiles := profiles + [row];
            r := Done(());
          } else {
            r := Error(DuplicateKey);
          }
        case Fail(m) => r := Error(m);
        case Crash => r := Threw;
      }
    }

    /** `from('profiles').update(patch).eq('id', id)`: touching no row is not an error. */
    method UpdateProfile(id: Id, role: Option<Role>, company: Option<string>, o: Outcome) returns (r: Reply<()>)
      requires Valid()
      modifies this
      ensures Valid() && users == old(users) && nextId == old(nextId)
      ensures r.Done? <==> o.Succeed?
      ensures |profiles| == |old(profiles)|
      ensures r.Done? ==> forall k :: 0 <= k < |profiles| ==> profiles[k] == Patch(old(profiles)[k], id, role, company)
      ensures !HasProfile(old(profiles), id) ==> profiles == old(profiles)
      ensures !r.Done? ==> profiles == old(profiles)
      ensures o.Fail? ==> r == Error(o.message)
      ensures o.Crash? <==> r.Threw?
    {
      match o {
        case Succeed =>
          var rows := profiles;
          profiles := seq(|rows|, k requires 0 <= k < |rows| => Patch(rows[k], id, role, company));
          assert !HasProfile(rows, id) ==> profiles == rows;
          r := Done(());
        case Fail(m) => r := Error(m);
        case Crash => r := Threw;
      }
    }
  }

  /** Appending a row with a new id below the bound keeps the table's ids distinct and bounded. */
  lemma AppendProfile(rows: seq<Profile>, row: Profile, bound: Id)
    requires DistinctProfileIds(rows) && forall k :: 0 <= k < |rows| ==> rows[k].id != row.id
    requires (forall k :: 0 <= k < |rows| ==> rows[k].id < bound) && row.id < bound
    ensures DistinctProfileIds(rows + [row])
    ensures forall k :: 0 <= k < |rows + [row]| ==> (rows + [row])[k].id < bound
  {
    var t := rows + [row];
    assert forall k :: 0 <= k < |rows| ==> t[k] == rows[k];
  }

  /** Removing rows keeps the surviving ids distinct. */
  lemma {:induction false} KeptDistinct(users: seq<User>, id: Id)
    requires DistinctUserIds(users)
    ensures DistinctUserIds(WithoutUser(users, id))
  {
    if users != [] {
      var tail := users[1..];
      TailDistinct(users);
      KeptDistinct(tail, id);
      var rest := WithoutUser(tail, id);
      assert WithoutUser(users, id) == (if users[0].id != id then [users[0]] else []) + rest;
      if users[0].id != id {
        HeadIdNotInTail(users);
        assert forall x :: x in rest ==> x in tail;
        ConsDistinct(users[0], rest);
      }
    }
  }

  lemma TailDistinct(users: seq<User>)
    requires DistinctUserIds(users) && users != []
    ensures DistinctUserIds(users[1..])
  {
    var tail := users[1..];
    forall i, j | 0 <= i < j < |tail| ensures tail[i].id != tail[j].id {
      assert tail[i] == users[i + 1] && tail[j] == users[j + 1];
    }
  }

  lemma HeadIdNotInTail(users: seq<User>)
    requires DistinctUserIds(users) && users != []
    ensures forall x :: x in users[1..] ==> x.id != users[0].id
  {
    forall x | x in users[1..] ensures x.id != users[0].id {
      var k :| 0 <= k < |users[1..]| && users[1..][k] == x;
      assert users[k + 1] == x;
    }
  }

  lemma ConsDistinct(u: User, rest: seq<User>)
    requires DistinctUserIds(rest) && forall x :: x in rest ==> x.id != u.id
    ensures DistinctUserIds([u] + rest)
  {
    var r := [u] + rest;
    forall i, j | 0 <= i < j < |r| ensures r[i].id != r[j].id {
      assert r[j] == rest[j - 1];
      if i > 0 {
        assert r[i] == rest[i - 1];
      }
    }
  }
}
