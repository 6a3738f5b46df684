/**
 * The custom user model: two roles, a verification flag, and the users
 * table that the setup and admin endpoints change.
 */
module Users {
  import opened Wrappers

  /** `user_type`; the choice set has exactly these two values. */
  datatype UserType = Renter | Provider

  /** The fields of a user that the modelled rules read. */
  datatype User = User(
    id: nat,
    username: string,
    email: string,
    userType: UserType,
    isStaff: bool,
    isSuperuser: bool,
    isActive: bool,
    isVerified: bool,
    dateJoined: int)

  /** A freshly registered user: renter, not verified, active, no staff rights. */
  function NewUser(id: nat, username: string, email: string, joined: int): (u: User)
    ensures u.userType == Renter && !u.isVerified && u.isActive
    ensures !u.isStaff && !u.isSuperuser
    ensures u.id == id && u.username == username && u.email == email && u.dateJoined == joined
  {
    User(id, username, email, Renter, false, false, true, false, joined)
  }

  predicate IsProvider(u: User)
  {
    u.userType == Provider
  }

  predicate IsRenter(u: User)
  {
    u.userType == Renter
  }

  /** With a two-value choice set, every user has exactly one role. */
  lemma ExactlyOneRole(u: User)
    ensures IsProvider(u) != IsRenter(u)
    ensures IsProvider(u) <==> u.userType == Provider
    ensures IsRenter(u) <==> u.userType == Renter
  {
  }

  /** True iff some user of `us` is a superuser. */
  predicate AnySuperuser(us: seq<User>)
  {
    exists i :: 0 <= i < |us| && us[i].isSuperuser
  }

  /**
   * The unique columns: `username` (from the abstract user model) and
   * `email` (declared unique on this model). No two rows share either.
   */
  predicate UniqueIdentities(us: seq<User>)
  {
    forall i, j :: 0 <= i < j < |us| ==> us[i].username != us[j].username && us[i].email != us[j].email
  }

  predicate UsernameTaken(us: seq<User>, username: string)
  {
    exists i :: 0 <= i < |us| && us[i].username == username
  }

  predicate EmailTaken(us: seq<User>, email: string)
  {
    exists i :: 0 <= i < |us| && us[i].email == email
  }

  /** Some row already holds this username or this email: an insert would violate a unique column. */
  predicate Taken(us: seq<User>, username: string, email: string)
  {
    UsernameTaken(us, username) || EmailTaken(us, email)
  }

  /** The `user_type` strings the choice set admits. */
  const UserTypeNames: set<string> := {"renter", "provider"}

  /** Appending a row whose username and email are free keeps both columns unique. */
  lemma AppendFreeKeepsUnique(us: seq<User>, u: User)
    requires UniqueIdentities(us)
    requires !Taken(us, u.username, u.email)
    ensures UniqueIdentities(us + [u])
  {
    var vs := us + [u];
    forall i, j | 0 <= i < j < |vs|
      ensures vs[i].username != vs[j].username && vs[i].email != vs[j].email
    {
      if j == |us| {
        assert vs[i] == us[i];
      }
    }
  }

  /** The users table (`User.objects`). */
  class UserTable {
    var users: seq<User>

    constructor (initial: seq<User>)
      ensures users == initial
    {
      users := initial;
    }

    /** Appends a user row; ids are positions in the table. */
    method Add(u: User) returns (id: nat)
      modifies this
      ensures id == |old(users)|
      ensures users == old(users) + [u]
    {
      id := |users|;
      users := users + [u];
    }

    /** Replaces row `i` (the effect of `user.save()` after an in-place change). */
    method Put(i: nat, u: User)
      requires i < |users|
      modifies this
      ensures users == old(users)[i := u]
    {
      users := users[i := u];
    }
  }
}
