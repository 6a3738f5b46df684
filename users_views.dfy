/** The user endpoints: who may call which action, which serializer it uses, and which users it sees. */
module UserApi {
  import opened Wrappers
  import Http
  import Users
  import UserSerializers

  datatype Action = Create | List | Retrieve | Update | PartialUpdate | Destroy | Me | UpdateProfile

  datatype Permission = AllowAny | IsAuthenticated

  datatype Serializer = UserSerializer | UserRegistrationSerializer | UserProfileSerializer

  /** `get_permissions`: registration is open, everything else needs a signed-in user. */
  function PermissionFor(a: Action): (p: Permission)
    ensures p == AllowAny <==> a == Create
    ensures p == IsAuthenticated <==> a != Create
  {
    if a == Create then AllowAny else IsAuthenticated
  }

  /** `get_serializer_class`. */
  function SerializerFor(a: Action): (s: Serializer)
    ensures s == UserRegistrationSerializer <==> a == Create
    ensures s == UserProfileSerializer <==> a == Me || a == UpdateProfile
    ensures s == UserSerializer <==> a !in {Create, Me, UpdateProfile}
  {
    if a == Create then UserRegistrationSerializer
    else if a == Me || a == UpdateProfile then UserProfileSerializer
    else UserSerializer
  }

  /** Staff and superusers see the whole table. */
  predicate SeesAll(caller: Option<Users.User>)
  {
    caller.Some? && (caller.value.isStaff || caller.value.isSuperuser)
  }

  /** The rows whose primary key is the caller's; none for an anonymous caller. */
  function OwnRows(caller: Option<Users.User>, us: seq<Users.User>): (r: seq<Users.User>)
    ensures forall u :: u in r <==> u in us && caller.Some? && u.id == caller.value.id
  {
    if us == [] || caller.None? then []
    else
      var n := |us| - 1;
      var init := OwnRows(caller, us[..n]);
      assert us == us[..n] + [us[n]];
      if us[n].id == caller.value.id then init + [us[n]] else init
  }

  /** `get_queryset`: everything for staff and superusers, otherwise the caller's own row. */
  function Queryset(caller: Option<Users.User>, us: seq<Users.User>): (r: seq<Users.User>)
    ensures SeesAll(caller) ==> r == us
    ensures !SeesAll(caller) ==> forall u :: u in r <==> u in us && caller.Some? && u.id == caller.value.id
  {
    if SeesAll(caller) then us else OwnRows(caller, us)
  }

  /** An ordinary user, renter or provider, never sees another user's row. */
  lemma OrdinaryUsersSeeOnlyThemselves(caller: Users.User, us: seq<Users.User>, u: Users.User)
    requires !caller.isStaff && !caller.isSuperuser
    requires u in Queryset(Some(caller), us)
    ensures u.id == caller.id
  {
  }

  /** The profile fields a client may write; the rest of the profile is read-only. */
  const ProfileWritable: set<string> :=
    {"username", "email", "first_name", "last_name", "user_type", "phone", "profile_image",
     "location_lat", "location_lng"}

  /** The `auto_now` timestamp, which every save of the user row refreshes. */
  const UpdatedAt: string := "updated_at"

  /** The response of `update_profile`: the status and the profile it leaves stored. */
  datatype ProfileResponse = ProfileResponse(code: int, profile: map<string, string>)

  /**
   * The partial save: each writable field present in the request replaces
   * the stored value and every other field is kept.
   */
  function Merged(profile: map<string, string>, data: map<string, string>): (r: map<string, string>)
    ensures r.Keys == profile.Keys + (data.Keys * ProfileWritable)
    ensures forall k :: k in data && k in ProfileWritable ==> r[k] == data[k]
    ensures forall k :: k in profile && (k !in data || k !in ProfileWritable) ==> r[k] == profile[k]
  {
    map k | k in profile.Keys + (data.Keys * ProfileWritable) ::
      if k in data && k in ProfileWritable then data[k] else profile[k]
  }

  /** Some user other than `caller` already has this username. */
  predicate UsernameHeldByOther(caller: Users.User, users: seq<Users.User>, name: string)
  {
    exists i :: 0 <= i < |users| && users[i].id != caller.id && users[i].username == name
  }

  /** Some user other than `caller` already has this email. */
  predicate EmailHeldByOther(caller: Users.User, users: seq<Users.User>, email: string)
  {
    exists i :: 0 <= i < |users| && users[i].id != caller.id && users[i].email == email
  }

  /**
   * What `is_valid` refuses in a partial profile update: a sent username
   * or email that is blank or that another user holds (the unique
   * validators exclude the caller's own row), a `user_type` outside the
   * choice set, and any other field-format error, which `fieldsValid`
   * stands for.
   */
  predicate Refused(caller: Users.User, users: seq<Users.User>, data: map<string, string>, fieldsValid: bool)
  {
    || ("username" in data && (data["username"] == "" || UsernameHeldByOther(caller, users, data["username"])))
    || ("email" in data && (data["email"] == "" || EmailHeldByOther(caller, users, data["email"])))
    || ("user_type" in data && data["user_type"] !in Users.UserTypeNames)
    || !fieldsValid
  }

  /**
   * `update_profile`: a refused request is a 400 that leaves the profile
   * as it was; otherwise 200 with the partial save applied and, since the
   * save refreshes the `auto_now` column, `updated_at` set to `savedAt`,
   * the time of the save as the serializer renders it.
   */
  function PartialUpdate(caller: Users.User, users: seq<Users.User>, profile: map<string, string>,
                         data: map<string, string>, fieldsValid: bool, savedAt: string): (r: ProfileResponse)
    ensures r.code == Http.BadRequest <==> Refused(caller, users, data, fieldsValid)
    ensures r.code != Http.BadRequest ==> r.code == Http.Ok
    ensures r.code == Http.BadRequest ==> r.profile == profile
    ensures r.code == Http.Ok ==> r.profile == Merged(profile, data)[UpdatedAt := savedAt]
    ensures r.code == Http.Ok ==> UpdatedAt in r.profile && r.profile[UpdatedAt] == savedAt
    ensures r.code == Http.Ok && "username" in data ==>
      r.profile["username"] == data["username"] && !UsernameHeldByOther(caller, users, data["username"])
    ensures r.code == Http.Ok && "email" in data ==>
      r.profile["email"] == data["email"] && !EmailHeldByOther(caller, users, data["email"])
  {
    if Refused(caller, users, data, fieldsValid) then ProfileResponse(Http.BadRequest, profile)
    else ProfileResponse(Http.Ok, Merged(profile, data)[UpdatedAt := savedAt])
  }

  /**
   * No update, refused or not, changes a read-only field other than the
   * `auto_now` timestamp; an accepted empty update changes nothing but
   * that timestamp, and a refused one changes nothing at all.
   */
  lemma PartialUpdateKeepsReadOnly(caller: Users.User, users: seq<Users.User>, profile: map<string, string>,
                                   data: map<string, string>, fieldsValid: bool, savedAt: string)
    ensures forall k :: k in profile && k in UserSerializers.ReadOnlyFields - {UpdatedAt} ==>
      k in PartialUpdate(caller, users, profile, data, fieldsValid, savedAt).profile
      && PartialUpdate(caller, users, profile, data, fieldsValid, savedAt).profile[k] == profile[k]
    ensures PartialUpdate(caller, users, profile, map[], fieldsValid, savedAt).profile
      == if fieldsValid then profile[UpdatedAt := savedAt] else profile
  {
  }

  /** The caller's row after an accepted update: the sent username and email replace the stored ones. */
  function Renamed(u: Users.User, data: map<string, string>): (v: Users.User)
    ensures v.id == u.id
    ensures v.username == (if "username" in data then data["username"] else u.username)
    ensures v.email == (if "email" in data then data["email"] else u.email)
  {
    u.(username := if "username" in data then data["username"] else u.username,
       email := if "email" in data then data["email"] else u.email)
  }

  /**
   * An accepted profile update keeps the unique columns unique: with
   * distinct primary keys, the caller's renamed row clashes with no
   * other row.
   */
  lemma {:induction false} UpdateKeepsIdentitiesUnique(users: seq<Users.User>, c: nat, profile: map<string, string>,
                                     data: map<string, string>, fieldsValid: bool, savedAt: string)
    requires c < |users|
    requires Users.UniqueIdentities(users)
    requires forall i, j :: 0 <= i < j < |users| ==> users[i].id != users[j].id
    requires PartialUpdate(users[c], users, profile, data, fieldsValid, savedAt).code == Http.Ok
    ensures Users.UniqueIdentities(users[c := Renamed(users[c], data)])
  {
    var vs := users[c := Renamed(users[c], data)];
    forall i, j | 0 <= i < j < |vs|
      ensures vs[i].username != vs[j].username && vs[i].email != vs[j].email
    {
      if i == c || j == c {
        var o := if i == c then j else i;
        assert users[o].id != users[c].id;
        assert vs[o] == users[o];
        if "username" in data {
          assert !UsernameHeldByOther(users[c], users, data["username"]);
        }
        if "email" in data {
          assert !EmailHeldByOther(users[c], users, data["email"]);
        }
      }
    }
  }
}
