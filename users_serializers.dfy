/** The user serializers: registration checks, the `has_shop` field and the profile's read-only fields. */
module UserSerializers {
  import opened Wrappers
  import Users
  import Shops

  /** Fields the user and profile serializers never write. */
  const ReadOnlyFields: set<string> := {"id", "is_verified", "created_at", "updated_at", "has_shop"}

  /** The registration fields that are required and may not be blank. */
  const RequiredFields: set<string> := {"username", "email", "password", "password_confirm"}

  /** A field that is sent and is not blank. */
  predicate Present(attrs: map<string, string>, f: string)
  {
    f in attrs && attrs[f] != ""
  }

  /**
   * The field-level errors of `UserRegistrationSerializer`, each keyed by
   * its field: a required field missing or blank; a username or an email
   * some user already has (the unique validators derived from the unique
   * columns); a `user_type` outside the choice set; and a password that
   * Django's `validate_password` refuses, which `passwordAccepted` stands
   * for (the configured password validators are not part of this model).
   */
  function FieldErrors(attrs: map<string, string>, users: seq<Users.User>, passwordAccepted: bool): (errors: set<string>)
    ensures errors <= RequiredFields + {"user_type"}
    ensures "username" in errors <==> !Present(attrs, "username") || Users.UsernameTaken(users, attrs["username"])
    ensures "email" in errors <==> !Present(attrs, "email") || Users.EmailTaken(users, attrs["email"])
    ensures "password" in errors <==> !Present(attrs, "password") || !passwordAccepted
    ensures "password_confirm" in errors <==> !Present(attrs, "password_confirm")
    ensures "user_type" in errors <==> "user_type" in attrs && attrs["user_type"] !in Users.UserTypeNames
  {
    (if !Present(attrs, "username") || Users.UsernameTaken(users, attrs["username"]) then {"username"} else {})
    + (if !Present(attrs, "email") || Users.EmailTaken(users, attrs["email"]) then {"email"} else {})
    + (if !Present(attrs, "password") || !passwordAccepted then {"password"} else {})
    + (if !Present(attrs, "password_confirm") then {"password_confirm"} else {})
    + (if "user_type" in attrs && attrs["user_type"] !in Users.UserTypeNames then {"user_type"} else {})
  }

  /**
   * Registration validation: the field errors when there are any;
   * otherwise `validate`, which refuses differing passwords under
   * `password`. The error set is empty exactly when every required field
   * is sent, the username and email are free, the user type is a valid
   * choice, the password is accepted and the two passwords agree.
   */
  function ValidateRegistration(attrs: map<string, string>, users: seq<Users.User>, passwordAccepted: bool): (errors: set<string>)
    ensures errors == {} <==>
      && (forall f :: f in RequiredFields ==> Present(attrs, f))
      && !Users.Taken(users, attrs["username"], attrs["email"])
      && ("user_type" in attrs ==> attrs["user_type"] in Users.UserTypeNames)
      && passwordAccepted
      && attrs["password"] == attrs["password_confirm"]
    ensures FieldErrors(attrs, users, passwordAccepted) != {} ==> errors == FieldErrors(attrs, users, passwordAccepted)
    ensures FieldErrors(attrs, users, passwordAccepted) == {} && errors != {} ==> errors == {"password"}
  {
    var fieldErrors := FieldErrors(attrs, users, passwordAccepted);
    if fieldErrors != {} then fieldErrors
    else if attrs["password"] != attrs["password_confirm"] then {"password"}
    else {}
  }

  /** `create`: the fields handed to `create_user` are the validated ones without the confirmation. */
  function UserFields(validated: map<string, string>): (fields: map<string, string>)
    requires "password_confirm" in validated
    ensures "password_confirm" !in fields
    ensures fields.Keys == validated.Keys - {"password_confirm"}
    ensures forall k :: k in fields ==> fields[k] == validated[k]
  {
    validated - {"password_confirm"}
  }

  /**
   * The row `create_user(**fields)` stores: the model defaults with the
   * sent username and email, and the sent `user_type` when there is one
   * (the model default, renter, otherwise).
   */
  function RegisteredUser(fields: map<string, string>, id: nat, now: int): (u: Users.User)
    requires "username" in fields && "email" in fields
    ensures u.id == id && u.username == fields["username"] && u.email == fields["email"] && u.dateJoined == now
    ensures u.userType == Users.Provider <==> "user_type" in fields && fields["user_type"] == "provider"
    ensures !u.isVerified && u.isActive && !u.isStaff && !u.isSuperuser
  {
    var u := Users.NewUser(id, fields["username"], fields["email"], now);
    if "user_type" in fields && fields["user_type"] == "provider" then u.(userType := Users.Provider) else u
  }

  /**
   * After a successful validation the password handed to `create_user`
   * is the confirmed one, the stored role is the one sent, and the new
   * row keeps usernames and emails unique.
   */
  lemma CreatedPasswordConfirmed(validated: map<string, string>, users: seq<Users.User>, passwordAccepted: bool, now: int)
    requires ValidateRegistration(validated, users, passwordAccepted) == {}
    requires Users.UniqueIdentities(users)
    ensures "password" in validated && "password_confirm" in validated
    ensures "username" in UserFields(validated) && "email" in UserFields(validated)
    ensures UserFields(validated)["password"] == validated["password_confirm"]
    ensures "user_type" in validated ==> validated["user_type"] in Users.UserTypeNames
    ensures Users.UniqueIdentities(users + [RegisteredUser(UserFields(validated), |users|, now)])
  {
    assert "username" in RequiredFields && "email" in RequiredFields;
    Users.AppendFreeKeepsUnique(users, RegisteredUser(UserFields(validated), |users|, now));
  }

  /** `get_has_shop`: the user owns at least one shop. */
  predicate HasShop(shops: seq<Shops.Shop>, user: nat)
    reads shops
  {
    exists i :: 0 <= i < |shops| && shops[i].owner == user
  }
}
