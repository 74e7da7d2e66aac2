/**
 * Registration (accounts/serializers.py, RegisterSerializer): the payload's
 * validation, the defaults it fills in, and the user and profile rows it
 * creates.
 */
module Accounts {
  import opened Wrappers
  import opened Text

  type UserId = nat
  type ProfileId = nat

  datatype UserType = Mentor | Learner

  /** The codes `UserProfile.USER_TYPES` accepts. */
  function UserTypeCode(t: UserType): (code: string)
    ensures 0 < |code| <= 10
  {
    match t
    case Mentor => "MENTOR"
    case Learner => "LEARNER"
  }

  /** The `user_type` choice field: exactly the two codes are accepted. */
  function ParseUserType(code: string): (r: Option<UserType>)
    ensures r.Some? ==> UserTypeCode(r.value) == code
    ensures r.None? ==> forall t :: UserTypeCode(t) != code
  {
    if code == "MENTOR" then Some(Mentor)
    else if code == "LEARNER" then Some(Learner)
    else None
  }

  lemma UserTypeRoundTrip(t: UserType)
    ensures ParseUserType(UserTypeCode(t)) == Some(t)
  {
  }

  /** The fields a registration request carries; `bio` and `timezone` may be absent. */
  datatype RegisterPayload = RegisterPayload(
    username: string,
    email: string,
    firstName: string,
    lastName: string,
    password: string,
    passwordConfirm: string,
    userType: string,
    bio: Option<string>,
    timezone: Option<string>)

  /** The validated data `create` works from. It has no place for the confirmation. */
  datatype Registration = Registration(
    username: string,
    email: string,
    firstName: string,
    lastName: string,
    password: string,
    userType: UserType,
    bio: string,
    timezone: string)

  datatype AccountError =
    | BlankField            // "This field may not be blank." from a character field
    | InvalidUserType       // the choice field refuses the code
    | PasswordsDontMatch    // "Passwords don't match"
    | UsernameTaken         // the user table's unique username refuses the insert

  const DefaultTimezone := "UTC"

  /**
   * The character fields strip surrounding whitespace and, all but `bio`,
   * refuse a value left empty: every required one, and `timezone` when given.
   */
  predicate FieldsPresent(p: RegisterPayload) {
    && !Blank(p.username) && !Blank(p.email) && !Blank(p.firstName) && !Blank(p.lastName)
    && !Blank(p.password) && !Blank(p.passwordConfirm)
    && (p.timezone.None? || !Blank(p.timezone.value))
  }

  /**
   * Field validation (the character fields strip their values; the choice
   * field does not), then `validate` on the stripped passwords, then the
   * defaults of `create`: a missing bio becomes "" and a missing timezone
   * "UTC". Field errors come back together in one 400; the model names the
   * blank field's first.
   */
  function Validate(p: RegisterPayload): (r: Result<Registration, AccountError>)
    ensures r == Err(BlankField) <==> !FieldsPresent(p)
    ensures r == Err(InvalidUserType) <==> FieldsPresent(p) && ParseUserType(p.userType).None?
    ensures r == Err(PasswordsDontMatch) <==>
              FieldsPresent(p) && ParseUserType(p.userType).Some? && Trim(p.password) != Trim(p.passwordConfirm)
    ensures r.Ok? <==> FieldsPresent(p) && ParseUserType(p.userType).Some? && Trim(p.password) == Trim(p.passwordConfirm)
    ensures r.Ok? ==> UserTypeCode(r.value.userType) == p.userType
    ensures r.Ok? ==> r.value.bio == (if p.bio.Some? then Trim(p.bio.value) else "")
    ensures r.Ok? ==> r.value.timezone == (if p.timezone.Some? then Trim(p.timezone.value) else "UTC")
    ensures r.Ok? ==> r.value.username == Trim(p.username) && r.value.email == Trim(p.email)
                      && r.value.password == Trim(p.password)
    ensures r.Ok? ==> r.value.firstName == Trim(p.firstName) && r.value.lastName == Trim(p.lastName)
    ensures r.Ok? ==> r.value.username != "" && r.value.email != "" && r.value.password != ""
                      && r.value.firstName != "" && r.value.lastName != "" && r.value.timezone != ""
  {
    if !FieldsPresent(p) then Err(BlankField)
    else match ParseUserType(p.userType)
      case None => Err(InvalidUserType)
      case Some(t) =>
        if Trim(p.password) != Trim(p.passwordConfirm) then Err(PasswordsDontMatch)
        else
          PresentFieldsStayNonEmpty(p);
          Ok(Registration(Trim(p.username), Trim(p.email), Trim(p.firstName), Trim(p.lastName), Trim(p.password), t,
                          if p.bio.Some? then Trim(p.bio.value) else "",
                          if p.timezone.Some? then Trim(p.timezone.value) else DefaultTimezone))
  }

  /** A field that is not blank is not empty once stripped. */
  lemma PresentFieldsStayNonEmpty(p: RegisterPayload)
    requires FieldsPresent(p)
    ensures Trim(p.username) != "" && Trim(p.email) != "" && Trim(p.password) != ""
    ensures Trim(p.firstName) != "" && Trim(p.lastName) != ""
    ensures p.timezone.Some? ==> Trim(p.timezone.value) != ""
  {
    TrimEmptyIffBlank(p.username);
    TrimEmptyIffBlank(p.email);
    TrimEmptyIffBlank(p.firstName);
    TrimEmptyIffBlank(p.lastName);
    TrimEmptyIffBlank(p.password);
    if p.timezone.Some? {
      TrimEmptyIffBlank(p.timezone.value);
    }
  }

  /**
   * The passwords are compared after stripping: a confirmation that differs
   * only by a trailing space is accepted, and the stripped password is kept.
   */
  lemma StrippedPasswordsMatch()
    ensures var p := RegisterPayload("ann", "ann@example.com", "Ann", "Lee", "secret ", "secret", "LEARNER", None, None);
      Validate(p).Ok? && Validate(p).value.password == "secret"
  {
    var p := RegisterPayload("ann", "ann@example.com", "Ann", "Lee", "secret ", "secret", "LEARNER", None, None);
    assert TrimStart("secret") == "secret" && TrimEnd("secret") == "secret";
    assert Trim("secret ") == "secret" by {
      assert TrimStart("secret ") == "secret ";
      assert "secret "[..|"secret "| - 1] == "secret";
    }
    assert FieldsPresent(p) by {
      assert !IsWhitespace(p.username[0]) && !IsWhitespace(p.email[0]) && !IsWhitespace(p.firstName[0]);
      assert !IsWhitespace(p.lastName[0]) && !IsWhitespace(p.password[0]) && !IsWhitespace(p.passwordConfirm[0]);
    }
  }


  /** The confirmation matters only through the equality check. */
  lemma ConfirmationNotKept(p: RegisterPayload, q: RegisterPayload)
    requires p.(passwordConfirm := q.passwordConfirm) == q
    requires Validate(p).Ok? && Validate(q).Ok?
    ensures Validate(p) == Validate(q)
  {
  }

  /** `password` is the credential handed to `create_user`. */
  datatype User = User(id: UserId, username: string, email: string, firstName: string, lastName: string, password: string)

  datatype UserProfile = UserProfile(id: ProfileId, user: UserId, userType: UserType, bio: string, timezone: string)

  ghost predicate AccountsWellFormed(users: seq<User>, profiles: seq<UserProfile>, nextUserId: nat, nextProfileId: nat) {
    && (forall i :: 0 <= i < |users| ==> users[i].id < nextUserId)
    && (forall i, j :: 0 <= i < j < |users| ==> users[i].id != users[j].id && users[i].username != users[j].username)
    && (forall i :: 0 <= i < |profiles| ==> profiles[i].id < nextProfileId && profiles[i].user < nextUserId)
    && (forall i, j :: 0 <= i < j < |profiles| ==> profiles[i].id != profiles[j].id && profiles[i].user != profiles[j].user)
  }

  predicate UsernameInUse(users: seq<User>, username: string) {
    exists i :: 0 <= i < |users| && users[i].username == username
  }

  /** A new user with a free username, and one profile for it, keep the tables well formed. */
  lemma AddAccountKeepsWellFormed(users: seq<User>, profiles: seq<UserProfile>, nextUserId: nat, nextProfileId: nat,
                                  u: User, profile: UserProfile)
    requires AccountsWellFormed(users, profiles, nextUserId, nextProfileId)
    requires u.id == nextUserId && !UsernameInUse(users, u.username)
    requires profile.id == nextProfileId && profile.user == u.id
    ensures AccountsWellFormed(users + [u], profiles + [profile], nextUserId + 1, nextProfileId + 1)
  {
  }

  /** The `User` and `UserProfile` tables; each user has at most one profile. */
  class AccountTable {
    var users: seq<User>
    var profiles: seq<UserProfile>
    var nextUserId: nat
    var nextProfileId: nat

    ghost predicate Valid()
      reads this
    {
      AccountsWellFormed(users, profiles, nextUserId, nextProfileId)
    }

    constructor ()
      ensures Valid() && users == [] && profiles == []
    {
      users, profiles := [], [];
      nextUserId, nextProfileId := 1, 1;
    }

    /**
     * `POST /register/`: validate, create the user, then create exactly one
     * profile linked to it with the given type and the defaulted bio and
     * timezone.
     */
    method Register(p: RegisterPayload) returns (r: Result<UserProfile, AccountError>)
      requires Valid()
      modifies this
      ensures Valid()
      ensures Validate(p).Err? ==> r == Err(Validate(p).error)
      ensures Validate(p).Ok? && UsernameInUse(old(users), Validate(p).value.username) <==> r == Err(UsernameTaken)
      ensures r.Ok? <==> Validate(p).Ok? && !UsernameInUse(old(users), Validate(p).value.username)
      ensures r.Err? ==> users == old(users) && profiles == old(profiles)
      ensures r.Ok? ==> var reg := Validate(p).value;
        && |users| == |old(users)| + 1 && users[..|old(users)|] == old(users)
        && users[|old(users)|] == User(r.value.user, reg.username, reg.email, reg.firstName, reg.lastName, reg.password)
        && profiles == old(profiles) + [r.value]
        && r.value == UserProfile(r.value.id, r.value.user, reg.userType, reg.bio, reg.timezone)
        && (forall i :: 0 <= i < |old(users)| ==> old(users)[i].id != r.value.user)
        && (forall i :: 0 <= i < |profiles| && profiles[i].user == r.value.user ==> profiles[i] == r.value)
    {
      var reg := Validate(p);
      if reg.Err? {
        return Err(reg.error);
      }
      if UsernameInUse(users, reg.value.username) {
        return Err(UsernameTaken);
      }
      var v := reg.value;
      var u := User(nextUserId, v.username, v.email, v.firstName, v.lastName, v.password);
      var profile := UserProfile(nextProfileId, u.id, v.userType, v.bio, v.timezone);
      AddAccountKeepsWellFormed(users, profiles, nextUserId, nextProfileId, u, profile);
      users := users + [u];
      nextUserId := nextUserId + 1;
      profiles := profiles + [profile];
      nextProfileId := nextProfileId + 1;
      r := Ok(profile);
    }
  }
}
