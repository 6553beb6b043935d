/** The account services: replacing a user's roles by one named role, and
    registering a new user. The password encoder is a parameter. */
module Accounts {
  import opened Wrappers
  import opened Text
  import opened Repositories
  import AdminPanel
  import Session
  import Registration

  const UserNotFound := "Пользователь не найден"
  const InvalidRole := "Некорректная роль: "
  const RoleNotFound := "Роль не найдена"
  const UsernameTaken := "Имя пользователя уже занято!"
  const EmailInUse := "Email уже используется!"

  /** The name of a role constant. */
  function Name(role: ERole): string {
    match role
    case ROLE_USER => "ROLE_USER"
    case ROLE_ADMIN => "ROLE_ADMIN"
  }

  /** `ERole.valueOf(roleName.toUpperCase())`, None where valueOf throws. */
  function RoleOf(roleName: string): (r: Option<ERole>)
    ensures r.Some? ==> Name(r.value) == ToUpper(roleName)
    ensures r.None? ==> forall role :: Name(role) != ToUpper(roleName)
  {
    var upper := ToUpper(roleName);
    if upper == "ROLE_USER" then Some(ROLE_USER)
    else if upper == "ROLE_ADMIN" then Some(ROLE_ADMIN)
    else None
  }

  /** Each constant's own name is accepted, and upper-casing the input
      first changes nothing. */
  lemma RoleOfName(role: ERole, roleName: string)
    ensures RoleOf(Name(role)) == Some(role)
    ensures RoleOf(ToUpper(roleName)) == RoleOf(roleName)
  {
    assert ToUpper("ROLE_USER") == "ROLE_USER";
    assert ToUpper("ROLE_ADMIN") == "ROLE_ADMIN";
    ToUpperIdempotent(roleName);
  }

  /** Case does not matter but the prefix does: "role_admin" names the
      administrator role and "ADMIN" names none. */
  lemma RoleNames()
    ensures RoleOf("role_admin") == Some(ROLE_ADMIN)
    ensures RoleOf("Role_User") == Some(ROLE_USER)
    ensures RoleOf("ADMIN") == None
  {
    assert ToUpper("role_admin") == "ROLE_ADMIN";
    assert ToUpper("Role_User") == "ROLE_USER";
    assert ToUpper("ADMIN") == "ADMIN";
  }

  /** Every choice of the admin panel's role selector is accepted, so the
      role-change request the panel sends for it names a valid role. */
  lemma SelectorRolesAccepted(i: int, userId: int)
    requires 0 <= i < |AdminPanel.RoleOptions|
    ensures RoleOf(AdminPanel.RoleOptions[i]).Some?
    ensures RoleOf(AdminPanel.RoleChange(userId, AdminPanel.RoleOptions[i]).role).Some?
  {
    RoleOfName(ROLE_USER, "");
    RoleOfName(ROLE_ADMIN, "");
  }

  class UserService {
    const userRepository: UserRepository
    const roleRepository: RoleRepository

    constructor (users: UserRepository, roles: RoleRepository)
      ensures userRepository == users && roleRepository == roles
    {
      userRepository := users;
      roleRepository := roles;
    }

    /** updateUserRole: the user is looked up first, then the role name,
        then the role's row; on success the user holds exactly that one
        role, and no other user and no key changes. */
    method UpdateUserRole(userId: int, roleName: string) returns (r: Result<UserRecord>)
      requires userRepository.Valid()
      modifies userRepository
      ensures userRepository.Valid() && userRepository.nextId == old(userRepository.nextId)
      ensures userRepository.users.Keys == old(userRepository.users).Keys
      ensures userId !in old(userRepository.users) ==> r == Err(UserNotFound)
      ensures userId in old(userRepository.users) && RoleOf(roleName).None? ==> r == Err(InvalidRole + roleName)
      ensures (userId in old(userRepository.users) && RoleOf(roleName).Some? && RoleOf(roleName).value !in roleRepository.roles)
                ==> r == Err(RoleNotFound)
      ensures r.Err? ==> userRepository.users == old(userRepository.users)
      ensures r.Ok? ==> && userId in old(userRepository.users)
                        && RoleOf(roleName).Some? && RoleOf(roleName).value in roleRepository.roles
                        && r.value == old(userRepository.users)[userId].(roles := {RoleOf(roleName).value})
                        && userRepository.users == old(userRepository.users)[userId := r.value]
    {
      if userId !in userRepository.users {
        return Err(UserNotFound);
      }
      var user := userRepository.users[userId];
      var role := RoleOf(roleName);
      if role.None? {
        return Err(InvalidRole + roleName);
      }
      if role.value !in roleRepository.roles {
        return Err(RoleNotFound);
      }
      user := user.(roles := {role.value});
      userRepository.users := userRepository.users[userId := user];
      return Ok(user);
    }
  }

  /** `existsByUsername` and `existsByEmail` */
  predicate UsernameUsed(users: map<int, UserRecord>, username: string) {
    exists k :: k in users && users[k].username == username
  }

  predicate EmailUsed(users: map<int, UserRecord>, email: string) {
    exists k :: k in users && users[k].email == email
  }

  class AuthService {
    const userRepository: UserRepository
    const roleRepository: RoleRepository
    /** `passwordEncoder.encode` */
    const encode: string -> string

    constructor (users: UserRepository, roles: RoleRepository, encode: string -> string)
      ensures userRepository == users && roleRepository == roles && this.encode == encode
    {
      userRepository := users;
      roleRepository := roles;
      this.encode := encode;
    }

    /** registerUser: a taken username is refused before the email is
        looked at; a new user is stored under the next id with the encoded
        password and the one role ROLE_USER. */
    method RegisterUser(username: string, email: string, password: string) returns (r: Result<UserRecord>)
      requires userRepository.Valid()
      modifies userRepository
      ensures userRepository.Valid()
      ensures UsernameUsed(old(userRepository.users), username) ==> r == Err(UsernameTaken)
      ensures (!UsernameUsed(old(userRepository.users), username) && EmailUsed(old(userRepository.users), email))
                ==> r == Err(EmailInUse)
      ensures (!UsernameUsed(old(userRepository.users), username) && !EmailUsed(old(userRepository.users), email)
                && ROLE_USER !in roleRepository.roles) ==> r == Err(RoleNotFound)
      ensures r.Err? ==> userRepository.users == old(userRepository.users) && userRepository.nextId == old(userRepository.nextId)
      ensures r.Ok? ==> && !UsernameUsed(old(userRepository.users), username)
                        && !EmailUsed(old(userRepository.users), email)
                        && r.value == UserRecord(username, email, encode(password), {ROLE_USER})
                        && old(userRepository.nextId) !in old(userRepository.users)
                        && userRepository.users == old(userRepository.users)[old(userRepository.nextId) := r.value]
                        && |userRepository.users| == |old(userRepository.users)| + 1
                        && userRepository.nextId == old(userRepository.nextId) + 1
    {
      if exists k :: k in userRepository.users && userRepository.users[k].username == username {
        return Err(UsernameTaken);
      }
      if exists k :: k in userRepository.users && userRepository.users[k].email == email {
        return Err(EmailInUse);
      }
      if ROLE_USER !in roleRepository.roles {
        return Err(RoleNotFound);
      }
      var user := UserRecord(username, email, encode(password), {ROLE_USER});
      var id := userRepository.nextId;
      userRepository.users := userRepository.users[id := user];
      userRepository.nextId := id + 1;
      return Ok(user);
    }
  }

  /** A character of `sub` that `s` lacks keeps `sub` out of `s`. */
  lemma MissingChar(s: string, sub: string, i: int)
    requires 0 <= i < |sub| && sub[i] !in s
    ensures !Contains(s, sub)
  {
  }

  /** The sign-up page looks for "уже существует" in the refusal, but the
      two duplicate refusals of registerUser say "уже занято!" and "уже
      используется!": after the 400 reply of the sign-up endpoint, such a
      refusal shows as the form's general error, never on the username or
      email field. */
  lemma DuplicateRefusalShownUnderForm(refusal: string, axiosMessage: string)
    requires refusal == UsernameTaken || refusal == EmailInUse
    ensures Session.RegisterOutcome(Session.Failed(Some(refusal), axiosMessage)) == Err(refusal)
    ensures Registration.SubmitErrors(refusal) == map["submit" := refusal]
  {
    assert Registration.AlreadyExists[6] == 'щ';
    MissingChar(refusal, Registration.AlreadyExists, 6);
  }
}
