/** The session context of the storefront (AuthProvider): the signed-in
    user, the role list and admin flag derived from the token or the
    profile, the loading flag of the start-up profile fetch, and the token
    kept in the browser's local storage. Requests are replies passed in;
    decoding the token's payload is a parameter too (None: the part is not
    valid base64 JSON). */
module Session {
  import opened Wrappers
  import opened Text
  import opened ShopData

  // ---------------------------------------------------------------------
  // Role names

  /** `role.replace('ROLE_', '').toUpperCase()`: the first "ROLE_" only,
      case-sensitively, then upper case. */
  function NormalizeRole(role: string): string {
    ToUpper(ReplaceFirst(role, "ROLE_", ""))
  }

  /** `roles.map(normalise)` */
  function NormalizeAll(roles: seq<string>): seq<string> {
    seq(|roles|, i requires 0 <= i < |roles| => NormalizeRole(roles[i]))
  }

  /** A leading "ROLE_" is dropped and only that one: whatever follows is
      upper-cased as it is, another "ROLE_" included. */
  lemma LeadingPrefixStripped(rest: string)
    ensures NormalizeRole("ROLE_" + rest) == ToUpper(rest)
  {
    var s := "ROLE_" + rest;
    assert s[0..5] == "ROLE_";
    assert s[5..] == rest;
  }

  /** Without a capital R there is no "ROLE_" to drop: only upper-casing
      happens. */
  lemma NormalizeWithoutCapitalR(role: string)
    requires 'R' !in role
    ensures NormalizeRole(role) == ToUpper(role)
  {
    forall i | 0 <= i ensures !OccursAt(role, "ROLE_", i) {
      if i + 5 <= |role| {
        assert role[i..i + 5][0] == role[i];
      }
    }
  }

  /** A role in which "ROLE_" occurs nowhere is only upper-cased. */
  lemma NormalizeWithoutPrefix(role: string)
    requires IndexOf(role, "ROLE_").None?
    ensures NormalizeRole(role) == ToUpper(role)
  {
  }

  /** The first "ROLE_" is dropped wherever it stands, not only at the
      start: "XROLE_" normalises to "X". */
  lemma InnerPrefixDropped()
    ensures NormalizeRole("XROLE_") == "X"
  {
    var s := "XROLE_";
    assert s[0..5] != "ROLE_" by { assert s[0..5][0] == 'X'; }
    assert s[1..6] == "ROLE_";
    assert IndexOf(s, "ROLE_") == Some(1);
    assert ReplaceFirst(s, "ROLE_", "") == "X";
    assert ToUpper("X") == "X";
  }

  lemma UpperOfAdmin()
    ensures ToUpper("admin") == "ADMIN" && ToUpper("ADMIN") == "ADMIN"
  {
    var u, v := ToUpper("admin"), ToUpper("ADMIN");
    assert u[0] == 'A' && u[1] == 'D' && u[2] == 'M' && u[3] == 'I' && u[4] == 'N';
    assert v[0] == 'A' && v[1] == 'D' && v[2] == 'M' && v[3] == 'I' && v[4] == 'N';
  }

  lemma UpperOfRoleAdmin()
    ensures ToUpper("role_admin") == "ROLE_ADMIN"
  {
    var u := ToUpper("role_admin");
    assert u[0] == 'R' && u[1] == 'O' && u[2] == 'L' && u[3] == 'E' && u[4] == '_';
    assert u[5] == 'A' && u[6] == 'D' && u[7] == 'M' && u[8] == 'I' && u[9] == 'N';
  }

  lemma PrefixedAdmin()
    ensures NormalizeRole("ROLE_ADMIN") == "ADMIN"
  {
    var s := "ROLE_ADMIN";
    assert s[0..5] == "ROLE_";
    assert IndexOfFrom(s, "ROLE_", 0) == Some(0);
    assert s[5..] == "ADMIN";
    UpperOfAdmin();
  }

  lemma BareAdmin()
    ensures NormalizeRole("admin") == "ADMIN" && NormalizeRole("ADMIN") == "ADMIN"
  {
    UpperOfAdmin();
    NormalizeWithoutCapitalR("admin");
    NormalizeWithoutCapitalR("ADMIN");
  }

  lemma BareUser()
    ensures NormalizeRole("USER") == "USER"
  {
    var u := ToUpper("USER");
    assert u[0] == 'U' && u[1] == 'S' && u[2] == 'E' && u[3] == 'R';
    // "USER" is too short to hold "ROLE_"
    assert IndexOf("USER", "ROLE_").None?;
  }

  /** The spellings of the administrator role all normalise to "ADMIN". */
  lemma AdminSpellings()
    ensures NormalizeRole("ROLE_ADMIN") == "ADMIN"
    ensures NormalizeRole("admin") == "ADMIN"
    ensures NormalizeRole("ADMIN") == "ADMIN"
  {
    PrefixedAdmin();
    BareAdmin();
  }

  /** Normalisation is not idempotent: "role_admin" first becomes
      "ROLE_ADMIN", which a second pass turns into "ADMIN". */
  lemma NormalizeNotIdempotent()
    ensures NormalizeRole("role_admin") == "ROLE_ADMIN"
    ensures NormalizeRole(NormalizeRole("role_admin")) == "ADMIN"
  {
    NormalizeWithoutCapitalR("role_admin");
    UpperOfRoleAdmin();
    AdminSpellings();
  }

  /** A normalised name that holds no "ROLE_" is left as it is by another
      pass. */
  lemma NormalizeStable(role: string)
    requires IndexOf(NormalizeRole(role), "ROLE_").None?
    ensures NormalizeRole(NormalizeRole(role)) == NormalizeRole(role)
  {
    ToUpperIdempotent(ReplaceFirst(role, "ROLE_", ""));
  }

  // ---------------------------------------------------------------------
  // Reading the roles from the token

  /** A claim of the decoded payload as the truthiness tests see it:
      missing (or another falsy value), a string, or an array of strings. */
  datatype Claim = Absent | Scalar(text: string) | List(items: seq<string>)

  datatype Payload = Payload(
    roles: Claim,
    authorities: Claim,
    scope: Claim,
    sub: Option<string>,
    username: Option<string>,
    email: Option<string>)

  /** An array is truthy even when empty; a string only when non-empty. */
  predicate ClaimTruthy(c: Claim) {
    c.List? || (c.Scalar? && c.text != "")
  }

  /** `Array.isArray(c) ? c : [c]` on a truthy claim. */
  function ClaimList(c: Claim): seq<string>
    requires ClaimTruthy(c)
  {
    if c.List? then c.items else [c.text]
  }

  /** The list of the first truthy claim among roles, authorities and scope. */
  function ExtractedRoles(p: Payload): seq<string> {
    if ClaimTruthy(p.roles) then ClaimList(p.roles)
    else if ClaimTruthy(p.authorities) then ClaimList(p.authorities)
    else if ClaimTruthy(p.scope) then ClaimList(p.scope)
    else []
  }

  /** `token.split('.').length === 3`: a split yields one part more than
      there are separators. */
  predicate ThreeParts(token: string) {
    CountChar(token, '.') == 2
  }

  /** The normalised roles checkRolesFromToken stores, or None when it
      stores nothing (wrong part count, undecodable payload). */
  function TokenRoles(token: string, payload: Option<Payload>): (r: Option<seq<string>>)
    ensures r.Some? <==> ThreeParts(token) && payload.Some?
    ensures r.Some? ==> |r.value| == |ExtractedRoles(payload.value)|
  {
    if ThreeParts(token) && payload.Some? then Some(NormalizeAll(ExtractedRoles(payload.value))) else None
  }

  /** The roles claim wins whenever it is truthy, even as an empty array:
      the authorities are then never looked at. */
  lemma RolesClaimWins(token: string, p: Payload)
    requires ThreeParts(token) && ClaimTruthy(p.roles)
    ensures TokenRoles(token, Some(p)) == Some(NormalizeAll(ClaimList(p.roles)))
    ensures p.roles == List([]) ==> TokenRoles(token, Some(p)) == Some([])
  {
  }

  /** A claim given as a single string counts as a one-element list. */
  lemma ScalarClaim(token: string, p: Payload)
    requires ThreeParts(token) && !ClaimTruthy(p.roles) && p.authorities.Scalar? && p.authorities.text != ""
    ensures TokenRoles(token, Some(p)) == Some([NormalizeRole(p.authorities.text)])
  {
    var t := p.authorities.text;
    assert ExtractedRoles(p) == [t];
    assert NormalizeAll([t]) == [NormalizeRole(t)];
  }

  /** Without a truthy roles claim, truthy authorities are read and the
      scope is never looked at, whatever it holds. */
  lemma AuthoritiesBeforeScope(token: string, p: Payload, scope: Claim)
    requires ThreeParts(token) && !ClaimTruthy(p.roles) && ClaimTruthy(p.authorities)
    ensures TokenRoles(token, Some(p)) == Some(NormalizeAll(ClaimList(p.authorities)))
    ensures TokenRoles(token, Some(p.(scope := scope))) == TokenRoles(token, Some(p))
  {
  }

  /** With no truthy claim the token yields an empty role list. */
  lemma NoClaim(token: string, p: Payload)
    requires ThreeParts(token) && !ClaimTruthy(p.roles) && !ClaimTruthy(p.authorities) && !ClaimTruthy(p.scope)
    ensures TokenRoles(token, Some(p)) == Some([])
  {
  }

  // ---------------------------------------------------------------------
  // Replies and thrown messages

  /** The reply to a request: the body of an answered request (None when
      the body is empty), or the failure axios reports, with the `error`
      field of the response body, if any, and the exception's message. */
  datatype Reply<T> = Answered(data: Option<T>) | Failed(error: Option<string>, message: string)

  /** `error.response?.data?.error || error.message || fallback` */
  function ThrownMessage(error: Option<string>, message: string, fallback: string): (r: string)
    ensures fallback != "" ==> r != ""
    ensures Truthy(error) ==> r == error.value
    ensures !Truthy(error) && message == "" ==> r == fallback
  {
    if Truthy(error) then error.value else if message != "" then message else fallback
  }

  datatype Profile = Profile(id: int, username: Option<string>, email: Option<string>, roles: Option<seq<string>>)
  datatype SignIn = SignIn(token: Option<string>, username: Option<string>, email: Option<string>, roles: Option<seq<string>>)
  datatype SignUp = SignUp(success: bool, message: Option<string>, error: Option<string>)

  /** The user record kept in the context (`roles` is absent only in the
      partial record built from the token). */
  datatype User = User(id: Option<int>, username: Option<string>, email: Option<string>, roles: Option<seq<string>>)

  const BadServerReply := "Неверный ответ от сервера"
  const LoginFailed := "Ошибка входа"
  const RegisterFailed := "Ошибка регистрации"

  // ---------------------------------------------------------------------
  // The session state and its transitions

  datatype Session = Session(
    user: Option<User>,
    isAdmin: bool,
    roles: seq<string>,
    loading: bool,
    token: Option<string>)  // localStorage 'token'

  function Initial(token: Option<string>): Session {
    Session(None, false, [], true, token)
  }

  /** The admin flag agrees with the role list. */
  predicate AdminConsistent(s: Session) {
    s.isAdmin == ("ADMIN" in s.roles)
  }

  /** `setRoles(rs); setIsAdmin(rs.includes('ADMIN'))` */
  function WithRoles(s: Session, rs: seq<string>): (r: Session)
    ensures AdminConsistent(r)
  {
    s.(roles := rs, isAdmin := "ADMIN" in rs)
  }

  /** checkRolesFromToken */
  function ReadToken(s: Session, token: string, payload: Option<Payload>): Session {
    match TokenRoles(token, payload)
    case None => s
    case Some(rs) => WithRoles(s, rs)
  }

  /** The user record the profile yields. */
  function ProfileUser(u: Profile): User {
    User(Some(u.id), u.username, u.email, Some(u.roles.GetOr([])))
  }

  /** fetchUser: `payload` is the decoded token payload, `reply` the answer
      to the profile request. */
  function AfterFetch(s: Session, payload: Option<Payload>, reply: Reply<Profile>): Session {
    if !Truthy(s.token) then s.(loading := false)
    else
      var t := ReadToken(s, s.token.value, payload);
      match reply
      case Failed(_, _) => t.(user := None, isAdmin := false, roles := [], token := None, loading := false)
      case Answered(None) => t.(loading := false)
      case Answered(Some(u)) =>
        var withRoles := if u.roles.Some? && |u.roles.value| > 0 then WithRoles(t, NormalizeAll(u.roles.value)) else t;
        withRoles.(user := Some(ProfileUser(u)), loading := false)
  }

  /** A sign-in reply login accepts: a body with a truthy token. */
  predicate Accepted(reply: Reply<SignIn>) {
    reply.Answered? && reply.data.Some? && Truthy(reply.data.value.token)
  }

  /** login's state change: the roles of the reply are stored as they come. */
  function AfterLogin(s: Session, reply: Reply<SignIn>): Session {
    if Accepted(reply) then
      var d := reply.data.value;
      var raw := d.roles.GetOr([]);
      s.(token := d.token, user := Some(User(None, d.username, d.email, Some(raw))),
         isAdmin := "ROLE_ADMIN" in raw, roles := raw)
    else s
  }

  /** login's result: it resolves, or throws with this message. A body
      without a token throws BadServerReply, which the catch rethrows. */
  function LoginOutcome(reply: Reply<SignIn>): (r: Outcome)
    ensures r.Pass? <==> Accepted(reply)
    ensures r.Fail? ==> r.message != ""
    ensures reply.Answered? && !Accepted(reply) ==> r == Fail(BadServerReply)
  {
    if Accepted(reply) then Pass
    else if reply.Failed? then Fail(ThrownMessage(reply.error, reply.message, LoginFailed))
    else Fail(BadServerReply)
  }

  /** register: resolves with the reply's message when it reports success,
      throws otherwise; the session is not touched. A refusal first throws
      `data.error || RegisterFailed`, then the catch rethrows that message. */
  function RegisterOutcome(reply: Reply<SignUp>): (r: Result<Option<string>>)
    ensures r.Ok? <==> reply.Answered? && reply.data.Some? && reply.data.value.success
    ensures r.Ok? ==> r.value == reply.data.value.message
    ensures r.Err? ==> r.message != ""
  {
    match reply
    case Answered(Some(d)) =>
      if d.success then Ok(d.message) else Err(ThrownMessage(None, ThrownMessage(d.error, "", RegisterFailed), RegisterFailed))
    case Answered(None) => Err(RegisterFailed)
    case Failed(error, message) => Err(ThrownMessage(error, message, RegisterFailed))
  }

  function AfterLogout(s: Session): Session {
    s.(token := None, user := None, isAdmin := false, roles := [])
  }

  /** hasRole: the argument is normalised, the stored list is not. */
  predicate HasRole(s: Session, roleName: string) {
    NormalizeRole(roleName) in s.roles
  }

  /** hasAnyRole: `roleNames.some(hasRole)`. */
  predicate HasAnyRole(s: Session, roleNames: seq<string>) {
    roleNames != [] && (HasRole(s, roleNames[0]) || HasAnyRole(s, roleNames[1..]))
  }

  // ---------------------------------------------------------------------
  // Properties of the transitions

  lemma {:induction false} HasAnyRoleIff(s: Session, roleNames: seq<string>)
    ensures HasAnyRole(s, roleNames) <==> exists i :: 0 <= i < |roleNames| && HasRole(s, roleNames[i])
  {
    if roleNames != [] {
      HasAnyRoleIff(s, roleNames[1..]);
      if HasAnyRole(s, roleNames[1..]) {
        var i :| 0 <= i < |roleNames[1..]| && HasRole(s, roleNames[1..][i]);
        assert roleNames[i + 1] == roleNames[1..][i];
      }
      if exists i :: 0 <= i < |roleNames| && HasRole(s, roleNames[i]) {
        var i :| 0 <= i < |roleNames| && HasRole(s, roleNames[i]);
        if i > 0 {
          assert roleNames[1..][i - 1] == roleNames[i];
        }
      }
    }
  }

  /** Reading the token changes the roles and the admin flag only, and
      keeps them in agreement. */
  lemma ReadTokenKeepsConsistent(s: Session, token: string, payload: Option<Payload>)
    requires AdminConsistent(s)
    ensures var r := ReadToken(s, token, payload);
            AdminConsistent(r) && r.user == s.user && r.loading == s.loading && r.token == s.token
  {
  }

  /** Without a stored token only the loading flag changes. */
  lemma FetchWithoutToken(s: Session, payload: Option<Payload>, reply: Reply<Profile>)
    requires !Truthy(s.token)
    ensures AfterFetch(s, payload, reply) == s.(loading := false)
  {
  }

  /** A failed profile request signs the user out and forgets the token. */
  lemma FetchFailureSignsOut(s: Session, payload: Option<Payload>, error: Option<string>, message: string)
    requires Truthy(s.token)
    ensures AfterFetch(s, payload, Failed(error, message)) == Session(None, false, [], false, None)
  {
  }

  /** Every path of fetchUser ends with loading off. */
  lemma FetchEndsLoaded(s: Session, payload: Option<Payload>, reply: Reply<Profile>)
    ensures !AfterFetch(s, payload, reply).loading
  {
  }

  /** fetchUser keeps the admin flag in agreement with the roles. */
  lemma FetchKeepsConsistent(s: Session, payload: Option<Payload>, reply: Reply<Profile>)
    requires AdminConsistent(s)
    ensures AdminConsistent(AfterFetch(s, payload, reply))
  {
    if Truthy(s.token) {
      ReadTokenKeepsConsistent(s, s.token.value, payload);
    }
  }

  /** A profile replaces the token's roles only when it lists some; the
      user record takes the profile's roles, or none. */
  lemma ProfileRoles(s: Session, payload: Option<Payload>, u: Profile)
    requires Truthy(s.token)
    ensures var r := AfterFetch(s, payload, Answered(Some(u)));
            var fromToken := ReadToken(s, s.token.value, payload);
            && r.user == Some(User(Some(u.id), u.username, u.email, Some(u.roles.GetOr([]))))
            && r.token == s.token
            && (u.roles.Some? && u.roles.value != [] ==> r.roles == NormalizeAll(u.roles.value))
            && (u.roles.None? || u.roles.value == [] ==> r.roles == fromToken.roles && r.isAdmin == fromToken.isAdmin)
  {
  }

  /** A successful login stores the token, and the reply's roles without
      normalising them; the admin flag tests for the raw "ROLE_ADMIN". A
      rejected login changes nothing. */
  lemma LoginStoresRawRoles(s: Session, reply: Reply<SignIn>)
    ensures Accepted(reply) ==>
              var d := reply.data.value;
              var r := AfterLogin(s, reply);
              && r.token == d.token && r.roles == d.roles.GetOr([])
              && r.user == Some(User(None, d.username, d.email, Some(d.roles.GetOr([]))))
              && r.isAdmin == ("ROLE_ADMIN" in d.roles.GetOr([]))
              && r.loading == s.loading
    ensures !Accepted(reply) ==> AfterLogin(s, reply) == s
  {
  }

  /** After logging in with the roles the service issues, the admin flag is
      set yet neither hasRole('ADMIN') nor hasRole('USER') holds, and the
      flag disagrees with the role list until the next profile fetch. */
  lemma LoginRolesUnrecognised(s: Session, token: string)
    requires token != ""
    ensures var r := AfterLogin(s, Answered(Some(SignIn(Some(token), None, None, Some(["ROLE_ADMIN", "ROLE_USER"])))));
            && r.isAdmin && !HasRole(r, "ADMIN") && !HasRole(r, "ROLE_ADMIN") && !HasRole(r, "USER")
            && !AdminConsistent(r)
  {
    AdminSpellings();
    BareUser();
  }

  /** logout forgets the token and every role. */
  lemma LogoutSignsOut(s: Session, roleNames: seq<string>)
    ensures var r := AfterLogout(s);
            && r.token == None && r.user == None && AdminConsistent(r)
            && !HasAnyRole(r, roleNames) && r.loading == s.loading
  {
    HasAnyRoleIff(AfterLogout(s), roleNames);
  }

  // ---------------------------------------------------------------------
  // The provider

  class AuthProvider {
    var user: Option<User>
    var isAdmin: bool
    var roles: seq<string>
    var loading: bool
    var storedToken: Option<string>

    function State(): Session
      reads this
    {
      Session(user, isAdmin, roles, loading, storedToken)
    }

    /** Before the start-up fetch: loading, nobody signed in. */
    constructor (storedToken: Option<string>)
      ensures State() == Initial(storedToken) && AdminConsistent(State())
    {
      user := None;
      isAdmin := false;
      loading := true;
      roles := [];
      this.storedToken := storedToken;
    }

    method CheckRolesFromToken(token: string, payload: Option<Payload>) returns (r: seq<string>)
      modifies this
      ensures r == TokenRoles(token, payload).GetOr([])
      ensures State() == ReadToken(old(State()), token, payload)
    {
      if CountChar(token, '.') != 2 || payload.None? {
        return [];
      }
      var p := payload.value;
      var extracted: seq<string> := [];
      if ClaimTruthy(p.roles) {
        extracted := ClaimList(p.roles);
      } else if ClaimTruthy(p.authorities) {
        extracted := ClaimList(p.authorities);
      } else if ClaimTruthy(p.scope) {
        extracted := ClaimList(p.scope);
      }
      var normalized := NormalizeAll(extracted);
      roles := normalized;
      isAdmin := "ADMIN" in normalized;
      return normalized;
    }

    method FetchUser(payload: Option<Payload>, reply: Reply<Profile>)
      modifies this
      ensures State() == AfterFetch(old(State()), payload, reply)
    {
      var token := storedToken;
      if token.None? || token.value == "" {
        loading := false;
        return;
      }
      var tokenRoles := CheckRolesFromToken(token.value, payload);
      match reply {
        case Answered(data) =>
          if data.Some? {
            var u := data.value;
            if u.roles.Some? && |u.roles.value| > 0 {
              var normalized := NormalizeAll(u.roles.value);
              roles := normalized;
              isAdmin := "ADMIN" in normalized;
            }
            user := Some(ProfileUser(u));
          }
        case Failed(_, _) =>
          if ThreeParts(token.value) && payload.Some? {
            var p := payload.value;
            user := Some(User(None, if Truthy(p.sub) then p.sub else p.username, p.email, None));
          }
          storedToken := None;
          user := None;
          isAdmin := false;
          roles := [];
      }
      loading := false;
    }

    method Login(reply: Reply<SignIn>) returns (outcome: Outcome)
      modifies this
      ensures outcome == LoginOutcome(reply)
      ensures State() == AfterLogin(old(State()), reply)
    {
      match reply {
        case Failed(error, message) =>
          return Fail(ThrownMessage(error, message, LoginFailed));
        case Answered(data) =>
          if data.None? || !Truthy(data.value.token) {
            return Fail(ThrownMessage(None, BadServerReply, LoginFailed));
          }
          var d := data.value;
          storedToken := d.token;
          user := Some(User(None, d.username, d.email, Some(d.roles.GetOr([]))));
          isAdmin := "ROLE_ADMIN" in d.roles.GetOr([]);
          roles := d.roles.GetOr([]);
          return Pass;
      }
    }

    method Logout()
      modifies this
      ensures State() == AfterLogout(old(State()))
    {
      storedToken := None;
      user := None;
      isAdmin := false;
      roles := [];
    }
  }
}
