/** The authentication middleware and the role guard every router installs. */
module Auth {
  import opened Common
  import opened Tables

  /** What the middleware stores in `req.user`: the user's row, with its id under both
      `id` and `userId`. */
  datatype ReqUser = ReqUser(id: int, userId: int, name: string, email: string, role: string)

  /** A request as the middleware sees it: its Authorization header and the user slot. */
  class Request {
    var authorization: Option<string>
    var user: Option<ReqUser>

    constructor (authorization: Option<string>)
      ensures this.authorization == authorization && user.None?
    {
      this.authorization := authorization;
      user := None;
    }
  }

  /** `req.header('Authorization')?.replace('Bearer ', '')`: the header with its first
      "Bearer " removed; nothing when there is no header. */
  function BearerToken(header: Option<string>): Option<string>
  {
    if header.None? then None else Some(ReplaceFirst(header.value, "Bearer ", ""))
  }

  /** A header "Bearer <t>" yields exactly `t`. */
  lemma BearerPrefixStripped(t: string)
    ensures BearerToken(Some("Bearer " + t)) == Some(t)
  {
    var h := "Bearer " + t;
    assert OccursAt(h, "Bearer ", 0) by {
      assert h[0..7] == "Bearer ";
    }
    assert IndexOf(h, "Bearer ") == Some(0);
    assert h[..0] + "" + h[7..] == t;
  }

  /** A header without "Bearer " anywhere is used as the token unchanged. */
  lemma TokenWithoutPrefix(h: string)
    requires !Mentions(h, "Bearer ")
    ensures BearerToken(Some(h)) == Some(h)
  {
    assert IndexOf(h, "Bearer ").None?;
    assert ReplaceFirst(h, "Bearer ", "") == h;
  }

  datatype AuthOutcome =
    | NoToken        // 401 "No token, authorization denied"
    | InvalidToken   // 401 "Token is not valid"
    | Next           // the request goes on with `req.user` set

  function AuthStatus(o: AuthOutcome): int
  {
    if o == Next then 200 else 401
  }

  /** The middleware: no token (or an empty one) is refused; a token `verify` rejects, or one
      whose user id has no row, is refused; otherwise the user's row is stored in `req.user`
      with its id as both `id` and `userId`. `verify` stands for jwt.verify with the secret,
      returning the token's user id. */
  method Authenticate(req: Request, verify: string -> Option<int>, users: seq<User>) returns (o: AuthOutcome)
    modifies req
    ensures req.authorization == old(req.authorization)
    ensures var token := BearerToken(req.authorization);
      && (token.None? || token.value == "" ==> o == NoToken)
      && (o == Next <==>
            token.Some? && token.value != "" && verify(token.value).Some? &&
            FindUser(users, verify(token.value).value).Some?)
    ensures o != Next ==> req.user == old(req.user)
    ensures o == Next ==>
      var u := FindUser(users, verify(BearerToken(req.authorization).value).value).value;
      && req.user == Some(ReqUser(u.id, u.id, u.name, u.email, u.role))
      && u in users && u.id == verify(BearerToken(req.authorization).value).value
  {
    var token := BearerToken(req.authorization);
    if token.None? || token.value == "" {
      return NoToken;
    }
    var decoded := verify(token.value);
    if decoded.None? {
      return InvalidToken;
    }
    var found := FindUser(users, decoded.value);
    if found.None? {
      return InvalidToken;
    }
    var u := found.value;
    req.user := Some(ReqUser(u.id, u.id, u.name, u.email, u.role));
    o := Next;
  }

  // ----- requireRole -----

  datatype Decision =
    | Unauthenticated   // 401 "Authentication required"
    | Forbidden         // 403 "Access denied. Insufficient permissions."
    | Proceed           // next()

  /** `requireRole(roles)`: no user is 401, a role outside the list is 403, otherwise next. */
  function RequireRole(user: Option<ReqUser>, roles: seq<string>): (d: Decision)
    ensures d == Unauthenticated <==> user.None?
    ensures d == Proceed <==> user.Some? && user.value.role in roles
  {
    if user.None? then Unauthenticated
    else if user.value.role !in roles then Forbidden
    else Proceed
  }

  /** The role lists the three routers install. */
  const AdminRouteRoles: seq<string> := [SystemAdmin]
  const OwnerRouteRoles: seq<string> := [StoreOwner]

  /** The user router's list as written: a role name no user carries. */
  const UserRouteRolesAsWritten: seq<string> := ["normal_user"]

  /** The user router's list as intended: the normal user role. */
  const UserRouteRoles: seq<string> := [NormalUser]

  /** As written, the user router refuses every authenticated user with any of the three
      roles with 403, so no user can reach the rating, statistics or store-list routes. */
  lemma UserRoutesRefuseEveryRole(u: ReqUser)
    requires u.role in Roles
    ensures RequireRole(Some(u), UserRouteRolesAsWritten) == Forbidden
  {
  }

  /** With the intended lists, each role passes exactly its own router's guard. */
  lemma EachRoleReachesItsOwnRouter(u: ReqUser)
    requires u.role in Roles
    ensures RequireRole(Some(u), AdminRouteRoles) == Proceed <==> u.role == SystemAdmin
    ensures RequireRole(Some(u), UserRouteRoles) == Proceed <==> u.role == NormalUser
    ensures RequireRole(Some(u), OwnerRouteRoles) == Proceed <==> u.role == StoreOwner
  {
  }

  /** `auth` followed by `requireRole(roles)`, as each router runs them: the status the request
      ends with (200 meaning the handler runs). */
  method Guard(req: Request, verify: string -> Option<int>, users: seq<User>, roles: seq<string>)
    returns (status: int)
    modifies req
    ensures status in {200, 401, 403}
    ensures var token := BearerToken(req.authorization);
      var found := if token.Some? && token.value != "" && verify(token.value).Some?
                   then FindUser(users, verify(token.value).value) else None;
      && (status == 401 <==> found.None?)
      && (status == 200 <==> found.Some? && found.value.role in roles)
      && (status == 403 <==> found.Some? && found.value.role !in roles)
  {
    var o := Authenticate(req, verify, users);
    if o != Next {
      return 401;
    }
    var d := RequireRole(req.user, roles);
    status := if d == Proceed then 200 else if d == Forbidden then 403 else 401;
  }
}
