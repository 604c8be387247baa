/**
 * The browser side of authentication (`useAuth`): the three stored cells (token, refresh
 * token, user) with the error message, the `isAuthenticated` flag, the refresh of the
 * token, and the client's own wildcard permission matcher.
 *
 * The HTTP call a refresh makes is the `server` parameter, from the refresh token posted
 * to the reply received.
 */
module UseAuth {

  import opened Wrappers
  import opened Strs
  import opened Http

  /** The `user` object the client keeps (the avatar is not modelled). */
  datatype ClientUser = ClientUser(id: string, email: string, name: Option<string>, tenantId: Option<string>, role: Option<string>)

  /** `{ user, token, refreshToken? }` as the auth routes return it. */
  datatype AuthData = AuthData(user: ClientUser, token: string, refreshToken: Option<string>)

  /** The result of posting to `/auth/refresh`: an answer, or a thrown network error. */
  datatype Reply = Answered(success: bool, data: Option<AuthData>) | NetworkError

  /** `Boolean(token && user)`: an empty token is as good as none. */
  predicate Authenticated(token: Option<string>, user: Option<ClientUser>) {
    Present(token) && user.Some?
  }

  /** The reply carries new auth data to store. */
  predicate Succeeded(reply: Reply) {
    reply.Answered? && reply.success && reply.data.Some?
  }

  /** The entry `res:*`: every action on one resource. */
  function Wildcard(res: string): string {
    res + ":*"
  }

  /** The client's role table: ADMIN has `*`, the others per-resource wildcards or single permissions. */
  function ClientRolePermissions(role: string): (perms: seq<string>)
    ensures role !in {"ADMIN", "MANAGER", "MEMBER", "VIEWER"} ==> perms == []
  {
    if role == "ADMIN" then ["*"]
    else if role == "MANAGER" then [Wildcard("project"), Wildcard("requirement"), Wildcard("module"), Wildcard("task")]
    else if role == "MEMBER" then ["project:read", Wildcard("requirement"), "module:read", Wildcard("task")]
    else if role == "VIEWER" then ["project:read", "requirement:read", "module:read", "task:read"]
    else []
  }

  /** One entry matches: a `res:*` entry through `replace(':*', ':')` and `startsWith`. */
  predicate EntryMatches(entry: string, permission: string) {
    EndsWith(entry, ":*") && StartsWith(permission, ReplaceFirst(entry, ":*", ":"))
  }

  /** `hasPermission(permission)` for the current user. */
  function HasPermission(user: Option<ClientUser>, permission: string): (b: bool)
    ensures user.None? || !Present(user.value.role) ==> !b
  {
    if user.None? || !Present(user.value.role) then false
    else
      var perms := ClientRolePermissions(user.value.role.value);
      "*" in perms || permission in perms || exists k :: 0 <= k < |perms| && EntryMatches(perms[k], permission)
  }

  /** What an entry grants, read off the entry itself: everything, itself, or everything under its resource. */
  predicate Covers(entry: string, permission: string) {
    entry == "*" || entry == permission
    || (|entry| >= 2 && entry[|entry| - 2..] == ":*" && StartsWith(permission, entry[..|entry| - 1]))
  }

  /** An entry `res:*` whose resource holds no `:` matches exactly the permissions starting `res:`. */
  lemma WildcardEntry(res: string, permission: string)
    requires ':' !in res
    ensures EntryMatches(Wildcard(res), permission) <==> StartsWith(permission, res + ":")
    ensures Covers(Wildcard(res), permission) <==> StartsWith(permission, res + ":") || permission == Wildcard(res)
  {
    ReplaceWildcardSuffix(res);
    var e := res + ":*";
    assert e[|e| - 2..] == ":*";
    assert e[..|e| - 1] == res + ":";
  }

  /** An entry without `*` at its end matches only itself. */
  lemma PlainEntry(entry: string, permission: string)
    requires |entry| > 0 && entry[|entry| - 1] != '*'
    ensures !EntryMatches(entry, permission)
    ensures Covers(entry, permission) <==> entry == permission
  {
  }

  /** A plain entry that differs from the permission at some position does not cover it. */
  lemma PlainEntryMisses(entry: string, permission: string, i: nat)
    requires |entry| > 0 && entry[|entry| - 1] != '*' && entry != "*"
    requires i < |entry| && i < |permission| && entry[i] != permission[i]
    ensures !Covers(entry, permission)
  {
    PlainEntry(entry, permission);
  }

  /** A wildcard entry whose resource starts with another letter than the permission does not cover it. */
  lemma WildcardEntryMisses(res: string, permission: string)
    requires ':' !in res && |res| > 0 && |permission| > 0 && res[0] != permission[0]
    ensures !Covers(Wildcard(res), permission)
  {
    WildcardEntry(res, permission);
    assert (res + ":")[0] == res[0];
    assert Wildcard(res)[0] == res[0];
  }

  /** For each entry of a role's list, the matcher's three tests together say exactly that the entry covers the permission. */
  lemma TableEntryCovers(role: string, k: nat, permission: string)
    requires k < |ClientRolePermissions(role)|
    ensures var e := ClientRolePermissions(role)[k];
      e == "*" || e == permission || EntryMatches(e, permission) <==> Covers(e, permission)
  {
    if role == "MANAGER" {
      WildcardEntry(["project", "requirement", "module", "task"][k], permission);
    } else if role == "MEMBER" && k == 1 {
      WildcardEntry("requirement", permission);
    } else if role == "MEMBER" && k == 3 {
      WildcardEntry("task", permission);
    } else if role != "ADMIN" {
      PlainEntry(ClientRolePermissions(role)[k], permission);
    }
  }

  /**
   * The matcher grants a permission exactly when some entry of the role's list covers it;
   * every table entry is `*`, a plain permission, or a `res:*` with no `:` in `res`.
   */
  lemma HasPermissionIff(user: ClientUser, permission: string)
    requires Present(user.role)
    ensures HasPermission(Some(user), permission) <==>
      exists k :: 0 <= k < |ClientRolePermissions(user.role.value)| && Covers(ClientRolePermissions(user.role.value)[k], permission)
  {
    var perms := ClientRolePermissions(user.role.value);
    forall k | 0 <= k < |perms|
      ensures perms[k] == "*" || perms[k] == permission || EntryMatches(perms[k], permission) <==> Covers(perms[k], permission)
    {
      TableEntryCovers(user.role.value, k, permission);
    }
  }

  /** ADMIN is granted every permission string. */
  lemma AdminGrantedEverything(user: ClientUser, permission: string)
    requires user.role == Some("ADMIN")
    ensures HasPermission(Some(user), permission)
  {
    assert "*" in ClientRolePermissions("ADMIN");
  }

  /** A role outside the table is granted nothing. */
  lemma UnknownRoleGrantedNothing(user: ClientUser, permission: string)
    requires user.role.Some? && user.role.value !in {"ADMIN", "MANAGER", "MEMBER", "VIEWER"}
    ensures !HasPermission(Some(user), permission)
  {
  }

  /** MANAGER is granted every action on each of the four resources. */
  lemma ManagerGrantedResources(user: ClientUser, res: string, action: string)
    requires user.role == Some("MANAGER") && res in {"project", "requirement", "module", "task"}
    ensures HasPermission(Some(user), res + ":" + action)
  {
    var perms := ClientRolePermissions("MANAGER");
    var k := if res == "project" then 0 else if res == "requirement" then 1 else if res == "module" then 2 else 3;
    assert perms[k] == Wildcard(res);
    WildcardEntry(res, res + ":" + action);
    assert StartsWith(res + ":" + action, res + ":") by {
      assert (res + ":" + action)[..|res + ":"|] == res + ":";
    }
  }

  /** MEMBER may delete a task. */
  lemma MemberDeletesTasks(user: ClientUser)
    requires user.role == Some("MEMBER")
    ensures HasPermission(Some(user), "task:delete")
  {
    var perms := ClientRolePermissions("MEMBER");
    HasPermissionIff(user, "task:delete");
    WildcardEntry("task", "task:delete");
    assert StartsWith("task:delete", "task:");
    assert Covers(perms[3], "task:delete");
  }

  /** MEMBER may not update a project. */
  lemma MemberCannotUpdateProjects(user: ClientUser)
    requires user.role == Some("MEMBER")
    ensures !HasPermission(Some(user), "project:update")
  {
    var perms := ClientRolePermissions("MEMBER");
    var p := "project:update";
    assert perms == ["project:read", Wildcard("requirement"), "module:read", Wildcard("task")];
    HasPermissionIff(user, p);
    PlainEntryMisses("project:read", p, 8);
    WildcardEntryMisses("requirement", p);
    PlainEntryMisses("module:read", p, 0);
    WildcardEntryMisses("task", p);
    forall k | 0 <= k < |perms| ensures !Covers(perms[k], p) {
    }
  }

  /** VIEWER is granted exactly the four reads. */
  lemma ViewerReadsOnly(user: ClientUser, permission: string)
    requires user.role == Some("VIEWER")
    ensures HasPermission(Some(user), permission) <==>
      permission in ["project:read", "requirement:read", "module:read", "task:read"]
  {
    HasPermissionIff(user, permission);
  }

  /** The client's authentication state, kept in local storage and component state. */
  class AuthSession {
    var token: Option<string>
    var refreshToken: Option<string>
    var user: Option<ClientUser>
    var error: Option<string>

    /** What local storage holds when the hook mounts; no error yet. */
    constructor (token: Option<string>, refreshToken: Option<string>, user: Option<ClientUser>)
      ensures this.token == token && this.refreshToken == refreshToken && this.user == user && error.None?
    {
      this.token, this.refreshToken, this.user := token, refreshToken, user;
      error := None;
    }

    predicate IsAuthenticated()
      reads this
    {
      Authenticated(token, user)
    }

    /** `setAuthData`: user and token replaced, the refresh token only when a non-empty one comes, the error cleared. */
    method SetAuthData(data: AuthData)
      modifies this
      ensures user == Some(data.user) && token == Some(data.token) && error.None?
      ensures refreshToken == if Present(data.refreshToken) then data.refreshToken else old(refreshToken)
      ensures IsAuthenticated() <==> data.token != ""
    {
      user := Some(data.user);
      token := Some(data.token);
      if Present(data.refreshToken) {
        refreshToken := data.refreshToken;
      }
      error := None;
    }

    /** `clearAuthData`: every cell back to null. */
    method ClearAuthData()
      modifies this
      ensures user.None? && token.None? && refreshToken.None? && error.None?
      ensures !IsAuthenticated()
    {
      user := None;
      token := None;
      refreshToken := None;
      error := None;
    }

    /**
     * `refreshAuthToken`: without a refresh token it posts nothing and changes nothing;
     * otherwise it posts the refresh token, stores a successful reply's data, and clears
     * everything on any other answer or a network error.
     */
    method RefreshAuthToken(server: string -> Reply) returns (ok: bool, posted: Option<string>)
      modifies this
      ensures !Present(old(refreshToken)) ==>
        !ok && posted.None? && token == old(token) && refreshToken == old(refreshToken) && user == old(user) && error == old(error)
      ensures Present(old(refreshToken)) ==> posted == old(refreshToken) && (ok <==> Succeeded(server(posted.value)))
      ensures ok ==>
        var data := server(posted.value).data.value;
        user == Some(data.user) && token == Some(data.token) && error.None?
        && refreshToken == if Present(data.refreshToken) then data.refreshToken else old(refreshToken)
      ensures Present(old(refreshToken)) && !ok ==>
        user.None? && token.None? && refreshToken.None? && error.None? && !IsAuthenticated()
    {
      if !Present(refreshToken) {
        return false, None;
      }
      posted := refreshToken;
      var reply := server(refreshToken.value);
      if Succeeded(reply) {
        SetAuthData(reply.data.value);
        ok := true;
      } else {
        ClearAuthData();
        ok := false;
      }
    }
  }
}
