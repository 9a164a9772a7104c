/**
 * Session helpers over local storage (src/utils/auth.js): the login flag,
 * the stored user record, local logout, the consistency check that guards
 * pages, profile updates and the small read-only queries.
 */
module Auth {
  import opened Js
  import opened Storage

  /** The five keys local logout and `clearAuthState` remove. */
  const AuthKeys: set<string> := {"userInfo", "isLoggedIn", "loginTime", "token", "refreshToken"}

  /** `isLoggedIn()`: the stored flag is exactly the boolean `true` (a string "true" or the number 1 is not). */
  predicate IsLoggedIn(items: map<string, Json>)
  {
    ReadFrom(items, "isLoggedIn") == Bool(true)
  }

  /** The session invariant: a logged-in session holds a token. */
  predicate Consistent(items: map<string, Json>)
  {
    IsLoggedIn(items) ==> Truthy(ReadFrom(items, "token"))
  }

  /** `getCurrentUser()`: the stored user record, or `null` when it is falsy or missing. */
  function GetCurrentUser(items: map<string, Json>): (user: Json)
    ensures Truthy(user) <==> Truthy(ReadFrom(items, "userInfo"))
    ensures Truthy(user) ==> user == items["userInfo"]
    ensures !Truthy(user) ==> user == Null
  {
    Or(ReadFrom(items, "userInfo"), Null)
  }

  /** Removing the session keys leaves a consistent store and every other key as it was. */
  lemma ClearedIsConsistent(items: map<string, Json>)
    ensures Consistent(items - AuthKeys)
    ensures !IsLoggedIn(items - AuthKeys) && GetCurrentUser(items - AuthKeys) == Null
    ensures forall k :: k in items && k !in AuthKeys ==> k in items - AuthKeys && (items - AuthKeys)[k] == items[k]
  {
  }

  /** `setUserLogin(userInfo)`: stores the user, the flag `true` and the login time. */
  method SetUserLogin(store: Store, userInfo: Json, now: string)
    modifies store
    ensures store.items == old(store.items)["userInfo" := userInfo]["isLoggedIn" := Bool(true)]["loginTime" := Str(now)]
    ensures IsLoggedIn(store.items)
    ensures GetCurrentUser(store.items) == Or(userInfo, Null)
  {
    store.Set("userInfo", userInfo);
    store.Set("isLoggedIn", Bool(true));
    store.Set("loginTime", Str(now));
  }

  /** `logout()`: removes the five session keys; `sessionInfo`, `apiSettings` and the rest stay. */
  method Logout(store: Store)
    modifies store
    ensures store.items == old(store.items) - AuthKeys
    ensures Consistent(store.items) && !IsLoggedIn(store.items)
  {
    store.Remove("userInfo");
    store.Remove("isLoggedIn");
    store.Remove("loginTime");
    store.Remove("token");
    store.Remove("refreshToken");
  }

  /** `clearAuthState()`: the same five removals as `logout()`, without navigation. */
  method ClearAuthState(store: Store)
    modifies store
    ensures store.items == old(store.items) - AuthKeys
    ensures Consistent(store.items) && !IsLoggedIn(store.items)
  {
    store.Remove("userInfo");
    store.Remove("isLoggedIn");
    store.Remove("loginTime");
    store.Remove("token");
    store.Remove("refreshToken");
  }

  /** Clearing the session twice is the same as clearing it once. */
  lemma ClearIdempotent(items: map<string, Json>)
    ensures (items - AuthKeys) - AuthKeys == items - AuthKeys
  {
  }

  /**
   * `checkAuthAndRedirect()`: true exactly when logged in with a token. A
   * logged-in session without a token is cleared; a session that is simply
   * not logged in is left alone (the redirect itself is navigation).
   */
  method CheckAuthAndRedirect(store: Store) returns (ok: bool)
    modifies store
    ensures ok <==> IsLoggedIn(old(store.items)) && Truthy(ReadFrom(old(store.items), "token"))
    ensures IsLoggedIn(old(store.items)) && !Truthy(ReadFrom(old(store.items), "token")) ==>
              store.items == old(store.items) - AuthKeys
    ensures !(IsLoggedIn(old(store.items)) && !Truthy(ReadFrom(old(store.items), "token"))) ==>
              store.items == old(store.items)
    ensures Consistent(store.items)
  {
    var hasLoginStatus := IsLoggedIn(store.items);
    var hasToken := ReadFrom(store.items, "token");
    if hasLoginStatus && !Truthy(hasToken) {
      Logout(store);
      return false;
    }
    if !hasLoginStatus || !Truthy(hasToken) {
      return false;
    }
    return true;
  }

  datatype UserUpdate = Updated(user: Json) | NotLoggedIn

  /** The message `updateUserInfo` throws when there is no stored user. */
  const NotLoggedInMessage := "用户未登录"

  /**
   * `updateUserInfo(updates)`: with no stored user it throws (`NotLoggedIn`)
   * and changes nothing; otherwise it stores and returns `{...user, ...updates}`.
   */
  method UpdateUserInfo(store: Store, updates: Json) returns (r: UserUpdate)
    modifies store
    ensures !Truthy(GetCurrentUser(old(store.items))) ==> r == NotLoggedIn && store.items == old(store.items)
    ensures Truthy(GetCurrentUser(old(store.items))) ==>
              r == Updated(Spread(GetCurrentUser(old(store.items)), updates)) &&
              store.items == old(store.items)["userInfo" := r.user]
  {
    var currentUser := GetCurrentUser(store.items);
    if !Truthy(currentUser) {
      return NotLoggedIn;
    }
    var updatedUser := Spread(currentUser, updates);
    store.Set("userInfo", updatedUser);
    return Updated(updatedUser);
  }

  /** In the updated record every field of `updates` wins, and every other field of the user is kept. */
  lemma UpdateOverrides(user: seq<(string, Json)>, updates: seq<(string, Json)>, key: string)
    ensures HasKey(updates, key) ==> Get(Spread(Obj(user), Obj(updates)), key) == Lookup(updates, key)
    ensures !HasKey(updates, key) ==> Get(Spread(Obj(user), Obj(updates)), key) == Lookup(user, key)
  {
    SpreadOverrides(Obj(user), Obj(updates), key);
  }

  /**
   * `getUserDisplayName(userInfo)`: `displayName`, then `username`, then the
   * part of `email` before the first `@`, then `用户`; `游客` when there is no
   * user at all. A truthy non-string email makes `.split` throw.
   */
  function GetUserDisplayName(userInfo: Json, items: map<string, Json>): (r: Res<Json>)
    ensures var user := Or(userInfo, GetCurrentUser(items));
      && (!Truthy(user) ==> r == Ok(Str("游客")))
      && (Truthy(user) && Truthy(Get(user, "displayName")) ==> r == Ok(Get(user, "displayName")))
      && (Truthy(user) && !Truthy(Get(user, "displayName")) && Truthy(Get(user, "username")) ==>
            r == Ok(Get(user, "username")))
      && (Truthy(user) && !Truthy(Get(user, "displayName")) && !Truthy(Get(user, "username")) ==>
            match Get(user, "email")
            case Str(e) => r == Ok(if BeforeFirst(e, '@') != "" then Str(BeforeFirst(e, '@')) else Str("用户"))
            case Undefined => r == Ok(Str("用户"))
            case Null => r == Ok(Str("用户"))
            case _ => r == TypeError)
  {
    var user := Or(userInfo, GetCurrentUser(items));
    if !Truthy(user) then Ok(Str("游客"))
    else
      var named := Or(Get(user, "displayName"), Get(user, "username"));
      if Truthy(named) then Ok(named)
      else
        var email := Get(user, "email");
        if Nullish(email) then Ok(Str("用户"))
        else if !email.Str? then TypeError
        else Ok(Or(Str(BeforeFirst(email.s, '@')), Str("用户")))
  }

  /** `Array.prototype.includes` on strings. */
  predicate Includes(items: seq<Json>, x: string)
  {
    Str(x) in items
  }

  /**
   * `hasPermission(permission)`: false with no user; the permission list
   * defaults to `['basic']`; holding `admin` grants everything. A string
   * `permissions` is searched as a substring, as `String.prototype.includes`
   * does; any other truthy non-array makes `.includes` throw.
   */
  function HasPermission(permission: string, items: map<string, Json>): (r: Res<bool>)
    ensures !Truthy(GetCurrentUser(items)) ==> r == Ok(false)
    ensures Truthy(GetCurrentUser(items)) && !Truthy(Get(GetCurrentUser(items), "permissions")) ==>
              r == Ok(permission == "basic")
    ensures Truthy(GetCurrentUser(items)) && Get(GetCurrentUser(items), "permissions").Arr? ==>
              var perms := Get(GetCurrentUser(items), "permissions").items;
              r == Ok(Str(permission) in perms || Str("admin") in perms)
  {
    var user := GetCurrentUser(items);
    if !Truthy(user) then Ok(false)
    else
      match Or(Get(user, "permissions"), Arr([Str("basic")]))
      case Arr(perms) => Ok(Includes(perms, permission) || Includes(perms, "admin"))
      case Str(s) => Ok(Contains(s, permission) || Contains(s, "admin"))
      case _ => TypeError
  }

  /** An administrator holds every permission. */
  lemma AdminGrantsAll(permission: string, items: map<string, Json>)
    requires Truthy(GetCurrentUser(items))
    requires Get(GetCurrentUser(items), "permissions").Arr?
    requires Str("admin") in Get(GetCurrentUser(items), "permissions").items
    ensures HasPermission(permission, items) == Ok(true)
  {
  }

  const DefaultModel := "deepseek-chat"

  /**
   * `getSelectedModel()` as written: a stored string is returned as it is, an
   * object's truthy `id` otherwise, and `deepseek-chat` by default. Because
   * the storage read yields `""` for a missing key, the default is never
   * reached when nothing is stored.
   */
  function GetSelectedModelAsWritten(items: map<string, Json>): (r: Json)
    ensures ReadFrom(items, "selectedModel").Str? ==> r == ReadFrom(items, "selectedModel")
  {
    var saved := ReadFrom(items, "selectedModel");
    if saved.Str? then saved
    else if Truthy(saved) && Truthy(Get(saved, "id")) then Get(saved, "id")
    else Str(DefaultModel)
  }

  /** With nothing stored, the function as written returns the empty string, not the default model. */
  lemma SelectedModelMissingKeyAsWritten(items: map<string, Json>)
    requires "selectedModel" !in items
    ensures GetSelectedModelAsWritten(items) == Str("")
  {
  }

  /** `getSelectedModel()` as evidently intended: only a non-empty string is a stored model name. */
  function GetSelectedModel(items: map<string, Json>): (r: Json)
    ensures Truthy(r)
    ensures "selectedModel" !in items ==> r == Str(DefaultModel)
    ensures Truthy(ReadFrom(items, "selectedModel")) && ReadFrom(items, "selectedModel").Str? ==>
              r == ReadFrom(items, "selectedModel")
    ensures ReadFrom(items, "selectedModel").Obj? && Truthy(Get(ReadFrom(items, "selectedModel"), "id")) ==>
              r == Get(ReadFrom(items, "selectedModel"), "id")
  {
    var saved := ReadFrom(items, "selectedModel");
    if saved.Str? && Truthy(saved) then saved
    else if Truthy(saved) && Truthy(Get(saved, "id")) then Get(saved, "id")
    else Str(DefaultModel)
  }
}
