/**
 * The domain calls of src/utils/api.js built on `request` and `uploadFile`:
 * login, refresh and logout with their storage effects, the envelope
 * unwrapping of the document, history, export and global-configuration
 * calls, `retryRequest` and `checkAndRefreshToken`.
 *
 * Each call takes `response`, the way its `request` (or `uploadFile`)
 * ended; the storage effects of that request itself are `Request.Request`'s.
 */
module DomainApi {
  import opened Wrappers
  import opened Js
  import opened Storage
  import Auth
  import ErrorHandler
  import Request

  /** How a domain call ends: a value, a rejection, or never (its request never settled). */
  datatype ApiResult = Done(value: Json) | Fails(why: Request.Rejection) | NeverSettles

  /** `throw new Error(response?.message || fallback)`. */
  function ThrowMessage(body: Json, fallback: string): ApiResult
  {
    Fails(Request.ErrorMessage(Display(Or(Request.BodyMessage(body), Str(fallback)))))
  }

  /** `await request(...)` inside a `try` that rethrows: a rejection passes through unchanged. */
  function Passed(response: Request.Outcome): ApiResult
    requires !response.Resolved?
  {
    match response
    case Rejected(why) => Fails(why)
    case _ => NeverSettles
  }

  // ---------------------------------------------------------------------
  // loginApi
  // ---------------------------------------------------------------------

  /** The login request body; reading `username` of a missing argument throws. */
  function LoginRequestData(loginData: Json): Res<Json>
  {
    if Nullish(loginData) then TypeError
    else Ok(Obj([("username", Or(Get(loginData, "username"), Get(loginData, "email"))),
                 ("password", Get(loginData, "password")),
                 ("rememberMe", Or(Get(loginData, "rememberMe"), Bool(false)))]))
  }

  /** `response && response.success && response.code === 200 && response.data`. */
  predicate LoginAccepted(body: Json)
  {
    Truthy(body) && Truthy(Get(body, "success")) && Get(body, "code") == Num(200) && Truthy(Get(body, "data"))
  }

  /** The storage after a login was accepted. */
  function LoginItems(items: map<string, Json>, data: Json, now: string): map<string, Json>
  {
    var tokens := Get(data, "tokens");
    var written := items["token" := Get(tokens, "accessToken")]
                        ["refreshToken" := Or(Get(tokens, "refreshToken"), Str(""))]
                        ["userInfo" := Get(data, "user")]
                        ["isLoggedIn" := Bool(true)]
                        ["loginTime" := Str(now)];
    if Truthy(Get(data, "session")) then written["sessionInfo" := Get(data, "session")] else written
  }

  /**
   * An accepted login leaves the user logged in with the returned access
   * token, and the session is consistent exactly when that token is present.
   */
  lemma LoginEstablishesSession(items: map<string, Json>, data: Json, now: string)
    ensures Auth.IsLoggedIn(LoginItems(items, data, now))
    ensures ReadFrom(LoginItems(items, data, now), "token") == Get(Get(data, "tokens"), "accessToken")
    ensures Auth.Consistent(LoginItems(items, data, now)) <==> Truthy(Get(Get(data, "tokens"), "accessToken"))
    ensures Truthy(Get(data, "user")) ==> Auth.GetCurrentUser(LoginItems(items, data, now)) == Get(data, "user")
    ensures forall k :: k in items && k !in Auth.AuthKeys && k != "sessionInfo" ==> LoginItems(items, data, now)[k] == items[k]
  {
  }

  /**
   * `loginApi(loginData)`. A missing `tokens` makes `tokens.accessToken`
   * throw before anything is stored; a truthy non-string access token makes
   * the log line throw after everything is stored.
   */
  method LoginApi(store: Store, loginData: Json, response: Request.Outcome, now: string) returns (r: ApiResult)
    modifies store
    ensures LoginRequestData(loginData).TypeError? ==> r == Fails(Request.EngineTypeError) && store.items == old(store.items)
    ensures LoginRequestData(loginData).Ok? && !response.Resolved? ==> r == Passed(response) && store.items == old(store.items)
    ensures LoginRequestData(loginData).Ok? && response.Resolved? && !LoginAccepted(response.body) ==>
              r == ThrowMessage(response.body, "登录响应数据异常") && store.items == old(store.items)
    ensures LoginRequestData(loginData).Ok? && response.Resolved? && LoginAccepted(response.body) ==>
              var data := Get(response.body, "data");
              var tokens := Get(data, "tokens");
              (Nullish(tokens) ==> r == Fails(Request.EngineTypeError) && store.items == old(store.items)) &&
              (!Nullish(tokens) ==>
                 store.items == LoginItems(old(store.items), data, now) &&
                 r == (if Request.TokenCrashes(Get(tokens, "accessToken")) then Fails(Request.EngineTypeError) else Done(data)))
  {
    var requestData := LoginRequestData(loginData);
    if requestData.TypeError? {
      return Fails(Request.EngineTypeError);
    }
    if !response.Resolved? {
      return Passed(response);
    }
    var body := response.body;
    if !LoginAccepted(body) {
      return ThrowMessage(body, "登录响应数据异常");
    }
    var data := Get(body, "data");
    var tokens := Get(data, "tokens");
    if Nullish(tokens) {
      return Fails(Request.EngineTypeError);
    }
    store.Set("token", Get(tokens, "accessToken"));
    store.Set("refreshToken", Or(Get(tokens, "refreshToken"), Str("")));
    store.Set("userInfo", Get(data, "user"));
    store.Set("isLoggedIn", Bool(true));
    store.Set("loginTime", Str(now));
    if Truthy(Get(data, "session")) {
      store.Set("sessionInfo", Get(data, "session"));
    }
    if Request.TokenCrashes(Get(tokens, "accessToken")) {
      return Fails(Request.EngineTypeError);
    }
    return Done(data);
  }

  // ---------------------------------------------------------------------
  // refreshTokenApi, logoutApi, checkAndRefreshToken
  // ---------------------------------------------------------------------

  /** `response && response.code === 200 && response.data?.tokens`. */
  predicate RefreshAccepted(body: Json)
  {
    Truthy(body) && Get(body, "code") == Num(200) && Truthy(Get(Get(body, "data"), "tokens"))
  }

  /**
   * `refreshTokenApi()`: without a stored refresh token, or on any failure
   * of the call, the session is logged out and the error rethrown; on
   * success both tokens are replaced.
   */
  method RefreshTokenApi(store: Store, response: Request.Outcome) returns (r: ApiResult)
    modifies store
    ensures !Truthy(ReadFrom(old(store.items), "refreshToken")) ==>
              r == Fails(Request.ErrorMessage("没有刷新令牌")) && store.items == old(store.items) - Auth.AuthKeys
    ensures Truthy(ReadFrom(old(store.items), "refreshToken")) && (response.Expired? || response.Stuck?) ==>
              r == NeverSettles && store.items == old(store.items)
    ensures Truthy(ReadFrom(old(store.items), "refreshToken")) && response.Rejected? ==>
              r == Fails(response.why) && store.items == old(store.items) - Auth.AuthKeys
    ensures Truthy(ReadFrom(old(store.items), "refreshToken")) && response.Resolved? && !RefreshAccepted(response.body) ==>
              r == ThrowMessage(response.body, "刷新令牌失败") && store.items == old(store.items) - Auth.AuthKeys
    ensures Truthy(ReadFrom(old(store.items), "refreshToken")) && response.Resolved? && RefreshAccepted(response.body) ==>
              r == Done(Get(response.body, "data")) &&
              store.items == Request.Refreshed(old(store.items), Get(Get(response.body, "data"), "tokens"))
    ensures r.Fails? ==> !Auth.IsLoggedIn(store.items) && Auth.Consistent(store.items)
  {
    var refreshToken := ReadFrom(store.items, "refreshToken");
    if !Truthy(refreshToken) {
      Auth.Logout(store);
      return Fails(Request.ErrorMessage("没有刷新令牌"));
    }
    if response.Expired? || response.Stuck? {
      return NeverSettles;
    }
    if response.Rejected? {
      Auth.Logout(store);
      return Fails(response.why);
    }
    var body := response.body;
    if RefreshAccepted(body) {
      var tokens := Get(Get(body, "data"), "tokens");
      store.Set("token", Get(tokens, "accessToken"));
      store.Set("refreshToken", Get(tokens, "refreshToken"));
      return Done(Get(body, "data"));
    }
    Auth.Logout(store);
    return ThrowMessage(body, "刷新令牌失败");
  }

  /** The keys `logoutApi` removes: the five session keys, plus `sessionInfo`. */
  const LogoutKeys: set<string> := {"token", "refreshToken", "userInfo", "isLoggedIn", "loginTime", "sessionInfo"}

  lemma LogoutKeysCoverSession()
    ensures Auth.AuthKeys <= LogoutKeys && Request.SessionKeys <= LogoutKeys
    ensures LogoutKeys - Auth.AuthKeys == {"sessionInfo"}
  {
  }

  /**
   * `logoutApi(logoutAll)`: the `finally` clears six keys whether the server
   * call succeeded or failed; a call that never settles never reaches it.
   */
  method LogoutApi(store: Store, response: Request.Outcome) returns (r: ApiResult)
    modifies store
    ensures response.Expired? || response.Stuck? ==> r == NeverSettles && store.items == old(store.items)
    ensures response.Resolved? || response.Rejected? ==>
              r == Done(Undefined) && store.items == old(store.items) - LogoutKeys &&
              !Auth.IsLoggedIn(store.items) && Auth.Consistent(store.items)
  {
    if response.Expired? || response.Stuck? {
      return NeverSettles;
    }
    ghost var before := store.items;
    store.Remove("token");
    store.Remove("refreshToken");
    store.Remove("userInfo");
    store.Remove("isLoggedIn");
    store.Remove("loginTime");
    store.Remove("sessionInfo");
    RemoveSixKeys(before, store.items);
    LogoutEndsSession(before);
    return Done(Undefined);
  }

  lemma RemoveSixKeys(before: map<string, Json>, after: map<string, Json>)
    requires after == before - {"token"} - {"refreshToken"} - {"userInfo"} - {"isLoggedIn"} - {"loginTime"} - {"sessionInfo"}
    ensures after == before - LogoutKeys
  {
  }

  /** Whatever was stored, clearing the logout keys leaves no session behind. */
  lemma LogoutEndsSession(items: map<string, Json>)
    ensures !Auth.IsLoggedIn(items - LogoutKeys) && Auth.Consistent(items - LogoutKeys)
  {
  }

  /** The body of the logout request. */
  function LogoutRequestData(logoutAll: Json): Json
  {
    Obj([("logoutAll", logoutAll)])
  }

  const RefreshAheadMinutes := 50

  /** A stored login time more than 50 minutes old: the token is refreshed before it expires. */
  predicate RefreshDue(items: map<string, Json>, elapsed: Option<int>)
  {
    Truthy(ReadFrom(items, "loginTime")) && elapsed.Some? && elapsed.value > RefreshAheadMinutes
  }

  /**
   * `checkAndRefreshToken()`: false without both tokens; a login more than
   * 50 minutes old refreshes first and reports whether that worked; `None`
   * when the refresh never settles. `elapsed` is the minutes since
   * `loginTime`, `None` when that date does not parse.
   */
  method CheckAndRefreshToken(store: Store, elapsed: Option<int>, refreshResponse: Request.Outcome) returns (r: Option<bool>)
    modifies store
    ensures var items := old(store.items);
            !(Truthy(ReadFrom(items, "token")) && Truthy(ReadFrom(items, "refreshToken"))) ==>
              r == Some(false) && store.items == items
    ensures var items := old(store.items);
            Truthy(ReadFrom(items, "token")) && Truthy(ReadFrom(items, "refreshToken")) &&
            !RefreshDue(items, elapsed) ==>
              r == Some(true) && store.items == items
    ensures var items := old(store.items);
            Truthy(ReadFrom(items, "token")) && Truthy(ReadFrom(items, "refreshToken")) && RefreshDue(items, elapsed) ==>
              match refreshResponse
              case Resolved(body) =>
                if RefreshAccepted(body) then
                  r == Some(true) && store.items == Request.Refreshed(items, Get(Get(body, "data"), "tokens"))
                else r == Some(false) && store.items == items - Auth.AuthKeys
              case Rejected(_) => r == Some(false) && store.items == items - Auth.AuthKeys
              case _ => r == None && store.items == items
    ensures r == Some(false) ==> store.items == old(store.items) || !Auth.IsLoggedIn(store.items)
  {
    var token := ReadFrom(store.items, "token");
    var refreshToken := ReadFrom(store.items, "refreshToken");
    if !Truthy(token) || !Truthy(refreshToken) {
      return Some(false);
    }
    if RefreshDue(store.items, elapsed) {
      var refreshed := RefreshTokenApi(store, refreshResponse);
      match refreshed {
        case Done(_) => return Some(true);
        case Fails(_) => return Some(false);
        case NeverSettles => return None;
      }
    }
    return Some(true);
  }

  // ---------------------------------------------------------------------
  // retryRequest
  // ---------------------------------------------------------------------

  /** `error.message === '未登录' || error.message === '认证失败'`: never retried. */
  predicate IsAuthError(e: ErrorHandler.ErrorArg)
    requires !ErrorHandler.ErrNullish(e)
  {
    ErrorHandler.Field(e, "message") == Str("未登录") || ErrorHandler.Field(e, "message") == Str("认证失败")
  }

  /** The outcome and the number of calls, from attempt `i` on. */
  function RetryRequestFrom(attempts: nat -> ErrorHandler.Attempt, i: nat, maxRetries: int): (ErrorHandler.RetryOutcome, nat)
    requires i <= maxRetries
    decreases maxRetries - i
  {
    match attempts(i)
    case Succeeded(v) => (ErrorHandler.Returned(v), i + 1)
    case Failed(e) =>
      if ErrorHandler.ErrNullish(e) then (ErrorHandler.EngineTypeError, i + 1)
      else if IsAuthError(e) || i == maxRetries then (ErrorHandler.Raised(e), i + 1)
      else RetryRequestFrom(attempts, i + 1, maxRetries)
  }

  /** `retryRequest(apiFunction, maxRetries)`: what it ends with and how many calls it made. */
  function RetryRequestRun(attempts: nat -> ErrorHandler.Attempt, maxRetries: int): (ErrorHandler.RetryOutcome, nat)
  {
    if maxRetries < 0 then (ErrorHandler.RaisedNull, 0) else RetryRequestFrom(attempts, 0, maxRetries)
  }

  /** A failure that is retried: a non-null error that is not an authentication error. */
  predicate Retryable(a: ErrorHandler.Attempt)
  {
    a.Failed? && !ErrorHandler.ErrNullish(a.error) && !IsAuthError(a.error)
  }

  lemma {:induction false} RetryRequestFromMeaning(attempts: nat -> ErrorHandler.Attempt, i: nat, maxRetries: int)
    requires i <= maxRetries
    requires forall k :: 0 <= k < i ==> Retryable(attempts(k))
    ensures var (r, n) := RetryRequestFrom(attempts, i, maxRetries);
            i + 1 <= n <= maxRetries + 1 &&
            (forall k :: 0 <= k < n - 1 ==> Retryable(attempts(k))) &&
            !r.RaisedNull? &&
            (r.Returned? ==> attempts(n - 1) == ErrorHandler.Succeeded(r.value)) &&
            (r.Raised? ==> attempts(n - 1) == ErrorHandler.Failed(r.error) && !ErrorHandler.ErrNullish(r.error) &&
                           (IsAuthError(r.error) || n == maxRetries + 1))
    decreases maxRetries - i
  {
    if Retryable(attempts(i)) && i < maxRetries {
      RetryRequestFromMeaning(attempts, i + 1, maxRetries);
    }
  }

  /**
   * `retryRequest` makes at most `maxRetries + 1` calls, stops at the first
   * success, and stops at the first authentication error without retrying
   * it; any other error is rethrown only after the last allowed call.
   */
  lemma RetryRequestMeaning(attempts: nat -> ErrorHandler.Attempt, maxRetries: int)
    ensures maxRetries < 0 ==> RetryRequestRun(attempts, maxRetries) == (ErrorHandler.RaisedNull, 0)
    ensures maxRetries >= 0 ==>
              var (r, n) := RetryRequestRun(attempts, maxRetries);
              1 <= n <= maxRetries + 1 &&
              (forall k :: 0 <= k < n - 1 ==> Retryable(attempts(k))) &&
              (r.Returned? ==> attempts(n - 1) == ErrorHandler.Succeeded(r.value)) &&
              (r.Raised? ==> !ErrorHandler.ErrNullish(r.error) && (IsAuthError(r.error) || n == maxRetries + 1))
  {
    if maxRetries >= 0 {
      RetryRequestFromMeaning(attempts, 0, maxRetries);
    }
  }

  /** An authentication error on the first call is rethrown at once. */
  lemma AuthErrorNotRetried(attempts: nat -> ErrorHandler.Attempt, maxRetries: int)
    requires maxRetries >= 0
    requires attempts(0).Failed? && !ErrorHandler.ErrNullish(attempts(0).error) && IsAuthError(attempts(0).error)
    ensures RetryRequestRun(attempts, maxRetries) == (ErrorHandler.Raised(attempts(0).error), 1)
  {
  }

  /**
   * `retryRequest(apiFunction, maxRetries, delay)`: `attempts(i)` is what the
   * `i`-th call does; `waits` lists the pauses, `delay * (i + 1)` after the
   * `i`-th retried failure.
   */
  method RetryRequest(attempts: nat -> ErrorHandler.Attempt, maxRetries: int, delay: int)
    returns (r: ErrorHandler.RetryOutcome, calls: nat, waits: seq<int>)
    ensures (r, calls) == RetryRequestRun(attempts, maxRetries)
    ensures |waits| == if calls == 0 then 0 else calls - 1
    ensures forall k :: 0 <= k < |waits| ==> waits[k] == delay * (k + 1)
  {
    waits := [];
    var i: nat := 0;
    while i <= maxRetries
      invariant maxRetries >= 0 ==> i <= maxRetries && RetryRequestRun(attempts, maxRetries) == RetryRequestFrom(attempts, i, maxRetries)
      invariant maxRetries < 0 ==> i == 0
      invariant |waits| == i
      invariant forall k :: 0 <= k < i ==> waits[k] == delay * (k + 1)
      decreases maxRetries - i
    {
      match attempts(i) {
        case Succeeded(v) =>
          return ErrorHandler.Returned(v), i + 1, waits;
        case Failed(error) =>
          if ErrorHandler.ErrNullish(error) {
            return ErrorHandler.EngineTypeError, i + 1, waits;
          }
          if IsAuthError(error) || i == maxRetries {
            return ErrorHandler.Raised(error), i + 1, waits;
          }
          waits := waits + [delay * (i + 1)];
          i := i + 1;
      }
    }
    return ErrorHandler.RaisedNull, 0, waits;
  }

  // ---------------------------------------------------------------------
  // uploadDocumentApi
  // ---------------------------------------------------------------------

  /** `typeof v === 'object'` for a value already known to be truthy. */
  predicate IsObject(v: Json)
  {
    v.Obj? || v.Arr?
  }

  /**
   * Where the document record is found: `data.document`, `data` itself when
   * it has an id, the parse of a string `data` (`parsed`, `None` when it
   * does not parse), the envelope when it has an id; `null` otherwise.
   */
  function DocumentData(body: Json, parsed: Option<Json>): Json
  {
    var data := Get(body, "data");
    if Truthy(data) && Truthy(Get(data, "document")) && IsObject(Get(data, "document")) then Get(data, "document")
    else if Truthy(data) && IsObject(data) && Truthy(Get(data, "id")) then data
    else if data.Str? then (if parsed.Some? then parsed.value else Null)
    else if Truthy(Get(body, "id")) then body
    else Null
  }

  /** `a || b || c`. */
  function FirstOf(v: Json, a: string, b: string, c: string): Json
  {
    Or(Or(Get(v, a), Get(v, b)), Get(v, c))
  }

  /** The record `uploadDocumentApi` returns for a found document. */
  function UploadedDocument(d: Json): Json
  {
    Obj([("id", FirstOf(d, "id", "document_id", "fileId")),
         ("fileName", FirstOf(d, "fileName", "file_name", "filename")),
         ("originalName", FirstOf(d, "originalName", "original_name", "name")),
         ("documentType", FirstOf(d, "documentType", "document_type", "type")),
         ("description", Get(d, "description")),
         ("folder", Get(d, "folder")),
         ("status", Or(Get(d, "status"), Str("UPLOADED")))])
  }

  /** `uploadDocumentApi`'s handling of `uploadFile`'s outcome. */
  function UploadDocumentResult(response: Request.Outcome, parsed: Option<Json>): ApiResult
  {
    if !response.Resolved? then Passed(response)
    else
      var body := response.body;
      if Truthy(body) && Truthy(Get(body, "success")) && Get(body, "code") == Num(200) then
        var d := DocumentData(body, parsed);
        if Truthy(d) then Done(UploadedDocument(d)) else Done(body)
      else ThrowMessage(body, "文档上传失败")
  }

  /** The id is the first truthy of `id`, `document_id`, `fileId`; the status defaults to `UPLOADED`. */
  lemma UploadedDocumentIdFallback(d: Json)
    ensures var id := Get(UploadedDocument(d), "id");
            (Truthy(Get(d, "id")) ==> id == Get(d, "id")) &&
            (!Truthy(Get(d, "id")) && Truthy(Get(d, "document_id")) ==> id == Get(d, "document_id")) &&
            (!Truthy(Get(d, "id")) && !Truthy(Get(d, "document_id")) ==> id == Get(d, "fileId")) &&
            (Truthy(id) <==> Truthy(Get(d, "id")) || Truthy(Get(d, "document_id")) || Truthy(Get(d, "fileId")))
    ensures Truthy(Get(UploadedDocument(d), "status"))
  {
    UploadedDocumentFields(d);
    var a, b, c := Get(d, "id"), Get(d, "document_id"), Get(d, "fileId");
    assert Get(UploadedDocument(d), "id") == Or(Or(a, b), c);
  }

  lemma UploadedDocumentFields(d: Json)
    ensures Get(UploadedDocument(d), "id") == FirstOf(d, "id", "document_id", "fileId")
    ensures Get(UploadedDocument(d), "status") == Or(Get(d, "status"), Str("UPLOADED"))
  {
    DocumentRecordFields(FirstOf(d, "id", "document_id", "fileId"), FirstOf(d, "fileName", "file_name", "filename"),
                         FirstOf(d, "originalName", "original_name", "name"), FirstOf(d, "documentType", "document_type", "type"),
                         Get(d, "description"), Get(d, "folder"), Or(Get(d, "status"), Str("UPLOADED")));
  }

  lemma DocumentRecordFields(id: Json, fileName: Json, originalName: Json, documentType: Json,
                             description: Json, folder: Json, status: Json)
    ensures var o := Obj([("id", id), ("fileName", fileName), ("originalName", originalName), ("documentType", documentType),
                          ("description", description), ("folder", folder), ("status", status)]);
            Get(o, "id") == id && Get(o, "status") == status
  {
    var props := [("id", id), ("fileName", fileName), ("originalName", originalName), ("documentType", documentType),
                  ("description", description), ("folder", folder), ("status", status)];
    LookupAt(props, 0, "id");
    LookupAt(props, 6, "status");
  }

  /** A nested `document` object wins over every other place the record could be. */
  lemma DocumentDataPrefersNested(body: Json, parsed: Option<Json>)
    requires Truthy(Get(body, "data")) && Truthy(Get(Get(body, "data"), "document")) && IsObject(Get(Get(body, "data"), "document"))
    ensures DocumentData(body, parsed) == Get(Get(body, "data"), "document")
    ensures UploadDocumentResult(Request.Resolved(body), parsed) ==
              if Truthy(Get(body, "success")) && Get(body, "code") == Num(200) then Done(UploadedDocument(Get(Get(body, "data"), "document")))
              else ThrowMessage(body, "文档上传失败")
  {
  }

  // ---------------------------------------------------------------------
  // getExtractionResultsApi
  // ---------------------------------------------------------------------

  const ResultKeys: seq<string> :=
    ["id", "taskId", "status", "extractionSummary", "extractedData", "qualityMetrics", "createdAt", "completedAt"]

  /** An object holding exactly `keys`, each read from `v`. */
  function Project(v: Json, keys: seq<string>): (r: Json)
    ensures r.Obj? && |r.props| == |keys|
  {
    Obj(seq(|keys|, i requires 0 <= i < |keys| => (keys[i], Get(v, keys[i]))))
  }

  lemma {:induction false} ProjectLookup(v: Json, keys: seq<string>, key: string)
    ensures Lookup(Project(v, keys).props, key) == (if key in keys then Get(v, key) else Undefined)
    decreases |keys|
  {
    var props := Project(v, keys).props;
    if |keys| > 0 {
      var n := |keys| - 1;
      assert props[..n] == Project(v, keys[..n]).props;
      ProjectLookup(v, keys[..n], key);
      assert key in keys <==> key == keys[n] || key in keys[..n] by {
        assert keys == keys[..n] + [keys[n]];
      }
    }
  }

  /** Where the result record is read from: `data.result`, else `data`, else the envelope. */
  function ResultSource(body: Json): Json
  {
    if Truthy(Get(Get(body, "data"), "result")) then Get(Get(body, "data"), "result")
    else if Truthy(Get(body, "data")) then Get(body, "data")
    else body
  }

  /** `getExtractionResultsApi`'s handling of its request's outcome. */
  function ExtractionResults(response: Request.Outcome): ApiResult
  {
    if !response.Resolved? then Passed(response)
    else
      var body := response.body;
      if Truthy(body) && (Get(body, "code") == Num(200) || Truthy(Get(body, "success"))) then
        Done(Project(ResultSource(body), ResultKeys))
      else ThrowMessage(body, "获取提取结果失败")
  }

  /** Each of the eight result fields is copied from the record found, and nothing else is returned. */
  lemma ExtractionResultsFields(body: Json, key: string)
    requires Truthy(body) && (Get(body, "code") == Num(200) || Truthy(Get(body, "success")))
    ensures ExtractionResults(Request.Resolved(body)).Done?
    ensures Get(ExtractionResults(Request.Resolved(body)).value, key) ==
              if key in ResultKeys then Get(ResultSource(body), key) else Undefined
  {
    ProjectLookup(ResultSource(body), ResultKeys, key);
  }

  // ---------------------------------------------------------------------
  // getDocumentHistoryApi
  // ---------------------------------------------------------------------

  /** The list and the pagination record, by the first shape that matches. */
  function HistoryShape(data: Json): (Json, Json)
  {
    var nested := Get(data, "data");
    if Truthy(nested) && Truthy(Get(nested, "documents")) then (Get(nested, "documents"), Or(Get(nested, "pagination"), nested))
    else if Truthy(Get(data, "documents")) then (Get(data, "documents"), Or(Get(data, "pagination"), data))
    else if Truthy(Get(data, "items")) then (Get(data, "items"), data)
    else if data.Arr? then (data, Obj([]))
    else (Arr([]), Obj([]))
  }

  /** `Math.ceil(a / b)` on integers, `b != 0`. */
  function CeilDiv(a: int, b: int): (c: int)
    requires b != 0
    ensures b > 0 ==> (c - 1) * b < a <= c * b
  {
    if b > 0 then -((-a) / b) else -(a / (-b))
  }

  /** `Math.ceil(a / b)` on values; `undefined` stands for a quotient that is not a finite number. */
  function CeilValues(a: Json, b: Json): Json
  {
    if a.Num? && b.Num? && b.n != 0 then Num(CeilDiv(a.n, b.n)) else Undefined
  }

  /** The pagination as written: `totalPages` falls back to `ceil((total || length) / (pageSize || 20))`. */
  function PaginationAsWritten(documents: Json, p: Json): Json
  {
    Obj([("page", Or(Or(Get(p, "page"), Get(p, "current")), Num(1))),
         ("pageSize", Or(Or(Get(p, "pageSize"), Get(p, "size")), Num(20))),
         ("total", Or(Or(Get(p, "total"), Get(p, "totalCount")), Length(documents))),
         ("totalPages", Or(Or(Get(p, "totalPages"), Get(p, "pages")),
                           CeilValues(Or(Get(p, "total"), Length(documents)), Or(Get(p, "pageSize"), Num(20)))))])
  }

  /** The pagination, with `totalPages` computed from the `total` and `pageSize` it reports. */
  function Pagination(documents: Json, p: Json): Json
  {
    var pageSize := Or(Or(Get(p, "pageSize"), Get(p, "size")), Num(20));
    var total := Or(Or(Get(p, "total"), Get(p, "totalCount")), Length(documents));
    Obj([("page", Or(Or(Get(p, "page"), Get(p, "current")), Num(1))),
         ("pageSize", pageSize),
         ("total", total),
         ("totalPages", Or(Or(Get(p, "totalPages"), Get(p, "pages")), CeilValues(total, pageSize)))])
  }

  /** Reads field `k` of a four-field pagination record. */
  lemma PaginationFields(a: Json, b: Json, c: Json, d: Json)
    ensures var o := Obj([("page", a), ("pageSize", b), ("total", c), ("totalPages", d)]);
            Get(o, "page") == a && Get(o, "pageSize") == b && Get(o, "total") == c && Get(o, "totalPages") == d
  {
    var props := [("page", a), ("pageSize", b), ("total", c), ("totalPages", d)];
    LookupAt(props, 0, "page");
    LookupAt(props, 1, "pageSize");
    LookupAt(props, 2, "total");
    LookupAt(props, 3, "totalPages");
  }

  /**
   * When the server reports neither `totalPages` nor `pages`, the page count
   * covers exactly the reported total at the reported page size.
   */
  lemma PaginationCoversTotal(documents: Json, p: Json)
    ensures var o := Pagination(documents, p);
            var total := Get(o, "total");
            var pageSize := Get(o, "pageSize");
            var totalPages := Get(o, "totalPages");
            pageSize != Num(0) &&
            (!Truthy(Get(p, "totalPages")) && !Truthy(Get(p, "pages")) && total.Num? && pageSize.Num? && pageSize.n > 0 ==>
               totalPages.Num? && (totalPages.n - 1) * pageSize.n < total.n <= totalPages.n * pageSize.n)
  {
    var pageSize := Or(Or(Get(p, "pageSize"), Get(p, "size")), Num(20));
    var total := Or(Or(Get(p, "total"), Get(p, "totalCount")), Length(documents));
    PaginationFields(Or(Or(Get(p, "page"), Get(p, "current")), Num(1)), pageSize, total,
                     Or(Or(Get(p, "totalPages"), Get(p, "pages")), CeilValues(total, pageSize)));
  }

  /** A bare array reply gets page 1, page size 20, its length as total, and `ceil(length / 20)` pages. */
  lemma HistoryArrayDefaults(items: seq<Json>)
    ensures var (documents, p) := HistoryShape(Arr(items));
            documents == Arr(items) &&
            Pagination(documents, p) == Obj([("page", Num(1)), ("pageSize", Num(20)), ("total", Num(|items|)),
                                             ("totalPages", CeilValues(Num(|items|), Num(20)))])
  {
  }

  /** The shapes are tried in order: `data.data.documents`, `data.documents`, `data.items`, an array `data`. */
  lemma HistoryShapePrecedence(data: Json)
    ensures Truthy(Get(data, "data")) && Truthy(Get(Get(data, "data"), "documents")) ==>
              HistoryShape(data).0 == Get(Get(data, "data"), "documents")
    ensures !(Truthy(Get(data, "data")) && Truthy(Get(Get(data, "data"), "documents"))) && Truthy(Get(data, "documents")) ==>
              HistoryShape(data).0 == Get(data, "documents")
    ensures !(Truthy(Get(data, "data")) && Truthy(Get(Get(data, "data"), "documents"))) && !Truthy(Get(data, "documents")) && Truthy(Get(data, "items")) ==>
              HistoryShape(data) == (Get(data, "items"), data)
    ensures data.Arr? ==> HistoryShape(data) == (data, Obj([]))
    ensures !data.Arr? && !data.Obj? ==> HistoryShape(data) == (Arr([]), Obj([]))
  {
  }

  /**
   * As written, a reply that names its total `totalCount` and its page size
   * `size` gets a page count computed from the 2 records on this page and
   * the default size 20, not from the reported 45 records at 10 per page.
   */
  lemma HistoryTotalPagesAsWritten()
    ensures var data := Obj([("items", Arr([Num(1), Num(2)])), ("totalCount", Num(45)), ("size", Num(10))]);
            var (documents, p) := HistoryShape(data);
            var o := PaginationAsWritten(documents, p);
            Get(o, "total") == Num(45) && Get(o, "pageSize") == Num(10) && Get(o, "totalPages") == Num(1) &&
            Get(Pagination(documents, p), "totalPages") == Num(5)
  {
    var data := Obj([("items", Arr([Num(1), Num(2)])), ("totalCount", Num(45)), ("size", Num(10))]);
    SampleHistoryFields(data);
    SampleHistoryAbsent(data);
    var documents := Arr([Num(1), Num(2)]);
    assert HistoryShape(data) == (documents, data);
    assert CeilValues(Length(documents), Num(20)) == Num(1);
    assert CeilValues(Num(45), Num(10)) == Num(5);
    PaginationFields(Num(1), Num(10), Num(45), Num(1));
    PaginationFields(Num(1), Num(10), Num(45), Num(5));
  }

  /** The fields of the sample reply in `HistoryTotalPagesAsWritten`. */
  lemma SampleHistoryFields(data: Json)
    requires data == Obj([("items", Arr([Num(1), Num(2)])), ("totalCount", Num(45)), ("size", Num(10))])
    ensures Get(data, "items") == Arr([Num(1), Num(2)]) && Get(data, "totalCount") == Num(45) && Get(data, "size") == Num(10)
  {
    LookupAt(data.props, 0, "items");
    LookupAt(data.props, 1, "totalCount");
    LookupAt(data.props, 2, "size");
  }

  /** The fields the sample reply in `HistoryTotalPagesAsWritten` lacks. */
  lemma SampleHistoryAbsent(data: Json)
    requires data == Obj([("items", Arr([Num(1), Num(2)])), ("totalCount", Num(45)), ("size", Num(10))])
    ensures Get(data, "data") == Undefined && Get(data, "documents") == Undefined
    ensures Get(data, "page") == Undefined && Get(data, "current") == Undefined && Get(data, "pageSize") == Undefined
    ensures Get(data, "total") == Undefined && Get(data, "totalPages") == Undefined && Get(data, "pages") == Undefined
  {
  }

  /** What `getDocumentHistoryApi` accepts: `success`, code 200 and some `data`. */
  predicate HistoryAccepted(body: Json)
  {
    Truthy(body) && Truthy(Get(body, "success")) && Get(body, "code") == Num(200) && Truthy(Get(body, "data"))
  }

  /**
   * `getDocumentHistoryApi`'s handling of its request's outcome: an accepted
   * reply yields its records and their pagination, anything else fails with
   * the reply's message or `获取处理历史失败`. The page count is the
   * corrected one of `Pagination`.
   */
  function DocumentHistory(response: Request.Outcome): (r: ApiResult)
    ensures response.Rejected? ==> r == Fails(response.why)
    ensures response.Expired? || response.Stuck? ==> r == NeverSettles
    ensures response.Resolved? ==> (r.Done? <==> HistoryAccepted(response.body))
    ensures response.Resolved? && !HistoryAccepted(response.body) ==> r == ThrowMessage(response.body, "获取处理历史失败")
    ensures r.Done? ==>
              var (documents, p) := HistoryShape(Get(response.body, "data"));
              Get(r.value, "records") == documents && Get(r.value, "pagination") == Pagination(documents, p)
  {
    if !response.Resolved? then Passed(response)
    else
      var body := response.body;
      if HistoryAccepted(body) then
        var (documents, p) := HistoryShape(Get(body, "data"));
        HistoryRecordFields(documents, Pagination(documents, p));
        Done(Obj([("records", documents), ("pagination", Pagination(documents, p))]))
      else ThrowMessage(body, "获取处理历史失败")
  }

  lemma HistoryRecordFields(records: Json, pagination: Json)
    ensures var o := Obj([("records", records), ("pagination", pagination)]);
            Get(o, "records") == records && Get(o, "pagination") == pagination
  {
    LookupAt([("records", records), ("pagination", pagination)], 0, "records");
    LookupAt([("records", records), ("pagination", pagination)], 1, "pagination");
  }


  // ---------------------------------------------------------------------
  // exportResultsApi
  // ---------------------------------------------------------------------

  /** `a && b`. */
  function And(a: Json, b: Json): Json
  {
    if Truthy(a) then b else a
  }

  /** `v[0]`. */
  function First(v: Json): Json
  {
    match v
    case Arr(items) => if |items| > 0 then items[0] else Undefined
    case Str(s) => if |s| > 0 then Str([s[0]]) else Undefined
    case Obj(_) => Get(v, "0")
    case _ => Undefined
  }

  /** The export request body; a missing configuration makes `exportConfig.taskId` throw. */
  function ExportRequestData(config: Json): Res<Json>
  {
    if Nullish(config) then TypeError
    else
      var taskIds := Get(config, "taskIds");
      Ok(Obj([("taskId", Or(Get(config, "taskId"), And(taskIds, First(taskIds)))),
               ("format", Or(Get(config, "format"), Str("pdf"))),
               ("options", Or(Get(config, "options"), Obj([])))]))
  }

  /** `exportResultsApi`'s handling of its request's outcome, given the format it asked for. */
  function ExportResult(format: Json, response: Request.Outcome): ApiResult
  {
    if !response.Resolved? then Passed(response)
    else
      var body := response.body;
      if Truthy(body) && Get(body, "code") == Num(200) && Truthy(Get(body, "data")) then
        var data := Get(body, "data");
        Done(Obj([("downloadUrl", Get(data, "url")),
                  ("fileName", Or(Get(data, "fileName"), Str("提取结果." + (if format == Str("xlsx") then "xlsx" else "pdf"))))]))
      else ThrowMessage(body, "导出失败")
  }

  /** A task id given directly wins over the first of `taskIds`; the format defaults to `pdf`. */
  lemma ExportRequestDefaults(config: seq<(string, Json)>, ids: seq<Json>)
    ensures var d := ExportRequestData(Obj(config));
            d.Ok? &&
            (Truthy(Lookup(config, "taskId")) ==> Get(d.value, "taskId") == Lookup(config, "taskId")) &&
            (!Truthy(Lookup(config, "taskId")) && Lookup(config, "taskIds") == Arr(ids) && |ids| > 0 ==> Get(d.value, "taskId") == ids[0]) &&
            (!Truthy(Lookup(config, "format")) ==> Get(d.value, "format") == Str("pdf"))
  {
    var d := ExportRequestData(Obj(config));
    var props := d.value.props;
    LookupAt(props, 0, "taskId");
    LookupAt(props, 1, "format");
  }

  /** Without a server file name, the default one ends in `.xlsx` exactly for the `xlsx` format. */
  lemma ExportDefaultFileName(format: Json, data: seq<(string, Json)>)
    requires !Truthy(Lookup(data, "fileName"))
    ensures var r := ExportResult(format, Request.Resolved(Obj([("code", Num(200)), ("data", Obj(data))])));
            r.Done? && Get(r.value, "fileName") == Str(if format == Str("xlsx") then "提取结果.xlsx" else "提取结果.pdf")
  {
    var body := Obj([("code", Num(200)), ("data", Obj(data))]);
    LookupAt(body.props, 0, "code");
    LookupAt(body.props, 1, "data");
    var name := Str("提取结果." + (if format == Str("xlsx") then "xlsx" else "pdf"));
    assert Or(Get(Obj(data), "fileName"), name) == name;
    assert "提取结果." + "xlsx" == "提取结果.xlsx";
    assert "提取结果." + "pdf" == "提取结果.pdf";
  }

  // ---------------------------------------------------------------------
  // getGlobalConfigApi
  // ---------------------------------------------------------------------

  /** A string reply becomes a record whose flag says whether it reports success. */
  function ConfigFromString(s: string): Json
  {
    Obj([("has_global_config", Bool(Contains(s, "成功"))), ("message", Str(s))])
  }

  /** An object without `has_global_config` gets it: set when it names a model or an API key. */
  function EnsureConfigFlag(config: Json): Json
  {
    if config.Obj? && !HasKey(config.props, "has_global_config") then
      Obj(Put(config.props, "has_global_config", Bool(Truthy(Get(config, "model_name")) || Truthy(Get(config, "api_key")))))
    else config
  }

  /** `getGlobalConfigApi`'s handling of its request's outcome. */
  function GlobalConfig(response: Request.Outcome): ApiResult
  {
    if !response.Resolved? then Passed(response)
    else
      var body := response.body;
      if Truthy(body) && Get(body, "code") == Num(200) then
        var data := Get(body, "data");
        Done(EnsureConfigFlag(if data.Str? then ConfigFromString(data.s) else data))
      else ThrowMessage(body, "获取全局配置失败")
  }

  /**
   * A string or object configuration always comes back with a
   * `has_global_config` flag: for a string, whether it contains `成功`; for an
   * object that lacked it, whether it names a model or an API key; an object
   * that had it keeps its value.
   */
  lemma GlobalConfigFlag(body: Json)
    requires Truthy(body) && Get(body, "code") == Num(200)
    ensures var r := GlobalConfig(Request.Resolved(body));
            var data := Get(body, "data");
            r.Done? &&
            (data.Str? ==> Get(r.value, "has_global_config") == Bool(Contains(data.s, "成功"))) &&
            (data.Obj? && !HasKey(data.props, "has_global_config") ==>
               Get(r.value, "has_global_config") == Bool(Truthy(Get(data, "model_name")) || Truthy(Get(data, "api_key")))) &&
            (data.Obj? && HasKey(data.props, "has_global_config") ==> r.value == data)
  {
    var data := Get(body, "data");
    if data.Str? {
      var c := ConfigFromString(data.s);
      assert HasKey(c.props, "has_global_config") by { assert c.props[0].0 == "has_global_config"; }
      assert Lookup(c.props, "has_global_config") == Bool(Contains(data.s, "成功")) by {
        assert c.props[..1] == [c.props[0]];
      }
    }
  }
}
