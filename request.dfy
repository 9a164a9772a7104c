/**
 * The HTTP layer of the client (src/utils/api.js): `request`, which resolves
 * the URL, attaches the bearer token, sends through `uni.request` and settles
 * on the reply, with one refresh-and-replay on 401; `uploadFile`'s reply
 * check; and the error-message tables both use.
 *
 * The transport is a script: `transport(i)` is the reply to the `i`-th call
 * of `uni.request` made by one `request`. The 50 ms pause before re-reading
 * the token is a no-op; what the second read sees is a parameter.
 */
module Request {
  import opened Wrappers
  import opened Js
  import opened Storage
  import Auth
  import ErrorHandler

  /** Why a request's promise rejected. */
  datatype Rejection =
    | ErrorMessage(message: string)   // `reject(new Error(message))`
    | RawFailure(error: Json)         // the replay's `fail: reject` passes uni's failure object through
    | EngineTypeError                 // a TypeError thrown in the async body before sending

  /**
   * How a request ends. `Expired` and `Stuck` never settle: `Expired` after
   * clearing the session (the 401 paths that call `handleTokenExpired`),
   * `Stuck` when a callback throws, which nothing catches.
   */
  datatype Outcome = Resolved(body: Json) | Rejected(why: Rejection) | Expired | Stuck

  /** What `uni.request` calls back with. */
  datatype Reply = Response(statusCode: int, data: Json) | Failure(error: Json)

  /** One call of `uni.request`. */
  datatype Outgoing = Outgoing(url: string, verb: string, data: Json, headers: Json)

  /** `request`'s options (the timeout only reaches the transport and is not modelled). */
  datatype RequestOptions = RequestOptions(verb: string, data: Json, headers: Json, needAuth: bool)

  const DefaultOptions := RequestOptions("GET", Null, Obj([]), true)

  const JsonContentType := "application/json"
  const RefreshPath := "/auth/refresh"

  /** The keys `handleTokenExpired` removes. */
  const SessionKeys: set<string> := {"token", "refreshToken", "userInfo", "isLoggedIn"}

  // ---------------------------------------------------------------------
  // URL and headers
  // ---------------------------------------------------------------------

  /** `url.startsWith('http') ? url : BASE_URL + url`. */
  function ResolveUrl(baseUrl: string, url: string): (r: string)
    ensures EndsWith(r, url)
  {
    if StartsWith(url, "http") then url else baseUrl + url
  }

  /** The URL is used as given exactly when it starts with `http` (or there is no base to add). */
  lemma ResolveUrlMeaning(baseUrl: string, url: string)
    ensures StartsWith(url, "http") ==> ResolveUrl(baseUrl, url) == url
    ensures !StartsWith(url, "http") ==> StartsWith(ResolveUrl(baseUrl, url), baseUrl)
    ensures ResolveUrl(baseUrl, url) == url <==> StartsWith(url, "http") || baseUrl == ""
  {
    if !StartsWith(url, "http") && baseUrl + url == url {
      assert |baseUrl| == 0;
    }
  }

  /** `method.toUpperCase()` for the ASCII method names. */
  function UpperAscii(s: string): (r: string)
    ensures |r| == |s|
  {
    seq(|s|, i requires 0 <= i < |s| => if 'a' <= s[i] <= 'z' then (s[i] as int - 32) as char else s[i])
  }

  /** `{ 'Content-Type': 'application/json', ...headers }`. */
  function BaseHeaders(headers: Json): (h: Json)
    ensures h.Obj?
  {
    Spread(Obj([("Content-Type", Str(JsonContentType))]), headers)
  }

  /** `h['Authorization'] = \`Bearer ${token}\`` (section 2.1 of RFC 6750). */
  function WithBearer(h: Json, token: Json): (r: Json)
    requires h.Obj?
  {
    Obj(Put(h.props, "Authorization", Str("Bearer " + Display(token))))
  }

  /** The headers of the first call: the bearer only with a token and `needAuth`. */
  function RequestHeaders(headers: Json, token: Json, needAuth: bool): Json
  {
    if Truthy(token) && needAuth then WithBearer(BaseHeaders(headers), token) else BaseHeaders(headers)
  }

  /**
   * The caller's headers override the default content type; the bearer is
   * added only with a token and `needAuth` and then overrides the caller's
   * own `Authorization`; every other caller header is sent as given.
   */
  lemma RequestHeadersMeaning(headers: Json, token: Json, needAuth: bool, key: string)
    ensures var h := RequestHeaders(headers, token, needAuth);
            var caller := SpreadProps(headers);
            (key == "Authorization" && Truthy(token) && needAuth ==> Get(h, key) == Str("Bearer " + Display(token))) &&
            (key == "Content-Type" && !HasKey(caller, key) ==> Get(h, key) == Str(JsonContentType)) &&
            (HasKey(caller, key) && !(key == "Authorization" && Truthy(token) && needAuth) ==> Get(h, key) == Lookup(caller, key)) &&
            (!HasKey(caller, key) && key != "Content-Type" && !(key == "Authorization" && Truthy(token) && needAuth) ==> Get(h, key) == Undefined)
  {
    var base := [("Content-Type", Str(JsonContentType))];
    SpreadOverrides(Obj(base), headers, key);
    assert HasKey(base, key) <==> key == "Content-Type" by {
      if HasKey(base, key) {
        var i :| 0 <= i < |base| && base[i].0 == key;
      }
      if key == "Content-Type" {
        assert base[0].0 == key;
      }
    }
  }

  // ---------------------------------------------------------------------
  // The token read
  // ---------------------------------------------------------------------

  /** The first read found no token although the user is flagged as logged in: read once more. */
  predicate NeedsSecondRead(items: map<string, Json>)
  {
    !Truthy(ReadFrom(items, "token")) && Truthy(ReadFrom(items, "isLoggedIn"))
  }

  /** The token `request` ends up with; `late` is what the second read sees. */
  function TokenUsed(items: map<string, Json>, late: Json): Json
  {
    if NeedsSecondRead(items) then late else ReadFrom(items, "token")
  }

  /** Logging `token.substring(0, 20)` throws for a truthy token that is not a string. */
  predicate TokenCrashes(token: Json)
  {
    Truthy(token) && !token.Str?
  }

  /** A stored token, or a user not flagged as logged in, is never read twice. */
  lemma SecondReadOnlyWhenNeeded(items: map<string, Json>, late: Json)
    ensures Truthy(ReadFrom(items, "token")) ==> TokenUsed(items, late) == ReadFrom(items, "token")
    ensures !Truthy(ReadFrom(items, "isLoggedIn")) ==> TokenUsed(items, late) == ReadFrom(items, "token")
    ensures NeedsSecondRead(items) ==> TokenUsed(items, late) == late
  {
  }

  /** The first call `request` makes. */
  function FirstCall(baseUrl: string, url: string, opts: RequestOptions, token: Json): Outgoing
  {
    Outgoing(ResolveUrl(baseUrl, url), UpperAscii(opts.verb), opts.data, RequestHeaders(opts.headers, token, opts.needAuth))
  }

  // ---------------------------------------------------------------------
  // Error messages
  // ---------------------------------------------------------------------

  /** One entry of `error.details`: `field: message`, else the message, else `字段验证失败`. */
  function DetailText(detail: Json): Json
    requires !Nullish(detail)
  {
    var field := Get(detail, "field");
    var message := Get(detail, "message");
    if Truthy(field) && Truthy(message) then Str(Display(field) + ": " + Display(message))
    else Or(message, Str("字段验证失败"))
  }

  /** The texts of every detail, in order. */
  function DetailTexts(details: seq<Json>): seq<Json>
    requires forall k :: 0 <= k < |details| ==> !Nullish(details[k])
  {
    seq(|details|, k requires 0 <= k < |details| => DetailText(details[k]))
  }

  /**
   * `getDetailedErrorMessage(responseData)`. A `null` entry in the details
   * makes reading its `field` throw.
   */
  function GetDetailedErrorMessage(body: Json): (r: Res<Json>)
  {
    if !Truthy(body) then Ok(Str("未知错误"))
    else
      var error := Get(body, "error");
      var details := Get(error, "details");
      if details.Arr? then
        if forall k :: 0 <= k < |details.items| ==> !Nullish(details.items[k]) then
          Ok(Str(JoinValues(DetailTexts(details.items), "; ")))
        else TypeError
      else if Truthy(Get(error, "type")) && Truthy(Get(body, "message")) then
        Ok(Str(Display(Get(error, "type")) + ": " + Display(Get(body, "message"))))
      else Ok(Or(Get(body, "message"), Str("操作失败")))
  }

  /**
   * The precedence of `getDetailedErrorMessage`: no body, then a details
   * array, then type and message, then the message or `操作失败`.
   */
  lemma DetailedMessagePrecedence(body: Json)
    ensures !Truthy(body) ==> GetDetailedErrorMessage(body) == Ok(Str("未知错误"))
    ensures Truthy(body) && Get(Get(body, "error"), "details").Arr? ==>
              (GetDetailedErrorMessage(body).TypeError? <==>
                 exists k :: 0 <= k < |Get(Get(body, "error"), "details").items| && Nullish(Get(Get(body, "error"), "details").items[k]))
    ensures Truthy(body) && !Get(Get(body, "error"), "details").Arr? && Truthy(Get(Get(body, "error"), "type")) && Truthy(Get(body, "message")) ==>
              GetDetailedErrorMessage(body) == Ok(Str(Display(Get(Get(body, "error"), "type")) + ": " + Display(Get(body, "message"))))
    ensures Truthy(body) && !Get(Get(body, "error"), "details").Arr? && !(Truthy(Get(Get(body, "error"), "type")) && Truthy(Get(body, "message"))) ==>
              GetDetailedErrorMessage(body) == Ok(Or(Get(body, "message"), Str("操作失败")))
    ensures GetDetailedErrorMessage(body).Ok? ==> Truthy(GetDetailedErrorMessage(body).value) || GetDetailedErrorMessage(body).value.Str?
  {
  }

  /** A single complete detail is reported as `field: message`. */
  lemma DetailedMessageSingleField(body: Json, detail: seq<(string, Json)>, field: string, message: string)
    requires Truthy(body) && Get(Get(body, "error"), "details") == Arr([Obj(detail)])
    requires Lookup(detail, "field") == Str(field) && Lookup(detail, "message") == Str(message)
    requires field != "" && message != ""
    ensures GetDetailedErrorMessage(body) == Ok(Str(field + ": " + message))
  {
    var texts := DetailTexts([Obj(detail)]);
    assert texts == [Str(field + ": " + message)];
    assert seq(|texts|, i requires 0 <= i < |texts| => JoinElement(texts[i])) == [field + ": " + message];
  }

  /**
   * One more detail appends `"; "` and that detail's text to the message the
   * earlier details give: the result is the texts in order, joined.
   */
  lemma DetailedMessageAppendDetail(shorter: Json, longer: Json, items: seq<Json>, d: Json)
    requires Truthy(shorter) && Truthy(longer)
    requires Get(Get(shorter, "error"), "details") == Arr(items)
    requires Get(Get(longer, "error"), "details") == Arr(items + [d])
    requires |items| > 0 && !Nullish(d)
    requires forall k :: 0 <= k < |items| ==> !Nullish(items[k])
    ensures GetDetailedErrorMessage(shorter).Ok? && GetDetailedErrorMessage(shorter).value.Str?
    ensures GetDetailedErrorMessage(longer) == Ok(Str(GetDetailedErrorMessage(shorter).value.s + "; " + JoinElement(DetailText(d))))
  {
    var all := items + [d];
    assert forall k :: 0 <= k < |all| ==> !Nullish(all[k]);
    assert DetailTexts(all) == DetailTexts(items) + [DetailText(d)];
    JoinValuesSnoc(DetailTexts(items), DetailText(d), "; ");
  }

  /** Two complete details are reported as `f1: m1; f2: m2`. */
  lemma DetailedMessageTwoFields(body: Json, d1: seq<(string, Json)>, d2: seq<(string, Json)>, f1: string, m1: string, f2: string, m2: string)
    requires Truthy(body) && Get(Get(body, "error"), "details") == Arr([Obj(d1), Obj(d2)])
    requires Lookup(d1, "field") == Str(f1) && Lookup(d1, "message") == Str(m1) && f1 != "" && m1 != ""
    requires Lookup(d2, "field") == Str(f2) && Lookup(d2, "message") == Str(m2) && f2 != "" && m2 != ""
    ensures GetDetailedErrorMessage(body) == Ok(Str((f1 + ": " + m1) + "; " + (f2 + ": " + m2)))
  {
    var items := [Obj(d1), Obj(d2)];
    DetailTextComplete(d1, f1, m1);
    DetailTextComplete(d2, f2, m2);
    DetailTextsPair(Obj(d1), Obj(d2));
    JoinValuesPair(Str(f1 + ": " + m1), Str(f2 + ": " + m2), "; ");
    DetailedMessageOfArray(body, items);
  }

  lemma DetailTextsPair(a: Json, b: Json)
    requires !Nullish(a) && !Nullish(b)
    ensures DetailTexts([a, b]) == [DetailText(a), DetailText(b)]
  {
  }

  /** With a details array free of `null`, the message is the details' texts joined by `"; "`. */
  lemma DetailedMessageOfArray(body: Json, items: seq<Json>)
    requires Truthy(body) && Get(Get(body, "error"), "details") == Arr(items)
    requires forall k :: 0 <= k < |items| ==> !Nullish(items[k])
    ensures GetDetailedErrorMessage(body) == Ok(Str(JoinValues(DetailTexts(items), "; ")))
  {
  }

  lemma DetailTextComplete(detail: seq<(string, Json)>, field: string, message: string)
    requires Lookup(detail, "field") == Str(field) && Lookup(detail, "message") == Str(message)
    requires field != "" && message != ""
    ensures DetailText(Obj(detail)) == Str(field + ": " + message)
  {
  }


  /** Statuses whose message ignores the body. */
  const FixedStatusMessages: map<int, string> := map[
    403 := "权限不足，无法访问该资源",
    404 := "请求的资源不存在",
    413 := "文件大小超过限制",
    415 := "不支持的文件格式",
    429 := "请求过于频繁，请稍后重试",
    500 := "服务器内部错误，请稍后重试",
    502 := "服务暂时不可用，请稍后重试",
    503 := "服务维护中，请稍后重试"]

  /** Statuses that prefer the body's message, with their default. */
  const BodyFirstDefaults: map<int, string> := map[
    400 := "请求参数错误",
    409 := "资源冲突",
    422 := "数据验证失败"]

  /** `responseData?.message`. */
  function BodyMessage(body: Json): Json
  {
    if Nullish(body) then Undefined else Get(body, "message")
  }

  /** The message of an HTTP error other than 200, 201 and 401 (the `switch`), as `new Error` turns it into a string. */
  function HttpErrorMessage(status: int, body: Json): string
  {
    var m :=
      if status == 400 then Or(BodyMessage(body), Str("请求参数错误"))
      else if status == 403 then Str("权限不足，无法访问该资源")
      else if status == 404 then Str("请求的资源不存在")
      else if status == 409 then Or(BodyMessage(body), Str("资源冲突"))
      else if status == 413 then Str("文件大小超过限制")
      else if status == 415 then Str("不支持的文件格式")
      else if status == 422 then Or(BodyMessage(body), Str("数据验证失败"))
      else if status == 429 then Str("请求过于频繁，请稍后重试")
      else if status == 500 then Str("服务器内部错误，请稍后重试")
      else if status == 502 then Str("服务暂时不可用，请稍后重试")
      else if status == 503 then Str("服务维护中，请稍后重试")
      else Or(BodyMessage(body), Str("HTTP " + IntToString(status) + ": Unknown error"));
    Display(m)
  }

  /**
   * The status table: eight statuses have a fixed message whatever the body
   * says; 400, 409 and 422 prefer the body's message; any other status gives
   * the body's message or `HTTP <status>: Unknown error`.
   */
  lemma HttpErrorTable(status: int, body: Json)
    ensures status in FixedStatusMessages ==> HttpErrorMessage(status, body) == FixedStatusMessages[status]
    ensures status in BodyFirstDefaults ==>
              HttpErrorMessage(status, body) == Display(Or(BodyMessage(body), Str(BodyFirstDefaults[status])))
    ensures status !in FixedStatusMessages && status !in BodyFirstDefaults ==>
              HttpErrorMessage(status, body) == Display(Or(BodyMessage(body), Str("HTTP " + IntToString(status) + ": Unknown error")))
    ensures !Truthy(BodyMessage(body)) && status !in FixedStatusMessages && status !in BodyFirstDefaults ==>
              HttpErrorMessage(status, body) == "HTTP " + IntToString(status) + ": Unknown error"
  {
  }

  /** The message of a transport failure; an `errMsg` that is neither a string nor an array makes `.includes` throw. */
  function TransportMessage(error: Json): Res<string>
  {
    if Nullish(error) then TypeError
    else
      var errMsg := Get(error, "errMsg");
      if !Truthy(errMsg) then Ok("网络连接失败")
      else match ErrorHandler.Includes(errMsg, "timeout")
        case TypeError => TypeError
        case Ok(timeout) =>
          if timeout then Ok("请求超时，请检查网络连接")
          else if ErrorHandler.Includes(errMsg, "network").value then Ok("网络连接失败，请检查网络设置")
          else if ErrorHandler.Includes(errMsg, "abort").value then Ok("请求被取消")
          else Ok(Display(errMsg))
  }

  /** Transport failures are classified by `timeout`, then `network`, then `abort`, then the raw text; no text gives `网络连接失败`. */
  lemma TransportMessagePrecedence(error: seq<(string, Json)>, s: string)
    ensures Lookup(error, "errMsg") == Str(s) ==>
              TransportMessage(Obj(error)) ==
                Ok(if s == "" then "网络连接失败"
                   else if Contains(s, "timeout") then "请求超时，请检查网络连接"
                   else if Contains(s, "network") then "网络连接失败，请检查网络设置"
                   else if Contains(s, "abort") then "请求被取消"
                   else s)
    ensures !Truthy(Lookup(error, "errMsg")) ==> TransportMessage(Obj(error)) == Ok("网络连接失败")
  {
  }

  // ---------------------------------------------------------------------
  // Settling
  // ---------------------------------------------------------------------

  /** A status-200 reply: only `success === false` rejects; every other body resolves unchanged. */
  function Settle200(body: Json): Outcome
  {
    if Truthy(body) && Get(body, "success") == Bool(true) && Get(body, "code") == Num(200) then Resolved(body)
    else if Truthy(body) && Get(body, "success") == Bool(false) then
      match GetDetailedErrorMessage(body)
      case TypeError => Stuck
      case Ok(m) => Rejected(ErrorMessage(Display(m)))
    else if Truthy(body) && Get(body, "code") == Num(200) then Resolved(body)
    else Resolved(body)
  }

  /** The three resolving branches of a 200 reply collapse into one: the body is resolved unless `success` is exactly `false`. */
  lemma Settle200Meaning(body: Json)
    ensures Settle200(body).Resolved? <==> !(Truthy(body) && Get(body, "success") == Bool(false))
    ensures Settle200(body).Resolved? ==> Settle200(body).body == body
    ensures Settle200(body).Rejected? ==>
              GetDetailedErrorMessage(body).Ok? && Settle200(body).why == ErrorMessage(Display(GetDetailedErrorMessage(body).value))
    ensures Settle200(body).Stuck? <==> Truthy(body) && Get(body, "success") == Bool(false) && GetDetailedErrorMessage(body).TypeError?
  {
  }

  predicate Is401(reply: Reply)
  {
    reply.Response? && reply.statusCode == 401
  }

  /** How the first reply settles the request when it is not a 401. */
  function FirstSettle(reply: Reply): Outcome
    requires !Is401(reply)
  {
    match reply
    case Response(status, body) =>
      if status == 200 then Settle200(body)
      else if status == 201 then Resolved(body)
      else Rejected(ErrorMessage(HttpErrorMessage(status, body)))
    case Failure(error) =>
      match TransportMessage(error)
      case TypeError => Stuck
      case Ok(m) => Rejected(ErrorMessage(m))
  }

  /** 2xx statuses other than 200 and 201 are errors too; 201 always resolves the body. */
  lemma FirstSettleMeaning(reply: Reply)
    requires !Is401(reply)
    ensures reply.Response? && reply.statusCode == 201 ==> FirstSettle(reply) == Resolved(reply.data)
    ensures reply.Response? && reply.statusCode != 200 && reply.statusCode != 201 ==>
              FirstSettle(reply) == Rejected(ErrorMessage(HttpErrorMessage(reply.statusCode, reply.data)))
    ensures FirstSettle(reply) != Expired
    ensures FirstSettle(reply).Resolved? ==> reply.Response? && (reply.statusCode == 200 || reply.statusCode == 201)
  {
  }

  /** A refresh is attempted only with a stored refresh token and when the URL is not the refresh endpoint itself. */
  predicate RefreshGuard(items: map<string, Json>, fullUrl: string)
  {
    Truthy(ReadFrom(items, "refreshToken")) && !Contains(fullUrl, RefreshPath)
  }

  lemma {:induction false} ContainsSuffix(a: string, b: string)
    ensures Contains(a + b, b)
    decreases |a|
  {
    if |a| == 0 {
      assert a + b == b;
      assert (a + b)[..|b|] == b;
    } else {
      assert (a + b)[1..] == a[1..] + b;
      ContainsSuffix(a[1..], b);
    }
  }

  /** A 401 from the refresh endpoint itself never triggers another refresh. */
  lemma NoRefreshOfRefresh(items: map<string, Json>, baseUrl: string)
    ensures !RefreshGuard(items, ResolveUrl(baseUrl, RefreshPath))
  {
    ContainsSuffix(baseUrl, RefreshPath);
  }

  /** The refresh call: a POST of the stored refresh token to the refresh endpoint, without a bearer. */
  function RefreshCall(baseUrl: string, refreshToken: Json): Outgoing
  {
    Outgoing(baseUrl + RefreshPath, "POST", Obj([("refreshToken", refreshToken)]), Obj([("Content-Type", Str(JsonContentType))]))
  }

  /** How the refresh reply is judged: new tokens, a refusal, or a crash reading `.code` of a missing body. */
  datatype RefreshVerdict = Accept(tokens: Json) | Decline | Crash

  /** `refreshRes.statusCode === 200 && refreshRes.data.code === 200 && refreshRes.data.data && refreshRes.data.data.tokens`. */
  function JudgeRefresh(reply: Reply): (v: RefreshVerdict)
    ensures v.Accept? ==> Truthy(v.tokens)
  {
    match reply
    case Failure(_) => Decline
    case Response(status, body) =>
      if status != 200 then Decline
      else if Nullish(body) then Crash
      else
        var inner := Get(body, "data");
        if Get(body, "code") == Num(200) && Truthy(inner) && Truthy(Get(inner, "tokens")) then Accept(Get(inner, "tokens"))
        else Decline
  }

  /** A refresh is accepted only when status, code and tokens are all present. */
  lemma JudgeRefreshMeaning(reply: Reply)
    ensures JudgeRefresh(reply).Accept? <==>
              reply.Response? && reply.statusCode == 200 && !Nullish(reply.data) &&
              Get(reply.data, "code") == Num(200) && Truthy(Get(Get(reply.data, "data"), "tokens"))
    ensures JudgeRefresh(reply).Crash? <==> reply.Response? && reply.statusCode == 200 && Nullish(reply.data)
  {
  }

  /** The replay: the first call again with the new access token as bearer. */
  function Replay(first: Outgoing, accessToken: Json): Outgoing
    requires first.headers.Obj?
  {
    first.(headers := WithBearer(first.headers, accessToken))
  }

  /** How the replay settles: only a 200 resolves, and it is never refreshed again. */
  function ReplayOutcome(reply: Reply): (o: Outcome)
    ensures o != Expired && o != Stuck
    ensures o.Resolved? <==> reply.Response? && reply.statusCode == 200
  {
    match reply
    case Response(status, body) =>
      if status == 200 then Resolved(body)
      else Rejected(ErrorMessage("重试请求失败: " + IntToString(status)))
    case Failure(error) => Rejected(RawFailure(error))
  }

  /** `handleTokenExpired` leaves nobody logged in, hence a consistent session. */
  lemma ExpiredSessionIsLoggedOut(items: map<string, Json>)
    ensures !Auth.IsLoggedIn(items - SessionKeys)
    ensures Auth.Consistent(items - SessionKeys)
    ensures forall k :: k in items && k !in SessionKeys ==> k in items - SessionKeys && (items - SessionKeys)[k] == items[k]
  {
  }

  /** The storage after a refresh was accepted. */
  function Refreshed(items: map<string, Json>, tokens: Json): map<string, Json>
  {
    items["token" := Get(tokens, "accessToken")]["refreshToken" := Get(tokens, "refreshToken")]
  }

  // ---------------------------------------------------------------------
  // request
  // ---------------------------------------------------------------------

  /** `handleTokenExpired()`: remove the four session keys (the toast and the navigation are not modelled). */
  method HandleTokenExpired(store: Store)
    modifies store
    ensures store.items == old(store.items) - SessionKeys
  {
    store.Remove("token");
    store.Remove("refreshToken");
    store.Remove("userInfo");
    store.Remove("isLoggedIn");
    assert store.items == old(store.items) - {"token"} - {"refreshToken"} - {"userInfo"} - {"isLoggedIn"};
  }

  /** The 401 branch of the success callback. */
  method On401(store: Store, baseUrl: string, first: Outgoing, transport: nat -> Reply)
    returns (outcome: Outcome, sent: seq<Outgoing>)
    requires first.headers.Obj?
    modifies store
    ensures var items := old(store.items);
            !RefreshGuard(items, first.url) ==> sent == [] && outcome == Expired && store.items == items - SessionKeys
    ensures var items := old(store.items);
            RefreshGuard(items, first.url) ==>
              |sent| >= 1 && sent[0] == RefreshCall(baseUrl, ReadFrom(items, "refreshToken")) &&
              match JudgeRefresh(transport(1))
              case Crash => sent == [sent[0]] && outcome == Stuck && store.items == items
              case Decline => sent == [sent[0]] && outcome == Expired && store.items == items - SessionKeys
              case Accept(tokens) =>
                sent == [sent[0], Replay(first, Get(tokens, "accessToken"))] &&
                store.items == Refreshed(items, tokens) && outcome == ReplayOutcome(transport(2))
  {
    var refreshToken := ReadFrom(store.items, "refreshToken");
    if !(Truthy(refreshToken) && !Contains(first.url, RefreshPath)) {
      HandleTokenExpired(store);
      return Expired, [];
    }
    sent := [RefreshCall(baseUrl, refreshToken)];
    var verdict := JudgeRefresh(transport(1));
    match verdict {
      case Crash =>
        outcome := Stuck;
      case Decline =>
        HandleTokenExpired(store);
        outcome := Expired;
      case Accept(tokens) =>
        store.Set("token", Get(tokens, "accessToken"));
        store.Set("refreshToken", Get(tokens, "refreshToken"));
        sent := sent + [Replay(first, Get(tokens, "accessToken"))];
        outcome := ReplayOutcome(transport(2));
    }
  }

  /**
   * `request(url, options)`. `lateToken` is what the token read after the
   * pause sees; `transport(i)` answers the `i`-th call. Returns how the
   * promise ends, the calls made in order, and how often the token was read.
   */
  method Request(store: Store, baseUrl: string, url: string, opts: RequestOptions, lateToken: Json, transport: nat -> Reply)
    returns (outcome: Outcome, sent: seq<Outgoing>, tokenReads: nat)
    modifies store
    ensures tokenReads == if NeedsSecondRead(old(store.items)) then 2 else 1
    ensures var token := TokenUsed(old(store.items), lateToken);
            TokenCrashes(token) ==> outcome == Rejected(EngineTypeError) && sent == [] && store.items == old(store.items)
    ensures var token := TokenUsed(old(store.items), lateToken);
            !TokenCrashes(token) ==> 1 <= |sent| <= 3 && sent[0] == FirstCall(baseUrl, url, opts, token)
    ensures var token := TokenUsed(old(store.items), lateToken);
            !TokenCrashes(token) && !Is401(transport(0)) ==>
              |sent| == 1 && outcome == FirstSettle(transport(0)) && store.items == old(store.items)
    ensures var items := old(store.items);
            var token := TokenUsed(items, lateToken);
            var first := FirstCall(baseUrl, url, opts, token);
            !TokenCrashes(token) && Is401(transport(0)) ==>
              (!RefreshGuard(items, first.url) ==> |sent| == 1 && outcome == Expired && store.items == items - SessionKeys) &&
              (RefreshGuard(items, first.url) ==>
                 |sent| >= 2 && sent[1] == RefreshCall(baseUrl, ReadFrom(items, "refreshToken")) &&
                 match JudgeRefresh(transport(1))
                 case Crash => |sent| == 2 && outcome == Stuck && store.items == items
                 case Decline => |sent| == 2 && outcome == Expired && store.items == items - SessionKeys
                 case Accept(tokens) =>
                   |sent| == 3 && sent[2] == Replay(first, Get(tokens, "accessToken")) &&
                   store.items == Refreshed(items, tokens) && outcome == ReplayOutcome(transport(2)))
  {
    var token, first;
    token, first, tokenReads := PrepareFirst(store, baseUrl, url, opts, lateToken);
    if TokenCrashes(token) {
      return Rejected(EngineTypeError), [], tokenReads;
    }
    sent := [first];
    var reply := transport(0);
    if !Is401(reply) {
      outcome := FirstSettle(reply);
      return;
    }
    var more;
    outcome, more := On401(store, baseUrl, first, transport);
    sent := sent + more;
  }

  /**
   * The part of `request` before the call goes out: the token is read (a
   * second time when the first read is empty but the session flag is set)
   * and the first call is built around it.
   */
  method PrepareFirst(store: Store, baseUrl: string, url: string, opts: RequestOptions, lateToken: Json)
    returns (token: Json, first: Outgoing, tokenReads: nat)
    ensures token == TokenUsed(store.items, lateToken)
    ensures tokenReads == if NeedsSecondRead(store.items) then 2 else 1
    ensures !TokenCrashes(token) ==> first == FirstCall(baseUrl, url, opts, token) && first.headers.Obj?
  {
    var fullUrl := ResolveUrl(baseUrl, url);
    var requestHeaders := BaseHeaders(opts.headers);
    token := ReadFrom(store.items, "token");
    tokenReads := 1;
    var isLoggedIn := ReadFrom(store.items, "isLoggedIn");
    if !Truthy(token) && Truthy(isLoggedIn) {
      token := lateToken;
      tokenReads := 2;
    }
    if TokenCrashes(token) {
      return token, Outgoing(fullUrl, "", Undefined, requestHeaders), tokenReads;
    }
    if Truthy(token) && opts.needAuth {
      requestHeaders := WithBearer(requestHeaders, token);
    }
    first := Outgoing(fullUrl, UpperAscii(opts.verb), opts.data, requestHeaders);
  }

  // ---------------------------------------------------------------------
  // uploadFile
  // ---------------------------------------------------------------------

  /** What `uni.uploadFile` calls back with; `parsed` is `JSON.parse(res.data)`, `None` when that throws. */
  datatype UploadReply = Uploaded(parsed: Option<Json>) | UploadFailure(error: Json)

  /** `uploadFile`'s token: the stored one, else the current user's `token`. */
  function UploadToken(items: map<string, Json>): Json
  {
    Or(ReadFrom(items, "token"), Get(Auth.GetCurrentUser(items), "token"))
  }

  /** The headers `uploadFile` sends: a bearer when there is a token, nothing else. */
  function UploadHeaders(items: map<string, Json>): Json
  {
    var token := UploadToken(items);
    if Truthy(token) then WithBearer(Obj([]), token) else Obj([])
  }

  const UploadParseFailed := "上传响应解析失败"

  /**
   * The success callback: everything runs inside a `try`, so a reply that
   * does not parse, a `null` body and a throwing error extraction all reject
   * with `上传响应解析失败`.
   */
  function SettleUploaded(parsed: Option<Json>): Outcome
  {
    if parsed.None? || Nullish(parsed.value) then Rejected(ErrorMessage(UploadParseFailed))
    else
      var data := parsed.value;
      if Get(data, "success") == Bool(true) && Get(data, "code") == Num(200) then Resolved(data)
      else if Get(data, "code") == Num(200) then Resolved(data)
      else match GetDetailedErrorMessage(data)
        case TypeError => Rejected(ErrorMessage(UploadParseFailed))
        case Ok(m) => Rejected(ErrorMessage(Display(m)))
  }

  /** The fail callback's message; a non-string, non-array `errMsg` makes `.includes` throw. */
  function UploadFailureMessage(error: Json): (r: Res<string>)
    ensures Nullish(error) ==> r.TypeError?
    ensures !Nullish(error) && !Truthy(Get(error, "errMsg")) ==> r == Ok("文件上传失败")
    ensures !Nullish(error) && Truthy(Get(error, "errMsg")) ==>
              (r.TypeError? <==> !(Get(error, "errMsg").Str? || Get(error, "errMsg").Arr?))
  {
    if Nullish(error) then TypeError
    else
      var errMsg := Get(error, "errMsg");
      if !Truthy(errMsg) then Ok("文件上传失败")
      else match ErrorHandler.Includes(errMsg, "timeout")
        case TypeError => TypeError
        case Ok(timeout) =>
          if timeout then Ok("上传超时，请检查网络连接")
          else if ErrorHandler.Includes(errMsg, "network").value then Ok("网络连接失败，请检查网络设置")
          else Ok(Display(errMsg))
  }

  /**
   * A string `errMsg` is checked for `timeout` first, then for `network`;
   * any other text is reported as it is.
   */
  lemma UploadFailurePrecedence(error: Json, text: string)
    requires !Nullish(error) && Get(error, "errMsg") == Str(text) && text != ""
    ensures Contains(text, "timeout") ==> UploadFailureMessage(error) == Ok("上传超时，请检查网络连接")
    ensures !Contains(text, "timeout") && Contains(text, "network") ==> UploadFailureMessage(error) == Ok("网络连接失败，请检查网络设置")
    ensures !Contains(text, "timeout") && !Contains(text, "network") ==> UploadFailureMessage(error) == Ok(text)
  {
  }

  /**
   * `uploadFile(url, filePath, formData)`: how its promise ends given the
   * platform's reply, and the call it makes (`None` when logging a
   * non-string token throws before the call).
   */
  function UploadFile(items: map<string, Json>, baseUrl: string, url: string, formData: Json, reply: UploadReply): (r: (Outcome, Option<Outgoing>))
    ensures TokenCrashes(UploadToken(items)) ==> r == (Rejected(EngineTypeError), None)
    ensures !TokenCrashes(UploadToken(items)) ==> r.1 == Some(Outgoing(ResolveUrl(baseUrl, url), "POST", formData, UploadHeaders(items)))
    ensures !TokenCrashes(UploadToken(items)) && reply.Uploaded? ==> r.0 == SettleUploaded(reply.parsed)
    ensures !TokenCrashes(UploadToken(items)) && reply.UploadFailure? ==>
              match UploadFailureMessage(reply.error)
              case Ok(m) => r.0 == Rejected(ErrorMessage(m))
              case TypeError => r.0 == Stuck
  {
    if TokenCrashes(UploadToken(items)) then (Rejected(EngineTypeError), None)
    else
      var call := Outgoing(ResolveUrl(baseUrl, url), "POST", formData, UploadHeaders(items));
      match reply
      case Uploaded(parsed) => (SettleUploaded(parsed), Some(call))
      case UploadFailure(error) =>
        match UploadFailureMessage(error)
        case TypeError => (Stuck, Some(call))
        case Ok(m) => (Rejected(ErrorMessage(m)), Some(call))
  }

  /**
   * The upload's `success === true` check adds nothing: a parsed reply
   * resolves exactly when its `code` is 200, and then with the parsed body.
   */
  lemma UploadResolvesOnCode200(parsed: Option<Json>)
    ensures SettleUploaded(parsed).Resolved? <==> parsed.Some? && !Nullish(parsed.value) && Get(parsed.value, "code") == Num(200)
    ensures SettleUploaded(parsed).Resolved? ==> SettleUploaded(parsed).body == parsed.value
    ensures !SettleUploaded(parsed).Stuck? && !SettleUploaded(parsed).Expired?
  {
  }

  /** The stored token wins over the user record's; a bearer is sent exactly when either is present. */
  lemma UploadHeadersMeaning(items: map<string, Json>)
    ensures Truthy(ReadFrom(items, "token")) ==> UploadToken(items) == ReadFrom(items, "token")
    ensures Truthy(UploadToken(items)) ==> Get(UploadHeaders(items), "Authorization") == Str("Bearer " + Display(UploadToken(items)))
    ensures !Truthy(UploadToken(items)) ==> UploadHeaders(items) == Obj([])
  {
  }
}
