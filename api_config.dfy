/**
 * Client configuration (src/config/api-config.js): the per-environment
 * endpoint table, the route templates, URL building, the upload file check
 * and the envelope helpers shared by the pages.
 */
module ApiConfig {
  import opened Wrappers
  import opened Js

  datatype EnvConfig = EnvConfig(baseUrl: string, wsUrl: string, timeout: nat, aiExtractionTimeout: nat, retryTimes: nat)

  const Development := "development"
  const Testing := "testing"
  const Production := "production"

  const RemoteBase := "https://nybrzijdwpdn.sealoshzh.site/api"
  const WsUrl := "wss://nybrzijdwpdn.sealoshzh.site/ws"

  /** `API_ENDPOINTS`: development goes through the dev-server proxy at `/api`. */
  function Endpoint(env: string): Option<EnvConfig>
  {
    if env == Development then Some(EnvConfig("/api", WsUrl, 30000, 300000, 3))
    else if env == Testing || env == Production then Some(EnvConfig(RemoteBase, WsUrl, 30000, 300000, 3))
    else None
  }

  /** `CURRENT_ENV`: `NODE_ENV` when set and non-empty, development otherwise. */
  function CurrentEnv(nodeEnv: Option<string>): string
  {
    if nodeEnv.Some? && nodeEnv.value != "" then nodeEnv.value else Development
  }

  /**
   * `getCurrentConfig()`: the entry of the current environment, falling back
   * to development for an environment the table does not know.
   */
  function GetCurrentConfig(nodeEnv: Option<string>): (c: EnvConfig)
    ensures c.timeout == 30000 && c.aiExtractionTimeout == 300000 && c.retryTimes == 3
    ensures c.wsUrl == WsUrl
    ensures c.baseUrl == "/api" || c.baseUrl == RemoteBase
  {
    var entry := Endpoint(CurrentEnv(nodeEnv));
    if entry.Some? then entry.value else Endpoint(Development).value
  }

  /** An unknown or unset environment gets the development entry; the two deployed ones share the remote base. */
  lemma CurrentConfigFallback(nodeEnv: Option<string>)
    ensures Endpoint(CurrentEnv(nodeEnv)).None? ==> GetCurrentConfig(nodeEnv) == GetCurrentConfig(None)
    ensures GetCurrentConfig(None).baseUrl == "/api"
    ensures nodeEnv == Some(Testing) || nodeEnv == Some(Production) ==> GetCurrentConfig(nodeEnv).baseUrl == RemoteBase
    ensures GetCurrentConfig(nodeEnv).baseUrl == "/api" <==> Endpoint(CurrentEnv(nodeEnv)).None? || CurrentEnv(nodeEnv) == Development
  {
  }

  // ---------------------------------------------------------------------
  // API_ROUTES
  // ---------------------------------------------------------------------

  /** A route: a fixed path, or a template `prefix${id}suffix`. */
  datatype Route = Fixed(path: string) | Template(prefix: string, suffix: string)

  const Login := Fixed("/auth/login")
  const Register := Fixed("/auth/register")
  const Refresh := Fixed("/auth/refresh")
  const Logout := Fixed("/auth/logout")
  const VerifyEmail := Fixed("/auth/verify-email")
  const ForgotPassword := Fixed("/auth/forgot-password")
  const ResetPassword := Fixed("/auth/reset-password")

  const Upload := Fixed("/documents/upload")
  const Extract := Template("/documents/", "/extract")
  const Progress := Template("/documents/tasks/", "/progress")
  const Results := Template("/documents/tasks/", "/results")
  const FieldConfig := Template("/documents/field-config/", "")
  const History := Fixed("/documents/history")
  const HistoryResults := Template("/documents/history/", "/results")
  const DeleteRecord := Template("/documents/history/", "")
  const Export := Fixed("/documents/export")
  const DownloadOriginal := Template("/documents/", "/download-original")
  const ServeOriginal := Template("/documents/", "/download-original/serve")

  const Profile := Fixed("/users/profile")
  const UpdateProfile := Fixed("/users/profile")
  const UploadAvatar := Fixed("/users/avatar")
  const ChangePassword := Fixed("/users/password")
  const ActivityLogs := Fixed("/users/activity-logs")

  const Statistics := Fixed("/system/statistics")
  const Health := Fixed("/system/health")

  const GlobalConfigSet := Fixed("/documents/models/global-config/set")
  const GlobalConfigGet := Fixed("/documents/models/global-config/get")
  const GlobalConfigTest := Fixed("/documents/models/global-config/test")
  const GlobalConfigClear := Fixed("/documents/models/global-config/clear")

  /** The path of a route; a template interpolates `String(id)` between its prefix and suffix. */
  function Fill(route: Route, id: Json): string
  {
    match route
    case Fixed(path) => path
    case Template(prefix, suffix) => prefix + Display(id) + suffix
  }

  /** The id a templated path carries, if it has the template's shape. */
  function IdOf(route: Route, path: string): Option<string>
  {
    match route
    case Fixed(_) => None
    case Template(prefix, suffix) =>
      if |prefix| + |suffix| <= |path| && StartsWith(path, prefix) && EndsWith(path, suffix)
      then Some(path[|prefix|..|path| - |suffix|])
      else None
  }

  /** A template path gives back the id it was filled with. */
  lemma IdOfFill(route: Route, id: Json)
    requires route.Template?
    ensures IdOf(route, Fill(route, id)) == Some(Display(id))
  {
    var path := Fill(route, id);
    assert path[..|route.prefix|] == route.prefix;
    assert path[|path| - |route.suffix|..] == route.suffix;
    assert path[|route.prefix|..|path| - |route.suffix|] == Display(id);
  }

  /** Two ids fill a template to the same path only if they display alike. */
  lemma FillInjective(route: Route, a: Json, b: Json)
    requires route.Template?
    requires Fill(route, a) == Fill(route, b)
    ensures Display(a) == Display(b)
  {
    IdOfFill(route, a);
    IdOfFill(route, b);
  }

  /** Ids are not escaped: a delete-record path can also be read as a history-results path. */
  lemma HistoryRoutesOverlap()
    ensures Fill(DeleteRecord, Str("7/results")) == Fill(HistoryResults, Str("7"))
  {
  }

  /**
   * `getApiUrl(path)`: the configured base URL followed by the path, with a
   * `/` inserted only when the path lacks one.
   */
  function GetApiUrl(nodeEnv: Option<string>, path: string): (url: string)
    ensures var base := GetCurrentConfig(nodeEnv).baseUrl;
      && StartsWith(url, base)
      && StartsWith(url[|base|..], "/")
      && (StartsWith(path, "/") ==> url[|base|..] == path)
      && (!StartsWith(path, "/") ==> url[|base|..] == "/" + path)
  {
    var cleanPath := if StartsWith(path, "/") then path else "/" + path;
    var base := GetCurrentConfig(nodeEnv).baseUrl;
    assert (base + cleanPath)[..|base|] == base;
    assert (base + cleanPath)[|base|..] == cleanPath;
    base + cleanPath
  }

  /** Writing the leading `/` yourself gives the same URL. */
  lemma ApiUrlNormalises(nodeEnv: Option<string>, path: string)
    requires !StartsWith(path, "/")
    ensures GetApiUrl(nodeEnv, path) == GetApiUrl(nodeEnv, "/" + path)
  {
    var base := GetCurrentConfig(nodeEnv).baseUrl;
    var a := GetApiUrl(nodeEnv, path);
    var b := GetApiUrl(nodeEnv, "/" + path);
    assert a == a[..|base|] + a[|base|..];
    assert b == b[..|base|] + b[|base|..];
    assert ("/" + path)[..1] == "/";
  }

  // ---------------------------------------------------------------------
  // validateFile
  // ---------------------------------------------------------------------

  /** `UPLOAD_LIMITS.MAX_FILE_SIZE`: 50 MiB. */
  const MaxFileSize := 50 * 1024 * 1024
  const PdfMime := "application/pdf"

  const SizeMessage := "文件大小不能超过50MB"
  const MimeMessage := "只支持PDF格式文件"
  const ExtensionMessage := "文件扩展名必须为.pdf"

  /** An upload candidate: `size` is `None` when the object has no size; `name` is the raw `name` field. */
  datatype FileInfo = FileInfo(size: Option<int>, mimeType: Json, name: Json)

  datatype FileCheck = FileCheck(isValid: bool, errors: seq<string>)

  /** `fileName.toLowerCase().endsWith('.pdf')`. */
  predicate HasPdfExtension(fileName: string)
  {
    EndsWith(LowerAscii(fileName), ".pdf")
  }

  /** Position of each rule's message in the report. */
  function RuleIndex(msg: string): nat
  {
    if msg == SizeMessage then 0 else if msg == MimeMessage then 1 else 2
  }

  /**
   * `validateFile(file)`: one message per violated rule, in the order size,
   * MIME type, extension. A missing name counts as `""`; a truthy name that
   * is not a string makes `toLowerCase` throw.
   */
  method ValidateFile(file: FileInfo) returns (r: Res<FileCheck>)
    ensures r.TypeError? <==> Truthy(file.name) && !file.name.Str?
    ensures r.Ok? ==>
      var fileName := if Truthy(file.name) then file.name.s else "";
      && (r.value.isValid <==> r.value.errors == [])
      && (SizeMessage in r.value.errors <==> file.size.Some? && file.size.value > MaxFileSize)
      && (MimeMessage in r.value.errors <==> file.mimeType != Str(PdfMime))
      && (ExtensionMessage in r.value.errors <==> !HasPdfExtension(fileName))
      && (forall i, j :: 0 <= i < j < |r.value.errors| ==> RuleIndex(r.value.errors[i]) < RuleIndex(r.value.errors[j]))
      && (forall e :: e in r.value.errors ==> e == SizeMessage || e == MimeMessage || e == ExtensionMessage)
  {
    var errors: seq<string> := [];
    if file.size.Some? && file.size.value > MaxFileSize {
      errors := errors + [SizeMessage];
    }
    if file.mimeType != Str(PdfMime) {
      errors := errors + [MimeMessage];
    }
    var name := Or(file.name, Str(""));
    if !name.Str? {
      return TypeError;
    }
    if !HasPdfExtension(name.s) {
      errors := errors + [ExtensionMessage];
    }
    return Ok(FileCheck(|errors| == 0, errors));
  }

  /** A name differing only in ASCII case passes the extension rule alike. */
  lemma ExtensionCaseInsensitive(a: string, b: string)
    requires LowerAscii(a) == LowerAscii(b)
    ensures HasPdfExtension(a) <==> HasPdfExtension(b)
  {
  }

  /** `formatFileSize(bytes)` at zero; every other size goes through floating point and is not modelled. */
  function FormatFileSize(bytes: int): (r: Option<string>)
    ensures r.Some? <==> bytes == 0
    ensures r.Some? ==> r.value == "0 B"
  {
    if bytes == 0 then Some("0 B") else None
  }

  // ---------------------------------------------------------------------
  // Envelope helpers
  // ---------------------------------------------------------------------

  /** `isApiSuccess(response)`: `response && response.code === 200`, so a falsy response is returned as it is. */
  function IsApiSuccess(response: Json): (r: Json)
    ensures Truthy(r) <==> Truthy(response) && Get(response, "code") == Num(200)
    ensures !Truthy(response) ==> r == response
    ensures Truthy(response) ==> r.Bool?
  {
    if !Truthy(response) then response else Bool(Get(response, "code") == Num(200))
  }

  /** `error.details.length > 0`, for the values whose `length` is a number. */
  predicate NonEmptyLength(v: Json)
  {
    Truthy(v) && Length(v).Num? && Length(v).n > 0
  }

  /**
   * `getApiErrorMessage(response)`: `未知错误` without a response; the
   * `message` of every detail joined by `"; "` when `error.details` is
   * non-empty (a non-array list, or a null detail, makes the mapping throw);
   * otherwise the response's message, or `操作失败`.
   */
  function GetApiErrorMessage(response: Json): (r: Res<Json>)
    ensures !Truthy(response) ==> r == Ok(Str("未知错误"))
    ensures Truthy(response) && !NonEmptyLength(Get(Get(response, "error"), "details")) ==>
              r == Ok(Or(Get(response, "message"), Str("操作失败")))
    ensures Truthy(response) && NonEmptyLength(Get(Get(response, "error"), "details")) ==>
              var details := Get(Get(response, "error"), "details");
              r.Ok? <==> details.Arr? && forall k :: 0 <= k < |details.items| ==> !Nullish(details.items[k])
  {
    if !Truthy(response) then Ok(Str("未知错误"))
    else
      var details := Get(Get(response, "error"), "details");
      if NonEmptyLength(details) then
        if details.Arr? && forall k :: 0 <= k < |details.items| ==> !Nullish(details.items[k]) then
          Ok(Str(JoinValues(seq(|details.items|, k requires 0 <= k < |details.items| => Get(details.items[k], "message")), "; ")))
        else TypeError
      else Ok(Or(Get(response, "message"), Str("操作失败")))
  }

  /** A single detail with a string message yields exactly that message. */
  lemma ApiErrorMessageSingleDetail(response: Json, msg: string, detail: seq<(string, Json)>)
    requires Truthy(response)
    requires Get(Get(response, "error"), "details") == Arr([Obj(detail)])
    requires Lookup(detail, "message") == Str(msg)
    ensures GetApiErrorMessage(response) == Ok(Str(msg))
  {
    var m := seq(1, k requires 0 <= k < 1 => Get([Obj(detail)][k], "message"));
    assert m == [Str(msg)];
    assert seq(|m|, i requires 0 <= i < |m| => JoinElement(m[i])) == [msg];
  }

  /**
   * One more detail appends `"; "` and that detail's message to the message
   * the earlier details give: the result is the messages in order, joined.
   */
  lemma ApiErrorMessageAppendDetail(shorter: Json, longer: Json, items: seq<Json>, d: Json)
    requires Truthy(shorter) && Truthy(longer)
    requires Get(Get(shorter, "error"), "details") == Arr(items)
    requires Get(Get(longer, "error"), "details") == Arr(items + [d])
    requires |items| > 0 && !Nullish(d)
    requires forall k :: 0 <= k < |items| ==> !Nullish(items[k])
    ensures GetApiErrorMessage(shorter).Ok? && GetApiErrorMessage(shorter).value.Str?
    ensures GetApiErrorMessage(longer) == Ok(Str(GetApiErrorMessage(shorter).value.s + "; " + JoinElement(Get(d, "message"))))
  {
    var all := items + [d];
    var m := seq(|items|, k requires 0 <= k < |items| => Get(items[k], "message"));
    var m' := seq(|all|, k requires 0 <= k < |all| => Get(all[k], "message"));
    assert m' == m + [Get(d, "message")];
    JoinValuesSnoc(m, Get(d, "message"), "; ");
  }

  /** Two details with string messages read `m1; m2`. */
  lemma ApiErrorMessageTwoDetails(response: Json, d1: seq<(string, Json)>, d2: seq<(string, Json)>, m1: string, m2: string)
    requires Truthy(response)
    requires Get(Get(response, "error"), "details") == Arr([Obj(d1), Obj(d2)])
    requires Lookup(d1, "message") == Str(m1) && Lookup(d2, "message") == Str(m2)
    ensures GetApiErrorMessage(response) == Ok(Str(m1 + "; " + m2))
  {
    var m := seq(2, k requires 0 <= k < 2 => Get([Obj(d1), Obj(d2)][k], "message"));
    assert m == [Str(m1), Str(m2)];
    JoinValuesPair(Str(m1), Str(m2), "; ");
  }
}
