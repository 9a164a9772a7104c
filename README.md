# A Dafny model of the fund-document client's request, session and error-handling core

The client is a uni-app front end for a fund-document extraction service. Its
core is a JavaScript REST layer:

- `request`: the authenticated request pipeline, with a single refresh-and-replay on 401.
- `uploadFile`.
- The domain calls built on top of `request` and `uploadFile`: login, refresh, logout, upload, results, history, export and global configuration.
- The session store helpers in `auth.js`, and the session diagnostic and repair.
- The error handler: message sanitising, the bounded error log, message routing, the retry loop and extension-error detection.
- The API configuration: environments, route templates, file validation and error-message extraction.
- The fund field tables and the PDF-export preparation.

This project models that core in Dafny and proves what it promises.

## Modules

| Dafny file | Module | Models |
|---|---|---|
| `wrappers.dfy` | `Wrappers` | `Option` |
| `js.dfy` | `Js` | JavaScript values and operators |
| `storage.dfy` | `Storage` | `uni.getStorageSync` / `setStorageSync` / `removeStorageSync` |
| `auth.dfy` | `Auth` | `src/utils/auth.js` |
| `auth_diagnostic.dfy` | `AuthDiagnostic` | `src/utils/auth-diagnostic.js` |
| `api_config.dfy` | `ApiConfig` | `src/config/api-config.js` |
| `fund_fields.dfy` | `FundFields` | `src/config/fund-fields.js` |
| `pdf_export.dfy` | `PdfExport` | `src/utils/pdf-export.js` |
| `error_handler.dfy` | `ErrorHandler` | `src/utils/errorHandler.js` |
| `request.dfy` | `Request` | `request`, `uploadFile` and `getDetailedErrorMessage` in `src/utils/api.js` |
| `domain_api.dfy` | `DomainApi` | the domain calls of `src/utils/api.js` |

### How JavaScript is represented

- **Values.** `Js.Json` covers `undefined`, `null`, booleans, integers, strings, arrays and objects.
- **Objects** are property lists. The last property with a key wins.
- **Operators.** `Truthy` models truthiness. `Or` models `||`, which returns an operand, not a boolean. `Display` models `String(v)`. `Spread` models `{...a, ...b}`.
- **Property access** on `null` or `undefined` throws a `TypeError`. Operations that can do so return `Res<T>`, whose `TypeError` case models that throw.

### How the storage is represented

- The session storage is the class `Storage.Store`. Its field `items: map<string, Json>` is changed in place by `Set` and `Remove`.
- A read of a missing key gives `""`, as `uni.getStorageSync` does.
- Session consistency (`Auth.Consistent`) means: a stored `isLoggedIn === true` implies a truthy token.

### How `request` is represented

- `uni.request` is a scripted transport: `transport(i)` is the reply to the `i`-th call.
- The 50 ms second read of the token is a parameter, `lateToken`.
- A request ends in one of four `Request.Outcome` cases:
  - `Resolved(body)`.
  - `Rejected(why)`.
  - `Expired`: the session-expired path. It clears the session and never settles the promise.
  - `Stuck`: a callback threw, so the promise never settles and nothing more happens.

  `Expired` and `Stuck` are separate cases because they differ in their effect on storage.

### How the domain calls are represented

- Each domain call takes the outcome of its underlying request as a parameter.
- It produces a `DomainApi.ApiResult`: `Done`, `Fails` or `NeverSettles`.

### Other parameters

- **Clocks** become parameters. `now` is the ISO time string. `elapsed` is the minutes since login, `None` when the stored time does not parse.
- **Delays** become the list of waits the retry loops would make.
- **User-interface effects** become `ErrorHandler.UiEvent` values: toast, modal or nothing.

## Model

| member | source | states |
|---|---|---|
| Js.SpreadOverrides | src/utils/api.js:92-95 | in `{...a, ...b}` each key is read from `b` when `b` has it, else from `a`, else it is absent |
| Storage.ReadFrom | src/utils/api.js:98 | a key that was never stored reads as the empty string, which is falsy |
| Storage.Store.Set | src/utils/auth.js:35-37 | `setStorageSync` replaces exactly one key |
| Storage.Store.Remove | src/utils/auth.js:50-54 | `removeStorageSync` removes exactly one key and leaves the others |
| Auth.GetCurrentUser | src/utils/auth.js:20-28 | the stored user when it is truthy, `null` otherwise |
| Auth.SetUserLogin | src/utils/auth.js:34-43 | stores the user, `isLoggedIn = true` and the login time; afterwards the user is logged in and is the current user |
| Auth.Logout | src/utils/auth.js:48-66 | removes exactly the five session keys; the store is then consistent and logged out |
| Auth.ClearAuthState | src/utils/auth.js:71-83 | removes the same five keys as `logout`, with the same result |
| Auth.ClearedIsConsistent | src/utils/auth.js:48-55 | clearing the five keys leaves no user, no login, a consistent session, and every other key (such as `sessionInfo`, `apiSettings`) as it was |
| Auth.ClearIdempotent | src/utils/auth.js:71-78 | clearing twice is the same as clearing once |
| Auth.CheckAuthAndRedirect | src/utils/auth.js:89-108 | true iff logged in with a token; logged in without a token clears the session; otherwise nothing changes; the session ends consistent |
| Auth.UpdateUserInfo | src/utils/auth.js:160-174 | without a user, fails and changes nothing; otherwise stores and returns the user with the updates spread over it |
| Auth.UpdateOverrides | src/utils/auth.js:167 | an updated field takes the update's value, every other field keeps the user's |
| Auth.GetUserDisplayName | src/utils/auth.js:181-186 | `游客` without a user; otherwise `displayName`, then `username`, then the e-mail prefix before `@`, then `用户`; a non-string e-mail throws |
| Auth.HasPermission | src/utils/auth.js:193-200 | false without a user; permissions default to `['basic']`; true iff the permission or `admin` is listed |
| Auth.AdminGrantsAll | src/utils/auth.js:199 | a user whose permissions list `admin` has every permission |
| Auth.GetSelectedModelAsWritten | src/utils/auth.js:258-272 | a stored string is returned as it is |
| Auth.SelectedModelMissingKeyAsWritten | src/utils/auth.js:260-263 | with nothing stored, the storage read gives `""`, a string, so `""` is returned instead of the default model |
| Auth.GetSelectedModel | src/utils/auth.js:258-272 | never empty: a missing key gives `deepseek-chat`; a non-empty string is returned as it is; an object's truthy `id` is returned |
| AuthDiagnostic.SnapshotOf | src/utils/auth-diagnostic.js:21-27 | the snapshot holds the stored values, with missing keys read as `""` |
| AuthDiagnostic.SelectSnoc | src/utils/auth-diagnostic.js:49-99 | each check appends its issue after those of the earlier checks |
| AuthDiagnostic.SelectMembers | src/utils/auth-diagnostic.js:49-99 | an issue is reported iff it is a candidate and its check fires |
| AuthDiagnostic.SelectOrdered | src/utils/auth-diagnostic.js:49-99 | the issues come in the order of the checks |
| AuthDiagnostic.IssuesInCheckOrder | src/utils/auth-diagnostic.js:49-99 | the issue list follows the check order |
| AuthDiagnostic.IssuesOfMeaning | src/utils/auth-diagnostic.js:49-99 | each issue is present exactly when its condition holds: not logged in, no token, logged in without a token, short token, no user, malformed token, expired login |
| AuthDiagnostic.ChecksOfMeaning | src/utils/auth-diagnostic.js:64-99 | a token under 50 characters is short; one that does not split on `.` into three parts is malformed; a login over 60 minutes old has expired |
| AuthDiagnostic.IssuesUnfold | src/utils/auth-diagnostic.js:49-99 | the issue list is the checks' issues concatenated in source order |
| AuthDiagnostic.Report | src/utils/auth-diagnostic.js:49-62 | pushing an issue pushes its one recommendation with it |
| AuthDiagnostic.RecordIssues | src/utils/auth-diagnostic.js:49-99 | the pushes build exactly the issue list, each issue paired with its recommendation |
| AuthDiagnostic.DiagnoseAuthState | src/utils/auth-diagnostic.js:9-106 | reports the storage snapshot; a truthy non-string token makes the diagnosis fail; otherwise issues are paired with recommendations, and an inconsistent session is always reported |
| AuthDiagnostic.FixAuthIssues | src/utils/auth-diagnostic.js:160-211 | logged in without a token removes `isLoggedIn`, `userInfo` and `loginTime`; otherwise a login over 60 minutes old removes the five session keys; otherwise nothing changes; the store ends consistent |
| ApiConfig.GetCurrentConfig | src/config/api-config.js:20-49 | every environment has timeouts of 30000 and 300000 ms and 3 retries; the base URL is `/api` or the remote host |
| ApiConfig.CurrentConfigFallback | src/config/api-config.js:15-49 | an unknown environment gets the development entry; testing and production get the remote host |
| ApiConfig.IdOfFill | src/config/api-config.js:69-79 | a filled route template gives back the id that filled it |
| ApiConfig.FillInjective | src/config/api-config.js:69-79 | two ids that fill a template to the same path display alike |
| ApiConfig.HistoryRoutesOverlap | src/config/api-config.js:74-76 | the delete-record path for id `7/results` is the history-results path for id `7` |
| ApiConfig.GetApiUrl | src/config/api-config.js:196-200 | the URL is the base URL, then a `/` when the path lacks one, then the path |
| ApiConfig.ApiUrlNormalises | src/config/api-config.js:196-200 | a path without a leading `/` gives the same URL as the path with one |
| ApiConfig.ValidateFile | src/config/api-config.js:207-234 | one message per violated rule, in the order size, MIME type, extension; valid iff there are none; the size rule fails only above 50 MiB; a missing name fails the `.pdf` rule |
| ApiConfig.ExtensionCaseInsensitive | src/config/api-config.js:221-228 | the extension rule ignores letter case |
| ApiConfig.FormatFileSize | src/config/api-config.js:241-243 | `0` formats as `0 B` |
| ApiConfig.IsApiSuccess | src/config/api-config.js:263-265 | truthy iff the response is truthy and its `code` is 200 |
| ApiConfig.GetApiErrorMessage | src/config/api-config.js:272-282 | `未知错误` for no response; the detail messages joined by `; ` when there are any; otherwise the message, or `操作失败` |
| ApiConfig.ApiErrorMessageSingleDetail | src/config/api-config.js:276-278 | a single detail gives its message alone |
| ApiConfig.ApiErrorMessageAppendDetail | src/config/api-config.js:276-278 | one more detail appends `; ` and its message to the message of the details before it, so the result is every message in order, joined by `; ` |
| ApiConfig.ApiErrorMessageTwoDetails | src/config/api-config.js:276-278 | two details with messages `m1` and `m2` give exactly `m1; m2` |
| FundFields.AllContractFields | src/config/fund-fields.js:79-89 | the seven contract modules concatenated: 44 fields |
| FundFields.AllCustodyFields | src/config/fund-fields.js:92-100 | the five custody modules concatenated: 22 fields |
| FundFields.AllProspectusFields | src/config/fund-fields.js:103-111 | the five prospectus modules concatenated: 22 fields |
| FundFields.DocumentTypes | src/config/fund-fields.js:204-233 | contract, custody and prospectus, in that order, each with its own field list |
| FundFields.FindByKey | src/config/fund-fields.js:237 | nothing iff no configuration has the key; otherwise the first one that has it |
| FundFields.GetFieldsByDocumentType | src/config/fund-fields.js:236-239 | the matching type's fields, `[]` for an unknown type |
| FundFields.FilterModule | src/config/fund-fields.js:244 | an order-preserving subsequence holding every field of the module |
| FundFields.GetFieldsByModule | src/config/fund-fields.js:242-245 | an order-preserving subsequence of the type's fields holding every field of the module |
| FundFields.UnknownTypeHasNoModuleFields | src/config/fund-fields.js:237-244 | an unknown type has no fields in any module |
| FundFields.FilterConcat | src/config/fund-fields.js:80-88 | filtering a concatenation filters each part |
| FundFields.ContractByModule | src/config/fund-fields.js:79-89 | each contract module's fields are exactly its own table |
| FundFields.CustodyByModule | src/config/fund-fields.js:92-100 | each custody module's fields are exactly its own table |
| FundFields.ProspectusByModule | src/config/fund-fields.js:103-111 | each prospectus module's fields are exactly its own table |
| PdfExport.Mapping | src/utils/pdf-export.js:8-12 | exactly the three document types are mapped |
| PdfExport.FirstMissing | src/utils/pdf-export.js:41-45 | nothing iff every module is present; otherwise a missing module |
| PdfExport.ValidateFieldsData | src/utils/pdf-export.js:20-48 | an unsupported type is invalid with `不支持的文档类型`; valid iff every required module is present; otherwise the first missing module is named |
| PdfExport.Convert | src/utils/pdf-export.js:56-195 | an unmapped type gives `{}`; a mapped type with no data throws |
| PdfExport.ConvertFieldValue | src/utils/pdf-export.js:56-195 | each output field is the source field, or `''` when that is absent |
| PdfExport.ConvertWithLookup | src/utils/pdf-export.js:56-195 | with distinct module titles and labels, every field of the conversion reads back under its module and label as the source value or `''` |
| PdfExport.ConvertValidates | src/utils/pdf-export.js:20-195 | the conversion's output always passes validation for the mapped type |
| PdfExport.ConvertTableFacts | src/utils/pdf-export.js:56-195 | the conversion writes exactly the required modules, each once |
| PdfExport.CustodyTableMatchesFieldConfig | src/utils/pdf-export.js:90-160 | the custody conversion uses the custody field tables |
| PdfExport.ProspectusTableMatchesFieldConfig | src/utils/pdf-export.js:161-195 | the prospectus conversion uses the prospectus field tables |
| PdfExport.ContractTableMatchesFieldConfig | src/utils/pdf-export.js:60-89 | the contract conversion uses the contract field tables |
| PdfExport.GenerateDefaultFilename | src/utils/pdf-export.js:203-213 | exactly `<fund>_<label>_提取报告.pdf` with a fund name, or `<label>_提取报告.pdf` without one; either way it ends with the label and `_提取报告.pdf` |
| PdfExport.Finish | src/utils/pdf-export.js:300-321 | a success iff the backend returned `success: true`; a thrown error becomes a failure carrying its message |
| PdfExport.ExportFundFieldsToPdf | src/utils/pdf-export.js:246-322 | never throws; checks, in order, the token, the type and the validation before calling the backend |
| PdfExport.ExportOutcomeIsBackends | src/utils/pdf-export.js:246-322 | once the token and the type pass, the result is the backend's |
| PdfExport.GetExampleFieldsData | src/utils/pdf-export.js:329-371 | non-empty only for the custody type |
| PdfExport.ExampleFieldsValidate | src/utils/pdf-export.js:329-371 | the custody example passes validation |
| ErrorHandler.SanitizeErrorMessage | src/utils/errorHandler.js:51-76 | the redact-then-truncate loop computes the sanitised message |
| ErrorHandler.SanitizedIsClean | src/utils/errorHandler.js:57-73 | no sensitive word remains in any letter case, and the result is at most 103 characters |
| ErrorHandler.SanitizedKeepsCleanMessage | src/utils/errorHandler.js:51-76 | a non-empty message of at most 100 characters with no sensitive word is shown unchanged |
| ErrorHandler.SanitizedShort | src/utils/errorHandler.js:51-76 | a non-empty string whose redaction fits in 100 characters is shown redacted and not cut |
| ErrorHandler.SanitizedIdempotent | src/utils/errorHandler.js:51-76 | sanitising twice is sanitising once |
| ErrorHandler.NoneRemain | src/utils/errorHandler.js:58-67 | after replacing a word, no case-insensitive occurrence of it is left |
| ErrorHandler.OccurReflect | src/utils/errorHandler.js:58-67 | replacing one word introduces no occurrence of any other |
| ErrorHandler.RedactFirstClean | src/utils/errorHandler.js:57-68 | after the first `n` words are replaced, none of them occurs |
| ErrorHandler.RedactAbsent | src/utils/errorHandler.js:58-67 | a message without the word is left unchanged |
| ErrorHandler.ShowError | src/utils/errorHandler.js:8-44 | a modal with the title and button text iff `showModal`, otherwise a toast with the duration |
| ErrorHandler.ShownErrorIsClean | src/utils/errorHandler.js:8-44 | the shown text is the sanitised message, free of sensitive words and at most 103 characters |
| ErrorHandler.ShowErrorWithoutMessage | src/utils/errorHandler.js:8-44 | a value with no message shows `未知错误` |
| ErrorHandler.LogEntry | src/utils/errorHandler.js:195-203 | the entry's message is the context's `message` when it has one, otherwise the error's |
| ErrorHandler.LogBase | src/utils/errorHandler.js:195-202 | before the context is spread, the entry's message is the error's |
| ErrorHandler.Newest | src/utils/errorHandler.js:207-213 | the newest at most 100 entries, in order |
| ErrorHandler.NewestOfNewest | src/utils/errorHandler.js:206-213 | trimming before or after appending gives the same log |
| ErrorHandler.AppendAllKeepsNewest | src/utils/errorHandler.js:206-213 | logging entries one at a time keeps exactly the newest 100 of them all |
| ErrorHandler.AppendBoundedMeaning | src/utils/errorHandler.js:206-213 | at most 100 entries; the new entry is last; the oldest are dropped only when the log is full |
| ErrorHandler.LoggedItemsMeaning | src/utils/errorHandler.js:206-218 | only the log key changes; an empty log starts fresh; a stored truthy non-array is left as it is |
| ErrorHandler.LogError | src/utils/errorHandler.js:194-227 | a null error throws before anything is stored; otherwise the bounded log gains the entry |
| ErrorHandler.SaveLogEntry | src/utils/errorHandler.js:205-217 | the stored log becomes the bounded append of the entry; a stored truthy non-array makes `push` throw and nothing changes |
| ErrorHandler.RouteApiError | src/utils/errorHandler.js:93-110 | `Token已过期` shows nothing; a message that cannot be searched throws; modals are titled only `网络错误` or `权限错误`; the sanitised message is shown |
| ErrorHandler.ApiErrorRouting | src/utils/errorHandler.js:93-110 | `网络` gives the network modal, otherwise `权限` gives the permission modal, otherwise a toast |
| ErrorHandler.HandleApiError | src/utils/errorHandler.js:83-111 | a null error throws without logging; otherwise it logs with type `'api_error'` and routes |
| ErrorHandler.HandleBusinessError | src/utils/errorHandler.js:118-129 | a null error throws; otherwise it logs with type `'business_error'` and shows a toast |
| ErrorHandler.UploadMessageMeaning | src/utils/errorHandler.js:145-154 | `大小`, then `格式`, then `网络` select the hint; otherwise the message, or `文件上传失败` |
| ErrorHandler.UploadEvent | src/utils/errorHandler.js:156-159 | the toast shows the sanitised upload message for 4000 ms |
| ErrorHandler.HandleUploadError | src/utils/errorHandler.js:136-160 | a `null` file or error throws before logging; otherwise it logs the upload context and shows the upload toast |
| ErrorHandler.FirstTruthy | src/utils/errorHandler.js:172-184 | nothing iff every value is falsy; otherwise the first truthy value |
| ErrorHandler.FirstTruthyAt | src/utils/errorHandler.js:172-184 | the value after only falsy ones is the one found |
| ErrorHandler.HandleValidationErrors | src/utils/errorHandler.js:167-187 | nothing happens for a non-object or all-falsy errors; otherwise the first truthy value is shown and logged |
| ErrorHandler.ValidationShowsFirstString | src/utils/errorHandler.js:167-187 | the first non-empty message string is the one shown |
| ErrorHandler.ErrorKeywordsReduce | src/utils/errorHandler.js:258-269 | the six keywords reduce to three substrings: the message matches one of them iff it contains `Pro feature`, `content_script` or `extension` |
| ErrorHandler.ExtensionPathsReduce | src/utils/errorHandler.js:286-297 | the stack-path check is `content_script` or `extension` |
| ErrorHandler.ExtensionErrorOfString | src/utils/errorHandler.js:256-314 | a string error is an extension error iff it or the source matches a keyword or path |
| ErrorHandler.ExtensionErrorOfInstance | src/utils/errorHandler.js:256-314 | an `Error` is one iff its message, stack or source matches |
| ErrorHandler.RetryMeaning | src/utils/errorHandler.js:366-393 | at most `maxRetries + 1` calls; stops at the first success; rethrows only after the last allowed call |
| ErrorHandler.WithRetry | src/utils/errorHandler.js:366-393 | the loop computes that outcome; it waits `delay * (i + 1)` between calls and logs only on the final failure |
| ErrorHandler.RetryFromStep | src/utils/errorHandler.js:368-391 | a call ends the run when it succeeds, throws `null` or `undefined`, or is the last allowed; otherwise the run goes on with the next call |
| ErrorHandler.Pauses | src/utils/errorHandler.js:390 | one pause per retried failure, the `k`-th lasting `delay * (k + 1)` |
| ErrorHandler.RetryFailures | src/utils/errorHandler.js:368-391 | the loop passes only retried failures, stops where the outcome is decided and has waited those pauses |
| ErrorHandler.GiveUp | src/utils/errorHandler.js:380-387 | the last failure is logged with the retry context and rethrown |
| Request.ResolveUrl | src/utils/api.js:81 | the full URL ends with the given path |
| Request.ResolveUrlMeaning | src/utils/api.js:81 | an `http…` path is used as it is; any other gets the base URL in front |
| Request.RequestHeadersMeaning | src/utils/api.js:92-129 | `Authorization: Bearer <token>` is set iff a token is present and authentication is needed; caller headers override `Content-Type` |
| Request.SecondReadOnlyWhenNeeded | src/utils/api.js:98-107 | the token is read again only when the first read is empty and `isLoggedIn` is set |
| Request.DetailedMessagePrecedence | src/utils/api.js:18-39 | `未知错误` for no body; details joined by `; `; then `type: message`; then the message or `操作失败` |
| Request.DetailedMessageSingleField | src/utils/api.js:24-28 | one detail with a field gives `field: message` |
| Request.DetailedMessageAppendDetail | src/utils/api.js:24-28 | one more detail appends `; ` and its text to the message of the details before it, so the result is every detail's text in order, joined by `; ` |
| Request.DetailedMessageTwoFields | src/utils/api.js:24-28 | two complete details give exactly `f1: m1; f2: m2` |
| Request.DetailedMessageOfArray | src/utils/api.js:21-29 | a details array without `null` entries gives its details' texts joined by `; ` |
| Js.JoinSnoc | src/utils/api.js:28 | `join` of one more part appends the separator and the part |
| Js.JoinValuesSnoc | src/config/api-config.js:277 | `join` of one more value appends the separator and the value as `join` writes it |
| Js.JoinValuesPair | src/config/api-config.js:277 | `[x, y].join(sep)` is `x`, the separator, then `y` |
| Request.HttpErrorTable | src/utils/api.js:234-273 | the fixed table for 403, 404, 413, 415, 429, 500, 502 and 503; the body message first for 400, 409 and 422; otherwise the body message or `HTTP <code>: Unknown error` |
| Request.TransportMessagePrecedence | src/utils/api.js:278-296 | `timeout`, then `network`, then `abort`, then the raw `errMsg`; no `errMsg` gives `网络连接失败` |
| Request.Settle200Meaning | src/utils/api.js:143-159 | a 200 reply resolves with its body unless the body says `success: false`, which rejects with the detailed message |
| Request.FirstSettleMeaning | src/utils/api.js:143-276 | 201 always resolves; other non-2xx statuses reject; no first reply ends the session |
| Request.NoRefreshOfRefresh | src/utils/api.js:173 | a 401 on the refresh endpoint never triggers another refresh |
| Request.JudgeRefresh | src/utils/api.js:188 | an accepted refresh carries truthy tokens |
| Request.JudgeRefreshMeaning | src/utils/api.js:188-221 | accepted iff status 200, `code` 200 and `data.tokens` are all present; a 200 reply without a body throws in the callback |
| Request.ReplayOutcome | src/utils/api.js:204-211 | the replay resolves iff its status is 200; it never refreshes again |
| Request.ExpiredSessionIsLoggedOut | src/utils/api.js:60-65 | clearing the four keys logs out, keeps the session consistent and leaves other keys alone |
| Request.HandleTokenExpired | src/utils/api.js:60-78 | removes `token`, `refreshToken`, `userInfo` and `isLoggedIn` |
| Request.Request | src/utils/api.js:50-300 | the number of token reads; the first call sent; settling of non-401 replies; on 401, a refresh only when the guard holds, storing both tokens and replaying once, otherwise the session is cleared and the promise never settles |
| Request.PrepareFirst | src/utils/api.js:80-129 | the token used is the stored one, or the second read when the first is empty and the session flag is set; unless logging it throws, the first call carries the resolved URL, the upper-cased verb and the headers built around that token |
| Request.UploadResolvesOnCode200 | src/utils/api.js:341-360 | an upload resolves iff its parsed body has `code` 200; the body is passed through |
| Request.UploadFailureMessage | src/utils/api.js:362-377 | a `null` error throws; a falsy `errMsg` gives `文件上传失败`; a truthy `errMsg` throws exactly when it is neither a string nor an array |
| Request.UploadFailurePrecedence | src/utils/api.js:366-373 | a string `errMsg` is checked for `timeout` first, then for `network`; any other text is reported as it is |
| Request.UploadFile | src/utils/api.js:312-392 | a truthy non-string token rejects before any call; otherwise one `POST` to the resolved URL with the upload headers and form data, settled by the parsed reply or rejected with the failure message |
| Request.UploadHeadersMeaning | src/utils/api.js:316-321 | the upload sends the stored token, or the user's, as a bearer header, and no header without one |
| DomainApi.LoginEstablishesSession | src/utils/api.js:419-430 | after a login is accepted the user is logged in with the returned token and is the current user; the session is consistent iff that token is present; other keys are kept |
| DomainApi.LoginApi | src/utils/api.js:396-446 | a missing argument throws; a rejected request is rethrown; an unaccepted reply throws its message or `登录响应数据异常`; otherwise the session is stored, and missing tokens throw before any write |
| DomainApi.RefreshTokenApi | src/utils/api.js:501-535 | without a refresh token, or on any failure, it logs out and throws; on success it stores both tokens; every failure leaves a consistent, logged-out session |
| DomainApi.LogoutKeysCoverSession | src/utils/api.js:564-569 | the six keys are the five session keys plus `sessionInfo` |
| DomainApi.LogoutEndsSession | src/utils/api.js:564-569 | whatever was stored, clearing the six keys leaves a logged-out, consistent store |
| DomainApi.LogoutApi | src/utils/api.js:540-573 | whether the server call succeeds or fails, the six keys are removed and the session ends logged out |
| DomainApi.CheckAndRefreshToken | src/utils/api.js:1996-2026 | false without both tokens; true without a refresh when the login is 50 minutes old or less; otherwise an accepted refresh gives true and stores the new tokens, a rejected or refused one gives false and removes the session keys, one that never settles leaves the store unchanged |
| DomainApi.RetryRequestMeaning | src/utils/api.js:1966-1991 | at most `maxRetries + 1` calls; stops at the first success; an authentication error is never retried; other errors are rethrown only after the last call |
| DomainApi.AuthErrorNotRetried | src/utils/api.js:1976-1978 | `未登录` or `认证失败` on the first call is rethrown after that one call |
| DomainApi.RetryRequest | src/utils/api.js:1966-1991 | the loop computes that outcome and waits `delay * (i + 1)` after the `i`-th retried failure |
| DomainApi.UploadedDocumentIdFallback | src/utils/api.js:952-960 | the id is the first truthy of `id`, `document_id`, `fileId`, and is truthy iff one of them is; the status is never empty |
| DomainApi.DocumentDataPrefersNested | src/utils/api.js:919-971 | a nested `data.document` object is the record returned |
| DomainApi.Project | src/utils/api.js:1148-1157 | the result record has one field per listed key |
| DomainApi.ExtractionResultsFields | src/utils/api.js:1129-1158 | each of the eight result fields is copied from `data.result`, else `data`, else the envelope; nothing else is returned |
| DomainApi.HistoryShapePrecedence | src/utils/api.js:1262-1285 | the shapes are tried in the order `data.data.documents`, `data.documents`, `data.items`, then an array `data`; otherwise an empty list |
| DomainApi.DocumentHistory | src/utils/api.js:1255-1305 | an accepted reply yields its records and their pagination; any other reply fails with its message or `获取处理历史失败`; a rejection passes through |
| DomainApi.HistoryArrayDefaults | src/utils/api.js:1281-1300 | a bare array gets page 1, page size 20, its length as total, and `ceil(length / 20)` pages |
| DomainApi.HistoryTotalPagesAsWritten | src/utils/api.js:1296-1299 | for `{items: [a, b], totalCount: 45, size: 10}` the reply reports 45 records at 10 per page but 1 page |
| DomainApi.PaginationCoversTotal | src/utils/api.js:1296-1299 | without a server page count, the pages cover exactly the reported total at the reported page size |
| DomainApi.CeilDiv | src/utils/api.js:1299 | `c` is the least number of whole pages holding `a` records at `b` per page |
| DomainApi.ExportRequestDefaults | src/utils/api.js:1324-1328 | `taskId` wins over the first of `taskIds`; the format defaults to `pdf` |
| DomainApi.ExportDefaultFileName | src/utils/api.js:1340-1345 | without a server file name, the default is `提取结果.xlsx` exactly for the `xlsx` format, else `提取结果.pdf` |
| DomainApi.GlobalConfigFlag | src/utils/api.js:1868-1896 | a string reply's flag says whether it contains `成功`; an object without the flag gets it from `model_name` or `api_key`; an object with it is returned as it is |

## Left out

- **Side effects of the user interface.** Console logging, toasts, modals, `reLaunch` navigation and upload-progress callbacks are not modelled. A toast or modal is modelled only as the `UiEvent` that `showError` would emit.
- **Time.** `new Date()`, ISO date strings and date parsing become parameters: `now`, and `elapsed`, the whole minutes since login. Fractional minutes are not modelled.
- **Timers.** `setTimeout` delays are recorded as the waits of the retry loops and are otherwise ignored.
- **Concurrency.** `batchRequests`, concurrent 401 refreshes and the timing of the 50 ms second token read are not modelled.
- **Other calls of `src/utils/api.js`.** Only the calls below are modelled: `loginApi`, `refreshTokenApi`, `logoutApi`, upload, results, history, export, global configuration, `retryRequest` and `checkAndRefreshToken`. The rest are thin wrappers around `request`. This covers registration, profile, statistics, health, the other global-configuration calls, `downloadFile` and the binary PDF download in `exportFundFieldsPdfApi`.
- **Other parts of `src/utils/errorHandler.js`.** `setupGlobalErrorHandler`, `reportErrorLogs` and `safeAsync` are not modelled. They install global hooks or post logs over the network.
- **Unused helpers of `src/utils/auth.js`.** `requireAuth`, `getAuthHeaders`, `validateToken`, `autoCheckAuth`, `getApiSettings` and `saveApiSettings` are not modelled.
- **Characters outside the Basic Multilingual Plane.** A JavaScript string counts them as two UTF-16 code units; the model holds one `char` per Unicode scalar value. So the 100-character cut in `ErrorHandler.Sanitized` and the token length in `AuthDiagnostic` are counted in characters, and a cut that would split a surrogate pair is not modelled.
- **Floating point.**
  - `formatFileSize` is modelled only for `0`, because the other sizes use `Math.log` and `toFixed`.
  - Numbers are integers.
  - `DomainApi.CeilDiv` is exact only for integer operands. `DomainApi.CeilValues` gives `undefined` where JavaScript would give `NaN`, `Infinity` or a number coerced from a numeric string.
- **Query strings.** `URLSearchParams` encoding in the results and history calls is not modelled. Neither is the `JSON.stringify` of the upload tags, or the upload form data.
- **Storage effects of the domain calls' own requests.** These belong to `Request.Request` and are not composed into the domain calls. Each domain call receives only the way its request ended.
- **Property lookup.** Prototype properties (such as `toString` on a plain object) and `Object.values` ordering of integer-like keys are not modelled.
- **DomainApi.GlobalConfig.** An array reply is returned unchanged. The source adds a `has_global_config` property to the array, which the value model cannot hold.
- **Request.Request.** The `timeout` option is passed to `uni.request` but has no effect in the model. A request that times out is a transport failure whose `errMsg` mentions `timeout`.
- DomainApi.DocumentHistory: its `totalPages` comes from the corrected `DomainApi.Pagination`, which reads `total` and `pageSize` with their `totalCount` and `size` aliases. `DomainApi.PaginationAsWritten` is the source's own formula; the difference is the second row of "## Findings".
- Request.UploadFile: a truthy non-string token makes `uploadFile` throw synchronously rather than return a rejected promise. It is modelled as a rejection, which is the same thing to its callers, because both await it inside a `try`.
- AuthDiagnostic.IssueText: the `诊断过程出错: ` issue (src/utils/auth-diagnostic.js:102) does not carry the engine's error message text, which the model does not have.
- **`generateRequestId`.** Not modelled: it depends on randomness and time.

## Findings

| source | as written | input that shows it | evidently intended | confidence | as-written member | corrected member |
|---|---|---|---|---|---|---|
| src/utils/auth.js:260-263 | the `typeof savedModel === 'string'` check is true for the `""` that `uni.getStorageSync` returns for a missing key, so nothing stored gives `""` | no `selectedModel` key stored | fall back to `deepseek-chat` when nothing is stored | medium, not executed | Auth.SelectedModelMissingKeyAsWritten | Auth.GetSelectedModel |
| src/utils/api.js:1299 | `totalPages` is computed from `paginationData.total` and `paginationData.pageSize` only, ignoring the `totalCount` and `size` aliases that `total` and `pageSize` accept two lines above | `data = {items: [a, b], totalCount: 45, size: 10}`: total 45, page size 10, total pages 1 | `ceil(45 / 10) = 5`, from the reported total and page size | high, not executed | DomainApi.HistoryTotalPagesAsWritten | DomainApi.PaginationCoversTotal |
