/**
 * The authentication diagnostic (src/utils/auth-diagnostic.js): a report of
 * what is wrong with the stored session, each issue paired with one
 * recommendation, and the automatic repair of the two problems it can fix.
 */
module AuthDiagnostic {
  import opened Wrappers
  import opened Js
  import opened Storage
  import Auth

  /** The five session values the diagnostic reads. */
  datatype Snapshot = Snapshot(token: Json, refreshToken: Json, userInfo: Json, isLoggedIn: Json, loginTime: Json)

  function SnapshotOf(items: map<string, Json>): (s: Snapshot)
    ensures s.token == ReadFrom(items, "token") && s.isLoggedIn == ReadFrom(items, "isLoggedIn")
  {
    Snapshot(ReadFrom(items, "token"), ReadFrom(items, "refreshToken"), ReadFrom(items, "userInfo"),
             ReadFrom(items, "isLoggedIn"), ReadFrom(items, "loginTime"))
  }

  datatype AuthSummary = AuthSummary(
    isLoggedInCheck: bool, hasToken: bool, hasRefreshToken: bool, hasUserInfo: bool,
    tokenLength: nat, loginTimeAgo: Option<int>)

  datatype Issue =
    | NotLoggedIn | MissingToken | Inconsistent | ShortToken | MissingUserInfo | MalformedToken
    | MaybeExpired(minutes: int)
    | DiagnosisFailed

  datatype Recommendation =
    | Relogin | CheckLoginFlow | ClearAndRelogin | CheckLoginResponse | CheckUserInfoSaving
    | CheckTokenFormat | TryRefresh

  datatype Diagnosis = Diagnosis(storage: Snapshot, auth: Option<AuthSummary>,
                                 issues: seq<Issue>, recommendations: seq<Recommendation>)

  function IssueText(i: Issue): string
  {
    match i
    case NotLoggedIn => "用户未登录状态 (isLoggedIn = false)"
    case MissingToken => "缺少JWT Token"
    case Inconsistent => "登录状态与token不一致"
    case ShortToken => "Token长度异常，可能不是有效的JWT"
    case MissingUserInfo => "用户信息缺失"
    case MalformedToken => "Token格式不正确，不是标准JWT格式"
    case MaybeExpired(m) => "Token可能已过期 (登录于" + IntToString(m) + "分钟前)"
    case DiagnosisFailed => "诊断过程出错: "
  }

  function RecommendationText(r: Recommendation): string
  {
    match r
    case Relogin => "需要重新登录"
    case CheckLoginFlow => "检查登录流程，确保token正确保存"
    case ClearAndRelogin => "清理认证状态并重新登录"
    case CheckLoginResponse => "检查登录API响应格式"
    case CheckUserInfoSaving => "检查登录时用户信息保存"
    case CheckTokenFormat => "检查后端返回的token格式"
    case TryRefresh => "尝试刷新token或重新登录"
  }

  /** The one recommendation pushed together with each issue; a failed diagnosis has none. */
  function RecommendationFor(i: Issue): Option<Recommendation>
  {
    match i
    case NotLoggedIn => Some(Relogin)
    case MissingToken => Some(CheckLoginFlow)
    case Inconsistent => Some(ClearAndRelogin)
    case ShortToken => Some(CheckLoginResponse)
    case MissingUserInfo => Some(CheckUserInfoSaving)
    case MalformedToken => Some(CheckTokenFormat)
    case MaybeExpired(_) => Some(TryRefresh)
    case DiagnosisFailed => None
  }

  /** Position of each check in the report. */
  function Rank(i: Issue): nat
  {
    match i
    case NotLoggedIn => 0
    case MissingToken => 1
    case Inconsistent => 2
    case ShortToken => 3
    case MissingUserInfo => 4
    case MalformedToken => 5
    case MaybeExpired(_) => 6
    case DiagnosisFailed => 7
  }

  /** Issues appear in the order the checks run, each at most once. */
  predicate InCheckOrder(issues: seq<Issue>)
  {
    forall i, j :: 0 <= i < j < |issues| ==> Rank(issues[i]) < Rank(issues[j])
  }

  /** Every recommendation is the one paired with the issue at the same position. */
  predicate Paired(issues: seq<Issue>, recs: seq<Recommendation>)
  {
    |issues| == |recs| && forall i :: 0 <= i < |issues| ==> RecommendationFor(issues[i]) == Some(recs[i])
  }

  /** A JWS compact token splits on `.` into exactly three parts. */
  predicate ThreeParts(token: string)
  {
    CountChar(token, '.') == 2
  }

  /** The issue `i` when check `c` fires, nothing otherwise. */
  function Flag(c: bool, i: Issue): seq<Issue>
  {
    if c then [i] else []
  }

  /** A truthy token that is not a string: `token.substring` throws on it. */
  predicate TokenThrows(s: Snapshot)
  {
    Truthy(s.token) && !s.token.Str?
  }

  /** The outcome of each check of a diagnosis that runs to the end. */
  datatype Checks = Checks(loggedIn: bool, hasToken: bool, shortToken: bool, hasUserInfo: bool,
                           malformedToken: bool, expiredAfter: Option<int>)

  function ChecksOf(s: Snapshot, elapsed: Option<int>): (c: Checks)
    requires !TokenThrows(s)
  {
    Checks(Truthy(s.isLoggedIn), Truthy(s.token),
           Truthy(s.token) && |s.token.s| < 50,
           Truthy(s.userInfo),
           Truthy(s.token) && !ThreeParts(s.token.s),
           if Truthy(s.loginTime) && elapsed.Some? && elapsed.value > 60 then elapsed else None)
  }

  function ExpiredMinutes(c: Checks): int
  {
    if c.expiredAfter.Some? then c.expiredAfter.value else 0
  }

  /** Every issue a diagnosis can record, in the order the checks run. */
  function Candidates(c: Checks): seq<Issue>
  {
    [NotLoggedIn, MissingToken, Inconsistent, ShortToken, MissingUserInfo, MalformedToken, MaybeExpired(ExpiredMinutes(c))]
  }

  /** Whether the check that records `i` fires. */
  predicate Fires(c: Checks, i: Issue)
  {
    match i
    case NotLoggedIn => !c.loggedIn
    case MissingToken => !c.hasToken
    case Inconsistent => c.loggedIn && !c.hasToken
    case ShortToken => c.shortToken
    case MissingUserInfo => !c.hasUserInfo
    case MalformedToken => c.malformedToken
    case MaybeExpired(m) => c.expiredAfter == Some(m)
    case DiagnosisFailed => false
  }

  /** The candidates whose check fires, in order. */
  function Select(c: Checks, cands: seq<Issue>): seq<Issue>
    decreases |cands|
  {
    if cands == [] then []
    else Select(c, cands[..|cands| - 1]) + Flag(Fires(c, cands[|cands| - 1]), cands[|cands| - 1])
  }

  /** The issues of a diagnosis that runs to the end. */
  function IssuesOf(c: Checks): seq<Issue>
  {
    Select(c, Candidates(c))
  }

  lemma SelectSnoc(c: Checks, p: seq<Issue>, x: Issue)
    ensures Select(c, p + [x]) == Select(c, p) + Flag(Fires(c, x), x)
  {
    assert (p + [x])[..|p|] == p;
  }

  /** An issue is selected exactly when it is a candidate and its check fires. */
  lemma {:induction false} SelectMembers(c: Checks, cands: seq<Issue>, x: Issue)
    ensures x in Select(c, cands) <==> x in cands && Fires(c, x)
    decreases |cands|
  {
    if cands != [] {
      var n := |cands|;
      SelectMembers(c, cands[..n - 1], x);
      assert cands == cands[..n - 1] + [cands[n - 1]];
    }
  }

  /** Appending a check of higher rank than everything so far keeps the report in check order. */
  lemma {:induction false} OrderedFlag(a: seq<Issue>, c: bool, x: Issue)
    requires InCheckOrder(a)
    requires forall k :: 0 <= k < |a| ==> Rank(a[k]) < Rank(x)
    ensures InCheckOrder(a + Flag(c, x))
    ensures forall k :: 0 <= k < |a + Flag(c, x)| ==> Rank((a + Flag(c, x))[k]) <= Rank(x)
  {
    var r := a + Flag(c, x);
    forall i, j | 0 <= i < j < |r|
      ensures Rank(r[i]) < Rank(r[j])
    {
      if j < |a| {
        assert r[i] == a[i] && r[j] == a[j];
      } else {
        assert r[i] == a[i] && r[j] == x;
      }
    }
    forall k | 0 <= k < |r|
      ensures Rank(r[k]) <= Rank(x)
    {
      if k < |a| {
        assert r[k] == a[k];
      }
    }
  }

  /** Selecting from candidates in check order gives issues in check order. */
  lemma {:induction false} SelectOrdered(c: Checks, cands: seq<Issue>)
    requires InCheckOrder(cands)
    ensures InCheckOrder(Select(c, cands))
    ensures |cands| > 0 ==> forall k :: 0 <= k < |Select(c, cands)| ==> Rank(Select(c, cands)[k]) <= Rank(cands[|cands| - 1])
    decreases |cands|
  {
    if cands != [] {
      var n := |cands|;
      var p := cands[..n - 1];
      SelectOrdered(c, p);
      if n > 1 {
        assert Rank(p[n - 2]) < Rank(cands[n - 1]);
      }
      OrderedFlag(Select(c, p), Fires(c, cands[n - 1]), cands[n - 1]);
    }
  }

  /** The issues come in check order, so each appears at most once. */
  lemma IssuesInCheckOrder(c: Checks)
    ensures InCheckOrder(IssuesOf(c))
  {
    SelectOrdered(c, Candidates(c));
  }

  /** Each issue is present exactly when its check fires; the failure marker never is. */
  lemma IssuesOfMeaning(c: Checks)
    ensures var d := IssuesOf(c);
      && (NotLoggedIn in d <==> !c.loggedIn)
      && (MissingToken in d <==> !c.hasToken)
      && (Inconsistent in d <==> c.loggedIn && !c.hasToken)
      && (ShortToken in d <==> c.shortToken)
      && (MissingUserInfo in d <==> !c.hasUserInfo)
      && (MalformedToken in d <==> c.malformedToken)
      && (forall m :: MaybeExpired(m) in d <==> c.expiredAfter == Some(m))
      && DiagnosisFailed !in d
  {
    var cands := Candidates(c);
    SelectMembers(c, cands, NotLoggedIn);
    SelectMembers(c, cands, MissingToken);
    SelectMembers(c, cands, Inconsistent);
    SelectMembers(c, cands, ShortToken);
    SelectMembers(c, cands, MissingUserInfo);
    SelectMembers(c, cands, MalformedToken);
    SelectMembers(c, cands, DiagnosisFailed);
    forall m
      ensures MaybeExpired(m) in IssuesOf(c) <==> c.expiredAfter == Some(m)
    {
      SelectMembers(c, cands, MaybeExpired(m));
    }
  }

  /** The checks read the snapshot as the source does: truthiness, a length under 50, three JWS parts, more than 60 minutes. */
  lemma ChecksOfMeaning(s: Snapshot, elapsed: Option<int>)
    requires !TokenThrows(s)
    ensures var c := ChecksOf(s, elapsed);
      && (c.shortToken <==> s.token.Str? && 0 < |s.token.s| < 50)
      && (c.malformedToken <==> s.token.Str? && |s.token.s| > 0 && CountChar(s.token.s, '.') != 2)
      && (c.expiredAfter.Some? <==> Truthy(s.loginTime) && elapsed.Some? && elapsed.value > 60)
      && (c.expiredAfter.Some? ==> c.expiredAfter == elapsed)
  {
  }

  /** The selected issues written out check by check, as the diagnosis pushes them. */
  lemma IssuesUnfold(c: Checks)
    ensures IssuesOf(c) == []
              + Flag(!c.loggedIn, NotLoggedIn)
              + Flag(!c.hasToken, MissingToken)
              + Flag(c.loggedIn && !c.hasToken, Inconsistent)
              + Flag(c.shortToken, ShortToken)
              + Flag(!c.hasUserInfo, MissingUserInfo)
              + Flag(c.malformedToken, MalformedToken)
              + Flag(c.expiredAfter.Some?, MaybeExpired(ExpiredMinutes(c)))
  {
    var p0: seq<Issue> := [];
    var p1 := p0 + [NotLoggedIn];
    var p2 := p1 + [MissingToken];
    var p3 := p2 + [Inconsistent];
    var p4 := p3 + [ShortToken];
    var p5 := p4 + [MissingUserInfo];
    var p6 := p5 + [MalformedToken];
    var p7 := p6 + [MaybeExpired(ExpiredMinutes(c))];
    SelectSnoc(c, p0, NotLoggedIn);
    SelectSnoc(c, p1, MissingToken);
    SelectSnoc(c, p2, Inconsistent);
    SelectSnoc(c, p3, ShortToken);
    SelectSnoc(c, p4, MissingUserInfo);
    SelectSnoc(c, p5, MalformedToken);
    SelectSnoc(c, p6, MaybeExpired(ExpiredMinutes(c)));
    assert p7 == Candidates(c);
  }

  /** One check's paired `push` onto the issue and recommendation lists. */
  method Report(issues: seq<Issue>, recs: seq<Recommendation>, fires: bool, issue: Issue, rec: Recommendation)
    returns (issues': seq<Issue>, recs': seq<Recommendation>)
    requires Paired(issues, recs) && RecommendationFor(issue) == Some(rec)
    ensures issues' == issues + Flag(fires, issue)
    ensures Paired(issues', recs')
  {
    issues', recs' := issues, recs;
    if fires {
      issues' := issues' + [issue];
      recs' := recs' + [rec];
    }
  }

  /** Step 4 to 6 of the diagnosis: each check that fires pushes its issue and its recommendation. */
  method RecordIssues(c: Checks) returns (issues: seq<Issue>, recs: seq<Recommendation>)
    ensures issues == IssuesOf(c)
    ensures Paired(issues, recs)
  {
    issues, recs := [], [];
    issues, recs := Report(issues, recs, !c.loggedIn, NotLoggedIn, Relogin);
    issues, recs := Report(issues, recs, !c.hasToken, MissingToken, CheckLoginFlow);
    issues, recs := Report(issues, recs, c.loggedIn && !c.hasToken, Inconsistent, ClearAndRelogin);
    issues, recs := Report(issues, recs, c.shortToken, ShortToken, CheckLoginResponse);
    issues, recs := Report(issues, recs, !c.hasUserInfo, MissingUserInfo, CheckUserInfoSaving);
    issues, recs := Report(issues, recs, c.malformedToken, MalformedToken, CheckTokenFormat);
    issues, recs := Report(issues, recs, c.expiredAfter.Some?, MaybeExpired(ExpiredMinutes(c)), TryRefresh);
    IssuesUnfold(c);
  }

  /**
   * `diagnoseAuthState()`. `elapsed` is the whole number of minutes since the
   * stored login time, `None` when that time does not parse as a date. A
   * truthy token that is not a string makes `token.substring` throw before
   * any issue is recorded, and the report then holds only the failure.
   */
  method DiagnoseAuthState(store: Store, elapsed: Option<int>) returns (d: Diagnosis)
    ensures d.storage == SnapshotOf(store.items)
    ensures TokenThrows(d.storage) ==> d.issues == [DiagnosisFailed] && d.recommendations == [] && d.auth == None
    ensures !TokenThrows(d.storage) ==>
        && d.auth.Some?
        && d.auth.value.isLoggedInCheck == Auth.IsLoggedIn(store.items)
        && (d.auth.value.loginTimeAgo == if Truthy(d.storage.loginTime) then elapsed else None)
        && d.issues == IssuesOf(ChecksOf(d.storage, elapsed))
        && Paired(d.issues, d.recommendations)
    ensures !Auth.Consistent(store.items) ==> Inconsistent in d.issues
  {
    var storage := SnapshotOf(store.items);
    if Truthy(storage.token) && !storage.token.Str? {
      return Diagnosis(storage, None, [DiagnosisFailed], []);
    }
    var tokenLength := if Truthy(storage.token) then |storage.token.s| else 0;
    var loginTimeAgo := if Truthy(storage.loginTime) then elapsed else None;
    var auth := AuthSummary(Auth.IsLoggedIn(store.items), Truthy(storage.token), Truthy(storage.refreshToken),
                            Truthy(storage.userInfo), tokenLength, loginTimeAgo);
    var c := ChecksOf(storage, elapsed);
    var issues, recs := RecordIssues(c);
    IssuesOfMeaning(c);
    d := Diagnosis(storage, Some(auth), issues, recs);
  }

  /** The keys the repair of an inconsistent session removes (the token keys are left as they are). */
  const InconsistentKeys: set<string> := {"isLoggedIn", "userInfo", "loginTime"}

  /**
   * `fixAuthIssues()`: a truthy login flag without a token removes the flag,
   * the user and the login time; otherwise a login more than 60 minutes old
   * removes all five session keys; otherwise nothing changes. Either way the
   * store ends consistent.
   */
  method FixAuthIssues(store: Store, elapsed: Option<int>) returns (fixed: bool)
    modifies store
    ensures var s := SnapshotOf(old(store.items));
      Truthy(s.isLoggedIn) && !Truthy(s.token) ==> fixed && store.items == old(store.items) - InconsistentKeys
    ensures var s := SnapshotOf(old(store.items));
      !(Truthy(s.isLoggedIn) && !Truthy(s.token)) ==>
        if !TokenThrows(s) && Truthy(s.loginTime) && elapsed.Some? && elapsed.value > 60
        then fixed && store.items == old(store.items) - Auth.AuthKeys
        else !fixed && store.items == old(store.items)
    ensures Auth.Consistent(store.items)
    ensures !(Truthy(ReadFrom(store.items, "isLoggedIn")) && !Truthy(ReadFrom(store.items, "token")))
  {
    var d := DiagnoseAuthState(store, elapsed);
    if Truthy(d.storage.isLoggedIn) && !Truthy(d.storage.token) {
      store.Remove("isLoggedIn");
      store.Remove("userInfo");
      store.Remove("loginTime");
      return true;
    }
    if d.auth.Some? && d.auth.value.loginTimeAgo.Some? && d.auth.value.loginTimeAgo.value > 60 {
      store.Remove("token");
      store.Remove("refreshToken");
      store.Remove("isLoggedIn");
      store.Remove("userInfo");
      store.Remove("loginTime");
      return true;
    }
    return false;
  }
}
