/**
 * Centralised error handling (src/utils/errorHandler.js): redaction and
 * truncation of messages before they are shown, the bounded error log kept
 * in local storage, the routing of API, upload and form errors to toasts
 * and modals, the retry wrapper and the browser-extension error filter.
 */
module ErrorHandler {
  import opened Wrappers
  import opened Js
  import opened Storage

  // ---------------------------------------------------------------------
  // sanitizeErrorMessage
  // ---------------------------------------------------------------------

  /** The patterns redacted, in the order they are applied (each used as `/word/gi`). */
  const SensitiveWords: seq<string> := ["token", "password", "secret", "key", "authorization"]

  const Redacted := "***"
  const FallbackMessage := "操作失败"
  const MaxShown := 100

  predicate IsLetter(c: char)
  {
    'a' <= c <= 'z' || 'A' <= c <= 'Z'
  }

  /** A non-empty word of lower-case ASCII letters. */
  predicate IsWord(w: string)
  {
    |w| > 0 && forall i :: 0 <= i < |w| ==> 'a' <= w[i] <= 'z'
  }

  predicate NoLetters(s: string)
  {
    forall i :: 0 <= i < |s| ==> !IsLetter(s[i])
  }

  /** `s` starts with `w` ignoring ASCII case (what `/w/i` matches at position 0). */
  predicate StartsCi(s: string, w: string)
  {
    |w| <= |s| && LowerAscii(s[..|w|]) == w
  }

  /** `s` contains `w` ignoring ASCII case. */
  predicate ContainsCi(s: string, w: string)
    decreases |s|
  {
    StartsCi(s, w) || (|s| > 0 && ContainsCi(s[1..], w))
  }

  /** `s.replace(/w/gi, '***')`: every leftmost, non-overlapping match replaced. */
  function RedactWord(s: string, w: string): string
    requires |w| > 0
    decreases |s|
  {
    if StartsCi(s, w) then Redacted + RedactWord(s[|w|..], w)
    else if |s| == 0 then ""
    else [s[0]] + RedactWord(s[1..], w)
  }

  /** The message after the first `n` patterns have been applied. */
  function RedactFirst(s: string, n: nat): string
    requires n <= |SensitiveWords|
  {
    if n == 0 then s else RedactWord(RedactFirst(s, n - 1), SensitiveWords[n - 1])
  }

  /** What `sanitizeErrorMessage(message)` returns. */
  function Sanitized(message: Json): string
  {
    if !Truthy(message) || !message.Str? then FallbackMessage
    else
      var clean := RedactFirst(message.s, |SensitiveWords|);
      if |clean| > MaxShown then clean[..MaxShown] + "..." else clean
  }

  /**
   * `sanitizeErrorMessage(message)`: a missing, empty or non-string message
   * becomes `操作失败`; otherwise each pattern is replaced in turn and a
   * result over 100 characters is cut to 100 plus `...`.
   */
  method SanitizeErrorMessage(message: Json) returns (r: string)
    ensures r == Sanitized(message)
  {
    if !Truthy(message) || !message.Str? {
      return FallbackMessage;
    }
    var cleanMessage := message.s;
    for i := 0 to |SensitiveWords|
      invariant cleanMessage == RedactFirst(message.s, i)
    {
      cleanMessage := RedactWord(cleanMessage, SensitiveWords[i]);
    }
    if |cleanMessage| > MaxShown {
      cleanMessage := cleanMessage[..MaxShown] + "...";
    }
    return cleanMessage;
  }

  lemma SensitiveWordsAreWords()
    ensures forall k :: 0 <= k < |SensitiveWords| ==> IsWord(SensitiveWords[k])
  {
  }

  lemma {:induction false} ContainsCiEmpty(w: string)
    requires |w| > 0
    ensures !ContainsCi("", w)
  {
  }

  /** A word cannot start at a position whose `i`-th character is not a letter. */
  lemma NonLetterBlocks(s: string, w: string, i: nat)
    requires IsWord(w) && i < |w| && i < |s| && !IsLetter(s[i])
    ensures !StartsCi(s, w)
  {
    assert |w| <= |s| ==> LowerAscii(s[..|w|])[i] == ToLowerAscii(s[i]);
  }

  /** An occurrence of a word is never inside, nor straddling into, a stretch without letters. */
  lemma {:induction false} SkipNoLetters(b: string, x: string, w: string)
    requires IsWord(w) && NoLetters(b)
    requires ContainsCi(b + x, w)
    ensures ContainsCi(x, w)
    decreases |b|
  {
    if |b| > 0 {
      assert (b + x)[0] == b[0];
      NonLetterBlocks(b + x, w, 0);
      assert (b + x)[1..] == b[1..] + x;
      SkipNoLetters(b[1..], x, w);
    } else {
      assert b + x == x;
    }
  }

  /** An occurrence in `a + b`, where `b` has no letters, lies within `a`. */
  lemma {:induction false} DropNoLettersSuffix(a: string, b: string, w: string)
    requires IsWord(w) && NoLetters(b)
    requires ContainsCi(a + b, w)
    ensures ContainsCi(a, w)
    decreases |a|
  {
    if |a| == 0 {
      assert "" + b == b + "";
      SkipNoLetters(b, "", w);
      ContainsCiEmpty(w);
    } else {
      if |a| < |w| && |b| > 0 {
        assert (a + b)[|a|] == b[0];
        NonLetterBlocks(a + b, w, |a|);
      }
      if StartsCi(a + b, w) {
        assert (a + b)[..|w|] == a[..|w|];
      } else {
        assert (a + b)[1..] == a[1..] + b;
        DropNoLettersSuffix(a[1..], b, w);
      }
    }
  }

  /** An occurrence in a prefix is an occurrence in the whole. */
  lemma {:induction false} ContainsCiPrefix(s: string, k: nat, w: string)
    requires k <= |s| && ContainsCi(s[..k], w)
    ensures ContainsCi(s, w)
    decreases k
  {
    if StartsCi(s[..k], w) {
      assert s[..k][..|w|] == s[..|w|];
    } else {
      assert s[..k][1..] == s[1..][..k - 1];
      ContainsCiPrefix(s[1..], k - 1, w);
    }
  }

  /** An occurrence in a suffix is an occurrence in the whole. */
  lemma {:induction false} ContainsCiSuffix(s: string, k: nat, w: string)
    requires k <= |s| && ContainsCi(s[k..], w)
    ensures ContainsCi(s, w)
    decreases k
  {
    if k > 0 {
      assert s[1..][k - 1..] == s[k..];
      ContainsCiSuffix(s[1..], k - 1, w);
    }
  }

  /** A letters-only word at the start of a redacted text was at the start of the original. */
  lemma {:induction false} PrefixReflect(t: string, w: string, p: string)
    requires |w| > 0 && IsWord(p)
    requires StartsCi(RedactWord(t, w), p)
    ensures StartsCi(t, p)
    decreases |t|
  {
    var r := RedactWord(t, w);
    if StartsCi(t, w) {
      assert r == Redacted + RedactWord(t[|w|..], w);
      NonLetterBlocks(r, p, 0);
    } else if |t| == 0 {
      assert false;
    } else {
      var x := RedactWord(t[1..], w);
      assert r == [t[0]] + x;
      if |p| > 1 {
        assert LowerAscii(x[..|p| - 1]) == LowerAscii(r[..|p|])[1..];
        PrefixReflect(t[1..], w, p[1..]);
        assert LowerAscii(t[..|p|]) == [ToLowerAscii(t[0])] + LowerAscii(t[1..][..|p| - 1]);
      } else {
        assert LowerAscii(t[..1]) == [ToLowerAscii(t[0])];
      }
    }
  }

  /** Redacting one word never creates an occurrence of another (or the same) word. */
  lemma {:induction false} OccurReflect(t: string, w: string, p: string)
    requires |w| > 0 && IsWord(p)
    requires ContainsCi(RedactWord(t, w), p)
    ensures ContainsCi(t, p)
    decreases |t|
  {
    var r := RedactWord(t, w);
    if StartsCi(r, p) {
      PrefixReflect(t, w, p);
    } else if StartsCi(t, w) {
      var x := RedactWord(t[|w|..], w);
      assert r == Redacted + x;
      SkipNoLetters(Redacted, x, p);
      OccurReflect(t[|w|..], w, p);
      ContainsCiSuffix(t, |w|, p);
    } else if |t| == 0 {
      ContainsCiEmpty(p);
    } else {
      assert r[1..] == RedactWord(t[1..], w);
      OccurReflect(t[1..], w, p);
    }
  }

  /** After redacting a word, no case-insensitive occurrence of it remains. */
  lemma {:induction false} NoneRemain(t: string, w: string)
    requires IsWord(w)
    ensures !ContainsCi(RedactWord(t, w), w)
    decreases |t|
  {
    var r := RedactWord(t, w);
    if ContainsCi(r, w) {
      if StartsCi(t, w) {
        var x := RedactWord(t[|w|..], w);
        assert r == Redacted + x;
        SkipNoLetters(Redacted, x, w);
        NoneRemain(t[|w|..], w);
      } else if |t| == 0 {
        ContainsCiEmpty(w);
      } else if StartsCi(r, w) {
        PrefixReflect(t, w, w);
      } else {
        assert r[1..] == RedactWord(t[1..], w);
        NoneRemain(t[1..], w);
      }
    }
  }

  /** Redaction leaves a text without the word unchanged. */
  lemma {:induction false} RedactAbsent(t: string, w: string)
    requires |w| > 0 && !ContainsCi(t, w)
    ensures RedactWord(t, w) == t
    decreases |t|
  {
    if |t| > 0 {
      RedactAbsent(t[1..], w);
    }
  }

  /** After the first `n` patterns, none of those `n` words remains. */
  lemma {:induction false} RedactFirstClean(s: string, n: nat)
    requires n <= |SensitiveWords|
    ensures forall k :: 0 <= k < n ==> !ContainsCi(RedactFirst(s, n), SensitiveWords[k])
  {
    SensitiveWordsAreWords();
    if n > 0 {
      RedactFirstClean(s, n - 1);
      var prev := RedactFirst(s, n - 1);
      var w := SensitiveWords[n - 1];
      NoneRemain(prev, w);
      forall k | 0 <= k < n - 1
        ensures !ContainsCi(RedactFirst(s, n), SensitiveWords[k])
      {
        if ContainsCi(RedactWord(prev, w), SensitiveWords[k]) {
          OccurReflect(prev, w, SensitiveWords[k]);
        }
      }
    }
  }

  /** A text free of all the words passes redaction unchanged. */
  lemma {:induction false} RedactFirstAbsent(s: string, n: nat)
    requires n <= |SensitiveWords|
    requires forall k :: 0 <= k < |SensitiveWords| ==> !ContainsCi(s, SensitiveWords[k])
    ensures RedactFirst(s, n) == s
  {
    if n > 0 {
      RedactFirstAbsent(s, n - 1);
      RedactAbsent(s, SensitiveWords[n - 1]);
    }
  }

  /**
   * What is shown never contains any of the five sensitive words, in any
   * ASCII case, and is at most 103 characters long.
   */
  lemma SanitizedIsClean(message: Json)
    ensures forall k :: 0 <= k < |SensitiveWords| ==> !ContainsCi(Sanitized(message), SensitiveWords[k])
    ensures |Sanitized(message)| <= MaxShown + 3
  {
    SensitiveWordsAreWords();
    var r := Sanitized(message);
    if !Truthy(message) || !message.Str? {
      NoLettersIsClean(r);
    } else {
      var clean := RedactFirst(message.s, |SensitiveWords|);
      RedactFirstClean(message.s, |SensitiveWords|);
      if |clean| > MaxShown {
        forall k | 0 <= k < |SensitiveWords|
          ensures !ContainsCi(r, SensitiveWords[k])
        {
          if ContainsCi(r, SensitiveWords[k]) {
            DropNoLettersSuffix(clean[..MaxShown], "...", SensitiveWords[k]);
            ContainsCiPrefix(clean, MaxShown, SensitiveWords[k]);
          }
        }
      }
    }
  }

  /** A text without letters holds none of the words. */
  lemma NoLettersIsClean(s: string)
    requires NoLetters(s)
    ensures forall k :: 0 <= k < |SensitiveWords| ==> !ContainsCi(s, SensitiveWords[k])
  {
    SensitiveWordsAreWords();
    forall k | 0 <= k < |SensitiveWords|
      ensures !ContainsCi(s, SensitiveWords[k])
    {
      assert s + "" == s;
      if ContainsCi(s + "", SensitiveWords[k]) {
        SkipNoLetters(s, "", SensitiveWords[k]);
      }
    }
  }

  /** Redaction never empties a non-empty text. */
  lemma {:induction false} RedactWordNonEmpty(t: string, w: string)
    requires |w| > 0 && t != ""
    ensures RedactWord(t, w) != ""
  {
  }

  lemma {:induction false} RedactFirstNonEmpty(s: string, n: nat)
    requires n <= |SensitiveWords| && s != ""
    ensures RedactFirst(s, n) != ""
  {
    if n > 0 {
      RedactFirstNonEmpty(s, n - 1);
      RedactWordNonEmpty(RedactFirst(s, n - 1), SensitiveWords[n - 1]);
    }
  }

  /** A non-empty message whose redaction fits in 100 characters is shown as redacted. */
  lemma SanitizedShort(s: string, clean: string)
    requires s != "" && |clean| <= MaxShown && RedactFirst(s, |SensitiveWords|) == clean
    ensures Sanitized(Str(s)) == clean
  {
  }

  /** A message of at most 100 characters that holds no sensitive word is shown exactly as given. */
  lemma SanitizedKeepsCleanMessage(s: string)
    requires s != "" && |s| <= MaxShown
    requires forall k :: 0 <= k < |SensitiveWords| ==> !ContainsCi(s, SensitiveWords[k])
    ensures Sanitized(Str(s)) == s
  {
    RedactFirstAbsent(s, |SensitiveWords|);
    SanitizedShort(s, s);
  }

  /** Sanitising an already sanitised message changes nothing. */
  lemma SanitizedIdempotent(message: Json)
    ensures Sanitized(Str(Sanitized(message))) == Sanitized(message)
  {
    var r := Sanitized(message);
    SanitizedIsClean(message);
    RedactFirstAbsent(r, |SensitiveWords|);
    if Truthy(message) && message.Str? {
      RedactFirstNonEmpty(message.s, |SensitiveWords|);
    }
    assert r != "";
    if |r| > MaxShown {
      assert r[..MaxShown] + "..." == r by {
        var clean := RedactFirst(message.s, |SensitiveWords|);
        assert r == clean[..MaxShown] + "...";
        assert r[..MaxShown] == clean[..MaxShown];
      }
    }
  }

  // ---------------------------------------------------------------------
  // Thrown values and the text `showError` extracts from them
  // ---------------------------------------------------------------------

  /** What a handler receives: an `Error` instance, or any other thrown or passed value. */
  datatype ErrorArg = ErrorInstance(message: string, stack: Json) | Plain(value: Json)

  /** `error.message` and `error.message.includes` would throw on this value. */
  predicate ErrNullish(e: ErrorArg)
  {
    e.Plain? && Nullish(e.value)
  }

  predicate ErrTruthy(e: ErrorArg)
  {
    e.ErrorInstance? || Truthy(e.value)
  }

  /** `error.message` / `error.stack` on a value that is not `null` or `undefined`. */
  function Field(e: ErrorArg, key: string): Json
  {
    match e
    case ErrorInstance(m, st) => if key == "message" then Str(m) else if key == "stack" then st else Undefined
    case Plain(v) => Get(v, key)
  }

  /** `v.includes(k)`: a substring search on strings, an element search on arrays; anything else throws. */
  function Includes(v: Json, k: string): (r: Res<bool>)
    ensures r.TypeError? <==> !(v.Str? || v.Arr?)
    ensures v.Str? ==> r == Ok(Contains(v.s, k))
  {
    match v
    case Str(s) => Ok(Contains(s, k))
    case Arr(items) => Ok(Str(k) in items)
    case _ => TypeError
  }

  const UnknownError := "未知错误"

  /** The message `showError` picks before sanitising it. */
  function RawMessage(error: ErrorArg): (m: Json)
    ensures error.ErrorInstance? ==> m == Str(error.message)
    ensures error.Plain? && error.value.Str? ==> m == error.value
  {
    match error
    case ErrorInstance(msg, _) => Str(msg)
    case Plain(v) =>
      if v.Str? then v
      else if Truthy(v) && Truthy(Get(v, "message")) then Get(v, "message")
      else Str(UnknownError)
  }

  datatype UiEvent =
    | Toast(title: string, duration: int)
    | Modal(title: string, content: string, confirmText: string)
    | NoEvent

  /** The text an event puts in front of the user. */
  function ShownText(e: UiEvent): string
  {
    match e
    case Toast(title, _) => title
    case Modal(_, content, _) => content
    case NoEvent => ""
  }

  datatype ShowOptions = ShowOptions(title: string, duration: int, showModal: bool, confirmText: string)

  const DefaultShowOptions := ShowOptions(FallbackMessage, 3000, false, "确定")

  /** `showError(error, options)`: a modal when `showModal` is set, otherwise a toast. */
  function ShowError(error: ErrorArg, opts: ShowOptions): (e: UiEvent)
    ensures e.Modal? <==> opts.showModal
    ensures e.Toast? <==> !opts.showModal
    ensures e.Modal? ==> e.title == opts.title && e.confirmText == opts.confirmText
    ensures e.Toast? ==> e.duration == opts.duration
  {
    var message := Sanitized(RawMessage(error));
    if opts.showModal then Modal(opts.title, message, opts.confirmText)
    else Toast(message, opts.duration)
  }

  /** Whatever `showError` shows is free of the sensitive words and at most 103 characters long. */
  lemma ShownErrorIsClean(error: ErrorArg, opts: ShowOptions)
    ensures ShownText(ShowError(error, opts)) == Sanitized(RawMessage(error))
    ensures forall k :: 0 <= k < |SensitiveWords| ==> !ContainsCi(ShownText(ShowError(error, opts)), SensitiveWords[k])
    ensures |ShownText(ShowError(error, opts))| <= MaxShown + 3
  {
    SanitizedIsClean(RawMessage(error));
  }

  /** A value with no usable message is shown as `未知错误`. */
  lemma ShowErrorWithoutMessage(v: Json, opts: ShowOptions)
    requires !v.Str? && !(Truthy(v) && Truthy(Get(v, "message")))
    ensures ShownText(ShowError(Plain(v), opts)) == UnknownError
  {
    assert RawMessage(Plain(v)) == Str(UnknownError);
    NoLettersIsClean(UnknownError);
    SanitizedKeepsCleanMessage(UnknownError);
  }

  // ---------------------------------------------------------------------
  // logError: the bounded error log in storage
  // ---------------------------------------------------------------------

  const LogKey := "errorLogs"
  const MaxLogs := 100

  /** What the environment contributes to a log entry, and the stack of an `Error` created here. */
  datatype LogEnv = LogEnv(timestamp: string, url: string, userAgent: string, freshStack: string)

  /** The base fields of a log entry, before `context` is spread over them. */
  function LogBase(error: ErrorArg, env: LogEnv, userInfo: Json): (base: seq<(string, Json)>)
    ensures HasKey(base, "message") && Lookup(base, "message") == Field(error, "message")
  {
    var base := [("message", Field(error, "message")), ("stack", Field(error, "stack")),
                 ("timestamp", Str(env.timestamp)), ("url", Str(env.url)),
                 ("userAgent", Str(env.userAgent)),
                 ("userId", Or(Get(userInfo, "id"), Str("anonymous")))];
    assert base[0].0 == "message";
    LookupAt(base, 0, "message");
    base
  }

  /** The entry `logError(error, context)` records: the base fields, then `context` spread over them. */
  function LogEntry(error: ErrorArg, context: Json, env: LogEnv, userInfo: Json): (entry: Json)
    ensures entry.Obj?
    ensures Get(entry, "message") == (if HasKey(SpreadProps(context), "message") then Lookup(SpreadProps(context), "message") else Field(error, "message"))
  {
    var base := LogBase(error, env, userInfo);
    SpreadOverrides(Obj(base), context, "message");
    Spread(Obj(base), context)
  }

  /** The newest `MaxLogs` entries of `logs`. */
  function Newest(logs: seq<Json>): (r: seq<Json>)
    ensures |r| == if |logs| > MaxLogs then MaxLogs else |logs|
    ensures r == logs[|logs| - |r|..]
  {
    if |logs| > MaxLogs then logs[|logs| - MaxLogs..] else logs
  }

  /** Push then trim from the front, as `logError` does. */
  function AppendBounded(logs: seq<Json>, entry: Json): (r: seq<Json>)
  {
    Newest(logs + [entry])
  }

  /** Logging a batch of entries one at a time. */
  function AppendAll(logs: seq<Json>, entries: seq<Json>): seq<Json>
    decreases |entries|
  {
    if |entries| == 0 then logs else AppendAll(AppendBounded(logs, entries[0]), entries[1..])
  }

  lemma NewestOfNewest(x: seq<Json>, y: seq<Json>)
    ensures Newest(Newest(x) + y) == Newest(x + y)
  {
    if |x| > MaxLogs {
      var x' := x[|x| - MaxLogs..];
      var a := Newest(x' + y);
      var b := Newest(x + y);
      assert |a| == |b|;
      forall i | 0 <= i < |a|
        ensures a[i] == b[i]
      {
        assert a[i] == (x' + y)[|x' + y| - |a| + i];
        assert b[i] == (x + y)[|x + y| - |b| + i];
      }
    }
  }

  /**
   * However many entries are logged, the stored log is exactly the newest
   * hundred of everything logged so far, oldest first.
   */
  lemma {:induction false} AppendAllKeepsNewest(logs: seq<Json>, entries: seq<Json>)
    requires |logs| <= MaxLogs
    ensures AppendAll(logs, entries) == Newest(logs + entries)
    decreases |entries|
  {
    if |entries| > 0 {
      var e, rest := entries[0], entries[1..];
      var next := AppendBounded(logs, e);
      calc {
        AppendAll(logs, entries);
        AppendAll(next, rest);
        { AppendAllKeepsNewest(next, rest); }
        Newest(Newest(logs + [e]) + rest);
        { NewestOfNewest(logs + [e], rest); }
        Newest(logs + [e] + rest);
        { assert logs + [e] + rest == logs + entries; }
        Newest(logs + entries);
      }
    } else {
      assert logs + entries == logs;
    }
  }

  /** One append keeps at most a hundred entries, ends with the new one and drops only from the front. */
  lemma AppendBoundedMeaning(logs: seq<Json>, entry: Json)
    ensures |AppendBounded(logs, entry)| <= MaxLogs
    ensures AppendBounded(logs, entry)[|AppendBounded(logs, entry)| - 1] == entry
    ensures |logs| < MaxLogs ==> AppendBounded(logs, entry) == logs + [entry]
    ensures |logs| >= MaxLogs ==> AppendBounded(logs, entry) == logs[|logs| - MaxLogs + 1..] + [entry]
  {
    var all := logs + [entry];
    if |logs| >= MaxLogs {
      assert all[|all| - MaxLogs..] == logs[|logs| - MaxLogs + 1..] + [entry];
    }
  }

  /** The storage after `logError` has recorded `entry`; a stored log that is not an array makes `push` throw, which is swallowed. */
  function LoggedItems(items: map<string, Json>, entry: Json): map<string, Json>
  {
    var stored := ReadFrom(items, LogKey);
    if !Truthy(stored) then items[LogKey := Arr(AppendBounded([], entry))]
    else if stored.Arr? then items[LogKey := Arr(AppendBounded(stored.items, entry))]
    else items
  }

  /** Logging touches only the log key, and leaves there a bounded array ending with the entry. */
  lemma LoggedItemsMeaning(items: map<string, Json>, entry: Json)
    ensures forall k :: k != LogKey ==> (k in LoggedItems(items, entry) <==> k in items)
    ensures forall k :: k != LogKey && k in items ==> LoggedItems(items, entry)[k] == items[k]
    ensures !Truthy(ReadFrom(items, LogKey)) ==> ReadFrom(LoggedItems(items, entry), LogKey) == Arr([entry])
    ensures ReadFrom(items, LogKey).Arr? ==>
              var logs := ReadFrom(LoggedItems(items, entry), LogKey);
              logs.Arr? && 0 < |logs.items| <= MaxLogs && logs.items[|logs.items| - 1] == entry
    ensures Truthy(ReadFrom(items, LogKey)) && !ReadFrom(items, LogKey).Arr? ==> LoggedItems(items, entry) == items
  {
    var stored := ReadFrom(items, LogKey);
    var after := LoggedItems(items, entry);
    if !Truthy(stored) {
      assert AppendBounded([], entry) == [entry];
      assert after == items[LogKey := Arr([entry])];
    } else if stored.Arr? {
      var logs := AppendBounded(stored.items, entry);
      AppendBoundedMeaning(stored.items, entry);
      assert after == items[LogKey := Arr(logs)];
      assert ReadFrom(after, LogKey) == Arr(logs);
    } else {
      assert after == items;
    }
  }

  /**
   * `logError(error, context)`. Reading `error.message` throws (and nothing
   * is written) when `error` is `null` or `undefined`; otherwise the entry is
   * appended to the stored log. Returns whether it completed without throwing.
   */
  method LogError(store: Store, error: ErrorArg, context: Json, env: LogEnv) returns (ok: bool)
    modifies store
    ensures ok <==> !ErrNullish(error)
    ensures ok ==> store.items == LoggedItems(old(store.items), LogEntry(error, context, env, ReadFrom(old(store.items), "userInfo")))
    ensures !ok ==> store.items == old(store.items)
  {
    if ErrNullish(error) {
      return false;
    }
    var entry := LogEntry(error, context, env, ReadFrom(store.items, "userInfo"));
    SaveLogEntry(store, entry);
    return true;
  }

  /** The storage half of `logError`: push the entry, keep the newest hundred, write the log back. */
  method SaveLogEntry(store: Store, entry: Json)
    modifies store
    ensures store.items == LoggedItems(old(store.items), entry)
  {
    var stored := ReadFrom(store.items, LogKey);
    var errorLogs: seq<Json>;
    if !Truthy(stored) {
      errorLogs := [];
    } else if stored.Arr? {
      errorLogs := stored.items;
    } else {
      return;
    }
    errorLogs := errorLogs + [entry];
    if |errorLogs| > MaxLogs {
      errorLogs := errorLogs[|errorLogs| - MaxLogs..];
    }
    store.Set(LogKey, Arr(errorLogs));
  }

  // ---------------------------------------------------------------------
  // handleApiError, handleUploadError, handleValidationErrors
  // ---------------------------------------------------------------------

  const TokenExpired := "Token已过期"

  function TypeContext(kind: string, context: Json): Json
  {
    Spread(Obj([("type", Str(kind))]), context)
  }

  /** What `handleApiError` shows once the error is logged. */
  function RouteApiError(error: ErrorArg): (r: Res<UiEvent>)
    requires !ErrNullish(error)
    ensures Field(error, "message") == Str(TokenExpired) ==> r == Ok(NoEvent)
    ensures r.TypeError? <==> Field(error, "message") != Str(TokenExpired) && !(Field(error, "message").Str? || Field(error, "message").Arr?)
    ensures r.Ok? && r.value.Modal? ==> r.value.title in {"网络错误", "权限错误"}
    ensures r.Ok? && r.value != NoEvent ==> ShownText(r.value) == Sanitized(RawMessage(error))
  {
    var message := Field(error, "message");
    if message == Str(TokenExpired) then Ok(NoEvent)
    else match Includes(message, "网络")
      case TypeError => TypeError
      case Ok(network) =>
        if network then Ok(ShowError(error, DefaultShowOptions.(title := "网络错误", showModal := true)))
        else if Includes(message, "权限").value then Ok(ShowError(error, DefaultShowOptions.(title := "权限错误", showModal := true)))
        else Ok(ShowError(error, DefaultShowOptions))
  }

  /** For an `Error` instance: network problems and permission problems get a modal, everything else a toast. */
  lemma ApiErrorRouting(m: string, stack: Json)
    ensures var r := RouteApiError(ErrorInstance(m, stack));
            r.Ok? &&
            (m == TokenExpired ==> r.value == NoEvent) &&
            (m != TokenExpired && Contains(m, "网络") ==> r.value == Modal("网络错误", Sanitized(Str(m)), "确定")) &&
            (m != TokenExpired && !Contains(m, "网络") && Contains(m, "权限") ==> r.value == Modal("权限错误", Sanitized(Str(m)), "确定")) &&
            (m != TokenExpired && !Contains(m, "网络") && !Contains(m, "权限") ==> r.value == Toast(Sanitized(Str(m)), 3000))
  {
  }

  /** `handleApiError(error, context)`: log, then route; an expired token shows nothing. */
  method HandleApiError(store: Store, error: ErrorArg, context: Json, env: LogEnv) returns (r: Res<UiEvent>)
    modifies store
    ensures ErrNullish(error) ==> r == TypeError && store.items == old(store.items)
    ensures !ErrNullish(error) ==>
              r == RouteApiError(error) &&
              store.items == LoggedItems(old(store.items), LogEntry(error, TypeContext("api_error", context), env, ReadFrom(old(store.items), "userInfo")))
  {
    var logged := LogError(store, error, TypeContext("api_error", context), env);
    if !logged {
      return TypeError;
    }
    r := RouteApiError(error);
  }

  /** `handleBusinessError(error, context)`: log, then a toast titled `操作失败`. */
  method HandleBusinessError(store: Store, error: ErrorArg, context: Json, env: LogEnv) returns (r: Res<UiEvent>)
    modifies store
    ensures ErrNullish(error) ==> r == TypeError && store.items == old(store.items)
    ensures !ErrNullish(error) ==>
              r == Ok(Toast(Sanitized(RawMessage(error)), 3000)) &&
              store.items == LoggedItems(old(store.items), LogEntry(error, TypeContext("business_error", context), env, ReadFrom(old(store.items), "userInfo")))
  {
    var logged := LogError(store, error, TypeContext("business_error", context), env);
    if !logged {
      return TypeError;
    }
    r := Ok(ShowError(error, DefaultShowOptions.(title := FallbackMessage)));
  }

  const UploadFailed := "文件上传失败"
  const SizeHint := "文件大小超过限制，请选择小于50MB的PDF文件"
  const FormatHint := "只支持PDF格式文件，请重新选择"
  const NetworkHint := "网络连接失败，请检查网络后重试"
  const UploadShowOptions := DefaultShowOptions.(title := "上传失败", duration := 4000)

  /** The message `handleUploadError` shows, before sanitising. */
  function UploadMessage(error: ErrorArg): (r: Res<Json>)
    requires !ErrNullish(error)
  {
    var message := Or(Field(error, "message"), Str(UploadFailed));
    match Includes(message, "大小")
    case TypeError => TypeError
    case Ok(size) =>
      if size then Ok(Str(SizeHint))
      else if Includes(message, "格式").value then Ok(Str(FormatHint))
      else if Includes(message, "网络").value then Ok(Str(NetworkHint))
      else Ok(message)
  }

  /** A text without the first character of `p` does not contain `p`. */
  lemma {:induction false} FirstCharAbsent(s: string, p: string)
    requires |p| > 0 && p[0] !in s
    ensures !Contains(s, p)
    decreases |s|
  {
    if |s| > 0 {
      assert s[0] != p[0];
      FirstCharAbsent(s[1..], p);
    }
  }

  /** For an `Error` instance: size, then format, then network problems get a fixed hint; no message gets `文件上传失败`. */
  lemma UploadMessageMeaning(m: string, stack: Json)
    ensures var r := UploadMessage(ErrorInstance(m, stack));
            r.Ok? &&
            (m == "" ==> r.value == Str(UploadFailed)) &&
            (Contains(m, "大小") ==> r.value == Str(SizeHint)) &&
            (!Contains(m, "大小") && Contains(m, "格式") ==> r.value == Str(FormatHint)) &&
            (!Contains(m, "大小") && !Contains(m, "格式") && Contains(m, "网络") ==> r.value == Str(NetworkHint)) &&
            (m != "" && !Contains(m, "大小") && !Contains(m, "格式") && !Contains(m, "网络") ==> r.value == Str(m))
  {
    if m == "" {
      FirstCharAbsent(UploadFailed, "大小");
      FirstCharAbsent(UploadFailed, "格式");
      FirstCharAbsent(UploadFailed, "网络");
    }
  }

  /** The context `handleUploadError` logs; reading `name` of `null` throws before anything is logged. */
  function UploadContext(fileInfo: Json): Json
  {
    Obj([("type", Str("upload_error")), ("fileName", Get(fileInfo, "name")), ("fileSize", Get(fileInfo, "size"))])
  }

  /** What `handleUploadError` shows once the error is logged: a four-second toast titled `上传失败`. */
  function UploadEvent(error: ErrorArg): (r: Res<UiEvent>)
    requires !ErrNullish(error)
    ensures r.Ok? <==> UploadMessage(error).Ok?
    ensures r.Ok? ==> r.value == Toast(Sanitized(RawMessage(Plain(UploadMessage(error).value))), 4000)
  {
    match UploadMessage(error)
    case TypeError => TypeError
    case Ok(message) => Ok(ShowError(Plain(message), UploadShowOptions))
  }

  /** `handleUploadError(error, fileInfo)`: log with the file's name and size, then show. */
  method HandleUploadError(store: Store, error: ErrorArg, fileInfo: Json, env: LogEnv) returns (r: Res<UiEvent>)
    modifies store
    ensures fileInfo == Null || ErrNullish(error) ==> r == TypeError && store.items == old(store.items)
    ensures fileInfo != Null && !ErrNullish(error) ==>
              r == UploadEvent(error) &&
              store.items == LoggedItems(old(store.items), LogEntry(error, UploadContext(fileInfo), env, ReadFrom(old(store.items), "userInfo")))
  {
    if fileInfo == Null {
      return TypeError;
    }
    var logged := LogError(store, error, UploadContext(fileInfo), env);
    if !logged {
      return TypeError;
    }
    r := UploadEvent(error);
  }

  /** The first truthy value, as `Object.values(errors).filter(msg => msg)[0]`. */
  function FirstTruthy(values: seq<Json>): (r: Option<Json>)
    ensures r.None? <==> forall i :: 0 <= i < |values| ==> !Truthy(values[i])
    ensures r.Some? ==> exists i :: 0 <= i < |values| && values[i] == r.value && Truthy(r.value) &&
                                    forall j :: 0 <= j < i ==> !Truthy(values[j])
  {
    if |values| == 0 then None
    else if Truthy(values[0]) then Some(values[0])
    else
      var rest := FirstTruthy(values[1..]);
      if rest.Some? then
        var i :| 0 <= i < |values[1..]| && values[1..][i] == rest.value && Truthy(rest.value) &&
                 forall j :: 0 <= j < i ==> !Truthy(values[1..][j]);
        assert values[i + 1] == rest.value;
        rest
      else rest
  }

  /** `Object.values(errors)` for an object or an array. */
  function OwnValues(errors: Json): seq<Json>
  {
    match errors
    case Obj(props) => seq(|props|, i requires 0 <= i < |props| => props[i].1)
    case Arr(items) => items
    case _ => []
  }

  const ValidationFailed := "表单验证失败"

  /**
   * `handleValidationErrors(errors, firstErrorField)`: nothing for a value
   * that is not an object or holds no truthy message; otherwise log and show
   * the first message under the title `输入错误`.
   */
  method HandleValidationErrors(store: Store, errors: Json, firstErrorField: Json, env: LogEnv) returns (e: UiEvent)
    modifies store
    ensures !(errors.Obj? || errors.Arr?) || FirstTruthy(OwnValues(errors)).None? ==>
              e == NoEvent && store.items == old(store.items)
    ensures (errors.Obj? || errors.Arr?) && FirstTruthy(OwnValues(errors)).Some? ==>
              e == ShowError(Plain(FirstTruthy(OwnValues(errors)).value), DefaultShowOptions.(title := "输入错误")) &&
              store.items == LoggedItems(old(store.items),
                LogEntry(ErrorInstance(ValidationFailed, Str(env.freshStack)),
                         Obj([("type", Str("validation_error")), ("errors", errors), ("firstErrorField", firstErrorField)]),
                         env, ReadFrom(old(store.items), "userInfo")))
  {
    if !Truthy(errors) || !(errors.Obj? || errors.Arr?) {
      return NoEvent;
    }
    var first := FirstTruthy(OwnValues(errors));
    if first.None? {
      return NoEvent;
    }
    var context := Obj([("type", Str("validation_error")), ("errors", errors), ("firstErrorField", firstErrorField)]);
    var _ := LogError(store, ErrorInstance(ValidationFailed, Str(env.freshStack)), context, env);
    e := ShowError(Plain(first.value), DefaultShowOptions.(title := "输入错误"));
  }

  /** The first truthy value is found wherever it sits. */
  lemma {:induction false} FirstTruthyAt(values: seq<Json>, i: nat)
    requires i < |values| && Truthy(values[i])
    requires forall j :: 0 <= j < i ==> !Truthy(values[j])
    ensures FirstTruthy(values) == Some(values[i])
  {
    if i > 0 {
      FirstTruthyAt(values[1..], i - 1);
    }
  }

  /** A form error object whose first truthy message is a string shows that message, sanitised. */
  lemma ValidationShowsFirstString(values: seq<(string, Json)>, i: nat, msg: string)
    requires i < |values| && values[i].1 == Str(msg) && msg != ""
    requires forall j :: 0 <= j < i ==> !Truthy(values[j].1)
    ensures FirstTruthy(OwnValues(Obj(values))) == Some(Str(msg))
    ensures ShownText(ShowError(Plain(Str(msg)), DefaultShowOptions.(title := "输入错误"))) == Sanitized(Str(msg))
  {
    var vs := OwnValues(Obj(values));
    assert forall j :: 0 <= j < i ==> vs[j] == values[j].1;
    FirstTruthyAt(vs, i);
  }

  // ---------------------------------------------------------------------
  // isExtensionError
  // ---------------------------------------------------------------------

  const ErrorKeywords: seq<string> :=
    ["Pro feature", "content_script", "extension", "chrome-extension", "moz-extension", "safari-extension"]
  const MessageKeywords: seq<string> := ["Pro feature", "becoming a Pro member", "content_script", "extension"]
  const ExtensionPaths: seq<string> :=
    ["content_script", "extension", "chrome-extension://", "moz-extension://", "safari-extension://"]

  /** `keys.some(k => s.includes(k))`. */
  predicate AnyContains(s: string, keys: seq<string>)
  {
    exists i :: 0 <= i < |keys| && Contains(s, keys[i])
  }

  /** `keys.some(k => v.includes(k))`, which throws unless `v` is a string or an array. */
  function AnyIncludes(v: Json, keys: seq<string>): (r: Res<bool>)
    requires |keys| > 0
    ensures r.TypeError? <==> !(v.Str? || v.Arr?)
    ensures v.Str? ==> r == Ok(AnyContains(v.s, keys))
  {
    match v
    case Str(s) => Ok(AnyContains(s, keys))
    case Arr(items) => Ok(exists i :: 0 <= i < |keys| && Str(keys[i]) in items)
    case _ => TypeError
  }

  /**
   * `isExtensionError(error, source)`: a string error is matched against the
   * first keyword list, a truthy `message` and `stack` against their lists,
   * then a non-empty `source` path.
   */
  function IsExtensionError(error: ErrorArg, source: string): Res<bool>
  {
    if error.Plain? && error.value.Str? && error.value.s != "" && AnyContains(error.value.s, ErrorKeywords) then Ok(true)
    else
      var message := Field(error, "message");
      var byMessage := if ErrTruthy(error) && Truthy(message) then AnyIncludes(message, MessageKeywords) else Ok(false);
      if byMessage.TypeError? then TypeError
      else if byMessage.value then Ok(true)
      else
        var stack := Field(error, "stack");
        var byStack := if ErrTruthy(error) && Truthy(stack) then AnyIncludes(stack, ExtensionPaths) else Ok(false);
        if byStack.TypeError? then TypeError
        else if byStack.value then Ok(true)
        else Ok(source != "" && AnyContains(source, ExtensionPaths))
  }

  lemma {:induction false} ContainsAt(s: string, k: nat, p: string)
    requires k <= |s| && StartsWith(s[k..], p)
    ensures Contains(s, p)
    decreases k
  {
    if k > 0 {
      assert s[1..][k - 1..] == s[k..];
      ContainsAt(s[1..], k - 1, p);
    }
  }

  lemma ContainsEmptyString(p: string)
    requires p != ""
    ensures !Contains("", p)
  {
  }

  /** The browser-prefixed keywords add nothing: each contains `extension`. */
  lemma ErrorKeywordsReduce(s: string)
    ensures AnyContains(s, ErrorKeywords) <==>
              Contains(s, "Pro feature") || Contains(s, "content_script") || Contains(s, "extension")
  {
    if AnyContains(s, ErrorKeywords) {
      var i :| 0 <= i < |ErrorKeywords| && Contains(s, ErrorKeywords[i]);
      if i >= 3 {
        var k := if i == 3 then 7 else if i == 4 then 4 else 7;
        assert StartsWith(ErrorKeywords[i][k..], "extension");
        ContainsAt(ErrorKeywords[i], k, "extension");
        ContainsTransitive(s, ErrorKeywords[i], "extension");
      }
    }
    if Contains(s, "extension") {
      assert Contains(s, ErrorKeywords[2]);
    }
    if Contains(s, "content_script") {
      assert Contains(s, ErrorKeywords[1]);
    }
    if Contains(s, "Pro feature") {
      assert Contains(s, ErrorKeywords[0]);
    }
  }

  /** Likewise the `://` paths: each contains `extension`. */
  lemma ExtensionPathsReduce(s: string)
    ensures AnyContains(s, ExtensionPaths) <==> Contains(s, "content_script") || Contains(s, "extension")
  {
    if AnyContains(s, ExtensionPaths) {
      var i :| 0 <= i < |ExtensionPaths| && Contains(s, ExtensionPaths[i]);
      if i >= 2 {
        var k := if i == 2 then 7 else if i == 3 then 4 else 7;
        assert StartsWith(ExtensionPaths[i][k..], "extension");
        ContainsAt(ExtensionPaths[i], k, "extension");
        ContainsTransitive(s, ExtensionPaths[i], "extension");
      }
    }
    if Contains(s, "extension") {
      assert Contains(s, ExtensionPaths[1]);
    }
    if Contains(s, "content_script") {
      assert Contains(s, ExtensionPaths[0]);
    }
  }

  /** A string error is an extension error exactly when it or the source path names a content script, an extension or a Pro feature. */
  lemma ExtensionErrorOfString(s: string, source: string)
    ensures IsExtensionError(Plain(Str(s)), source) ==
              Ok(Contains(s, "Pro feature") || Contains(s, "content_script") || Contains(s, "extension") ||
                 Contains(source, "content_script") || Contains(source, "extension"))
  {
    ErrorKeywordsReduce(s);
    ExtensionPathsReduce(source);
    if s == "" {
      ContainsEmptyString("Pro feature");
      ContainsEmptyString("content_script");
      ContainsEmptyString("extension");
    }
    if source == "" {
      ContainsEmptyString("content_script");
      ContainsEmptyString("extension");
    }
  }

  /** An `Error` with a string stack is an extension error exactly when its message, its stack or the source path says so. */
  lemma ExtensionErrorOfInstance(m: string, stack: string, source: string)
    ensures IsExtensionError(ErrorInstance(m, Str(stack)), source) ==
              Ok(AnyContains(m, MessageKeywords) ||
                 Contains(stack, "content_script") || Contains(stack, "extension") ||
                 Contains(source, "content_script") || Contains(source, "extension"))
  {
    ExtensionPathsReduce(stack);
    ExtensionPathsReduce(source);
    if m == "" {
      forall i | 0 <= i < |MessageKeywords|
        ensures !Contains(m, MessageKeywords[i])
      {
        ContainsEmptyString(MessageKeywords[i]);
      }
    }
    if stack == "" {
      ContainsEmptyString("content_script");
      ContainsEmptyString("extension");
    }
    if source == "" {
      ContainsEmptyString("content_script");
      ContainsEmptyString("extension");
    }
  }

  // ---------------------------------------------------------------------
  // withRetry
  // ---------------------------------------------------------------------

  /** What one call of the wrapped function does. */
  datatype Attempt = Succeeded(value: Json) | Failed(error: ErrorArg)

  /**
   * How `withRetry` ends: with a value, by rethrowing the last error, by
   * throwing `null` (no attempt at all), or with the TypeError raised by
   * reading `.message` of a thrown `null` or `undefined`.
   */
  datatype RetryOutcome = Returned(value: Json) | Raised(error: ErrorArg) | RaisedNull | EngineTypeError

  /** The outcome and the number of calls made, from attempt `i` on. */
  function RetryFrom(attempts: nat -> Attempt, i: nat, maxRetries: int): (RetryOutcome, nat)
    requires i <= maxRetries
    decreases maxRetries - i
  {
    match attempts(i)
    case Succeeded(v) => (Returned(v), i + 1)
    case Failed(e) =>
      if ErrNullish(e) then (EngineTypeError, i + 1)
      else if i == maxRetries then (Raised(e), i + 1)
      else RetryFrom(attempts, i + 1, maxRetries)
  }

  /** One call of the wrapped function: it ends the run, or the run goes on from the next attempt. */
  lemma RetryFromStep(attempts: nat -> Attempt, i: nat, maxRetries: int)
    requires i <= maxRetries
    ensures attempts(i).Succeeded? ==> RetryFrom(attempts, i, maxRetries) == (Returned(attempts(i).value), i + 1)
    ensures attempts(i).Failed? && ErrNullish(attempts(i).error) ==> RetryFrom(attempts, i, maxRetries) == (EngineTypeError, i + 1)
    ensures attempts(i).Failed? && !ErrNullish(attempts(i).error) && i == maxRetries ==>
              RetryFrom(attempts, i, maxRetries) == (Raised(attempts(i).error), i + 1)
    ensures attempts(i).Failed? && !ErrNullish(attempts(i).error) && i < maxRetries ==>
              RetryFrom(attempts, i, maxRetries) == RetryFrom(attempts, i + 1, maxRetries)
  {
  }

  /** `withRetry(fn, maxRetries)`: what it ends with and how many times it called `fn`. */
  function Retry(attempts: nat -> Attempt, maxRetries: int): (RetryOutcome, nat)
  {
    if maxRetries < 0 then (RaisedNull, 0) else RetryFrom(attempts, 0, maxRetries)
  }

  lemma {:induction false} RetryFromMeaning(attempts: nat -> Attempt, i: nat, maxRetries: int)
    requires i <= maxRetries
    requires forall k :: 0 <= k < i ==> attempts(k).Failed? && !ErrNullish(attempts(k).error)
    ensures var (r, n) := RetryFrom(attempts, i, maxRetries);
            i + 1 <= n <= maxRetries + 1 &&
            (forall k :: 0 <= k < n - 1 ==> attempts(k).Failed? && !ErrNullish(attempts(k).error)) &&
            !r.RaisedNull? &&
            (r.Returned? ==> attempts(n - 1) == Succeeded(r.value)) &&
            (r.EngineTypeError? ==> attempts(n - 1).Failed? && ErrNullish(attempts(n - 1).error)) &&
            (r.Raised? ==> n == maxRetries + 1 && attempts(n - 1) == Failed(r.error) && !ErrNullish(r.error))
    decreases maxRetries - i
  {
    if attempts(i).Failed? && !ErrNullish(attempts(i).error) && i < maxRetries {
      RetryFromMeaning(attempts, i + 1, maxRetries);
    }
  }

  /**
   * `withRetry` calls `fn` at most `maxRetries + 1` times and stops at the
   * first success; it rethrows only after every one of the `maxRetries + 1`
   * calls failed, and then the error of the last one. With a negative
   * `maxRetries` it never calls `fn` and throws `null`.
   */
  lemma RetryMeaning(attempts: nat -> Attempt, maxRetries: int)
    ensures maxRetries < 0 ==> Retry(attempts, maxRetries) == (RaisedNull, 0)
    ensures maxRetries >= 0 ==>
              var (r, n) := Retry(attempts, maxRetries);
              1 <= n <= maxRetries + 1 &&
              (forall k :: 0 <= k < n - 1 ==> attempts(k).Failed? && !ErrNullish(attempts(k).error)) &&
              !r.RaisedNull? &&
              (r.Returned? ==> attempts(n - 1) == Succeeded(r.value)) &&
              (r.EngineTypeError? ==> attempts(n - 1).Failed? && ErrNullish(attempts(n - 1).error)) &&
              (r.Raised? ==> n == maxRetries + 1 && attempts(n - 1) == Failed(r.error))
  {
    if maxRetries >= 0 {
      RetryFromMeaning(attempts, 0, maxRetries);
    }
  }

  /** The pauses of a run that failed `n` times before its last call: `delay * (k + 1)` after the `k`-th failure. */
  function Pauses(delay: int, n: nat): (r: seq<int>)
    ensures |r| == n
    ensures forall k :: 0 <= k < n ==> r[k] == delay * (k + 1)
  {
    if n == 0 then [] else Pauses(delay, n - 1) + [delay * n]
  }

  /** The context `withRetry` logs when it gives up. */
  function RetryContext(attempts: nat, maxRetries: int): Json
  {
    Obj([("type", Str("retry_exhausted")), ("attempts", Num(attempts)), ("maxRetries", Num(maxRetries))])
  }

  /** The last failure of `withRetry`: the error is logged with the retry context and rethrown. */
  method GiveUp(store: Store, error: ErrorArg, calls: nat, maxRetries: int, env: LogEnv) returns (r: RetryOutcome)
    requires !ErrNullish(error)
    modifies store
    ensures r == Raised(error)
    ensures store.items == LoggedItems(old(store.items),
              LogEntry(error, RetryContext(calls, maxRetries), env, ReadFrom(old(store.items), "userInfo")))
  {
    var _ := LogError(store, error, RetryContext(calls, maxRetries), env);
    r := Raised(error);
  }

  /**
   * `withRetry(fn, maxRetries, delay)`. `attempts(i)` is what the `i`-th call
   * of `fn` does; `waits` lists the pauses between calls, `delay * (i + 1)`
   * after the `i`-th failure. The log is written only when it gives up.
   */
  method WithRetry(store: Store, attempts: nat -> Attempt, maxRetries: int, delay: int, env: LogEnv)
    returns (r: RetryOutcome, calls: nat, waits: seq<int>)
    modifies store
    ensures (r, calls) == Retry(attempts, maxRetries)
    ensures waits == Pauses(delay, if calls == 0 then 0 else calls - 1)
    ensures !r.Raised? ==> store.items == old(store.items)
    ensures r.Raised? ==>
              store.items == LoggedItems(old(store.items),
                LogEntry(r.error, RetryContext(calls, maxRetries), env, ReadFrom(old(store.items), "userInfo")))
  {
    if maxRetries < 0 {
      return RaisedNull, 0, [];
    }
    var i;
    i, waits := RetryFailures(attempts, maxRetries, delay);
    RetryFromStep(attempts, i, maxRetries);
    match attempts(i) {
      case Succeeded(v) =>
        return Returned(v), i + 1, waits;
      case Failed(error) =>
        if ErrNullish(error) {
          return EngineTypeError, i + 1, waits;
        }
        r := GiveUp(store, error, i + 1, maxRetries, env);
        return r, i + 1, waits;
    }
  }

  /**
   * The calls of `withRetry` that fail with a real error and are retried:
   * it stops at the first call that succeeds, that throws `null` or
   * `undefined`, or that is the last one allowed.
   */
  method RetryFailures(attempts: nat -> Attempt, maxRetries: int, delay: int) returns (i: nat, waits: seq<int>)
    requires maxRetries >= 0
    ensures i <= maxRetries && Retry(attempts, maxRetries) == RetryFrom(attempts, i, maxRetries)
    ensures i == maxRetries || attempts(i).Succeeded? || ErrNullish(attempts(i).error)
    ensures waits == Pauses(delay, i)
  {
    waits := [];
    i := 0;
    while i < maxRetries && attempts(i).Failed? && !ErrNullish(attempts(i).error)
      invariant i <= maxRetries && Retry(attempts, maxRetries) == RetryFrom(attempts, i, maxRetries)
      invariant waits == Pauses(delay, i)
      decreases maxRetries - i
    {
      RetryFromStep(attempts, i, maxRetries);
      waits := waits + [delay * (i + 1)];
      i := i + 1;
    }
  }
}
