/**
 * The JavaScript values the client exchanges with the backend and keeps in
 * local storage, with the few language rules the source leans on: truthiness,
 * the `||` fallback, `===` on numbers and booleans, property access, object
 * spread and `String(x)` in template literals.
 *
 * Numbers are integers (the source only compares status codes, counts and
 * sizes); strings are sequences of Unicode scalar values, one `char` each.
 */
module Js {
  import opened Wrappers

  datatype Json =
    | Undefined
    | Null
    | Bool(b: bool)
    | Num(n: int)
    | Str(s: string)
    | Arr(items: seq<Json>)
    | Obj(props: seq<(string, Json)>)

  /** The outcome of an expression that may raise a TypeError (property access on null, a missing method). */
  datatype Res<+T> = Ok(value: T) | TypeError

  /** JavaScript truthiness: `undefined`, `null`, `false`, `0` and `""` are falsy. */
  predicate Truthy(v: Json)
  {
    match v
    case Undefined => false
    case Null => false
    case Bool(b) => b
    case Num(n) => n != 0
    case Str(s) => s != ""
    case Arr(_) => true
    case Obj(_) => true
  }

  /** `a || b`: the left operand when it is truthy, the right one otherwise. */
  function Or(a: Json, b: Json): (r: Json)
    ensures Truthy(a) ==> r == a
    ensures !Truthy(a) ==> r == b
  {
    if Truthy(a) then a else b
  }

  /** The value of the last property named `key`, as JSON.parse and object literals keep it. */
  function Lookup(props: seq<(string, Json)>, key: string): (r: Json)
    ensures (forall i :: 0 <= i < |props| ==> props[i].0 != key) ==> r == Undefined
    ensures r != Undefined ==> exists i :: 0 <= i < |props| && props[i] == (key, r)
  {
    if |props| == 0 then Undefined
    else if props[|props| - 1].0 == key then props[|props| - 1].1
    else Lookup(props[..|props| - 1], key)
  }

  predicate HasKey(props: seq<(string, Json)>, key: string)
  {
    exists i :: 0 <= i < |props| && props[i].0 == key
  }

  /**
   * `v.key` (and `v?.key`) for the property names the client reads. None of
   * them is a built-in property of strings or arrays, so on anything but an
   * object the result is `undefined`. Callers that may reach `null` or
   * `undefined` without `?.` say so explicitly.
   */
  function Get(v: Json, key: string): Json
  {
    if v.Obj? then Lookup(v.props, key) else Undefined
  }

  /** `v.key` where `v` is `null` or `undefined` raises a TypeError. */
  predicate Nullish(v: Json)
  {
    v == Undefined || v == Null
  }

  /** `o[key] = v` on an object's property list: overwrite in place, or append a new property. */
  function Put(props: seq<(string, Json)>, key: string, v: Json): (r: seq<(string, Json)>)
    ensures Lookup(r, key) == v
    ensures forall k :: k != key ==> Lookup(r, k) == Lookup(props, k)
    ensures forall k :: HasKey(r, k) <==> HasKey(props, k) || k == key
  {
    if HasKey(props, key) then Overwrite(props, key, v)
    else
      var r := props + [(key, v)];
      assert forall k :: HasKey(r, k) <==> HasKey(props, k) || k == key by {
        forall k ensures HasKey(r, k) <==> HasKey(props, k) || k == key {
          if HasKey(props, k) {
            var i :| 0 <= i < |props| && props[i].0 == k;
            assert r[i] == props[i];
          }
          if HasKey(r, k) && k != key {
            var i :| 0 <= i < |r| && r[i].0 == k;
            assert r[i] == props[i];
          }
          if k == key {
            assert r[|props|].0 == key;
          }
        }
      }
      r
  }

  function Overwrite(props: seq<(string, Json)>, key: string, v: Json): (r: seq<(string, Json)>)
    requires HasKey(props, key)
    ensures |r| == |props|
    ensures forall i :: 0 <= i < |r| ==> r[i].0 == props[i].0
    ensures forall i :: 0 <= i < |r| && props[i].0 == key ==> r[i].1 == v
    ensures forall i :: 0 <= i < |r| && props[i].0 != key ==> r[i] == props[i]
    ensures Lookup(r, key) == v
    ensures forall k :: k != key ==> Lookup(r, k) == Lookup(props, k)
  {
    var r := seq(|props|, i requires 0 <= i < |props| => if props[i].0 == key then (key, v) else props[i]);
    LookupOverwrite(props, r, key, v);
    r
  }

  lemma {:induction false} LookupOverwrite(props: seq<(string, Json)>, r: seq<(string, Json)>, key: string, v: Json)
    requires |r| == |props|
    requires forall i :: 0 <= i < |r| ==> r[i].0 == props[i].0
    requires forall i :: 0 <= i < |r| && props[i].0 == key ==> r[i].1 == v
    requires forall i :: 0 <= i < |r| && props[i].0 != key ==> r[i] == props[i]
    ensures HasKey(props, key) ==> Lookup(r, key) == v
    ensures forall k :: k != key ==> Lookup(r, k) == Lookup(props, k)
  {
    if |props| > 0 {
      var n := |props| - 1;
      LookupOverwrite(props[..n], r[..n], key, v);
      if props[n].0 != key && HasKey(props, key) {
        var i :| 0 <= i < |props| && props[i].0 == key;
        assert HasKey(props[..n], key) by { assert props[..n][i].0 == key; }
      }
    }
  }

  /** The own enumerable properties `{...v}` copies: an object's, or the indices of a string or an array. */
  function SpreadProps(v: Json): seq<(string, Json)>
  {
    match v
    case Obj(props) => props
    case Str(s) => seq(|s|, i requires 0 <= i < |s| => (IntToString(i), Str([s[i]])))
    case Arr(items) => seq(|items|, i requires 0 <= i < |items| => (IntToString(i), items[i]))
    case _ => []
  }

  /** Puts every property of `extra`, in order, into `base`. */
  function PutAll(base: seq<(string, Json)>, extra: seq<(string, Json)>): (r: seq<(string, Json)>)
    decreases |extra|
  {
    if |extra| == 0 then base
    else PutAll(Put(base, extra[0].0, extra[0].1), extra[1..])
  }

  /** `{...a, ...b}`. */
  function Spread(a: Json, b: Json): Json
  {
    Obj(PutAll(PutAll([], SpreadProps(a)), SpreadProps(b)))
  }

  /** After `PutAll(base, extra)`, a key `extra` names reads as in `extra`, any other key as in `base`. */
  lemma {:induction false} LookupPutAll(base: seq<(string, Json)>, extra: seq<(string, Json)>, key: string)
    ensures Lookup(PutAll(base, extra), key) == if HasKey(extra, key) then Lookup(extra, key) else Lookup(base, key)
    decreases |extra|
  {
    if |extra| > 0 {
      var b' := Put(base, extra[0].0, extra[0].1);
      LookupPutAll(b', extra[1..], key);
      var rest := extra[1..];
      if HasKey(rest, key) {
        var i :| 0 <= i < |rest| && rest[i].0 == key;
        assert extra[i + 1] == rest[i];
        LookupSuffix(extra, key);
      } else if extra[0].0 == key {
        LookupFirstOnly(extra, key);
      } else {
        assert !HasKey(extra, key) by {
          forall i | 0 <= i < |extra| ensures extra[i].0 != key {
            if i > 0 { assert extra[i] == rest[i - 1]; }
          }
        }
      }
    }
  }

  /** When the tail names `key`, the last such property lies in the tail. */
  lemma {:induction false} LookupSuffix(props: seq<(string, Json)>, key: string)
    requires |props| > 0 && HasKey(props[1..], key)
    ensures Lookup(props, key) == Lookup(props[1..], key)
    decreases |props|
  {
    var n := |props| - 1;
    if props[n].0 != key {
      var rest := props[1..];
      var i :| 0 <= i < |rest| && rest[i].0 == key;
      assert rest[n - 1] == props[n];
      assert i < n - 1;
      assert props[..n][1..] == rest[..n - 1];
      assert HasKey(props[..n][1..], key) by { assert props[..n][1..][i].0 == key; }
      LookupSuffix(props[..n], key);
    }
  }

  /** When only the first property is named `key`, its value is the one read. */
  lemma {:induction false} LookupFirstOnly(props: seq<(string, Json)>, key: string)
    requires |props| > 0 && props[0].0 == key && !HasKey(props[1..], key)
    ensures Lookup(props, key) == props[0].1
    decreases |props|
  {
    var n := |props| - 1;
    if n > 0 {
      assert props[n].0 != key by { assert props[1..][n - 1] == props[n]; }
      assert !HasKey(props[..n][1..], key) by {
        forall i | 0 <= i < |props[..n][1..]| ensures props[..n][1..][i].0 != key {
          assert props[..n][1..][i] == props[1..][i];
        }
      }
      LookupFirstOnly(props[..n], key);
    }
  }

  /** The property read is the last one named `key`. */
  lemma {:induction false} LookupAt(props: seq<(string, Json)>, i: int, key: string)
    requires 0 <= i < |props| && props[i].0 == key
    requires forall j :: i < j < |props| ==> props[j].0 != key
    ensures Lookup(props, key) == props[i].1
    decreases |props|
  {
    var n := |props| - 1;
    if i < n {
      assert props[n].0 != key;
      LookupAt(props[..n], i, key);
    }
  }

  /** `{...a, ...b}` reads every key from `b` when `b` has it, from `a` otherwise. */
  lemma SpreadOverrides(a: Json, b: Json, key: string)
    ensures Get(Spread(a, b), key) ==
      if HasKey(SpreadProps(b), key) then Lookup(SpreadProps(b), key)
      else if HasKey(SpreadProps(a), key) then Lookup(SpreadProps(a), key)
      else Undefined
  {
    LookupPutAll(PutAll([], SpreadProps(a)), SpreadProps(b), key);
    LookupPutAll([], SpreadProps(a), key);
  }

  // ---------------------------------------------------------------------
  // String(v), as template literals and `new Error(v)` apply it
  // ---------------------------------------------------------------------

  function DigitChar(d: int): char
    requires 0 <= d < 10
  {
    "0123456789"[d]
  }

  function NatToString(n: nat): (r: string)
    ensures |r| > 0
    decreases n
  {
    if n < 10 then [DigitChar(n)] else NatToString(n / 10) + [DigitChar(n % 10)]
  }

  /** The decimal form of an integer, with a leading `-` when negative. */
  function IntToString(n: int): (r: string)
    ensures |r| > 0
  {
    if n < 0 then "-" + NatToString(-n) else NatToString(n)
  }

  /**
   * `String(v)`. An array joins its elements with `,`, writing nothing for
   * `null` and `undefined`; a plain object is `[object Object]`.
   */
  function Display(v: Json): string
    decreases v, 1
  {
    match v
    case Undefined => "undefined"
    case Null => "null"
    case Bool(b) => if b then "true" else "false"
    case Num(n) => IntToString(n)
    case Str(s) => s
    case Arr(items) => JoinDisplay(v, items, ",")
    case Obj(_) => "[object Object]"
  }

  /** `items.join(sep)` for the elements of `whole`. */
  function JoinDisplay(whole: Json, items: seq<Json>, sep: string): string
    requires forall x :: x in items ==> x < whole
    decreases whole, 0, |items|
  {
    if |items| == 0 then ""
    else
      assert items[0] in items;
      var head := if Nullish(items[0]) then "" else Display(items[0]);
      assert forall x :: x in items[1..] ==> x in items;
      if |items| == 1 then head else head + sep + JoinDisplay(whole, items[1..], sep)
  }

  // ---------------------------------------------------------------------
  // String helpers
  // ---------------------------------------------------------------------

  predicate StartsWith(s: string, p: string)
  {
    |p| <= |s| && s[..|p|] == p
  }

  predicate EndsWith(s: string, p: string)
  {
    |p| <= |s| && s[|s| - |p|..] == p
  }

  /** `s.includes(p)`. */
  predicate Contains(s: string, p: string)
    decreases |s|
  {
    StartsWith(s, p) || (|s| > 0 && Contains(s[1..], p))
  }

  /** `parts.join(sep)`. */
  function Join(parts: seq<string>, sep: string): string
  {
    if |parts| == 0 then ""
    else if |parts| == 1 then parts[0]
    else parts[0] + sep + Join(parts[1..], sep)
  }

  /** The number of occurrences of `c` in `s`; `s.split(c)` has one more part than this. */
  function CountChar(s: string, c: char): nat
  {
    if |s| == 0 then 0 else (if s[0] == c then 1 else 0) + CountChar(s[1..], c)
  }

  /** `s.split(c)[0]`: everything before the first `c`. */
  function BeforeFirst(s: string, c: char): (r: string)
    ensures c !in r
    ensures StartsWith(s, r)
    ensures |r| < |s| ==> s[|r|] == c
  {
    if |s| == 0 then "" else if s[0] == c then "" else [s[0]] + BeforeFirst(s[1..], c)
  }

  function ToLowerAscii(c: char): char
  {
    if 'A' <= c <= 'Z' then (c as int + 32) as char else c
  }

  /** `s.toLowerCase()` restricted to ASCII letters. */
  function LowerAscii(s: string): (r: string)
    ensures |r| == |s| && forall i :: 0 <= i < |s| ==> r[i] == ToLowerAscii(s[i])
  {
    seq(|s|, i requires 0 <= i < |s| => ToLowerAscii(s[i]))
  }

  /** `String(x)` as `Array.prototype.join` writes an element: nothing for `null` and `undefined`. */
  function JoinElement(x: Json): string
  {
    if Nullish(x) then "" else Display(x)
  }

  /** `values.join(sep)` for any list of values. */
  function JoinValues(values: seq<Json>, sep: string): string
  {
    Join(seq(|values|, i requires 0 <= i < |values| => JoinElement(values[i])), sep)
  }

  /** Joining one more part appends the separator and that part. */
  lemma {:induction false} JoinSnoc(parts: seq<string>, p: string, sep: string)
    requires |parts| > 0
    ensures Join(parts + [p], sep) == Join(parts, sep) + sep + p
    decreases |parts|
  {
    if |parts| == 1 {
      assert (parts + [p])[1..] == [p];
    } else {
      assert (parts + [p])[1..] == parts[1..] + [p];
      JoinSnoc(parts[1..], p, sep);
    }
  }

  /** `values.join(sep)` of one more value: the separator, then that value as `join` writes it. */
  lemma JoinValuesSnoc(values: seq<Json>, x: Json, sep: string)
    requires |values| > 0
    ensures JoinValues(values + [x], sep) == JoinValues(values, sep) + sep + JoinElement(x)
  {
    var parts := seq(|values|, i requires 0 <= i < |values| => JoinElement(values[i]));
    assert seq(|values + [x]|, i requires 0 <= i < |values + [x]| => JoinElement((values + [x])[i])) == parts + [JoinElement(x)];
    JoinSnoc(parts, JoinElement(x), sep);
  }

  /** `[x, y].join(sep)`. */
  lemma JoinValuesPair(x: Json, y: Json, sep: string)
    ensures JoinValues([x, y], sep) == JoinElement(x) + sep + JoinElement(y)
  {
    assert seq(1, i requires 0 <= i < 1 => JoinElement([x][i])) == [JoinElement(x)];
    assert [x, y] == [x] + [y];
    JoinValuesSnoc([x], y, sep);
  }

  /** `v.length`: the element count of an array, the character count of a string, an object's own `length` field. */
  function Length(v: Json): Json
  {
    match v
    case Arr(items) => Num(|items|)
    case Str(s) => Num(|s|)
    case Obj(_) => Get(v, "length")
    case _ => Undefined
  }

  /** A substring occurrence is also one in every longer string that contains it. */
  lemma {:induction false} ContainsTransitive(s: string, q: string, p: string)
    requires Contains(s, q) && Contains(q, p)
    ensures Contains(s, p)
    decreases |s|
  {
    if StartsWith(s, q) {
      PrefixContains(s, q, p);
    } else {
      ContainsTransitive(s[1..], q, p);
    }
  }

  lemma {:induction false} PrefixContains(s: string, q: string, p: string)
    requires StartsWith(s, q) && Contains(q, p)
    ensures Contains(s, p)
    decreases |q|
  {
    if StartsWith(q, p) {
      assert s[..|p|] == q[..|p|];
    } else {
      assert s[1..][..|q| - 1] == q[1..];
      PrefixContains(s[1..], q[1..], p);
    }
  }
}
