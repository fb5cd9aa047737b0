/** Shared vocabulary of the model: optional values, the JSON values that the
    API routes exchange, HTTP responses, and the handful of JavaScript string
    operations (trim, split, join, global replace with an empty replacement,
    ASCII case mapping) that the application code relies on. */
module Common {

  datatype Option<T> = None | Some(value: T)

  /** A JSON value as JSON.parse yields it; numbers are restricted to integers. */
  datatype Json =
    | JNull
    | JBool(b: bool)
    | JNum(n: int)
    | JStr(s: string)
    | JArr(items: seq<Json>)
    | JObj(fields: seq<(string, Json)>)

  /** The status of a curriculum item: `'completed' | 'in-progress' | 'locked'`. */
  datatype Status = Completed | InProgress | Locked

  /** What `NextResponse.json(body, { status })` sends back. */
  datatype Response = Response(status: int, body: Json)

  /** The `{ error: message }` body every route uses for its failures. */
  function ErrorBody(message: string): Json {
    JObj([("error", JStr(message))])
  }

  /** The value of `key` in a parsed object; JSON.parse keeps the last
      occurrence of a repeated key. */
  function Field(fields: seq<(string, Json)>, key: string): (r: Option<Json>)
    ensures r.Some? <==> exists i :: 0 <= i < |fields| && fields[i].0 == key
    ensures r.Some? ==> exists i :: 0 <= i < |fields| && fields[i] == (key, r.value)
  {
    if fields == [] then None
    else if fields[|fields| - 1].0 == key then Some(fields[|fields| - 1].1)
    else Field(fields[..|fields| - 1], key)
  }

  /** JavaScript truthiness of a field that is either absent or a string:
      `undefined` and `""` are falsy. */
  predicate Truthy(o: Option<string>) {
    o.Some? && o.value != ""
  }

  /** `o || d` for a field that is either absent or a string. */
  function OrElse(o: Option<string>, d: string): string {
    if Truthy(o) then o.value else d
  }

  /** `${o}` in a template literal: an absent field prints as "undefined". */
  function Interp(o: Option<string>): string {
    if o.Some? then o.value else "undefined"
  }

  /** The ECMAScript LineTerminator characters. */
  predicate IsLineTerminator(c: char) {
    c == '\n' || c == '\r' || c == '\U{2028}' || c == '\U{2029}'
  }

  /** The characters `String.prototype.trim` and `parseInt` skip:
      ECMAScript WhiteSpace (including every space separator) and LineTerminator. */
  predicate IsJsSpace(c: char) {
    || IsLineTerminator(c)
    || c == '\t' || c == '\U{000B}' || c == '\U{000C}' || c == ' '
    || c == '\U{00A0}' || c == '\U{FEFF}' || c == '\U{1680}'
    || ('\U{2000}' <= c <= '\U{200A}')
    || c == '\U{202F}' || c == '\U{205F}' || c == '\U{3000}'
  }

  /** Drops the leading run of JavaScript whitespace. */
  function TrimStart(s: string): (r: string)
    ensures |r| <= |s| && r == s[|s| - |r|..]
    ensures r == [] || !IsJsSpace(r[0])
    ensures forall i :: 0 <= i < |s| - |r| ==> IsJsSpace(s[i])
  {
    if s != [] && IsJsSpace(s[0]) then TrimStart(s[1..]) else s
  }

  /** Drops the trailing run of JavaScript whitespace. */
  function TrimEnd(s: string): (r: string)
    ensures |r| <= |s| && r == s[..|r|]
    ensures r == [] || !IsJsSpace(r[|r| - 1])
    ensures forall i :: |r| <= i < |s| ==> IsJsSpace(s[i])
  {
    if s != [] && IsJsSpace(s[|s| - 1]) then TrimEnd(s[..|s| - 1]) else s
  }

  /** `String.prototype.trim`. */
  function Trim(s: string): (r: string)
    ensures exists i, j :: && 0 <= i <= j <= |s| && r == s[i..j]
                           && (forall k :: 0 <= k < i ==> IsJsSpace(s[k]))
                           && (forall k :: j <= k < |s| ==> IsJsSpace(s[k]))
    ensures r == [] || (!IsJsSpace(r[0]) && !IsJsSpace(r[|r| - 1]))
  {
    var a := TrimStart(s);
    var b := TrimEnd(a);
    TrimSlice(s, a, b);
    b
  }

  /** Where `Trim` cuts: a prefix `b` of a suffix `a` of `s` is a slice of
      `s`, and what is cut off around it is what was cut off to get `a`
      from `s` and `b` from `a`. */
  lemma TrimSlice(s: string, a: string, b: string)
    requires |a| <= |s| && a == s[|s| - |a|..] && forall k :: 0 <= k < |s| - |a| ==> IsJsSpace(s[k])
    requires |b| <= |a| && b == a[..|b|] && forall k :: |b| <= k < |a| ==> IsJsSpace(a[k])
    ensures b == s[|s| - |a|..|s| - |a| + |b|]
    ensures forall k :: |s| - |a| + |b| <= k < |s| ==> IsJsSpace(s[k])
  {
    forall k | |s| - |a| + |b| <= k < |s| ensures IsJsSpace(s[k]) {
      assert s[k] == a[k - (|s| - |a|)];
    }
  }

  /** `s.replace(/p/g, '')` for a pattern without metacharacters: occurrences
      are found left to right and never overlap. */
  function RemoveAll(s: string, p: string): (r: string)
    requires p != []
    ensures |r| <= |s|
    decreases |s|
  {
    if s == [] then []
    else if p <= s then RemoveAll(s[|p|..], p)
    else [s[0]] + RemoveAll(s[1..], p)
  }

  /** `s.replace(/p|q/g, '')`: at each position the first alternative that
      matches is removed. */
  function RemoveEither(s: string, p: string, q: string): (r: string)
    requires p != [] && q != []
    ensures |r| <= |s|
    decreases |s|
  {
    if s == [] then []
    else if p <= s then RemoveEither(s[|p|..], p, q)
    else if q <= s then RemoveEither(s[|q|..], p, q)
    else [s[0]] + RemoveEither(s[1..], p, q)
  }

  /** `p` occurs somewhere in `s`. */
  predicate OccursIn(s: string, p: string) {
    exists i :: 0 <= i <= |s| && p <= s[i..]
  }

  /** No occurrence in `s` means no occurrence in its tail. */
  lemma AbsentFromTail(s: string, p: string)
    requires s != [] && !OccursIn(s, p)
    ensures !OccursIn(s[1..], p)
  {
    forall i | 0 <= i <= |s[1..]| ensures !(p <= s[1..][i..]) {
      assert s[1..][i..] == s[i + 1..];
    }
  }

  /** Removal deletes occurrences and nothing else: text in which the
      pattern never occurs comes back unchanged. */
  lemma {:induction false} RemoveAllAbsent(s: string, p: string)
    requires p != [] && !OccursIn(s, p)
    ensures RemoveAll(s, p) == s
    decreases |s|
  {
    if s != [] {
      assert !(p <= s[0..]);
      assert s[0..] == s;
      AbsentFromTail(s, p);
      RemoveAllAbsent(s[1..], p);
    }
  }

  /** Text in which neither alternative occurs comes back unchanged. */
  lemma {:induction false} RemoveEitherAbsent(s: string, p: string, q: string)
    requires p != [] && q != [] && !OccursIn(s, p) && !OccursIn(s, q)
    ensures RemoveEither(s, p, q) == s
    decreases |s|
  {
    if s != [] {
      assert s[0..] == s;
      assert !(p <= s[0..]) && !(q <= s[0..]);
      AbsentFromTail(s, p);
      AbsentFromTail(s, q);
      RemoveEitherAbsent(s[1..], p, q);
    }
  }

  /** The position of the first `c` in `s`. */
  function IndexOf(s: string, c: char): (k: nat)
    requires c in s
    ensures k < |s| && s[k] == c && c !in s[..k]
  {
    if s[0] == c then 0 else 1 + IndexOf(s[1..], c)
  }

  /** `s.split(sep)` for a one-character separator. */
  function Split(s: string, sep: char): (r: seq<string>)
    ensures |r| >= 1
    ensures forall i :: 0 <= i < |r| ==> sep !in r[i]
    ensures sep !in s ==> r == [s]
    decreases |s|
  {
    if sep in s then
      var k := IndexOf(s, sep);
      [s[..k]] + Split(s[k + 1..], sep)
    else
      [s]
  }

  /** `parts.join(sep)`. */
  function Join(parts: seq<string>, sep: string): string {
    if parts == [] then ""
    else if |parts| == 1 then parts[0]
    else parts[0] + sep + Join(parts[1..], sep)
  }

  /** A leading part without the separator is split off whole. */
  lemma SplitCons(a: string, sep: char, t: string)
    requires sep !in a
    ensures Split(a + [sep] + t, sep) == [a] + Split(t, sep)
  {
    var s := a + [sep] + t;
    assert s[..|a|] == a;
    assert s[|a|] == sep;
    assert s[|a| + 1..] == t;
  }

  /** Splitting at the separator undoes joining with it, as long as no part
      contains the separator. */
  lemma {:induction false} SplitJoin(parts: seq<string>, sep: char)
    requires |parts| >= 1
    requires forall i :: 0 <= i < |parts| ==> sep !in parts[i]
    ensures Split(Join(parts, [sep]), sep) == parts
    decreases |parts|
  {
    if |parts| > 1 {
      var rest := parts[1..];
      var tail := Join(rest, [sep]);
      JoinCons(parts, [sep]);
      SplitCons(parts[0], sep, tail);
      TailFree(parts, sep);
      SplitJoin(rest, sep);
      assert parts == [parts[0]] + rest;
    }
  }

  /** A join of several parts is the first part, the separator, and the join of the rest. */
  lemma JoinCons(parts: seq<string>, sep: string)
    requires |parts| > 1
    ensures Join(parts, sep) == parts[0] + sep + Join(parts[1..], sep)
  {
  }

  /** The tail of separator-free parts is separator-free. */
  lemma TailFree(parts: seq<string>, sep: char)
    requires |parts| > 1
    requires forall i :: 0 <= i < |parts| ==> sep !in parts[i]
    ensures forall i :: 0 <= i < |parts[1..]| ==> sep !in parts[1..][i]
  {
    forall i | 0 <= i < |parts[1..]| ensures sep !in parts[1..][i] {
      assert parts[1..][i] == parts[i + 1];
    }
  }

  /** Joining n + m >= 2 parts is joining the two groups with one more separator. */
  lemma {:induction false} JoinAppend(a: seq<string>, b: seq<string>, sep: string)
    requires a != [] && b != []
    ensures Join(a + b, sep) == Join(a, sep) + sep + Join(b, sep)
  {
    if |a| == 1 {
      assert (a + b)[1..] == b;
    } else {
      assert (a + b)[1..] == a[1..] + b;
      JoinAppend(a[1..], b, sep);
    }
  }

  /** ASCII upper-casing of one character. */
  function UpperChar(c: char): char {
    if 'a' <= c <= 'z' then (c as int - 32) as char else c
  }

  /** ASCII lower-casing of one character. */
  function LowerChar(c: char): char {
    if 'A' <= c <= 'Z' then (c as int + 32) as char else c
  }

  /** `s.toUpperCase()`, restricted to ASCII letters. */
  function ToUpper(s: string): (r: string)
    ensures |r| == |s|
    ensures forall i :: 0 <= i < |s| ==> r[i] == UpperChar(s[i])
  {
    if s == [] then [] else [UpperChar(s[0])] + ToUpper(s[1..])
  }

  /** `s.toLowerCase()`, restricted to ASCII letters. */
  function ToLower(s: string): (r: string)
    ensures |r| == |s|
    ensures forall i :: 0 <= i < |s| ==> r[i] == LowerChar(s[i])
  {
    if s == [] then [] else [LowerChar(s[0])] + ToLower(s[1..])
  }
}
