/**
 * JSON values as Python holds them after `json.load`, the Python operations
 * the plug-ins apply to them (`d[k]`, `d.get(k, v)`, `for x in v`, `bool(v)`)
 * and `json.dumps(v, ensure_ascii=False)`.
 */
module Json {
  import opened Wrappers
  import opened Text

  /** The Python exceptions the modelled code raises or lets through. */
  datatype Error =
    | KeyError
    | TypeError
    | AttributeError
    | ValueError
    | FileNotFoundError
    | ImportError

  /** Objects keep their keys in insertion order, as Python dicts do; keys are distinct. */
  datatype Json =
    | JNull
    | JBool(b: bool)
    | JNum(n: int)
    | JStr(s: string)
    | JArr(items: seq<Json>)
    | JObj(members: seq<(string, Json)>)

  /** `bool(v)`. */
  predicate Truthy(j: Json) {
    match j
    case JNull => false
    case JBool(b) => b
    case JNum(n) => n != 0
    case JStr(s) => s != ""
    case JArr(xs) => xs != []
    case JObj(ms) => ms != []
  }

  function Lookup(ms: seq<(string, Json)>, key: string): (r: Option<Json>)
    ensures r.None? <==> forall i :: 0 <= i < |ms| ==> ms[i].0 != key
    ensures r.Some? ==> exists i :: 0 <= i < |ms| && ms[i] == (key, r.value)
  {
    if |ms| == 0 then None
    else if ms[0].0 == key then Some(ms[0].1)
    else Lookup(ms[1..], key)
  }

  /** `v[key]` with a string key. */
  function Subscript(v: Json, key: string): (r: Result<Json, Error>)
    ensures r.Ok? <==> v.JObj? && Lookup(v.members, key).Some?
    ensures r.Ok? ==> exists i :: 0 <= i < |v.members| && v.members[i] == (key, r.value)
    ensures r.Err? ==> r.error == (if v.JObj? then KeyError else TypeError)
  {
    match v
    case JObj(ms) => (match Lookup(ms, key) case Some(x) => Ok(x) case None => Err(KeyError))
    case _ => Err(TypeError)
  }

  /** `v.get(key, default)`: only dicts have `get`. */
  function GetOr(v: Json, key: string, default: Json): (r: Result<Json, Error>)
    ensures r.Err? <==> !v.JObj?
    ensures r.Err? ==> r.error == AttributeError
    ensures r.Ok? && (forall i :: 0 <= i < |v.members| ==> v.members[i].0 != key) ==> r.value == default
    ensures r.Ok? && (exists i :: 0 <= i < |v.members| && v.members[i].0 == key) ==>
      exists i :: 0 <= i < |v.members| && v.members[i] == (key, r.value)
  {
    match v
    case JObj(ms) => Ok(Lookup(ms, key).GetOr(default))
    case _ => Err(AttributeError)
  }

  /** The elements `for x in v` visits: a dict yields its keys, a string its characters. */
  function Iterate(v: Json): (r: Result<seq<Json>, Error>)
    ensures v.JArr? ==> r == Ok(v.items)
    ensures v.JObj? ==> (r.Ok? && |r.value| == |v.members| &&
      forall i :: 0 <= i < |v.members| ==> r.value[i] == JStr(v.members[i].0))
    ensures v.JStr? ==> (r.Ok? && |r.value| == |v.s| &&
      forall i :: 0 <= i < |v.s| ==> r.value[i] == JStr([v.s[i]]))
    ensures r.Err? <==> !(v.JArr? || v.JObj? || v.JStr?)
    ensures r.Err? ==> r.error == TypeError
  {
    match v
    case JArr(xs) => Ok(xs)
    case JObj(ms) => Ok(seq(|ms|, i requires 0 <= i < |ms| => JStr(ms[i].0)))
    case JStr(s) => Ok(seq(|s|, i requires 0 <= i < |s| => JStr([s[i]])))
    case _ => Err(TypeError)
  }

  /** The number a bool or an int stands for in Python comparisons (`True == 1`). */
  function NumValue(j: Json): int
    requires j.JBool? || j.JNum?
  {
    if j.JBool? then (if j.b then 1 else 0) else j.n
  }

  /**
   * Python's `a == b` on parsed JSON: bools compare as the integers 0 and 1,
   * lists element by element, dicts by their keys and the values under them
   * regardless of order.
   */
  predicate PyEq(a: Json, b: Json)
    decreases a, 2
  {
    match a
    case JNull => b.JNull?
    case JBool(_) => (b.JBool? || b.JNum?) && NumValue(a) == NumValue(b)
    case JNum(n) => (b.JBool? || b.JNum?) && n == NumValue(b)
    case JStr(x) => b == JStr(x)
    case JArr(xs) => b.JArr? && |xs| == |b.items| && PyEqItems(a, b, 0)
    case JObj(ms) => b.JObj? && |ms| == |b.members| && PyEqMembers(a, b, 0)
  }

  predicate PyEqItems(a: Json, b: Json, i: nat)
    requires a.JArr? && b.JArr? && |a.items| == |b.items|
    decreases a, 1, |a.items| - i
  {
    i >= |a.items| || (PyEq(a.items[i], b.items[i]) && PyEqItems(a, b, i + 1))
  }

  predicate PyEqMembers(a: Json, b: Json, i: nat)
    requires a.JObj? && b.JObj?
    decreases a, 0, |a.members| - i
  {
    if i >= |a.members| then true
    else
      assert a.members[i].1 < a.members[i] < a;
      match Lookup(b.members, a.members[i].0)
      case None => false
      case Some(v) => PyEq(a.members[i].1, v) && PyEqMembers(a, b, i + 1)
  }

  /** Two strings are equal in Python exactly when they are the same string; nothing else equals a string. */
  lemma PyEqString(s: string, b: Json)
    ensures PyEq(JStr(s), b) <==> b == JStr(s)
    ensures PyEq(b, JStr(s)) <==> b == JStr(s)
  {
  }

  /**
   * `str(v)` as an f-string renders it: a string as itself, None, bools and
   * ints in Python's spelling, and lists and dicts by their JSON text.
   */
  function Str(j: Json): string {
    match j
    case JNull => "None"
    case JBool(b) => if b then "True" else "False"
    case JNum(n) => IntToDecimal(n)
    case JStr(s) => s
    case _ => Encode(j)
  }

  // ---- json.dumps(v, ensure_ascii=False) with the default separators ", " and ": "

  function HexDigit(d: nat): char
    requires d < 16
  {
    if d < 10 then DigitChar(d) else (d - 10 + 'a' as int) as char
  }

  function EscapeChar(c: char): string {
    if ' ' <= c && c != '"' && c != '\\' then [c]
    else if c == '"' then "\\\""
    else if c == '\\' then "\\\\"
    else if c == '\n' then "\\n"
    else if c == '\r' then "\\r"
    else if c == '\t' then "\\t"
    else if c == '\U{8}' then "\\b"
    else if c == '\U{C}' then "\\f"
    else "\\u00" + [HexDigit(c as int / 16), HexDigit(c as int % 16)]
  }

  function EscapeBody(s: string): string {
    if |s| == 0 then "" else EscapeChar(s[0]) + EscapeBody(s[1..])
  }

  function EncodeString(s: string): string {
    "\"" + EscapeBody(s) + "\""
  }

  function Encode(j: Json): (r: string)
    ensures |r| > 0
    decreases j, 1
  {
    match j
    case JNull => "null"
    case JBool(b) => if b then "true" else "false"
    case JNum(n) => IntToDecimal(n)
    case JStr(s) => EncodeString(s)
    case JArr(xs) => "[" + EncodeItems(j, 0) + "]"
    case JObj(ms) => "{" + EncodeMembers(j, 0) + "}"
  }

  function EncodeItems(j: Json, i: nat): string
    requires j.JArr? && i <= |j.items|
    decreases j, 0, |j.items| - i
  {
    if i == |j.items| then ""
    else
      assert j.items[i] < j;
      (if i > 0 then ", " else "") + Encode(j.items[i]) + EncodeItems(j, i + 1)
  }

  function EncodeMembers(j: Json, i: nat): string
    requires j.JObj? && i <= |j.members|
    decreases j, 0, |j.members| - i
  {
    if i == |j.members| then ""
    else
      assert j.members[i].1 < j.members[i] < j;
      (if i > 0 then ", " else "") + EncodeString(j.members[i].0) + ": " + Encode(j.members[i].1)
      + EncodeMembers(j, i + 1)
  }

  /** The encoding of a one-member object is the key, a colon and the value inside braces. */
  lemma EncodeSingleton(key: string, v: Json)
    ensures Encode(JObj([(key, v)])) == "{" + EncodeString(key) + ": " + Encode(v) + "}"
  {
    var j := JObj([(key, v)]);
    assert EncodeMembers(j, 1) == "";
  }

  /** A string of identifier characters is copied unchanged by json.dumps' escaping. */
  lemma {:induction false} EscapeBodyPlain(s: string)
    requires forall i :: 0 <= i < |s| ==> IsIdentStart(s[i])
    ensures EscapeBody(s) == s
  {
    if |s| > 0 {
      assert EscapeChar(s[0]) == [s[0]];
      EscapeBodyPlain(s[1..]);
    }
  }

  /** A one-member object whose key is an identifier is encoded as `{"key": value}`. */
  lemma EncodeIdentifierObject(k: string, v: Json)
    requires forall i :: 0 <= i < |k| ==> IsIdentStart(k[i])
    ensures Encode(JObj([(k, v)])) == "{\"" + k + "\": " + Encode(v) + "}"
  {
    EncodeSingleton(k, v);
    EscapeBodyPlain(k);
  }

  /**
   * The outcome of reading a data file: `json.load` on the whole text
   * (None when it does not parse) and `json.loads` on each line.
   */
  datatype FileContent = FileContent(doc: Option<Json>, lines: seq<Option<Json>>)
}
