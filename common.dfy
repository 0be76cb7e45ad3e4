/**
 * Values shared by every handler of the incident-reporting backend and by the
 * two browser front-ends: decoded JSON documents, the "body" of a Lambda
 * event, the replies a handler returns, request parameters, and the scan of a
 * key-value table.
 */
module Common {

  datatype Option<+T> = None | Some(value: T) {
    function GetOr(default: T): T {
      if Some? then value else default
    }
  }

  datatype Result<+T, +E> = Ok(value: T) | Err(error: E)

  /** A decoded JSON document. Numbers are integers: fractional numbers are not modelled. */
  datatype Json =
    | JString(str: string)
    | JNumber(num: int)
    | JBool(truth: bool)
    | JNull
    | JArray(items: seq<Json>)
    | JObject(fields: map<string, Json>)

  /**
   * The value holds a number somewhere inside it. DynamoDB hands every
   * stored number back as a Decimal, which json.dumps without a `default`
   * refuses with TypeError: a stored item that holds a number cannot be
   * written back out as JSON.
   */
  predicate HoldsNumber(j: Json) {
    match j
    case JNumber(_) => true
    case JArray(items) => exists k :: 0 <= k < |items| && HoldsNumber(items[k])
    case JObject(fields) => exists name :: name in fields && HoldsNumber(fields[name])
    case _ => false
  }

  /** The "body" entry of a Lambda event, as the Python handlers see it. */
  datatype EventBody =
    | Absent                      // the event has no "body" key
    | Text(decoded: Option<Json>) // a string: what json.loads makes of it, None when it is not valid JSON
    | Value(value: Json)          // a value API Gateway already decoded (JNull stands for None)

  /** A body that is a string is always Text: Value never holds one. */
  type RawBody = b: EventBody | !(b.Value? && b.value.JString?) witness Absent

  /** What an error reply says. */
  datatype Cause =
    | Message(text: string)   // a message the handler writes itself
    | Raised(prefix: string)  // prefix followed by str(e) of an exception raised by the runtime or by a foreign call

  /** A handler's HTTP reply: its status code and, on success, its "mensaje" and payload. */
  datatype Reply<+T> =
    | Success(status: int, mensaje: string, value: T)
    | Failure(status: int, cause: Cause)

  /**
   * The "queryStringParameters" or "pathParameters" entry of an event: the
   * key may be missing, hold null (API Gateway sends null when there are no
   * parameters), or hold the parameters.
   */
  datatype EventParams = NoEntry | NullEntry | Entries(entries: map<string, string>)

  /** `event.get(key) or {}`: the parameters, empty when the entry is missing or null. */
  function OrEmpty(p: EventParams): (r: map<string, string>)
    ensures p.Entries? ==> r == p.entries
    ensures !p.Entries? ==> r == map[]
  {
    if p.Entries? then p.entries else map[]
  }

  /**
   * `event.get(key, {})`: the parameters, empty when the entry is missing;
   * None when it holds null, where the `.get` that follows raises.
   */
  function GetOrEmpty(p: EventParams): (r: Option<map<string, string>>)
    ensures r.None? <==> p.NullEntry?
    ensures p.Entries? ==> r == Some(p.entries)
    ensures p.NoEntry? ==> r == Some(map[])
  {
    match p
    case NoEntry => Some(map[])
    case NullEntry => None
    case Entries(m) => Some(m)
  }

  /**
   * The two ways the handlers read a parameter entry agree except on an
   * entry holding null: `event.get(key) or {}` reads it as empty, where
   * `event.get(key, {})` hands on the null and the `.get` after it raises.
   */
  lemma {:induction false} GetOrEmptyAgreesWithOrEmpty(p: EventParams)
    ensures GetOrEmpty(p).Some? ==> GetOrEmpty(p).value == OrEmpty(p)
    ensures GetOrEmpty(p).None? <==> p.NullEntry?
    ensures p.NullEntry? ==> OrEmpty(p) == map[]
  {
  }

  /** `d.get(name)` on a dict: the value under `name`, None when there is none. */
  function Param<V>(p: map<string, V>, name: string): (r: Option<V>)
    ensures r.Some? <==> name in p
    ensures r.Some? ==> r.value == p[name]
  {
    if name in p then Some(p[name]) else None
  }

  /** Python truthiness of an optional string: None and "" are falsy. */
  predicate Truthy(s: Option<string>) {
    s.Some? && s.value != ""
  }

  /** `s` occurs in `t` as a contiguous piece: Python's `s in t` on two strings. */
  predicate IsSubstring(s: string, t: string)
    decreases |t|
  {
    (|s| <= |t| && t[..|s|] == s) || (t != [] && IsSubstring(s, t[1..]))
  }

  /**
   * Python's `name in body` for a decoded body: a key test on a dict, an
   * element test on a list, a substring test on a str; on any other value
   * Python raises TypeError, which is None here.
   */
  function Membership(body: Json, name: string): (r: Option<bool>)
    ensures r.Some? <==> body.JObject? || body.JArray? || body.JString?
    ensures body.JObject? ==> r == Some(name in body.fields)
  {
    match body
    case JObject(fields) => Some(name in fields)
    case JArray(items) => Some(JString(name) in items)
    case JString(s) => Some(IsSubstring(name, s))
    case _ => None
  }

  /** `sub` is `s` with some elements left out and the rest kept in order. */
  predicate Subsequence<T(==)>(sub: seq<T>, s: seq<T>)
    decreases |s|
  {
    if sub == [] then true
    else if s == [] then false
    else (sub[0] == s[0] && Subsequence(sub[1..], s[1..])) || Subsequence(sub, s[1..])
  }

  /**
   * `[f for f in names if f not in body]`: the names the body lacks, in the
   * order of `names`; None when the membership test raises.
   */
  function Missing(body: Json, names: seq<string>): (r: Option<seq<string>>)
    ensures names != [] ==> (r.None? <==> Membership(body, names[0]).None?)
    ensures r.Some? ==> Subsequence(r.value, names)
    ensures r.Some? ==> forall n :: n in r.value <==> n in names && Membership(body, n) == Some(false)
    decreases |names|
  {
    if names == [] then Some([])
    else
      match Membership(body, names[0])
      case None => None
      case Some(present) =>
        var rest := Missing(body, names[1..]);
        assert rest.Some?;
        if present then rest else Some([names[0]] + rest.value)
  }

  /** Every key occurs in `order` exactly once: one page of a full table scan. */
  predicate IsEnumeration<K>(order: seq<K>, keys: set<K>) {
    && (forall i, j :: 0 <= i < j < |order| ==> order[i] != order[j])
    && (forall i :: 0 <= i < |order| ==> order[i] in keys)
    && (forall k | k in keys :: k in order)
  }

  /** A scan of a table: every key once, in an order the store chooses. */
  method ScanKeys<K, V>(m: map<K, V>) returns (order: seq<K>)
    ensures IsEnumeration(order, m.Keys)
    ensures |order| == |m|
  {
    order := [];
    var rest := m.Keys;
    while rest != {}
      invariant forall i, j :: 0 <= i < j < |order| ==> order[i] != order[j]
      invariant forall k :: k in m.Keys <==> k in order || k in rest
      invariant forall k :: k in rest ==> k !in order
      invariant |order| + |rest| == |m|
      decreases rest
    {
      var k :| k in rest;
      order := order + [k];
      rest := rest - {k};
    }
  }
}
