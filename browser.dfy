/**
 * The JavaScript semantics the two browser front-ends rely on, over decoded
 * JSON values: `undefined`, truthiness, property access (which throws on
 * null and undefined), the `||` operator, the message of `new Error(x)`, and
 * the outcome of a `fetch` whose response is read with `resp.json()`.
 */
module Browser {
  import opened Common

  /** A JavaScript value the pages handle: undefined, or a value a JSON document can denote. */
  datatype JsValue = Undefined | Val(json: Json)

  const Null := Val(JNull)
  const EmptyArray := Val(JArray([]))

  /** JavaScript truthiness: undefined, null, false, 0 and "" are falsy, everything else is truthy. */
  predicate JsTruthy(v: JsValue) {
    match v
    case Undefined => false
    case Val(JNull) => false
    case Val(JBool(b)) => b
    case Val(JNumber(n)) => n != 0
    case Val(JString(s)) => s != ""
    case Val(_) => true
  }

  /**
   * `v.name`: the field of an object, undefined on any other value; None
   * when `v` is null or undefined, where JavaScript throws a TypeError.
   * (The names the pages read are not built-in properties of strings or
   * arrays.)
   */
  function Prop(v: JsValue, name: string): (r: Option<JsValue>)
    ensures r.None? <==> v == Undefined || v == Null
    ensures r.Some? && r.value.Val? ==> v.json.JObject? && name in v.json.fields && r.value.json == v.json.fields[name]
    ensures v.Val? && v.json.JObject? && name in v.json.fields ==> r == Some(Val(v.json.fields[name]))
  {
    match v
    case Undefined => None
    case Val(JNull) => None
    case Val(JObject(fields)) => if name in fields then Some(Val(fields[name])) else Some(Undefined)
    case Val(_) => Some(Undefined)
  }

  /** `v?.name`: like Prop, but undefined instead of a TypeError on null and undefined. */
  function OptionalProp(v: JsValue, name: string): (r: JsValue)
    ensures v == Undefined || v == Null ==> r == Undefined
    ensures Prop(v, name).Some? ==> r == Prop(v, name).value
  {
    match Prop(v, name)
    case None => Undefined
    case Some(x) => x
  }

  /**
   * A truthy `v?.name` is a field the value really carries: `v` is an
   * object holding `name`, and the result is that field.
   */
  lemma {:induction false} OptionalPropTruthy(v: JsValue, name: string)
    requires JsTruthy(OptionalProp(v, name))
    ensures v.Val? && v.json.JObject? && name in v.json.fields
    ensures OptionalProp(v, name) == Val(v.json.fields[name])
  {
    assert Prop(v, name).Some? && Prop(v, name).value.Val?;
  }

  /** `a || b`: `a` when it is truthy, otherwise `b`. */
  function Or(a: JsValue, b: JsValue): (r: JsValue)
    ensures JsTruthy(a) ==> r == a
    ensures !JsTruthy(a) ==> r == b
    ensures JsTruthy(r) <==> JsTruthy(a) || JsTruthy(b)
  {
    if JsTruthy(a) then a else b
  }

  /** The text of an error a page shows. */
  datatype ErrorText =
    | Literal(text: string)   // a string: one the page writes, or one the server sent
    | StringOf(value: Json)   // String(value) for a value that is not a string
    | EngineMessage           // the message of an exception the browser raises (network, JSON syntax, TypeError)

  /** No error: the empty string every handler resets `error` to. */
  const NoError := Literal("")

  /** `new Error(x).message`: "" for undefined, the string itself, String(x) for any other value. */
  function MessageOf(x: JsValue): (r: ErrorText)
    ensures x == Undefined ==> r == NoError
    ensures x.Val? && x.json.JString? ==> r == Literal(x.json.str)
    ensures r.StringOf? <==> x.Val? && !x.json.JString?
  {
    match x
    case Undefined => NoError
    case Val(JString(s)) => Literal(s)
    case Val(v) => StringOf(v)
  }

  /** What `fetch` and `resp.json()` give a page. */
  datatype Response =
    | NetworkFailure                    // fetch rejects
    | Answer(ok: bool, json: Option<Json>) // resp.ok, and the decoded body (None: resp.json() rejects)

  /**
   * The pattern of the admin dashboard: `const data = await resp.json();
   * if (!resp.ok) throw new Error(data.error || data.mensaje)`; the data of
   * an ok response, or the message the page's catch receives.
   */
  function Checked(resp: Response): (r: Result<JsValue, ErrorText>)
    ensures r.Ok? <==> resp.Answer? && resp.ok && resp.json.Some?
    ensures r.Ok? ==> r.value == Val(resp.json.value)
    ensures resp.NetworkFailure? || (resp.Answer? && resp.json.None?) ==> r == Err(EngineMessage)
    ensures resp.Answer? && !resp.ok && resp.json.Some? && resp.json.value.JObject? ==>
      var data := Val(resp.json.value);
      r == Err(MessageOf(Or(Prop(data, "error").value, Prop(data, "mensaje").value)))
  {
    match resp
    case NetworkFailure => Err(EngineMessage)
    case Answer(ok, json) =>
      if json.None? then Err(EngineMessage)
      else
        var data := Val(json.value);
        if ok then Ok(data)
        else
          match Prop(data, "error")
          case None => Err(EngineMessage)
          case Some(e) => Err(MessageOf(Or(e, Prop(data, "mensaje").value)))
  }
}
