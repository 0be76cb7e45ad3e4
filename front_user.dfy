/**
 * The citizen page of the user front-end (front_user/src/pages/App.tsx): the
 * list of incidents kept in step with the WebSocket feed, the report form,
 * and the optimistic append on submit. React state is the fields of a class;
 * each handler is a method that updates them. A WebSocket message arrives as
 * the outcome of JSON.parse on its data, a create call as whether it
 * succeeded.
 */
module FrontUser {
  import opened Common
  import opened Browser
  import Realtime
  import Reports
  import Text

  const Pending := "pendiente"
  const Tenant := "utec"
  const FillEverything := "Completa todos los campos"
  const SendFailed := "Error enviando el reporte."

  /** What `onmessage` does with a message. */
  datatype Inbound =
    | ReplaceWith(incidents: seq<JsValue>)  // type "incidentsList"
    | Append(incident: JsValue)             // type "newIncident"
    | Ignore                                // any other type, or no type at all

  /**
   * Lines 66-79: how `onmessage` reads a message; None when it throws before
   * touching the list (the data is not JSON, or is the JSON null). An
   * "incidentsList" message whose "incidents" is not an array is None too:
   * see README.
   */
  function ReadInbound(data: Option<Json>): (r: Option<Inbound>)
    ensures data.None? || data == Some(JNull) ==> r.None?
    ensures data.Some? && data.value.JObject? && Param(data.value.fields, "type") == Some(JString("newIncident")) ==>
      r == Some(Append(if "incident" in data.value.fields then Val(data.value.fields["incident"]) else Undefined))
    ensures r == Some(Ignore) <==>
      && data.Some? && data.value != JNull
      && !(data.value.JObject? && Param(data.value.fields, "type") in {Some(JString("incidentsList")), Some(JString("newIncident"))})
    ensures
      && data.Some? && data.value.JObject? && Param(data.value.fields, "type") == Some(JString("incidentsList"))
      && "incidents" in data.value.fields && data.value.fields["incidents"].JArray? ==>
        r.Some? && r.value.ReplaceWith?
    ensures r.Some? && r.value.ReplaceWith? ==>
      && data.Some? && data.value.JObject? && Param(data.value.fields, "type") == Some(JString("incidentsList"))
      && "incidents" in data.value.fields && data.value.fields["incidents"].JArray?
      && |r.value.incidents| == |data.value.fields["incidents"].items|
      && forall k :: 0 <= k < |r.value.incidents| ==> r.value.incidents[k] == Val(data.value.fields["incidents"].items[k])
  {
    match data
    case None => None
    case Some(JNull) => None
    case Some(JObject(fields)) =>
      var kind := Param(fields, "type");
      if kind == Some(JString("incidentsList")) then
        if "incidents" in fields && fields["incidents"].JArray? then
          var items := fields["incidents"].items;
          Some(ReplaceWith(seq(|items|, k requires 0 <= k < |items| => Val(items[k]))))
        else None
      else if kind == Some(JString("newIncident")) then
        Some(Append(if "incident" in fields then Val(fields["incident"]) else Undefined))
      else Some(Ignore)
    case Some(_) => Some(Ignore)
  }

  /** The list after one message: replaced, appended to, or unchanged. */
  function Step(list: seq<JsValue>, data: Option<Json>): seq<JsValue> {
    match ReadInbound(data)
    case Some(ReplaceWith(incidents)) => incidents
    case Some(Append(incident)) => list + [incident]
    case _ => list
  }

  /** The list after a run of messages, handled in order of arrival. */
  function Replay(list: seq<JsValue>, messages: seq<Option<Json>>): seq<JsValue>
    decreases |messages|
  {
    if messages == [] then list
    else Step(Replay(list, messages[..|messages| - 1]), messages[|messages| - 1])
  }

  /** The incidents the "newIncident" messages of a run carry, in order. */
  function Appended(messages: seq<Option<Json>>): seq<JsValue>
    decreases |messages|
  {
    if messages == [] then []
    else
      var last := ReadInbound(messages[|messages| - 1]);
      Appended(messages[..|messages| - 1]) + (if last.Some? && last.value.Append? then [last.value.incident] else [])
  }

  predicate IsReplacement(data: Option<Json>) {
    ReadInbound(data).Some? && ReadInbound(data).value.ReplaceWith?
  }

  /**
   * The last "incidentsList" wins: after a run of messages, the list is the
   * one that message carried followed by every incident announced after it,
   * whatever the list held before.
   */
  lemma {:induction false} LastListWins(list: seq<JsValue>, messages: seq<Option<Json>>, k: nat)
    requires k < |messages| && IsReplacement(messages[k])
    requires forall j :: k < j < |messages| ==> !IsReplacement(messages[j])
    ensures Replay(list, messages) == ReadInbound(messages[k]).value.incidents + Appended(messages[k + 1..])
    decreases |messages|
  {
    var n := |messages|;
    if k == n - 1 {
      assert messages[k + 1..] == [];
    } else {
      var front := messages[..n - 1];
      assert front[k] == messages[k];
      LastListWins(list, front, k);
      assert messages[k + 1..][..n - 1 - (k + 1)] == front[k + 1..];
    }
  }

  /**
   * What the page makes of each message the WebSocket backend sends: an
   * incident list replaces the local list, a new incident is appended even
   * when it is already there, and every other message (nuevoReporte,
   * error, notification, userList) is ignored.
   */
  lemma {:induction false} ServerMessageEffect(list: seq<JsValue>, m: Realtime.Message)
    ensures var after := Step(list, Some(Realtime.MessageJson(m)));
      match m
      case IncidentsList(items) =>
        |after| == |items| && forall k :: 0 <= k < |items| ==> after[k] == Val(Realtime.IncidentJson(items[k]))
      case NewIncident(i) => after == list + [Val(Realtime.IncidentJson(i))]
      case _ => after == list
  {
    var j := Realtime.MessageJson(m);
    match m
    case IncidentsList(items) =>
      assert j.fields["type"] == JString("incidentsList");
    case NewIncident(i) =>
      assert j.fields["type"] == JString("newIncident");
    case NuevoReporte(_) =>
      assert j.fields["type"] == JString("nuevoReporte");
    case ErrorMessage(_) =>
      assert j.fields["type"] == JString("error");
    case Notification(_) =>
      assert j.fields["type"] == JString("notification");
    case UserList(_) =>
      assert j.fields["type"] == JString("userList");
  }

  /** An echo of an incident the list already holds is appended again: the list grows by one. */
  lemma {:induction false} DuplicateEchoGrows(list: seq<JsValue>, i: Realtime.Incident)
    requires Val(Realtime.IncidentJson(i)) in list
    ensures var after := Step(list, Some(Realtime.MessageJson(Realtime.NewIncident(i))));
      |after| == |list| + 1 && multiset(after)[Val(Realtime.IncidentJson(i))] >= 2
  {
    ServerMessageEffect(list, Realtime.NewIncident(i));
    var after := list + [Val(Realtime.IncidentJson(i))];
    assert multiset(after) == multiset(list) + multiset{Val(Realtime.IncidentJson(i))};
  }

  /** The page has no updateIncident handling: such a message leaves the list as it is. */
  lemma {:induction false} UpdateIncidentIgnored(list: seq<JsValue>, incident: Json)
    ensures Step(list, Some(JObject(map["type" := JString("updateIncident"), "incident" := incident]))) == list
  {
    var fields := map["type" := JString("updateIncident"), "incident" := incident];
    assert Param(fields, "type") == Some(JString("updateIncident"));
  }

  /** The report form. */
  datatype Form = Form(tipo: string, ubicacion: string, descripcion: string, rol: string)

  const EmptyForm := Form("", "", "", "")

  /** The inputs of the form. */
  datatype Field = Tipo | Ubicacion | Descripcion | Rol

  /** `setFormData({ ...formData, field: value })`. */
  function WithField(f: Form, field: Field, value: string): (r: Form)
    ensures field == Tipo ==> r == f.(tipo := value)
    ensures field == Ubicacion ==> r == f.(ubicacion := value)
    ensures field == Descripcion ==> r == f.(descripcion := value)
    ensures field == Rol ==> r == f.(rol := value)
  {
    match field
    case Tipo => f.(tipo := value)
    case Ubicacion => f.(ubicacion := value)
    case Descripcion => f.(descripcion := value)
    case Rol => f.(rol := value)
  }

  /**
   * Edits of two different inputs do not interfere, whatever their order;
   * of two edits of the same input the later one wins.
   */
  lemma {:induction false} EditsCommute(f: Form, a: Field, x: string, b: Field, y: string)
    ensures a != b ==> WithField(WithField(f, a, x), b, y) == WithField(WithField(f, b, y), a, x)
    ensures WithField(WithField(f, a, x), a, y) == WithField(f, a, y)
  {
  }

  /** Line 121: every field is non-empty (no trimming: blanks pass). */
  predicate Filled(f: Form) {
    f.tipo != "" && f.ubicacion != "" && f.descripcion != "" && f.rol != ""
  }

  /** Lines 126-132: the body of the create request. */
  function PayloadOf(f: Form): (r: Json)
    ensures r.JObject? && r.fields.Keys == {"tenant_id", "tipo_incidente", "ubicacion", "tipo_usuario", "descripcion"}
    ensures r.fields["tenant_id"] == JString(Tenant)
    ensures r.fields["tipo_incidente"] == JString(f.tipo) && r.fields["tipo_usuario"] == JString(f.rol)
    ensures r.fields["ubicacion"] == JString(f.ubicacion) && r.fields["descripcion"] == JString(f.descripcion)
  {
    JObject(map["tenant_id" := JString(Tenant), "tipo_incidente" := JString(f.tipo), "ubicacion" := JString(f.ubicacion),
                "tipo_usuario" := JString(f.rol), "descripcion" := JString(f.descripcion)])
  }

  /** Lines 137-143: the entry appended before the server answers. */
  function Placeholder(f: Form): (r: Json)
    ensures r.JObject? && r.fields.Keys == {"tipo_incidente", "ubicacion", "descripcion", "tipo_usuario", "estado"}
    ensures r.fields["estado"] == JString(Pending)
    ensures r.fields["tipo_incidente"] == JString(f.tipo) && r.fields["tipo_usuario"] == JString(f.rol)
    ensures r.fields["ubicacion"] == JString(f.ubicacion) && r.fields["descripcion"] == JString(f.descripcion)
  {
    JObject(map["tipo_incidente" := JString(f.tipo), "ubicacion" := JString(f.ubicacion),
                "descripcion" := JString(f.descripcion), "tipo_usuario" := JString(f.rol), "estado" := JString(Pending)])
  }

  /**
   * Line 287: the estado shown for an entry, `inc.estado || "pendiente"`;
   * None when the entry is null or undefined and rendering throws.
   */
  function ShownEstado(inc: JsValue): (r: Option<JsValue>)
    ensures r.None? <==> inc == Undefined || inc == Null
    ensures r.Some? ==> JsTruthy(r.value)
    ensures r.Some? && !JsTruthy(OptionalProp(inc, "estado")) ==> r.value == Val(JString(Pending))
    ensures r.Some? && JsTruthy(OptionalProp(inc, "estado")) ==> r.value == OptionalProp(inc, "estado")
  {
    match Prop(inc, "estado")
    case None => None
    case Some(e) => Some(Or(e, Val(JString(Pending))))
  }

  /** The page's state. */
  class UserPage {
    var incidents: seq<JsValue>
    var form: Form
    var showForm: bool
    var pending: nat  // create requests sent and not yet settled

    constructor ()
      ensures incidents == [] && form == EmptyForm && !showForm && pending == 0
    {
      incidents := [];
      form := EmptyForm;
      showForm := false;
      pending := 0;
    }

    /** `ws.current.onmessage`: apply one message to the list; the form is untouched. */
    method OnMessage(data: Option<Json>)
      modifies this
      ensures incidents == Step(old(incidents), data)
      ensures form == old(form) && showForm == old(showForm) && pending == old(pending)
    {
      match ReadInbound(data)
      case Some(ReplaceWith(list)) =>
        incidents := list;
      case Some(Append(incident)) =>
        incidents := incidents + [incident];
      case _ =>
    }

    /** An input's onChange: one field of the form takes the typed value. */
    method Edit(field: Field, value: string)
      modifies this
      ensures form == WithField(old(form), field, value)
      ensures incidents == old(incidents) && showForm == old(showForm) && pending == old(pending)
    {
      form := WithField(form, field, value);
    }

    /** The "Reportar incidente" button shows or hides the form. */
    method ToggleForm()
      modifies this
      ensures showForm == !old(showForm)
      ensures incidents == old(incidents) && form == old(form) && pending == old(pending)
    {
      showForm := !showForm;
    }

    /** The "Cancelar" button hides the form and keeps what was typed. */
    method HideForm()
      modifies this
      ensures !showForm
      ensures incidents == old(incidents) && form == old(form) && pending == old(pending)
    {
      showForm := false;
    }

    /**
     * `handleAddIncident` up to its `await` (lines 119-147): refuse an
     * incomplete form with an alert and no change; otherwise append the
     * placeholder and send the payload, leaving the form as it is until
     * the request settles. Nothing stops a second submit meanwhile.
     */
    method Submit() returns (request: Option<Json>, alert: Option<string>)
      modifies this
      ensures !Filled(old(form)) ==>
        && request.None? && alert == Some(FillEverything)
        && incidents == old(incidents) && pending == old(pending)
      ensures Filled(old(form)) ==>
        && request == Some(PayloadOf(old(form))) && alert.None?
        && incidents == old(incidents) + [Val(Placeholder(old(form)))]
        && pending == old(pending) + 1
      ensures form == old(form) && showForm == old(showForm)
    {
      if !Filled(form) {
        return None, Some(FillEverything);
      }
      request := Some(PayloadOf(form));
      incidents := incidents + [Val(Placeholder(form))];
      pending := pending + 1;
      alert := None;
    }

    /**
     * `handleAddIncident` after its `await` (lines 148-159): alert on a
     * failed call, then reset and hide the form, whatever was typed while
     * the request was pending. The placeholder stays either way.
     */
    method Settle(created: bool) returns (alert: Option<string>)
      requires pending > 0
      modifies this
      ensures alert == (if created then None else Some(SendFailed))
      ensures form == EmptyForm && !showForm
      ensures incidents == old(incidents) && pending == old(pending) - 1
    {
      alert := if created then None else Some(SendFailed);
      form := EmptyForm;
      showForm := false;
      pending := pending - 1;
    }

    /** `handleAddIncident` when nothing else happens between the request and its answer. */
    method AddIncident(created: bool) returns (request: Option<Json>, alert: Option<string>)
      modifies this
      ensures !Filled(old(form)) ==>
        && request.None? && alert == Some(FillEverything)
        && incidents == old(incidents) && form == old(form) && showForm == old(showForm)
      ensures Filled(old(form)) ==>
        && request == Some(PayloadOf(old(form)))
        && incidents == old(incidents) + [Val(Placeholder(old(form)))]
        && form == EmptyForm && !showForm
        && alert == (if created then None else Some(SendFailed))
      ensures pending == old(pending)
    {
      request, alert := Submit();
      if request.Some? {
        alert := Settle(created);
      }
    }
  }

  /**
   * The placeholder is never reconciled with the server's echo: when the
   * newIncident for the submitted report arrives, it is appended beside the
   * placeholder, which has no uuid and so differs from every stored incident.
   */
  lemma {:induction false} EchoDoesNotReplacePlaceholder(list: seq<JsValue>, f: Form, i: Realtime.Incident)
    ensures var before := list + [Val(Placeholder(f))];
      var after := Step(before, Some(Realtime.MessageJson(Realtime.NewIncident(i))));
      && after == list + [Val(Placeholder(f)), Val(Realtime.IncidentJson(i))]
      && Placeholder(f) != Realtime.IncidentJson(i)
  {
    ServerMessageEffect(list + [Val(Placeholder(f))], Realtime.NewIncident(i));
    assert "uuid" in Realtime.IncidentJson(i).fields;
  }

  /**
   * The payload the page sends lacks nivel_urgencia, which CrearReporte.py
   * requires: the REST create refuses every submission with 400.
   */
  lemma {:induction false} PayloadRefusedByCreate(f: Form, uuid: string, storeUp: bool)
    ensures Reports.CreateReply(Text(Some(PayloadOf(f))), uuid, storeUp)
      == Failure(400, Message(Reports.MissingFieldsPrefix + "nivel_urgencia"))
  {
    var body := PayloadOf(f);
    assert Reports.DecodeReportBody(Text(Some(body))) == Ok(body);
    ReportPayloadMissing(f);
  }

  /** Of the six fields CrearReporte.py requires, only nivel_urgencia is absent from the payload. */
  lemma {:induction false} ReportPayloadMissing(f: Form)
    ensures Missing(PayloadOf(f), Reports.RequiredReportFields) == Some(["nivel_urgencia"])
  {
    var body := PayloadOf(f);
    var names := Reports.RequiredReportFields;
    PayloadHasTail(f, names[3..]);
    assert ["nivel_urgencia"] + [] == ["nivel_urgencia"];
    assert Missing(body, names[2..]) == Some(["nivel_urgencia"]);
    assert Missing(body, names[1..]) == Some(["nivel_urgencia"]);
  }

  /** Every name in `names` is a string field of the payload: none is missing. */
  lemma {:induction false} PayloadHasTail(f: Form, names: seq<string>)
    requires forall i :: 0 <= i < |names| ==> names[i] in PayloadOf(f).fields
    ensures Missing(PayloadOf(f), names) == Some([])
    decreases |names|
  {
    if names != [] {
      PayloadHasTail(f, names[1..]);
    }
  }

  /** Of the fields user/CrearReporte.py requires, only nivel_urgencia is absent from the payload. */
  lemma {:induction false} IncidentPayloadMissing(f: Form)
    ensures Missing(PayloadOf(f), Realtime.RequiredIncidentFields) == Some(["nivel_urgencia"])
  {
    var body := PayloadOf(f);
    var names := Realtime.RequiredIncidentFields;
    PayloadHasTail(f, names[2..]);
    assert ["nivel_urgencia"] + [] == ["nivel_urgencia"];
    assert Missing(body, names[1..]) == Some(["nivel_urgencia"]);
  }

  /** user/CrearReporte.py refuses the same payload for the same reason. */
  lemma {:induction false} PayloadRefusedByIncidentHandler(f: Form, uuid: string)
    ensures Realtime.ReadIncident(Text(Some(PayloadOf(f))), uuid)
      == Err(Failure(400, Message(Realtime.MissingIncidentFields + "['nivel_urgencia']")))
  {
    var raw := Text(Some(PayloadOf(f)));
    assert Realtime.SocketBody(raw) == Some(PayloadOf(f));
    IncidentPayloadMissing(f);
    UrgencyRepr();
  }

  /** How Python prints the list of the one missing field. */
  lemma UrgencyRepr()
    ensures Text.ListRepr(["nivel_urgencia"]) == "['nivel_urgencia']"
  {
    Text.ListReprOne("nivel_urgencia");
    assert "['" + "nivel_urgencia" + "']" == "['nivel_urgencia']";
  }
}
