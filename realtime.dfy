/**
 * The real-time side of the backend: the incidents table and the registry of
 * open WebSocket connections (connectionId to username), and the three
 * handlers that work on them. user/CrearReporte.py stores an incident and
 * broadcasts it, socket/default.py dispatches the actions a client sends,
 * socket/disconnect.py forgets a connection and tells the others. A post to a
 * connection is a foreign call: which posts fail is a parameter, and the
 * methods return the posts that went through, in order.
 */
module Realtime {
  import opened Common
  import opened Text

  const RequiredIncidentFields: seq<string> := ["tipo_incidente", "nivel_urgencia", "ubicacion", "tipo_usuario", "descripcion"]
  const DefaultTenant := "utec"
  const Pending := "pendiente"
  const MissingIncidentFields := "Faltan campos: "
  const AirflowError := "Airflow error: "
  const IncidentCreated := "Reporte creado"
  const UnknownAction := "Acción desconocida"
  const Anonymous := "Anónimo"
  const LeftSuffix := " se ha desconectado"

  /** A row of the incidents table, keyed by its uuid. */
  datatype Incident = Incident(
    uuid: string,
    tenantId: Json,
    tipoIncidente: Json,
    nivelUrgencia: Json,
    ubicacion: Json,
    tipoUsuario: Json,
    descripcion: Json,
    estado: string)

  /** The messages the server posts to a connection. */
  datatype Message =
    | NewIncident(incident: Incident)          // {"type": "newIncident", "incident": ...}
    | IncidentsList(incidents: seq<Incident>)  // {"type": "incidentsList", "incidents": [...]}
    | NuevoReporte(data: Json)                 // {"type": "nuevoReporte", "data": ...}
    | ErrorMessage(message: string)            // {"type": "error", "message": ...}
    | Notification(message: string)            // {"type": "notification", "message": ...}
    | UserList(users: seq<string>)             // {"type": "userList", "users": [...]}

  /** One post that reached its connection. */
  datatype Post = Post(to: string, message: Message)

  /** An incident as JSON, the way json.dumps writes the item. */
  function IncidentJson(i: Incident): Json {
    JObject(map[
      "uuid" := JString(i.uuid), "tenant_id" := i.tenantId, "tipo_incidente" := i.tipoIncidente,
      "nivel_urgencia" := i.nivelUrgencia, "ubicacion" := i.ubicacion, "tipo_usuario" := i.tipoUsuario,
      "descripcion" := i.descripcion, "estado" := JString(i.estado)])
  }

  /**
   * The incident holds a number: scanned back from the table it carries a
   * Decimal, which json.dumps refuses.
   */
  predicate IncidentHoldsNumber(i: Incident) {
    || HoldsNumber(i.tenantId) || HoldsNumber(i.tipoIncidente) || HoldsNumber(i.nivelUrgencia)
    || HoldsNumber(i.ubicacion) || HoldsNumber(i.tipoUsuario) || HoldsNumber(i.descripcion)
  }

  /** Every incident of the list can be dumped as JSON. */
  predicate Dumpable(items: seq<Incident>) {
    forall k :: 0 <= k < |items| ==> !IncidentHoldsNumber(items[k])
  }

  /** A message as the JSON document a client decodes. */
  function MessageJson(m: Message): Json {
    match m
    case NewIncident(i) => JObject(map["type" := JString("newIncident"), "incident" := IncidentJson(i)])
    case IncidentsList(items) =>
      JObject(map["type" := JString("incidentsList"),
                  "incidents" := JArray(seq(|items|, k requires 0 <= k < |items| => IncidentJson(items[k])))])
    case NuevoReporte(data) => JObject(map["type" := JString("nuevoReporte"), "data" := data])
    case ErrorMessage(text) => JObject(map["type" := JString("error"), "message" := JString(text)])
    case Notification(text) => JObject(map["type" := JString("notification"), "message" := JString(text)])
    case UserList(users) =>
      JObject(map["type" := JString("userList"), "users" := JArray(seq(|users|, k requires 0 <= k < |users| => JString(users[k])))])
  }

  /**
   * The posts a broadcast delivers when the connections are visited in
   * `order` and the posts to `failed` raise.
   */
  function Deliveries(order: seq<string>, failed: set<string>, msg: Message): seq<Post>
    decreases |order|
  {
    if order == [] then []
    else
      var last := order[|order| - 1];
      Deliveries(order[..|order| - 1], failed, msg) + (if last in failed then [] else [Post(last, msg)])
  }

  /** One more visited connection adds at most one delivery, at the end. */
  lemma DeliveriesStep(order: seq<string>, i: nat, failed: set<string>, msg: Message)
    requires i < |order|
    ensures Deliveries(order[..i + 1], failed, msg)
      == Deliveries(order[..i], failed, msg) + (if order[i] in failed then [] else [Post(order[i], msg)])
  {
    assert order[..i + 1][..i] == order[..i];
  }

  /**
   * A broadcast reaches exactly the visited connections whose post did not
   * fail, and carries the one message.
   */
  lemma {:induction false} DeliveriesReach(order: seq<string>, failed: set<string>, msg: Message)
    ensures forall p :: p in Deliveries(order, failed, msg) ==> p.message == msg
    ensures forall c :: Post(c, msg) in Deliveries(order, failed, msg) <==> c in order && c !in failed
    ensures |Deliveries(order, failed, msg)| <= |order|
    decreases |order|
  {
    if order != [] {
      var front := order[..|order| - 1];
      DeliveriesReach(front, failed, msg);
      assert order == front + [order[|order| - 1]];
    }
  }

  /** When `order` visits each connection once, a broadcast posts to each at most once. */
  lemma {:induction false} DeliveriesOnce(order: seq<string>, failed: set<string>, msg: Message)
    requires forall i, j :: 0 <= i < j < |order| ==> order[i] != order[j]
    ensures forall i, j :: 0 <= i < j < |Deliveries(order, failed, msg)| ==>
      Deliveries(order, failed, msg)[i].to != Deliveries(order, failed, msg)[j].to
    decreases |order|
  {
    if order != [] {
      var front := order[..|order| - 1];
      var last := order[|order| - 1];
      DeliveriesOnce(front, failed, msg);
      DeliveriesReach(front, failed, msg);
      assert order == front + [last];
      assert last !in front;
      if last !in failed {
        var df := Deliveries(front, failed, msg);
        assert Post(last, msg) !in df;
        forall i | 0 <= i < |df| ensures df[i].to != last {
          assert df[i] in df;
        }
      }
    }
  }

  /**
   * The values stored under the keys of `order`, in that order: the items of
   * a scan (`[c["username"] for c in connections]`, the incidents of a scan).
   */
  function ValuesInOrder<V>(order: seq<string>, m: map<string, V>): (values: seq<V>)
    requires forall i :: 0 <= i < |order| ==> order[i] in m
    ensures |values| == |order|
    ensures forall i :: 0 <= i < |order| ==> values[i] == m[order[i]]
  {
    seq(|order|, i requires 0 <= i < |order| => m[order[i]])
  }

  /**
   * Over a scan, the values read are the table's values: one per row, and
   * every stored value among them.
   */
  lemma {:induction false} ValuesOfScan<V>(order: seq<string>, m: map<string, V>)
    requires IsEnumeration(order, m.Keys)
    ensures |ValuesInOrder(order, m)| == |m|
    ensures forall v :: v in ValuesInOrder(order, m) <==> v in m.Values
  {
    var values := ValuesInOrder(order, m);
    EnumerationSize(order, m.Keys);
    forall v | v in m.Values ensures v in values {
      var k :| k in m && m[k] == v;
      var i :| 0 <= i < |order| && order[i] == k;
      assert values[i] == v;
    }
    forall v | v in values ensures v in m.Values {
      var i :| 0 <= i < |values| && values[i] == v;
      assert order[i] in m;
    }
  }

  /**
   * The posts disconnect.py delivers: to each remaining connection in
   * `order`, the notification and then the user list; a connection whose
   * first post raises gets neither (the second is not attempted), one whose
   * second post raises gets only the notification.
   */
  function Farewells(order: seq<string>, notice: Message, list: Message, noticeFails: set<string>, listFails: set<string>): seq<Post>
    decreases |order|
  {
    if order == [] then []
    else
      var last := order[|order| - 1];
      Farewells(order[..|order| - 1], notice, list, noticeFails, listFails) + FarewellsTo(last, notice, list, noticeFails, listFails)
  }

  /** The last remaining connection's posts come after those of the connections before it. */
  lemma FarewellsSplit(order: seq<string>, notice: Message, list: Message, noticeFails: set<string>, listFails: set<string>)
    requires order != []
    ensures var last := order[|order| - 1];
      Farewells(order, notice, list, noticeFails, listFails)
        == Farewells(order[..|order| - 1], notice, list, noticeFails, listFails) + FarewellsTo(last, notice, list, noticeFails, listFails)
  {
  }

  /** One more remaining connection adds its own posts, at the end. */
  lemma FarewellsStep(order: seq<string>, i: nat, notice: Message, list: Message, noticeFails: set<string>, listFails: set<string>)
    requires i < |order|
    ensures Farewells(order[..i + 1], notice, list, noticeFails, listFails)
      == Farewells(order[..i], notice, list, noticeFails, listFails) + FarewellsTo(order[i], notice, list, noticeFails, listFails)
  {
    assert order[..i + 1][..i] == order[..i];
  }

  /** The posts one remaining connection receives. */
  function FarewellsTo(c: string, notice: Message, list: Message, noticeFails: set<string>, listFails: set<string>): seq<Post> {
    if c in noticeFails then []
    else if c in listFails then [Post(c, notice)]
    else [Post(c, notice), Post(c, list)]
  }

  /** Nothing is posted to a connection outside `order`, and only the two messages are posted. */
  lemma {:induction false} FarewellsTargets(order: seq<string>, notice: Message, list: Message, noticeFails: set<string>, listFails: set<string>)
    ensures forall p :: p in Farewells(order, notice, list, noticeFails, listFails) ==>
      p.to in order && (p.message == notice || p.message == list)
    decreases |order|
  {
    if order != [] {
      var front := order[..|order| - 1];
      FarewellsTargets(front, notice, list, noticeFails, listFails);
      FarewellsSplit(order, notice, list, noticeFails, listFails);
      forall p | p in Farewells(front, notice, list, noticeFails, listFails) ensures p.to in order {
        assert p.to in front;
      }
    }
  }

  /** A remaining connection is notified exactly when its first post goes through. */
  lemma {:induction false} FarewellsNotified(order: seq<string>, notice: Message, list: Message, noticeFails: set<string>, listFails: set<string>)
    requires notice != list
    ensures forall c :: Post(c, notice) in Farewells(order, notice, list, noticeFails, listFails) <==> c in order && c !in noticeFails
    decreases |order|
  {
    if order != [] {
      var front := order[..|order| - 1];
      FarewellsNotified(front, notice, list, noticeFails, listFails);
      FarewellsSplit(order, notice, list, noticeFails, listFails);
      assert order == front + [order[|order| - 1]];
    }
  }

  /** A remaining connection gets the user list exactly when both of its posts go through. */
  lemma {:induction false} FarewellsListed(order: seq<string>, notice: Message, list: Message, noticeFails: set<string>, listFails: set<string>)
    requires notice != list
    ensures forall c :: Post(c, list) in Farewells(order, notice, list, noticeFails, listFails) <==>
      c in order && c !in noticeFails && c !in listFails
    decreases |order|
  {
    if order != [] {
      var front := order[..|order| - 1];
      FarewellsListed(front, notice, list, noticeFails, listFails);
      FarewellsSplit(order, notice, list, noticeFails, listFails);
      assert order == front + [order[|order| - 1]];
    }
  }

  /** Every user list that is posted comes immediately after the notification to the same connection. */
  lemma {:induction false} FarewellsNoticeFirst(order: seq<string>, notice: Message, list: Message, noticeFails: set<string>, listFails: set<string>)
    requires notice != list
    ensures var f := Farewells(order, notice, list, noticeFails, listFails);
      forall k :: 0 <= k < |f| && f[k].message == list ==> 0 < k && f[k - 1] == Post(f[k].to, notice)
    decreases |order|
  {
    if order != [] {
      var front := order[..|order| - 1];
      FarewellsNoticeFirst(front, notice, list, noticeFails, listFails);
      FarewellsSplit(order, notice, list, noticeFails, listFails);
      var f := Farewells(order, notice, list, noticeFails, listFails);
      var ff := Farewells(front, notice, list, noticeFails, listFails);
      forall k | 0 <= k < |f| && f[k].message == list ensures 0 < k && f[k - 1] == Post(f[k].to, notice) {
        if k < |ff| {
          assert f[k] == ff[k] && f[k - 1] == ff[k - 1];
        }
      }
    }
  }

  /**
   * json.loads(event.get("body", "{}")) in user/CrearReporte.py and
   * socket/default.py: a missing body is an empty dict; a body that is not a
   * string, or not valid JSON, makes json.loads raise (None).
   */
  function SocketBody(raw: RawBody): (r: Option<Json>)
    ensures raw == Absent ==> r == Some(JObject(map[]))
    ensures raw.Value? ==> r.None?
  {
    match raw
    case Absent => Some(JObject(map[]))
    case Text(decoded) => decoded
    case Value(_) => None
  }

  /**
   * Lines 37-56 of user/CrearReporte.py: the incident a body describes, or
   * the reply that ends the handler before anything is stored.
   */
  function ReadIncident(raw: RawBody, uuid: string): (r: Result<Incident, Reply<string>>)
    ensures SocketBody(raw).None? ==> r == Err(Failure(500, Raised("")))
    ensures SocketBody(raw).Some? ==>
      var missing := Missing(SocketBody(raw).value, RequiredIncidentFields);
      && (missing.None? ==> r == Err(Failure(500, Raised(""))))
      && (missing.Some? && missing.value != [] ==>
            r == Err(Failure(400, Message(MissingIncidentFields + ListRepr(missing.value)))))
    ensures r.Ok? <==>
      && SocketBody(raw).Some? && SocketBody(raw).value.JObject?
      && Missing(SocketBody(raw).value, RequiredIncidentFields) == Some([])
    ensures r.Ok? ==>
      var fields := SocketBody(raw).value.fields;
      && r.value.uuid == uuid && r.value.estado == Pending
      && r.value.tenantId == (if "tenant_id" in fields then fields["tenant_id"] else JString(DefaultTenant))
      && r.value.tipoIncidente == fields["tipo_incidente"] && r.value.nivelUrgencia == fields["nivel_urgencia"]
      && r.value.ubicacion == fields["ubicacion"] && r.value.tipoUsuario == fields["tipo_usuario"]
      && r.value.descripcion == fields["descripcion"]
  {
    match SocketBody(raw)
    case None => Err(Failure(500, Raised("")))
    case Some(body) =>
      match Missing(body, RequiredIncidentFields)
      case None => Err(Failure(500, Raised("")))
      case Some(missing) =>
        if missing != [] then Err(Failure(400, Message(MissingIncidentFields + ListRepr(missing))))
        else if !body.JObject? then Err(Failure(500, Raised("")))
        else
          var fields := body.fields;
          assert forall i :: 0 <= i < |RequiredIncidentFields| ==> RequiredIncidentFields[i] in fields by {
            forall i | 0 <= i < |RequiredIncidentFields| ensures RequiredIncidentFields[i] in fields {
              assert RequiredIncidentFields[i] !in missing;
            }
          }
          var tenant := if "tenant_id" in fields then fields["tenant_id"] else JString(DefaultTenant);
          Ok(Incident(uuid, tenant, fields["tipo_incidente"], fields["nivel_urgencia"], fields["ubicacion"],
                      fields["tipo_usuario"], fields["descripcion"], Pending))
  }

  /**
   * A status Airflow accepts a DAG run with. The call's outcome is the
   * status it answered with, or None when `requests.post` raised.
   */
  predicate AirflowAccepted(status: Option<int>) {
    status == Some(200) || status == Some(201)
  }

  /** What socket/default.py does with a message, read off its body. */
  datatype Route =
    | BadBody             // json.loads raises, or the body has no .get
    | GetIncidents
    | NewReport(data: Json)
    | Unknown

  /** Lines 22-24, 29, 41-42 and 61 of socket/default.py: the route of a message. */
  function RouteOf(raw: RawBody): (r: Route)
    ensures r == BadBody <==> SocketBody(raw).None? || !SocketBody(raw).value.JObject?
    ensures r == GetIncidents <==>
      SocketBody(raw).Some? && SocketBody(raw).value.JObject?
      && Param(SocketBody(raw).value.fields, "action") == Some(JString("getIncidents"))
    ensures r.NewReport? <==>
      SocketBody(raw).Some? && SocketBody(raw).value.JObject?
      && Param(SocketBody(raw).value.fields, "action") == Some(JString("nuevoReporte"))
    ensures r.NewReport? ==>
      r.data == Param(SocketBody(raw).value.fields, "data").GetOr(JObject(map[]))
  {
    match SocketBody(raw)
    case None => BadBody
    case Some(body) =>
      if !body.JObject? then BadBody
      else
        var action := Param(body.fields, "action");
        if action == Some(JString("getIncidents")) then GetIncidents
        else if action == Some(JString("nuevoReporte")) then NewReport(Param(body.fields, "data").GetOr(JObject(map[])))
        else Unknown
  }

  /** A message without a body asks for nothing the dispatcher knows. */
  lemma MissingBodyIsUnknown()
    ensures RouteOf(Absent) == Unknown
  {
  }

  /**
   * The scan-and-post loop over the registry: visit the connections in scan
   * order, post `msg` to each, and delete each one whose post fails.
   */
  method PostToAll(connections: map<string, string>, msg: Message, failed: set<string>)
    returns (order: seq<string>, sent: seq<Post>, live: map<string, string>)
    ensures IsEnumeration(order, connections.Keys)
    ensures sent == Deliveries(order, failed, msg)
    ensures live == connections - failed
  {
    live := connections;
    order := ScanKeys(live);
    ghost var pruned: set<string> := {};
    sent := [];
    var i := 0;
    while i < |order|
      invariant 0 <= i <= |order|
      invariant sent == Deliveries(order[..i], failed, msg)
      invariant live == connections - pruned
      invariant pruned <= failed
      invariant forall j :: 0 <= j < i && order[j] in failed ==> order[j] in pruned
    {
      var c := order[i];
      DeliveriesStep(order, i, failed, msg);
      PrunedUpTo(order, failed, pruned, i);
      if c in failed {
        PruneOneMore(connections, pruned, c);
        live := live - {c};
        pruned := pruned + {c};
      } else {
        sent := sent + [Post(c, msg)];
      }
      i := i + 1;
    }
    assert order[..|order|] == order;
    PrunedEveryFailure(connections, failed, pruned, order);
  }

  /** Visiting `order[i]` keeps every visited failure pruned. */
  lemma PrunedUpTo(order: seq<string>, failed: set<string>, pruned: set<string>, i: int)
    requires 0 <= i < |order|
    requires forall j :: 0 <= j < i && order[j] in failed ==> order[j] in pruned
    ensures var next := if order[i] in failed then pruned + {order[i]} else pruned;
      forall j :: 0 <= j < i + 1 && order[j] in failed ==> order[j] in next
  {
  }

  lemma PruneOneMore(connections: map<string, string>, pruned: set<string>, c: string)
    ensures (connections - pruned) - {c} == connections - (pruned + {c})
  {
  }

  /** Once every visited connection whose post failed is pruned, the registry has lost exactly the failed ones. */
  lemma PrunedEveryFailure(connections: map<string, string>, failed: set<string>, pruned: set<string>, order: seq<string>)
    requires IsEnumeration(order, connections.Keys)
    requires pruned <= failed
    requires forall j :: 0 <= j < |order| && order[j] in failed ==> order[j] in pruned
    ensures connections - pruned == connections - failed
  {
    forall c | c in connections && c in failed ensures c in pruned {
      var j :| 0 <= j < |order| && order[j] == c;
    }
  }

  /**
   * The loop of socket/disconnect.py: post the notification and then the
   * user list to each remaining connection in `order`; a failed post is
   * only logged.
   */
  method PostFarewells(order: seq<string>, notice: Message, list: Message, noticeFails: set<string>, listFails: set<string>)
    returns (sent: seq<Post>)
    ensures sent == Farewells(order, notice, list, noticeFails, listFails)
  {
    sent := [];
    var i := 0;
    while i < |order|
      invariant 0 <= i <= |order|
      invariant sent == Farewells(order[..i], notice, list, noticeFails, listFails)
    {
      var c := order[i];
      FarewellsStep(order, i, notice, list, noticeFails, listFails);
      ghost var before := sent;
      if c !in noticeFails {
        sent := sent + [Post(c, notice)];
        if c !in listFails {
          sent := sent + [Post(c, list)];
          assert sent == before + [Post(c, notice), Post(c, list)];
        }
      }
      i := i + 1;
    }
    assert order[..|order|] == order;
  }

  /** The incidents and connections tables of the WebSocket backend. */
  class Registry {
    var incidents: map<string, Incident>
    var connections: map<string, string>

    constructor ()
      ensures incidents == map[] && connections == map[]
    {
      incidents := map[];
      connections := map[];
    }

    /**
     * send_ws_message (user/CrearReporte.py) and the nuevoReporte branch of
     * socket/default.py: post `msg` to every connection, and delete from the
     * registry each connection whose post fails. Each of those deletes is
     * taken to succeed.
     */
    method Broadcast(msg: Message, failed: set<string>) returns (order: seq<string>, sent: seq<Post>)
      modifies this
      ensures IsEnumeration(order, old(connections).Keys)
      ensures sent == Deliveries(order, failed, msg)
      ensures connections == old(connections) - failed
      ensures incidents == old(incidents)
    {
      var live;
      order, sent, live := PostToAll(connections, msg, failed);
      connections := live;
    }

    /**
     * user/CrearReporte.py: store the incident, ask Airflow to process it and,
     * when Airflow accepts, broadcast it to every connection. The incident
     * stays stored when Airflow refuses; nothing is stored when the body is
     * refused or the store fails. `wsUp` says whether send_ws_message gets as
     * far as its posts: `WS_URL` is set and the scan of the connections
     * answers; when it does not, the stored incident stays and the reply is
     * 500.
     */
    method CreateIncident(raw: RawBody, uuid: string, storeUp: bool, airflow: Option<int>, wsUp: bool, failed: set<string>)
      returns (r: Reply<string>, order: seq<string>, sent: seq<Post>)
      modifies this
      ensures ReadIncident(raw, uuid).Err? ==>
        r == ReadIncident(raw, uuid).error && incidents == old(incidents) && connections == old(connections) && sent == []
      ensures ReadIncident(raw, uuid).Ok? && !storeUp ==>
        r == Failure(500, Raised("")) && incidents == old(incidents) && connections == old(connections) && sent == []
      ensures ReadIncident(raw, uuid).Ok? && storeUp ==>
        incidents == old(incidents)[uuid := ReadIncident(raw, uuid).value]
      ensures ReadIncident(raw, uuid).Ok? && storeUp && !AirflowAccepted(airflow) ==>
        && r == Failure(500, Raised(if airflow.Some? then AirflowError else ""))
        && connections == old(connections) && sent == []
      ensures ReadIncident(raw, uuid).Ok? && storeUp && AirflowAccepted(airflow) && !wsUp ==>
        r == Failure(500, Raised("")) && connections == old(connections) && sent == []
      ensures ReadIncident(raw, uuid).Ok? && storeUp && AirflowAccepted(airflow) && wsUp ==>
        && r == Success(200, IncidentCreated, uuid)
        && IsEnumeration(order, old(connections).Keys)
        && sent == Deliveries(order, failed, NewIncident(ReadIncident(raw, uuid).value))
        && connections == old(connections) - failed
      ensures r.Success? <==> ReadIncident(raw, uuid).Ok? && storeUp && AirflowAccepted(airflow) && wsUp
    {
      order, sent := [], [];
      var read := ReadIncident(raw, uuid);
      if read.Err? {
        return read.error, order, sent;
      }
      if !storeUp {
        return Failure(500, Raised("")), order, sent;
      }
      incidents := incidents[uuid := read.value];
      if airflow.None? {
        return Failure(500, Raised("")), order, sent;
      }
      if !AirflowAccepted(airflow) {
        return Failure(500, Raised(AirflowError)), order, sent;
      }
      if !wsUp {
        return Failure(500, Raised("")), order, sent;
      }
      order, sent := Broadcast(NewIncident(read.value), failed);
      r := Success(200, IncidentCreated, uuid);
    }

    /**
     * socket/default.py: getIncidents answers the sender with every stored
     * incident, unless one of them holds a number, whose json.dumps raises;
     * nuevoReporte broadcasts its data, pruning the connections
     * that fail; any other action answers the sender with an error message.
     * A post to the sender that raises, or a body that cannot be read, makes
     * the handler answer 500.
     */
    method Dispatch(sender: string, raw: RawBody, failed: set<string>) returns (status: int, order: seq<string>, sent: seq<Post>)
      modifies this
      ensures incidents == old(incidents)
      ensures status in {200, 500}
      ensures RouteOf(raw) == BadBody ==> status == 500 && sent == [] && connections == old(connections)
      ensures RouteOf(raw) == GetIncidents ==>
        && connections == old(connections)
        && IsEnumeration(order, old(incidents).Keys)
        && (sender in failed || !Dumpable(ValuesInOrder(order, old(incidents))) ==> status == 500 && sent == [])
        && (sender !in failed && Dumpable(ValuesInOrder(order, old(incidents))) ==>
              status == 200 && sent == [Post(sender, IncidentsList(ValuesInOrder(order, old(incidents))))])
      ensures RouteOf(raw).NewReport? ==>
        && status == 200
        && IsEnumeration(order, old(connections).Keys)
        && sent == Deliveries(order, failed, NuevoReporte(RouteOf(raw).data))
        && connections == old(connections) - failed
      ensures RouteOf(raw) == Unknown ==>
        && connections == old(connections)
        && (sender in failed ==> status == 500 && sent == [])
        && (sender !in failed ==> status == 200 && sent == [Post(sender, ErrorMessage(UnknownAction))])
    {
      order, sent := [], [];
      var route := RouteOf(raw);
      match route
      case BadBody =>
        status := 500;
      case GetIncidents =>
        order := ScanKeys(incidents);
        var list := ValuesInOrder(order, incidents);
        if sender in failed || !Dumpable(list) {
          status := 500;
        } else {
          status := 200;
          sent := [Post(sender, IncidentsList(list))];
        }
      case NewReport(data) =>
        order, sent := Broadcast(NuevoReporte(data), failed);
        status := 200;
      case Unknown =>
        if sender in failed {
          status := 500;
        } else {
          status := 200;
          sent := [Post(sender, ErrorMessage(UnknownAction))];
        }
    }

    /**
     * socket/disconnect.py: forget the connection, then tell every remaining
     * connection who left and who is still there. A post that fails is only
     * logged: no connection is pruned. When the get_item or the delete_item
     * fails (`storeUp` false) the handler answers 500 before changing
     * anything; when only the scan that follows the delete fails (`scanUp`
     * false) it answers 500 with the connection already gone.
     */
    method Disconnect(id: string, storeUp: bool, scanUp: bool, noticeFails: set<string>, listFails: set<string>)
      returns (status: int, username: string, order: seq<string>, sent: seq<Post>)
      modifies this
      ensures incidents == old(incidents)
      ensures !storeUp ==> status == 500 && connections == old(connections) && sent == []
      ensures storeUp && !scanUp ==> status == 500 && connections == old(connections) - {id} && sent == []
      ensures storeUp && scanUp ==>
        && status == 200
        && username == (if id in old(connections) then old(connections)[id] else Anonymous)
        && connections == old(connections) - {id}
        && IsEnumeration(order, connections.Keys)
        && sent == Farewells(order, Notification(username + LeftSuffix), UserList(ValuesInOrder(order, connections)), noticeFails, listFails)
    {
      order, sent := [], [];
      username := "";
      if !storeUp {
        return 500, username, order, sent;
      }
      username := if id in connections then connections[id] else Anonymous;
      connections := connections - {id};
      if !scanUp {
        return 500, username, order, sent;
      }
      order := ScanKeys(connections);
      sent := PostFarewells(order, Notification(username + LeftSuffix), UserList(ValuesInOrder(order, connections)), noticeFails, listFails);
      status := 200;
    }
  }

  /** The user list a disconnect sends names exactly the remaining connections, the one that left not among them. */
  lemma {:induction false} UserListOfRemaining(connections: map<string, string>, id: string, order: seq<string>)
    requires IsEnumeration(order, (connections - {id}).Keys)
    ensures id !in order
    ensures forall i :: 0 <= i < |order| ==> order[i] in connections - {id}
    ensures |ValuesInOrder(order, connections - {id})| == |connections - {id}|
  {
    var rest := connections - {id};
    assert forall i :: 0 <= i < |order| ==> order[i] in rest;
    assert |order| == |rest| by {
      EnumerationSize(order, rest.Keys);
    }
  }

  /** An enumeration of a set is as long as the set has elements. */
  lemma {:induction false} EnumerationSize<K>(order: seq<K>, keys: set<K>)
    requires IsEnumeration(order, keys)
    ensures |order| == |keys|
    decreases |order|
  {
    if order == [] {
      assert keys == {};
    } else {
      var last := order[|order| - 1];
      var front := order[..|order| - 1];
      assert IsEnumeration(front, keys - {last}) by {
        forall k | k in keys - {last} ensures k in front {
          var i :| 0 <= i < |order| && order[i] == k;
        }
      }
      EnumerationSize(front, keys - {last});
    }
  }
}
