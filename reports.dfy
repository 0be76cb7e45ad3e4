/**
 * The report handlers of the REST API over the reports table, whose key is
 * the pair (tenant_id, uuid): CrearReporte.py creates a report,
 * EliminarReporte.py deletes one, admin/ObtenerReporte.py reads one and
 * admin/ListarReportes.py lists a tenant's reports. The table is a map from
 * keys to records; create and delete are methods of the table, get and list
 * are functions of it, which they only read. Whether the store answers is a
 * parameter (`storeUp`), and so is the uuid a create draws.
 */
module Reports {
  import opened Common
  import opened Text

  const RequiredReportFields: seq<string> :=
    ["tenant_id", "tipo_incidente", "nivel_urgencia", "ubicacion", "tipo_usuario", "descripcion"]
  const DefaultTenant := "utec"

  const NoBody := "No se recibió 'body' en el evento."
  const MissingFieldsPrefix := "Faltan campos obligatorios: "
  const StoreFailurePrefix := "Error al guardar el reporte en DynamoDB: "
  const ReportCreated := "Reporte creado"
  const UuidRequired := "Debe enviar uuid en la ruta /reporte/{uuid}"
  const TenantRequired := "Debe enviar tenant_id como query param."
  const ReportNotFound := "El reporte no existe"
  const ReportNotFoundForTenant := "El reporte no existe o no pertenece al tenant."
  const ReportDeleted := "Reporte eliminado correctamente"
  const ReportFound := "Reporte encontrado"
  const ReportsListed := "Reportes obtenidos correctamente"

  /** A row of the reports table: its key attributes and the five values the body supplied. */
  datatype Report = Report(
    tenantId: string,
    uuid: string,
    tipoIncidente: Json,
    nivelUrgencia: Json,
    ubicacion: Json,
    tipoUsuario: Json,
    descripcion: Json)

  /** (tenant_id, uuid): the hash key and the range key. */
  type Key = (string, string)

  type ReportMap = map<Key, Report>

  /** Every row is stored under its own tenant and uuid. */
  predicate KeyedByTenantAndUuid(t: ReportMap) {
    forall k :: k in t ==> t[k].tenantId == k.0 && t[k].uuid == k.1
  }

  /**
   * Lines 22-28 of CrearReporte.py: the body as a decoded value. A string is
   * decoded (a decoding error is a ValueError, hence a 400); a body that is
   * missing or None is refused with the handler's own ValueError.
   */
  function DecodeReportBody(raw: RawBody): (r: Result<Json, Cause>)
    ensures r.Ok? ==> r.value != JNull
    ensures r == Err(Message(NoBody)) <==> raw == Absent || raw == Value(JNull) || raw == Text(Some(JNull))
    ensures r == Err(Raised("")) <==> raw == Text(None)
    ensures raw.Value? && raw.value != JNull ==> r == Ok(raw.value)
    ensures raw.Text? && raw.decoded.Some? && raw.decoded.value != JNull ==> r == Ok(raw.decoded.value)
  {
    match raw
    case Absent => Err(Message(NoBody))
    case Text(None) => Err(Raised(""))
    case Text(Some(v)) => if v == JNull then Err(Message(NoBody)) else Ok(v)
    case Value(v) => if v == JNull then Err(Message(NoBody)) else Ok(v)
  }

  /**
   * The record holds a number: read back from the table it carries a
   * Decimal, and the handlers that dump it as JSON raise.
   */
  predicate ReportHoldsNumber(x: Report) {
    || HoldsNumber(x.tipoIncidente) || HoldsNumber(x.nivelUrgencia) || HoldsNumber(x.ubicacion)
    || HoldsNumber(x.tipoUsuario) || HoldsNumber(x.descripcion)
  }

  /** Every record of the set can be dumped as JSON. */
  predicate Printable(s: set<Report>) {
    forall x :: x in s ==> !ReportHoldsNumber(x)
  }

  /** A value DynamoDB accepts as a string key attribute: a non-empty string. */
  predicate ValidKeyAttribute(v: Json) {
    v.JString? && v.str != ""
  }

  /** The body holds all six required fields as keys of a dict. */
  predicate Complete(body: Json) {
    && body.JObject?
    && "tenant_id" in body.fields && "tipo_incidente" in body.fields && "nivel_urgencia" in body.fields
    && "ubicacion" in body.fields && "tipo_usuario" in body.fields && "descripcion" in body.fields
  }

  /** On a dict, validation finds nothing missing exactly when all six fields are keys. */
  lemma {:induction false} CompleteIffNoneMissing(body: Json)
    requires body.JObject?
    ensures Missing(body, RequiredReportFields) == Some([]) <==> Complete(body)
  {
    var m := Missing(body, RequiredReportFields);
    if m == Some([]) {
      forall i | 0 <= i < |RequiredReportFields| ensures RequiredReportFields[i] in body.fields {
        assert RequiredReportFields[i] !in m.value;
      }
    }
  }

  /**
   * CrearReporte.py: the reply for a body, the uuid it draws and whether the
   * store accepts the put. The reply does not depend on the table: put_item
   * writes whatever key it is given.
   */
  function CreateReply(raw: RawBody, uuid: string, storeUp: bool): (r: Reply<Report>)
    ensures r.status in {200, 400, 500}
    ensures DecodeReportBody(raw).Err? ==> r == Failure(400, DecodeReportBody(raw).error)
    ensures DecodeReportBody(raw).Ok? ==>
      var body := DecodeReportBody(raw).value;
      var missing := Missing(body, RequiredReportFields);
      && (missing.None? ==> r == Failure(500, Raised("")))
      && (missing.Some? && missing.value != [] ==>
            r == Failure(400, Message(MissingFieldsPrefix + Join(missing.value, ", "))))
      && (missing == Some([]) && !body.JObject? ==> r == Failure(500, Raised("")))
    ensures r.Success? <==>
      && DecodeReportBody(raw).Ok?
      && Complete(DecodeReportBody(raw).value)
      && ValidKeyAttribute(DecodeReportBody(raw).value.fields["tenant_id"])
      && storeUp
    ensures DecodeReportBody(raw).Ok? && Complete(DecodeReportBody(raw).value) && !r.Success? ==>
      r == Failure(400, Raised(StoreFailurePrefix))
    ensures r.Success? ==>
      var fields := DecodeReportBody(raw).value.fields;
      && r.mensaje == ReportCreated
      && r.value.tenantId == fields["tenant_id"].str && r.value.uuid == uuid
      && r.value.tipoIncidente == fields["tipo_incidente"]
      && r.value.nivelUrgencia == fields["nivel_urgencia"]
      && r.value.ubicacion == fields["ubicacion"]
      && r.value.tipoUsuario == fields["tipo_usuario"]
      && r.value.descripcion == fields["descripcion"]
  {
    match DecodeReportBody(raw)
    case Err(cause) => Failure(400, cause)
    case Ok(body) =>
      match Missing(body, RequiredReportFields)
      case None => Failure(500, Raised(""))
      case Some(missing) =>
        if missing != [] then Failure(400, Message(MissingFieldsPrefix + Join(missing, ", ")))
        else if !body.JObject? then Failure(500, Raised(""))
        else
          CompleteIffNoneMissing(body);
          var fields := body.fields;
          var tenant := fields["tenant_id"];
          if !ValidKeyAttribute(tenant) || !storeUp then Failure(400, Raised(StoreFailurePrefix))
          else
            Success(200, ReportCreated, Report(tenant.str, uuid, fields["tipo_incidente"], fields["nivel_urgencia"],
                                               fields["ubicacion"], fields["tipo_usuario"], fields["descripcion"]))
  }

  /** Lines 8-12 of EliminarReporte.py: the key a delete asks for; None when the uuid is missing or empty. */
  function DeleteKey(query: EventParams, path: EventParams): (r: Option<Key>)
    ensures r.None? <==> !Truthy(Param(OrEmpty(path), "uuid"))
    ensures r.Some? ==> r.value.1 == OrEmpty(path)["uuid"] && r.value.1 != ""
    ensures r.Some? ==> r.value.0 != ""
    ensures r.Some? && !Truthy(Param(OrEmpty(query), "tenant_id")) ==> r.value.0 == DefaultTenant
    ensures r.Some? && Truthy(Param(OrEmpty(query), "tenant_id")) ==> r.value.0 == OrEmpty(query)["tenant_id"]
  {
    var tenant := Param(OrEmpty(query), "tenant_id");
    var uuid := Param(OrEmpty(path), "uuid");
    if !Truthy(uuid) then None
    else Some((if Truthy(tenant) then tenant.value else DefaultTenant, uuid.value))
  }

  /** EliminarReporte.py: the reply a delete gives against the table as it stands. */
  function DeleteReply(reports: ReportMap, query: EventParams, path: EventParams, storeUp: bool): (r: Reply<string>)
    ensures r.status in {200, 400, 404, 500}
    ensures r.status == 400 <==> DeleteKey(query, path).None?
    ensures r == Failure(400, Message(UuidRequired)) <==> DeleteKey(query, path).None?
    ensures r.status == 500 <==> DeleteKey(query, path).Some? && !storeUp
    ensures r.status == 404 <==> DeleteKey(query, path).Some? && storeUp && DeleteKey(query, path).value !in reports
    ensures r.Success? <==> DeleteKey(query, path).Some? && storeUp && DeleteKey(query, path).value in reports
    ensures r.Success? ==> r == Success(200, ReportDeleted, DeleteKey(query, path).value.1)
  {
    match DeleteKey(query, path)
    case None => Failure(400, Message(UuidRequired))
    case Some(key) =>
      if !storeUp then Failure(500, Raised(""))
      else if key !in reports then Failure(404, Message(ReportNotFound))
      else Success(200, ReportDeleted, key.1)
  }

  /** Lines 14-22 of admin/ObtenerReporte.py: the key a get asks for, or the error it raises. */
  function GetKey(query: EventParams, path: EventParams): (r: Result<Key, Cause>)
    ensures query.NullEntry? ==> r == Err(Raised(""))
    ensures !query.NullEntry? && !Truthy(Param(GetOrEmpty(query).value, "tenant_id")) ==> r == Err(Message(TenantRequired))
    ensures
      !query.NullEntry? && Truthy(Param(GetOrEmpty(query).value, "tenant_id")) && !Truthy(Param(OrEmpty(path), "uuid")) ==>
        r == Err(Message(UuidRequired))
    ensures r.Ok? <==> query.Entries? && Truthy(Param(query.entries, "tenant_id")) && Truthy(Param(OrEmpty(path), "uuid"))
    ensures r.Ok? ==> r.value == (query.entries["tenant_id"], OrEmpty(path)["uuid"])
  {
    match GetOrEmpty(query)
    case None => Err(Raised(""))
    case Some(q) =>
      var tenant := Param(q, "tenant_id");
      var uuid := Param(OrEmpty(path), "uuid");
      if !Truthy(tenant) then Err(Message(TenantRequired))
      else if !Truthy(uuid) then Err(Message(UuidRequired))
      else Ok((tenant.value, uuid.value))
  }

  /**
   * admin/ObtenerReporte.py: the stored record under the key, or 400 for
   * every error, a key stored only under another tenant included, and a
   * record holding a number, whose json.dumps raises.
   */
  function GetReport(reports: ReportMap, query: EventParams, path: EventParams, storeUp: bool): (r: Reply<Report>)
    ensures r.status in {200, 400}
    ensures GetKey(query, path).Err? ==> r == Failure(400, GetKey(query, path).error)
    ensures GetKey(query, path).Ok? && !storeUp ==> r == Failure(400, Raised(""))
    ensures GetKey(query, path).Ok? && storeUp && GetKey(query, path).value !in reports ==>
      r == Failure(400, Message(ReportNotFoundForTenant))
    ensures
      GetKey(query, path).Ok? && storeUp && GetKey(query, path).value in reports
      && ReportHoldsNumber(reports[GetKey(query, path).value]) ==>
        r == Failure(400, Raised(""))
    ensures r.Success? <==>
      && GetKey(query, path).Ok? && storeUp && GetKey(query, path).value in reports
      && !ReportHoldsNumber(reports[GetKey(query, path).value])
    ensures r.Success? ==> r == Success(200, ReportFound, reports[GetKey(query, path).value])
  {
    match GetKey(query, path)
    case Err(cause) => Failure(400, cause)
    case Ok(key) =>
      if !storeUp then Failure(400, Raised(""))
      else if key !in reports then Failure(400, Message(ReportNotFoundForTenant))
      else if ReportHoldsNumber(reports[key]) then Failure(400, Raised(""))
      else Success(200, ReportFound, reports[key])
  }

  /**
   * The records of one tenant: what a query on the hash key returns, kept
   * as a set (the query returns them sorted by uuid; see README).
   */
  function OfTenant(reports: ReportMap, tenant: string): (s: set<Report>)
    ensures forall k :: k in reports && k.0 == tenant ==> reports[k] in s
    ensures forall x :: x in s ==> exists k :: k in reports && k.0 == tenant && reports[k] == x
  {
    set k | k in reports && k.0 == tenant :: reports[k]
  }

  /**
   * admin/ListarReportes.py: the records of the requested tenant, or 400 for
   * every error, one of them a record holding a number, whose json.dumps
   * raises.
   */
  function ListReports(reports: ReportMap, query: EventParams, storeUp: bool): (r: Reply<set<Report>>)
    ensures r.status in {200, 400}
    ensures query.NullEntry? ==> r == Failure(400, Raised(""))
    ensures !query.NullEntry? && !Truthy(Param(GetOrEmpty(query).value, "tenant_id")) ==>
      r == Failure(400, Message(TenantRequired))
    ensures
      query.Entries? && Truthy(Param(query.entries, "tenant_id")) && storeUp
      && !Printable(OfTenant(reports, query.entries["tenant_id"])) ==>
        r == Failure(400, Raised(""))
    ensures r.Success? <==>
      query.Entries? && Truthy(Param(query.entries, "tenant_id")) && storeUp
      && Printable(OfTenant(reports, query.entries["tenant_id"]))
    ensures r.Success? ==>
      && r.mensaje == ReportsListed
      && r.value == OfTenant(reports, query.entries["tenant_id"])
  {
    match GetOrEmpty(query)
    case None => Failure(400, Raised(""))
    case Some(q) =>
      var tenant := Param(q, "tenant_id");
      if !Truthy(tenant) then Failure(400, Message(TenantRequired))
      else if !storeUp then Failure(400, Raised(""))
      else if !Printable(OfTenant(reports, tenant.value)) then Failure(400, Raised(""))
      else Success(200, ReportsListed, OfTenant(reports, tenant.value))
  }

  /** The reports table of CrearReporte.py and EliminarReporte.py. */
  class ReportTable {
    var reports: ReportMap

    constructor ()
      ensures reports == map[]
    {
      reports := map[];
    }

    /**
     * CrearReporte.py: on success, put the record under its tenant and uuid;
     * on any error the table is unchanged.
     */
    method Create(raw: RawBody, uuid: string, storeUp: bool) returns (r: Reply<Report>)
      modifies this
      ensures r == CreateReply(raw, uuid, storeUp)
      ensures r.Success? ==> reports == old(reports)[(r.value.tenantId, uuid) := r.value]
      ensures r.Failure? ==> reports == old(reports)
      ensures KeyedByTenantAndUuid(old(reports)) ==> KeyedByTenantAndUuid(reports)
    {
      r := CreateReply(raw, uuid, storeUp);
      if r.Success? {
        reports := reports[(r.value.tenantId, uuid) := r.value];
      }
    }

    /**
     * EliminarReporte.py: on a 200 exactly the requested key is removed;
     * on any other reply the table is unchanged.
     */
    method Delete(query: EventParams, path: EventParams, storeUp: bool) returns (r: Reply<string>)
      modifies this
      ensures r == DeleteReply(old(reports), query, path, storeUp)
      ensures r.Success? ==> reports == old(reports) - {DeleteKey(query, path).value}
      ensures r.Failure? ==> reports == old(reports)
      ensures KeyedByTenantAndUuid(old(reports)) ==> KeyedByTenantAndUuid(reports)
    {
      r := DeleteReply(reports, query, path, storeUp);
      if r.Success? {
        reports := reports - {DeleteKey(query, path).value};
      }
    }
  }

  /** A tenant's list holds exactly the stored records that carry that tenant. */
  lemma {:induction false} ListIsExactlyTenant(reports: ReportMap, tenant: string)
    requires KeyedByTenantAndUuid(reports)
    ensures forall x :: x in OfTenant(reports, tenant) <==> x in reports.Values && x.tenantId == tenant
  {
    forall x | x in reports.Values && x.tenantId == tenant ensures x in OfTenant(reports, tenant) {
      var k :| k in reports && reports[k] == x;
    }
  }

  /** A tenant with no records gets 200 and an empty list. */
  lemma {:induction false} EmptyTenantListsNothing(reports: ReportMap, tenant: string)
    requires tenant != ""
    requires forall k :: k in reports ==> k.0 != tenant
    ensures ListReports(reports, Entries(map["tenant_id" := tenant]), true) == Success(200, ReportsListed, {})
  {
    assert OfTenant(reports, tenant) == {};
  }

  /** Presence is a key test only: empty strings in every field other than the key pass validation. */
  lemma {:induction false} EmptyValuesPass(tenant: string, uuid: string)
    requires tenant != ""
    ensures
      var body := JObject(map["tenant_id" := JString(tenant), "tipo_incidente" := JString(""),
                              "nivel_urgencia" := JString(""), "ubicacion" := JString(""),
                              "tipo_usuario" := JString(""), "descripcion" := JString("")]);
      CreateReply(Value(body), uuid, true).Success?
  {
    var body := JObject(map["tenant_id" := JString(tenant), "tipo_incidente" := JString(""),
                            "nivel_urgencia" := JString(""), "ubicacion" := JString(""),
                            "tipo_usuario" := JString(""), "descripcion" := JString("")]);
    assert Complete(body);
  }

  /**
   * A report is only ever handed to its own tenant: on a table whose rows sit
   * under their own key, a found record carries the tenant and uuid asked for.
   */
  lemma {:induction false} GetIsTenantScoped(reports: ReportMap, query: EventParams, path: EventParams, storeUp: bool)
    requires KeyedByTenantAndUuid(reports)
    requires GetReport(reports, query, path, storeUp).Success?
    ensures var found := GetReport(reports, query, path, storeUp).value;
      found.tenantId == query.entries["tenant_id"] && found.uuid == OrEmpty(path)["uuid"]
  {
  }

  /**
   * Whatever a get finds is among the same tenant's records, and so in its
   * list whenever the list can be dumped.
   */
  lemma {:induction false} GetAgreesWithList(reports: ReportMap, query: EventParams, path: EventParams)
    requires GetReport(reports, query, path, true).Success?
    ensures GetReport(reports, query, path, true).value in OfTenant(reports, query.entries["tenant_id"])
    ensures ListReports(reports, query, true).Success? ==>
      GetReport(reports, query, path, true).value in ListReports(reports, query, true).value
  {
    var key := GetKey(query, path).value;
    assert key in reports && key.0 == query.entries["tenant_id"];
  }

  /**
   * Create and get round trip: once a create succeeds, a get with its
   * tenant and uuid returns exactly the record the create answered with,
   * unless that record holds a number, which the get can never dump.
   */
  lemma {:induction false} CreateThenGet(reports: ReportMap, raw: RawBody, uuid: string)
    requires CreateReply(raw, uuid, true).Success?
    ensures
      var made := CreateReply(raw, uuid, true).value;
      var query, path := Entries(map["tenant_id" := made.tenantId]), Entries(map["uuid" := uuid]);
      uuid != "" ==>
        GetReport(reports[(made.tenantId, uuid) := made], query, path, true)
          == if ReportHoldsNumber(made) then Failure(400, Raised("")) else Success(200, ReportFound, made)
  {
    var made := CreateReply(raw, uuid, true).value;
    var query, path := Entries(map["tenant_id" := made.tenantId]), Entries(map["uuid" := uuid]);
    if uuid != "" {
      assert GetKey(query, path) == Ok((made.tenantId, uuid));
    }
  }

  /**
   * A created record is among its tenant's records and shows up in the
   * tenant's list whenever that list can be dumped; a record holding a
   * number makes the list fail for the whole tenant.
   */
  lemma {:induction false} CreateThenList(reports: ReportMap, raw: RawBody, uuid: string)
    requires CreateReply(raw, uuid, true).Success?
    ensures
      var made := CreateReply(raw, uuid, true).value;
      var after := ListReports(reports[(made.tenantId, uuid) := made], Entries(map["tenant_id" := made.tenantId]), true);
      && made in OfTenant(reports[(made.tenantId, uuid) := made], made.tenantId)
      && (after.Success? ==> made in after.value)
      && (ReportHoldsNumber(made) ==> after == Failure(400, Raised("")))
  {
    var made := CreateReply(raw, uuid, true).value;
    var t := reports[(made.tenantId, uuid) := made];
    assert (made.tenantId, uuid) in t;
    assert made in OfTenant(t, made.tenantId);
  }

  /**
   * A report whose urgency arrives as a number is accepted and stored, but
   * every later get of it answers 400: the stored Decimal cannot be dumped.
   */
  lemma {:induction false} NumericUrgencyUnreadable(reports: ReportMap, tenant: string, uuid: string, urgency: int)
    requires tenant != "" && uuid != ""
    ensures
      var body := JObject(map["tenant_id" := JString(tenant), "tipo_incidente" := JString("robo"),
                              "nivel_urgencia" := JNumber(urgency), "ubicacion" := JString("aula"),
                              "tipo_usuario" := JString("alumno"), "descripcion" := JString("-")]);
      var made := CreateReply(Value(body), uuid, true);
      && made.Success?
      && GetReport(reports[(tenant, uuid) := made.value], Entries(map["tenant_id" := tenant]),
                   Entries(map["uuid" := uuid]), true) == Failure(400, Raised(""))
  {
    var body := JObject(map["tenant_id" := JString(tenant), "tipo_incidente" := JString("robo"),
                            "nivel_urgencia" := JNumber(urgency), "ubicacion" := JString("aula"),
                            "tipo_usuario" := JString("alumno"), "descripcion" := JString("-")]);
    assert Complete(body);
    var made := CreateReply(Value(body), uuid, true).value;
    assert made.tenantId == tenant && ReportHoldsNumber(made);
    CreateThenGet(reports, Value(body), uuid);
  }

  /** Deleting the same key twice: the first call answers 200, the second 404. */
  lemma {:induction false} DeleteTwice(reports: ReportMap, query: EventParams, path: EventParams)
    requires DeleteReply(reports, query, path, true).Success?
    ensures DeleteReply(reports - {DeleteKey(query, path).value}, query, path, true) == Failure(404, Message(ReportNotFound))
  {
  }

  /** After a delete, a get of the deleted key finds nothing. */
  lemma {:induction false} DeleteThenGet(reports: ReportMap, query: EventParams, path: EventParams)
    requires DeleteReply(reports, query, path, true).Success?
    requires GetKey(query, path).Ok?
    ensures GetReport(reports - {DeleteKey(query, path).value}, query, path, true) == Failure(400, Message(ReportNotFoundForTenant))
  {
    assert GetKey(query, path).value == DeleteKey(query, path).value;
  }

  /** Deleting removes the record from every list, and leaves every other record listed as before. */
  lemma {:induction false} DeleteThenList(reports: ReportMap, query: EventParams, path: EventParams, tenant: string)
    requires KeyedByTenantAndUuid(reports)
    requires DeleteReply(reports, query, path, true).Success?
    ensures
      var key := DeleteKey(query, path).value;
      OfTenant(reports - {key}, tenant) == OfTenant(reports, tenant) - {reports[key]}
  {
    var key := DeleteKey(query, path).value;
    var after := reports - {key};
    ListIsExactlyTenant(reports, tenant);
    forall x | x in OfTenant(after, tenant) ensures x != reports[key] {
      var k :| k in after && k.0 == tenant && after[k] == x;
    }
    forall x | x in OfTenant(reports, tenant) && x != reports[key] ensures x in OfTenant(after, tenant) {
      var k :| k in reports && k.0 == tenant && reports[k] == x;
      assert k != key;
    }
  }
}
