/**
 * The dashboard of the admin front-end (front_admin/src/pages/App.tsx): the
 * tenant's report list loaded over REST, the selected report, its deletion,
 * and the colour given to an urgency level. React state is the fields of a
 * class; each handler is a method that updates them, and each REST call is
 * a parameter holding what `fetch` and `resp.json()` gave.
 */
module FrontAdmin {
  import opened Common
  import opened Browser
  import opened Text

  const RedStyle := "text-red-700 bg-red-100"
  const YellowStyle := "text-yellow-700 bg-yellow-100"
  const GreenStyle := "text-green-700 bg-green-100"
  const GrayStyle := "text-gray-700 bg-gray-100"

  /**
   * Lines 127-133, `getUrgenciaColor`: the style of an urgency level,
   * matched after lower-casing; gray for anything else, undefined and null
   * included. None when the value is neither a string nor null/undefined,
   * where `toLowerCase` is not a function and rendering throws.
   */
  function UrgencyStyle(urgencia: JsValue): (r: Option<string>)
    ensures urgencia == Undefined || urgencia == Null ==> r == Some(GrayStyle)
    ensures r.None? <==> urgencia.Val? && urgencia.json != JNull && !urgencia.json.JString?
    ensures r == Some(RedStyle) <==> urgencia.Val? && urgencia.json.JString? && Lower(urgencia.json.str) == "alta"
    ensures r == Some(YellowStyle) <==> urgencia.Val? && urgencia.json.JString? && Lower(urgencia.json.str) == "media"
    ensures r == Some(GreenStyle) <==> urgencia.Val? && urgencia.json.JString? && Lower(urgencia.json.str) == "baja"
    ensures r.Some? ==> r.value in {RedStyle, YellowStyle, GreenStyle, GrayStyle}
  {
    match urgencia
    case Undefined => Some(GrayStyle)
    case Val(JNull) => Some(GrayStyle)
    case Val(JString(s)) =>
      var level := Lower(s);
      if level == "alta" then Some(RedStyle)
      else if level == "media" then Some(YellowStyle)
      else if level == "baja" then Some(GreenStyle)
      else Some(GrayStyle)
    case Val(_) => None
  }

  /** The match ignores case: a level and its lower-cased form get the same style. */
  lemma {:induction false} UrgencyIgnoresCase(s: string)
    ensures UrgencyStyle(Val(JString(s))) == UrgencyStyle(Val(JString(Lower(s))))
  {
    LowerIdempotent(s);
  }

  /** An upper-case level is coloured like the lower-case one. */
  lemma {:induction false} UpperCaseAlta()
    ensures UrgencyStyle(Val(JString("ALTA"))) == Some(RedStyle)
  {
    LowerFacts("ALTA");
    assert Lower("ALTA") == "alta";
  }

  /**
   * Lines 42-48: what a list call leaves in `reportes`, `data.items || []`,
   * or the error the catch receives.
   */
  function ListResult(resp: Response): (r: Result<JsValue, ErrorText>)
    ensures r.Ok? <==> Checked(resp).Ok? && resp.json.value != JNull
    ensures r.Ok? ==> JsTruthy(r.value)
    ensures r.Ok? && !JsTruthy(OptionalProp(Val(resp.json.value), "items")) ==> r.value == EmptyArray
    ensures r.Ok? && JsTruthy(OptionalProp(Val(resp.json.value), "items")) ==> r.value == OptionalProp(Val(resp.json.value), "items")
    ensures Checked(resp).Err? ==> r == Checked(resp)
  {
    match Checked(resp)
    case Err(e) => Err(e)
    case Ok(data) =>
      match Prop(data, "items")
      case None => Err(EngineMessage)
      case Some(items) => Ok(Or(items, EmptyArray))
  }

  /** `selectedReporte?.uuid === uuid`. */
  predicate SelectedIs(selected: JsValue, uuid: string) {
    OptionalProp(selected, "uuid") == Val(JString(uuid))
  }

  /** The dashboard's state. */
  class Dashboard {
    var reportes: JsValue
    var loading: bool
    var error: ErrorText
    var selected: JsValue
    var showDetails: bool

    constructor ()
      ensures reportes == EmptyArray && !loading && error == NoError && selected == Null && !showDetails
    {
      reportes := EmptyArray;
      loading := false;
      error := NoError;
      selected := Null;
      showDetails := false;
    }

    /** The start of every call: loading on, error cleared, until the call settles. */
    method Begin()
      modifies this
      ensures loading && error == NoError
      ensures reportes == old(reportes) && selected == old(selected) && showDetails == old(showDetails)
    {
      loading := true;
      error := NoError;
    }

    /**
     * `fetchReportes`: the list is the response's items (or [] when it has
     * none); on any failure the list is emptied and the error set. The
     * selection is untouched and loading is off afterwards.
     */
    method FetchReportes(resp: Response)
      modifies this
      ensures !loading
      ensures ListResult(resp).Ok? ==> reportes == ListResult(resp).value && error == NoError
      ensures ListResult(resp).Err? ==> reportes == EmptyArray && error == ListResult(resp).error
      ensures selected == old(selected) && showDetails == old(showDetails)
    {
      Begin();
      match ListResult(resp) {
        case Ok(items) =>
          reportes := items;
        case Err(e) =>
          error := e;
          reportes := EmptyArray;
      }
      loading := false;
    }

    /**
     * `fetchReporteDetalle`: select the response's item and show it; on
     * failure only the error changes.
     */
    method FetchDetalle(resp: Response)
      modifies this
      ensures !loading && reportes == old(reportes)
      ensures Checked(resp).Ok? && resp.json.value != JNull ==>
        && selected == OptionalProp(Val(resp.json.value), "item") && showDetails && error == NoError
      ensures !(Checked(resp).Ok? && resp.json.value != JNull) ==>
        && selected == old(selected) && showDetails == old(showDetails)
        && error == (if Checked(resp).Err? then Checked(resp).error else EngineMessage)
    {
      Begin();
      match Checked(resp) {
        case Err(e) =>
          error := e;
        case Ok(data) =>
          match Prop(data, "item") {
            case None =>
              error := EngineMessage;
            case Some(item) =>
              selected := item;
              showDetails := true;
          }
      }
      loading := false;
    }

    /** The "Cerrar" button: deselect and hide the details. */
    method CloseDetails()
      modifies this
      ensures selected == Null && !showDetails
      ensures reportes == old(reportes) && loading == old(loading) && error == old(error)
    {
      selected := Null;
      showDetails := false;
    }

    /**
     * `handleEliminar`: nothing happens unless the admin confirms. A
     * refused delete sets the error and keeps the list and the selection.
     * An accepted one reloads the list, and clears the selection only when
     * it is the deleted report. Loading is off afterwards in every case.
     */
    method Eliminar(uuid: string, confirmed: bool, deletion: Response, reload: Response)
      modifies this
      ensures !confirmed ==>
        && reportes == old(reportes) && loading == old(loading) && error == old(error)
        && selected == old(selected) && showDetails == old(showDetails)
      ensures confirmed ==> !loading
      ensures confirmed && Checked(deletion).Err? ==>
        && error == Checked(deletion).error
        && reportes == old(reportes) && selected == old(selected) && showDetails == old(showDetails)
      ensures confirmed && Checked(deletion).Ok? ==>
        && (ListResult(reload).Ok? ==> reportes == ListResult(reload).value && error == NoError)
        && (ListResult(reload).Err? ==> reportes == EmptyArray && error == ListResult(reload).error)
        && (SelectedIs(old(selected), uuid) ==> selected == Null && !showDetails)
        && (!SelectedIs(old(selected), uuid) ==> selected == old(selected) && showDetails == old(showDetails))
    {
      if !confirmed {
        return;
      }
      Begin();
      var chosen := selected;
      match Checked(deletion) {
        case Err(e) =>
          error := e;
        case Ok(_) =>
          FetchReportes(reload);
          if SelectedIs(chosen, uuid) {
            selected := Null;
            showDetails := false;
          }
      }
      loading := false;
    }
  }

  /**
   * A refused call whose body names neither an error nor a message leaves
   * the error empty: the page shows no error although the call failed.
   */
  lemma SilentFailure()
    ensures Checked(Answer(false, Some(JObject(map[])))) == Err(NoError)
    ensures ListResult(Answer(false, Some(JObject(map[])))) == Err(NoError)
  {
  }

  /** A deleted report that is not the selected one leaves the details open. */
  lemma {:induction false} OtherSelectionSurvives(selected: Json, uuid: string)
    requires selected.JObject? && "uuid" in selected.fields && selected.fields["uuid"] != JString(uuid)
    ensures !SelectedIs(Val(selected), uuid)
  {
  }
}
