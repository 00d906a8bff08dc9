/**
 * Network outcomes as the model receives them: nothing is sent, each handler
 * is given what the request produced.
 */
module Net {
  import opened Wrappers
  import opened Js
  import opened Ui

  /** What an axios call made by a list store produced: the parsed
      `data`, or a rejection carrying `e?.response?.data?.error`
      (`Undefined` when the server sent none) and `e.message`. */
  datatype Reply = Ok(data: JsVal) | Failed(serverError: JsVal, message: string)

  /** What `fetch(...)` and then `res.json()` produced in the edit forms. */
  datatype FetchReply =
    | FetchThrew(message: string)
    | Fetched(status: int, body: JsonBody)

  datatype JsonBody = Parsed(value: JsVal) | Unreadable(message: string)

  /** The record an edit form loads from the backend, or the alert and the
      route it leaves for instead. */
  datatype Loaded = Loaded(data: JsVal) | Abandoned(effects: Effects)

  const SessionExpired := "Tu sesión expiró o no estás logueado."
  const AdminOnly := "No autorizado (solo admin)."
  /** The TypeError `data.name` raises on a body of JSON `null` (V8's wording). */
  const NullBodyMessage := "Cannot read properties of null (reading 'name')"

  /** `res.ok`. */
  predicate StatusOk(status: int) {
    200 <= status <= 299
  }

  /** The backend fallback of both edit forms: 401 sends the user to the login
      page, 403 and every other failure back to the list at `listPath`, and
      only a successful, readable, non-null body is loaded. */
  function LoadRecord(fetch: FetchReply, listPath: string, notFound: string): (r: Loaded)
    ensures fetch.Fetched? && fetch.status == 401 ==> r == Abandoned(AlertAndGo(SessionExpired, "/inicio-sesion"))
    ensures fetch.Fetched? && fetch.status == 403 ==> r == Abandoned(AlertAndGo(AdminOnly, listPath))
    ensures fetch.Fetched? && !StatusOk(fetch.status) && fetch.status != 401 && fetch.status != 403 ==>
              r == Abandoned(AlertAndGo(notFound, listPath))
    ensures r.Loaded? <==> fetch.Fetched? && StatusOk(fetch.status) && fetch.body.Parsed? && !Nullish(fetch.body.value)
    ensures r.Loaded? ==> r.data == fetch.body.value
    ensures fetch.FetchThrew? ==> r == Abandoned(AlertAndGo(fetch.message, listPath))
    ensures fetch.Fetched? && StatusOk(fetch.status) && fetch.body.Unreadable? ==>
              r == Abandoned(AlertAndGo(fetch.body.message, listPath))
    ensures fetch.Fetched? && StatusOk(fetch.status) && fetch.body.Parsed? && Nullish(fetch.body.value) ==>
              r == Abandoned(AlertAndGo(NullBodyMessage, listPath))
    ensures r.Abandoned? ==> |r.effects.alerts| == 1
    ensures r.Abandoned? && !(fetch.Fetched? && fetch.status == 401) ==> r.effects.navigation == Some(listPath)
  {
    match fetch
    case FetchThrew(msg) => Abandoned(AlertAndGo(msg, listPath))
    case Fetched(status, body) =>
      if status == 401 then Abandoned(AlertAndGo(SessionExpired, "/inicio-sesion"))
      else if status == 403 then Abandoned(AlertAndGo(AdminOnly, listPath))
      else if !StatusOk(status) then Abandoned(AlertAndGo(notFound, listPath))
      else
        match body
        case Unreadable(msg) => Abandoned(AlertAndGo(msg, listPath))
        case Parsed(v) =>
          if Nullish(v) then Abandoned(AlertAndGo(NullBodyMessage, listPath)) else Loaded(v)
  }
}
