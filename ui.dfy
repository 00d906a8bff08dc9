/**
 * What a handler does to the browser besides changing state: the `alert`s it
 * raises, in order, and the route it navigates to; and the route parameter
 * `:id` of the edit forms.
 */
module Ui {
  import opened Wrappers
  import opened Js
  import opened Storage

  datatype Effects = Effects(alerts: seq<string>, navigation: Option<string>)

  /** Nothing visible happens. */
  const Quiet := Effects([], None)

  function Alert(text: string): Effects {
    Effects([text], None)
  }

  function AlertAndGo(text: string, target: string): Effects {
    Effects([text], Some(target))
  }

  /** `Boolean(id)` for the optional route parameter `:id`. */
  predicate IsEdit(id: Option<string>) {
    id.Some? && id.value != ""
  }

  /** `Number(id)`. */
  function RouteNumber(id: Option<string>): JsVal {
    if id.Some? then ToNumber(Str(id.value)) else NaN
  }

  datatype Screen = PermissionDenied | FormScreen

  /** What an edit form renders: a non-admin gets the "Permisos
      insuficientes" view instead of the form. */
  function ScreenFor(me: JsVal): (r: Screen)
    ensures r == PermissionDenied <==> !IsAdmin(me)
  {
    if IsAdmin(me) then FormScreen else PermissionDenied
  }
}
