/**
 * The two route guards whose source is part of the model: the admin guard
 * that reads the stored user, and the private-route guard that reads the
 * in-memory user.
 */
module Guards {
  import opened Wrappers
  import opened Js
  import opened Storage

  /** `<Outlet />`, or `<Navigate to={target} replace={replace} />`. */
  datatype Decision = Allow | Redirect(target: string, replace: bool)

  /** `AdminRoute()`: only the "user" slot is read, never the token. */
  function AdminRoute(userSlot: Option<JsVal>): (d: Decision)
    ensures var u := ReadStoredUser(userSlot);
            && (!Truthy(u) ==> d == Redirect("/inicio-sesion", true))
            && (Truthy(u) && Get(u, "role") == Str("admin") ==> d == Allow)
            && (Truthy(u) && Get(u, "role") != Str("admin") ==> d == Redirect("/", true))
  {
    var u := ReadStoredUser(userSlot);
    if !Truthy(u) then Redirect("/inicio-sesion", true)
    else if StrictEq(Get(u, "role"), Str("admin")) then Allow
    else Redirect("/", true)
  }

  /** The admin guard and the views disagree on the synonym `rol`: a stored
      user whose only admin marker is `rol` is an admin for the views and is
      sent home by the guard. */
  lemma RolAloneIsRefusedByGuard(u: JsVal)
    requires u.Obj? && Get(u, "rol") == Str("admin") && Get(u, "role") != Str("admin")
    ensures IsAdmin(u)
    ensures AdminRoute(Some(u)) == Redirect("/", true)
  {
  }

  /** The guard never looks at the token: any two stored users that agree on
      truthiness and on `role === "admin"` get the same decision. */
  lemma AdminRouteReadsOnlyRole(a: JsVal, b: JsVal)
    requires Truthy(a) == Truthy(b)
    requires (Get(a, "role") == Str("admin")) == (Get(b, "role") == Str("admin"))
    ensures AdminRoute(Some(a)) == AdminRoute(Some(b))
  {
  }

  /** `PrivateRoute()`: any truthy user passes whatever its role; otherwise
      the redirect goes to "/login", not to the "/inicio-sesion" used
      everywhere else. */
  function PrivateRoute(user: JsVal): (d: Decision)
    ensures d == Allow <==> Truthy(user)
    ensures d != Allow ==> d == Redirect("/login", true)
  {
    if Truthy(user) then Allow else Redirect("/login", true)
  }
}
