/**
 * The route table of `App`: which guards wrap which class of paths. The
 * `PrivateRoute` and `PublicRoute` that the table imports (from `utils/`) are
 * not part of this model, so their decisions are parameters; the admin guard
 * is the one of the `Guards` module.
 */
module Routes {
  import opened Wrappers
  import opened Js
  import opened Storage
  import opened Guards
  import Auth

  datatype Page = Home | LoginForm | RegisterForm | Products | Users | Unmatched

  /** Which route of the table a path selects. */
  function Classify(path: string): Page {
    if path == "/" then Home
    else if path == "/inicio-sesion" then LoginForm
    else if path == "/registro" then RegisterForm
    else if path == "/productos" || "/productos/" <= path then Products
    else if path == "/usuarios" || "/usuarios/" <= path then Users
    else Unmatched
  }

  datatype Guard = PublicGuard | PrivateGuard | AdminGuard

  /** The layout routes around each page, outermost first. */
  function GuardsFor(p: Page): seq<Guard> {
    match p
    case Home => []
    case LoginForm => [PublicGuard]
    case RegisterForm => [PublicGuard]
    case Products => [PrivateGuard]
    case Users => [PrivateGuard, AdminGuard]
    case Unmatched => []
  }

  /** The first redirect of the guards, outermost first; `Allow` when all
      of them render their outlet. */
  function Resolve(gs: seq<Guard>, decide: Guard -> Decision): (d: Decision)
    ensures d == Allow <==> forall i :: 0 <= i < |gs| ==> decide(gs[i]) == Allow
    ensures d != Allow ==>
              exists i :: 0 <= i < |gs| && decide(gs[i]) == d && forall j :: 0 <= j < i ==> decide(gs[j]) == Allow
  {
    if gs == [] then Allow
    else if decide(gs[0]) != Allow then decide(gs[0])
    else Resolve(gs[1..], decide)
  }

  datatype Outcome = Render(page: Page) | Redirected(target: string, replace: bool)

  /** Navigating to `path`, given what each guard decides. */
  function Navigate(path: string, decide: Guard -> Decision): (r: Outcome)
    ensures Classify(path) == Home ==> r == Render(Home)
    ensures Classify(path) == Unmatched ==> r == Redirected("/", true)
    ensures Classify(path) in {LoginForm, RegisterForm} ==>
              (r == Render(Classify(path)) <==> decide(PublicGuard) == Allow)
    ensures Classify(path) == Products ==> (r == Render(Products) <==> decide(PrivateGuard) == Allow)
    ensures Classify(path) == Users ==>
              (r == Render(Users) <==> decide(PrivateGuard) == Allow && decide(AdminGuard) == Allow)
    ensures Classify(path) != Unmatched && Resolve(GuardsFor(Classify(path)), decide) != Allow ==>
              var d := Resolve(GuardsFor(Classify(path)), decide);
              r == Redirected(d.target, d.replace)
    // The outermost refusal wins: a refused private guard decides before the admin guard is asked.
    ensures Classify(path) in {LoginForm, RegisterForm} && decide(PublicGuard) != Allow ==>
              r == Redirected(decide(PublicGuard).target, decide(PublicGuard).replace)
    ensures Classify(path) in {Products, Users} && decide(PrivateGuard) != Allow ==>
              r == Redirected(decide(PrivateGuard).target, decide(PrivateGuard).replace)
    ensures Classify(path) == Users && decide(PrivateGuard) == Allow && decide(AdminGuard) != Allow ==>
              r == Redirected(decide(AdminGuard).target, decide(AdminGuard).replace)
  {
    var p := Classify(path);
    assert p == Users ==> GuardsFor(p)[0] == PrivateGuard && GuardsFor(p)[1] == AdminGuard;
    if p == Unmatched then Redirected("/", true)
    else
      match Resolve(GuardsFor(p), decide)
      case Allow => Render(p)
      case Redirect(target, replace) => Redirected(target, replace)
  }

  /** With the admin guard of the model, the users pages render only for a
      stored user whose `role` is exactly "admin". */
  lemma UsersPagesNeedStoredAdmin(path: string, userSlot: Option<JsVal>, decide: Guard -> Decision)
    requires Classify(path) == Users && decide(AdminGuard) == AdminRoute(userSlot)
    requires Navigate(path, decide) == Render(Users)
    ensures Get(ReadStoredUser(userSlot), "role") == Str("admin")
  {
  }

  /** A failed login after an admin session leaves the admin's stored
      record in place, so the admin guard still lets the users pages through
      although no token is stored any more. */
  lemma FailedLoginKeepsAdminAccess(s: Auth.SessionState, token: string, decode: Auth.Decoder, now: int)
    requires AdminRoute(s.userSlot) == Allow
    requires token != "" && decode(token).Some? && Auth.MapDecodedToUser(decode(token).value, now).None?
    ensures var after := Auth.LoginStep(s, Auth.Replied(200, Some(token), Undefined), decode, now).state;
            after.tokenSlot == None && AdminRoute(after.userSlot) == Allow
  {
    Auth.FailedLoginKeepsPreviousUser(s, token, decode, now);
  }
}
