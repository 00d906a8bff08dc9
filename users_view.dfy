/**
 * The users table: what it loads on mount, the role and action cells, the
 * "save role" and "delete" buttons and the rows it exports (without the
 * password).
 */
module UsersView {
  import opened Wrappers
  import opened Js
  import opened Storage
  import opened Ui
  import opened Net
  import opened Lists
  import UserContext

  const OnlyAdminRoles := "Solo admin puede cambiar roles."
  const NoRoleChange := "No hay cambios de rol."
  const RoleUpdated := "Rol actualizado"
  const RoleUpdateFailed := "No autorizado o error al actualizar el rol"
  const DeleteFailed := "No autorizado o error al eliminar"

  /** The mount effect: without a token the user is sent to log in and
      nothing is requested; otherwise the list is requested. */
  method Mount(token: Option<string>, store: UserContext.UserProvider, reply: Reply) returns (fx: Effects)
    modifies store
    ensures !TokenPresent(token) ==> fx == AlertAndGo(SessionExpired, "/inicio-sesion") && unchanged(store)
    ensures TokenPresent(token) ==>
              && fx == Quiet && !store.loading
              && store.users == (if reply.Ok? then AsArray(reply.data) else [])
              && store.error == (if reply.Ok? then old(store.error) else UserContext.RecordedError(reply.serverError, reply.message))
  {
    if !TokenPresent(token) {
      return AlertAndGo(SessionExpired, "/inicio-sesion");
    }
    store.GetUsers(reply);
    fx := Quiet;
  }

  /** `row.role ?? row.rol`: the role a row currently has. */
  function CurrentRole(row: JsVal): JsVal {
    Coalesce(Get(row, "role"), Get(row, "rol"))
  }

  /** The role "save role" would send for `row`, where `chosen` is what the
      select last wrote into `row._newRole` (`Undefined` if it was never
      changed): none when nothing differs from the current role. */
  function RoleToSend(row: JsVal, chosen: JsVal): (r: Option<JsVal>)
    ensures r.Some? ==> r.value == Coalesce(chosen, CurrentRole(row)) && !StrictEq(r.value, CurrentRole(row))
    ensures r.None? <==> StrictEq(Coalesce(chosen, CurrentRole(row)), CurrentRole(row))
  {
    var next := Coalesce(chosen, CurrentRole(row));
    if StrictEq(next, CurrentRole(row)) then None else Some(next)
  }

  /** A row whose select was never touched has nothing to save, unless its
      current role is of a kind `===` never equates (an object, an array, NaN). */
  lemma UntouchedRowHasNoChange(row: JsVal)
    requires CurrentRole(row).Str? || CurrentRole(row).Num? || CurrentRole(row).Bool? || Nullish(CurrentRole(row))
    ensures RoleToSend(row, Undefined) == None
  {
  }

  /** Picking a role string different from a string current role sends it. */
  lemma NewStringRoleIsSent(row: JsVal, role: string)
    requires CurrentRole(row).Str? && CurrentRole(row).s != role
    ensures RoleToSend(row, Str(role)) == Some(Str(role))
  {
  }

  /** `onSaveRole(row)`: only an admin with a changed role reaches the
      store; the store's rethrow decides between the two closing alerts. */
  method SaveRole(me: JsVal, row: JsVal, chosen: JsVal, store: UserContext.UserProvider, reply: Reply)
    returns (sent: Option<JsVal>, fx: Effects)
    modifies store
    ensures !IsAdmin(me) ==> sent == None && fx == Alert(OnlyAdminRoles) && unchanged(store)
    ensures IsAdmin(me) && RoleToSend(row, chosen).None? ==>
              sent == None && fx == Alert(NoRoleChange) && unchanged(store)
    ensures IsAdmin(me) && RoleToSend(row, chosen).Some? ==>
              && sent == RoleToSend(row, chosen)
              && !store.loading
              && (reply.Ok? ==>
                    && fx == Alert(RoleUpdated)
                    && store.users == SetRoleById(old(store.users), Get(row, "id"), UserContext.ReportedRole(reply.data)))
              && (reply.Ok? ==> store.error == old(store.error))
              && (reply.Failed? ==>
                    && fx == Alert(RoleUpdateFailed) && store.users == old(store.users)
                    && store.error == UserContext.RecordedError(reply.serverError, reply.message))
  {
    if !IsAdmin(me) {
      return None, Alert(OnlyAdminRoles);
    }
    var next := RoleToSend(row, chosen);
    if next.None? {
      return None, Alert(NoRoleChange);
    }
    var thrown, _ := store.UpdateUserRole(Get(row, "id"), next.value, reply);
    sent := next;
    fx := if thrown then Alert(RoleUpdateFailed) else Alert(RoleUpdated);
  }

  /** The "delete" button's handler: a declined confirmation sends nothing;
      otherwise the store deletes and only the store's error is recorded
      (the store swallows the failure, so the button's own alert is never
      raised). */
  method DeleteRow(confirmed: bool, row: JsVal, store: UserContext.UserProvider, reply: Reply) returns (fx: Effects)
    modifies store
    ensures fx == Quiet
    ensures !confirmed ==> unchanged(store)
    ensures confirmed ==>
              && store.loading == old(store.loading)
              && store.users == (if reply.Ok? then RemoveById(old(store.users), Get(row, "id")) else old(store.users))
              && store.error == (if reply.Ok? then old(store.error) else UserContext.RecordedError(reply.serverError, reply.message))
  {
    if !confirmed {
      return Quiet;
    }
    store.DeleteUser(Get(row, "id"), reply);
    fx := Quiet;
  }

  /** One exported row, with exactly the columns `nombre`, `email`, `rol`
      and `edad`. */
  datatype ExportRow = ExportRow(nombre: JsVal, email: JsVal, rol: JsVal, edad: JsVal)

  function Sanitize(u: JsVal): (r: ExportRow)
    ensures r.nombre == FirstDefined([Get(u, "name"), Get(u, "nombre")], Str(""))
    ensures r.email == FirstDefined([Get(u, "email")], Str(""))
    ensures r.rol == FirstDefined([Get(u, "role"), Get(u, "rol")], Str(""))
    ensures r.edad == FirstDefined([Get(u, "edad")], Str(""))
  {
    FirstDefinedChain2(Get(u, "name"), Get(u, "nombre"), Str(""));
    FirstDefinedChain2(Get(u, "role"), Get(u, "rol"), Str(""));
    FirstDefinedChain1(Get(u, "email"), Str(""));
    FirstDefinedChain1(Get(u, "edad"), Str(""));
    ExportRow(
      Coalesce(Get(u, "name"), Coalesce(Get(u, "nombre"), Str(""))),
      Coalesce(Get(u, "email"), Str("")),
      Coalesce(Get(u, "role"), Coalesce(Get(u, "rol"), Str(""))),
      Coalesce(Get(u, "edad"), Str("")))
  }

  /** `handleExport`'s rows: one per user, in order; anything but an array
      exports nothing. */
  function ExportRows(users: JsVal): (r: seq<ExportRow>)
    ensures |r| == |AsArray(users)|
    ensures forall i :: 0 <= i < |r| ==> r[i] == Sanitize(AsArray(users)[i])
    ensures !users.Arr? ==> r == []
  {
    SanitizeAll(AsArray(users))
  }

  function SanitizeAll(s: seq<JsVal>): (r: seq<ExportRow>)
    ensures |r| == |s|
    ensures forall i :: 0 <= i < |s| ==> r[i] == Sanitize(s[i])
  {
    if s == [] then [] else [Sanitize(s[0])] + SanitizeAll(s[1..])
  }

  /** Exported rows never depend on a password field: two users that differ
      only there export alike. */
  lemma ExportIgnoresPassword(u: map<string, JsVal>, p: JsVal, q: JsVal)
    ensures Sanitize(Obj(u["password" := p])) == Sanitize(Obj(u["password" := q]))
    ensures Sanitize(Obj(u["contrasenia" := p])) == Sanitize(Obj(u["contrasenia" := q]))
  {
  }

  /** What the role column shows. */
  datatype RoleCell = RoleText(role: JsVal) | RoleSelect(selected: JsVal, options: seq<string>)

  const RoleOptions := ["cliente", "moderador", "admin"]

  /** `roleBody(row)`: the role, or `"cliente"` when there is none, as text
      for a non-admin and as a three-option select for an admin. */
  function RoleBody(isAdmin: bool, row: JsVal): (r: RoleCell)
    ensures r.RoleSelect? <==> isAdmin
    ensures r.RoleText? ==> r.role == FirstDefined([Get(row, "role"), Get(row, "rol")], Str("cliente"))
    ensures r.RoleSelect? ==> r.selected == FirstDefined([Get(row, "role"), Get(row, "rol")], Str("cliente"))
                              && r.options == RoleOptions
  {
    FirstDefinedChain2(Get(row, "role"), Get(row, "rol"), Str("cliente"));
    var current := Coalesce(Get(row, "role"), Coalesce(Get(row, "rol"), Str("cliente")));
    if isAdmin then RoleSelect(current, RoleOptions) else RoleText(current)
  }

  /** The actions column: the three buttons exist only for an admin; the
      edit link targets `/usuarios/editar/<id>`. */
  datatype Actions = NoActions | AdminActions(editLink: JsVal)

  function ActionsBody(isAdmin: bool, row: JsVal): (r: Actions)
    ensures r.AdminActions? <==> isAdmin
    ensures r.AdminActions? ==> r.editLink == Get(row, "id")
  {
    if isAdmin then AdminActions(Get(row, "id")) else NoActions
  }
}
