/**
 * The create/edit form for users: who may use it, the values it starts
 * from, the validation schema and the payloads it hands to the user store.
 */
module UserForm {
  import opened Wrappers
  import opened Js
  import opened Storage
  import opened Ui
  import opened Net
  import opened Lists
  import UserContext

  /** The Formik values `{ nombre, email, contrasenia, edad }`. */
  datatype Values = Values(nombre: JsVal, email: JsVal, contrasenia: JsVal, edad: JsVal)

  const EmptyValues := Values(Str(""), Str(""), Str(""), Num(0.0))

  const OnlyAdminEdits := "Solo un administrador puede crear o editar usuarios."
  const OnlyAdminSaves := "Solo admin puede guardar."
  const NotFound := "No autorizado o usuario no encontrado"

  /** The edit form's initial values from a user record (found in the store
      or loaded from the backend): `name ?? nombre ?? ""`, `email ?? ""`, an
      empty password and `Number(edad ?? 0)`. */
  function ValuesFrom(u: JsVal): (v: Values)
    ensures v.nombre == FirstDefined([Get(u, "name"), Get(u, "nombre")], Str(""))
    ensures v.email == FirstDefined([Get(u, "email")], Str(""))
    ensures v.contrasenia == Str("")
    ensures v.edad == ToNumber(FirstDefined([Get(u, "edad")], Num(0.0)))
    ensures v.edad.Num? || v.edad.NaN?
    ensures Nullish(Get(u, "edad")) ==> v.edad == Num(0.0)
    ensures Get(u, "edad").Num? ==> v.edad == Get(u, "edad")
  {
    FirstDefinedChain2(Get(u, "name"), Get(u, "nombre"), Str(""));
    FirstDefinedChain1(Get(u, "email"), Str(""));
    FirstDefinedChain1(Get(u, "edad"), Num(0.0));
    Values(
      Coalesce(Get(u, "name"), Coalesce(Get(u, "nombre"), Str(""))),
      Coalesce(Get(u, "email"), Str("")),
      Str(""),
      ToNumber(Coalesce(Get(u, "edad"), Num(0.0))))
  }

  /** `{ nombre, email, edad: Number(edad) }`, shared by both payloads. */
  function Base(v: Values): map<string, JsVal> {
    Put(Put(Put(map[], "nombre", v.nombre), "email", v.email), "edad", ToNumber(v.edad))
  }

  /** The edit payload: the password is sent, as `password`, only when one was
      typed; the form's `contrasenia` key is never sent. */
  function EditPayload(v: Values): (p: JsVal)
    ensures p.Obj? && p.props.Keys <= {"nombre", "email", "edad", "password"}
    ensures Get(p, "nombre") == v.nombre && Get(p, "email") == v.email && Get(p, "edad") == ToNumber(v.edad)
    ensures Get(p, "password") == if Truthy(v.contrasenia) then v.contrasenia else Undefined
  {
    if Truthy(v.contrasenia) then Obj(Put(Base(v), "password", v.contrasenia)) else Obj(Base(v))
  }

  /** The create payload: `contrasenia` always travels as `password`. */
  function CreatePayload(v: Values): (p: JsVal)
    ensures p.Obj? && p.props.Keys <= {"nombre", "email", "edad", "password"}
    ensures Get(p, "nombre") == v.nombre && Get(p, "email") == v.email && Get(p, "edad") == ToNumber(v.edad)
    ensures Get(p, "password") == v.contrasenia
  {
    Obj(Put(Put(Put(Put(map[], "nombre", v.nombre), "email", v.email), "password", v.contrasenia), "edad", ToNumber(v.edad)))
  }

  /** With a password typed, editing sends what creating would send. */
  lemma PayloadsAgreeWithPassword(v: Values)
    requires Truthy(v.contrasenia)
    ensures EditPayload(v) == CreatePayload(v)
  {
    var e := EditPayload(v).props;
    var c := CreatePayload(v).props;
    forall k | k in e ensures k in c && c[k] == e[k] {
      assert Get(Obj(e), k) == Get(Obj(c), k);
    }
    forall k | k in c ensures k in e {
      assert Get(Obj(e), k) == Get(Obj(c), k);
    }
  }

  /** A record the backend echoes back from an edit payload reloads into
      the form as the values that were saved: the age as a number and the
      password field empty again. */
  lemma ReloadShowsSaved(v: Values)
    requires !Nullish(v.nombre) && !Nullish(v.email)
    ensures ValuesFrom(EditPayload(v)) == Values(v.nombre, v.email, Str(""), ToNumber(v.edad))
  {
    var p := EditPayload(v);
    FirstDefinedChain2(Get(p, "name"), Get(p, "nombre"), Str(""));
    FirstDefinedChain1(Get(p, "email"), Str(""));
  }

  datatype Field = Nombre | Email | Contrasenia | Edad

  /** `edad`: a number, an integer, greater than 0. */
  predicate PositiveInteger(n: JsVal) {
    n.Num? && n.n > 0.0 && n.n == n.n.Floor as real
  }

  /** The fields the validation schema rejects. The email format test is the
      parameter `isEmail`. */
  function Errors(v: Values, isEdit: bool, isEmail: string -> bool): (e: set<Field>)
    ensures Nombre !in e <==> v.nombre.Str? && v.nombre.s != ""
    ensures Email !in e <==> v.email.Str? && v.email.s != "" && isEmail(v.email.s)
    ensures isEdit ==> Contrasenia !in e
    ensures !isEdit ==> (Contrasenia !in e <==> v.contrasenia.Str? && JsLength(v.contrasenia.s) >= 6)
    ensures Edad !in e <==> PositiveInteger(ToNumber(v.edad))
  {
    (if v.nombre.Str? && v.nombre.s != "" then {} else {Nombre})
    + (if v.email.Str? && v.email.s != "" && isEmail(v.email.s) then {} else {Email})
    + (if isEdit || (v.contrasenia.Str? && JsLength(v.contrasenia.s) >= 6) then {} else {Contrasenia})
    + (if PositiveInteger(ToNumber(v.edad)) then {} else {Edad})
  }

  /** The password minimum counts UTF-16 code units: three emoji are six
      characters long for the schema. */
  lemma EmojiPasswordMeetsMinimum(v: Values, isEmail: string -> bool)
    requires v.contrasenia == Str("\U{1F600}\U{1F600}\U{1F600}")
    ensures Contrasenia !in Errors(v, false, isEmail)
  {
    AstralCountsTwice();
  }

  /** Edit values loaded from a record with a positive integer age pass
      validation as soon as name and email do. */
  lemma LoadedValuesNeedOnlyNameAndEmail(u: JsVal, isEmail: string -> bool)
    requires Get(u, "edad").Num? && PositiveInteger(Get(u, "edad"))
    ensures Errors(ValuesFrom(u), true, isEmail) <= {Nombre, Email}
  {
  }

  /** Checked as a create (the flag the schema reads left unset), the
      values an edit starts from fail the password rule: the password
      field is empty and not shown in edit mode. */
  lemma EditValuesFailCreateRules(u: JsVal, isEmail: string -> bool)
    ensures Contrasenia in Errors(ValuesFrom(u), false, isEmail)
  {
  }

  class UserFormView {
    /** The route parameter `:id` (absent on the create route). */
    const id: Option<string>
    /** The stored user, read once when the form mounts. */
    const me: JsVal
    var initialValues: Values

    constructor (id: Option<string>, storedUser: Option<JsVal>)
      ensures this.id == id && me == ReadStoredUser(storedUser) && initialValues == EmptyValues
    {
      this.id := id;
      me := ReadStoredUser(storedUser);
      initialValues := EmptyValues;
    }

    /** The mount effect: no token, then not an admin, then create mode stop
        it in that order; in edit mode the first store user with
        `id === Number(id)` is used, else the backend record. */
    method LoadEffect(token: Option<string>, users: seq<JsVal>, fetch: FetchReply) returns (fx: Effects)
      modifies this
      ensures !TokenPresent(token) ==>
                fx == AlertAndGo(SessionExpired, "/inicio-sesion") && initialValues == old(initialValues)
      ensures TokenPresent(token) && !IsAdmin(me) ==>
                fx == AlertAndGo(OnlyAdminEdits, "/usuarios") && initialValues == old(initialValues)
      ensures TokenPresent(token) && IsAdmin(me) && !IsEdit(id) ==>
                fx == Quiet && initialValues == old(initialValues)
      ensures TokenPresent(token) && IsAdmin(me) && IsEdit(id) ==>
                match FindById(users, RouteNumber(id))
                case Some(u) => fx == Quiet && initialValues == ValuesFrom(u)
                case None =>
                  match LoadRecord(fetch, "/usuarios", NotFound)
                  case Loaded(data) => fx == Quiet && initialValues == ValuesFrom(data)
                  case Abandoned(e) => fx == e && initialValues == old(initialValues)
    {
      if !TokenPresent(token) {
        return AlertAndGo(SessionExpired, "/inicio-sesion");
      }
      if !IsAdmin(me) {
        return AlertAndGo(OnlyAdminEdits, "/usuarios");
      }
      if !IsEdit(id) {
        return Quiet;
      }
      var found := FindById(users, RouteNumber(id));
      if found.Some? {
        initialValues := ValuesFrom(found.value);
        return Quiet;
      }
      var loaded := LoadRecord(fetch, "/usuarios", NotFound);
      match loaded {
        case Loaded(data) =>
          initialValues := ValuesFrom(data);
          fx := Quiet;
        case Abandoned(e) =>
          fx := e;
      }
    }

    /** `handleSubmit(values)`: a non-admin sends nothing; otherwise the
        store is called once (edit or create) and the form returns to the
        list, whatever the store did with a failure. `sent` is the payload. */
    method Submit(values: Values, store: UserContext.UserProvider, reply: Reply) returns (sent: Option<JsVal>, fx: Effects)
      modifies store
      ensures !IsAdmin(me) ==> sent == None && fx == Alert(OnlyAdminSaves) && unchanged(store)
      ensures IsAdmin(me) && IsEdit(id) ==>
                && sent == Some(EditPayload(values))
                && store.users == (if reply.Ok? then ReplaceById(old(store.users), RouteNumber(id), reply.data) else old(store.users))
                && fx == AlertAndGo("Usuario actualizado", "/usuarios")
                && store.error == (if reply.Ok? then old(store.error) else UserContext.RecordedError(reply.serverError, reply.message))
      ensures IsAdmin(me) && !IsEdit(id) ==>
                && sent == Some(CreatePayload(values))
                && store.users == (if reply.Ok? then old(store.users) + [reply.data] else old(store.users))
                && fx == AlertAndGo("Usuario creado", "/usuarios")
                && store.error == (if reply.Ok? then old(store.error) else UserContext.RecordedError(reply.serverError, reply.message))
      ensures IsAdmin(me) ==> !store.loading
    {
      if !IsAdmin(me) {
        return None, Alert(OnlyAdminSaves);
      }
      if IsEdit(id) {
        var payload := EditPayload(values);
        store.EditUser(RouteNumber(id), payload, reply);
        sent, fx := Some(payload), AlertAndGo("Usuario actualizado", "/usuarios");
      } else {
        var payload := CreatePayload(values);
        store.AddUser(payload, reply);
        sent, fx := Some(payload), AlertAndGo("Usuario creado", "/usuarios");
      }
    }
  }
}
