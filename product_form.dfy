/**
 * The create/edit form for products: the values it starts from, its
 * validation schema, the payload it hands to the product store.
 */
module ProductForm {
  import opened Wrappers
  import opened Js
  import opened Storage
  import opened Ui
  import opened Net
  import opened Lists
  import ProductContext

  /** The Formik values `{ nombre, precio }`. */
  datatype Values = Values(nombre: JsVal, precio: JsVal)

  const EmptyValues := Values(Str(""), Num(0.0))

  const OnlyAdminSaves := "Solo admin puede guardar."
  const NotFound := "No autorizado o producto no encontrado"

  /** The edit form's initial values from a product record:
      `name ?? nombre ?? ""` and `price ?? precio ?? 0`, the price taken
      as it is (no `Number(...)` here, unlike the user form). */
  function ValuesFrom(p: JsVal): (v: Values)
    ensures v.nombre == FirstDefined([Get(p, "name"), Get(p, "nombre")], Str(""))
    ensures v.precio == FirstDefined([Get(p, "price"), Get(p, "precio")], Num(0.0))
    ensures !Nullish(v.nombre) && !Nullish(v.precio)
  {
    FirstDefinedChain2(Get(p, "name"), Get(p, "nombre"), Str(""));
    FirstDefinedChain2(Get(p, "price"), Get(p, "precio"), Num(0.0));
    Values(
      Coalesce(Get(p, "name"), Coalesce(Get(p, "nombre"), Str(""))),
      Coalesce(Get(p, "price"), Coalesce(Get(p, "precio"), Num(0.0))))
  }

  /** `{ name: nombre, price: Number(precio) }`: the form's Spanish keys
      mapped to the backend's English ones. */
  function Payload(v: Values): (p: JsVal)
    ensures p.Obj? && p.props.Keys <= {"name", "price"}
    ensures Get(p, "name") == v.nombre
    ensures Get(p, "price") == ToNumber(v.precio) && "price" in p.props
  {
    Obj(Put(Put(map[], "name", v.nombre), "price", ToNumber(v.precio)))
  }

  /** A record the backend echoes back from the payload reloads into the
      form as the values that were saved, the price as a number. */
  lemma ReloadShowsSaved(v: Values)
    requires !Nullish(v.nombre)
    ensures ValuesFrom(Payload(v)) == Values(v.nombre, ToNumber(v.precio))
  {
    var p := Payload(v);
    FirstDefinedChain2(Get(p, "name"), Get(p, "nombre"), Str(""));
    FirstDefinedChain2(Get(p, "price"), Get(p, "precio"), Num(0.0));
  }

  datatype Field = Nombre | Precio

  predicate IsSpace(c: char) {
    c == ' ' || c == '\t' || c == '\n' || c == '\r'
  }

  /** `r` is `s` with some blanks removed from its start and its end only. */
  predicate IsBlankTrimmed(s: string, r: string) {
    exists i, j :: 0 <= i <= j <= |s| && r == s[i..j]
                   && (forall k :: 0 <= k < i ==> IsSpace(s[k]))
                   && (forall k :: j <= k < |s| ==> IsSpace(s[k]))
  }

  lemma DropLeadingBlank(s: string, r: string)
    requires s != [] && IsSpace(s[0]) && IsBlankTrimmed(s[1..], r)
    ensures IsBlankTrimmed(s, r)
  {
    var i, j :| 0 <= i <= j <= |s[1..]| && r == s[1..][i..j]
                && (forall k :: 0 <= k < i ==> IsSpace(s[1..][k]))
                && (forall k :: j <= k < |s[1..]| ==> IsSpace(s[1..][k]));
    assert r == s[i + 1..j + 1];
    assert forall k :: 0 <= k < i + 1 ==> IsSpace(s[k]) by {
      forall k | 0 <= k < i + 1 ensures IsSpace(s[k]) {
        if k > 0 { assert s[k] == s[1..][k - 1]; }
      }
    }
    assert forall k :: j + 1 <= k < |s| ==> IsSpace(s[k]) by {
      forall k | j + 1 <= k < |s| ensures IsSpace(s[k]) {
        assert s[k] == s[1..][k - 1];
      }
    }
  }

  lemma DropTrailingBlank(s: string, r: string)
    requires s != [] && IsSpace(s[|s| - 1]) && IsBlankTrimmed(s[..|s| - 1], r)
    ensures IsBlankTrimmed(s, r)
  {
    var t := s[..|s| - 1];
    var i, j :| 0 <= i <= j <= |t| && r == t[i..j]
                && (forall k :: 0 <= k < i ==> IsSpace(t[k]))
                && (forall k :: j <= k < |t| ==> IsSpace(t[k]));
    assert r == s[i..j];
    assert forall k :: 0 <= k < i ==> IsSpace(s[k]) by {
      forall k | 0 <= k < i ensures IsSpace(s[k]) {
        assert s[k] == t[k];
      }
    }
    assert forall k :: j <= k < |s| ==> IsSpace(s[k]) by {
      forall k | j <= k < |s| ensures IsSpace(s[k]) {
        if k < |t| { assert s[k] == t[k]; }
      }
    }
  }

  /** `s.trim()` over the ASCII blanks: `s` without its leading and
      trailing blanks, and nothing else removed. */
  function Trim(s: string): (r: string)
    ensures |r| <= |s|
    ensures IsBlankTrimmed(s, r)
    ensures r != [] ==> !IsSpace(r[0]) && !IsSpace(r[|r| - 1])
    decreases |s|
  {
    if s != [] && IsSpace(s[0]) then
      DropLeadingBlank(s, Trim(s[1..]));
      Trim(s[1..])
    else if s != [] && IsSpace(s[|s| - 1]) then
      DropTrailingBlank(s, Trim(s[..|s| - 1]));
      Trim(s[..|s| - 1])
    else
      assert s == s[0..|s|];
      s
  }

  /** A name without blanks at its ends is its own trim. */
  lemma TrimKeepsInnerText(s: string)
    requires s != [] && !IsSpace(s[0]) && !IsSpace(s[|s| - 1])
    ensures Trim(s) == s
  {
  }

  /** The fields the validation schema rejects: a name of at least two
      characters once trimmed, and a price that is a number above 0. */
  function Errors(v: Values): (e: set<Field>)
    ensures Nombre !in e <==> v.nombre.Str? && JsLength(Trim(v.nombre.s)) >= 2
    ensures Precio !in e <==> ToNumber(v.precio).Num? && ToNumber(v.precio).n > 0.0
  {
    (if v.nombre.Str? && JsLength(Trim(v.nombre.s)) >= 2 then {} else {Nombre})
    + (if ToNumber(v.precio).Num? && ToNumber(v.precio).n > 0.0 then {} else {Precio})
  }

  /** The name minimum counts UTF-16 code units: one emoji is long enough. */
  lemma EmojiNameMeetsMinimum(v: Values)
    requires v.nombre == Str("\U{1F600}")
    ensures Nombre !in Errors(v)
  {
    assert Trim("\U{1F600}") == "\U{1F600}";
    AstralCountsTwice();
  }

  /** The empty form is rejected on both fields. */
  lemma EmptyFormIsRejected()
    ensures Errors(EmptyValues) == {Nombre, Precio}
  {
    assert Trim("") == "";
  }

  /** The form of a product without name or price (a missing record's
      defaults) is rejected on both fields too. */
  lemma DefaultsAreRejected(p: JsVal)
    requires Nullish(Get(p, "name")) && Nullish(Get(p, "nombre"))
    requires Nullish(Get(p, "price")) && Nullish(Get(p, "precio"))
    ensures Errors(ValuesFrom(p)) == {Nombre, Precio}
  {
    EmptyFormIsRejected();
  }

  class ProductFormView {
    /** The route parameter `:id` (absent on the create route). */
    const id: Option<string>
    /** The stored user, read once when the form mounts. */
    const me: JsVal
    var initialValues: Values

    constructor (id: Option<string>, storedUser: Option<JsVal>)
      ensures this.id == id && me == ReadStoredUser(storedUser) && initialValues == EmptyValues
    {
      this.id := id;
      me := ReadStoredUser(storedUser);
      initialValues := EmptyValues;
    }

    /** The mount effect: only a missing token stops it (the role is not
        looked at); in edit mode the first store product with
        `id === Number(id)` is used, else the backend record. */
    method LoadEffect(token: Option<string>, products: seq<JsVal>, fetch: FetchReply) returns (fx: Effects)
      modifies this
      ensures !TokenPresent(token) ==>
                fx == AlertAndGo(SessionExpired, "/inicio-sesion") && initialValues == old(initialValues)
      ensures TokenPresent(token) && !IsEdit(id) ==> fx == Quiet && initialValues == old(initialValues)
      ensures TokenPresent(token) && IsEdit(id) ==>
                match FindById(products, RouteNumber(id))
                case Some(p) => fx == Quiet && initialValues == ValuesFrom(p)
                case None =>
                  match LoadRecord(fetch, "/productos", NotFound)
                  case Loaded(data) => fx == Quiet && initialValues == ValuesFrom(data)
                  case Abandoned(e) => fx == e && initialValues == old(initialValues)
    {
      if !TokenPresent(token) {
        return AlertAndGo(SessionExpired, "/inicio-sesion");
      }
      if !IsEdit(id) {
        return Quiet;
      }
      var found := FindById(products, RouteNumber(id));
      if found.Some? {
        initialValues := ValuesFrom(found.value);
        return Quiet;
      }
      var loaded := LoadRecord(fetch, "/productos", NotFound);
      match loaded {
        case Loaded(data) =>
          initialValues := ValuesFrom(data);
          fx := Quiet;
        case Abandoned(e) =>
          fx := e;
      }
    }

    /** `handleSubmit(values)`: a non-admin sends nothing; otherwise the
        store is called once and the form returns to the list, also when
        the store only recorded a failure. `sent` is the payload. */
    method Submit(values: Values, store: ProductContext.ProductProvider, reply: Reply) returns (sent: Option<JsVal>, fx: Effects)
      modifies store
      ensures !IsAdmin(me) ==> sent == None && fx == Alert(OnlyAdminSaves) && unchanged(store)
      ensures IsAdmin(me) ==> sent == Some(Payload(values)) && !store.loading
      ensures IsAdmin(me) ==> store.error == (if reply.Ok? then old(store.error) else Str(reply.message))
      ensures IsAdmin(me) && IsEdit(id) ==>
                && store.products == (if reply.Ok? then ReplaceById(old(store.products), RouteNumber(id), reply.data) else old(store.products))
                && fx == AlertAndGo("Producto actualizado", "/productos")
      ensures IsAdmin(me) && !IsEdit(id) ==>
                && store.products == (if reply.Ok? then old(store.products) + [reply.data] else old(store.products))
                && fx == AlertAndGo("Producto creado", "/productos")
    {
      if !IsAdmin(me) {
        return None, Alert(OnlyAdminSaves);
      }
      var payload := Payload(values);
      if IsEdit(id) {
        store.EditProduct(RouteNumber(id), payload, reply);
        fx := AlertAndGo("Producto actualizado", "/productos");
      } else {
        store.AddProduct(payload, reply);
        fx := AlertAndGo("Producto creado", "/productos");
      }
      sent := Some(payload);
    }
  }
}
