/**
 * The products table: what it loads on mount, the delete button, the
 * actions column and the rows it exports.
 */
module ProductsView {
  import opened Wrappers
  import opened Js
  import opened Storage
  import opened Ui
  import opened Net
  import opened Lists
  import ProductContext

  const OnlyAdminDeletes := "Solo admin puede eliminar."
  const ProductDeleted := "Producto eliminado"

  /** The mount effect: without a token the user is sent to log in; with
      one, the list is requested only when the store holds none yet. */
  method Mount(token: Option<string>, store: ProductContext.ProductProvider, reply: Reply) returns (fx: Effects)
    modifies store
    ensures !TokenPresent(token) ==> fx == AlertAndGo(SessionExpired, "/inicio-sesion") && unchanged(store)
    ensures TokenPresent(token) ==> fx == Quiet
    ensures TokenPresent(token) && old(store.products) != [] ==> unchanged(store)
    ensures TokenPresent(token) && old(store.products) == [] ==>
              && !store.loading
              && store.products == (if reply.Ok? then AsArray(reply.data) else [])
              && store.error == (if reply.Ok? then old(store.error) else Str(reply.message))
  {
    if !TokenPresent(token) {
      return AlertAndGo(SessionExpired, "/inicio-sesion");
    }
    if store.products == [] {
      store.GetProducts(reply);
    }
    fx := Quiet;
  }

  /** `onDelete(id)`: a non-admin is refused before the confirmation; a
      declined confirmation sends nothing. Because the store swallows a
      failed delete, a confirmed delete always ends with the success alert. */
  method OnDelete(me: JsVal, confirmed: bool, id: JsVal, store: ProductContext.ProductProvider, reply: Reply)
    returns (fx: Effects)
    modifies store
    ensures !IsAdmin(me) ==> fx == Alert(OnlyAdminDeletes) && unchanged(store)
    ensures IsAdmin(me) && !confirmed ==> fx == Quiet && unchanged(store)
    ensures IsAdmin(me) && confirmed ==>
              && fx == Alert(ProductDeleted)
              && store.loading == old(store.loading)
              && (reply.Ok? ==> store.products == RemoveById(old(store.products), id) && store.error == old(store.error))
              && (reply.Failed? ==> store.products == old(store.products) && store.error == Str(reply.message))
  {
    if !IsAdmin(me) {
      return Alert(OnlyAdminDeletes);
    }
    if !confirmed {
      return Quiet;
    }
    store.DeleteProduct(id, reply);
    fx := Alert(ProductDeleted);
  }

  /** One exported row, with exactly the columns `nombre` and `precio`. */
  datatype ExportRow = ExportRow(nombre: JsVal, precio: JsVal)

  function Normalize(p: JsVal): (r: ExportRow)
    ensures r.nombre == FirstDefined([Get(p, "name"), Get(p, "nombre")], Str(""))
    ensures r.precio == FirstDefined([Get(p, "price"), Get(p, "precio")], Str(""))
  {
    FirstDefinedChain2(Get(p, "name"), Get(p, "nombre"), Str(""));
    FirstDefinedChain2(Get(p, "price"), Get(p, "precio"), Str(""));
    ExportRow(
      Coalesce(Get(p, "name"), Coalesce(Get(p, "nombre"), Str(""))),
      Coalesce(Get(p, "price"), Coalesce(Get(p, "precio"), Str(""))))
  }

  function NormalizeAll(s: seq<JsVal>): (r: seq<ExportRow>)
    ensures |r| == |s|
    ensures forall i :: 0 <= i < |s| ==> r[i] == Normalize(s[i])
  {
    if s == [] then [] else [Normalize(s[0])] + NormalizeAll(s[1..])
  }

  /** `handleExport`'s rows: one per product, in order. */
  function ExportRows(products: JsVal): (r: seq<ExportRow>)
    ensures |r| == |AsArray(products)|
    ensures forall i :: 0 <= i < |r| ==> r[i] == Normalize(AsArray(products)[i])
    ensures !products.Arr? ==> r == []
  {
    NormalizeAll(AsArray(products))
  }

  /** The English keys win over the Spanish ones when both are present. */
  lemma EnglishKeysWin(p: JsVal)
    requires !Nullish(Get(p, "name")) && !Nullish(Get(p, "price"))
    ensures Normalize(p) == ExportRow(Get(p, "name"), Get(p, "price"))
  {
  }

  /** The actions column: the edit link to `/productos/editar/<id>` and the
      delete button exist only for an admin; others read "Solo lectura". */
  datatype Actions = ReadOnly | AdminActions(editLink: JsVal, deletes: JsVal)

  function ActionsBody(isAdmin: bool, row: JsVal): (r: Actions)
    ensures r.AdminActions? <==> isAdmin
    ensures r.AdminActions? ==> r.editLink == Get(row, "id") && r.deletes == Get(row, "id")
  {
    if isAdmin then AdminActions(Get(row, "id"), Get(row, "id")) else ReadOnly
  }
}
