/**
 * `ProductProvider`: the list of products with its `loading` and `error`
 * flags. Each operation is given the outcome of its request; no failure is
 * rethrown.
 */
module ProductContext {
  import opened Js
  import opened Lists
  import opened Net

  class ProductProvider {
    var products: seq<JsVal>
    var loading: bool
    var error: JsVal

    constructor ()
      ensures products == [] && !loading && error == Null
    {
      products := [];
      loading := false;
      error := Null;
    }

    /** `getProducts()`: an array reply replaces the list, any other reply
        empties it; a failure keeps the list and records `e.message`. */
    method GetProducts(reply: Reply)
      modifies this
      ensures !loading
      ensures reply.Ok? ==> products == AsArray(reply.data) && error == old(error)
      ensures reply.Failed? ==> products == old(products) && error == Str(reply.message)
    {
      loading := true;
      match reply {
        case Ok(data) =>
          products := AsArray(data);
        case Failed(_, message) =>
          error := Str(message);
      }
      loading := false;
    }

    /** `addProduct(newProduct)`: the created record is appended. */
    method AddProduct(newProduct: JsVal, reply: Reply)
      modifies this
      ensures !loading
      ensures reply.Ok? ==> products == old(products) + [reply.data] && error == old(error)
      ensures reply.Failed? ==> products == old(products) && error == Str(reply.message)
    {
      loading := true;
      match reply {
        case Ok(data) =>
          products := products + [data];
        case Failed(_, message) =>
          error := Str(message);
      }
      loading := false;
    }

    /** `editProduct(id, updated)`: every element with that id becomes the
        returned record. */
    method EditProduct(id: JsVal, updated: JsVal, reply: Reply)
      modifies this
      ensures !loading
      ensures reply.Ok? ==> products == ReplaceById(old(products), id, reply.data) && error == old(error)
      ensures reply.Failed? ==> products == old(products) && error == Str(reply.message)
    {
      loading := true;
      match reply {
        case Ok(data) =>
          products := ReplaceById(products, id, data);
        case Failed(_, message) =>
          error := Str(message);
      }
      loading := false;
    }

    /** `deleteProduct(id)`: the elements with that id are dropped; `loading`
        is not touched. */
    method DeleteProduct(id: JsVal, reply: Reply)
      modifies this
      ensures loading == old(loading)
      ensures reply.Ok? ==> products == RemoveById(old(products), id) && error == old(error)
      ensures reply.Failed? ==> products == old(products) && error == Str(reply.message)
    {
      match reply {
        case Ok(_) =>
          products := RemoveById(products, id);
        case Failed(_, message) =>
          error := Str(message);
      }
    }
  }
}
