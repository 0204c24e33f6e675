/**
 * The products endpoint with its module-level store (src/app/api/products/route.ts).
 */
module ProductsApi {
  import opened Wrappers
  import opened ApiJson

  /** A stored product; the values taken from the body are kept as sent. */
  datatype Product = Product(id: int, name: Json, description: Option<Json>, photo: string, defaultPrice: int, businessId: int)

  /** Whether a readable body passes validation: name and categoryId are truthy and ingredientIds is an array. */
  predicate Accepts(body: Json)
  {
    Truthy(Field(body, "name")) && Truthy(Field(body, "categoryId")) && IsArray(Field(body, "ingredientIds"))
  }

  /** The record a valid body creates under the given id. */
  function NewProduct(id: int, body: Json): Product
    requires Accepts(body)
  {
    Product(id, Field(body, "name").value, Field(body, "description"), "", 0, 1)
  }

  function Ids(records: seq<Product>): seq<int>
  {
    IdList(records, (x: Product) => x.id)
  }

  class ProductsRoute {
    var products: seq<Product>
    var nextId: int

    constructor()
      ensures products == [] && nextId == 1
    {
      products := [];
      nextId := 1;
    }

    /** Ids are distinct in every reachable store. */
    predicate IdsFresh()
      reads this
    {
      ApiJson.IdsFresh(Ids(products), nextId)
    }

    /** POST: validate, then append a record with the next id. */
    method Post(body: Option<Json>) returns (res: Response<Product>)
      modifies this
      ensures Unreadable(body) ==> res == ServerError
      ensures !Unreadable(body) && !Accepts(body.value) ==> res == BadRequest
      ensures !Unreadable(body) && Accepts(body.value) ==> res == Stored(NewProduct(old(nextId), body.value))
      ensures !res.Stored? ==> products == old(products) && nextId == old(nextId)
      ensures res.Stored? ==> products == old(products) + [res.record] && nextId == old(nextId) + 1
      ensures old(IdsFresh()) ==> IdsFresh()
    {
      if body.None? || body.value.JNull? {
        return ServerError;
      }
      var name, categoryId, ingredientIds := Field(body.value, "name"), Field(body.value, "categoryId"), Field(body.value, "ingredientIds");
      if !Truthy(name) || !Truthy(categoryId) || !IsArray(ingredientIds) {
        return BadRequest;
      }
      var record := NewProduct(nextId, body.value);
      if IdsFresh() {
        AppendKeepsIdsFresh(Ids(products), nextId);
        assert Ids(products + [record]) == Ids(products) + [nextId];
      }
      nextId := nextId + 1;
      products := products + [record];
      return Stored(record);
    }

    /** GET: the whole store, in insertion order. */
    method Get() returns (res: seq<Product>)
      ensures res == products
    {
      res := products;
    }
  }

  /** The category and the ingredients a product is created with are checked and then dropped. */
  lemma ProductKeepsNoLinks(id: int, body: Json, other: Json)
    requires Accepts(body) && Accepts(other)
    requires Field(body, "name") == Field(other, "name") && Field(body, "description") == Field(other, "description")
    ensures NewProduct(id, body) == NewProduct(id, other)
  {
  }

  /** Validation reads only name, categoryId and ingredientIds: an empty array of ingredients is enough. */
  lemma MinimalProduct()
    ensures Accepts(JObj(map["name" := JStr("Pizza"), "categoryId" := JNum(3), "ingredientIds" := JArr([])]))
    ensures !Accepts(JObj(map["name" := JStr("Pizza"), "categoryId" := JNum(0), "ingredientIds" := JArr([])]))
    ensures !Accepts(JObj(map["name" := JStr("Pizza"), "categoryId" := JNum(3), "ingredientIds" := JStr("1,2")]))
  {
  }
}
