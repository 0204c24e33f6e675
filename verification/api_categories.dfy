/**
 * The categories endpoint with its module-level store (src/app/api/categories/route.ts).
 */
module CategoriesApi {
  import opened Wrappers
  import opened ApiJson

  /** A stored category; the values taken from the body are kept as sent. */
  datatype Category = Category(id: int, name: Json, order: int, menuId: int)

  /** Whether a readable body passes validation: name is truthy. */
  predicate Accepts(body: Json)
  {
    Truthy(Field(body, "name"))
  }

  /** The record a valid body creates under the given id. */
  function NewCategory(id: int, body: Json): Category
    requires Accepts(body)
  {
    Category(id, Field(body, "name").value, 0, 1)
  }

  function Ids(records: seq<Category>): seq<int>
  {
    IdList(records, (x: Category) => x.id)
  }

  class CategoriesRoute {
    var categories: seq<Category>
    var nextId: int

    constructor()
      ensures categories == [] && nextId == 1
    {
      categories := [];
      nextId := 1;
    }

    /** Ids are distinct in every reachable store. */
    predicate IdsFresh()
      reads this
    {
      ApiJson.IdsFresh(Ids(categories), nextId)
    }

    /** POST: validate, then append a record with the next id. */
    method Post(body: Option<Json>) returns (res: Response<Category>)
      modifies this
      ensures Unreadable(body) ==> res == ServerError
      ensures !Unreadable(body) && !Accepts(body.value) ==> res == BadRequest
      ensures !Unreadable(body) && Accepts(body.value) ==> res == Stored(NewCategory(old(nextId), body.value))
      ensures !res.Stored? ==> categories == old(categories) && nextId == old(nextId)
      ensures res.Stored? ==> categories == old(categories) + [res.record] && nextId == old(nextId) + 1
      ensures old(IdsFresh()) ==> IdsFresh()
    {
      if body.None? || body.value.JNull? {
        return ServerError;
      }
      var name := Field(body.value, "name");
      if !Truthy(name) {
        return BadRequest;
      }
      var record := NewCategory(nextId, body.value);
      if IdsFresh() {
        AppendKeepsIdsFresh(Ids(categories), nextId);
        assert Ids(categories + [record]) == Ids(categories) + [nextId];
      }
      nextId := nextId + 1;
      categories := categories + [record];
      return Stored(record);
    }

    /** GET: the whole store, in insertion order. */
    method Get() returns (res: seq<Category>)
      ensures res == categories
    {
      res := categories;
    }
  }
}
