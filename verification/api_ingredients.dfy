/**
 * The ingredients endpoint with its module-level store (src/app/api/ingredients/route.ts).
 */
module IngredientsApi {
  import opened Wrappers
  import opened ApiJson

  /** A stored ingredient; the values taken from the body are kept as sent. */
  datatype Ingredient = Ingredient(id: int, name: Json, description: Option<Json>, photo: string, businessId: int)

  /** Whether a readable body passes validation: name is truthy. */
  predicate Accepts(body: Json)
  {
    Truthy(Field(body, "name"))
  }

  /** The record a valid body creates under the given id. */
  function NewIngredient(id: int, body: Json): Ingredient
    requires Accepts(body)
  {
    Ingredient(id, Field(body, "name").value, Field(body, "description"), "", 1)
  }

  function Ids(records: seq<Ingredient>): seq<int>
  {
    IdList(records, (x: Ingredient) => x.id)
  }

  class IngredientsRoute {
    var ingredients: seq<Ingredient>
    var nextId: int

    constructor()
      ensures ingredients == [] && nextId == 1
    {
      ingredients := [];
      nextId := 1;
    }

    /** Ids are distinct in every reachable store. */
    predicate IdsFresh()
      reads this
    {
      ApiJson.IdsFresh(Ids(ingredients), nextId)
    }

    /** POST: validate, then append a record with the next id. */
    method Post(body: Option<Json>) returns (res: Response<Ingredient>)
      modifies this
      ensures Unreadable(body) ==> res == ServerError
      ensures !Unreadable(body) && !Accepts(body.value) ==> res == BadRequest
      ensures !Unreadable(body) && Accepts(body.value) ==> res == Stored(NewIngredient(old(nextId), body.value))
      ensures !res.Stored? ==> ingredients == old(ingredients) && nextId == old(nextId)
      ensures res.Stored? ==> ingredients == old(ingredients) + [res.record] && nextId == old(nextId) + 1
      ensures old(IdsFresh()) ==> IdsFresh()
    {
      if body.None? || body.value.JNull? {
        return ServerError;
      }
      var name := Field(body.value, "name");
      if !Truthy(name) {
        return BadRequest;
      }
      var record := NewIngredient(nextId, body.value);
      if IdsFresh() {
        AppendKeepsIdsFresh(Ids(ingredients), nextId);
        assert Ids(ingredients + [record]) == Ids(ingredients) + [nextId];
      }
      nextId := nextId + 1;
      ingredients := ingredients + [record];
      return Stored(record);
    }

    /** GET: the whole store, in insertion order. */
    method Get() returns (res: seq<Ingredient>)
      ensures res == ingredients
    {
      res := ingredients;
    }
  }
}
