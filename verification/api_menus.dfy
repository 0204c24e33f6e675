/**
 * The menus endpoint with its module-level store (src/app/api/menus/route.ts).
 */
module MenusApi {
  import opened Wrappers
  import opened ApiJson

  /** A stored menu; the values taken from the body are kept as sent. */
  datatype Menu = Menu(id: int, name: Json, description: Option<Json>, active: bool, photo: string, businessId: int)

  /** Whether a readable body passes validation: name is truthy. */
  predicate Accepts(body: Json)
  {
    Truthy(Field(body, "name"))
  }

  /** The record a valid body creates under the given id. */
  function NewMenu(id: int, body: Json): Menu
    requires Accepts(body)
  {
    Menu(id, Field(body, "name").value, Field(body, "description"), true, "", 1)
  }

  function Ids(records: seq<Menu>): seq<int>
  {
    IdList(records, (x: Menu) => x.id)
  }

  class MenusRoute {
    var menus: seq<Menu>
    var nextId: int

    constructor()
      ensures menus == [] && nextId == 1
    {
      menus := [];
      nextId := 1;
    }

    /** Ids are distinct in every reachable store. */
    predicate IdsFresh()
      reads this
    {
      ApiJson.IdsFresh(Ids(menus), nextId)
    }

    /** POST: validate, then append a record with the next id. */
    method Post(body: Option<Json>) returns (res: Response<Menu>)
      modifies this
      ensures Unreadable(body) ==> res == ServerError
      ensures !Unreadable(body) && !Accepts(body.value) ==> res == BadRequest
      ensures !Unreadable(body) && Accepts(body.value) ==> res == Stored(NewMenu(old(nextId), body.value))
      ensures !res.Stored? ==> menus == old(menus) && nextId == old(nextId)
      ensures res.Stored? ==> menus == old(menus) + [res.record] && nextId == old(nextId) + 1
      ensures old(IdsFresh()) ==> IdsFresh()
    {
      if body.None? || body.value.JNull? {
        return ServerError;
      }
      var name := Field(body.value, "name");
      if !Truthy(name) {
        return BadRequest;
      }
      var record := NewMenu(nextId, body.value);
      if IdsFresh() {
        AppendKeepsIdsFresh(Ids(menus), nextId);
        assert Ids(menus + [record]) == Ids(menus) + [nextId];
      }
      nextId := nextId + 1;
      menus := menus + [record];
      return Stored(record);
    }

    /** GET: the whole store, in insertion order. */
    method Get() returns (res: seq<Menu>)
      ensures res == menus
    {
      res := menus;
    }
  }
}
