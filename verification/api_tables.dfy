/**
 * The tables endpoint with its module-level store (src/app/api/tables/route.ts).
 */
module TablesApi {
  import opened Wrappers
  import opened Text
  import opened ApiJson

  datatype TableStatus = Open | Closed

  /** A table as stored; `table_number` and `restaurant_id` are the body's values, as sent. */
  datatype Table = Table(id: int, tableNumber: Json, restaurantId: Json, qrCode: string, active: bool, status: TableStatus)

  const DefaultAppUrl := "http://localhost:3000"

  /** `process.env.NEXT_PUBLIC_APP_URL ?? 'http://localhost:3000'`: only a missing variable falls back. */
  function BaseUrl(appUrl: Option<string>): string
  {
    if appUrl.Some? then appUrl.value else DefaultAppUrl
  }

  /**
   * The URL a table's QR code encodes; generateQRCode (src/lib/utils.ts) returns it unchanged.
   * None where interpolating the table number throws.
   */
  function TableUrl(appUrl: Option<string>, id: int, tableNumber: Json): (r: Option<string>)
    ensures r.None? <==> ToStringThrows(tableNumber)
  {
    var text := Interpolate(Some(tableNumber));
    if text.None? then None else Some(BaseUrl(appUrl) + "/table/" + IntToString(id) + "?table=" + text.value)
  }

  /** The i-th example table GET creates in an empty store. */
  function SeedTable(i: int): Table
  {
    Table(i, JNum(i), JNum(1), "http://localhost:3000/table/" + IntToString(i) + "?table=" + IntToString(i),
          true, if i % 2 == 0 then Closed else Open)
  }

  /** The first n example tables, in order. */
  function Seed(n: nat): (r: seq<Table>)
    ensures |r| == n
  {
    if n == 0 then [] else Seed(n - 1) + [SeedTable(n)]
  }

  function Ids(ts: seq<Table>): seq<int>
  {
    IdList(ts, (t: Table) => t.id)
  }

  class TablesRoute {
    var tables: seq<Table>
    var nextId: int

    constructor()
      ensures tables == [] && nextId == 1
    {
      tables := [];
      nextId := 1;
    }

    /** Ids are distinct while only POST adds tables. */
    predicate IdsFresh()
      reads this
    {
      ApiJson.IdsFresh(Ids(tables), nextId)
    }

    /** POST: validate `table_number` and `restaurant_id`, then append a table with the next id. */
    method Post(body: Option<Json>, appUrl: Option<string>) returns (res: Response<Table>)
      modifies this
      ensures Unreadable(body) ==> res == ServerError
      ensures !Unreadable(body) && !(Truthy(Field(body.value, "table_number")) && Truthy(Field(body.value, "restaurant_id")))
              ==> res == BadRequest
      ensures !Unreadable(body) && Truthy(Field(body.value, "table_number")) && Truthy(Field(body.value, "restaurant_id"))
              ==> (res.Stored? <==> !ToStringThrows(Field(body.value, "table_number").value))
      ensures !Unreadable(body) && Truthy(Field(body.value, "table_number")) && Truthy(Field(body.value, "restaurant_id"))
              && ToStringThrows(Field(body.value, "table_number").value)
              ==> res == ServerError
      ensures !res.Stored? ==> tables == old(tables) && nextId == old(nextId)
      ensures res.Stored? ==>
        && !Unreadable(body)
        && var tn := Field(body.value, "table_number").value;
           var rid := Field(body.value, "restaurant_id").value;
           && Truthy(Some(tn)) && Truthy(Some(rid))
           && TableUrl(appUrl, old(nextId), tn).Some?
           && res.record == Table(old(nextId), tn, rid, TableUrl(appUrl, old(nextId), tn).value, true, Open)
           && tables == old(tables) + [res.record]
           && nextId == old(nextId) + 1
      ensures old(IdsFresh()) ==> IdsFresh()
    {
      if body.None? || body.value.JNull? {
        return ServerError;
      }
      var tableNumber := Field(body.value, "table_number");
      var restaurantId := Field(body.value, "restaurant_id");
      if !Truthy(tableNumber) || !Truthy(restaurantId) {
        return BadRequest;
      }
      var qrCode := TableUrl(appUrl, nextId, tableNumber.value);
      if qrCode.None? {
        return ServerError;
      }
      var table := Table(nextId, tableNumber.value, restaurantId.value, qrCode.value, true, Open);
      if IdsFresh() {
        AppendKeepsIdsFresh(Ids(tables), nextId);
        assert Ids(tables + [table]) == Ids(tables) + [nextId];
      }
      nextId := nextId + 1;
      tables := tables + [table];
      return Stored(table);
    }

    /** GET: an empty store is first seeded with five example tables; nextId is left alone. */
    method Get() returns (res: seq<Table>)
      modifies this
      ensures old(tables) == [] ==> tables == Seed(5)
      ensures old(tables) != [] ==> tables == old(tables)
      ensures nextId == old(nextId) && res == tables
    {
      if |tables| == 0 {
        for i := 1 to 6
          invariant tables == Seed(i - 1) && nextId == old(nextId)
        {
          tables := tables + [SeedTable(i)];
        }
      }
      res := tables;
    }
  }

  /**
   * The seeded store: tables 1 to 5 of restaurant 1, odd numbers open and even ones closed,
   * each with the QR URL of its own number.
   */
  lemma {:induction false} SeedContents(n: nat)
    ensures forall k :: 0 <= k < n ==>
      var t := Seed(n)[k];
      && t.id == k + 1 && t.tableNumber == JNum(k + 1) && t.restaurantId == JNum(1) && t.active
      && (t.status == Closed <==> (k + 1) % 2 == 0)
      && Some(t.qrCode) == TableUrl(None, k + 1, JNum(k + 1))
  {
    if n > 0 {
      SeedContents(n - 1);
      assert Seed(n) == Seed(n - 1) + [SeedTable(n)];
      assert Interpolate(Some(JNum(n))) == Some(IntToString(n));
      assert BaseUrl(None) + "/table/" == "http://localhost:3000/table/";
      assert TableUrl(None, n, JNum(n)) == Some(SeedTable(n).qrCode);
    }
  }

  /**
   * Seeding does not move nextId, so in a fresh store GET followed by a POST that stores its
   * table gives two tables with id 1.
   */
  lemma SeedThenPostRepeatsId(body: Json, appUrl: Option<string>)
    requires Truthy(Field(body, "table_number")) && Truthy(Field(body, "restaurant_id"))
    requires !ToStringThrows(Field(body, "table_number").value)
    ensures var tn := Field(body, "table_number").value;
      var posted := Table(1, tn, Field(body, "restaurant_id").value,
                          TableUrl(appUrl, 1, tn).value, true, Open);
      var after := Seed(5) + [posted];
      after[0].id == after[5].id && !ApiJson.IdsFresh(Ids(Seed(5)), 1)
  {
    SeedContents(5);
    assert Ids(Seed(5))[0] == 1;
  }
}
