/**
 * What the in-memory API routes see of a request body and how they answer
 * (the route files under src/app/api).
 */
module ApiJson {
  import opened Wrappers
  import opened Text

  /** A parsed JSON value. Numbers are integers here. */
  datatype Json = JNull | JBool(b: bool) | JNum(n: int) | JStr(s: string) | JArr(items: seq<Json>) | JObj(fields: map<string, Json>)

  /** `body.key` after destructuring: `undefined` (None) unless an object holds the key. */
  function Field(body: Json, key: string): (r: Option<Json>)
    ensures r.Some? <==> body.JObj? && key in body.fields
  {
    if body.JObj? && key in body.fields then Some(body.fields[key]) else None
  }

  /** JavaScript truthiness of a value that may be `undefined`. */
  predicate Truthy(v: Option<Json>)
  {
    match v
    case None => false
    case Some(JNull) => false
    case Some(JBool(b)) => b
    case Some(JNum(n)) => n != 0
    case Some(JStr(s)) => s != ""
    case Some(JArr(_)) => true
    case Some(JObj(_)) => true
  }

  /** `Array.isArray(v)`. */
  predicate IsArray(v: Option<Json>) { v.Some? && v.value.JArr? }

  /** The answer of a POST: 200 with the stored record, 400 "Dados inválidos" or 500 "Erro interno". */
  datatype Response<T> = Stored(record: T) | BadRequest | ServerError

  const InvalidData := "Dados inválidos"
  const InternalError := "Erro interno"

  /** Why a body is refused before validation: `req.json()` fails (None) or destructuring `null` throws. */
  predicate Unreadable(body: Option<Json>) { body.None? || body.value.JNull? }

  /**
   * Converting `j` to a string throws a TypeError: an object with an own "toString" key (a
   * JSON value is never callable, and `Object.prototype.valueOf` yields the object itself, so
   * no primitive is found), or an array holding such a value at any depth (`join` converts
   * each element that is not null).
   */
  predicate ToStringThrows(j: Json)
    decreases j
  {
    match j
    case JObj(fields) => "toString" in fields
    case JArr(items) => exists i :: 0 <= i < |items| && ToStringThrows(items[i])
    case _ => false
  }

  /** The text `${v}` produces in a template literal, or None where the conversion throws. */
  function Interpolate(v: Option<Json>): (r: Option<string>)
    ensures r.None? <==> v.Some? && ToStringThrows(v.value)
    ensures v.Some? && v.value.JStr? ==> r == Some(v.value.s)
    ensures v.None? ==> r == Some("undefined")
  {
    match v
    case None => Some("undefined")
    case Some(j) => JsonText(j)
  }

  /** `String(j)`: arrays join their elements with commas, null elements print as nothing. */
  function JsonText(j: Json): (r: Option<string>)
    ensures r.None? <==> ToStringThrows(j)
    decreases j, 1
  {
    match j
    case JNull => Some("null")
    case JBool(b) => Some(if b then "true" else "false")
    case JNum(n) => Some(IntToString(n))
    case JStr(s) => Some(s)
    case JArr(items) => ArrayText(items, j)
    case JObj(fields) => if "toString" in fields then None else Some("[object Object]")
  }

  /** `items.join(",")` for the items of the array `whole`. */
  function ArrayText(items: seq<Json>, ghost whole: Json): (r: Option<string>)
    requires forall i :: 0 <= i < |items| ==> items[i] < whole
    ensures r.None? <==> exists i :: 0 <= i < |items| && ToStringThrows(items[i])
    decreases whole, 0, |items|
  {
    if items == [] then Some("")
    else
      var head := if items[0].JNull? then Some("") else JsonText(items[0]);
      if head.None? then None
      else if |items| == 1 then head
      else
        var tail := ArrayText(items[1..], whole);
        assert forall i :: 1 <= i < |items| ==> items[1..][i - 1] == items[i];
        if tail.None? then None else Some(head.value + "," + tail.value)
  }

  /** The ids of a store's records, in store order. */
  function IdList<T>(records: seq<T>, idOf: T -> int): (r: seq<int>)
    ensures |r| == |records| && forall i :: 0 <= i < |records| ==> r[i] == idOf(records[i])
  {
    if records == [] then [] else IdList(records[..|records| - 1], idOf) + [idOf(records[|records| - 1])]
  }

  /** Ids handed out so far: strictly increasing and all below the next id. */
  predicate IdsFresh(ids: seq<int>, nextId: int)
  {
    && (forall i, j :: 0 <= i < j < |ids| ==> ids[i] < ids[j])
    && (forall i :: 0 <= i < |ids| ==> ids[i] < nextId)
  }

  /** Handing out `nextId` and then incrementing it keeps the ids fresh, and so distinct. */
  lemma AppendKeepsIdsFresh(ids: seq<int>, nextId: int)
    requires IdsFresh(ids, nextId)
    ensures IdsFresh(ids + [nextId], nextId + 1)
    ensures nextId !in ids
  {
  }

  /** Fresh ids never repeat. */
  lemma FreshIdsDistinct(ids: seq<int>, nextId: int)
    requires IdsFresh(ids, nextId)
    ensures forall i, j :: 0 <= i < |ids| && 0 <= j < |ids| && i != j ==> ids[i] != ids[j]
  {
    forall i, j | 0 <= i < |ids| && 0 <= j < |ids| && i != j ensures ids[i] != ids[j] {
      if i < j { assert ids[i] < ids[j]; } else { assert ids[j] < ids[i]; }
    }
  }

  /** A number interpolates as its decimal text, so `${n}` of a positive id holds only digits. */
  lemma NumberText(n: nat)
    ensures Interpolate(Some(JNum(n))) == Some(NatToString(n)) && IsDigits(NatToString(n))
  {
  }

  /** Arrays interpolate like `join(",")`. */
  lemma ArrayInterpolation()
    ensures Interpolate(Some(JArr([JNum(1), JNull, JStr("a")]))) == Some("1,,a")
    ensures Interpolate(Some(JArr([]))) == Some("")
  {
    var items := [JNum(1), JNull, JStr("a")];
    assert IntToString(1) == "1";
    assert items[1..][1..] == [JStr("a")];
    var rest := items[1..];
    assert rest[0].JNull? && |rest| == 2 && rest[1..] == [JStr("a")];
    assert ArrayText(rest[1..], JArr(items)) == Some("a");
    assert "" + "," + "a" == ",a";
    assert ArrayText(rest, JArr(items)) == Some(",a");
    assert JsonText(items[0]) == Some("1");
    assert "1" + "," + ",a" == "1,,a";
    assert ArrayText(items, JArr(items)) == Some("1,,a");
  }

  /**
   * A plain object prints as "[object Object]"; one with its own "toString" key throws, and so
   * does an array holding one.
   */
  lemma ObjectInterpolation()
    ensures Interpolate(Some(JObj(map[]))) == Some("[object Object]")
    ensures Interpolate(Some(JObj(map["toString" := JNum(1)]))) == None
    ensures Interpolate(Some(JArr([JNum(1), JObj(map["toString" := JStr("x")])]))) == None
  {
    assert ToStringThrows(JArr([JNum(1), JObj(map["toString" := JStr("x")])]).items[1]);
  }
}
