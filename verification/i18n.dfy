/**
 * Portuguese labels of table statuses (src/lib/i18n.ts, src/types/tables.types.ts).
 */
module I18n {
  import opened Wrappers

  /** TableStatusSchema: the three statuses a table can be in. */
  datatype TableStatus = Available | Occupied | Reserved

  /** The status as it is written on the wire. */
  function StatusName(s: TableStatus): string
  {
    match s
    case Available => "available"
    case Occupied => "occupied"
    case Reserved => "reserved"
  }

  /** translateTableStatus(status): the empty text without a status, a label otherwise. */
  function TranslateTableStatus(status: Option<TableStatus>): (r: string)
    ensures r == "" <==> status.None?
    ensures status == Some(Available) ==> r == "Disponível"
    ensures status == Some(Occupied) ==> r == "Ocupado"
    ensures status == Some(Reserved) ==> r == "Reservado"
  {
    if status.None? then ""
    else match status.value
      case Available => "Disponível"
      case Occupied => "Ocupado"
      case Reserved => "Reservado"
  }

  /** Different statuses get different labels, so a label names its status. */
  lemma TranslationInjective(a: Option<TableStatus>, b: Option<TableStatus>)
    ensures TranslateTableStatus(a) == TranslateTableStatus(b) ==> a == b
  {
  }

  /** The wire names are distinct too, so the enum and its labels correspond one to one. */
  lemma StatusNamesDistinct(a: TableStatus, b: TableStatus)
    ensures StatusName(a) == StatusName(b) ==> a == b
  {
  }
}
