/** The loads grid (client/src/components/Table.tsx): one row of eight cells per load, with labels looked up by id. */
module TableView {
  import opened Wrappers
  import opened Decimal
  import opened Types
  import opened StatusBadge

  /** `find` by id: the first reference carrying the id. */
  function Find(refs: seq<Reference>, id: int): (r: Option<Reference>)
    ensures r.None? <==> forall k :: 0 <= k < |refs| ==> refs[k].id != id
    ensures r.Some? ==> r.value in refs && r.value.id == id
  {
    if refs == [] then None
    else if refs[0].id == id then Some(refs[0])
    else Find(refs[1..], id)
  }

  lemma {:induction false} FindFirst(refs: seq<Reference>, id: int, k: nat)
    requires k < |refs| && refs[k].id == id
    requires forall j :: 0 <= j < k ==> refs[j].id != id
    ensures Find(refs, id) == Some(refs[k])
  {
    if k > 0 {
      FindFirst(refs[1..], id, k - 1);
    }
  }

  /** getStatusLabel / getCarrierLabel: the label found, or the id's text when none is found or it is empty. */
  function LabelFor(refs: seq<Reference>, id: int): (shown: string)
    ensures shown != ""
  {
    match Find(refs, id)
    case Some(r) => if r.text != "" then r.text else IntToString(id)
    case None => IntToString(id)
  }

  /** The label is that of the first reference with the id, unless that label is empty. */
  lemma LabelOfFirstMatch(refs: seq<Reference>, id: int, k: nat)
    requires k < |refs| && refs[k].id == id
    requires forall j :: 0 <= j < k ==> refs[j].id != id
    ensures LabelFor(refs, id) == if refs[k].text != "" then refs[k].text else IntToString(id)
  {
    FindFirst(refs, id, k);
  }

  /** With no reference for the id, the label is the id's text, which reads back as the id. */
  lemma LabelFallback(refs: seq<Reference>, id: int)
    requires forall k :: 0 <= k < |refs| ==> refs[k].id != id
    ensures LabelFor(refs, id) == IntToString(id)
    ensures ParseDecimal(LabelFor(refs, id)) == Some(id)
  {
    ParseIntToString(id);
  }

  /** A table cell; dates, weights and prices keep their raw value (their locale formatting is not modelled). */
  datatype Cell =
    | TextCell(text: string)
    | BadgeCell(badge: BadgeView)
    | DateCell(iso: string)
    | WeightCell(pounds: real)
    | PriceCell(amount: real)

  datatype Row = Row(key: string, cells: seq<Cell>)

  const Headers: seq<string> := ["Load ID", "Origin", "Destination", "Status", "Date", "Weight", "Carrier", "Price"]

  /** One row: a cell under each of the eight headers, keyed by the load's id. */
  function RowFor(load: Load, statuses: seq<Status>, carriers: seq<Carrier>): (row: Row)
    ensures row.key == load.id && |row.cells| == |Headers|
    ensures row.cells[..3] == [TextCell(load.id), TextCell(load.origin), TextCell(load.destination)]
    ensures row.cells[3] == BadgeCell(BadgeFor(LabelFor(statuses, load.status)))
    ensures row.cells[6] == TextCell(LabelFor(carriers, load.carrier))
  {
    Row(load.id, [
      TextCell(load.id),
      TextCell(load.origin),
      TextCell(load.destination),
      BadgeCell(BadgeFor(LabelFor(statuses, load.status))),
      DateCell(load.date),
      WeightCell(load.weight),
      TextCell(LabelFor(carriers, load.carrier)),
      PriceCell(load.price)])
  }

  /** `loads.map(...)`: exactly one row per load, in the order of the loads. */
  function Rows(loads: seq<Load>, statuses: seq<Status>, carriers: seq<Carrier>): (rows: seq<Row>)
    ensures |rows| == |loads|
    ensures forall i :: 0 <= i < |loads| ==> rows[i] == RowFor(loads[i], statuses, carriers)
  {
    if loads == [] then [] else [RowFor(loads[0], statuses, carriers)] + Rows(loads[1..], statuses, carriers)
  }

  /** Without reference data, every row shows the raw status and carrier ids. */
  lemma RowsWithoutReferences(loads: seq<Load>, i: nat)
    requires i < |loads|
    ensures Rows(loads, [], [])[i].cells[3] == BadgeCell(BadgeFor(IntToString(loads[i].status)))
    ensures Rows(loads, [], [])[i].cells[6] == TextCell(IntToString(loads[i].carrier))
  {
    LabelFallback([], loads[i].status);
    LabelFallback([], loads[i].carrier);
  }
}
