/** The filter bar (client/src/components/FilterBar.tsx): the search box and the two id selects. */
module FilterBar {
  import opened Wrappers
  import opened Decimal
  import opened Types

  datatype SelectOption = SelectOption(value: string, text: string)

  const AllStatuses := "All Statuses"
  const AllCarriers := "All Carriers"

  /** `selected ?? ""`: the select shows the id's text, or the empty value when no id is chosen. */
  function SelectValue(selected: Option<int>): (value: string)
    ensures value == "" <==> selected.None?
    ensures selected.Some? ==> value == IntToString(selected.value)
  {
    if selected.Some? then IntToString(selected.value) else ""
  }

  /** `value ? Number(value) : undefined`, for the values a select can report: "" or an id's text. */
  function DecodeSelect(value: string): (r: Option<int>)
    requires value == "" || IsDecimal(value)
    ensures r.None? <==> value == ""
  {
    if value != "" then ParseDecimal(value) else None
  }

  /** Showing an id and reading the shown value back gives the same id, or none for none. */
  lemma SelectRoundTrip(selected: Option<int>)
    ensures SelectValue(selected) == "" || IsDecimal(SelectValue(selected))
    ensures DecodeSelect(SelectValue(selected)) == selected
  {
    if selected.Some? {
      ParseIntToString(selected.value);
    }
  }

  /** The options: the "All …" entry with the empty value first, then one per item, in order. */
  function Options(allText: string, items: seq<Reference>): (opts: seq<SelectOption>)
    ensures |opts| == |items| + 1 && opts[0] == SelectOption("", allText)
    ensures forall i :: 0 <= i < |items| ==> opts[i + 1] == SelectOption(IntToString(items[i].id), items[i].text)
  {
    [SelectOption("", allText)]
      + seq(|items|, i requires 0 <= i < |items| => SelectOption(IntToString(items[i].id), items[i].text))
  }

  /** Choosing option k reports no id for the first option and the id of item k - 1 otherwise. */
  lemma PickOption(allText: string, items: seq<Reference>, k: nat)
    requires k < |items| + 1
    ensures Options(allText, items)[k].value == "" || IsDecimal(Options(allText, items)[k].value)
    ensures DecodeSelect(Options(allText, items)[k].value) == if k == 0 then None else Some(items[k - 1].id)
  {
    if k > 0 {
      ParseIntToString(items[k - 1].id);
    }
  }

  /** The value a select shows for item k's id is that of option k + 1, the entry for the item. */
  lemma ShownValueIsOption(allText: string, items: seq<Reference>, k: nat)
    requires k < |items|
    ensures SelectValue(Some(items[k].id)) == Options(allText, items)[k + 1].value
  {
  }

  /** What the bar renders: the search text and, for each select, its value and options. */
  datatype FilterBarView = FilterBarView(
    searchValue: string,
    statusValue: string,
    statusOptions: seq<SelectOption>,
    carrierValue: string,
    carrierOptions: seq<SelectOption>)

  function Controls(
    searchTerm: string, selectedStatus: Option<int>, selectedCarrier: Option<int>,
    statuses: seq<Status>, carriers: seq<Carrier>): (v: FilterBarView)
    ensures v.searchValue == searchTerm
    ensures v.statusValue == SelectValue(selectedStatus) && v.statusOptions == Options(AllStatuses, statuses)
    ensures v.carrierValue == SelectValue(selectedCarrier) && v.carrierOptions == Options(AllCarriers, carriers)
  {
    FilterBarView(
      searchTerm,
      SelectValue(selectedStatus), Options(AllStatuses, statuses),
      SelectValue(selectedCarrier), Options(AllCarriers, carriers))
  }
}
