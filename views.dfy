/** The loading / empty / list choice that the Students and Exams pages make for their body. */
module Views {

  datatype ListView<T> = Skeletons(count: nat) | EmptyState | Rows(rows: seq<T>)

  /**
   * `loading ? skeletons : items.length === 0 ? empty : items.map(render)`:
   * a fixed number of placeholders while loading, the empty state when a
   * finished load found nothing, and one rendered row per item otherwise.
   */
  function ListBody<S, T>(loading: bool, items: seq<S>, skeletons: nat, render: S -> T): (v: ListView<T>)
    ensures v.Skeletons? <==> loading
    ensures v.Skeletons? ==> v.count == skeletons
    ensures v.EmptyState? <==> !loading && items == []
    ensures v.Rows? ==> |v.rows| == |items| && forall i :: 0 <= i < |items| ==> v.rows[i] == render(items[i])
  {
    if loading then Skeletons(skeletons)
    else if items == [] then EmptyState
    else Rows(seq(|items|, i requires 0 <= i < |items| => render(items[i])))
  }
}
