/**
 * The multi-select widget (src/components/MultiSelect.tsx). The selected
 * ids `value` belong to the parent: selecting and removing compute the
 * next `value` handed to `onChange`, so they are functions. The widget's
 * own state, whether the dropdown is open and the search text, is the
 * class `MultiSelect`.
 */
module MultiSelectWidget {
  import opened Types
  import opened Text
  import opened Seqs

  /** An option; `labelText` is the source's `label` (a reserved word in Dafny). */
  datatype SelectOption = SelectOption(id: string, labelText: string, sublabel: Option<string>)

  /** The `placeholder` prop's default. */
  const DefaultPlaceholder: string := "Selecione..."

  /** The trigger of a widget mounted without a `placeholder` prop. */
  function DefaultTrigger(options: seq<SelectOption>, value: seq<string>): (t: TriggerContent)
    ensures t.PlaceholderText? <==> SelectedOptions(options, value) == []
    ensures t.PlaceholderText? ==> t.text == DefaultPlaceholder
  {
    Trigger(options, value, DefaultPlaceholder)
  }

  function HasIdIn(value: seq<string>): SelectOption -> bool
  {
    (o: SelectOption) => o.id in value
  }

  /** The options whose id is selected, in the order of `options` (not of `value`). */
  function SelectedOptions(options: seq<SelectOption>, value: seq<string>): (r: seq<SelectOption>)
    ensures forall o :: o in r <==> o in options && o.id in value
    ensures IsSubsequence(r, options)
    ensures forall o :: multiset(r)[o] == if o.id in value then multiset(options)[o] else 0
  {
    FilterIsSubsequence(options, HasIdIn(value));
    FilterCounts(options, HasIdIn(value));
    Filter(options, HasIdIn(value))
  }

  /**
   * The search test: the lower-cased term occurs in the lower-cased label,
   * or in the lower-cased sublabel when there is a non-empty one.
   */
  predicate MatchesSearch(o: SelectOption, term: string)
  {
    Contains(Lower(o.labelText), Lower(term))
    || (Present(o.sublabel) && Contains(Lower(o.sublabel.value), Lower(term)))
  }

  function Matching(term: string): SelectOption -> bool
  {
    (o: SelectOption) => MatchesSearch(o, term)
  }

  /** The options listed in the open dropdown for a search term. */
  function FilteredOptions(options: seq<SelectOption>, term: string): (r: seq<SelectOption>)
    ensures forall o :: o in r <==> o in options && MatchesSearch(o, term)
    ensures IsSubsequence(r, options)
    ensures forall o :: multiset(r)[o] == if MatchesSearch(o, term) then multiset(options)[o] else 0
  {
    FilterIsSubsequence(options, Matching(term));
    FilterCounts(options, Matching(term));
    Filter(options, Matching(term))
  }

  /** An empty search lists every option, in order. */
  lemma {:induction false} FilteredEmptyTerm(options: seq<SelectOption>)
    ensures FilteredOptions(options, "") == options
  {
    forall o | o in options
      ensures Matching("")(o)
    {
      ContainsEmpty(Lower(o.labelText));
    }
    FilterAll(options, Matching(""));
  }

  /** The search ignores ASCII case: terms that lower-case alike list the same options. */
  lemma {:induction false} SearchIgnoresCase(options: seq<SelectOption>, t1: string, t2: string)
    requires Lower(t1) == Lower(t2)
    ensures FilteredOptions(options, t1) == FilteredOptions(options, t2)
  {
    FilterExtensional(options, Matching(t1), Matching(t2));
  }

  function IsNot(id: string): string -> bool
  {
    (x: string) => x != id
  }

  /** The chip's remove button: every occurrence of `id` leaves the selection. */
  function HandleRemove(value: seq<string>, id: string): (r: seq<string>)
    ensures id !in r
    ensures IsSubsequence(r, value)
    ensures forall x :: x != id ==> multiset(r)[x] == multiset(value)[x]
  {
    FilterIsSubsequence(value, IsNot(id));
    FilterCounts(value, IsNot(id));
    Filter(value, IsNot(id))
  }

  /** Clicking an option: an unselected id is appended, a selected one is removed. */
  function HandleSelect(value: seq<string>, id: string): (r: seq<string>)
    ensures forall x :: x in r <==> if x == id then id !in value else x in value
    ensures id !in value ==> r == value + [id]
    ensures id in value ==> r == HandleRemove(value, id)
  {
    if id in value then HandleRemove(value, id) else value + [id]
  }

  /** HandleRemove's contract pins its result down: no other list meets it. */
  lemma {:induction false} RemoveCharacterised(value: seq<string>, id: string, r: seq<string>)
    requires id !in r
    requires IsSubsequence(r, value)
    requires forall x :: x != id ==> multiset(r)[x] == multiset(value)[x]
    ensures r == HandleRemove(value, id)
  {
    forall x
      ensures multiset(r)[x] == if IsNot(id)(x) then multiset(value)[x] else 0
    {
    }
    FilterUnique(value, IsNot(id), r);
  }

  lemma {:induction false} RemoveIdempotent(value: seq<string>, id: string)
    ensures HandleRemove(HandleRemove(value, id), id) == HandleRemove(value, id)
  {
    FilterIdempotent(value, IsNot(id));
  }

  /** Selecting an unselected id and then selecting it again restores the selection. */
  lemma {:induction false} SelectTwiceRestores(value: seq<string>, id: string)
    requires id !in value
    ensures HandleSelect(HandleSelect(value, id), id) == value
  {
    FilterAppend(value, [id], IsNot(id));
    FilterAll(value, IsNot(id));
    assert Filter([id], IsNot(id)) == [];
  }

  /** The trigger's red border: a required widget with nothing selected. */
  predicate RequiredError(required: bool, value: seq<string>)
  {
    required && |value| == 0
  }

  /** Selecting a new id always clears the error; removing one raises it exactly when only that id was selected. */
  lemma {:induction false} RequiredErrorAfterChange(required: bool, value: seq<string>, id: string)
    ensures id !in value ==> !RequiredError(required, HandleSelect(value, id))
    ensures RequiredError(required, HandleRemove(value, id)) <==> required && forall x :: x in value ==> x == id
  {
    var r := HandleRemove(value, id);
    if r != [] {
      assert r[0] in multiset(r);
      assert r[0] in value;
    }
  }

  /** The chips shown on the trigger: the first two selected options. */
  function Chips(selected: seq<SelectOption>): (r: seq<SelectOption>)
    ensures |r| <= 2 && r <= selected
    ensures |r| == if |selected| < 2 then |selected| else 2
  {
    if |selected| <= 2 then selected else selected[..2]
  }

  /** How many selected options the chips leave out. */
  function OverflowCount(selected: seq<SelectOption>): (n: nat)
    ensures |Chips(selected)| + n == |selected|
  {
    if |selected| > 2 then |selected| - 2 else 0
  }

  /** The `+N mais` label, shown only when some selected option has no chip. */
  function OverflowLabel(selected: seq<SelectOption>): (r: Option<string>)
    ensures r.Some? <==> |selected| > 2
    ensures r.Some? ==> |r.value| > 1 && r.value[0] == '+' && ReadCount(r.value[1..]) == |selected| - 2
  {
    if |selected| > 2 then
      var s := "+" + NatToString(OverflowCount(selected)) + " mais";
      assert s[1..] == NatToString(OverflowCount(selected)) + " mais";
      ReadCountOf(OverflowCount(selected), " mais");
      Some(s)
    else None
  }

  /** The footer text `N selecionado(s)`, present only when something is selected. */
  function FooterLabel(selected: seq<SelectOption>): (r: Option<string>)
    ensures r.Some? <==> |selected| > 0
    ensures r.Some? ==> ReadCount(r.value) == |selected|
    ensures r.Some? ==> (r.value[|r.value| - 1] == 's' <==> |selected| != 1)
  {
    if |selected| > 0 then
      var suffix := if |selected| != 1 then "s" else "";
      ReadCountOf(|selected|, " selecionado" + suffix);
      Some(NatToString(|selected|) + (" selecionado" + suffix))
    else None
  }

  datatype TriggerContent =
    | PlaceholderText(text: string)
    | ChipRow(chips: seq<SelectOption>, overflow: Option<string>)

  /** What the trigger shows, open or closed: the placeholder, or the chips and the overflow label. */
  function Trigger(options: seq<SelectOption>, value: seq<string>, placeholder: string): (t: TriggerContent)
    ensures t.PlaceholderText? <==> SelectedOptions(options, value) == []
    ensures t.PlaceholderText? ==> t.text == placeholder
    ensures t.ChipRow? ==> t.chips == Chips(SelectedOptions(options, value))
    ensures t.ChipRow? ==> t.overflow == OverflowLabel(SelectedOptions(options, value))
  {
    var selected := SelectedOptions(options, value);
    if |selected| > 0 then ChipRow(Chips(selected), OverflowLabel(selected)) else PlaceholderText(placeholder)
  }

  /** The widget's own state: whether the dropdown is open, and the search text. */
  class MultiSelect {
    var isOpen: bool
    var searchTerm: string

    constructor ()
      ensures !isOpen && searchTerm == ""
    {
      isOpen := false;
      searchTerm := "";
    }

    /** The options listed under the search box: none while closed. */
    function Listed(options: seq<SelectOption>): (r: seq<SelectOption>)
      reads this
      ensures !isOpen ==> r == []
      ensures isOpen ==> r == FilteredOptions(options, searchTerm)
    {
      if isOpen then FilteredOptions(options, searchTerm) else []
    }

    /** The footer of the dropdown: shown only while it is open and something is selected. */
    function Footer(options: seq<SelectOption>, value: seq<string>): (r: Option<string>)
      reads this
      ensures r.Some? <==> isOpen && SelectedOptions(options, value) != []
      ensures r.Some? ==> ReadCount(r.value) == |SelectedOptions(options, value)|
    {
      if isOpen then FooterLabel(SelectedOptions(options, value)) else None
    }

    /**
     * A chip's remove button: the next `value` drops the chip's id. The click
     * stops propagating, so it never reaches the trigger and the dropdown
     * stays as it was.
     */
    method RemoveChip(options: seq<SelectOption>, value: seq<string>, chip: SelectOption) returns (next: seq<string>)
      requires chip in Chips(SelectedOptions(options, value))
      ensures next == HandleRemove(value, chip.id)
      ensures chip.id in value && chip.id !in next
      ensures isOpen == old(isOpen) && searchTerm == old(searchTerm)
    {
      var selected := SelectedOptions(options, value);
      assert chip in selected by {
        var i :| 0 <= i < |Chips(selected)| && Chips(selected)[i] == chip;
        assert selected[i] == chip;
      }
      next := HandleRemove(value, chip.id);
    }

    /** Clicking the trigger flips the dropdown and keeps the search text. */
    method ClickTrigger()
      modifies this
      ensures isOpen == !old(isOpen)
      ensures searchTerm == old(searchTerm)
    {
      isOpen := !isOpen;
    }

    /** Typing in the search box, which exists only while the dropdown is open. */
    method TypeSearch(term: string)
      requires isOpen
      modifies this
      ensures searchTerm == term
      ensures isOpen == old(isOpen)
    {
      searchTerm := term;
    }

    /** A key pressed in the search box: Escape closes and clears, other keys change nothing. */
    method KeyDown(key: string)
      requires isOpen
      modifies this
      ensures key == "Escape" ==> !isOpen && searchTerm == ""
      ensures key != "Escape" ==> isOpen == old(isOpen) && searchTerm == old(searchTerm)
    {
      if key == "Escape" {
        isOpen := false;
        searchTerm := "";
      }
    }

    /** A mousedown anywhere in the document: outside the widget it closes and clears. */
    method MouseDown(insideContainer: bool)
      modifies this
      ensures !insideContainer ==> !isOpen && searchTerm == ""
      ensures insideContainer ==> isOpen == old(isOpen) && searchTerm == old(searchTerm)
    {
      if !insideContainer {
        isOpen := false;
        searchTerm := "";
      }
    }
  }

  /** After Escape, reopening lists every option again; closing with the trigger would keep the filter. */
  method EscapeThenReopen(m: MultiSelect, options: seq<SelectOption>)
    requires m.isOpen
    modifies m
    ensures m.isOpen && m.Listed(options) == options
  {
    m.KeyDown("Escape");
    m.ClickTrigger();
    FilteredEmptyTerm(options);
  }
}
