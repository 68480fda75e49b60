/**
 * The search bar's suggestion list and handlers, and the quick-filter chips.
 * The text value belongs to the caller; the handlers report edits and picks
 * through callbacks, modelled here as a returned report.
 */
module SearchComponents {
  import opened Wrappers
  import Seqs
  import Text

  /**
   * The suggestions that contain the current value, ignoring case, other
   * than the value itself; at most five, in the caller's order.
   */
  function FilteredSuggestions(suggestions: seq<string>, value: string): seq<string>
  {
    Seqs.Take(Seqs.Filter(suggestions, (s: string) => Text.ContainsIgnoreCase(s, value) && s != value), 5)
  }

  lemma FilteredSuggestionsSound(suggestions: seq<string>, value: string)
    ensures |FilteredSuggestions(suggestions, value)| <= 5
    ensures Seqs.Subseq(FilteredSuggestions(suggestions, value), suggestions)
    ensures forall i :: 0 <= i < |FilteredSuggestions(suggestions, value)| ==>
      Text.ContainsIgnoreCase(FilteredSuggestions(suggestions, value)[i], value) &&
      FilteredSuggestions(suggestions, value)[i] != value
  {
    var matching := Seqs.Filter(suggestions, (s: string) => Text.ContainsIgnoreCase(s, value) && s != value);
    Seqs.FilterIsSubseq(suggestions, (s: string) => Text.ContainsIgnoreCase(s, value) && s != value);
    Seqs.PrefixIsSubseq(matching, |FilteredSuggestions(suggestions, value)|);
    Seqs.SubseqTrans(FilteredSuggestions(suggestions, value), matching, suggestions);
  }

  /**
   * When fewer than five suggestions match, none is dropped: every matching
   * suggestion other than the value is offered.
   */
  lemma FilteredSuggestionsComplete(suggestions: seq<string>, value: string, s: string)
    requires |Seqs.Filter(suggestions, (x: string) => Text.ContainsIgnoreCase(x, value) && x != value)| <= 5
    requires s in suggestions && Text.ContainsIgnoreCase(s, value) && s != value
    ensures s in FilteredSuggestions(suggestions, value)
  {
    Seqs.FilterMembership(suggestions, (x: string) => Text.ContainsIgnoreCase(x, value) && x != value);
  }

  /** With an empty value, the first five non-empty suggestions are offered. */
  lemma EmptyValueOffersNonEmpty(suggestions: seq<string>)
    ensures FilteredSuggestions(suggestions, "") == Seqs.Take(Seqs.Filter(suggestions, (s: string) => s != ""), 5)
  {
    forall i | 0 <= i < |suggestions|
      ensures Text.ContainsIgnoreCase(suggestions[i], "")
    {
      Text.IncludesEmpty(suggestions[i]);
    }
    Seqs.FilterExt(suggestions, (s: string) => Text.ContainsIgnoreCase(s, "") && s != "", (s: string) => s != "");
  }

  /**
   * What a handler reports to the caller: the new value through `onChange`,
   * the pick through `onSuggestionSelect` when the caller passed one, and
   * whether it closes the dropdown.
   */
  datatype Report = Report(value: string, selected: Option<string>, closesDropdown: bool)

  /** The clear button reports the empty string and leaves the dropdown as it is. */
  function HandleClear(): (r: Report)
    ensures r.value == "" && r.selected.None? && !r.closesDropdown
  {
    Report("", None, false)
  }

  /** Picking a suggestion reports it as the value and as the selection, and closes the dropdown. */
  function HandleSuggestionClick(s: string, hasSelectHandler: bool): (r: Report)
    ensures r.value == s && r.closesDropdown
    ensures r.selected.Some? <==> hasSelectHandler
    ensures r.selected.Some? ==> r.selected.value == s
  {
    Report(s, if hasSelectHandler then Some(s) else None, true)
  }

  /** The suggestions on screen: the filtered list while the dropdown is open. */
  function Dropdown(open: bool, suggestions: seq<string>, value: string): seq<string>
  {
    if open then FilteredSuggestions(suggestions, value) else []
  }

  /**
   * After a pick the dropdown shows nothing, and once the picked suggestion
   * is the value it is not offered again even when the dropdown reopens.
   */
  lemma PickedSuggestionNotOffered(suggestions: seq<string>, s: string, hasSelectHandler: bool, reopened: bool)
    ensures var r := HandleSuggestionClick(s, hasSelectHandler);
      Dropdown(!r.closesDropdown, suggestions, r.value) == [] &&
      r.value !in Dropdown(reopened, suggestions, r.value)
  {
    FilteredSuggestionsSound(suggestions, s);
  }

  /** After a clear the suggestions on offer are the first five non-empty ones. */
  lemma ClearOffersNonEmpty(suggestions: seq<string>)
    ensures Dropdown(true, suggestions, HandleClear().value) == Seqs.Take(Seqs.Filter(suggestions, (s: string) => s != ""), 5)
  {
    EmptyValueOffersNonEmpty(suggestions);
  }

  // ----- quick filters -----

  datatype QuickFilter = QuickFilter(key: string, caption: string, count: Option<int>)

  /** A chip is highlighted when its key is the active filter. */
  predicate ChipActive(f: QuickFilter, activeFilter: string)
  {
    activeFilter == f.key
  }

  /** Clicking a chip asks the caller to make its key the active filter. */
  function ChipClick(f: QuickFilter): string { f.key }

  function ActiveChips(filters: seq<QuickFilter>, activeFilter: string): seq<QuickFilter>
  {
    Seqs.Filter(filters, (f: QuickFilter) => ChipActive(f, activeFilter))
  }

  /**
   * After a chip is clicked (and the caller adopts its key) that chip is
   * highlighted, and with distinct keys it is the only highlighted chip.
   */
  lemma {:induction false} ClickHighlightsOnlyThatChip(filters: seq<QuickFilter>, i: nat)
    requires i < |filters|
    requires forall a, b :: 0 <= a < b < |filters| ==> filters[a].key != filters[b].key
    ensures ActiveChips(filters, ChipClick(filters[i])) == [filters[i]]
  {
    if i == 0 {
      Seqs.FilterKeepsNone(filters[1..], (f: QuickFilter) => ChipActive(f, ChipClick(filters[0])));
    } else {
      ClickHighlightsOnlyThatChip(filters[1..], i - 1);
    }
  }
}
