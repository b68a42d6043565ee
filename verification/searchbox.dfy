/**
 * The editor's search box without its widgets: a mode chosen from five
 * entries, a text, a record-state choice, the input page the mode shows, and
 * whether the search button may be pressed.
 */
module CSVTools {
  import opened Wrappers

  /** The mode entries, in the order the constructor adds them. */
  const ModeText := 0
  const ModeTextRegEx := 1
  const ModeReference := 2
  const ModeReferenceRegEx := 3
  const ModeRecordState := 4
  const ModeCount := 5

  /** The input page that holds the text field, and the one that holds the record-state list. */
  const TextPage := 0
  const RecordStatePage := 1

  const InvalidModeMessage := "invalid search mode index"

  datatype SearchType = Text | TextRegEx | Reference | ReferenceRegEx | RecordState

  /** What a search looks for: a literal text, a pattern, or the index of a record state. */
  datatype SearchValue =
    | Literal(text: string)
    | Pattern(source: string, caseInsensitive: bool)
    | StateIndex(index: int)

  datatype Search = Search(kind: SearchType, value: SearchValue)

  /** The mode index a search type has in the mode list. */
  function TypeIndex(t: SearchType): nat {
    match t
    case Text => ModeText
    case TextRegEx => ModeTextRegEx
    case Reference => ModeReference
    case ReferenceRegEx => ModeReferenceRegEx
    case RecordState => ModeRecordState
  }

  /** getSearch: the search the current mode describes, or a logic_error for any other mode index. */
  function SearchFor(mode: int, text: string, recordState: int): (r: Result<Search, string>)
    ensures r.Failure? <==> !(0 <= mode < ModeCount)
    ensures r.Failure? ==> r.error == InvalidModeMessage
    ensures r.Success? ==> TypeIndex(r.value.kind) == mode
    ensures r.Success? && (mode == ModeText || mode == ModeReference) ==> r.value.value == Literal(text)
    ensures r.Success? && (mode == ModeTextRegEx || mode == ModeReferenceRegEx) ==>
      r.value.value == Pattern(text, true)
    ensures r.Success? && mode == ModeRecordState ==> r.value.value == StateIndex(recordState)
  {
    match mode
    case 0 => Success(Search(Text, Literal(text)))
    case 1 => Success(Search(TextRegEx, Pattern(text, true)))
    case 2 => Success(Search(Reference, Literal(text)))
    case 3 => Success(Search(ReferenceRegEx, Pattern(text, true)))
    case 4 => Success(Search(RecordState, StateIndex(recordState)))
    case _ => Failure(InvalidModeMessage)
  }

  /** Whether a search for this mode and text has something to look for: a non-empty text, or a record state. */
  predicate HasQuery(mode: int, text: string) {
    mode == ModeRecordState || (0 <= mode < ModeRecordState && text != [])
  }

  /** A mode has a query exactly when its search succeeds and looks for a record state or a non-empty text. */
  lemma QueryMeansSearch(mode: int, text: string, recordState: int)
    ensures var r := SearchFor(mode, text, recordState);
      HasQuery(mode, text) <==> r.Success? && (r.value.value.StateIndex? || text != [])
  {
  }

  /**
   * updateSearchButton: the button state for the flag, mode and text;
   * `previous` is kept for a mode index the switch does not list.
   */
  function ButtonState(searchEnabled: bool, mode: int, text: string, previous: bool): (enabled: bool)
    ensures 0 <= mode < ModeCount ==> (enabled <==> searchEnabled && HasQuery(mode, text))
    ensures !(0 <= mode < ModeCount) ==> (enabled <==> searchEnabled && previous)
  {
    if !searchEnabled then false
    else if 0 <= mode <= 3 then text != []
    else if mode == 4 then true
    else previous
  }

  /** Recomputing the button twice gives what recomputing it once gave. */
  lemma ButtonStateIdempotent(searchEnabled: bool, mode: int, text: string, previous: bool)
    ensures var once := ButtonState(searchEnabled, mode, text, previous);
      ButtonState(searchEnabled, mode, text, once) == once
  {
  }

  /** modeSelected: the input page a mode index shows; an index the switch does not list keeps the page. */
  function PageFor(index: int, current: int): (page: int)
    ensures 0 <= index < ModeCount ==> (page == RecordStatePage <==> index == ModeRecordState)
    ensures 0 <= index < ModeCount ==> (page == TextPage <==> index != ModeRecordState)
    ensures !(0 <= index < ModeCount) ==> page == current
  {
    if 0 <= index <= 3 then TextPage
    else if index == 4 then RecordStatePage
    else current
  }

  class SearchBox {
    var searchEnabled: bool
    /** The current index of the mode list. */
    var mode: int
    /** The text of the text field. */
    var text: string
    /** The record-state entries and the current index of their list (-1 when the list is empty). */
    var recordStates: seq<string>
    var recordState: int
    /** The input page shown: the text field or the record-state list. */
    var inputPage: int
    var searchButtonEnabled: bool

    ghost predicate Valid()
      reads this
    {
      && 0 <= mode < ModeCount
      && inputPage == (if mode == ModeRecordState then RecordStatePage else TextPage)
      && searchButtonEnabled == ButtonState(searchEnabled, mode, text, searchButtonEnabled)
      && (if recordStates == [] then recordState == -1 else 0 <= recordState < |recordStates|)
    }

    /**
     * The box as constructed: searching off, the first mode selected, the
     * text page shown and the button disabled. The record states are the
     * modification states without the last one (erased).
     */
    constructor (modificationStates: seq<string>)
      requires |modificationStates| >= 1
      ensures Valid()
      ensures !searchEnabled && mode == ModeText && text == [] && inputPage == TextPage
      ensures !searchButtonEnabled
      ensures recordStates == modificationStates[..|modificationStates| - 1]
    {
      searchEnabled := false;
      mode := ModeText;
      text := [];
      recordStates := modificationStates[..|modificationStates| - 1];
      recordState := if |modificationStates| == 1 then -1 else 0;
      inputPage := TextPage;
      searchButtonEnabled := true;
      new;
      ModeSelected(0);
      UpdateSearchButton();
    }

    method UpdateSearchButton()
      modifies this`searchButtonEnabled
      ensures searchButtonEnabled == ButtonState(searchEnabled, mode, text, old(searchButtonEnabled))
    {
      if !searchEnabled {
        searchButtonEnabled := false;
      } else if 0 <= mode <= 3 {
        searchButtonEnabled := text != [];
      } else if mode == 4 {
        searchButtonEnabled := true;
      }
    }

    method SetSearchMode(enabled: bool)
      requires Valid()
      modifies this`searchEnabled, this`searchButtonEnabled
      ensures Valid() && searchEnabled == enabled
      ensures searchButtonEnabled <==> enabled && HasQuery(mode, text)
    {
      searchEnabled := enabled;
      UpdateSearchButton();
    }

    /** The slot run when a mode entry is activated: show its input page and recompute the button. */
    method ModeSelected(index: int)
      modifies this`inputPage, this`searchButtonEnabled
      ensures inputPage == PageFor(index, old(inputPage))
      ensures searchButtonEnabled == ButtonState(searchEnabled, mode, text, old(searchButtonEnabled))
    {
      if 0 <= index <= 3 {
        inputPage := TextPage;
      } else if index == 4 {
        inputPage := RecordStatePage;
      }
      UpdateSearchButton();
    }

    /** The user activates mode entry `index`: the list's index changes, then its slot runs. */
    method ActivateMode(index: int)
      requires Valid() && 0 <= index < ModeCount
      modifies this`mode, this`inputPage, this`searchButtonEnabled
      ensures Valid() && mode == index
      ensures inputPage == (if index == ModeRecordState then RecordStatePage else TextPage)
      ensures searchButtonEnabled <==> searchEnabled && HasQuery(index, text)
    {
      mode := index;
      ModeSelected(index);
    }

    /** The text field now holds `newText`; its slot recomputes the button. */
    method TextChanged(newText: string)
      requires Valid()
      modifies this`text, this`searchButtonEnabled
      ensures Valid() && text == newText
      ensures searchButtonEnabled <==> searchEnabled && HasQuery(mode, newText)
    {
      text := newText;
      UpdateSearchButton();
    }

    /** getSearch: the search the box describes; under the box invariant the error branch is never taken. */
    function GetSearch(): (r: Result<Search, string>)
      reads this
      ensures r.Failure? <==> !(0 <= mode < ModeCount)
      ensures Valid() ==> r.Success? && TypeIndex(r.value.kind) == mode
      ensures r.Success? && (mode == ModeText || mode == ModeReference) ==> r.value.value == Literal(text)
      ensures r.Success? && (mode == ModeTextRegEx || mode == ModeReferenceRegEx) ==>
        r.value.value == Pattern(text, true)
      ensures r.Success? && mode == ModeRecordState ==> r.value.value == StateIndex(recordState)
    {
      SearchFor(mode, text, recordState)
    }
  }

  /** Whenever the button can be pressed, getSearch succeeds, and a text search never has an empty text. */
  lemma EnabledButtonSearches(box: SearchBox)
    requires box.Valid() && box.searchButtonEnabled
    ensures box.searchEnabled && box.GetSearch().Success?
    ensures !box.GetSearch().value.value.StateIndex? ==> box.text != []
  {
  }
}
