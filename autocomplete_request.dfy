/** The mutable wire record of an autocomplete call. Every field is nullable
    and starts out null; each fluent setter assigns its own field and hands
    back the same object, and nothing is validated (`top` outside 1..100 or
    any coverage value is stored as given). */
module AutocompleteRequests {
  import opened Wrappers
  import opened Primitives

  /** How the service forms completed terms. */
  datatype AutocompleteMode = OneTerm | TwoTerms | OneTermWithContext

  /** The value of every field of an `AutocompleteRequest` at one moment. */
  datatype AutocompleteFields = AutocompleteFields(
    searchText: Option<string>,
    autocompleteMode: Option<AutocompleteMode>,
    filter: Option<string>,
    useFuzzyMatching: Option<bool>,
    highlightPostTag: Option<string>,
    highlightPreTag: Option<string>,
    minimumCoverage: Option<Double>,
    searchFields: Option<string>,
    suggesterName: Option<string>,
    top: Option<Int32>)

  /** All fields null: a freshly constructed request. */
  const Unset := AutocompleteFields(None, None, None, None, None, None, None, None, None, None)

  /** The JSON properties the annotations mark `required`. */
  predicate RequiredPresent(f: AutocompleteFields)
  {
    f.searchText.Some? && f.suggesterName.Some?
  }

  class AutocompleteRequest {
    var searchText: Option<string>
    var autocompleteMode: Option<AutocompleteMode>
    var filter: Option<string>
    var useFuzzyMatching: Option<bool>
    var highlightPostTag: Option<string>
    var highlightPreTag: Option<string>
    var minimumCoverage: Option<Double>
    var searchFields: Option<string>
    var suggesterName: Option<string>
    var top: Option<Int32>

    /** The current value of all fields. */
    function Fields(): AutocompleteFields
      reads this
    {
      AutocompleteFields(searchText, autocompleteMode, filter, useFuzzyMatching, highlightPostTag,
        highlightPreTag, minimumCoverage, searchFields, suggesterName, top)
    }

    /** No field has an initializer, so every field starts out null. */
    constructor ()
      ensures Fields() == Unset
      ensures !RequiredPresent(Fields())
    {
      searchText, autocompleteMode, filter, useFuzzyMatching := None, None, None, None;
      highlightPostTag, highlightPreTag, minimumCoverage := None, None, None;
      searchFields, suggesterName, top := None, None, None;
    }

    function GetSearchText(): Option<string> reads this { searchText }
    function GetAutocompleteMode(): Option<AutocompleteMode> reads this { autocompleteMode }
    function GetFilter(): Option<string> reads this { filter }
    function IsUseFuzzyMatching(): Option<bool> reads this { useFuzzyMatching }
    function GetHighlightPostTag(): Option<string> reads this { highlightPostTag }
    function GetHighlightPreTag(): Option<string> reads this { highlightPreTag }
    function GetMinimumCoverage(): Option<Double> reads this { minimumCoverage }
    function GetSearchFields(): Option<string> reads this { searchFields }
    function GetSuggesterName(): Option<string> reads this { suggesterName }
    function GetTop(): Option<Int32> reads this { top }

    method SetSearchText(v: Option<string>) returns (self: AutocompleteRequest)
      modifies this`searchText
      ensures self == this && GetSearchText() == v
      ensures Fields() == old(Fields()).(searchText := v)
    {
      searchText := v;
      self := this;
    }

    method SetAutocompleteMode(v: Option<AutocompleteMode>) returns (self: AutocompleteRequest)
      modifies this`autocompleteMode
      ensures self == this && GetAutocompleteMode() == v
      ensures Fields() == old(Fields()).(autocompleteMode := v)
    {
      autocompleteMode := v;
      self := this;
    }

    method SetFilter(v: Option<string>) returns (self: AutocompleteRequest)
      modifies this`filter
      ensures self == this && GetFilter() == v
      ensures Fields() == old(Fields()).(filter := v)
    {
      filter := v;
      self := this;
    }

    method SetUseFuzzyMatching(v: Option<bool>) returns (self: AutocompleteRequest)
      modifies this`useFuzzyMatching
      ensures self == this && IsUseFuzzyMatching() == v
      ensures Fields() == old(Fields()).(useFuzzyMatching := v)
    {
      useFuzzyMatching := v;
      self := this;
    }

    method SetHighlightPostTag(v: Option<string>) returns (self: AutocompleteRequest)
      modifies this`highlightPostTag
      ensures self == this && GetHighlightPostTag() == v
      ensures Fields() == old(Fields()).(highlightPostTag := v)
    {
      highlightPostTag := v;
      self := this;
    }

    method SetHighlightPreTag(v: Option<string>) returns (self: AutocompleteRequest)
      modifies this`highlightPreTag
      ensures self == this && GetHighlightPreTag() == v
      ensures Fields() == old(Fields()).(highlightPreTag := v)
    {
      highlightPreTag := v;
      self := this;
    }

    /** Any coverage value is accepted; the documented 0..100 range is not checked. */
    method SetMinimumCoverage(v: Option<Double>) returns (self: AutocompleteRequest)
      modifies this`minimumCoverage
      ensures self == this && GetMinimumCoverage() == v
      ensures Fields() == old(Fields()).(minimumCoverage := v)
    {
      minimumCoverage := v;
      self := this;
    }

    method SetSearchFields(v: Option<string>) returns (self: AutocompleteRequest)
      modifies this`searchFields
      ensures self == this && GetSearchFields() == v
      ensures Fields() == old(Fields()).(searchFields := v)
    {
      searchFields := v;
      self := this;
    }

    method SetSuggesterName(v: Option<string>) returns (self: AutocompleteRequest)
      modifies this`suggesterName
      ensures self == this && GetSuggesterName() == v
      ensures Fields() == old(Fields()).(suggesterName := v)
    {
      suggesterName := v;
      self := this;
    }

    /** Any `Integer` is accepted; the documented 1..100 range is not checked. */
    method SetTop(v: Option<Int32>) returns (self: AutocompleteRequest)
      modifies this`top
      ensures self == this && GetTop() == v
      ensures Fields() == old(Fields()).(top := v)
    {
      top := v;
      self := this;
    }
  }
}
