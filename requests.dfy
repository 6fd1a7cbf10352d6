/** The request builders of the search client: the caller's optional options
    record becomes the wire request. The query text (and, for suggest and
    autocomplete, the suggester name) is always set; with options present the
    scalar options are copied, and each list option is comma-joined only when
    the list itself is present. */
module Requests {
  import opened Wrappers
  import opened Primitives
  import opened Streams
  import opened Csv
  import opened AutocompleteRequests

  /** Whether any or all search terms must match. */
  datatype SearchMode = Any | All

  /** Simple or full query syntax. */
  datatype QueryType = Simple | Full

  /** A named scoring-function parameter with its values. */
  datatype ScoringParameter = ScoringParameter(name: string, values: seq<string>)

  datatype SearchOptions = SearchOptions(
    scoringParameters: Option<seq<ScoringParameter>>,
    searchMode: Option<SearchMode>,
    facets: Option<seq<string>>,
    filter: Option<string>,
    highlightPostTag: Option<string>,
    highlightPreTag: Option<string>,
    totalCountIncluded: Option<bool>,
    minimumCoverage: Option<Double>,
    queryType: Option<QueryType>,
    scoringProfile: Option<string>,
    skip: Option<Int32>,
    top: Option<Int32>,
    highlightFields: Option<seq<string>>,
    searchFields: Option<seq<string>>,
    orderBy: Option<seq<string>>,
    select: Option<seq<string>>)

  /** The search wire record; list-valued selections are comma-joined strings,
      while facets and scoring parameters stay lists. */
  datatype SearchRequest = SearchRequest(
    searchText: Option<string>,
    searchMode: Option<SearchMode>,
    facets: Option<seq<string>>,
    filter: Option<string>,
    highlightPostTag: Option<string>,
    highlightPreTag: Option<string>,
    includeTotalResultCount: Option<bool>,
    minimumCoverage: Option<Double>,
    queryType: Option<QueryType>,
    scoringParameters: Option<seq<string>>,
    scoringProfile: Option<string>,
    skip: Option<Int32>,
    top: Option<Int32>,
    highlightFields: Option<string>,
    searchFields: Option<string>,
    orderBy: Option<string>,
    select: Option<string>)

  datatype SuggestOptions = SuggestOptions(
    filter: Option<string>,
    useFuzzyMatching: Option<bool>,
    highlightPostTag: Option<string>,
    highlightPreTag: Option<string>,
    minimumCoverage: Option<Double>,
    top: Option<Int32>,
    searchFields: Option<seq<string>>,
    orderBy: Option<seq<string>>,
    select: Option<seq<string>>)

  datatype SuggestRequest = SuggestRequest(
    searchText: Option<string>,
    suggesterName: Option<string>,
    filter: Option<string>,
    useFuzzyMatching: Option<bool>,
    highlightPostTag: Option<string>,
    highlightPreTag: Option<string>,
    minimumCoverage: Option<Double>,
    top: Option<Int32>,
    searchFields: Option<string>,
    orderBy: Option<string>,
    select: Option<string>)

  /** The options the autocomplete builder reads. */
  datatype AutocompleteOptions = AutocompleteOptions(
    filter: Option<string>,
    useFuzzyMatching: Option<bool>,
    highlightPostTag: Option<string>,
    highlightPreTag: Option<string>,
    minimumCoverage: Option<Double>,
    top: Option<Int32>,
    autocompleteMode: Option<AutocompleteMode>,
    searchFields: Option<seq<string>>)

  /** A freshly constructed wire record: every field null. */
  const NewSearchRequest := SearchRequest(None, None, None, None, None, None, None, None, None,
    None, None, None, None, None, None, None, None)
  const NewSuggestRequest := SuggestRequest(None, None, None, None, None, None, None, None, None, None, None)

  /** Options records in which the caller set nothing. */
  const BlankSearchOptions := SearchOptions(None, None, None, None, None, None, None, None, None,
    None, None, None, None, None, None, None)
  const BlankSuggestOptions := SuggestOptions(None, None, None, None, None, None, None, None, None)
  const BlankAutocompleteOptions := AutocompleteOptions(None, None, None, None, None, None, None, None)

  // ---------------------------------------------------------------- search

  /** `createSearchRequest`. `render` is `ScoringParameter.toString`, applied
      to each scoring parameter in order. */
  function CreateSearchRequest(searchText: Option<string>, options: Option<SearchOptions>,
                               render: ScoringParameter -> string): (r: SearchRequest)
    ensures r.searchText == searchText
  {
    var request := NewSearchRequest.(searchText := searchText);
    match options
    case None => request
    case Some(o) =>
      var scoringParameters :=
        if o.scoringParameters.None? then None else Some(MapList(o.scoringParameters.value, render));
      request.(
        searchMode := o.searchMode,
        facets := o.facets,
        filter := o.filter,
        highlightPostTag := o.highlightPostTag,
        highlightPreTag := o.highlightPreTag,
        includeTotalResultCount := o.totalCountIncluded,
        minimumCoverage := o.minimumCoverage,
        queryType := o.queryType,
        scoringParameters := scoringParameters,
        scoringProfile := o.scoringProfile,
        skip := o.skip,
        top := o.top,
        highlightFields := JoinIfPresent(o.highlightFields),
        searchFields := JoinIfPresent(o.searchFields),
        orderBy := JoinIfPresent(o.orderBy),
        select := JoinIfPresent(o.select))
  }

  /** With null options only the search text is set. */
  lemma SearchNullOptions(searchText: Option<string>, render: ScoringParameter -> string)
    ensures CreateSearchRequest(searchText, None, render) == NewSearchRequest.(searchText := searchText)
  {
  }

  /** Options in which nothing is set build the same request as null options. */
  lemma SearchBlankOptions(searchText: Option<string>, render: ScoringParameter -> string)
    ensures CreateSearchRequest(searchText, Some(BlankSearchOptions), render)
         == CreateSearchRequest(searchText, None, render)
  {
  }

  /** Each of the four list options is carried by its comma-joined field:
      absent stays absent, empty becomes "", and a non-empty comma-free list
      comes back by splitting the field. */
  lemma SearchListFields(searchText: Option<string>, o: SearchOptions, render: ScoringParameter -> string)
    ensures var r := CreateSearchRequest(searchText, Some(o), render);
      && Carries(r.highlightFields, o.highlightFields)
      && Carries(r.searchFields, o.searchFields)
      && Carries(r.orderBy, o.orderBy)
      && Carries(r.select, o.select)
  {
    JoinIfPresentCarries(o.highlightFields);
    JoinIfPresentCarries(o.searchFields);
    JoinIfPresentCarries(o.orderBy);
    JoinIfPresentCarries(o.select);
  }

  /** Scoring parameters are rendered one by one, in order; null stays null.
      Facets are passed through as a list, not joined. */
  lemma SearchScoringParameters(searchText: Option<string>, o: SearchOptions,
                                render: ScoringParameter -> string)
    ensures var r := CreateSearchRequest(searchText, Some(o), render);
      && (r.scoringParameters.None? <==> o.scoringParameters.None?)
      && (o.scoringParameters.Some? ==>
            |r.scoringParameters.value| == |o.scoringParameters.value|
            && forall i :: 0 <= i < |o.scoringParameters.value| ==>
                 r.scoringParameters.value[i] == render(o.scoringParameters.value[i]))
      && r.facets == o.facets
  {
  }

  // --------------------------------------------------------------- suggest

  /** `createSuggestRequest`. */
  function CreateSuggestRequest(searchText: Option<string>, suggesterName: Option<string>,
                                options: Option<SuggestOptions>): (r: SuggestRequest)
    ensures r.searchText == searchText && r.suggesterName == suggesterName
  {
    var request := NewSuggestRequest.(searchText := searchText, suggesterName := suggesterName);
    match options
    case None => request
    case Some(o) =>
      request.(
        filter := o.filter,
        useFuzzyMatching := o.useFuzzyMatching,
        highlightPostTag := o.highlightPostTag,
        highlightPreTag := o.highlightPreTag,
        minimumCoverage := o.minimumCoverage,
        top := o.top,
        searchFields := JoinIfPresent(o.searchFields),
        orderBy := JoinIfPresent(o.orderBy),
        select := JoinIfPresent(o.select))
  }

  /** With null options only the search text and the suggester name are set. */
  lemma SuggestNullOptions(searchText: Option<string>, suggesterName: Option<string>)
    ensures CreateSuggestRequest(searchText, suggesterName, None)
         == NewSuggestRequest.(searchText := searchText, suggesterName := suggesterName)
  {
  }

  lemma SuggestBlankOptions(searchText: Option<string>, suggesterName: Option<string>)
    ensures CreateSuggestRequest(searchText, suggesterName, Some(BlankSuggestOptions))
         == CreateSuggestRequest(searchText, suggesterName, None)
  {
  }

  /** The three list options are carried by their comma-joined fields. */
  lemma SuggestListFields(searchText: Option<string>, suggesterName: Option<string>, o: SuggestOptions)
    ensures var r := CreateSuggestRequest(searchText, suggesterName, Some(o));
      && Carries(r.searchFields, o.searchFields)
      && Carries(r.orderBy, o.orderBy)
      && Carries(r.select, o.select)
  {
    JoinIfPresentCarries(o.searchFields);
    JoinIfPresentCarries(o.orderBy);
    JoinIfPresentCarries(o.select);
  }

  // ---------------------------------------------------------- autocomplete

  /** The fields `createAutoCompleteRequest` leaves in the request it builds. */
  function AutocompleteFieldsFor(searchText: Option<string>, suggesterName: Option<string>,
                                 options: Option<AutocompleteOptions>): (r: AutocompleteFields)
    ensures r.searchText == searchText && r.suggesterName == suggesterName
  {
    var request := Unset.(searchText := searchText, suggesterName := suggesterName);
    match options
    case None => request
    case Some(o) =>
      request.(
        filter := o.filter,
        useFuzzyMatching := o.useFuzzyMatching,
        highlightPostTag := o.highlightPostTag,
        highlightPreTag := o.highlightPreTag,
        minimumCoverage := o.minimumCoverage,
        top := o.top,
        autocompleteMode := o.autocompleteMode,
        searchFields := JoinIfPresent(o.searchFields))
  }

  /** `createAutoCompleteRequest`: a fresh request filled through its fluent
      setters, the two required fields first. */
  method CreateAutoCompleteRequest(searchText: Option<string>, suggesterName: Option<string>,
                                   options: Option<AutocompleteOptions>) returns (r: AutocompleteRequest)
    ensures fresh(r)
    ensures r.Fields() == AutocompleteFieldsFor(searchText, suggesterName, options)
  {
    r := new AutocompleteRequest();
    r := r.SetSearchText(searchText);
    r := r.SetSuggesterName(suggesterName);
    if options.Some? {
      var o := options.value;
      r := r.SetFilter(o.filter);
      r := r.SetUseFuzzyMatching(o.useFuzzyMatching);
      r := r.SetHighlightPostTag(o.highlightPostTag);
      r := r.SetHighlightPreTag(o.highlightPreTag);
      r := r.SetMinimumCoverage(o.minimumCoverage);
      r := r.SetTop(o.top);
      r := r.SetAutocompleteMode(o.autocompleteMode);
      if o.searchFields.Some? {
        r := r.SetSearchFields(Some(Join(o.searchFields.value)));
      }
    }
  }

  /** With null options only the search text and the suggester name are set. */
  lemma AutocompleteNullOptions(searchText: Option<string>, suggesterName: Option<string>)
    ensures AutocompleteFieldsFor(searchText, suggesterName, None)
         == Unset.(searchText := searchText, suggesterName := suggesterName)
  {
  }

  lemma AutocompleteBlankOptions(searchText: Option<string>, suggesterName: Option<string>)
    ensures AutocompleteFieldsFor(searchText, suggesterName, Some(BlankAutocompleteOptions))
         == AutocompleteFieldsFor(searchText, suggesterName, None)
  {
  }

  /** The built request has both required fields exactly when the caller
      passed a non-null search text and suggester name. */
  lemma AutocompleteRequired(searchText: Option<string>, suggesterName: Option<string>,
                             options: Option<AutocompleteOptions>)
    ensures RequiredPresent(AutocompleteFieldsFor(searchText, suggesterName, options))
        <==> searchText.Some? && suggesterName.Some?
  {
  }

  /** Only `searchFields` is joined, and it carries its list. */
  lemma AutocompleteSearchFields(searchText: Option<string>, suggesterName: Option<string>,
                                 o: AutocompleteOptions)
    ensures Carries(AutocompleteFieldsFor(searchText, suggesterName, Some(o)).searchFields, o.searchFields)
  {
    JoinIfPresentCarries(o.searchFields);
  }
}
