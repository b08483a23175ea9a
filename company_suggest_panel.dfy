/** The company suggest panel: each keystroke cancels the pending search
    and, when the input has at least two visible characters, schedules a
    new one; the search lists the service's candidates with a status label
    and preselects the first; a click on a candidate announces it. */
module CompanySuggest {
  import opened Common
  import opened Text

  const MinChars := 2
  const ResultLimit := 10
  const SearchFailedTitle := "検索に失敗しました"
  const StatusSeparator := " • "

  /** A company as the search service returns it; `status` may be null. */
  datatype CompanyRecord = CompanyRecord(
    name: string, jurisdictionCode: string, companyNumber: string,
    status: Option<string>, rawAddress: string, source: string)

  /** A listed candidate: the service's record with every field kept, plus
      the derived display label. */
  datatype Candidate = Candidate(record: CompanyRecord, statusLabel: string)

  /** What `searchCompanies` is asked for. */
  datatype SearchRequest = SearchRequest(query: string, jurisdiction: Option<string>, limit: nat)

  datatype Event = ShowToast(toast: Toast) | CompanySelect(company: Candidate)

  predicate Truthy(s: Option<string>) {
    s.Some? && s.value != ""
  }

  /** " • status" for a status that is set, nothing otherwise. */
  function StatusLabel(status: Option<string>): (r: string)
    ensures r != "" <==> Truthy(status)
    ensures Truthy(status) ==> r == StatusSeparator + status.value
  {
    if Truthy(status) then StatusSeparator + status.value else ""
  }

  /** The `map` over the response: one candidate per record, in order, each
      keeping its record and gaining its status label. */
  function WithStatusLabels(records: seq<CompanyRecord>): (r: seq<Candidate>)
    ensures |r| == |records|
    ensures forall i :: 0 <= i < |r| ==>
              r[i].record == records[i] && r[i].statusLabel == StatusLabel(records[i].status)
  {
    if records == [] then []
    else [Candidate(records[0], StatusLabel(records[0].status))] + WithStatusLabels(records[1..])
  }

  /** `toLowerCase` on the characters that lower-case into the letters of
      "test" and "mock:": the ASCII capitals and the Kelvin sign (U+212A),
      which lower-cases to 'k'. No other character lower-cases into one of
      these letters, so the keyword tests below agree with `toLowerCase`. */
  function KeywordLower(c: char): char {
    if 'A' <= c <= 'Z' then (c as int + 32) as char
    else if c == '\U{212A}' then 'k'
    else c
  }

  function KeywordLowerAll(s: string): (r: string)
    ensures |r| == |s|
    ensures forall i :: 0 <= i < |s| ==> r[i] == KeywordLower(s[i])
  {
    if s == [] then [] else [KeywordLower(s[0])] + KeywordLowerAll(s[1..])
  }

  /** The trimmed query selects the mock branch: "test" or a "mock:" prefix,
      in any letter case. */
  predicate IsMockQuery(trimmed: string) {
    var lower := KeywordLowerAll(trimmed);
    lower == "test" || "mock:" <= lower
  }

  /** Only a query of at least four characters selects the mock branch;
      the keywords as written select it, and so do their upper-case forms. */
  lemma MockKeywords(trimmed: string)
    ensures IsMockQuery(trimmed) ==> |trimmed| >= 4
    ensures trimmed in {"test", "TEST"} || "mock:" <= trimmed || "MOCK:" <= trimmed
            ==> IsMockQuery(trimmed)
  {
    var lower := KeywordLowerAll(trimmed);
    if "mock:" <= trimmed || "MOCK:" <= trimmed {
      assert lower[..5] == "mock:";
    } else if trimmed in {"test", "TEST"} {
      assert lower == "test";
    }
  }

  /** The client-side guard at the top of `doSearch`: a non-empty query of
      at least two UTF-16 code units once trimmed. A query that passes has
      a non-whitespace character. */
  predicate PassesGuard(q: string)
    ensures PassesGuard(q) ==> q != "" && Trim(q) != "" && !IsWhitespace(Trim(q)[0])
  {
    q != "" && Utf16Length(Trim(q)) >= MinChars
  }

  /** A query for which `doSearch` reaches the search service. */
  predicate Searchable(q: string) {
    PassesGuard(q) && !IsMockQuery(Trim(q))
  }

  /** A query that passes the keystroke gate (at least two UTF-16 code
      units once all whitespace is removed) passes the guard of `doSearch`
      too. */
  lemma GateImpliesGuard(q: string)
    requires Utf16Length(RemoveWhitespace(q)) >= MinChars
    ensures PassesGuard(q)
  {
    VisibleAtMostTrimmed(q);
  }

  /** The candidate a click on an element carrying `data-idx` names, if any:
      the index text must be present, non-empty and name a listed position. */
  function Selected(idx: Option<string>, candidates: seq<Candidate>): (r: Option<Candidate>)
    ensures r.Some? ==> r.value in candidates
    ensures idx.None? || idx == Some("") ==> r.None?
    ensures r.Some? <==> idx.Some? && ParseIndex(idx.value).Some?
                         && ParseIndex(idx.value).value < |candidates|
    ensures r.Some? ==> r.value == candidates[ParseIndex(idx.value).value]
  {
    if idx.None? || idx.value == "" then None
    else match ParseIndex(idx.value)
      case Some(n) => if n < |candidates| then Some(candidates[n]) else None
      case None => None
  }

  /** Clicking the element for position `i`, whose `data-idx` is `String(i)`,
      selects exactly `candidates[i]`. */
  lemma SelectedByIndexText(candidates: seq<Candidate>, i: nat)
    requires i < |candidates|
    ensures Selected(Some(NatToString(i)), candidates) == Some(candidates[i])
  {
    ParseIndexOfNatToString(i);
  }

  /** A scheduled search is for a query that passed the keystroke gate,
      and every call made to the service was for a searchable query with no
      jurisdiction and the fixed limit. */
  ghost predicate SearchLog(searchPending: bool, query: string, searches: seq<SearchRequest>) {
    (searchPending ==> Utf16Length(RemoveWhitespace(query)) >= MinChars)
    && forall i :: 0 <= i < |searches| ==>
         Searchable(searches[i].query) && searches[i].jurisdiction.None? && searches[i].limit == ResultLimit
  }

  /** Logging a call for a searchable query keeps the log consistent. */
  lemma SearchLogAppend(searchPending: bool, query: string, searches: seq<SearchRequest>, q: string)
    requires SearchLog(searchPending, query, searches) && Searchable(q)
    ensures SearchLog(searchPending, query, searches + [SearchRequest(q, None, ResultLimit)])
  {
  }

  class CompanySuggestPanel {
    var query: string
    var candidates: seq<Candidate>
    var loading: bool
    /** The single debounce slot: whether a search is scheduled. */
    var searchPending: bool
    var selectedIndex: Option<nat>
    /** Toasts and `companyselect` events dispatched, oldest first. */
    var events: seq<Event>
    /** Calls made to the search service, oldest first. */
    var searches: seq<SearchRequest>

    /** Between handlers nothing is loading and `SearchLog` holds. */
    ghost predicate Valid()
      reads this
    {
      !loading && SearchLog(searchPending, query, searches)
    }

    constructor ()
      ensures Valid()
      ensures query == "" && candidates == [] && !loading && !searchPending
      ensures selectedIndex.None? && events == [] && searches == []
    {
      query, candidates, loading, searchPending := "", [], false, false;
      selectedIndex, events, searches := None, [], [];
    }

    /** A keystroke: the pending search is cancelled; a query with fewer
        than two UTF-16 code units left once whitespace is removed clears
        the list, any other schedules one search. */
    method HandleInput(value: Option<string>)
      requires Valid()
      modifies this
      ensures Valid()
      ensures query == OrEmpty(value)
      ensures searchPending <==> Utf16Length(RemoveWhitespace(query)) >= MinChars
      ensures !searchPending ==> candidates == []
      ensures searchPending ==> candidates == old(candidates)
      ensures selectedIndex == old(selectedIndex) && loading == old(loading)
      ensures events == old(events) && searches == old(searches)
    {
      query := OrEmpty(value);
      searchPending := false;
      if Utf16Length(RemoveWhitespace(query)) < MinChars {
        candidates := [];
        return;
      }
      searchPending := true;
    }

    /** The scheduled search runs, if one is pending. A pending search is
        never turned away by the guard of `doSearch`: unless it is a mock
        query it reaches the service. */
    method FireTimer(response: Response<Option<seq<CompanyRecord>>>)
      requires Valid()
      modifies this
      ensures Valid()
      ensures !searchPending
      ensures !old(searchPending) ==> unchanged(this)
      ensures old(searchPending) ==> PassesGuard(old(query))
      ensures query == old(query) && !loading
      ensures old(searchPending) && !Searchable(query) ==>
                candidates == old(candidates) && selectedIndex == old(selectedIndex)
                && events == old(events) && searches == old(searches)
      ensures old(searchPending) && Searchable(query) ==>
                searches == old(searches) + [SearchRequest(query, None, ResultLimit)]
      ensures old(searchPending) && Searchable(query) && response.Success? ==>
                candidates == WithStatusLabels(ListOrEmpty(response.payload))
                && selectedIndex == (if candidates != [] then Some(0) else None)
                && events == old(events)
      ensures old(searchPending) && Searchable(query) && response.Failure? ==>
                candidates == [] && selectedIndex == old(selectedIndex)
                && events == old(events) + [ShowToast(Toast(SearchFailedTitle, ErrorMessage(response.err), Error))]
    {
      if searchPending {
        GateImpliesGuard(query);
        RunPending(response);
      }
    }

    /** The callback of the pending timer: the slot is cleared and
        `doSearch` runs. */
    method RunPending(response: Response<Option<seq<CompanyRecord>>>)
      requires Valid() && searchPending
      modifies this
      ensures Valid() && !searchPending
      ensures query == old(query) && !loading
      ensures !Searchable(query) ==>
                candidates == old(candidates) && selectedIndex == old(selectedIndex)
                && events == old(events) && searches == old(searches)
      ensures Searchable(query) ==>
                searches == old(searches) + [SearchRequest(query, None, ResultLimit)]
      ensures Searchable(query) && response.Success? ==>
                candidates == WithStatusLabels(ListOrEmpty(response.payload))
                && selectedIndex == (if candidates != [] then Some(0) else None)
                && events == old(events)
      ensures Searchable(query) && response.Failure? ==>
                candidates == [] && selectedIndex == old(selectedIndex)
                && events == old(events) + [ShowToast(Toast(SearchFailedTitle, ErrorMessage(response.err), Error))]
    {
      searchPending := false;
      DoSearch(response);
    }

    /** `doSearch` with `response` the outcome of the search service should
        it be called. A query the guard or the mock branch stops changes
        nothing. Otherwise a response lists its records, preselecting the
        first, and a failure empties the list and shows an error toast. */
    method DoSearch(response: Response<Option<seq<CompanyRecord>>>)
      requires Valid()
      modifies this
      ensures Valid()
      ensures !Searchable(old(query)) ==> unchanged(this)
      ensures query == old(query) && searchPending == old(searchPending) && !loading
      ensures Searchable(query) ==>
                searches == old(searches) + [SearchRequest(query, None, ResultLimit)]
      ensures Searchable(query) && response.Success? ==>
                candidates == WithStatusLabels(ListOrEmpty(response.payload))
                && |candidates| == |ListOrEmpty(response.payload)|
                && selectedIndex == (if candidates != [] then Some(0) else None)
                && events == old(events)
      ensures Searchable(query) && response.Failure? ==>
                candidates == [] && selectedIndex == old(selectedIndex)
                && events == old(events) + [ShowToast(Toast(SearchFailedTitle, ErrorMessage(response.err), Error))]
    {
      var q := query;
      if !PassesGuard(q) {
        return;
      }
      if IsMockQuery(Trim(q)) {
        // The mock branch reads `seed` before its declaration and throws,
        // so it ends here without touching the candidates.
        return;
      }
      CallService(response);
    }

    /** The part of `doSearch` past its guards: one call to the service,
        then the response's records or the failure's toast. */
    method CallService(response: Response<Option<seq<CompanyRecord>>>)
      requires Valid() && Searchable(query)
      modifies this`loading, this`searches, this`candidates, this`selectedIndex, this`events
      ensures Valid()
      ensures searches == old(searches) + [SearchRequest(query, None, ResultLimit)]
      ensures response.Success? ==>
                candidates == WithStatusLabels(ListOrEmpty(response.payload))
                && selectedIndex == (if candidates != [] then Some(0) else None)
                && events == old(events)
      ensures response.Failure? ==>
                candidates == [] && selectedIndex == old(selectedIndex)
                && events == old(events) + [ShowToast(Toast(SearchFailedTitle, ErrorMessage(response.err), Error))]
    {
      SearchLogAppend(searchPending, query, searches, query);
      Request(response);
    }

    /** The awaited call itself, with `loading` set around it: the call is
        logged, then a response lists its records with their status labels
        and preselects the first, and a failure empties the list and shows an
        error toast. */
    method Request(response: Response<Option<seq<CompanyRecord>>>)
      modifies this`loading, this`searches, this`candidates, this`selectedIndex, this`events
      ensures !loading
      ensures searches == old(searches) + [SearchRequest(query, None, ResultLimit)]
      ensures response.Success? ==>
                candidates == WithStatusLabels(ListOrEmpty(response.payload))
                && selectedIndex == (if candidates != [] then Some(0) else None)
                && events == old(events)
      ensures response.Failure? ==>
                candidates == [] && selectedIndex == old(selectedIndex)
                && events == old(events) + [ShowToast(Toast(SearchFailedTitle, ErrorMessage(response.err), Error))]
    {
      loading := true;
      searches := searches + [SearchRequest(query, None, ResultLimit)];
      match response {
        case Success(res) =>
          candidates := WithStatusLabels(ListOrEmpty(res));
          selectedIndex := if candidates != [] then Some(0) else None;
        case Failure(err) =>
          events := events + [ShowToast(Toast(SearchFailedTitle, ErrorMessage(err), Error))];
          candidates := [];
      }
      loading := false;
    }

    /** A click on a candidate: `companyselect` carrying exactly the named
        candidate, or nothing when the index does not name one. */
    method HandleSelect(idx: Option<string>)
      modifies this`events
      ensures Selected(idx, candidates).Some? ==>
                events == old(events) + [CompanySelect(Selected(idx, candidates).value)]
      ensures Selected(idx, candidates).None? ==> events == old(events)
    {
      var chosen := Selected(idx, candidates);
      if chosen.Some? {
        events := events + [CompanySelect(chosen.value)];
      }
    }
  }
}
