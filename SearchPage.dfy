/**
 * The result area of the page and the search flow that drives it:
 * `displayResults`, `showLoading`, `showError`, `hideAllSections` and
 * `performSearch` of `TherapistSearch`. The four sections (loading spinner,
 * results, "no results", error) are modelled by their visibility, the search
 * button by its disabled flag and its label, the HTTP exchange by an abstract
 * outcome handed in by the caller.
 */
module SearchPage {
  import opened Wrappers
  import opened JsText
  import opened SearchRequest
  import opened TherapistCard

  /** The JSON body of a successful `/search` response. */
  datatype SearchResponse = SearchResponse(query: string, totalFound: int, results: Option<seq<Provider>>)

  /** What the results area shows for a response. */
  datatype Display =
    | NoResults
    | Results(title: string, stats: string, cards: seq<Card>)

  /**
   * How the POST to `/search` ended: a parsed body from a response whose
   * status is 200-299; a response with any other status, with its status line
   * and body text; or a rejected promise (network failure, unreadable or
   * malformed body) with the error's message.
   */
  datatype Outcome =
    | Delivered(data: SearchResponse)
    | HttpFailure(status: int, statusText: string, body: string)
    | Rejected(reason: string)

  /** The text of the search button. */
  datatype ButtonLabel = SearchIdle | Searching

  const EmptyQueryMessage: string := "Please enter a search query"

  /** One card per result, in the order the server ranked them. */
  function CardsFor(rs: seq<Provider>): (cs: seq<Card>)
    ensures |cs| == |rs|
    ensures forall i :: 0 <= i < |rs| ==> cs[i] == CardFor(rs[i])
  {
    if rs == [] then [] else [CardFor(rs[0])] + CardsFor(rs[1..])
  }

  /** The results heading: the query in quotes after a fixed prefix. */
  function ResultsTitle(query: string): (r: string)
    ensures |r| == 20 + |query| + 1
    ensures r[..20] == "Search Results for \"" && r[20..|r| - 1] == query && r[|r| - 1] == '"'
  {
    "Search Results for \"" + query + "\""
  }

  /** The stats line: the total's decimal text between "Found " and " providers". */
  function ResultsStats(totalFound: int): (r: string)
    ensures |r| == 6 + |IntToDecimal(totalFound)| + 10
    ensures r[..6] == "Found " && r[6..|r| - 10] == IntToDecimal(totalFound) && r[|r| - 10..] == " providers"
  {
    "Found " + IntToDecimal(totalFound) + " providers"
  }

  /** The results area for a response: "no results" for a missing or empty list, otherwise the cards in server order. */
  function Render(data: SearchResponse): (d: Display)
    ensures d.NoResults? <==> data.results.None? || data.results.value == []
    ensures d.Results? ==> |d.cards| == |data.results.value|
    ensures d.Results? ==> forall i :: 0 <= i < |d.cards| ==> d.cards[i] == CardFor(data.results.value[i])
    ensures d.Results? ==> d.title == ResultsTitle(data.query) && d.stats == ResultsStats(data.totalFound)
  {
    if data.results.None? || data.results.value == [] then NoResults
    else Results(ResultsTitle(data.query), ResultsStats(data.totalFound), CardsFor(data.results.value))
  }

  /** The results heading names the query and the stats line names the total the server reported. */
  lemma RenderMentionsQueryAndTotal(data: SearchResponse)
    requires Render(data).Results?
    ensures Includes(Render(data).title, data.query)
    ensures Includes(Render(data).stats, IntToDecimal(data.totalFound))
  {
    var q, n := data.query, IntToDecimal(data.totalFound);
    IncludesSelf(q);
    IncludesAfter("Search Results for \"", q, q);
    IncludesBefore("Search Results for \"" + q, "\"", q);
    IncludesSelf(n);
    IncludesAfter("Found ", n, n);
    IncludesBefore("Found " + n, " providers", n);
  }

  /** The message of the error `performSearch` throws or catches for a failed exchange. */
  function ThrownMessage(o: Outcome): (m: string)
    requires !o.Delivered?
    ensures o.Rejected? ==> m == o.reason
    ensures o.HttpFailure? ==> StartsWith(m, "Search failed: ")
    ensures o.HttpFailure? ==> Includes(m, IntToDecimal(o.status)) && Includes(m, o.body)
  {
    match o
    case HttpFailure(status, statusText, body) =>
      StatusLineQuoted(IntToDecimal(status), statusText, body);
      "Search failed: " + IntToDecimal(status) + " " + statusText + " - " + body
    case Rejected(reason) => reason
  }

  /** The thrown message for a failed status quotes the status code and the response body. */
  lemma StatusLineQuoted(code: string, statusText: string, body: string)
    ensures Includes("Search failed: " + code + " " + statusText + " - " + body, code)
    ensures Includes("Search failed: " + code + " " + statusText + " - " + body, body)
  {
    IncludesSelf(code);
    IncludesAfter("Search failed: ", code, code);
    IncludesBefore("Search failed: " + code, " ", code);
    IncludesBefore("Search failed: " + code + " ", statusText, code);
    IncludesBefore("Search failed: " + code + " " + statusText, " - ", code);
    IncludesBefore("Search failed: " + code + " " + statusText + " - ", body, code);
    IncludesSelf(body);
    IncludesAfter("Search failed: " + code + " " + statusText + " - ", body, body);
  }

  /** The text the error section shows for a caught error. */
  function FailureText(message: string): (r: string)
    ensures |r| == 15 + |message| + 43
    ensures r[..15] == "Search failed: " && r[15..|r| - 43] == message
    ensures r[|r| - 43..] == ". Please check browser console for details."
  {
    "Search failed: " + message + ". Please check browser console for details."
  }

  /** The error section's text keeps everything the caught message includes. */
  lemma FailureTextKeeps(message: string, p: string)
    requires Includes(message, p)
    ensures Includes(FailureText(message), p)
  {
    IncludesAfter("Search failed: ", message, p);
    IncludesBefore("Search failed: " + message, ". Please check browser console for details.", p);
  }

  /** For a failed HTTP status the error text quotes both the status code and the response body. */
  lemma HttpFailureReported(status: int, statusText: string, body: string)
    ensures var m := FailureText(ThrownMessage(HttpFailure(status, statusText, body)));
            Includes(m, IntToDecimal(status)) && Includes(m, body)
  {
    var thrown := ThrownMessage(HttpFailure(status, statusText, body));
    FailureTextKeeps(thrown, IntToDecimal(status));
    FailureTextKeeps(thrown, body);
  }

  /** The page controller, reduced to the form values it reads and the display state it writes. */
  class TherapistSearch {
    /** The text of the search box and the filter controls. */
    var input: string
    var filters: Filters

    /** Visibility of the four sections. */
    var loadingShown: bool
    var resultsShown: bool
    var noResultsShown: bool
    var errorShown: bool

    /** The search button. */
    var searchDisabled: bool
    var searchLabel: ButtonLabel

    /** The texts the sections show. */
    var errorText: string
    var resultsTitle: string
    var resultsStats: string
    var resultsGrid: seq<Card>

    /** How many of the four sections are visible. */
    function VisibleCount(): nat
      reads this
    {
      (if loadingShown then 1 else 0) + (if resultsShown then 1 else 0)
      + (if noResultsShown then 1 else 0) + (if errorShown then 1 else 0)
    }

    /**
     * The state `ShowLoading`, `ShowError`, `DisplayResults` and `PerformSearch`
     * leave (`HideAllSections`, which shows nothing, does not): at most one section visible,
     * the button disabled exactly while the spinner shows, and labelled to match.
     */
    predicate Consistent()
      reads this
    {
      VisibleCount() <= 1
      && (searchDisabled <==> loadingShown)
      && (searchLabel == Searching <==> searchDisabled)
    }

    /** The contents of the results section: heading, stats line and cards. */
    function ResultTexts(): (string, string, seq<Card>)
      reads this
    {
      (resultsTitle, resultsStats, resultsGrid)
    }

    /** Only the error section is visible, showing `message`, and the button is ready. */
    predicate ShowsError(message: string)
      reads this
      ensures ShowsError(message) ==> VisibleCount() == 1 && Consistent()
    {
      errorShown && !loadingShown && !resultsShown && !noResultsShown
      && errorText == message && !searchDisabled && searchLabel == SearchIdle
    }

    /** The results area shows `d` alone, and the button is ready. */
    predicate ShowsDisplay(d: Display)
      reads this
      ensures ShowsDisplay(d) ==> VisibleCount() == 1 && Consistent()
    {
      !loadingShown && !errorShown && !searchDisabled && searchLabel == SearchIdle
      && match d
         case NoResults => noResultsShown && !resultsShown
         case Results(title, stats, cards) =>
           resultsShown && !noResultsShown
           && resultsTitle == title && resultsStats == stats && resultsGrid == cards
    }

    /** The page as loaded, with the given form values: every section hidden and the button ready. */
    constructor (input: string, filters: Filters)
      ensures this.input == input && this.filters == filters
      ensures VisibleCount() == 0 && !searchDisabled && searchLabel == SearchIdle
      ensures errorText == "" && resultsTitle == "" && resultsStats == "" && resultsGrid == []
      ensures Consistent()
    {
      this.input := input;
      this.filters := filters;
      loadingShown, resultsShown, noResultsShown, errorShown := false, false, false, false;
      searchDisabled, searchLabel := false, SearchIdle;
      errorText, resultsTitle, resultsStats, resultsGrid := "", "", "", [];
    }

    /** Hides the four sections and touches nothing else. */
    method HideAllSections()
      modifies this`loadingShown, this`resultsShown, this`noResultsShown, this`errorShown
      ensures !loadingShown && !resultsShown && !noResultsShown && !errorShown
      ensures VisibleCount() == 0
    {
      loadingShown := false;
      resultsShown := false;
      noResultsShown := false;
      errorShown := false;
    }

    /** Shows only the spinner and disables the button. */
    method ShowLoading()
      modifies this`loadingShown, this`resultsShown, this`noResultsShown, this`errorShown,
               this`searchDisabled, this`searchLabel
      ensures loadingShown && !resultsShown && !noResultsShown && !errorShown
      ensures searchDisabled && searchLabel == Searching
      ensures VisibleCount() == 1 && Consistent()
      ensures errorText == old(errorText) && ResultTexts() == old(ResultTexts())
    {
      HideAllSections();
      loadingShown := true;
      searchLabel := Searching;
      searchDisabled := true;
    }

    /** Shows only the error section with `message`, and re-enables the button. */
    method ShowError(message: string)
      modifies this`loadingShown, this`resultsShown, this`noResultsShown, this`errorShown,
               this`searchDisabled, this`searchLabel, this`errorText
      ensures ShowsError(message)
      ensures ResultTexts() == old(ResultTexts())
    {
      HideAllSections();
      searchLabel := SearchIdle;
      searchDisabled := false;
      errorText := message;
      errorShown := true;
    }

    /**
     * Re-enables the button and shows either "no results" (leaving the old
     * results texts in place, hidden) or the results section filled from `data`.
     */
    method DisplayResults(data: SearchResponse)
      modifies this`loadingShown, this`resultsShown, this`noResultsShown, this`errorShown,
               this`searchDisabled, this`searchLabel, this`resultsTitle, this`resultsStats, this`resultsGrid
      ensures ShowsDisplay(Render(data))
      ensures Render(data).NoResults? ==> ResultTexts() == old(ResultTexts())
      ensures errorText == old(errorText)
    {
      HideAllSections();
      searchLabel := SearchIdle;
      searchDisabled := false;
      var shown := Render(data);
      if shown.NoResults? {
        noResultsShown := true;
        return;
      }
      resultsShown := true;
      resultsTitle := shown.title;
      resultsStats := shown.stats;
      resultsGrid := shown.cards;
    }

    /**
     * One search: rejects a blank query without sending anything; otherwise
     * shows the spinner, sends the payload for the trimmed query (returned as
     * `sent`) and shows what `outcome` says came back.
     */
    method PerformSearch(outcome: Outcome) returns (sent: Option<Payload>)
      modifies this`loadingShown, this`resultsShown, this`noResultsShown, this`errorShown,
               this`searchDisabled, this`searchLabel, this`errorText,
               this`resultsTitle, this`resultsStats, this`resultsGrid
      ensures sent.None? <==> AllWhitespace(old(input))
      ensures sent.Some? ==> sent.value == Build(Trim(old(input)), old(filters))
      ensures sent.None? ==> ShowsError(EmptyQueryMessage)
      ensures sent.Some? && outcome.Delivered? ==> ShowsDisplay(Render(outcome.data))
      ensures sent.Some? && !outcome.Delivered? ==> ShowsError(FailureText(ThrownMessage(outcome)))
      ensures sent.None? ==> ResultTexts() == old(ResultTexts())
      ensures sent.Some? && !outcome.Delivered? ==> ResultTexts() == old(ResultTexts())
      ensures sent.Some? && outcome.Delivered? && Render(outcome.data).NoResults? ==>
                ResultTexts() == old(ResultTexts())
      ensures sent.Some? && outcome.Delivered? ==> errorText == old(errorText)
    {
      var query := Trim(input);
      assert query == "" <==> AllWhitespace(input) by { TrimEmptyIff(input); }
      if query == "" {
        ShowError(EmptyQueryMessage);
        return None;
      }
      ShowLoading();
      var payload := Build(query, filters);
      sent := Some(payload);
      if outcome.Delivered? {
        DisplayResults(outcome.data);
      } else {
        ShowError(FailureText(ThrownMessage(outcome)));
      }
    }
  }
}
