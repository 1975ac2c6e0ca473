/**
 * The `searchWeb` tool's `execute`: it turns the web-search endpoint's answer into
 * the text handed back to the language model, in one of three forms (an error
 * sentence, a fixed "no results" sentence, or a numbered listing between a header
 * and a footer), and on the listing path records the results for the interface in
 * a process-wide slot.
 *
 * The HTTP exchange is an input value: what `fetch` and `response.json()` produced,
 * or what they threw. Numbers the endpoint returns (`searchTime`, `totalResults`)
 * are carried as the text a template literal renders them as.
 */
module SearchWeb {
  import opened Wrappers
  import opened Strings

  /** One hit, as the endpoint reports it. */
  datatype SearchResult = SearchResult(title: string, url: string, snippet: string, domain: string)

  /** How the call to the endpoint ended. */
  datatype Response =
      /** Something threw on the way; `Some(m)` for an `Error` whose message is `m`, `None` for any other thrown value. */
    | Threw(message: Option<string>)
      /** A non-OK status; `error` is the body's `error` field. */
    | NotOk(error: Option<string>)
      /** An OK status; `results` is the body's `results` field, absent when the body has none. */
    | Answered(results: Option<seq<SearchResult>>, searchTime: string, totalResults: string)

  /** What the success path leaves in `lastSearchResults`. */
  datatype LastSearch = LastSearch(query: string, results: seq<SearchResult>, timestamp: int)

  const DefaultFailure: string := "Web search failed"
  const UnknownError: string := "Unknown error"

  const HeaderLead := "Web search results for \""
  const NoResultsLead := "No web search results found for \""
  /** The error sentence's lead; its first letter is kept apart so that it can be read off. */
  const ErrorLead := "I" + " encountered an error while searching the web: "

  /** The listing's first line and the blank line after it; the query sits right after the lead. */
  function Header(query: string): (h: string)
    ensures |h| == |HeaderLead| + |query| + 4
    ensures StartsWith(h, HeaderLead) && h[|HeaderLead|..|HeaderLead| + |query|] == query
  {
    HeaderLead + query + "\":\n\n"
  }

  /** The block for the result numbered `n`: title line, URL, source domain, summary, blank line. */
  function Block(n: nat, r: SearchResult): (b: string)
    ensures StartsWith(b, NatToString(n) + ". **" + r.title)
    ensures EndsWith(b, r.snippet + "\n\n")
  {
    NatToString(n) + ". **" + r.title + "**\n"
    + "   URL: " + r.url + "\n"
    + "   Source: " + r.domain + "\n"
    + "   Summary: " + r.snippet + "\n\n"
  }

  /** The blocks for `results`, numbered from `first` on in input order. */
  function Listing(results: seq<SearchResult>, first: nat): (l: string)
    ensures l == "" <==> results == []
    decreases |results|
  {
    if results == [] then "" else Block(first, results[0]) + Listing(results[1..], first + 1)
  }

  function Footer(count: nat, searchTime: string, totalResults: string): (f: string)
    ensures StartsWith(f, "\nFound " + NatToString(count) + " results in " + searchTime)
    ensures EndsWith(f, "s. Total available: " + totalResults)
  {
    "\nFound " + NatToString(count) + " results in " + searchTime + "s. Total available: " + totalResults
  }

  /** The fixed sentence for an answer without results; the query sits right after the lead. */
  function NoResults(query: string): (t: string)
    ensures |t| >= |NoResultsLead| + |query|
    ensures StartsWith(t, NoResultsLead) && t[|NoResultsLead|..|NoResultsLead| + |query|] == query
  {
    NoResultsLead + query
    + "\". The search may have been too specific or the information might not be available online."
  }

  /** The sentence for a failed call; the message sits right after the lead. */
  function ErrorText(message: string): (t: string)
    ensures |t| >= |ErrorLead| + |message|
    ensures StartsWith(t, ErrorLead) && t[|ErrorLead|..|ErrorLead| + |message|] == message
  {
    ErrorLead + message
    + ". Please try again or rephrase your search query."
  }

  /** The message of the error thrown for a non-OK status: the body's `error`, unless it is absent or empty. */
  function FailureMessage(error: Option<string>): (m: string)
    ensures error.Some? && error.value != "" ==> m == error.value
    ensures error.None? || error.value == "" ==> m == DefaultFailure
  {
    if error.Some? && error.value != "" then error.value else DefaultFailure
  }

  /** The results the listing is built from; a body without `results` counts as none. */
  function ResultsOf(results: Option<seq<SearchResult>>): seq<SearchResult>
  {
    results.GetOr([])
  }

  /** Whether the call takes the listing path, the only one that records its results. */
  predicate Lists(response: Response)
  {
    response.Answered? && |ResultsOf(response.results)| > 0
  }

  /** The text `execute` returns for `query` when the endpoint answers `response`. */
  function Output(query: string, response: Response): (r: string)
    ensures Lists(response) ==> StartsWith(r, Header(query))
    ensures Lists(response) ==>
              EndsWith(r, Footer(|response.results.value|, response.searchTime, response.totalResults))
    ensures response.Answered? && !Lists(response) ==> r == NoResults(query)
    ensures response.NotOk? ==> r == ErrorText(FailureMessage(response.error))
    ensures response.Threw? ==> r == ErrorText(response.message.GetOr(UnknownError))
  {
    match response
    case Threw(m) => ErrorText(m.GetOr(UnknownError))
    case NotOk(e) => ErrorText(FailureMessage(e))
    case Answered(rs, searchTime, total) =>
      var results := ResultsOf(rs);
      if |results| == 0 then NoResults(query)
      else Header(query) + Listing(results, 1) + Footer(|results|, searchTime, total)
  }

  /** A non-empty listing opens with the first result's number and title. */
  lemma ListingStartsWithFirst(results: seq<SearchResult>, first: nat)
    requires results != []
    ensures StartsWith(Listing(results, first), NatToString(first) + ". **" + results[0].title)
  {
    var lead := NatToString(first) + ". **" + results[0].title;
    var b := Block(first, results[0]);
    assert Listing(results, first) == b + Listing(results[1..], first + 1);
    assert (b + Listing(results[1..], first + 1))[..|lead|] == b[..|lead|];
  }

  /** Listing a concatenation lists the first part, then the second numbered on from where the first stopped. */
  lemma {:induction false} ListingAppend(a: seq<SearchResult>, b: seq<SearchResult>, first: nat)
    ensures Listing(a + b, first) == Listing(a, first) + Listing(b, first + |a|)
    decreases |a|
  {
    if a == [] {
      assert a + b == b;
    } else {
      assert (a + b)[0] == a[0];
      assert (a + b)[1..] == a[1..] + b;
      ListingAppend(a[1..], b, first + 1);
    }
  }

  /**
   * The listing is the blocks in input order: the result at position `i` sits, as
   * block number `i + 1`, between the blocks of the results before it and after it.
   */
  lemma ListingDecompose(results: seq<SearchResult>, i: nat)
    requires i < |results|
    ensures Listing(results, 1)
            == Listing(results[..i], 1) + Block(i + 1, results[i]) + Listing(results[i + 1..], i + 2)
  {
    var before, rest := results[..i], results[i..];
    SplitAt(results, i);
    ListingAppend(before, rest, 1);
    ListingHead(rest, i + 1);
    Regroup(Listing(before, 1), Block(i + 1, results[i]), Listing(results[i + 1..], i + 2));
  }

  lemma SplitAt<T>(s: seq<T>, i: nat)
    requires i < |s|
    ensures s == s[..i] + s[i..]
    ensures s[i..][0] == s[i] && s[i..][1..] == s[i + 1..]
  {
  }

  lemma Regroup(a: string, b: string, c: string)
    ensures a + (b + c) == a + b + c
  {
  }

  /** A listing is its first block followed by the listing of the rest. */
  lemma ListingHead(results: seq<SearchResult>, first: nat)
    requires results != []
    ensures Listing(results, first) == Block(first, results[0]) + Listing(results[1..], first + 1)
  {
  }

  /** The footer's count reads back as the number it was given. */
  lemma FooterStatesCount(count: nat, searchTime: string, totalResults: string)
    ensures var f := Footer(count, searchTime, totalResults);
            var digits := NatToString(count);
            StartsWith(f, "\nFound ") && |f| >= 7 + |digits|
            && f[7..7 + |digits|] == digits && ParseDecimal(f[7..7 + |digits|]) == count
  {
    ParseNatToString(count);
  }

  /** The error sentence cannot begin with the listing header: its first letter differs. */
  lemma ErrorTextStart(message: string)
    ensures ErrorText(message)[0] == 'I'
  {
    assert ErrorText(message)[0] == ErrorLead[0];
  }

  /** The listing form is told apart by its first words: the other two forms never begin with the header. */
  lemma ListingIffHeader(query: string, response: Response)
    ensures StartsWith(Output(query, response), "Web search results for \"") <==> Lists(response)
  {
    var r := Output(query, response);
    if !Lists(response) {
      match response
      case Threw(m) =>
        ErrorTextStart(m.GetOr(UnknownError));
      case NotOk(e) =>
        ErrorTextStart(FailureMessage(e));
      case Answered(_, _, _) =>
        assert r[0] == 'N';
    }
  }

  /** A body without `results` reads exactly as one with an empty list. */
  lemma MissingResultsAreNone(query: string, searchTime: string, totalResults: string)
    ensures Output(query, Answered(None, searchTime, totalResults)) == NoResults(query)
    ensures Output(query, Answered(Some([]), searchTime, totalResults)) == NoResults(query)
  {
  }

  /** One more result extends the listing of a prefix by that result's block. */
  lemma ListingSnoc(results: seq<SearchResult>, index: nat)
    requires index < |results|
    ensures Listing(results[..index + 1], 1) == Listing(results[..index], 1) + Block(index + 1, results[index])
  {
    assert results[..index + 1] == results[..index] + [results[index]];
    ListingAppend(results[..index], [results[index]], 1);
    assert Listing([results[index]], 1 + index) == Block(index + 1, results[index]);
  }

  /** Appending the next result's block to the header and the listing so far gives the longer listing. */
  lemma ListingGrows(query: string, results: seq<SearchResult>, index: nat, before: string, after: string)
    requires index < |results|
    requires before == Header(query) + Listing(results[..index], 1)
    requires after == before + Block(index + 1, results[index])
    ensures after == Header(query) + Listing(results[..index + 1], 1)
  {
    ListingSnoc(results, index);
  }

  /** The four `+=` steps of one loop round append exactly that result's block. */
  lemma BlockAppended(before: string, after: string, n: nat, r: SearchResult)
    requires after == before + NatToString(n) + ". **" + r.title + "**\n"
                     + "   URL: " + r.url + "\n"
                     + "   Source: " + r.domain + "\n"
                     + "   Summary: " + r.snippet + "\n\n"
    ensures after == before + Block(n, r)
  {
  }

  /** The `forEach` loop that appends one block per result after the header, followed by the footer. */
  method FormatListing(query: string, results: seq<SearchResult>, searchTime: string, totalResults: string)
    returns (formatted: string)
    ensures formatted == Header(query) + Listing(results, 1) + Footer(|results|, searchTime, totalResults)
  {
    formatted := Header(query);
    var index := 0;
    while index < |results|
      invariant 0 <= index <= |results|
      invariant formatted == Header(query) + Listing(results[..index], 1)
    {
      var result := results[index];
      ghost var before := formatted;
      formatted := formatted + NatToString(index + 1) + ". **" + result.title + "**\n";
      formatted := formatted + "   URL: " + result.url + "\n";
      formatted := formatted + "   Source: " + result.domain + "\n";
      formatted := formatted + "   Summary: " + result.snippet + "\n\n";
      BlockAppended(before, formatted, index + 1, result);
      ListingGrows(query, results, index, before, formatted);
      index := index + 1;
    }
    assert results[..index] == results;
    formatted := formatted + Footer(|results|, searchTime, totalResults);
  }

  /** The tool, with the process-wide slot its success path writes. */
  class SearchTool {
    var lastSearchResults: Option<LastSearch>

    constructor ()
      ensures lastSearchResults == None
    {
      lastSearchResults := None;
    }

    /** Answers `query`; `now` is the clock reading taken when the results are recorded. */
    method Execute(query: string, response: Response, now: int) returns (text: string)
      modifies this`lastSearchResults
      ensures text == Output(query, response)
      ensures Lists(response) ==>
                lastSearchResults == Some(LastSearch(query, response.results.value, now))
      ensures !Lists(response) ==> lastSearchResults == old(lastSearchResults)
    {
      match response {
        case Threw(m) =>
          text := ErrorText(m.GetOr(UnknownError));
        case NotOk(e) =>
          text := ErrorText(FailureMessage(e));
        case Answered(rs, searchTime, total) =>
          var results := ResultsOf(rs);
          if |results| == 0 {
            text := NoResults(query);
          } else {
            text := FormatListing(query, results, searchTime, total);
            lastSearchResults := Some(LastSearch(query, results, now));
          }
      }
    }
  }
}
