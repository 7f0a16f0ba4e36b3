/**
 * `TherapistSearch.buildSearchPayload`: the body of the POST to `/search`,
 * projected from the trimmed query and the filter controls of the form.
 */
module SearchRequest {
  import opened Wrappers

  /** The number of results every request asks for. */
  const MaxResults: int := 3

  /**
   * The current values of the filter controls: the four selects hold their
   * option value ("" is the "any" option), the telehealth box its checked flag.
   */
  datatype Filters = Filters(
    maxFee: string,
    state: string,
    language: string,
    providerType: string,
    telehealthOnly: bool)

  /**
   * The request body. An absent optional field is a key the JSON object does
   * not have. `maxFee` keeps the select's text, which the page converts with
   * `parseFloat` when serialising.
   */
  datatype Payload = Payload(
    query: string,
    maxResults: int,
    maxFee: Option<string>,
    state: Option<string>,
    languages: Option<seq<string>>,
    providerType: Option<string>)

  /** A select contributes to the payload exactly when its value is non-empty (JavaScript truthiness of a string). */
  function IfSet(value: string): (r: Option<string>)
    ensures r.Some? <==> value != ""
    ensures r.Some? ==> r.value == value
  {
    if value != "" then Some(value) else None
  }

  /** The request body for `query` under the filter controls `f`. */
  function Build(query: string, f: Filters): (p: Payload)
    ensures p.query == query && p.maxResults == MaxResults
    ensures p.maxFee.Some? <==> f.maxFee != ""
    ensures p.state.Some? <==> f.state != ""
    ensures p.languages.Some? <==> f.language != ""
    ensures p.providerType.Some? <==> f.providerType != ""
    ensures p.maxFee.Some? ==> p.maxFee.value == f.maxFee
    ensures p.state.Some? ==> p.state.value == f.state
    ensures p.languages.Some? ==> p.languages.value == [f.language]
    ensures p.providerType.Some? ==> p.providerType.value == f.providerType
  {
    Payload(
      query,
      MaxResults,
      IfSet(f.maxFee),
      IfSet(f.state),
      if f.language != "" then Some([f.language]) else None,
      IfSet(f.providerType))
  }

  /** The JSON keys the serialised payload carries. */
  function Keys(p: Payload): set<string> {
    {"query", "max_results"}
    + (if p.maxFee.Some? then {"max_fee"} else {})
    + (if p.state.Some? then {"state"} else {})
    + (if p.languages.Some? then {"languages"} else {})
    + (if p.providerType.Some? then {"provider_type"} else {})
  }

  /** The optional keys of the request body. */
  const OptionalKeys: set<string> := {"max_fee", "state", "languages", "provider_type"}

  /** The filter control behind each optional key. */
  function ControlFor(f: Filters, key: string): string {
    match key
    case "max_fee" => f.maxFee
    case "state" => f.state
    case "languages" => f.language
    case "provider_type" => f.providerType
    case _ => ""
  }

  /** The keys a set of filter controls asks for, read off the controls alone. */
  function RequestedKeys(f: Filters): set<string> {
    set k | k in OptionalKeys && ControlFor(f, k) != ""
  }

  /**
   * Every payload has `query` and `max_results`, and an optional key is present
   * if and only if its control is set; no other key (in particular nothing for
   * the telehealth box) is ever sent.
   */
  lemma BuildKeys(query: string, f: Filters)
    ensures Keys(Build(query, f)) == {"query", "max_results"} + RequestedKeys(f)
    ensures "telehealth" !in Keys(Build(query, f)) && "telehealth_only" !in Keys(Build(query, f))
  {
  }

  /** The telehealth box has no effect on the request. */
  lemma TelehealthIgnored(query: string, f: Filters, checked: bool)
    ensures Build(query, f.(telehealthOnly := checked)) == Build(query, f)
  {
  }
}
