/** `analyzecv_pdf_withllm`: build the prompt, ask the model, pull the first
    `{` … last `}` span out of its answer and hand it to `json.loads`. The
    model call and the JSON parser are outside this model: the call is a
    function from the prompt to a `Response`, the parser a function from the
    span to an optional value (None where `json.loads` raises). */
module Analysis {
  import opened Wrappers
  import opened JsonValue
  import opened Streamlit
  import BraceSpan
  import Prompts

  /** What `Model.generate_content(prompt).text` gives: the answer's text, or
      an exception (a network failure, a blocked answer). */
  datatype Response = Generated(text: string) | Raised

  /** How one analysis ends. */
  datatype Outcome =
    | Parsed(value: Json)   // the span parsed; the value is returned unchecked
    | NoSpan                // the answer holds no `{ … }` span
    | Failed                // the call or `json.loads` raised

  const NoAnalysisMessage :=
    "Sorry, the analysis could not be completed. Please try again later or upload a different file."
  const ProcessingErrorMessage :=
    "An error occurred while processing your resume. Please try again or upload a different file."

  /** The outcome of the `try` block for a given answer and parser. */
  function Analyze(response: Response, parse: string -> Option<Json>): (o: Outcome)
    ensures response.Raised? ==> o == Failed
    ensures o == NoSpan <==> response.Generated? && forall i, j :: !BraceSpan.IsMatch(response.text, i, j)
    ensures o.Parsed? ==> exists i, j :: BraceSpan.IsSearchResult(response.text, i, j)
                                         && parse(response.text[i..j]) == Some(o.value)
  {
    match response
    case Raised => Failed
    case Generated(raw) =>
      match BraceSpan.Group(raw)
      case None => NoSpan
      case Some(candidate) =>
        match parse(candidate)
        case Some(value) => Parsed(value)
        case None => Failed
  }

  /** The function's return value: the parsed value, or None. */
  function ResultOf(outcome: Outcome): (r: Option<Json>)
  {
    if outcome.Parsed? then Some(outcome.value) else None
  }

  /** The `st.error` calls the outcome makes. */
  function Notice(outcome: Outcome): (r: seq<Event>)
  {
    match outcome
    case Parsed(_) => []
    case NoSpan => [Error(NoAnalysisMessage)]
    case Failed => [Error(ProcessingErrorMessage)]
  }

  /** `analyzecv_pdf_withllm(text, report_language)`. */
  method AnalyzeCvPdfWithLlm(st: Display, text: string, reportLanguage: string,
                             generate: string -> Response, parse: string -> Option<Json>)
    returns (result: Option<Json>)
    modifies st
    ensures var outcome := Analyze(generate(Prompts.GetResumeAnalysisPrompt(text, reportLanguage)), parse);
            result == ResultOf(outcome) && st.events == old(st.events) + Notice(outcome)
  {
    var prompt := Prompts.GetResumeAnalysisPrompt(text, reportLanguage);
    var response := generate(prompt);
    if response.Raised? {
      st.Error(ProcessingErrorMessage);
      return None;
    }
    var rawText := response.text;
    var found := BraceSpan.Group(rawText);
    if found.None? {
      st.Error(NoAnalysisMessage);
      return None;
    }
    var jsonStr := found.value;
    var parsed := parse(jsonStr);
    if parsed.None? {
      st.Error(ProcessingErrorMessage);
      return None;
    }
    return parsed;
  }

  /** A value comes back exactly when no error is reported, and None comes
      back together with exactly one error: the function never raises. */
  lemma OneNoticeOnFailure(outcome: Outcome)
    ensures ResultOf(outcome).Some? <==> Notice(outcome) == []
    ensures ResultOf(outcome).None? <==> |Notice(outcome)| == 1 && Notice(outcome)[0].Error?
  {
  }

  /** "Sorry, the analysis could not be completed" is shown exactly when the
      answer arrives but no `{` comes before a `}` in it. */
  lemma NoSpanIff(response: Response, parse: string -> Option<Json>)
    ensures Analyze(response, parse) == NoSpan <==>
            && response.Generated?
            && forall a, b :: 0 <= a < b < |response.text| ==> !(response.text[a] == '{' && response.text[b] == '}')
  {
    if response.Generated? {
      BraceSpan.FoundIff(response.text);
    }
  }

  /** "An error occurred while processing your resume" is shown exactly when
      the call raises, or a span is found and `json.loads` rejects it. */
  lemma FailedIff(response: Response, parse: string -> Option<Json>)
    ensures Analyze(response, parse) == Failed <==>
            || response.Raised?
            || (BraceSpan.Group(response.text).Some? && parse(BraceSpan.Group(response.text).value).None?)
  {
  }

  /** An answer that is a bare brace-delimited text is parsed whole. */
  lemma WholeAnswer(raw: string, parse: string -> Option<Json>)
    requires |raw| >= 2 && raw[0] == '{' && raw[|raw| - 1] == '}'
    ensures ResultOf(Analyze(Generated(raw), parse)) == parse(raw)
  {
    BraceSpan.WholeResponse(raw);
  }

  /** Prose around the object is dropped, as long as the prose before it has
      no `{` and the prose after it no `}`. */
  lemma {:induction false} SurroundingProseDropped(before: string, obj: string, after: string,
                                                   parse: string -> Option<Json>)
    requires |obj| >= 2 && obj[0] == '{' && obj[|obj| - 1] == '}'
    requires forall k :: 0 <= k < |before| ==> before[k] != '{'
    requires forall k :: 0 <= k < |after| ==> after[k] != '}'
    ensures ResultOf(Analyze(Generated(before + obj + after), parse)) == parse(obj)
  {
    var raw := before + obj + after;
    var start, end := |before|, |before| + |obj|;
    assert raw[start] == obj[0] && raw[end - 1] == obj[|obj| - 1];
    assert BraceSpan.IsMatch(raw, start, end);
    var (i, j) := BraceSpan.Search(raw).value;
    assert i == start && j == end;
    assert raw[i..j] == obj;
  }

  /** The answer "No JSON here" ends in the first message. */
  lemma NoJsonHereAnswer(parse: string -> Option<Json>)
    ensures Analyze(Generated("No JSON here"), parse) == NoSpan
    ensures Notice(Analyze(Generated("No JSON here"), parse)) == [Error(NoAnalysisMessage)]
  {
    BraceSpan.NoJsonHere();
  }
}
