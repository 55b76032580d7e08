# resumeX core in Dafny

resumeX is a Streamlit application that reads a CV from a PDF, asks a
Gemini model for a structured career analysis, and renders the answer as a
report. This project models the logic under the user interface. It also
proves properties of that logic.

- **Page-text extraction** (`extract_text_from_pdf`). The page texts are
  concatenated in page order with no separator. Any exception becomes an
  `st.error` report and a `None` result. (`Extraction`, `LegacyResume`)
- **The prompt builder** (`get_resume_analysis_prompt`). It is one fixed
  template with two interpolations: the report language early and the CV
  text last. The doubled braces of the f-string appear as single braces.
  (`Prompts`, `LegacyPrompts`, `LegacyResume`)
- **The analysis call** (`analyzecv_pdf_withllm`). It runs the greedy
  `re.search(r"\{.*\}", raw, re.DOTALL)`, whose match runs from the first
  `{` through the last `}`. It then calls `json.loads` and takes one of its
  two failure paths, each an `st.error` and a `None`. (`BraceSpan`,
  `Analysis`, `LegacyResume`)
- **The report presenter.** The seven `display_*` renderers and
  `display_analysis_results` are methods that append Streamlit events
  (`Subheader`, `Write`, `Table`, `Markdown`, `Error`) to a display log. Each
  is proved against a function that gives the events it appends. Lemmas
  state what those events contain. (`Streamlit`, `Presenter`)
- **The root-level copies.** `prompts.py` and `resume.py` repeat the same
  logic. The root copy of the prompt and the inline prompt of `resume.py`
  are proved equal to the packaged prompt for every input. The legacy
  `analyzecv_pdf_withllm` is proved to return what the packaged one returns.
  The module-level rendering block is proved to emit exactly the events of
  `display_analysis_results`.

Supporting modules:

- `Wrappers` holds `Option` and `Result`.
- `Strings` holds concatenation and substring facts.
- `JsonValue` holds the decoded JSON value and the Python operations the
  code applies to it: `.get`, `[key]`, truthiness, iteration and `str()`.
- `ResultKeys` holds the key names of the analysis result.

The documented behaviour of the application and its code disagree in two
places. This model follows the code:

- A span that `json.loads` rejects is reported with the
  "An error occurred while processing your resume…" message. That is the
  message of the `except` branch. It is not the "analysis could not be
  completed" message that a missing span gets.
- The renderers raise on entries that lack a sub-key, and on a summary that
  is not a dict. The presenter's preconditions are exactly the conditions
  under which nothing raises (`Presenter.Renderable` and the per-section
  predicates).

## Model

| member | source | states |
|---|---|---|
| JsonValue.Get | src/resumex/app.py:53 | `d.get(key, default)` yields the value bound to `key` when the dict has that key, and `default` otherwise |
| JsonValue.Subscript | src/resumex/app.py:65-67 | `d[key]` on a dict that has the key yields a value bound to that key |
| JsonValue.Iterate | src/resumex/app.py:130 | a `for` loop runs over a list's items, a string's characters (each as a one-character string) or a dict's keys, in order, and raises on any other value |
| JsonValue.Truthy | src/resumex/app.py:63 | a value is truthy exactly when it is not None, False, 0, the empty string, the empty list or the empty dict |
| JsonValue.Show | src/resumex/app.py:127 | `str()` of a string is the string itself, of None is "None", of an integer starts with `-` exactly when it is negative, of a list is bracketed and of a dict is braced |
| BraceSpan.Search | src/resumex/app.py:177 | the bounds found are the leftmost match of `\{.*\}` and, for that start, the longest one; there are none exactly when no match exists |
| BraceSpan.FoundIff | src/resumex/app.py:177-180 | a JSON candidate exists if and only if some `{` occurs strictly before some `}` |
| BraceSpan.FirstOpenToLastClose | src/resumex/app.py:177-181 | the candidate starts at the first `{` of the answer and ends at its last `}` |
| BraceSpan.Group | src/resumex/app.py:177-181 | `match.group(0)` is None exactly when the answer has no match of `\{.*\}`; otherwise it is the slice between the bounds `re.search` reports |
| BraceSpan.GroupShape | src/resumex/app.py:181 | the candidate starts with `{`, ends with `}` and has at least two characters |
| BraceSpan.WholeResponse | src/resumex/app.py:177-181 | an answer that starts with `{` and ends with `}` is its own candidate |
| BraceSpan.Idempotent | src/resumex/app.py:177-181 | searching the candidate again returns it unchanged |
| BraceSpan.NoJsonHere | src/resumex/app.py:177-180 | "No JSON here" has no candidate |
| BraceSpan.ClosingBeforeOpening | src/resumex/app.py:177-180 | "} {" has no candidate |
| Extraction.FirstError | src/resumex/app.py:39-40 | no page raises exactly when every page yields its text; an exception reported is that of a page that raises |
| Extraction.Extracted | src/resumex/app.py:36-41 | the `try` block fails with the reader's error on an unreadable file or with a raising page's error; it succeeds only when every page yields its text, and then the text is as long as all page texts together |
| Extraction.FirstErrorAt | src/resumex/app.py:39-43 | the exception reported is that of the first page that raises |
| Extraction.ReadPages | src/resumex/app.py:36-41 | the `try` body with its `text +=` loop yields exactly `Extracted(file)`: the in-order, separator-free concatenation of the page texts, or the first exception |
| Extraction.ExtractTextFromPdf | src/resumex/app.py:26-44 | on success it returns the concatenated text and reports nothing; on failure it returns None after exactly one error "PDF reading error: " + the exception message |
| Extraction.SucceedsIff | src/resumex/app.py:36-44 | extraction succeeds if and only if the file opens and every page yields its text |
| Extraction.ExtractedLength | src/resumex/app.py:38-41 | the extracted text is as long as all page texts together |
| Extraction.ExtractedPageAt | src/resumex/app.py:38-41 | page k's text appears unchanged right after the texts of the pages before it |
| Extraction.SinglePage | src/resumex/app.py:38-41 | a one-page PDF extracts to exactly that page's text |
| Prompts.PromptLength | src/resumex/prompts.py:20-90 | the prompt is as long as the fixed template plus the CV text plus the report language |
| Prompts.GetResumeAnalysisPrompt | src/resumex/prompts.py:20-90 | the line "- Respond in " + language + "." starts right after the preamble, and the prompt ends with "CV Content:\n" + text + "\n" |
| Prompts.RespondsInReportLanguage | src/resumex/prompts.py:26 | the line "- Respond in " + language + "." follows the preamble directly, so the language appears verbatim |
| Prompts.TextComesLast | src/resumex/prompts.py:20-90 | everything before the CV text is the same for every text, and only a newline follows the text |
| Prompts.SchemaIsOneObject | src/resumex/prompts.py:66-86 | the schema opens with `{` and a newline and closes with a newline and `}`, so the f-string's doubled braces print as single ones; an answer that repeats it is taken whole as the JSON candidate |
| Prompts.SchemaQuotesEveryKey | src/resumex/prompts.py:66-86 | each key the presenter reads is one of the schema's pieces, in double quotes |
| Prompts.SchemaNamesEveryKey | src/resumex/prompts.py:66-86 | every prompt contains every key the presenter reads, top-level and nested, in double quotes |
| LegacyPrompts.GetResumeAnalysisPrompt | prompts.py:27-97 | for all inputs, the root copy builds the same prompt as the packaged one |
| LegacyPrompts.RespondsInReportLanguage | prompts.py:33 | the "- Respond in " + language + "." line follows the preamble directly |
| LegacyPrompts.EndsWithCvContent | prompts.py:95-96 | the prompt ends with "CV Content:\n" + text + "\n" |
| LegacyPrompts.SchemaNamesEveryKey | prompts.py:73-93 | every key the presenter reads is quoted in the prompt |
| Analysis.Analyze | src/resumex/app.py:174-185 | the `try` block fails when the call raises; it finds no span exactly when the answer has no match of `\{.*\}`; a value it returns is `json.loads` of the match `re.search` reports, with no schema check |
| Analysis.AnalyzeCvPdfWithLlm | src/resumex/app.py:157-185 | the model is asked with the packaged prompt; the result and the error reports are those of `Analyze` on its answer |
| Analysis.OneNoticeOnFailure | src/resumex/app.py:177-185 | a value comes back exactly when nothing is reported; None comes back with exactly one error, and nothing raises |
| Analysis.NoSpanIff | src/resumex/app.py:177-180 | "Sorry, the analysis could not be completed…" is shown if and only if an answer arrives with no `{` before a `}` |
| Analysis.FailedIff | src/resumex/app.py:176-185 | "An error occurred while processing your resume…" is shown if and only if the call raises, or a span is found and `json.loads` rejects it |
| Analysis.WholeAnswer | src/resumex/app.py:177-182 | an answer that is a bare brace-delimited text is parsed whole |
| Analysis.SurroundingProseDropped | src/resumex/app.py:177-182 | prose around the object is dropped when the prose before it has no `{` and the prose after it has no `}` |
| Analysis.NoJsonHereAnswer | src/resumex/app.py:177-180 | the answer "No JSON here" gives None and the first message |
| Presenter.DisplayLanguageInfo | src/resumex/app.py:46-53 | appends the language section's events: the subheader, then the language or "Not detected" |
| Presenter.DisplayDomainScores | src/resumex/app.py:56-68 | appends the domain section's events |
| Presenter.DisplayCompetencyScores | src/resumex/app.py:71-84 | appends the competency section's events |
| Presenter.DisplayStrategicInsights | src/resumex/app.py:87-94 | appends the subheader, then the insights or "N/A" |
| Presenter.MarkdownEach | src/resumex/app.py:104-105 | the loop appends one "- " + str(item) markdown per item, in order |
| Presenter.DisplayDevelopmentRecommendations | src/resumex/app.py:97-105 | appends the subheader, then one bullet per recommendation |
| Presenter.DisplayComparativeBenchmarking | src/resumex/app.py:108-115 | appends the subheader, then the benchmarking text or "N/A" |
| Presenter.DisplayOverallSummary | src/resumex/app.py:118-137 | appends the summary section's events, step by step |
| Presenter.DisplayAnalysisResults | src/resumex/app.py:140-154 | appends the seven sections' events in order, each rendered from the same result |
| Presenter.ScalarSectionShows | src/resumex/app.py:52-53 | a scalar section is one subheader, then one write of the bound value, or of the default when the key is missing |
| Presenter.TableSectionShows | src/resumex/app.py:61-68 | a table section always shows its subheader, and shows exactly one table if and only if the list is truthy; the table has one row per entry, in order |
| Presenter.DomainSectionShows | src/resumex/app.py:62-68 | the domain table's rows are the entries' domain, score and justification, under the columns Domain, Score and Justification |
| Presenter.CompetencySectionShows | src/resumex/app.py:77-84 | the competency table's rows are the entries' category, score, strength and observation, under the columns Category, Score, Strength and Observation |
| Presenter.RecommendationsShow | src/resumex/app.py:103-105 | one "- " + rec markdown per recommendation, in order; only the subheader when the key is missing |
| Presenter.SummaryShows | src/resumex/app.py:124-137 | the summary shows exactly 4 + \|key_strengths\| + \|areas_to_improve\| markdown lines in a fixed order; the first is the score line and the last is the talent-potential line |
| Presenter.SectionsRead | src/resumex/app.py:148-154 | each of the seven sections shows its own title once and reports no error |
| Presenter.AnalysisShowsSectionsInOrder | src/resumex/app.py:148-154 | the report shows the seven section titles in the fixed order and reports no error |
| Presenter.LanguageExamples | src/resumex/app.py:52-53 | "Spanish" is written as is; a result without a language writes "Not detected" |
| Presenter.SummaryExampleScored | src/resumex/app.py:124-137 | a score of 85 with two strengths and one area gives the seven summary lines "**Overall Score:** 85/100", …, "**Talent Potential:** …" |
| Presenter.SummaryExampleEmpty | src/resumex/app.py:124-137 | a result without a summary shows the four fixed lines, with "N/A" for the score and the potential |
| LegacyResume.ExtractTextFromPdf | resume.py:16-26 | the same result and the same error report as the packaged extraction, for a file read into the same pages |
| LegacyResume.InlinePrompt | resume.py:29-99 | for all inputs, the inline prompt equals the packaged `get_resume_analysis_prompt` |
| LegacyResume.AnalyzeCvPdfWithLlm | resume.py:28-111 | for every answer and parser, the same result and the same error report as the packaged `analyzecv_pdf_withllm` |
| LegacyResume.RenderAnalysis | resume.py:130-167 | the module-level block emits exactly the events of the packaged `display_analysis_results` |
| LegacyResume.RenderScalar | resume.py:130-131 | a subheader, then one write of the bound value or the default |
| LegacyResume.RenderTable | resume.py:133-136 | a subheader, then one table only when the list is truthy |
| LegacyResume.MarkdownLoop | resume.py:152-153 | one "- " + str(item) markdown per item, in order |
| LegacyResume.RenderRecommendations | resume.py:151-153 | the same events as the packaged recommendations section |
| LegacyResume.RenderSummary | resume.py:158-167 | the same events as the packaged summary section |

## Left out

- The Streamlit calls are entries in an event log. Rendering, `st.spinner`,
  `st.file_uploader`, `st.selectbox`, `st.button` and `st.title` are not
  modelled.
- The module-level scripts (src/resumex/app.py:187-200, resume.py:113-128)
  are UI control flow that the framework re-runs. Only the rendering block
  of resume.py is modelled.
- The environment and API-key setup (src/resumex/app.py:15-22,
  resume.py:10-14) is configuration I/O.
- The Gemini call is a function parameter from the prompt to an answer text
  or an exception. Model choice, network, quotas and non-determinism across
  calls are outside the model.
- `json.loads` is a function parameter from the span to an optional value,
  with None where it raises. JSON itself is not re-implemented.
- The PDF libraries (`pypdf`, `PyPDF2`) are abstracted. A file is either
  unreadable or a sequence of pages, each yielding its text or raising with
  a message. How they format an exception as text is not modelled.
- LegacyResume.ExtractTextFromPdf: resume.py reads the upload with `PyPDF2`
  and the packaged application with `pypdf`. Both libraries are assumed to
  read an upload into the same pages and page texts; where they differ,
  the two extractions may differ too.
- JSON numbers are integers. Floating-point scores are not modelled.
- JsonValue.Show: `str()` of a nested list or dict is a simplified `repr()`.
  Strings are single-quoted with no escaping, and Python's choice of double
  quotes for strings that contain a single quote is not modelled. `str()`
  of a string, a number, a boolean and None is modelled exactly.
- Analysis.AnalyzeCvPdfWithLlm: the exception of a failed call is not
  inspected. The code gives every exception the same message, so nothing
  is lost.
- Presenter: each renderer requires the result to be a dict, and requires
  the lists and entries it reads to have the shape its subscripts and loops
  need. Inputs on which the Python code raises a KeyError, TypeError or
  AttributeError are not modelled.
- Presenter.SummaryExampleScored: the strength, area and potential texts are
  parameters rather than the fixed strings of the test. The claim holds for
  every text, including those of the test.
- LegacyResume.RenderAnalysis: the block is written inline in resume.py. The
  model splits it into one step per section (`RenderScalar`, `RenderTable`,
  `RenderRecommendations`, `RenderSummary`, `MarkdownLoop`). Each step
  issues the same calls in the same order as the matching lines.
