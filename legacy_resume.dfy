/** The root-level single-file application (resume.py): its own
    `extract_text_from_pdf`, its own `analyzecv_pdf_withllm` with the prompt
    written inline, and the rendering block it runs at module level once an
    analysis comes back. Each is modelled on its own and proved to behave
    like the packaged application's counterpart for the same pages, answer
    and parser (resume.py reads PDFs with `PyPDF2`, the packaged application
    with `pypdf`; both are taken to yield the same pages). */
module LegacyResume {
  import opened Wrappers
  import opened Strings
  import opened JsonValue
  import opened Streamlit
  import K = ResultKeys
  import BraceSpan
  import Prompts
  import Extraction
  import Analysis
  import P = Presenter

  // ---------------------------------------------------------------------
  // extract_text_from_pdf

  /** `extract_text_from_pdf(uploaded_file)`: the `try` block with its loop
      written out in place. */
  method ExtractTextFromPdf(st: Display, file: Extraction.PdfFile) returns (text: Option<string>)
    modifies st
    ensures Extraction.Extracted(file).Success? ==>
              text == Some(Extraction.Extracted(file).value) && st.events == old(st.events)
    ensures Extraction.Extracted(file).Failure? ==>
              && text == None
              && st.events == old(st.events) + [Error(Extraction.ErrorPrefix + Extraction.Extracted(file).error)]
  {
    if file.Unreadable? {
      st.Error(Extraction.ErrorPrefix + file.error);
      return None;
    }
    var pages := file.pages;
    var acc := "";
    for i := 0 to |pages|
      invariant Extraction.AllReadable(pages[..i])
      invariant acc == Concat(Extraction.Texts(pages[..i]))
      invariant st.events == old(st.events)
    {
      if pages[i].BrokenPage? {
        Extraction.FirstErrorAt(pages, i);
        st.Error(Extraction.ErrorPrefix + pages[i].error);
        return None;
      }
      assert Extraction.Texts(pages[..i + 1]) == Extraction.Texts(pages[..i]) + [pages[i].text];
      acc := acc + pages[i].text;
    }
    assert pages[..|pages|] == pages;
    return Some(acc);
  }

  // ---------------------------------------------------------------------
  // analyzecv_pdf_withllm with the prompt inline

  /** The template before the "- Respond in" line: the role framing and the
      first general instructions. */
  const PreambleLines: seq<string> :=
    [ "\n",
      "You are a globally experienced HR and career evaluation expert with deep cross-industry insight. You will perform an extremely detailed, holistic analysis of the CV provided below. Go beyond numeric scoring \U{2014} offer professional interpretation, inferences, and personalized guidance based on the profile.\n",
      "\n",
      "GENERAL INSTRUCTIONS:\n",
      "- Detect and report the actual language of the CV content.\n",
      "- Regardless of the detected language, generate the entire report in the selected report language below.\n" ]

  const Preamble: string := Concat(PreambleLines)

  /** From the end of the "- Respond in" line to the schema: the remaining
      general instructions, the seven analysis directives and the demand for
      JSON only. */
  const DirectiveLines: seq<string> :=
    [ "\n",
      "- Be objective, professional, and constructive in tone.\n",
      "- If certain sections are missing, infer from available information.\n",
      "- Follow international career evaluation best practices.\n",
      "- Ensure all scoring (0\U{2013}100) is balanced and evidence-based. Do not give overly generous or overly harsh scores. Each score must reflect the content quality, quantity, and relevance in the CV.\n",
      "\n",
      "* 1. LANGUAGE DETECTION\n",
      "Identify the dominant language of the CV.\n",
      "\n",
      "* 2. CAREER DOMAIN MATCHING\n",
      "Identify the top 3 most suitable career domains for this candidate.\n",
      "For each domain:\n",
      "- Give a score out of 100\n",
      "- Justify why the candidate fits that domain (based on experience, skills, education, etc.)\n",
      "- Optionally mention related roles the candidate could consider\n",
      "\n",
      "* 3. COMPETENCY EVALUATION\n",
      "Evaluate the candidate across 10 dimensions. For each, give:\n",
      "- A score out of 100\n",
      "- Specific strengths and examples from the CV\n",
      "- Observations or red flags (if any)\n",
      "\n",
      "* 4. STRATEGIC INSIGHTS & INTERPRETATION\n",
      "- Based on the full CV, what type of roles is this candidate most suited for now?\n",
      "- What future roles could be targeted with slight improvements?\n",
      "- Are there signs of underutilized potential?\n",
      "- Does the profile indicate a specialist or generalist tendency?\n",
      "- Are there inconsistencies or missing data that should be improved?\n",
      "\n",
      "* 5. DEVELOPMENT RECOMMENDATIONS\n",
      "Provide clear, practical and personalized suggestions for how the candidate can improve:\n",
      "- Skills, certifications, degrees\n",
      "- Portfolio, communication, network\n",
      "\n",
      "* 6. COMPARATIVE BENCHMARKING (OPTIONAL)\n",
      "\n",
      "* 7. OVERALL SUMMARY\n",
      "\n",
      "Absolutely follow the JSON format shown below. Do not add any text, comments, or explanations outside the JSON structure.\n",
      "\n" ]

  const Directives: string := Concat(DirectiveLines)

  /** The JSON skeleton the model must fill in, one quoted key at the head
      of each line below; the f-string's doubled braces come out single. */
  const SchemaPieces: seq<string> :=
    [ "{\n  ",
      Prompts.Quoted(K.Language), ": \"The actual dominant language of the CV (not the report language)\",\n  ",
      Prompts.Quoted(K.DomainScores), ": [\n    {",
      Prompts.Quoted(K.Domain), ": \"Domain Name\", ",
      Prompts.Quoted(K.Score), ": 88, ",
      Prompts.Quoted(K.Justification), ": \"Why this domain fits\"}\n  ],\n  ",
      Prompts.Quoted(K.CompetencyScores), ": [\n    {",
      Prompts.Quoted(K.Category), ": \"Core Skills & Tools\", ",
      Prompts.Quoted(K.Score), ": 85, ",
      Prompts.Quoted(K.Strength), ": \"X\", ",
      Prompts.Quoted(K.Observation), ": \"Y\"}\n  ],\n  ",
      Prompts.Quoted(K.StrategicInsights), ": \"Full paragraph insight\",\n  ",
      Prompts.Quoted(K.DevelopmentRecommendations), ": [\n    \"Recommendation 1\",\n    \"Recommendation 2\"\n  ],\n  ",
      Prompts.Quoted(K.ComparativeBenchmarking), ": \"Paragraph comparing this candidate with others\",\n  ",
      Prompts.Quoted(K.OverallSummary), ": {\n    ",
      Prompts.Quoted(K.OverallScore), ": 87,\n    ",
      Prompts.Quoted(K.KeyStrengths), ": [\"Strength 1\", \"Strength 2\"],\n    ",
      Prompts.Quoted(K.AreasToImprove), ": [\"Weakness 1\", \"Weakness 2\"],\n    ",
      Prompts.Quoted(K.TalentPotential), ": \"High / Moderate / Needs Development\"\n  }\n}" ]

  const Schema: string := Concat(SchemaPieces)

  /** The inline f-string assigned to `prompt`. */
  function InlinePrompt(text: string, reportLanguage: string): (r: string)
    ensures r == Prompts.GetResumeAnalysisPrompt(text, reportLanguage)
  {
    Preamble + "- Respond in " + reportLanguage + "." + Directives + Schema
    + "\n\nCV Content:\n" + text + "\n"
  }

  /** `analyzecv_pdf_withllm(text, report_language)`: for every answer and
      parser it returns what the packaged function returns and reports the
      same error. */
  method AnalyzeCvPdfWithLlm(st: Display, text: string, reportLanguage: string,
                             generate: string -> Analysis.Response, parse: string -> Option<Json>)
    returns (result: Option<Json>)
    modifies st
    ensures var outcome := Analysis.Analyze(generate(Prompts.GetResumeAnalysisPrompt(text, reportLanguage)), parse);
            result == Analysis.ResultOf(outcome) && st.events == old(st.events) + Analysis.Notice(outcome)
  {
    var prompt := InlinePrompt(text, reportLanguage);
    var response := generate(prompt);
    if response.Raised? {
      st.Error(Analysis.ProcessingErrorMessage);
      return None;
    }
    var rawText := response.text;
    var match_ := BraceSpan.Search(rawText);
    if match_.None? {
      st.Error(Analysis.NoAnalysisMessage);
      return None;
    }
    var jsonStr := rawText[match_.value.0..match_.value.1];
    var parsed := parse(jsonStr);
    if parsed.None? {
      st.Error(Analysis.ProcessingErrorMessage);
      return None;
    }
    return parsed;
  }

  // ---------------------------------------------------------------------
  // The module-level rendering block

  /** The display calls the script makes once `result` is truthy, section
      by section in the order they are written. They produce exactly the
      events of the packaged `display_analysis_results`. */
  method RenderAnalysis(st: Display, result: Json)
    requires P.Renderable(result)
    modifies st
    ensures st.events == old(st.events) + P.AnalysisEvents(result)
  {
    ghost var before := st.events;
    RenderScalar(st, P.LanguageTitle, result, K.Language, P.NotDetected);
    ghost var shown := P.LanguageEvents(result);
    RenderTable(st, P.DomainTitle, result, K.DomainScores, P.DomainColumns, K.DomainEntry);
    P.AppendAssociates(before, shown, P.DomainEvents(result));
    shown := shown + P.DomainEvents(result);
    RenderTable(st, P.CompetencyTitle, result, K.CompetencyScores, P.CompetencyColumns, K.CompetencyEntry);
    P.AppendAssociates(before, shown, P.CompetencyEvents(result));
    shown := shown + P.CompetencyEvents(result);
    RenderScalar(st, P.InsightsTitle, result, K.StrategicInsights, P.NotAvailable);
    P.AppendAssociates(before, shown, P.InsightsEvents(result));
    shown := shown + P.InsightsEvents(result);
    RenderRecommendations(st, result);
    P.AppendAssociates(before, shown, P.RecommendationEvents(result));
    shown := shown + P.RecommendationEvents(result);
    RenderScalar(st, P.BenchmarkingTitle, result, K.ComparativeBenchmarking, P.NotAvailable);
    P.AppendAssociates(before, shown, P.BenchmarkingEvents(result));
    shown := shown + P.BenchmarkingEvents(result);
    RenderSummary(st, result);
    P.AppendAssociates(before, shown, P.SummaryEvents(result));
  }

  /** `st.subheader(title)` then `st.write(result.get(key, default))`: the
      language, insights and benchmarking parts of the block. */
  method RenderScalar(st: Display, title: string, result: Json, key: string, default: Json)
    requires result.Obj?
    modifies st
    ensures st.events == old(st.events) + P.ScalarSection(title, result, key, default)
  {
    st.Subheader(title);
    st.Write(Get(result, key, default));
  }

  /** `st.subheader(title)`, then `st.table` of the renamed rows when the
      list under `key` is truthy: the domain and competency parts. */
  method RenderTable(st: Display, title: string, result: Json, key: string,
                     columns: seq<string>, keys: seq<string>)
    requires result.Obj? && |columns| == |keys| && P.TableRenderable(Get(result, key, P.NoList), keys)
    modifies st
    ensures st.events == old(st.events) + P.TableSection(title, Get(result, key, P.NoList), columns, keys)
  {
    st.Subheader(title);
    var data := Get(result, key, P.NoList);
    if Truthy(data) {
      st.Table(P.TableRows(data.items, columns, keys));
    }
  }

  /** One of the block's `for` loops: `st.markdown(f"- {item}")` for each
      item, in order. */
  method MarkdownLoop(st: Display, items: seq<Json>)
    modifies st
    ensures st.events == old(st.events) + P.Bullets(items)
  {
    for i := 0 to |items|
      invariant st.events == old(st.events) + P.Bullets(items[..i])
    {
      st.Markdown(P.Bullet(items[i]));
      assert P.Bullets(items[..i + 1]) == P.Bullets(items[..i]) + [Markdown(P.Bullet(items[i]))];
    }
    assert items[..|items|] == items;
  }

  /** The recommendations part of the block: the subheader, then one bullet
      per recommendation. */
  method RenderRecommendations(st: Display, result: Json)
    requires P.RecommendationsRenderable(result)
    modifies st
    ensures st.events == old(st.events) + P.RecommendationEvents(result)
  {
    st.Subheader(P.RecommendationsTitle);
    MarkdownLoop(st, P.Recommendations(result));
  }

  /** The overall-summary part of the block. */
  method RenderSummary(st: Display, result: Json)
    requires P.SummaryRenderable(result)
    modifies st
    ensures st.events == old(st.events) + P.SummaryEvents(result)
  {
    ghost var mark := st.events;
    st.Subheader(P.SummaryTitle);
    var summary := Get(result, K.OverallSummary, P.NoDict);
    st.Markdown("**Overall Score:** " + Show(Get(summary, K.OverallScore, P.NotAvailable)) + "/100");
    st.Markdown(P.StrengthsLine);
    ghost var part := [Subheader(P.SummaryTitle), Markdown(P.ScoreLine(result)), Markdown(P.StrengthsLine)];
    assert st.events == mark + part;
    MarkdownLoop(st, P.KeyStrengths(result));
    P.AppendAssociates(mark, part, P.Bullets(P.KeyStrengths(result)));
    part := part + P.Bullets(P.KeyStrengths(result));
    st.Markdown(P.AreasLine);
    P.AppendAssociates(mark, part, [Markdown(P.AreasLine)]);
    part := part + [Markdown(P.AreasLine)];
    MarkdownLoop(st, P.AreasToImprove(result));
    P.AppendAssociates(mark, part, P.Bullets(P.AreasToImprove(result)));
    part := part + P.Bullets(P.AreasToImprove(result));
    st.Markdown("**Talent Potential:** " + Show(Get(summary, K.TalentPotential, P.NotAvailable)));
    P.AppendAssociates(mark, part, [Markdown(P.PotentialLine(result))]);
  }
}
