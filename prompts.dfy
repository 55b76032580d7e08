/** `get_resume_analysis_prompt(text, report_language)` of the packaged
    application: one f-string with two interpolations, the report language
    inside the general instructions and the CV text at the very end. */
module Prompts {
  import opened Strings
  import K = ResultKeys
  import BraceSpan
  import opened Wrappers

  /** The template before the "- Respond in" line: the role framing and the
      first general instructions. */
  const PreambleLines: seq<string> :=
    [ "\n",
      "You are a globally experienced HR and career evaluation expert with deep cross-industry insight. You will perform an extremely detailed, holistic analysis of the CV provided below. Go beyond numeric scoring \U{2014} offer professional interpretation, inferences, and personalized guidance based on the profile.\n",
      "\n",
      "GENERAL INSTRUCTIONS:\n",
      "- Detect and report the actual language of the CV content.\n",
      "- Regardless of the detected language, generate the entire report in the selected report language below.\n" ]

  const Preamble: string := Concat(PreambleLines)

  /** From the end of the "- Respond in" line to the schema: the remaining
      general instructions, the seven analysis directives and the demand for
      JSON only. */
  const DirectiveLines: seq<string> :=
    [ "\n",
      "- Be objective, professional, and constructive in tone.\n",
      "- If certain sections are missing, infer from available information.\n",
      "- Follow international career evaluation best practices.\n",
      "- Ensure all scoring (0\U{2013}100) is balanced and evidence-based. Do not give overly generous or overly harsh scores. Each score must reflect the content quality, quantity, and relevance in the CV.\n",
      "\n",
      "* 1. LANGUAGE DETECTION\n",
      "Identify the dominant language of the CV.\n",
      "\n",
      "* 2. CAREER DOMAIN MATCHING\n",
      "Identify the top 3 most suitable career domains for this candidate.\n",
      "For each domain:\n",
      "- Give a score out of 100\n",
      "- Justify why the candidate fits that domain (based on experience, skills, education, etc.)\n",
      "- Optionally mention related roles the candidate could consider\n",
      "\n",
      "* 3. COMPETENCY EVALUATION\n",
      "Evaluate the candidate across 10 dimensions. For each, give:\n",
      "- A score out of 100\n",
      "- Specific strengths and examples from the CV\n",
      "- Observations or red flags (if any)\n",
      "\n",
      "* 4. STRATEGIC INSIGHTS & INTERPRETATION\n",
      "- Based on the full CV, what type of roles is this candidate most suited for now?\n",
      "- What future roles could be targeted with slight improvements?\n",
      "- Are there signs of underutilized potential?\n",
      "- Does the profile indicate a specialist or generalist tendency?\n",
      "- Are there inconsistencies or missing data that should be improved?\n",
      "\n",
      "* 5. DEVELOPMENT RECOMMENDATIONS\n",
      "Provide clear, practical and personalized suggestions for how the candidate can improve:\n",
      "- Skills, certifications, degrees\n",
      "- Portfolio, communication, network\n",
      "\n",
      "* 6. COMPARATIVE BENCHMARKING (OPTIONAL)\n",
      "\n",
      "* 7. OVERALL SUMMARY\n",
      "\n",
      "Absolutely follow the JSON format shown below. Do not add any text, comments, or explanations outside the JSON structure.\n",
      "\n" ]

  const Directives: string := Concat(DirectiveLines)

  /** The JSON skeleton the model must fill in, one quoted key at the head
      of each line below; the f-string's doubled braces come out single. */
  const SchemaPieces: seq<string> :=
    [ "{\n  ",
      Quoted(K.Language), ": \"The actual dominant language of the CV (not the report language)\",\n  ",
      Quoted(K.DomainScores), ": [\n    {",
      Quoted(K.Domain), ": \"Domain Name\", ",
      Quoted(K.Score), ": 88, ",
      Quoted(K.Justification), ": \"Why this domain fits\"}\n  ],\n  ",
      Quoted(K.CompetencyScores), ": [\n    {",
      Quoted(K.Category), ": \"Core Skills & Tools\", ",
      Quoted(K.Score), ": 85, ",
      Quoted(K.Strength), ": \"X\", ",
      Quoted(K.Observation), ": \"Y\"}\n  ],\n  ",
      Quoted(K.StrategicInsights), ": \"Full paragraph insight\",\n  ",
      Quoted(K.DevelopmentRecommendations), ": [\n    \"Recommendation 1\",\n    \"Recommendation 2\"\n  ],\n  ",
      Quoted(K.ComparativeBenchmarking), ": \"Paragraph comparing this candidate with others\",\n  ",
      Quoted(K.OverallSummary), ": {\n    ",
      Quoted(K.OverallScore), ": 87,\n    ",
      Quoted(K.KeyStrengths), ": [\"Strength 1\", \"Strength 2\"],\n    ",
      Quoted(K.AreasToImprove), ": [\"Weakness 1\", \"Weakness 2\"],\n    ",
      Quoted(K.TalentPotential), ": \"High / Moderate / Needs Development\"\n  }\n}" ]

  const Schema: string := Concat(SchemaPieces)

  /** The f-string itself, with its three long literal blocks as parameters:
      preamble, the "- Respond in <language>." line, directives, schema, the
      CV header and the CV text, and a final newline. */
  function Template(preamble: string, reportLanguage: string, directives: string,
                    schema: string, text: string): (r: string)
  {
    preamble + "- Respond in " + reportLanguage + "." + directives + schema
    + "\n\nCV Content:\n" + text + "\n"
  }

  /** The prompt sent to the model for this CV text and report language. */
  function GetResumeAnalysisPrompt(text: string, reportLanguage: string): (r: string)
    ensures OccursAt(r, "- Respond in " + reportLanguage + ".", |Preamble|)
    ensures EndsWith(r, "CV Content:\n" + text + "\n")
  {
    TemplateRespondsIn(Preamble, reportLanguage, Directives, Schema, text);
    TemplateEndsWith(Preamble, reportLanguage, Directives, Schema, text);
    Template(Preamble, reportLanguage, Directives, Schema, text)
  }

  /** A key as it is written in the schema: between double quotes. */
  function Quoted(key: string): (r: string)
  {
    "\"" + key + "\""
  }

  /** The prompt is as long as the fixed template plus the two inputs. */
  lemma PromptLength(text: string, reportLanguage: string)
    ensures |GetResumeAnalysisPrompt(text, reportLanguage)|
            == |GetResumeAnalysisPrompt("", "")| + |text| + |reportLanguage|
  {
  }

  lemma TemplateRespondsIn(preamble: string, reportLanguage: string, directives: string,
                           schema: string, text: string)
    ensures OccursAt(Template(preamble, reportLanguage, directives, schema, text),
                     "- Respond in " + reportLanguage + ".", |preamble|)
    ensures Contains(Template(preamble, reportLanguage, directives, schema, text), reportLanguage)
  {
    var line := "- Respond in " + reportLanguage + ".";
    var rest := directives + schema + "\n\nCV Content:\n" + text + "\n";
    var p := Template(preamble, reportLanguage, directives, schema, text);
    assert p == preamble + line + rest;
    assert p[|preamble| + 13..|preamble| + 13 + |reportLanguage|] == reportLanguage;
    ContainsAt(p, reportLanguage, |preamble| + 13);
  }

  /** The report language appears verbatim in the line "- Respond in <language>.",
      right after the preamble, before the directives, the schema and the CV text. */
  lemma RespondsInReportLanguage(text: string, reportLanguage: string)
    ensures OccursAt(GetResumeAnalysisPrompt(text, reportLanguage),
                     "- Respond in " + reportLanguage + ".", |Preamble|)
    ensures Contains(GetResumeAnalysisPrompt(text, reportLanguage), reportLanguage)
  {
    TemplateRespondsIn(Preamble, reportLanguage, Directives, Schema, text);
  }

  lemma TemplateEndsWith(preamble: string, reportLanguage: string, directives: string,
                         schema: string, text: string)
    ensures EndsWith(Template(preamble, reportLanguage, directives, schema, text),
                     "CV Content:\n" + text + "\n")
  {
    var head := preamble + "- Respond in " + reportLanguage + "." + directives + schema + "\n\n";
    assert Template(preamble, reportLanguage, directives, schema, text)
        == head + ("CV Content:\n" + text + "\n");
  }

  lemma TemplateTextLast(preamble: string, reportLanguage: string, directives: string,
                         schema: string, text: string, other: string)
    ensures var p := Template(preamble, reportLanguage, directives, schema, text);
            var q := Template(preamble, reportLanguage, directives, schema, other);
            && |p| >= |text| + 1 && |q| >= |other| + 1
            && p[..|p| - |text| - 1] == q[..|q| - |other| - 1]
            && p[|p| - |text| - 1..] == text + "\n"
  {
    var head := preamble + "- Respond in " + reportLanguage + "." + directives + schema + "\n\nCV Content:\n";
    assert Template(preamble, reportLanguage, directives, schema, text) == head + (text + "\n");
    assert Template(preamble, reportLanguage, directives, schema, other) == head + (other + "\n");
  }

  /** The CV text is the last thing interpolated: everything before it is
      the same whatever the text is, and only a newline follows it. */
  lemma TextComesLast(text: string, other: string, reportLanguage: string)
    ensures var p := GetResumeAnalysisPrompt(text, reportLanguage);
            var q := GetResumeAnalysisPrompt(other, reportLanguage);
            && |p| >= |text| + 1 && |q| >= |other| + 1
            && p[..|p| - |text| - 1] == q[..|q| - |other| - 1]
            && p[|p| - |text| - 1..] == text + "\n"
  {
    TemplateTextLast(Preamble, reportLanguage, Directives, Schema, text, other);
  }

  /** The schema is one brace-delimited block, opened by `{` and a newline
      and closed by a newline and `}` (single braces, not the doubled `{{`
      `}}` that an f-string needs to print a brace); a reply that repeats it verbatim is taken whole as the JSON
      candidate. */
  lemma SchemaIsOneObject()
    ensures |Schema| >= 4 && Schema[0] == '{' && Schema[1] == '\n'
    ensures Schema[|Schema| - 2] == '\n' && Schema[|Schema| - 1] == '}'
    ensures BraceSpan.Group(Schema) == Some(Schema)
  {
    var first, last := SchemaPieces[0], SchemaPieces[|SchemaPieces| - 1];
    ConcatEnds(SchemaPieces);
    assert first == "{\n  " && last[|last| - 2] == '\n' && last[|last| - 1] == '}';
    assert Schema[0] == Schema[..|first|][0] && Schema[1] == Schema[..|first|][1];
    assert Schema[|Schema| - 2] == Schema[|Schema| - |last|..][|last| - 2];
    assert Schema[|Schema| - 1] == Schema[|Schema| - |last|..][|last| - 1];
    BraceSpan.WholeResponse(Schema);
  }

  /** Each key, in double quotes, is one of the schema's pieces. */
  lemma SchemaQuotesEveryKey()
    ensures forall k :: k in K.All ==> Quoted(k) in SchemaPieces
  {
    assert K.All == [K.Language, K.DomainScores, K.CompetencyScores, K.StrategicInsights,
                     K.DevelopmentRecommendations, K.ComparativeBenchmarking, K.OverallSummary,
                     K.Domain, K.Score, K.Justification, K.Category, K.Score, K.Strength,
                     K.Observation, K.OverallScore, K.KeyStrengths, K.AreasToImprove,
                     K.TalentPotential];
  }

  /** Every key the report presenter reads, at every nesting level, is named
      in the schema of every prompt. */
  lemma SchemaNamesEveryKey(text: string, reportLanguage: string)
    ensures forall k :: k in K.All ==> Contains(GetResumeAnalysisPrompt(text, reportLanguage), Quoted(k))
  {
    SchemaQuotesEveryKey();
    forall k | k in K.All
      ensures Contains(GetResumeAnalysisPrompt(text, reportLanguage), Quoted(k))
    {
      ContainsPart(SchemaPieces, Quoted(k));
      TemplateContainsSchema(Preamble, reportLanguage, Directives, Schema, text, Quoted(k));
    }
  }

  lemma TemplateContainsSchema(preamble: string, reportLanguage: string, directives: string,
                               schema: string, text: string, w: string)
    requires Contains(schema, w)
    ensures Contains(Template(preamble, reportLanguage, directives, schema, text), w)
  {
    var head := preamble + "- Respond in " + reportLanguage + "." + directives;
    var tail := "\n\nCV Content:\n" + text + "\n";
    ContainsPrepend(head, schema, w);
    ContainsAppend(head + schema, tail, w);
    assert Template(preamble, reportLanguage, directives, schema, text) == head + schema + tail;
  }
}
