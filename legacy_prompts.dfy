/** The root-level copy of `get_resume_analysis_prompt` (prompts.py). It
    carries its own copy of the template text; the lemmas below show that the
    copy builds exactly the packaged prompt, so every property proved of that
    prompt holds for this one too. */
module LegacyPrompts {
  import opened Strings
  import K = ResultKeys
  import Prompts

  /** The template before the "- Respond in" line: the role framing and the
      first general instructions. */
  const PreambleLines: seq<string> :=
    [ "\n",
      "You are a globally experienced HR and career evaluation expert with deep cross-industry insight. You will perform an extremely detailed, holistic analysis of the CV provided below. Go beyond numeric scoring \U{2014} offer professional interpretation, inferences, and personalized guidance based on the profile.\n",
      "\n",
      "GENERAL INSTRUCTIONS:\n",
      "- Detect and report the actual language of the CV content.\n",
      "- Regardless of the detected language, generate the entire report in the selected report language below.\n" ]

  const Preamble: string := Concat(PreambleLines)

  /** From the end of the "- Respond in" line to the schema: the remaining
      general instructions, the seven analysis directives and the demand for
      JSON only. */
  const DirectiveLines: seq<string> :=
    [ "\n",
      "- Be objective, professional, and constructive in tone.\n",
      "- If certain sections are missing, infer from available information.\n",
      "- Follow international career evaluation best practices.\n",
      "- Ensure all scoring (0\U{2013}100) is balanced and evidence-based. Do not give overly generous or overly harsh scores. Each score must reflect the content quality, quantity, and relevance in the CV.\n",
      "\n",
      "* 1. LANGUAGE DETECTION\n",
      "Identify the dominant language of the CV.\n",
      "\n",
      "* 2. CAREER DOMAIN MATCHING\n",
      "Identify the top 3 most suitable career domains for this candidate.\n",
      "For each domain:\n",
      "- Give a score out of 100\n",
      "- Justify why the candidate fits that domain (based on experience, skills, education, etc.)\n",
      "- Optionally mention related roles the candidate could consider\n",
      "\n",
      "* 3. COMPETENCY EVALUATION\n",
      "Evaluate the candidate across 10 dimensions. For each, give:\n",
      "- A score out of 100\n",
      "- Specific strengths and examples from the CV\n",
      "- Observations or red flags (if any)\n",
      "\n",
      "* 4. STRATEGIC INSIGHTS & INTERPRETATION\n",
      "- Based on the full CV, what type of roles is this candidate most suited for now?\n",
      "- What future roles could be targeted with slight improvements?\n",
      "- Are there signs of underutilized potential?\n",
      "- Does the profile indicate a specialist or generalist tendency?\n",
      "- Are there inconsistencies or missing data that should be improved?\n",
      "\n",
      "* 5. DEVELOPMENT RECOMMENDATIONS\n",
      "Provide clear, practical and personalized suggestions for how the candidate can improve:\n",
      "- Skills, certifications, degrees\n",
      "- Portfolio, communication, network\n",
      "\n",
      "* 6. COMPARATIVE BENCHMARKING (OPTIONAL)\n",
      "\n",
      "* 7. OVERALL SUMMARY\n",
      "\n",
      "Absolutely follow the JSON format shown below. Do not add any text, comments, or explanations outside the JSON structure.\n",
      "\n" ]

  const Directives: string := Concat(DirectiveLines)

  /** The JSON skeleton the model must fill in, one quoted key at the head
      of each line below; the f-string's doubled braces come out single. */
  const SchemaPieces: seq<string> :=
    [ "{\n  ",
      Prompts.Quoted(K.Language), ": \"The actual dominant language of the CV (not the report language)\",\n  ",
      Prompts.Quoted(K.DomainScores), ": [\n    {",
      Prompts.Quoted(K.Domain), ": \"Domain Name\", ",
      Prompts.Quoted(K.Score), ": 88, ",
      Prompts.Quoted(K.Justification), ": \"Why this domain fits\"}\n  ],\n  ",
      Prompts.Quoted(K.CompetencyScores), ": [\n    {",
      Prompts.Quoted(K.Category), ": \"Core Skills & Tools\", ",
      Prompts.Quoted(K.Score), ": 85, ",
      Prompts.Quoted(K.Strength), ": \"X\", ",
      Prompts.Quoted(K.Observation), ": \"Y\"}\n  ],\n  ",
      Prompts.Quoted(K.StrategicInsights), ": \"Full paragraph insight\",\n  ",
      Prompts.Quoted(K.DevelopmentRecommendations), ": [\n    \"Recommendation 1\",\n    \"Recommendation 2\"\n  ],\n  ",
      Prompts.Quoted(K.ComparativeBenchmarking), ": \"Paragraph comparing this candidate with others\",\n  ",
      Prompts.Quoted(K.OverallSummary), ": {\n    ",
      Prompts.Quoted(K.OverallScore), ": 87,\n    ",
      Prompts.Quoted(K.KeyStrengths), ": [\"Strength 1\", \"Strength 2\"],\n    ",
      Prompts.Quoted(K.AreasToImprove), ": [\"Weakness 1\", \"Weakness 2\"],\n    ",
      Prompts.Quoted(K.TalentPotential), ": \"High / Moderate / Needs Development\"\n  }\n}" ]

  const Schema: string := Concat(SchemaPieces)

  /** The prompt sent to the model for this CV text and report language. */
  function GetResumeAnalysisPrompt(text: string, reportLanguage: string): (r: string)
    ensures r == Prompts.GetResumeAnalysisPrompt(text, reportLanguage)
  {
    Preamble + "- Respond in " + reportLanguage + "." + Directives + Schema
    + "\n\nCV Content:\n" + text + "\n"
  }

  /** The report language appears verbatim in the line "- Respond in <language>.",
      right after the preamble. */
  lemma RespondsInReportLanguage(text: string, reportLanguage: string)
    ensures OccursAt(GetResumeAnalysisPrompt(text, reportLanguage),
                     "- Respond in " + reportLanguage + ".", |Preamble|)
    ensures Contains(GetResumeAnalysisPrompt(text, reportLanguage), reportLanguage)
  {
    Prompts.RespondsInReportLanguage(text, reportLanguage);
  }

  /** The prompt ends with the CV header, the CV text verbatim and a newline. */
  lemma EndsWithCvContent(text: string, reportLanguage: string)
    ensures EndsWith(GetResumeAnalysisPrompt(text, reportLanguage), "CV Content:\n" + text + "\n")
  {
  }

  /** Every key the report presenter reads is named, in double quotes, in
      the schema of every prompt. */
  lemma SchemaNamesEveryKey(text: string, reportLanguage: string)
    ensures forall k :: k in K.All ==> Contains(GetResumeAnalysisPrompt(text, reportLanguage), Prompts.Quoted(k))
  {
    Prompts.SchemaNamesEveryKey(text, reportLanguage);
  }
}
