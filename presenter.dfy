/** The report presenter of the packaged application: the seven `display_*`
    renderers and `display_analysis_results`. Each renderer is a method that
    appends Streamlit events to the display log, proved against a function
    that gives the events it appends; the lemmas below state what those
    event sequences contain. */
module Presenter {
  import opened Wrappers
  import opened JsonValue
  import opened Streamlit
  import K = ResultKeys

  const LanguageTitle := "Detected Language"
  const DomainTitle := "Career Domain Fit Scores"
  const CompetencyTitle := "Competency Evaluation"
  const InsightsTitle := "Strategic Insights"
  const RecommendationsTitle := "Development Recommendations"
  const BenchmarkingTitle := "Comparative Benchmarking"
  const SummaryTitle := "Overall Summary"

  /** The section titles in the order `display_analysis_results` renders them. */
  const SectionTitles: seq<string> :=
    [LanguageTitle, DomainTitle, CompetencyTitle, InsightsTitle,
     RecommendationsTitle, BenchmarkingTitle, SummaryTitle]

  /** Table column names, renaming the entry keys position by position. */
  const DomainColumns: seq<string> := ["Domain", "Score", "Justification"]
  const CompetencyColumns: seq<string> := ["Category", "Score", "Strength", "Observation"]

  /** The defaults handed to `dict.get`. */
  const NotDetected := Str("Not detected")
  const NotAvailable := Str("N/A")
  const NoList := Arr([])
  const NoDict := Obj([])

  // ---------------------------------------------------------------------
  // When a renderer raises nothing

  /** `if value:` followed by `[... entry[k] ... for entry in value]` raises
      nothing: either the value is falsy and the table is skipped, or it is
      a list whose every entry is a dict holding each key. */
  predicate TableRenderable(value: Json, keys: seq<string>)
  {
    !Truthy(value) || (value.Arr? && forall i :: 0 <= i < |value.items| ==> HasKeys(value.items[i], keys))
  }

  /** `for x in value:` raises nothing. */
  predicate ListRenderable(value: Json)
  {
    Iterate(value).Some?
  }

  predicate DomainRenderable(result: Json)
  {
    result.Obj? && TableRenderable(Get(result, K.DomainScores, NoList), K.DomainEntry)
  }

  predicate CompetencyRenderable(result: Json)
  {
    result.Obj? && TableRenderable(Get(result, K.CompetencyScores, NoList), K.CompetencyEntry)
  }

  predicate RecommendationsRenderable(result: Json)
  {
    result.Obj? && ListRenderable(Get(result, K.DevelopmentRecommendations, NoList))
  }

  /** `summary.get(...)` needs a dict, and both of its lists must be iterable. */
  predicate SummaryRenderable(result: Json)
  {
    && result.Obj?
    && var summary := Get(result, K.OverallSummary, NoDict);
    && summary.Obj?
    && ListRenderable(Get(summary, K.KeyStrengths, NoList))
    && ListRenderable(Get(summary, K.AreasToImprove, NoList))
  }

  /** The whole report renders without raising. */
  predicate Renderable(result: Json)
  {
    && result.Obj?
    && DomainRenderable(result)
    && CompetencyRenderable(result)
    && RecommendationsRenderable(result)
    && SummaryRenderable(result)
  }

  // ---------------------------------------------------------------------
  // The events each renderer appends

  /** One table row: each column name paired with the entry's value under
      the matching key. */
  function TableRow(entry: Json, columns: seq<string>, keys: seq<string>): (r: Row)
    requires |columns| == |keys| && HasKeys(entry, keys)
  {
    seq(|columns|, c requires 0 <= c < |columns| => (columns[c], Subscript(entry, keys[c])))
  }

  /** The list comprehension handed to `st.table`: one row per entry, in order. */
  function TableRows(entries: seq<Json>, columns: seq<string>, keys: seq<string>): (r: seq<Row>)
    requires |columns| == |keys| && forall i :: 0 <= i < |entries| ==> HasKeys(entries[i], keys)
  {
    seq(|entries|, i requires 0 <= i < |entries| => TableRow(entries[i], columns, keys))
  }

  /** A subheader followed by one `st.write` of the value or its default. */
  function ScalarSection(title: string, result: Json, key: string, default: Json): (r: seq<Event>)
    requires result.Obj?
  {
    [Subheader(title), Write(Get(result, key, default))]
  }

  /** A subheader, then a table only when the list is truthy. */
  function TableSection(title: string, value: Json, columns: seq<string>, keys: seq<string>): (r: seq<Event>)
    requires |columns| == |keys| && TableRenderable(value, keys)
  {
    [Subheader(title)] + if Truthy(value) then [Table(TableRows(value.items, columns, keys))] else []
  }

  /** The text of one bullet: `f"- {item}"`. */
  function Bullet(item: Json): (r: string)
  {
    "- " + Show(item)
  }

  /** One markdown bullet per item, in order. */
  function Bullets(items: seq<Json>): (r: seq<Event>)
  {
    seq(|items|, i requires 0 <= i < |items| => Markdown(Bullet(items[i])))
  }

  function LanguageEvents(result: Json): (r: seq<Event>)
    requires result.Obj?
  {
    ScalarSection(LanguageTitle, result, K.Language, NotDetected)
  }

  function DomainEvents(result: Json): (r: seq<Event>)
    requires DomainRenderable(result)
  {
    TableSection(DomainTitle, Get(result, K.DomainScores, NoList), DomainColumns, K.DomainEntry)
  }

  function CompetencyEvents(result: Json): (r: seq<Event>)
    requires CompetencyRenderable(result)
  {
    TableSection(CompetencyTitle, Get(result, K.CompetencyScores, NoList), CompetencyColumns, K.CompetencyEntry)
  }

  function InsightsEvents(result: Json): (r: seq<Event>)
    requires result.Obj?
  {
    ScalarSection(InsightsTitle, result, K.StrategicInsights, NotAvailable)
  }

  /** The items `for rec in result.get("development_recommendations", [])` visits. */
  function Recommendations(result: Json): (r: seq<Json>)
    requires RecommendationsRenderable(result)
  {
    Iterate(Get(result, K.DevelopmentRecommendations, NoList)).value
  }

  function RecommendationEvents(result: Json): (r: seq<Event>)
    requires RecommendationsRenderable(result)
  {
    [Subheader(RecommendationsTitle)] + Bullets(Recommendations(result))
  }

  function BenchmarkingEvents(result: Json): (r: seq<Event>)
    requires result.Obj?
  {
    ScalarSection(BenchmarkingTitle, result, K.ComparativeBenchmarking, NotAvailable)
  }

  function Summary(result: Json): (r: Json)
    requires result.Obj?
  {
    Get(result, K.OverallSummary, NoDict)
  }

  function KeyStrengths(result: Json): (r: seq<Json>)
    requires SummaryRenderable(result)
  {
    Iterate(Get(Summary(result), K.KeyStrengths, NoList)).value
  }

  function AreasToImprove(result: Json): (r: seq<Json>)
    requires SummaryRenderable(result)
  {
    Iterate(Get(Summary(result), K.AreasToImprove, NoList)).value
  }

  function ScoreLine(result: Json): (r: string)
    requires SummaryRenderable(result)
  {
    "**Overall Score:** " + Show(Get(Summary(result), K.OverallScore, NotAvailable)) + "/100"
  }

  const StrengthsLine := "**Key Strengths:**"
  const AreasLine := "**Areas to Improve:**"

  function PotentialLine(result: Json): (r: string)
    requires SummaryRenderable(result)
  {
    "**Talent Potential:** " + Show(Get(Summary(result), K.TalentPotential, NotAvailable))
  }

  /** The summary section given its score line, its two lists and its
      talent-potential line. */
  function SummaryLayout(scoreLine: string, strengths: seq<Json>, areas: seq<Json>,
                         potentialLine: string): (r: seq<Event>)
  {
    [Subheader(SummaryTitle), Markdown(scoreLine), Markdown(StrengthsLine)]
    + Bullets(strengths)
    + [Markdown(AreasLine)]
    + Bullets(areas)
    + [Markdown(potentialLine)]
  }

  function SummaryEvents(result: Json): (r: seq<Event>)
    requires SummaryRenderable(result)
  {
    SummaryLayout(ScoreLine(result), KeyStrengths(result), AreasToImprove(result), PotentialLine(result))
  }

  /** The seven sections, each rendered from the same result, in order. */
  function AnalysisEvents(result: Json): (r: seq<Event>)
    requires Renderable(result)
  {
    LanguageEvents(result) + DomainEvents(result) + CompetencyEvents(result)
    + InsightsEvents(result) + RecommendationEvents(result)
    + BenchmarkingEvents(result) + SummaryEvents(result)
  }

  // ---------------------------------------------------------------------
  // The renderers

  lemma AppendAssociates(a: seq<Event>, b: seq<Event>, c: seq<Event>)
    ensures (a + b) + c == a + (b + c)
  {
  }

  method DisplayLanguageInfo(st: Display, result: Json)
    requires result.Obj?
    modifies st
    ensures st.events == old(st.events) + LanguageEvents(result)
  {
    st.Subheader(LanguageTitle);
    st.Write(Get(result, K.Language, NotDetected));
  }

  method DisplayDomainScores(st: Display, result: Json)
    requires DomainRenderable(result)
    modifies st
    ensures st.events == old(st.events) + DomainEvents(result)
  {
    st.Subheader(DomainTitle);
    var domainResults := Get(result, K.DomainScores, NoList);
    if Truthy(domainResults) {
      st.Table(TableRows(domainResults.items, DomainColumns, K.DomainEntry));
    }
  }

  method DisplayCompetencyScores(st: Display, result: Json)
    requires CompetencyRenderable(result)
    modifies st
    ensures st.events == old(st.events) + CompetencyEvents(result)
  {
    st.Subheader(CompetencyTitle);
    var competencyResults := Get(result, K.CompetencyScores, NoList);
    if Truthy(competencyResults) {
      st.Table(TableRows(competencyResults.items, CompetencyColumns, K.CompetencyEntry));
    }
  }

  method DisplayStrategicInsights(st: Display, result: Json)
    requires result.Obj?
    modifies st
    ensures st.events == old(st.events) + InsightsEvents(result)
  {
    st.Subheader(InsightsTitle);
    st.Write(Get(result, K.StrategicInsights, NotAvailable));
  }

  /** `for item in items: st.markdown(f"- {item}")` */
  method MarkdownEach(st: Display, items: seq<Json>)
    modifies st
    ensures st.events == old(st.events) + Bullets(items)
  {
    for i := 0 to |items|
      invariant st.events == old(st.events) + Bullets(items[..i])
    {
      st.Markdown(Bullet(items[i]));
      assert Bullets(items[..i + 1]) == Bullets(items[..i]) + [Markdown(Bullet(items[i]))];
    }
    assert items[..|items|] == items;
  }

  method DisplayDevelopmentRecommendations(st: Display, result: Json)
    requires RecommendationsRenderable(result)
    modifies st
    ensures st.events == old(st.events) + RecommendationEvents(result)
  {
    st.Subheader(RecommendationsTitle);
    MarkdownEach(st, Recommendations(result));
  }

  method DisplayComparativeBenchmarking(st: Display, result: Json)
    requires result.Obj?
    modifies st
    ensures st.events == old(st.events) + BenchmarkingEvents(result)
  {
    st.Subheader(BenchmarkingTitle);
    st.Write(Get(result, K.ComparativeBenchmarking, NotAvailable));
  }

  method DisplayOverallSummary(st: Display, result: Json)
    requires SummaryRenderable(result)
    modifies st
    ensures st.events == old(st.events) + SummaryEvents(result)
  {
    ghost var before := st.events;
    st.Subheader(SummaryTitle);
    st.Markdown(ScoreLine(result));
    st.Markdown(StrengthsLine);
    ghost var shown := [Subheader(SummaryTitle), Markdown(ScoreLine(result)), Markdown(StrengthsLine)];
    assert st.events == before + shown;
    MarkdownEach(st, KeyStrengths(result));
    AppendAssociates(before, shown, Bullets(KeyStrengths(result)));
    shown := shown + Bullets(KeyStrengths(result));
    st.Markdown(AreasLine);
    AppendAssociates(before, shown, [Markdown(AreasLine)]);
    shown := shown + [Markdown(AreasLine)];
    MarkdownEach(st, AreasToImprove(result));
    AppendAssociates(before, shown, Bullets(AreasToImprove(result)));
    shown := shown + Bullets(AreasToImprove(result));
    st.Markdown(PotentialLine(result));
    AppendAssociates(before, shown, [Markdown(PotentialLine(result))]);
  }

  method DisplayAnalysisResults(st: Display, result: Json)
    requires Renderable(result)
    modifies st
    ensures st.events == old(st.events) + AnalysisEvents(result)
  {
    ghost var before := st.events;
    DisplayLanguageInfo(st, result);
    ghost var sections := LanguageEvents(result);
    DisplayDomainScores(st, result);
    AppendAssociates(before, sections, DomainEvents(result));
    sections := sections + DomainEvents(result);
    DisplayCompetencyScores(st, result);
    AppendAssociates(before, sections, CompetencyEvents(result));
    sections := sections + CompetencyEvents(result);
    DisplayStrategicInsights(st, result);
    AppendAssociates(before, sections, InsightsEvents(result));
    sections := sections + InsightsEvents(result);
    DisplayDevelopmentRecommendations(st, result);
    AppendAssociates(before, sections, RecommendationEvents(result));
    sections := sections + RecommendationEvents(result);
    DisplayComparativeBenchmarking(st, result);
    AppendAssociates(before, sections, BenchmarkingEvents(result));
    sections := sections + BenchmarkingEvents(result);
    DisplayOverallSummary(st, result);
    AppendAssociates(before, sections, SummaryEvents(result));
    sections := sections + SummaryEvents(result);
  }

  // ---------------------------------------------------------------------
  // Reading an event log back

  /** The titles of the subheaders, in order. */
  function Titles(events: seq<Event>): (r: seq<string>)
  {
    if events == [] then []
    else (if events[0].Subheader? then [events[0].title] else []) + Titles(events[1..])
  }

  /** The texts of the markdown lines, in order. */
  function MarkdownTexts(events: seq<Event>): (r: seq<string>)
  {
    if events == [] then []
    else (if events[0].Markdown? then [events[0].text] else []) + MarkdownTexts(events[1..])
  }

  /** The number of tables. */
  function TableCount(events: seq<Event>): (r: nat)
  {
    if events == [] then 0
    else (if events[0].Table? then 1 else 0) + TableCount(events[1..])
  }

  /** The log holds no error report. */
  predicate NoError(events: seq<Event>)
  {
    forall e :: e in events ==> !e.Error?
  }

  /** Reading a log made of two parts reads the first part, then the second. */
  lemma {:induction false} ReadAppend(a: seq<Event>, b: seq<Event>)
    ensures Titles(a + b) == Titles(a) + Titles(b)
    ensures MarkdownTexts(a + b) == MarkdownTexts(a) + MarkdownTexts(b)
    ensures TableCount(a + b) == TableCount(a) + TableCount(b)
    decreases |a|
  {
    if a == [] {
      assert a + b == b;
    } else {
      assert (a + b)[1..] == a[1..] + b;
      ReadAppend(a[1..], b);
    }
  }

  lemma ReadOne(e: Event)
    ensures Titles([e]) == (if e.Subheader? then [e.title] else [])
    ensures MarkdownTexts([e]) == (if e.Markdown? then [e.text] else [])
    ensures TableCount([e]) == (if e.Table? then 1 else 0)
  {
    assert [e][1..] == [];
  }

  /** The bullet texts, in order. */
  function BulletTexts(items: seq<Json>): (r: seq<string>)
  {
    seq(|items|, i requires 0 <= i < |items| => Bullet(items[i]))
  }

  /** Bullets carry no subheader, and their markdown texts are the bullet texts. */
  lemma {:induction false} BulletsRead(items: seq<Json>)
    ensures Titles(Bullets(items)) == []
    ensures MarkdownTexts(Bullets(items)) == BulletTexts(items)
    ensures TableCount(Bullets(items)) == 0
    ensures NoError(Bullets(items))
    decreases |items|
  {
    if items != [] {
      assert Bullets(items) == [Markdown(Bullet(items[0]))] + Bullets(items[1..]);
      assert BulletTexts(items) == [Bullet(items[0])] + BulletTexts(items[1..]);
      ReadOne(Markdown(Bullet(items[0])));
      ReadAppend([Markdown(Bullet(items[0]))], Bullets(items[1..]));
      BulletsRead(items[1..]);
    }
  }

  // ---------------------------------------------------------------------
  // What each section shows

  /** A scalar section is its subheader and one write: of the value bound to
      the key when the result has it, of the default otherwise. */
  lemma ScalarSectionShows(title: string, result: Json, key: string, default: Json)
    requires result.Obj?
    ensures var es := ScalarSection(title, result, key, default);
            && |es| == 2 && es[0] == Subheader(title) && es[1].Write?
            && Titles(es) == [title] && NoError(es)
            && (HasKey(result, key) ==> Lookup(result.fields, key) == Some(es[1].value))
            && (!HasKey(result, key) ==> es[1].value == default)
  {
    var es := ScalarSection(title, result, key, default);
    assert es == [es[0]] + [es[1]];
    ReadOne(es[0]);
    ReadOne(es[1]);
    ReadAppend([es[0]], [es[1]]);
  }

  /** A table section always shows its subheader, and shows exactly one
      table iff the list is truthy; the table has one row per entry, in
      order, each row the entry's values under the renamed columns. */
  lemma {:induction false} TableSectionShows(title: string, value: Json, columns: seq<string>, keys: seq<string>)
    requires |columns| == |keys| && TableRenderable(value, keys)
    ensures var es := TableSection(title, value, columns, keys);
            && es[0] == Subheader(title)
            && Titles(es) == [title] && NoError(es)
            && (TableCount(es) == 1 <==> Truthy(value))
            && (TableCount(es) == 0 <==> !Truthy(value))
            && (Truthy(value) ==>
                  && |es| == 2 && es[1].Table?
                  && |es[1].rows| == |value.items|
                  && forall i, c :: 0 <= i < |value.items| && 0 <= c < |columns| ==>
                       |es[1].rows[i]| == |columns|
                       && es[1].rows[i][c] == (columns[c], Subscript(value.items[i], keys[c])))
  {
    var es := TableSection(title, value, columns, keys);
    ReadOne(Subheader(title));
    if Truthy(value) {
      var t := Table(TableRows(value.items, columns, keys));
      ReadOne(t);
      ReadAppend([Subheader(title)], [t]);
    } else {
      assert es == [Subheader(title)];
    }
  }

  /** The domain section always shows its subheader and a table only for a
      non-empty list, with the columns Domain, Score and Justification. */
  lemma DomainSectionShows(result: Json)
    requires DomainRenderable(result)
    ensures var value := Get(result, K.DomainScores, NoList);
            var es := DomainEvents(result);
            && es[0] == Subheader(DomainTitle)
            && (TableCount(es) == 1 <==> Truthy(value))
            && (TableCount(es) == 0 <==> !Truthy(value))
            && (Truthy(value) ==>
                  forall i :: 0 <= i < |value.items| ==>
                    && HasKey(value.items[i], K.Domain) && HasKey(value.items[i], K.Score)
                    && HasKey(value.items[i], K.Justification)
                    && es[1].rows[i] == [("Domain", Subscript(value.items[i], K.Domain)),
                                      ("Score", Subscript(value.items[i], K.Score)),
                                      ("Justification", Subscript(value.items[i], K.Justification))])
  {
    var value := Get(result, K.DomainScores, NoList);
    TableSectionShows(DomainTitle, value, DomainColumns, K.DomainEntry);
    assert K.DomainEntry[0] == K.Domain && K.DomainEntry[1] == K.Score && K.DomainEntry[2] == K.Justification;
  }

  /** The competency section always shows its subheader and a table only for
      a non-empty list, with the columns Category, Score, Strength and
      Observation. */
  lemma CompetencySectionShows(result: Json)
    requires CompetencyRenderable(result)
    ensures var value := Get(result, K.CompetencyScores, NoList);
            var es := CompetencyEvents(result);
            && es[0] == Subheader(CompetencyTitle)
            && (TableCount(es) == 1 <==> Truthy(value))
            && (TableCount(es) == 0 <==> !Truthy(value))
            && (Truthy(value) ==>
                  forall i :: 0 <= i < |value.items| ==>
                    && HasKey(value.items[i], K.Category) && HasKey(value.items[i], K.Score)
                    && HasKey(value.items[i], K.Strength) && HasKey(value.items[i], K.Observation)
                    && es[1].rows[i] == [("Category", Subscript(value.items[i], K.Category)),
                                      ("Score", Subscript(value.items[i], K.Score)),
                                      ("Strength", Subscript(value.items[i], K.Strength)),
                                      ("Observation", Subscript(value.items[i], K.Observation))])
  {
    var value := Get(result, K.CompetencyScores, NoList);
    TableSectionShows(CompetencyTitle, value, CompetencyColumns, K.CompetencyEntry);
    assert K.CompetencyEntry[0] == K.Category && K.CompetencyEntry[1] == K.Score;
    assert K.CompetencyEntry[2] == K.Strength && K.CompetencyEntry[3] == K.Observation;
  }

  /** The recommendations section is its subheader and one bullet per
      recommendation, in order; without recommendations, the subheader alone. */
  lemma RecommendationsShow(result: Json)
    requires RecommendationsRenderable(result)
    ensures var es := RecommendationEvents(result);
            var recs := Recommendations(result);
            && Titles(es) == [RecommendationsTitle] && NoError(es)
            && MarkdownTexts(es) == BulletTexts(recs)
            && |es| == 1 + |recs|
            && (forall i :: 0 <= i < |recs| ==> es[1 + i] == Markdown("- " + Show(recs[i])))
            && (!HasKey(result, K.DevelopmentRecommendations) ==> es == [Subheader(RecommendationsTitle)])
  {
    var recs := Recommendations(result);
    ReadOne(Subheader(RecommendationsTitle));
    ReadAppend([Subheader(RecommendationsTitle)], Bullets(recs));
    BulletsRead(recs);
  }

  lemma {:induction false} SummaryLayoutReads(scoreLine: string, strengths: seq<Json>, areas: seq<Json>,
                                              potentialLine: string)
    ensures var es := SummaryLayout(scoreLine, strengths, areas, potentialLine);
            && Titles(es) == [SummaryTitle] && NoError(es)
            && MarkdownTexts(es)
               == [scoreLine, StrengthsLine] + BulletTexts(strengths)
                  + [AreasLine] + BulletTexts(areas) + [potentialLine]
            && es[1] == Markdown(scoreLine)
            && es[|es| - 1] == Markdown(potentialLine)
  {
    var h, m1, m2 := Subheader(SummaryTitle), Markdown(scoreLine), Markdown(StrengthsLine);
    var m3, m4 := Markdown(AreasLine), Markdown(potentialLine);
    var ks, ai := Bullets(strengths), Bullets(areas);
    var p1 := [h, m1, m2];
    assert Titles(p1) == [SummaryTitle] && MarkdownTexts(p1) == [scoreLine, StrengthsLine]
           && NoError(p1) by {
      ReadOne(h);
      ReadOne(m1);
      ReadOne(m2);
      ReadAppend([h], [m1]);
      ReadAppend([h] + [m1], [m2]);
      assert p1 == [h] + [m1] + [m2];
    }
    var p2 := p1 + ks;
    assert Titles(p2) == [SummaryTitle] && NoError(p2)
           && MarkdownTexts(p2) == [scoreLine, StrengthsLine] + BulletTexts(strengths) by {
      BulletsRead(strengths);
      ReadAppend(p1, ks);
    }
    var p3 := p2 + [m3];
    assert Titles(p3) == [SummaryTitle] && NoError(p3)
           && MarkdownTexts(p3) == [scoreLine, StrengthsLine] + BulletTexts(strengths) + [AreasLine] by {
      ReadOne(m3);
      ReadAppend(p2, [m3]);
    }
    var p4 := p3 + ai;
    assert Titles(p4) == [SummaryTitle] && NoError(p4)
           && MarkdownTexts(p4) == [scoreLine, StrengthsLine] + BulletTexts(strengths) + [AreasLine]
                                   + BulletTexts(areas) by {
      BulletsRead(areas);
      ReadAppend(p3, ai);
    }
    var p5 := p4 + [m4];
    assert Titles(p5) == [SummaryTitle] && NoError(p5)
           && MarkdownTexts(p5) == [scoreLine, StrengthsLine] + BulletTexts(strengths) + [AreasLine]
                                   + BulletTexts(areas) + [potentialLine] by {
      ReadOne(m4);
      ReadAppend(p4, [m4]);
    }
    assert SummaryLayout(scoreLine, strengths, areas, potentialLine) == p5;
  }

  /** The summary shows, as markdown and in this order: the score line, the
      strengths header, one bullet per strength, the areas header, one bullet
      per area, and the talent-potential line; that is 4 + |strengths| +
      |areas| markdown lines under a single subheader. */
  lemma SummaryShows(result: Json)
    requires SummaryRenderable(result)
    ensures var es := SummaryEvents(result);
            var ks := KeyStrengths(result);
            var ai := AreasToImprove(result);
            && Titles(es) == [SummaryTitle] && NoError(es)
            && MarkdownTexts(es)
               == [ScoreLine(result), StrengthsLine] + BulletTexts(ks)
                  + [AreasLine] + BulletTexts(ai) + [PotentialLine(result)]
            && |MarkdownTexts(es)| == 4 + |ks| + |ai|
            && es[1] == Markdown(ScoreLine(result))
            && es[|es| - 1] == Markdown(PotentialLine(result))
  {
    SummaryLayoutReads(ScoreLine(result), KeyStrengths(result), AreasToImprove(result), PotentialLine(result));
  }

  /** The seven sections of a renderable result, each read back. */
  lemma {:induction false} SectionsRead(result: Json)
    requires Renderable(result)
    ensures Titles(LanguageEvents(result)) == [LanguageTitle] && NoError(LanguageEvents(result))
    ensures Titles(DomainEvents(result)) == [DomainTitle] && NoError(DomainEvents(result))
    ensures Titles(CompetencyEvents(result)) == [CompetencyTitle] && NoError(CompetencyEvents(result))
    ensures Titles(InsightsEvents(result)) == [InsightsTitle] && NoError(InsightsEvents(result))
    ensures Titles(RecommendationEvents(result)) == [RecommendationsTitle]
            && NoError(RecommendationEvents(result))
    ensures Titles(BenchmarkingEvents(result)) == [BenchmarkingTitle] && NoError(BenchmarkingEvents(result))
    ensures Titles(SummaryEvents(result)) == [SummaryTitle] && NoError(SummaryEvents(result))
  {
    ScalarSectionShows(LanguageTitle, result, K.Language, NotDetected);
    TableSectionShows(DomainTitle, Get(result, K.DomainScores, NoList), DomainColumns, K.DomainEntry);
    TableSectionShows(CompetencyTitle, Get(result, K.CompetencyScores, NoList), CompetencyColumns, K.CompetencyEntry);
    ScalarSectionShows(InsightsTitle, result, K.StrategicInsights, NotAvailable);
    RecommendationsShow(result);
    ScalarSectionShows(BenchmarkingTitle, result, K.ComparativeBenchmarking, NotAvailable);
    SummaryShows(result);
  }

  /** The full report shows the seven section subheaders, each once, in the
      fixed order, and reports no error. */
  lemma AnalysisShowsSectionsInOrder(result: Json)
    requires Renderable(result)
    ensures Titles(AnalysisEvents(result)) == SectionTitles
    ensures NoError(AnalysisEvents(result))
  {
    var l, d, c := LanguageEvents(result), DomainEvents(result), CompetencyEvents(result);
    var i, r := InsightsEvents(result), RecommendationEvents(result);
    var b, s := BenchmarkingEvents(result), SummaryEvents(result);
    SectionsRead(result);
    ReadSections(l, d, c, i, r, b, s);
  }

  /** Seven logs, each of one section, read back as the seven titles. */
  lemma ReadSections(l: seq<Event>, d: seq<Event>, c: seq<Event>, i: seq<Event>,
                     r: seq<Event>, b: seq<Event>, s: seq<Event>)
    requires Titles(l) == [LanguageTitle] && Titles(d) == [DomainTitle]
    requires Titles(c) == [CompetencyTitle] && Titles(i) == [InsightsTitle]
    requires Titles(r) == [RecommendationsTitle] && Titles(b) == [BenchmarkingTitle]
    requires Titles(s) == [SummaryTitle]
    requires NoError(l) && NoError(d) && NoError(c) && NoError(i)
    requires NoError(r) && NoError(b) && NoError(s)
    ensures Titles(l + d + c + i + r + b + s) == SectionTitles
    ensures NoError(l + d + c + i + r + b + s)
  {
    ReadAppend(l, d);
    ReadAppend(l + d, c);
    ReadAppend(l + d + c, i);
    ReadAppend(l + d + c + i, r);
    ReadAppend(l + d + c + i + r, b);
    ReadAppend(l + d + c + i + r + b, s);
  }

  // ---------------------------------------------------------------------
  // The examples the application's own tests check

  /** A present language is written as is; a missing one as "Not detected". */
  lemma LanguageExamples()
    ensures LanguageEvents(Obj([("language", Str("Spanish"))]))
            == [Subheader("Detected Language"), Write(Str("Spanish"))]
    ensures LanguageEvents(Obj([])) == [Subheader("Detected Language"), Write(Str("Not detected"))]
  {
  }

  /** The summary of the application's own example (score 85, two
      strengths, one area to improve, a talent potential): the score reads
      "85/100", then come the strengths header, one bullet per strength, the
      areas header, the area's bullet and the potential, whatever the texts. */
  lemma SummaryExampleScored(strength1: string, strength2: string, area: string, potential: string)
    ensures var result := Obj([(K.OverallSummary, Obj([
                           (K.OverallScore, Int(85)),
                           (K.KeyStrengths, Arr([Str(strength1), Str(strength2)])),
                           (K.AreasToImprove, Arr([Str(area)])),
                           (K.TalentPotential, Str(potential))]))]);
            && SummaryRenderable(result)
            && MarkdownTexts(SummaryEvents(result))
               == ["**Overall Score:** 85/100", "**Key Strengths:**", "- " + strength1, "- " + strength2,
                   "**Areas to Improve:**", "- " + area, "**Talent Potential:** " + potential]
  {
    var ks := Arr([Str(strength1), Str(strength2)]);
    var ai := Arr([Str(area)]);
    var result := Obj([(K.OverallSummary, Obj([(K.OverallScore, Int(85)), (K.KeyStrengths, ks),
                                                (K.AreasToImprove, ai), (K.TalentPotential, Str(potential))]))]);
    ExampleSummaryParts(ks, ai, potential);
    BulletTextsOfTwo(Str(strength1), Str(strength2));
    BulletTextsOfOne(Str(area));
    SummaryLayoutReads(ScoreLine(result), ks.items, ai.items, PotentialLine(result));
    SevenLines(ScoreLine(result), StrengthsLine, "- " + strength1, "- " + strength2,
               AreasLine, "- " + area, PotentialLine(result));
  }

  /** The parts of the summary section for a summary holding the score 85,
      two lists and a talent potential. */
  lemma ExampleSummaryParts(ks: Json, ai: Json, potential: string)
    requires ks.Arr? && ai.Arr?
    ensures var result := Obj([(K.OverallSummary, Obj([(K.OverallScore, Int(85)), (K.KeyStrengths, ks),
                                                       (K.AreasToImprove, ai), (K.TalentPotential, Str(potential))]))]);
            && SummaryRenderable(result)
            && ScoreLine(result) == "**Overall Score:** 85/100"
            && KeyStrengths(result) == ks.items
            && AreasToImprove(result) == ai.items
            && PotentialLine(result) == "**Talent Potential:** " + potential
  {
    var summary := Obj([(K.OverallScore, Int(85)), (K.KeyStrengths, ks), (K.AreasToImprove, ai),
                        (K.TalentPotential, Str(potential))]);
    var result := Obj([(K.OverallSummary, summary)]);
    ExampleSummaryLists(summary, ks, ai, Str(potential));
    assert Get(summary, K.OverallScore, NotAvailable) == Int(85);
    ScoreLineOf85(ScoreLine(result));
  }

  /** The summary of that example is found, renders, and yields its lists. */
  lemma ExampleSummaryLists(summary: Json, ks: Json, ai: Json, potential: Json)
    requires ks.Arr? && ai.Arr?
    requires summary == Obj([(K.OverallScore, Int(85)), (K.KeyStrengths, ks), (K.AreasToImprove, ai),
                             (K.TalentPotential, potential)])
    ensures var result := Obj([(K.OverallSummary, summary)]);
            && Summary(result) == summary
            && SummaryRenderable(result)
            && KeyStrengths(result) == ks.items
            && AreasToImprove(result) == ai.items
            && Get(summary, K.TalentPotential, NotAvailable) == potential
  {
    ExampleLookups(ks, ai, potential);
    assert Summary(Obj([(K.OverallSummary, summary)])) == summary;
  }

  lemma BulletTextsOfTwo(a: Json, b: Json)
    ensures BulletTexts([a, b]) == [Bullet(a), Bullet(b)]
  {
  }

  lemma BulletTextsOfOne(a: Json)
    ensures BulletTexts([a]) == [Bullet(a)]
  {
  }

  lemma SevenLines<T>(a: T, b: T, c: T, d: T, e: T, f: T, g: T)
    ensures [a, b] + [c, d] + [e] + [f] + [g] == [a, b, c, d, e, f, g]
  {
  }

  lemma ScoreLineOf85(line: string)
    requires line == "**Overall Score:** " + Show(Int(85)) + "/100"
    ensures line == "**Overall Score:** 85/100"
  {
    assert NatToDecimal(8) == "8";
    assert NatToDecimal(85) == "8" + "5";
  }

  /** Looking up each summary key in an object holding the four of them. */
  lemma ExampleLookups(ks: Json, ai: Json, potential: Json)
    ensures var f := [(K.OverallScore, Int(85)), (K.KeyStrengths, ks), (K.AreasToImprove, ai),
                      (K.TalentPotential, potential)];
            && Lookup(f, K.OverallScore) == Some(Int(85))
            && Lookup(f, K.KeyStrengths) == Some(ks)
            && Lookup(f, K.AreasToImprove) == Some(ai)
            && Lookup(f, K.TalentPotential) == Some(potential)
  {
    var f := [(K.OverallScore, Int(85)), (K.KeyStrengths, ks), (K.AreasToImprove, ai),
              (K.TalentPotential, potential)];
    assert Lookup(f, K.KeyStrengths) == Lookup(f[1..], K.KeyStrengths) by {
      assert K.OverallScore[0] != K.KeyStrengths[0];
    }
    assert Lookup(f, K.AreasToImprove) == Lookup(f[2..], K.AreasToImprove) by {
      assert K.OverallScore[0] != K.AreasToImprove[0];
      assert K.KeyStrengths[0] != K.AreasToImprove[0];
      assert f[1..][1..] == f[2..];
    }
    assert Lookup(f, K.TalentPotential) == Lookup(f[3..], K.TalentPotential) by {
      assert K.OverallScore[0] != K.TalentPotential[0];
      assert K.KeyStrengths[0] != K.TalentPotential[0];
      assert K.AreasToImprove[0] != K.TalentPotential[0];
      assert f[1..][1..] == f[2..] && f[2..][1..] == f[3..];
    }
  }

  /** A result without a summary still shows the four fixed lines, with
      "N/A" for the score and the potential. */
  lemma SummaryExampleEmpty()
    ensures SummaryRenderable(Obj([]))
    ensures MarkdownTexts(SummaryEvents(Obj([])))
            == ["**Overall Score:** " + "N/A" + "/100", "**Key Strengths:**", "**Areas to Improve:**",
                "**Talent Potential:** " + "N/A"]
  {
    assert Summary(Obj([])) == NoDict;
    assert KeyStrengths(Obj([])) == [] && AreasToImprove(Obj([])) == [];
    assert BulletTexts([]) == [];
    SummaryLayoutReads(ScoreLine(Obj([])), [], [], PotentialLine(Obj([])));
  }
}
