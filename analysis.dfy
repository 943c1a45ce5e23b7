/** The extraction-quality scorer: one page-extraction record becomes a total
    score and a quality report (completeness, six category scores, strengths
    and weaknesses). */
module Analysis {
  import opened Wrappers
  import opened PyText

  /** Placeholders an extractor writes when the page has no title or no
      meta description; the scorer treats them like a missing value. */
  const NoTitle := "No title found"
  const NoMetaDescription := "No meta description found"

  /** Seconds assumed when a record carries no execution time. */
  const DefaultExecutionTime: real := 10.0

  /** One extraction record. Every key is optional: `None` stands for a
      missing key (or a key holding None), `Some` for a present value. For
      `error` alone, whose presence is what counts, `None` is a missing key
      and any present value, None included, is `Some` of its text. */
  datatype Record = Record(
    title: Option<string>,
    metaDescription: Option<string>,
    headings: Option<seq<string>>,
    content: Option<string>,
    wordCount: Option<int>,
    linkCount: Option<int>,
    imageCount: Option<int>,
    imagesWithAlt: Option<int>,
    executionTime: Option<real>,
    error: Option<string>)

  /** Python's `text and text != sentinel`: present, non-empty and not the
      placeholder. */
  predicate Given(text: Option<string>, sentinel: string) {
    text.Some? && text.value != "" && text.value != sentinel
  }

  // ---------------------------------------------------------------------
  // The six category scorers
  // ---------------------------------------------------------------------

  function TitleScore(title: Option<string>): (r: int)
    ensures r in {0, 10, 15, 20}
    ensures r == 0 <==> !Given(title, NoTitle)
  {
    if Given(title, NoTitle) then
      var n := |title.value|;
      if 10 <= n <= 60 then 20
      else if 5 <= n < 10 || 60 < n <= 80 then 15
      else 10
    else 0
  }

  function MetaDescriptionScore(meta: Option<string>): (r: int)
    ensures r in {0, 5, 10, 15}
    ensures r == 0 <==> !Given(meta, NoMetaDescription)
  {
    if Given(meta, NoMetaDescription) then
      var n := |meta.value|;
      if 50 <= n <= 160 then 15
      else if 30 <= n < 50 || 160 < n <= 200 then 10
      else 5
    else 0
  }

  /** The final `else 5` is the source's third branch; a non-empty list
      always has at least one element, so it is never taken. */
  function HeadingsScore(headings: Option<seq<string>>): (r: int)
    ensures r in {0, 10, 15}
    ensures r == 0 <==> |headings.GetOr([])| == 0
    ensures r == 15 <==> |headings.GetOr([])| >= 3
  {
    var hs := headings.GetOr([]);
    if |hs| > 0 then
      if |hs| >= 3 then 15
      else if |hs| >= 1 then 10
      else 5
    else 0
  }

  /** Points for an amount of words, once some content is known to exist. */
  function ContentBand(words: int): (r: int)
    ensures r in {10, 15, 25, 30}
  {
    if words >= 500 then 30
    else if words >= 300 then 25
    else if words >= 100 then 15
    else 10
  }

  /** A non-zero `word_count` is used as given; otherwise the words of
      `content` are counted. */
  function ContentScore(content: Option<string>, wordCount: Option<int>): (r: int)
    ensures r in {0, 10, 15, 25, 30}
    ensures r == 0 <==> wordCount.GetOr(0) == 0 && content.GetOr("") == ""
    ensures wordCount.GetOr(0) != 0 ==> r == ContentBand(wordCount.GetOr(0))
  {
    var count := wordCount.GetOr(0);
    var text := content.GetOr("");
    if count != 0 || text != "" then
      var actual := if count != 0 then count else WordCount(text);
      ContentBand(actual)
    else 0
  }

  /** Links, images and images with alternative text, each checked on its own. */
  function AdditionalScore(linkCount: Option<int>, imageCount: Option<int>, imagesWithAlt: Option<int>): (r: int)
    ensures r in {0, 5, 10, 15, 20}
    ensures linkCount.GetOr(0) > 0 ==> r >= 10
    ensures r == 0 <==> linkCount.GetOr(0) <= 0 && imageCount.GetOr(0) <= 0 && imagesWithAlt.GetOr(0) <= 0
    ensures r == 20 <==> linkCount.GetOr(0) > 0 && imageCount.GetOr(0) > 0 && imagesWithAlt.GetOr(0) > 0
  {
    (if linkCount.GetOr(0) > 0 then 10 else 0)
    + (if imageCount.GetOr(0) > 0 then 5 else 0)
    + (if imagesWithAlt.GetOr(0) > 0 then 5 else 0)
  }

  function PerformanceScore(executionTime: Option<real>): (r: int)
    ensures r in {4, 6, 8, 10}
    ensures executionTime.None? ==> r == 6
    ensures r >= 8 <==> executionTime.GetOr(DefaultExecutionTime) <= 5.0
  {
    var t := executionTime.GetOr(DefaultExecutionTime);
    if t <= 2.0 then 10
    else if t <= 5.0 then 8
    else if t <= 10.0 then 6
    else 4
  }

  // ---------------------------------------------------------------------
  // Scores, total and completeness
  // ---------------------------------------------------------------------

  /** The `detail_scores` of a report. */
  datatype Scores = Scores(
    title: int,
    metaDescription: int,
    headings: int,
    content: int,
    additionalElements: int,
    performance: int)

  /** Every category within the values its scorer can produce. */
  predicate ValidScores(s: Scores) {
    s.title in {0, 10, 15, 20}
    && s.metaDescription in {0, 5, 10, 15}
    && s.headings in {0, 10, 15}
    && s.content in {0, 10, 15, 25, 30}
    && s.additionalElements in {0, 5, 10, 15, 20}
    && s.performance in {4, 6, 8, 10}
  }

  function ScoresOf(data: Record): (s: Scores)
    ensures ValidScores(s)
  {
    Scores(
      TitleScore(data.title),
      MetaDescriptionScore(data.metaDescription),
      HeadingsScore(data.headings),
      ContentScore(data.content, data.wordCount),
      AdditionalScore(data.linkCount, data.imageCount, data.imagesWithAlt),
      PerformanceScore(data.executionTime))
  }

  /** `sum(scores.values())`. */
  function Total(s: Scores): (t: int)
    ensures ValidScores(s) ==> 4 <= t <= 110
    ensures ValidScores(s) ==> (t == 110 <==> s == Scores(20, 15, 15, 30, 20, 10))
  {
    s.title + s.metaDescription + s.headings + s.content + s.additionalElements + s.performance
  }

  /** `min(100, total / 1.1)` in exact arithmetic; in IEEE doubles a total of
      110 gives 99.99999999999999 and the cap is never reached. */
  function Completeness(total: int): (c: real)
    ensures c <= 100.0
    ensures total >= 0 ==> c >= 0.0
    ensures c == 100.0 <==> total >= 110
  {
    var scaled := total as real * 10.0 / 11.0;
    if scaled < 100.0 then scaled else 100.0
  }

  // ---------------------------------------------------------------------
  // Strengths and weaknesses
  // ---------------------------------------------------------------------

  datatype Category = Title | MetaDescription | Headings | Content | AdditionalElements | Performance

  /** The categories in the order their labels are appended to the report. */
  const LabelOrder: seq<Category> := [Title, MetaDescription, Content, Headings, AdditionalElements, Performance]

  function Score(s: Scores, c: Category): int {
    match c
    case Title => s.title
    case MetaDescription => s.metaDescription
    case Headings => s.headings
    case Content => s.content
    case AdditionalElements => s.additionalElements
    case Performance => s.performance
  }

  /** Lowest score that earns the category a strength. */
  function StrongAt(c: Category): int {
    match c
    case Title => 15
    case MetaDescription => 10
    case Headings => 10
    case Content => 25
    case AdditionalElements => 15
    case Performance => 8
  }

  /** Highest score that earns the category a weakness; for headings every
      score that is not a strength is a weakness. */
  function WeakAt(c: Category): (w: int)
    ensures w < StrongAt(c)
  {
    match c
    case Title => 10
    case MetaDescription => 5
    case Headings => 9
    case Content => 15
    case AdditionalElements => 5
    case Performance => 5
  }

  datatype Verdict = Strength | Weakness | Neutral

  function VerdictOf(c: Category, score: int): Verdict {
    if score >= StrongAt(c) then Strength
    else if score <= WeakAt(c) then Weakness
    else Neutral
  }

  function Label(c: Category, v: Verdict): string
    requires v != Neutral
  {
    match (c, v)
    case (Title, Strength) => "Strong title extraction"
    case (Title, Weakness) => "Poor title extraction"
    case (MetaDescription, Strength) => "Good meta description"
    case (MetaDescription, Weakness) => "Weak meta description"
    case (Content, Strength) => "Rich content extraction"
    case (Content, Weakness) => "Limited content extraction"
    case (Headings, Strength) => "Good heading structure"
    case (Headings, Weakness) => "Poor heading extraction"
    case (AdditionalElements, Strength) => "Comprehensive additional elements"
    case (AdditionalElements, Weakness) => "Missing important SEO elements"
    case (Performance, Strength) => "Excellent performance"
    case (Performance, Weakness) => "Slow extraction time"
  }

  /** The label category `c` adds to the list of verdict `v`: one or none. */
  function Contribution(c: Category, s: Scores, v: Verdict): seq<string>
    requires v != Neutral
  {
    if VerdictOf(c, Score(s, c)) == v then [Label(c, v)] else []
  }

  /** The labels of the categories of `cs` whose verdict is `v`, in the order
      of `cs`: each category appends its label, if any, to those before it. */
  function Labels(cs: seq<Category>, s: Scores, v: Verdict): seq<string>
    requires v != Neutral
  {
    if cs == [] then [] else Labels(cs[..|cs| - 1], s, v) + Contribution(cs[|cs| - 1], s, v)
  }

  /** The number of categories of `cs` that get no label. */
  ghost function Unlabelled(cs: seq<Category>, s: Scores): nat {
    if cs == [] then 0
    else Unlabelled(cs[..|cs| - 1], s) + (if VerdictOf(cs[|cs| - 1], Score(s, cs[|cs| - 1])) == Neutral then 1 else 0)
  }

  /** Appending one more category appends its contribution, for both lists. */
  lemma LabelsStep(cs: seq<Category>, k: nat, s: Scores)
    requires 0 < k <= |cs|
    ensures Labels(cs[..k], s, Strength) == Labels(cs[..k - 1], s, Strength) + Contribution(cs[k - 1], s, Strength)
    ensures Labels(cs[..k], s, Weakness) == Labels(cs[..k - 1], s, Weakness) + Contribution(cs[k - 1], s, Weakness)
  {
    assert cs[..k][..k - 1] == cs[..k - 1];
  }

  /** Appending one more category adds one to the count exactly when it gets no label. */
  lemma UnlabelledStep(cs: seq<Category>, k: nat, s: Scores)
    requires 0 < k <= |cs|
    ensures Unlabelled(cs[..k], s)
            == Unlabelled(cs[..k - 1], s) + (if VerdictOf(cs[k - 1], Score(s, cs[k - 1])) == Neutral then 1 else 0)
  {
    assert cs[..k][..k - 1] == cs[..k - 1];
  }

  /** The report's labels written out category by category, in report order. */
  lemma LabelsInReportOrder(s: Scores)
    ensures Labels(LabelOrder, s, Strength)
            == Contribution(Title, s, Strength) + Contribution(MetaDescription, s, Strength)
               + Contribution(Content, s, Strength) + Contribution(Headings, s, Strength)
               + Contribution(AdditionalElements, s, Strength) + Contribution(Performance, s, Strength)
    ensures Labels(LabelOrder, s, Weakness)
            == Contribution(Title, s, Weakness) + Contribution(MetaDescription, s, Weakness)
               + Contribution(Content, s, Weakness) + Contribution(Headings, s, Weakness)
               + Contribution(AdditionalElements, s, Weakness) + Contribution(Performance, s, Weakness)
  {
    assert LabelOrder[..0] == [];
    LabelsStep(LabelOrder, 1, s);
    assert Labels(LabelOrder[..1], s, Strength) == Contribution(Title, s, Strength);
    assert Labels(LabelOrder[..1], s, Weakness) == Contribution(Title, s, Weakness);
    LabelsStep(LabelOrder, 2, s);
    LabelsStep(LabelOrder, 3, s);
    LabelsStep(LabelOrder, 4, s);
    LabelsStep(LabelOrder, 5, s);
    LabelsStep(LabelOrder, 6, s);
    assert LabelOrder[..6] == LabelOrder;
  }

  // ---------------------------------------------------------------------
  // The scorer
  // ---------------------------------------------------------------------

  /** The `openai_quality` dictionary of a scored record. */
  datatype Quality = Quality(
    completeness: real,
    detailScores: Scores,
    strengths: seq<string>,
    weaknesses: seq<string>)

  /** Either the error of a failed extraction or the quality of a scored one. */
  datatype Report = Failed(error: string) | Scored(quality: Quality)

  /** What `evaluate_result_for_openai` returns for `data`. */
  function Evaluation(data: Record): (r: (int, Report))
    ensures data.error.Some? ==> r == (0, Failed(data.error.value))
    ensures data.error.None? ==> r.1.Scored? && ValidScores(r.1.quality.detailScores)
    ensures data.error.None? ==> 4 <= r.0 <= 110 && 0.0 <= r.1.quality.completeness <= 100.0
    ensures data.error.None? ==> r.1.quality.detailScores == ScoresOf(data)
                                 && r.0 == Total(r.1.quality.detailScores)
                                 && r.1.quality.completeness == Completeness(r.0)
  {
    if data.error.Some? then (0, Failed(data.error.value))
    else
      var s := ScoresOf(data);
      var total := Total(s);
      (total, Scored(Quality(Completeness(total), s,
                             Labels(LabelOrder, s, Strength), Labels(LabelOrder, s, Weakness))))
  }

  /** One of the six `if`/`elif` blocks of the report: a score at or above the
      category's strength threshold appends its strength label, otherwise a
      score at or below its weakness threshold appends its weakness label. */
  method Judge(c: Category, scores: Scores, strengths: seq<string>, weaknesses: seq<string>)
    returns (strengths': seq<string>, weaknesses': seq<string>)
    ensures strengths' == strengths + Contribution(c, scores, Strength)
    ensures weaknesses' == weaknesses + Contribution(c, scores, Weakness)
  {
    strengths', weaknesses' := strengths, weaknesses;
    var score := Score(scores, c);
    if score >= StrongAt(c) {
      strengths' := strengths' + [Label(c, Strength)];
    } else if score <= WeakAt(c) {
      weaknesses' := weaknesses' + [Label(c, Weakness)];
    }
  }

  /** The strengths and weaknesses of a set of scores, judged category by
      category in report order. */
  method StrengthsAndWeaknesses(scores: Scores) returns (strengths: seq<string>, weaknesses: seq<string>)
    ensures strengths == Labels(LabelOrder, scores, Strength)
    ensures weaknesses == Labels(LabelOrder, scores, Weakness)
  {
    strengths, weaknesses := [], [];
    strengths, weaknesses := Judge(Title, scores, strengths, weaknesses);
    assert strengths == Contribution(Title, scores, Strength);
    assert weaknesses == Contribution(Title, scores, Weakness);
    strengths, weaknesses := Judge(MetaDescription, scores, strengths, weaknesses);
    strengths, weaknesses := Judge(Content, scores, strengths, weaknesses);
    strengths, weaknesses := Judge(Headings, scores, strengths, weaknesses);
    strengths, weaknesses := Judge(AdditionalElements, scores, strengths, weaknesses);
    strengths, weaknesses := Judge(Performance, scores, strengths, weaknesses);
    LabelsInReportOrder(scores);
  }

  /** The scorer, step by step: the error check, the six categories (the
      additional elements accumulated one check at a time), the total, and
      the strengths and weaknesses. */
  method Evaluate(data: Record) returns (total: int, report: Report)
    ensures (total, report) == Evaluation(data)
  {
    if data.error.Some? {
      return 0, Failed(data.error.value);
    }
    var title := TitleScore(data.title);
    var meta := MetaDescriptionScore(data.metaDescription);
    var headings := HeadingsScore(data.headings);
    var content := ContentScore(data.content, data.wordCount);
    var additional := 0;
    if data.linkCount.GetOr(0) > 0 {
      additional := additional + 10;
    }
    if data.imageCount.GetOr(0) > 0 {
      additional := additional + 5;
    }
    if data.imagesWithAlt.GetOr(0) > 0 {
      additional := additional + 5;
    }
    assert additional == AdditionalScore(data.linkCount, data.imageCount, data.imagesWithAlt);
    var performance := PerformanceScore(data.executionTime);
    var scores := Scores(title, meta, headings, content, additional, performance);
    total := title + meta + headings + content + additional + performance;

    assert scores == ScoresOf(data);
    var strengths, weaknesses := StrengthsAndWeaknesses(scores);
    report := Scored(Quality(Completeness(total), scores, strengths, weaknesses));
  }

  // ---------------------------------------------------------------------
  // Properties of the report
  // ---------------------------------------------------------------------

  /** Different categories never share a label of the same kind. */
  lemma LabelInjective(c1: Category, c2: Category, v: Verdict)
    requires v != Neutral
    requires Label(c1, v) == Label(c2, v)
    ensures c1 == c2
  {
  }

  /** A category's label is in the list exactly when the category is listed
      and its verdict is that list's kind. */
  lemma {:induction false} LabelsMembership(cs: seq<Category>, s: Scores, v: Verdict, c: Category)
    requires v != Neutral
    ensures Label(c, v) in Labels(cs, s, v) <==> c in cs && VerdictOf(c, Score(s, c)) == v
    decreases |cs|
  {
    if cs != [] {
      var init, last := cs[..|cs| - 1], cs[|cs| - 1];
      LabelsMembership(init, s, v, c);
      assert cs == init + [last];
      if Label(c, v) in Contribution(last, s, v) {
        LabelInjective(c, last, v);
      }
    }
  }

  /** Every category gets at most one label: the strengths, the weaknesses
      and the unlabelled categories together account for `cs` exactly. */
  lemma {:induction false} LabelCount(cs: seq<Category>, s: Scores)
    ensures |Labels(cs, s, Strength)| + |Labels(cs, s, Weakness)| + Unlabelled(cs, s) == |cs|
    decreases |cs|
  {
    if cs != [] {
      LabelCount(cs[..|cs| - 1], s);
    }
  }

  /** The index of the first occurrence of `x` in a list that holds it. */
  function IndexOf(xs: seq<string>, x: string): (k: nat)
    requires x in xs
    ensures k < |xs| && xs[k] == x
  {
    if xs[0] == x then 0 else 1 + IndexOf(xs[1..], x)
  }

  /** Labels keep the order of their categories: a category listed before
      another has its label before the other's. */
  lemma {:induction false} LabelsOrdered(cs: seq<Category>, s: Scores, v: Verdict, i: nat, j: nat)
    requires v != Neutral
    requires i < j < |cs|
    requires VerdictOf(cs[i], Score(s, cs[i])) == v && VerdictOf(cs[j], Score(s, cs[j])) == v
    ensures exists p, q :: 0 <= p < q < |Labels(cs, s, v)|
              && Labels(cs, s, v)[p] == Label(cs[i], v) && Labels(cs, s, v)[q] == Label(cs[j], v)
    decreases |cs|
  {
    var init := cs[..|cs| - 1];
    var ls := Labels(cs, s, v);
    assert ls == Labels(init, s, v) + Contribution(cs[|cs| - 1], s, v);
    if j == |cs| - 1 {
      LabelsMembership(init, s, v, cs[i]);
      assert init[i] == cs[i];
      var p := IndexOf(Labels(init, s, v), Label(cs[i], v));
      var q := |Labels(init, s, v)|;
      assert ls[p] == Label(cs[i], v) && ls[q] == Label(cs[j], v);
    } else {
      LabelsOrdered(init, s, v, i, j);
      assert init[i] == cs[i] && init[j] == cs[j];
      var p, q :| 0 <= p < q < |Labels(init, s, v)|
                  && Labels(init, s, v)[p] == Label(cs[i], v) && Labels(init, s, v)[q] == Label(cs[j], v);
      assert ls[p] == Label(cs[i], v) && ls[q] == Label(cs[j], v);
    }
  }

  /** The report of a record without error: a category is a strength exactly
      when its score reaches the strength threshold and a weakness exactly
      when it stays at or below the weakness threshold, so no category is
      both; headings are always exactly one of the two; and labels follow
      the report order. */
  lemma ReportVerdicts(data: Record, c: Category)
    requires data.error.None?
    ensures var q := Evaluation(data).1.quality;
            && (Label(c, Strength) in q.strengths <==> Score(q.detailScores, c) >= StrongAt(c))
            && (Label(c, Weakness) in q.weaknesses <==> Score(q.detailScores, c) <= WeakAt(c))
            && !(Label(c, Strength) in q.strengths && Label(c, Weakness) in q.weaknesses)
    ensures var q := Evaluation(data).1.quality;
            (Label(Headings, Strength) in q.strengths) != (Label(Headings, Weakness) in q.weaknesses)
  {
    var s := ScoresOf(data);
    assert c in LabelOrder;
    LabelsMembership(LabelOrder, s, Strength, c);
    LabelsMembership(LabelOrder, s, Weakness, c);
    LabelsMembership(LabelOrder, s, Strength, Headings);
    LabelsMembership(LabelOrder, s, Weakness, Headings);
  }

  /** Every category but the additional elements (at 10 points) and the
      performance (at 6 points) gets a label, so a report holds four to six
      labels in all. */
  lemma ReportLabelCount(data: Record)
    requires data.error.None?
    ensures var q := Evaluation(data).1.quality;
            |q.strengths| + |q.weaknesses|
            == 6 - (if q.detailScores.additionalElements == 10 then 1 else 0)
                 - (if q.detailScores.performance == 6 then 1 else 0)
    ensures var q := Evaluation(data).1.quality;
            4 <= |q.strengths| + |q.weaknesses| <= 6
  {
    var s := ScoresOf(data);
    LabelCount(LabelOrder, s);
    assert Unlabelled(LabelOrder[..0], s) == 0;
    UnlabelledStep(LabelOrder, 1, s);
    assert Unlabelled(LabelOrder[..1], s) == 0;
    UnlabelledStep(LabelOrder, 2, s);
    assert Unlabelled(LabelOrder[..2], s) == 0;
    UnlabelledStep(LabelOrder, 3, s);
    assert Unlabelled(LabelOrder[..3], s) == 0;
    UnlabelledStep(LabelOrder, 4, s);
    assert Unlabelled(LabelOrder[..4], s) == 0;
    UnlabelledStep(LabelOrder, 5, s);
    UnlabelledStep(LabelOrder, 6, s);
    assert LabelOrder[..6] == LabelOrder;
  }

  /** Content made only of whitespace, with no word count, still scores
      10: it is present, and its zero words fall in the lowest band. */
  lemma WhitespaceContentScoresTen(text: string, wordCount: Option<int>)
    requires text != ""
    requires forall i :: 0 <= i < |text| ==> IsSpace(text[i])
    requires wordCount.GetOr(0) == 0
    ensures ContentScore(Some(text), wordCount) == 10
  {
    SplitEmptyIff(text);
  }

  /** Content that has words and no word count is scored by its words. */
  lemma ContentFromWords(words: seq<string>, wordCount: Option<int>)
    requires forall k :: 0 <= k < |words| ==> IsWord(words[k])
    requires |words| > 0
    requires wordCount.GetOr(0) == 0
    ensures ContentScore(Some(Join(words)), wordCount) == ContentBand(|words|)
  {
    SplitJoin(words);
  }

  // ---------------------------------------------------------------------
  // Bands
  // ---------------------------------------------------------------------

  /** Title lengths at the edges of the bands. */
  lemma TitleBandEdges(t: string)
    requires t != NoTitle
    ensures |t| == 10 || |t| == 60 ==> TitleScore(Some(t)) == 20
    ensures |t| == 5 || |t| == 9 || |t| == 61 || |t| == 80 ==> TitleScore(Some(t)) == 15
    ensures 0 < |t| <= 4 || |t| >= 81 ==> TitleScore(Some(t)) == 10
  {
  }

  /** Meta description lengths at the edges of the bands. */
  lemma MetaDescriptionBandEdges(m: string)
    requires m != NoMetaDescription
    ensures |m| == 50 || |m| == 160 ==> MetaDescriptionScore(Some(m)) == 15
    ensures |m| == 30 || |m| == 49 || |m| == 161 || |m| == 200 ==> MetaDescriptionScore(Some(m)) == 10
    ensures 0 < |m| <= 29 || |m| >= 201 ==> MetaDescriptionScore(Some(m)) == 5
  {
  }

  /** More words never score less. */
  lemma ContentBandMonotone(a: int, b: int)
    requires a <= b
    ensures ContentBand(a) <= ContentBand(b)
  {
  }

  /** A longer extraction never scores more. */
  lemma PerformanceMonotone(t1: real, t2: real)
    requires t1 <= t2
    ensures PerformanceScore(Some(t1)) >= PerformanceScore(Some(t2))
  {
  }

  /** The three additional-element checks are independent: the score is the
      sum of what each count earns on its own. */
  lemma AdditionalIsSumOfChecks(linkCount: Option<int>, imageCount: Option<int>, imagesWithAlt: Option<int>)
    ensures AdditionalScore(linkCount, imageCount, imagesWithAlt)
            == AdditionalScore(linkCount, None, None) + AdditionalScore(None, imageCount, None)
               + AdditionalScore(None, None, imagesWithAlt)
  {
  }

  /** A higher total never has a lower completeness. */
  lemma CompletenessMonotone(a: int, b: int)
    requires a <= b
    ensures Completeness(a) <= Completeness(b)
  {
  }

  // ---------------------------------------------------------------------
  // Worked records
  // ---------------------------------------------------------------------

  /** A well-extracted page earns every category's maximum. */
  lemma FullMarksExample()
    ensures Evaluation(Record(
              Some("Best Coffee Shops in Seattle — 2024 Guide"),
              Some("Discover the top 10 coffee shops in Seattle with reviews, prices, and locations."),
              Some(["Top Picks", "Pricing", "Locations"]),
              None, Some(620), Some(12), Some(5), Some(5), Some(1.4), None))
            == (110, Scored(Quality(100.0, Scores(20, 15, 15, 30, 20, 10),
                                    ["Strong title extraction", "Good meta description",
                                     "Rich content extraction", "Good heading structure",
                                     "Comprehensive additional elements", "Excellent performance"],
                                    [])))
  {
    var data := Record(
      Some("Best Coffee Shops in Seattle — 2024 Guide"),
      Some("Discover the top 10 coffee shops in Seattle with reviews, prices, and locations."),
      Some(["Top Picks", "Pricing", "Locations"]),
      None, Some(620), Some(12), Some(5), Some(5), Some(1.4), None);
    var s := Scores(20, 15, 15, 30, 20, 10);
    assert TitleScore(data.title) == 20 by {
      assert |data.title.value| == 41;
    }
    assert MetaDescriptionScore(data.metaDescription) == 15 by {
      assert |data.metaDescription.value| == 80;
    }
    assert ScoresOf(data) == s;
    LabelsInReportOrder(s);
    assert ["Strong title extraction", "Good meta description",
            "Rich content extraction", "Good heading structure",
            "Comprehensive additional elements", "Excellent performance"]
           == Contribution(Title, s, Strength) + Contribution(MetaDescription, s, Strength)
              + Contribution(Content, s, Strength) + Contribution(Headings, s, Strength)
              + Contribution(AdditionalElements, s, Strength) + Contribution(Performance, s, Strength);
    assert [] == Contribution(Title, s, Weakness) + Contribution(MetaDescription, s, Weakness)
              + Contribution(Content, s, Weakness) + Contribution(Headings, s, Weakness)
              + Contribution(AdditionalElements, s, Weakness) + Contribution(Performance, s, Weakness);
  }

  /** A page whose extractor found nothing but placeholders, and took 12
      seconds, keeps only the 4 performance points and gets six weaknesses. */
  lemma PlaceholderExample()
    ensures Evaluation(Record(
              Some(NoTitle), Some(NoMetaDescription), Some([]), Some(""), Some(0),
              Some(0), Some(0), Some(0), Some(12.0), None))
            == (4, Scored(Quality(40.0 / 11.0, Scores(0, 0, 0, 0, 0, 4), [],
                                  ["Poor title extraction", "Weak meta description",
                                   "Limited content extraction", "Poor heading extraction",
                                   "Missing important SEO elements", "Slow extraction time"])))
  {
    var data := Record(
      Some(NoTitle), Some(NoMetaDescription), Some([]), Some(""), Some(0),
      Some(0), Some(0), Some(0), Some(12.0), None);
    var s := Scores(0, 0, 0, 0, 0, 4);
    assert ScoresOf(data) == s;
    LabelsInReportOrder(s);
    assert [] == Contribution(Title, s, Strength) + Contribution(MetaDescription, s, Strength)
              + Contribution(Content, s, Strength) + Contribution(Headings, s, Strength)
              + Contribution(AdditionalElements, s, Strength) + Contribution(Performance, s, Strength);
    assert ["Poor title extraction", "Weak meta description",
            "Limited content extraction", "Poor heading extraction",
            "Missing important SEO elements", "Slow extraction time"]
           == Contribution(Title, s, Weakness) + Contribution(MetaDescription, s, Weakness)
              + Contribution(Content, s, Weakness) + Contribution(Headings, s, Weakness)
              + Contribution(AdditionalElements, s, Weakness) + Contribution(Performance, s, Weakness);
  }
}
