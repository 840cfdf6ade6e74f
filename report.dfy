/** The result view shown after a successful submission: its own three-tier
    classification of the total (cut points 4 and 10, not the 6 and 13 of
    the submitted tier), the score banner, and the per-question breakdown
    whose rows are flagged from the value 2 up. */
module Report {
  import opened Intake

  /** The report's risk levels ("low", "medium", "high"). */
  datatype Level = Low | Medium | High

  /** The banner icon of each level. */
  datatype Icon = ShieldIcon | AlertTriangleIcon | AlertCircleIcon

  /** What the report shows for a level: the level, its label, the colour
      tokens of the banner and its icon. */
  datatype RiskView = RiskView(
    level: Level,
    tierLabel: string,
    color: string,
    textColor: string,
    borderColor: string,
    icon: Icon)

  /** The presentation attached to each level. */
  function ViewOf(l: Level): (v: RiskView)
    ensures v.level == l
  {
    match l
    case Low => RiskView(Low, "低風險用戶", "bg-risk-low", "text-risk-low", "border-risk-low", ShieldIcon)
    case Medium => RiskView(Medium, "中度關注用戶", "bg-risk-medium", "text-risk-medium", "border-risk-medium", AlertTriangleIcon)
    case High => RiskView(High, "高風險用戶", "bg-risk-high", "text-risk-high", "border-risk-high", AlertCircleIcon)
  }

  /** The levels in ascending order of risk. */
  function LevelRank(l: Level): nat {
    match l
    case Low => 0
    case Medium => 1
    case High => 2
  }

  /** `getRiskLevel` of the result view: defined for every total, and the
      view shown is the one attached to the level chosen. */
  function GetRiskLevel(totalScore: int): (r: RiskView)
    ensures r.level == Low <==> totalScore <= 4
    ensures r.level == Medium <==> 4 < totalScore <= 10
    ensures r.level == High <==> 10 < totalScore
    ensures r == ViewOf(r.level)
  {
    if totalScore <= 4 then ViewOf(Low)
    else if totalScore <= 10 then ViewOf(Medium)
    else ViewOf(High)
  }

  /** A larger total never yields a lower level. */
  lemma RiskLevelMonotone(a: int, b: int)
    requires a <= b
    ensures LevelRank(GetRiskLevel(a).level) <= LevelRank(GetRiskLevel(b).level)
  {
  }

  /** The three levels carry three different labels, colours and icons. */
  lemma ViewsDistinct(l: Level, m: Level)
    requires l != m
    ensures ViewOf(l).tierLabel != ViewOf(m).tierLabel
    ensures ViewOf(l).color != ViewOf(m).color && ViewOf(l).icon != ViewOf(m).icon
  {
  }

  /** The submitted tier and the report's level have the same rank exactly
      outside 5..6 and 11..13: there the customer is shown a higher level
      than the one posted with the submission. */
  lemma ClassifiersAgreeExceptBetweenCuts(score: int)
    ensures SubmitRank(SubmitRiskLevel(score)) == LevelRank(GetRiskLevel(score).level)
            <==> !(5 <= score <= 6 || 11 <= score <= 13)
    ensures SubmitRank(SubmitRiskLevel(score)) <= LevelRank(GetRiskLevel(score).level)
  {
  }

  // ---------------------------------------------------------------------
  // Score breakdown

  /** The value from which a breakdown row is highlighted. */
  const FlagThreshold: int := 2

  /** A breakdown row: the question, the stored answer, and whether the row
      is highlighted. */
  datatype Row = Row(question: Question, value: int, flagged: bool)

  /** The questions the breakdown lists, in order; the cat count has no row. */
  const BreakdownQuestions: seq<Question> := [Q5, Q6, Q7, Q8, Q9]

  /** The row shown for question q. */
  function RowOf(d: FormData, q: Question): Row {
    Row(q, ScoreOf(d, q), ScoreOf(d, q) >= FlagThreshold)
  }

  /** The score breakdown: one row per listed question, in order, each
      holding the stored answer and flagged exactly when it is at least 2. */
  function ScoreRows(d: FormData): (rows: seq<Row>)
    ensures |rows| == |BreakdownQuestions|
    ensures forall i :: 0 <= i < |rows| ==>
              && rows[i].question == BreakdownQuestions[i]
              && rows[i].value == ScoreOf(d, BreakdownQuestions[i])
              && (rows[i].flagged <==> rows[i].value >= 2)
  {
    [RowOf(d, Q5), RowOf(d, Q6), RowOf(d, Q7), RowOf(d, Q8), RowOf(d, Q9)]
  }

  /** A row depends on its own answer only: two drafts that agree on the
      listed answers show the same breakdown, whatever their totals and
      levels. */
  lemma FlagsIndependentOfTier(d: FormData, e: FormData)
    requires forall q :: q in BreakdownQuestions ==> ScoreOf(d, q) == ScoreOf(e, q)
    ensures ScoreRows(d) == ScoreRows(e)
  {
  }

  /** Flags and levels are independent: a low-level report can show a
      flagged row and a medium-level one none. */
  lemma FlagsAndLevelsExamples()
    ensures var d := WithExampleAnswers(InitialFormData).(q3Score := 1, q5Score := 3, q7Score := 0, q9Score := 0);
            AllAnswered(d) && GetRiskLevel(TotalScore(d)).level == Low && ScoreRows(d)[0].flagged
    ensures var d := InitialFormData.(q3Score := 4, q5Score := 1, q6Score := 1, q7Score := 1, q8Score := 1, q9Score := 1);
            AllAnswered(d) && GetRiskLevel(TotalScore(d)).level == Medium
            && forall i :: 0 <= i < |ScoreRows(d)| ==> !ScoreRows(d)[i].flagged
  {
  }

  /** With answers taken from the options, a high-level report always has
      a flagged row: without one the total is at most 4 + 5 * 1 = 9. */
  lemma HighLevelHasFlaggedRow(d: FormData)
    requires AllAnswered(d) && GetRiskLevel(TotalScore(d)).level == High
    ensures exists i :: 0 <= i < |ScoreRows(d)| && ScoreRows(d)[i].flagged
  {
    var rows := ScoreRows(d);
    if d.q5Score >= 2 { assert rows[0].flagged; }
    else if d.q6Score >= 2 { assert rows[1].flagged; }
    else if d.q7Score >= 2 { assert rows[2].flagged; }
    else if d.q8Score >= 2 { assert rows[3].flagged; }
    else { assert rows[4].flagged; }
  }

  // ---------------------------------------------------------------------
  // Score banner

  /** The score banner: the total and the maximum it is shown out of. */
  datatype Banner = Banner(score: int, outOf: int)

  /** The maximum the result view prints after the total. */
  const PrintedMaximum: int := 21

  /** The banner as the result view prints it: "total / 21". Its maximum
      lies 2 above the largest total the options allow, so no answered
      draft reaches it. */
  function BannerAsPrinted(totalScore: int): (b: Banner)
    ensures b.score == totalScore
    ensures b.outOf == MaxScore + 2
    ensures forall d :: AllAnswered(d) ==> TotalScore(d) < b.outOf
  {
    AnsweredTotalsBounded();
    Banner(totalScore, PrintedMaximum)
  }

  /** No draft the options can produce reaches the printed maximum: the
      largest total is 19, two short of it. */
  lemma PrintedMaximumUnreachable(d: FormData)
    requires AllAnswered(d)
    ensures TotalScore(d) < BannerAsPrinted(TotalScore(d)).outOf
    ensures BannerAsPrinted(TotalScore(d)).outOf - MaxScore == 2
  {
    AnsweredTotalRange(d);
  }

  /** The banner shown out of the largest total the options allow: every
      answered draft's total is at most its maximum, and some answered
      draft reaches it. */
  function ScoreBanner(totalScore: int): (b: Banner)
    ensures b.score == totalScore
    ensures forall d :: AllAnswered(d) ==> TotalScore(d) <= b.outOf
    ensures exists d :: AllAnswered(d) && TotalScore(d) == b.outOf
  {
    AnsweredTotalsBounded();
    TotalRangeTight();
    var top := InitialFormData.(q3Score := 4, q5Score := 3, q6Score := 3,
                                q7Score := 3, q8Score := 3, q9Score := 3);
    assert AllAnswered(top) && TotalScore(top) == MaxScore;
    Banner(totalScore, MaxScore)
  }

  /** The corrected banner's maximum is exact: every answered draft's total
      is at most it, and the draft answering the top option everywhere
      reaches it. */
  lemma ScoreBannerMaximumExact(d: FormData)
    requires AllAnswered(d)
    ensures 1 <= TotalScore(d) <= ScoreBanner(TotalScore(d)).outOf
    ensures var top := InitialFormData.(q3Score := 4, q5Score := 3, q6Score := 3,
                                        q7Score := 3, q8Score := 3, q9Score := 3);
            AllAnswered(top) && TotalScore(top) == ScoreBanner(TotalScore(top)).outOf
  {
    AnsweredTotalRange(d);
    TotalRangeTight();
  }
}
