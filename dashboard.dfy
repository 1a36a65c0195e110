/**
 * The dashboard endpoint (`/api/dashboard`): the three most severe risks,
 * ranked by a score of their impact and probability levels, and the total
 * budget taken from the budget summary.
 *
 * The three JSON files it reads are parameters; the milestones list is
 * passed through untouched.
 */
module Dashboard {
  import opened JsValues
  import opened StableSort

  /** An entry of the risk register as stored; `extra` holds the fields the dashboard does not show. */
  datatype Risk = Risk(
    title: Option<string>,
    color: Option<string>,
    impact: Option<string>,
    prob: Option<string>,
    extra: map<string, string>)

  /** What the dashboard shows of a risk: exactly these four fields. */
  datatype TopRisk = TopRisk(title: Option<string>, color: Option<string>, impact: Option<string>, prob: Option<string>)

  /** An entry of the budget summary. */
  datatype SummaryEntry = SummaryEntry(category: Option<string>, amount: real)

  // ---------------------------------------------------------------------------
  // Severity

  /** `scoreMap[level] || 0`: High, Medium and Low score 3, 2 and 1; anything else 0. */
  function LevelScore(level: Option<string>): (r: int)
    ensures 0 <= r <= 3
    ensures r == 0 <==> level !in {Some("High"), Some("Medium"), Some("Low")}
  {
    match level
    case Some("High") => 3
    case Some("Medium") => 2
    case Some("Low") => 1
    case _ => 0
  }

  function Score(r: Risk): (s: int)
    ensures 0 <= s <= 6
  {
    LevelScore(r.impact) + LevelScore(r.prob)
  }

  /** The comparator `scoreB - scoreA` orders by this key, ascending. */
  function Severity(r: Risk): int {
    -Score(r)
  }

  /** `[...risks].sort(...)`: the risks by decreasing score, ties in register order. */
  function Ranked(risks: seq<Risk>): seq<Risk> {
    SortByKey(risks, Severity)
  }

  function Project(r: Risk): (t: TopRisk)
    ensures t.title == r.title && t.color == r.color && t.impact == r.impact && t.prob == r.prob
  {
    TopRisk(r.title, r.color, r.impact, r.prob)
  }

  const TopCount := 3

  /** How many risks `slice(0, 3)` keeps. */
  function Shown(risks: seq<Risk>): (n: nat)
    ensures n <= TopCount && n <= |risks|
    ensures n == TopCount || n == |risks|
  {
    if |risks| < TopCount then |risks| else TopCount
  }

  /** The sorted copy, sliced to its first three, projected. */
  function TopRisks(risks: seq<Risk>): (r: seq<TopRisk>)
    ensures |r| == Shown(risks)
  {
    var ranked := Ranked(risks);
    seq(Shown(risks), i requires 0 <= i < Shown(risks) => Project(ranked[i]))
  }

  /**
   * The shown risks come first in the ranking: the ranking is a permutation
   * of the register, its first `Shown` entries are the ones projected, they
   * are in non-increasing score order, and no omitted risk scores higher
   * than a shown one.
   */
  lemma TopRisksAreMostSevere(risks: seq<Risk>)
    ensures multiset(Ranked(risks)) == multiset(risks)
    ensures forall i :: 0 <= i < Shown(risks) ==> TopRisks(risks)[i] == Project(Ranked(risks)[i])
    ensures forall i, j :: 0 <= i < j < Shown(risks) ==> Score(Ranked(risks)[j]) <= Score(Ranked(risks)[i])
    ensures forall i, j :: 0 <= i < Shown(risks) <= j < |risks| ==> Score(Ranked(risks)[j]) <= Score(Ranked(risks)[i])
  {
    SortByKeyPermutes(risks, Severity);
    SortByKeySorted(risks, Severity);
  }

  /** The shown risks, read back, score in non-increasing order. */
  lemma TopRisksOrdered(risks: seq<Risk>)
    ensures forall i, j :: 0 <= i < j < |TopRisks(risks)| ==>
      LevelScore(TopRisks(risks)[j].impact) + LevelScore(TopRisks(risks)[j].prob)
      <= LevelScore(TopRisks(risks)[i].impact) + LevelScore(TopRisks(risks)[i].prob)
  {
    TopRisksAreMostSevere(risks);
  }

  /** The risks with one score, in ranking order. */
  function WithScore(s: seq<Risk>, score: int): seq<Risk> {
    WithKey(s, Severity, -score)
  }

  /** Risks with equal scores keep their register order in the ranking. */
  lemma RankedKeepsTies(risks: seq<Risk>, score: int)
    ensures WithScore(Ranked(risks), score) == WithScore(risks, score)
  {
    SortByKeyStable(risks, Severity, -score);
  }

  // ---------------------------------------------------------------------------
  // Total budget

  const TotalCategory := "Total"

  /** `summary.find(s => s.category === 'Total')` as an index, -1 when there is none. */
  function FindTotal(summary: seq<SummaryEntry>): int {
    FindIndex(summary, (s: SummaryEntry) => s.category == Some(TotalCategory))
  }

  /** `total ? total.amount : 0`. */
  function TotalBudget(summary: seq<SummaryEntry>): real {
    var i := FindTotal(summary);
    if i == -1 then 0.0 else summary[i].amount
  }

  /** The total is the amount of the first `Total` entry, and 0 exactly when there is none (or it is 0). */
  lemma TotalBudgetIsFirstTotal(summary: seq<SummaryEntry>, before: seq<SummaryEntry>, amount: real, after: seq<SummaryEntry>)
    requires forall j :: 0 <= j < |before| ==> before[j].category != Some(TotalCategory)
    ensures TotalBudget(before + [SummaryEntry(Some(TotalCategory), amount)] + after) == amount
    ensures TotalBudget(before) == 0.0
  {
    var s := before + [SummaryEntry(Some(TotalCategory), amount)] + after;
    assert s[|before|].category == Some(TotalCategory);
  }

  // ---------------------------------------------------------------------------
  // Response

  const ProjectStart := "2025-10-01"

  datatype DashboardView<M> = DashboardView(milestones: M, totalBudget: real, risks: seq<TopRisk>, projectStart: string)

  function DashboardResponse<M>(milestones: M, summary: seq<SummaryEntry>, risks: seq<Risk>): (v: DashboardView<M>)
    ensures v.milestones == milestones && v.projectStart == ProjectStart
    ensures |v.risks| <= TopCount
  {
    DashboardView(milestones, TotalBudget(summary), TopRisks(risks), ProjectStart)
  }
}
