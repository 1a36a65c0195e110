/**
 * The risk register endpoint (`/api/risks`): every stored risk is reshaped
 * for the risk pages, with text levels for its numeric probability and
 * impact and `N/A` for missing descriptive fields.
 */
module Risks {
  import opened JsValues

  /** A stored risk; `None` is a missing field. `id` and `category` are copied as they are. */
  datatype RawRisk = RawRisk(
    id: Option<string>,
    name: Option<string>,
    description: Option<string>,
    category: Option<string>,
    owner: Option<string>,
    status: Option<string>,
    trigger: Option<string>,
    fallback: Option<string>,
    mitigation: Option<string>,
    probability: Option<real>,
    impact: Option<real>)

  datatype Level = High | Medium | Low

  function LevelName(l: Level): string {
    match l
    case High => "High"
    case Medium => "Medium"
    case Low => "Low"
  }

  /** The order of the levels, Low lowest. */
  function Rank(l: Level): nat {
    match l
    case High => 2
    case Medium => 1
    case Low => 0
  }

  /**
   * `getLevel(value)`: High from 4 up, Medium from 3 up, Low below 3 and for
   * a missing value (a comparison with `undefined` is false).
   */
  function GetLevel(value: Option<real>): (r: Level)
    ensures r == High <==> value.Some? && value.value >= 4.0
    ensures r == Medium <==> value.Some? && 3.0 <= value.value < 4.0
    ensures r == Low <==> value.None? || value.value < 3.0
  {
    if value.Some? && value.value >= 4.0 then High
    else if value.Some? && value.value >= 3.0 then Medium
    else Low
  }

  /** A higher value never gets a lower level. */
  lemma GetLevelMonotone(a: real, b: real)
    requires a <= b
    ensures Rank(GetLevel(Some(a))) <= Rank(GetLevel(Some(b)))
  {
  }

  /** A transformed risk, as the risk pages and the dashboard read it. */
  datatype RiskView = RiskView(
    id: Option<string>,
    name: Option<string>,
    title: Option<string>,
    description: Option<string>,
    context: Option<string>,
    category: Option<string>,
    owner: string,
    status: string,
    trigger: string,
    fallback: string,
    mitigation: string,
    probability: Option<real>,
    likelihood: Option<real>,
    prob: string,
    impact: string)

  const NotAvailable := "N/A"

  /** The transform of one risk. */
  function View(risk: RawRisk): (v: RiskView)
    ensures v.title == v.name == risk.name && v.context == v.description == risk.description
    ensures v.id == risk.id && v.category == risk.category
    ensures v.likelihood == v.probability == risk.probability
    ensures v.prob == LevelName(GetLevel(risk.probability)) && v.impact == LevelName(GetLevel(risk.impact))
  {
    RiskView(
      risk.id, risk.name, risk.name, risk.description, risk.description, risk.category,
      OrElse(risk.owner, NotAvailable),
      OrElse(risk.status, NotAvailable),
      OrElse(risk.trigger, NotAvailable),
      OrElse(risk.fallback, NotAvailable),
      OrElse(risk.mitigation, NotAvailable),
      risk.probability, risk.probability,
      LevelName(GetLevel(risk.probability)),
      LevelName(GetLevel(risk.impact)))
  }

  /** `data.map(...)`. */
  function Transform(risks: seq<RawRisk>): (r: seq<RiskView>)
    ensures |r| == |risks|
  {
    seq(|risks|, i requires 0 <= i < |risks| => View(risks[i]))
  }

  /** The five descriptive fields a view fills in. */
  function Descriptive(v: RiskView): seq<string> {
    [v.owner, v.status, v.trigger, v.fallback, v.mitigation]
  }

  /** The same five fields of a stored risk. */
  function RawDescriptive(risk: RawRisk): seq<Option<string>> {
    [risk.owner, risk.status, risk.trigger, risk.fallback, risk.mitigation]
  }

  /**
   * Each descriptive field of the i-th view is the stored text when that is
   * non-empty and `N/A` otherwise, so no view has an empty descriptive field;
   * the views come in register order.
   */
  lemma TransformFillsDefaults(risks: seq<RawRisk>)
    ensures forall i, f :: 0 <= i < |risks| && 0 <= f < 5 ==>
      Descriptive(Transform(risks)[i])[f]
      == (if Truthy(RawDescriptive(risks[i])[f]) then RawDescriptive(risks[i])[f].value else NotAvailable)
    ensures forall i, f :: 0 <= i < |risks| && 0 <= f < 5 ==> Descriptive(Transform(risks)[i])[f] != ""
    ensures forall i :: 0 <= i < |risks| ==> Transform(risks)[i].title == risks[i].name
  {
    forall i, f | 0 <= i < |risks| && 0 <= f < 5
      ensures Descriptive(Transform(risks)[i])[f]
        == (if Truthy(RawDescriptive(risks[i])[f]) then RawDescriptive(risks[i])[f].value else NotAvailable)
    {
      assert f == 0 || f == 1 || f == 2 || f == 3 || f == 4;
    }
  }

  /**
   * The levels of the i-th view: "High" from 4 up, "Low" below 3 or when the
   * value is missing, "Medium" in between; the numeric probability is kept.
   */
  lemma {:induction false} TransformLevels(risks: seq<RawRisk>, i: int)
    requires 0 <= i < |risks|
    ensures Transform(risks)[i].impact == "High" <==> risks[i].impact.Some? && risks[i].impact.value >= 4.0
    ensures Transform(risks)[i].impact == "Low" <==> risks[i].impact.None? || risks[i].impact.value < 3.0
    ensures Transform(risks)[i].prob == "High" <==> risks[i].probability.Some? && risks[i].probability.value >= 4.0
    ensures Transform(risks)[i].prob == "Low" <==> risks[i].probability.None? || risks[i].probability.value < 3.0
    ensures Transform(risks)[i].likelihood == Transform(risks)[i].probability == risks[i].probability
  {
    var v := Transform(risks)[i];
    assert v == View(risks[i]);
    LevelNames(GetLevel(risks[i].impact));
    LevelNames(GetLevel(risks[i].probability));
  }

  /** The level names tell the levels apart. */
  lemma LevelNames(l: Level)
    ensures LevelName(l) == "High" <==> l == High
    ensures LevelName(l) == "Low" <==> l == Low
  {
    assert |"High"| == 4 && |"Low"| == 3 && |"Medium"| == 6;
  }

  /**
   * Reads a stored risk back from its view. The numeric impact cannot be
   * recovered: the view's `impact` is the level that replaced it.
   */
  function Restore(v: RiskView): RawRisk {
    RawRisk(v.id, v.name, v.description, v.category,
      Some(v.owner), Some(v.status), Some(v.trigger), Some(v.fallback), Some(v.mitigation),
      v.probability, None)
  }

  /** A risk whose descriptive fields are all non-empty loses nothing in its view but the numeric impact. */
  lemma {:induction false} ViewLosesOnlyDefaults(risk: RawRisk)
    requires forall f :: 0 <= f < 5 ==> Truthy(RawDescriptive(risk)[f])
    ensures Restore(View(risk)) == risk.(impact := None)
  {
    assert Truthy(RawDescriptive(risk)[0]) && Truthy(RawDescriptive(risk)[1]) && Truthy(RawDescriptive(risk)[2]);
    assert Truthy(RawDescriptive(risk)[3]) && Truthy(RawDescriptive(risk)[4]);
  }
}
