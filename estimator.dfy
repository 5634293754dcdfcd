/** The project estimator of the IT-services page: from a project type, a
    complexity tier and the list of selected technologies it derives an
    estimated budget and an estimated duration in weeks.

    Every multiplier of the page is an exact tenth, so the tables below hold
    tenths and the exact price and duration are kept in hundredths; the
    final `Math.round` is `JsMath.Round` over those exact values. */
module Estimator {
  import JsMath

  /** The four complexity tiers the calculator offers. */
  datatype Complexity = Simple | Medium | Complex | Enterprise

  /** The estimate shown to the visitor: a budget and a duration in weeks. */
  datatype Estimate = Estimate(budget: int, duration: int)

  const BasePrice: int := 5000
  const BaseDurationWeeks: int := 4
  const TechnologyBonus: int := 1000

  /** The project-type multipliers, in tenths (web 1.0, mobile 1.3, ...). */
  const ProjectMultipliers: map<string, nat> :=
    map["web" := 10, "mobile" := 13, "ecommerce" := 18, "enterprise" := 25, "startup" := 8]

  /** The complexity multipliers, in tenths (simple 0.7, medium 1.0, ...). */
  const ComplexityMultipliers: map<Complexity, nat> :=
    map[Simple := 7, Medium := 10, Complex := 16, Enterprise := 22]

  /** The guard `projectType && projectMultipliers[projectType]`: a non-empty
      key that the table knows and whose factor is not zero. */
  predicate AppliesProjectFactor(projectType: string) {
    projectType != "" && projectType in ProjectMultipliers && ProjectMultipliers[projectType] != 0
  }

  /** The project factor in tenths that the estimate ends up applying: the
      table's entry when the guard admits it, otherwise no adjustment. */
  function ProjectTenths(projectType: string): (f: nat)
    ensures f == 8 || f == 10 || f == 13 || f == 18 || f == 25
  {
    if AppliesProjectFactor(projectType) then ProjectMultipliers[projectType] else 10
  }

  /** The complexity factor in tenths; every tier has a non-zero entry, so the
      source's guard on this lookup always admits it. */
  function ComplexityTenths(c: Complexity): (f: nat)
    ensures c in ComplexityMultipliers && f == ComplexityMultipliers[c] && f != 0
  {
    match c
    case Simple => 7
    case Medium => 10
    case Complex => 16
    case Enterprise => 22
  }

  /** Position of a tier in the order simple < medium < complex < enterprise. */
  function Rank(c: Complexity): nat {
    match c
    case Simple => 0
    case Medium => 1
    case Complex => 2
    case Enterprise => 3
  }

  /** The exact price in hundredths: base price times both factors, plus the
      flat bonus per selected technology. */
  function PriceHundredths(projectType: string, c: Complexity, techCount: nat): (r: int)
    ensures r >= 0 && r % 100 == 0
  {
    BasePrice * ProjectTenths(projectType) * ComplexityTenths(c) + TechnologyBonus * techCount * 100
  }

  /** The exact duration in hundredths of a week: base duration times both
      factors, between 2.24 weeks (startup, simple) and 22 weeks (enterprise,
      enterprise). */
  function DurationHundredths(projectType: string, c: Complexity): (r: int)
    ensures 224 <= r <= 2200
  {
    BaseDurationWeeks * ProjectTenths(projectType) * ComplexityTenths(c)
  }

  /** What the calculator displays for the three inputs. */
  function EstimateOf(projectType: string, c: Complexity, technologies: seq<string>): Estimate {
    Estimate(JsMath.Round(PriceHundredths(projectType, c, |technologies|), 100),
             JsMath.Round(DurationHundredths(projectType, c), 100))
  }

  /** The estimate in closed form: the budget is 50 * p * c + 1000 per
      technology (an integer before rounding), and the duration is
      4 * p * c / 100 rounded half up, for factors p and c in tenths. */
  lemma ClosedForm(projectType: string, c: Complexity, technologies: seq<string>)
    ensures EstimateOf(projectType, c, technologies).budget
         == 50 * ProjectTenths(projectType) * ComplexityTenths(c) + TechnologyBonus * |technologies|
    ensures EstimateOf(projectType, c, technologies).duration
         == (4 * ProjectTenths(projectType) * ComplexityTenths(c) + 50) / 100
  {
    var p, x := ProjectTenths(projectType), ComplexityTenths(c);
    var b := 50 * p * x + TechnologyBonus * |technologies|;
    assert PriceHundredths(projectType, c, |technologies|) == b * 100;
    JsMath.RoundExact(b, 100);
    var d := DurationHundredths(projectType, c);
    JsMath.RoundUnique(d, 100, (d + 50) / 100);
  }

  /** On first display (no project type, medium complexity, no technology)
      the estimate is 5000 and 4 weeks. */
  lemma InitialEstimate()
    ensures EstimateOf("", Medium, []) == Estimate(5000, 4)
  {
    ClosedForm("", Medium, []);
  }

  /** An empty or unknown project type is no adjustment at all, exactly like
      "web" whose factor is 1.0. */
  lemma UnknownTypeActsAsWeb(projectType: string, c: Complexity, technologies: seq<string>)
    requires projectType == "" || projectType !in ProjectMultipliers
    ensures !AppliesProjectFactor(projectType)
    ensures EstimateOf(projectType, c, technologies) == EstimateOf("web", c, technologies)
  {
  }

  /** Selecting one more technology adds exactly the flat bonus to the
      budget and leaves the duration alone. */
  lemma AppendTechnology(projectType: string, c: Complexity, technologies: seq<string>, tech: string)
    ensures EstimateOf(projectType, c, technologies + [tech]).budget
         == EstimateOf(projectType, c, technologies).budget + TechnologyBonus
    ensures EstimateOf(projectType, c, technologies + [tech]).duration
         == EstimateOf(projectType, c, technologies).duration
  {
    ClosedForm(projectType, c, technologies);
    ClosedForm(projectType, c, technologies + [tech]);
  }

  /** A reference for the technology bonus, built one item at a time: no
      technology gives the multiplied base price, and each further
      technology adds the flat bonus on top. */
  function BudgetItemByItem(projectType: string, c: Complexity, technologies: seq<string>): int
    decreases |technologies|
  {
    if technologies == [] then EstimateOf(projectType, c, []).budget
    else BudgetItemByItem(projectType, c, technologies[..|technologies| - 1]) + TechnologyBonus
  }

  /** Every selected technology adds exactly the bonus, after both
      multipliers: the budget equals the item-by-item reference. */
  lemma {:induction false} BudgetIsItemByItem(projectType: string, c: Complexity, technologies: seq<string>)
    ensures EstimateOf(projectType, c, technologies).budget == BudgetItemByItem(projectType, c, technologies)
  {
    if technologies != [] {
      var n := |technologies|;
      var init := technologies[..n - 1];
      BudgetIsItemByItem(projectType, c, init);
      AppendTechnology(projectType, c, init, technologies[n - 1]);
      assert init + [technologies[n - 1]] == technologies;
    }
  }

  /** The technology list never influences the duration: any two lists give
      the same duration. */
  lemma DurationIgnoresTechnologies(projectType: string, c: Complexity, some: seq<string>, other: seq<string>)
    ensures EstimateOf(projectType, c, some).duration == EstimateOf(projectType, c, other).duration
  {
  }

  /** A longer technology list never gives a smaller budget. */
  lemma LongerListNeverCheaper(projectType: string, c: Complexity, fewer: seq<string>, more: seq<string>)
    requires |fewer| <= |more|
    ensures EstimateOf(projectType, c, fewer).budget <= EstimateOf(projectType, c, more).budget
  {
    JsMath.RoundMonotone(PriceHundredths(projectType, c, |fewer|), PriceHundredths(projectType, c, |more|), 100);
  }

  /** No technology appears twice in the list, as with the page's
      checkboxes. */
  predicate Distinct(s: seq<string>) {
    forall i, j :: 0 <= i < j < |s| ==> s[i] != s[j]
  }

  /** A list names at most as many technologies as it has entries, and
      exactly as many when none is repeated. */
  lemma {:induction false} TechnologyCount(s: seq<string>)
    ensures |set x | x in s| <= |s|
    ensures Distinct(s) ==> |set x | x in s| == |s|
  {
    if s != [] {
      TechnologyCount(s[1..]);
      assert (set x | x in s) == {s[0]} + (set x | x in s[1..]);
      if Distinct(s) {
        assert Distinct(s[1..]);
        assert s[0] !in s[1..];
      }
    }
  }

  /** Selecting a superset of technologies never lowers the budget and
      leaves the duration unchanged. */
  lemma TechnologySubset(projectType: string, c: Complexity, fewer: seq<string>, more: seq<string>)
    requires Distinct(fewer)
    requires forall x :: x in fewer ==> x in more
    ensures EstimateOf(projectType, c, fewer).duration == EstimateOf(projectType, c, more).duration
    ensures EstimateOf(projectType, c, fewer).budget <= EstimateOf(projectType, c, more).budget
  {
    TechnologyCount(fewer);
    TechnologyCount(more);
    assert (set x | x in fewer) <= (set x | x in more);
    SubsetCardinality(set x | x in fewer, set x | x in more);
    LongerListNeverCheaper(projectType, c, fewer, more);
    DurationIgnoresTechnologies(projectType, c, fewer, more);
  }

  lemma SubsetCardinality(a: set<string>, b: set<string>)
    requires a <= b
    ensures |a| <= |b|
  {
    assert b == a + (b - a);
  }

  /** The complexity factors grow with the tier. */
  lemma ComplexityTenthsOrdered(c1: Complexity, c2: Complexity)
    requires Rank(c1) < Rank(c2)
    ensures ComplexityTenths(c1) < ComplexityTenths(c2)
  {
  }

  /** A higher complexity tier never lowers the duration and strictly raises
      the budget, for the same project type and technologies. */
  lemma ComplexityMonotone(projectType: string, c1: Complexity, c2: Complexity, technologies: seq<string>)
    requires Rank(c1) <= Rank(c2)
    ensures EstimateOf(projectType, c1, technologies).duration <= EstimateOf(projectType, c2, technologies).duration
    ensures EstimateOf(projectType, c1, technologies).budget <= EstimateOf(projectType, c2, technologies).budget
    ensures Rank(c1) < Rank(c2) ==>
              EstimateOf(projectType, c1, technologies).budget < EstimateOf(projectType, c2, technologies).budget
  {
    if Rank(c1) < Rank(c2) {
      var p := ProjectTenths(projectType);
      ComplexityTenthsOrdered(c1, c2);
      JsMath.MulLeftStrict(p, ComplexityTenths(c1), ComplexityTenths(c2));
      ClosedForm(projectType, c1, technologies);
      ClosedForm(projectType, c2, technologies);
      JsMath.MulLeftMono(4, p * ComplexityTenths(c1), p * ComplexityTenths(c2));
      JsMath.RoundMonotone(DurationHundredths(projectType, c1), DurationHundredths(projectType, c2), 100);
    } else {
      assert c1 == c2;
    }
  }

  /** A larger project-type factor, at the same tier and technologies,
      strictly raises the budget and never lowers the duration. */
  lemma ProjectMonotone(t1: string, t2: string, c: Complexity, technologies: seq<string>)
    requires ProjectTenths(t1) < ProjectTenths(t2)
    ensures EstimateOf(t1, c, technologies).budget < EstimateOf(t2, c, technologies).budget
    ensures EstimateOf(t1, c, technologies).duration <= EstimateOf(t2, c, technologies).duration
  {
    var x := ComplexityTenths(c);
    JsMath.MulLeftStrict(x, ProjectTenths(t1), ProjectTenths(t2));
    ClosedForm(t1, c, technologies);
    ClosedForm(t2, c, technologies);
    JsMath.RoundMonotone(DurationHundredths(t1, c), DurationHundredths(t2, c), 100);
  }

  /** Both outputs are positive, the budget covers at least the technology
      bonus on top of the cheapest base (startup, simple: 2800), and the
      duration is at least two weeks. */
  lemma EstimateBounds(projectType: string, c: Complexity, technologies: seq<string>)
    ensures EstimateOf(projectType, c, technologies).budget >= 2800 + TechnologyBonus * |technologies|
    ensures EstimateOf(projectType, c, technologies).duration >= 2
  {
    var p, x := ProjectTenths(projectType), ComplexityTenths(c);
    ClosedForm(projectType, c, technologies);
    JsMath.MulLeftMono(p, 7, x);
    JsMath.MulLeftMono(7, 8, p);
  }

  /** Ecommerce at complex tier with no technology: 5000 * 1.8 * 1.6 = 14400
      and round(4 * 1.8 * 1.6) = round(11.52) = 12 weeks. */
  lemma EcommerceComplexExample()
    ensures EstimateOf("ecommerce", Complex, []) == Estimate(14400, 12)
  {
    ClosedForm("ecommerce", Complex, []);
  }

  /** Startup at simple tier with two technologies: 5000 * 0.8 * 0.7 + 2000 =
      4800 and round(2.24) = 2 weeks. */
  lemma StartupSimpleExample()
    ensures EstimateOf("startup", Simple, ["Docker", "AWS"]) == Estimate(4800, 2)
  {
    ClosedForm("startup", Simple, ["Docker", "AWS"]);
  }

  /** No input makes the exact duration land on a half week, so the result
      does not depend on how `Math.round` breaks ties: rounding the negated
      value gives the negated result, as rounding half away from zero would. */
  lemma DurationNeverTies(projectType: string, c: Complexity)
    ensures DurationHundredths(projectType, c) % 100 != 50
    ensures JsMath.Round(-DurationHundredths(projectType, c), 100) == -JsMath.Round(DurationHundredths(projectType, c), 100)
  {
    var d := DurationHundredths(projectType, c);
    var p, x := ProjectTenths(projectType), ComplexityTenths(c);
    assert x == 7 || x == 10 || x == 16 || x == 22;
    if p == 8 {
      assert d == 32 * x;
    } else if p == 10 {
      assert d == 40 * x;
    } else if p == 13 {
      assert d == 52 * x;
    } else if p == 18 {
      assert d == 72 * x;
    } else {
      assert d == 100 * x;
    }
    JsMath.RoundHundredthsNoTieSymmetric(d);
  }
}
