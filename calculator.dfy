/** The calculator state of the page and the recomputation that keeps its
    two outputs in step with its three inputs. */
module Calculator {
  import JsMath
  import opened Estimator

  /** The calculator's component state: three inputs, a timeline that nothing
      reads, and the two displayed outputs. */
  class ProjectCalculator {
    var projectType: string
    var complexity: Complexity
    var selectedTechnologies: seq<string>
    var timeline: string
    var estimatedBudget: int
    var estimatedDuration: int

    /** The outputs show the estimate of the current inputs. */
    predicate Consistent()
      reads this
    {
      estimatedBudget == EstimateOf(projectType, complexity, selectedTechnologies).budget &&
      estimatedDuration == EstimateOf(projectType, complexity, selectedTechnologies).duration
    }

    /** The page's first render: the initial state values, then the
        recompute effect running once on mount. */
    constructor ()
      ensures projectType == "" && complexity == Medium && selectedTechnologies == []
      ensures timeline == "3months"
      ensures estimatedBudget == 5000 && estimatedDuration == 4
      ensures Consistent()
    {
      projectType := "";
      complexity := Medium;
      selectedTechnologies := [];
      timeline := "3months";
      estimatedBudget := 0;
      estimatedDuration := 0;
      new;
      CalculateProject();
      InitialEstimate();
    }

    /** Recompute both outputs from the inputs, step by step: each factor is
        applied only when its table lookup succeeds, and each running value
        is kept exactly as a numerator over a power of ten. Writes the two
        outputs and nothing else; on a state that is already consistent it
        changes nothing. */
    method CalculateProject()
      modifies this`estimatedBudget, this`estimatedDuration
      ensures Consistent()
      ensures projectType == old(projectType) && complexity == old(complexity)
      ensures selectedTechnologies == old(selectedTechnologies) && timeline == old(timeline)
      ensures old(Consistent()) ==>
                estimatedBudget == old(estimatedBudget) && estimatedDuration == old(estimatedDuration)
    {
      // price / priceScale is the exact running price
      var price, priceScale := BasePrice, 1;
      if AppliesProjectFactor(projectType) {
        price, priceScale := price * ProjectMultipliers[projectType], priceScale * 10;
      }
      if complexity in ComplexityMultipliers && ComplexityMultipliers[complexity] != 0 {
        price, priceScale := price * ComplexityMultipliers[complexity], priceScale * 10;
      }
      price := price + |selectedTechnologies| * TechnologyBonus * priceScale;

      // duration / durationScale is the exact running duration
      var duration, durationScale := BaseDurationWeeks, 1;
      if AppliesProjectFactor(projectType) {
        duration, durationScale := duration * ProjectMultipliers[projectType], durationScale * 10;
      }
      if complexity in ComplexityMultipliers && ComplexityMultipliers[complexity] != 0 {
        duration, durationScale := duration * ComplexityMultipliers[complexity], durationScale * 10;
      }

      estimatedBudget := JsMath.Round(price, priceScale);
      estimatedDuration := JsMath.Round(duration, durationScale);

      // Without a project factor both values sit at tenths, not hundredths.
      if !AppliesProjectFactor(projectType) {
        assert PriceHundredths(projectType, complexity, |selectedTechnologies|) == price * 10;
        JsMath.RoundScale(price, 10, 10);
        assert DurationHundredths(projectType, complexity) == duration * 10;
        JsMath.RoundScale(duration, 10, 10);
      }
    }

    /** Choosing a project type, after which the effect recomputes. */
    method SetProjectType(t: string)
      modifies this
      ensures projectType == t && complexity == old(complexity)
      ensures selectedTechnologies == old(selectedTechnologies) && timeline == old(timeline)
      ensures Consistent()
    {
      projectType := t;
      CalculateProject();
    }

    /** Choosing a complexity tier, after which the effect recomputes. */
    method SetComplexity(c: Complexity)
      modifies this
      ensures complexity == c && projectType == old(projectType)
      ensures selectedTechnologies == old(selectedTechnologies) && timeline == old(timeline)
      ensures Consistent()
    {
      complexity := c;
      CalculateProject();
    }

    /** Replacing the technology list, after which the effect recomputes. */
    method SetSelectedTechnologies(technologies: seq<string>)
      modifies this
      ensures selectedTechnologies == technologies
      ensures projectType == old(projectType) && complexity == old(complexity) && timeline == old(timeline)
      ensures Consistent()
    {
      selectedTechnologies := technologies;
      CalculateProject();
    }

    /** Changing the timeline: it is not among the effect's dependencies and
        the estimate never reads it, so the outputs stay as they were and stay
        correct. */
    method SetTimeline(t: string)
      modifies this`timeline
      ensures timeline == t
      ensures estimatedBudget == old(estimatedBudget) && estimatedDuration == old(estimatedDuration)
      ensures old(Consistent()) ==> Consistent()
    {
      timeline := t;
    }
  }
}
