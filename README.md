# Project estimator of the IT-services page

The page carries a small calculator that estimates what a project costs and
how many weeks it takes. It reads three inputs: a project type (a free string,
initially empty), a complexity tier (simple, medium, complex or enterprise,
initially medium) and a list of selected technologies (initially empty).
`calculateProject` starts from a base price of 5000 and a base duration of 4
weeks. It multiplies both by the project-type factor, but only when the type
is non-empty and known. It multiplies both by the complexity factor. It adds
1000 per technology to the price only. It then rounds both with `Math.round`.
An effect reruns it whenever one of the three inputs changes.

The model has three modules:

- `JsMath` (`jsmath.dfy`): `Math.round` over exact rationals. It is characterised
  by its bounds, with uniqueness, scaling, monotonicity and tie lemmas.
- `Estimator` (`estimator.dfy`): the two multiplier tables, held in tenths. It
  also has the estimate as a pure function (`EstimateOf`) and the lemmas about it.
- `Calculator` (`calculator.dfy`): the component state as a class.
  `CalculateProject` updates a running price and duration step by step, as the
  source does. It skips a factor whose lookup fails, keeps each value as a
  numerator over a power of ten, and writes only the two outputs. Its
  postcondition ties them to `EstimateOf`. The setters model "change an input,
  then the effect recomputes".

Every multiplier is an exact tenth, so all arithmetic is exact integer
arithmetic: the price in hundredths is `5000 * p * c + 100000 * n` and the
duration in hundredths is `4 * p * c`, for factors `p`, `c` in tenths.

Three facts about the code shape the model. `selectedTechnologies` is an
array, so a repeated entry adds 1000 each time. `complexity` is a closed
union, so its lookup guard always passes. `Math.round` breaks ties towards
positive infinity.

## Model

| member | source | states |
|---|---|---|
| JsMath.Round | src/App.tsx:137-138 | `Math.round(num/den)` is the integer r with r - 1/2 <= num/den < r + 1/2 (ties go up) |
| JsMath.RoundUnique | src/App.tsx:137-138 | any integer within those bounds is the rounded value, so the bounds define `Math.round` |
| JsMath.RoundExact | src/App.tsx:137 | rounding an integral price returns it unchanged |
| JsMath.RoundScale | src/App.tsx:117-123 | skipping a multiplication leaves the value at a coarser scale; rounding does not depend on the scale |
| JsMath.RoundMonotone | src/App.tsx:137-138 | rounding preserves order between values |
| JsMath.RoundHundredthsNoTieSymmetric | src/App.tsx:138 | a value in hundredths that is not a half rounds symmetrically: round(-x) = -round(x) |
| Estimator.AppliesProjectFactor | src/App.tsx:118 | the guard `projectType && projectMultipliers[projectType]`: a non-empty, known key with a non-zero factor (the same guard at line 130) |
| Estimator.PriceHundredths | src/App.tsx:117-126 | the exact price in hundredths is a non-negative whole amount, so rounding the budget loses nothing |
| Estimator.DurationHundredths | src/App.tsx:129-135 | the exact duration lies between 2.24 and 22 weeks |
| Estimator.EstimateOf | src/App.tsx:95-139 | the pure estimate of the three inputs; its meaning is fixed by `ClosedForm` and the property lemmas below, and `CalculateProject` is proved to write exactly it |
| Estimator.ProjectTenths | src/App.tsx:100-120 | the project factor applied is one of 0.8, 1.0, 1.3, 1.8, 2.5 |
| Estimator.ComplexityTenths | src/App.tsx:109-123 | every tier has a non-zero entry in the complexity table, so its guard always applies the factor |
| Estimator.ClosedForm | src/App.tsx:96-138 | budget = 50·p·c + 1000·n exactly, duration = floor((4·p·c + 50) / 100) |
| Estimator.InitialEstimate | src/App.tsx:69-144 | the initial inputs ('', medium, no technology) give budget 5000 and duration 4 |
| Estimator.UnknownTypeActsAsWeb | src/App.tsx:100-132 | an empty or unknown project type skips the factor and gives the same estimate as 'web' |
| Estimator.AppendTechnology | src/App.tsx:126 | one more technology adds exactly 1000 to the budget and nothing to the duration |
| Estimator.BudgetIsItemByItem | src/App.tsx:126 | the budget equals an item-by-item reference: the multiplied base plus 1000 for each technology in turn |
| Estimator.TechnologyCount | src/App.tsx:71 | a technology list names at most as many technologies as its length, and exactly that many when none repeats |
| Estimator.TechnologySubset | src/App.tsx:126-135 | selecting a superset of distinct technologies never lowers the budget and keeps the duration |
| Estimator.DurationIgnoresTechnologies | src/App.tsx:129-135 | any two technology lists give the same duration |
| Estimator.LongerListNeverCheaper | src/App.tsx:126 | a longer technology list never gives a smaller budget |
| Estimator.ProjectMonotone | src/App.tsx:100-132 | a larger project-type factor strictly raises the budget and never lowers the duration, at a fixed tier and list |
| Estimator.ComplexityTenthsOrdered | src/App.tsx:109-114 | factors strictly increase along simple < medium < complex < enterprise |
| Estimator.ComplexityMonotone | src/App.tsx:109-135 | a higher tier never lowers the duration and strictly raises the budget |
| Estimator.EstimateBounds | src/App.tsx:96-138 | budget >= 2800 + 1000·n (so >= 1000·n and positive); duration >= 2 weeks |
| Estimator.EcommerceComplexExample | src/App.tsx:95-139 | ecommerce/complex with no technology gives 14400 and 12 weeks (round(11.52)) |
| Estimator.StartupSimpleExample | src/App.tsx:95-139 | startup/simple with two technologies gives 4800 and 2 weeks (round(2.24)) |
| Estimator.DurationNeverTies | src/App.tsx:129-138 | no input makes the exact duration end in .5, so any tie rule gives the same duration |
| Calculator.ProjectCalculator.Consistent | src/App.tsx:142-144 | the class invariant the effect maintains: both outputs equal the estimate of the current inputs |
| Calculator.ProjectCalculator.constructor | src/App.tsx:69-74 | initial state ('', medium, [], '3months'); after the mount effect the outputs are 5000 and 4 |
| Calculator.ProjectCalculator.CalculateProject | src/App.tsx:95-139 | the outputs become the estimate of the inputs. Nothing else changes: the inputs and timeline keep their values. Rerunning on a consistent state is a no-op (idempotent) |
| Calculator.ProjectCalculator.SetProjectType | src/App.tsx:142-144 | changing the project type triggers a recompute; the outputs match the new inputs |
| Calculator.ProjectCalculator.SetComplexity | src/App.tsx:142-144 | changing the tier triggers a recompute; the outputs match the new inputs |
| Calculator.ProjectCalculator.SetSelectedTechnologies | src/App.tsx:142-144 | changing the technology list triggers a recompute; the outputs match the new inputs |
| Calculator.ProjectCalculator.SetTimeline | src/App.tsx:72 | the timeline is not an effect dependency: outputs are unchanged and remain correct |

## Left out

- Rendering, layout and animation, the scroll listener, the dark-mode class toggle, the menu and theme state, the static content arrays, and the contact form are left out. They are presentation and DOM I/O, with no computation.
- Floating-point arithmetic is left out. Multipliers are exact tenths and the model computes exactly. The budget is an exact integer. `Estimator.DurationNeverTies` shows the exact duration is never a half. So a float result within rounding error of the exact value rounds to the same integer.
- React's dependency tracking is left out. Each setter assigns its input and then calls `CalculateProject` explicitly.
- The model recomputes on every setter call, even when the setter is given the current value. React skips both the render and the effect in that case. The difference is harmless: `CalculateProject` on a consistent state changes nothing.
- A `seq` cannot express mutating the technology array in place and passing the same reference back to `setSelectedTechnologies`. React would leave the outputs stale in that case; the model always recomputes.
- JavaScript prototype keys (e.g. `"toString"`) are not modelled. The project table is a finite map over its five keys.
- Invalid complexity values are not modelled. Complexity is a closed datatype, as in the source's union type. The guard `complexityMultipliers[complexity]` is kept, but it always passes (`Estimator.ComplexityTenths`).
- The page never calls `setProjectType`, `setComplexity`, `setSelectedTechnologies` or `setTimeline`. The setters are modelled anyway, and the lemmas cover all inputs.
- The technology selection is a list, as in the source, not a set. Duplicate entries count once each toward the bonus.
