# Pricing, conversion and crawling of ocpi-kit, verified

This Dafny project models three parts of the ocpi-kit library and proves what they promise.

* **The tariff pricing engine** (`src/tariffs`) turns a session and OCPI tariffs into a cost
  breakdown: it looks up the first component that prices each quantity of each charging period,
  bills energy and time in blocks once per session, splits amounts into net and tax, groups the
  tax by rate, applies the price limits and apportions the tax so that the document adds up.
  Beside it stand the verification of a CDR against a breakdown and the linter's claims about what
  the engine can ever select.
* **Version conversion** (`src/convert`) carries objects between OCPI 2.2.1 and 2.3.0 with a report
  of what was lost, on typed objects and on JSON documents, pages of them and merge patches.
* **The pagination crawl** (`src/client/paging.rs`) reads a list that may change between its
  requests, going back by one object when the reported total shrank.

Loops and objects that change state are methods and classes proved against specification functions;
the promises are lemmas about those functions, for every input.

| file | what it holds |
|---|---|
| `Decimals`, `Sums`, `Grouping`, `Wrappers`, `Text` | rounding, sums, grouping by key, option and result, numerals and delimited text |
| `Policy`, `Tariffs`, `Input`, `Lookup`, `Selection` | the pricing policy, the inputs, and which tariff and component price what |
| `Segments`, `Quantise`, `TaxLines`, `Finish`, `Price`, `Breakdown` | the engine, step by step and end to end |
| `Moments`, `Choosing`, `BlockBilling`, `Charges`, `TaxBases`, `Notes` | what a breakdown says in terms of the session: when components are looked up, by which tariff, in which units, at which price and rate, on which base, with which notes |
| `Gross`, `OneUnit`, `Splitting` | tax-included sessions, and splitting a charging period |
| `Range`, `RangeLimits`, `ClampLimits` | staying inside a 96-bit decimal |
| `Lint`, `LintRuns`, `LintLaws`, `Verify`, `OwnWork`, `Published` | the linter against the engine and its runs, verification against the engine's own work, and the two prices it is published as |
| `Ocpi221`, `Ocpi230`, `Convert`, `RoundTrip` | the objects of both versions, the conversions and what they promise each other |
| `Json`, `Shapes`, `Objects`, `Codec`, `Wire`, `Bridging`, `Documents`, `Crossings`, `Clashes`, `LossReports`, `CostReports` | documents, merge patches, pointers, reading and writing typed objects, the bridge, and its reports |
| `Paging`, `Crawling` | one crawl, and a crawl against a list that changes |

## Where the code and what is said of it part

Each of these is a lemma with a concrete input or an exact condition.

* Splitting a period moves a cost by at most one component unit, but for a price that includes tax
  that holds exactly at certain rates (`Splitting.OneUnitExactly`): under the default policy at 50
  percent, say, and not at 20 (`Splitting.UsualRates`). At any other rate of zero or more it is two
  (`Splitting.TwoUnitsSuffice`, `Splitting.SlackIsReached`).
* Where prices include tax a session costs what its components state, unless block billing takes a
  quantity too small to count below zero (`Gross.GrossSessionNotConserved`).
* An `UnreachableElement` that describes reservation costs is reached (`Lint.UnreachableReservationIsReached`,
  exactly `Lint.ClaimedSelectedExactly`); an `ImpossibleRestriction` on power or current holds for a period measured on both sides of its bounds
  (`Lint.ImpossibleElementsAreReached`, exactly `Lint.CrossedPowerHolds` and `Lint.CrossedCurrentHolds`);
  an `UnusedTimeStepSize` is used (`LintRuns.UnusedStepIsUsed`), exactly when no period has parking time
  that something prices (`LintRuns.StepIsAppliedUnlessParkingIsPriced`).
* A maximum without an after-tax bound can undo an after-tax minimum (`Finish.MaximumUndoesAfterTaxMinimum`,
  exactly `Finish.AfterTaxMinimum`).
* A patch that empties a shared list, or writes one whose objects hold nulls or empty lists, does not
  commute with a crossing to the letter (`Bridging.EmptyListDoesNotCommute`, exactly `Bridging.PatchCommutesExactly`), and a
  document that holds such a value comes back without it (`Clashes.ComesBackExactly`).
* A 2.2.1 document whose undocumented member is named like a field only 2.3.0 has does not come back
  (`Clashes.ClashIsLost`): it may even be refused (`Clashes.HelpPhoneIsLostOrRefused`).
* The range check leaves room for 9903 periods at rates of up to 100 percent, and not one more
  (`RangeLimits.TotalsFitExactly`); it does not bound rates tightly enough to keep every product in
  range, which 79227 percent does and 79228 does not (`RangeLimits.ProductsFitExactly`), and a price
  limit over prices that cancel adds one sum it does not cover (`ClampLimits.ClampedSumCanOverflow`,
  though `ClampLimits.ClampedSumFits` where no price is negative).
* Energy that no component prices is missing from what a CDR's `total_energy` is compared with
  (`OwnWork.UnpricedEnergyDiverges`).
* A session without a tax line is published with both totals in 2.2.1 and, taken down from 2.3.0, without the
  inclusive one (`Published.PublishedPricesAgree`).
* Undocumented fields of a tax line (`RoundTrip.LineExtensionsVanish`), a malformed hub identifier
  (`RoundTrip.MalformedHubVanishes`) and a second hub role with another identifier (`RoundTrip.SecondHubVanishes`,
  exactly `RoundTrip.HubsSurvive`) are dropped without a report.
* An object updated in place, so that it moves to the end of the list without changing the total,
  hides another from a crawl (`Crawling.MovedObjectHidesAnother`), and a crawl that failed reports the
  end of the list when asked again (`Crawling.AfterAnErrorComesTheEnd`).

## Model

| member | source | states |
|---|---|---|
| `Decimals.RoundOnGrid` | src/tariffs/policy.rs:97-99 | a rounded amount is a multiple of the unit it is rounded to, for each of the seven strategies |
| `Decimals.RoundIdentity` | src/tariffs/policy.rs:97-99 | an amount that is already such a multiple is left alone, so rounding twice is rounding once |
| `Decimals.RoundMonotone` | src/tariffs/policy.rs:97-99 | rounding keeps the order of amounts |
| `Decimals.RoundError` | src/tariffs/policy.rs:97-99 | rounding moves an amount by less than a unit, and by at most half of one for the nearest strategies |
| `Decimals.RoundSplit` | src/tariffs/policy.rs:97-99 | rounding the parts instead of the whole moves the total by at most one unit |
| `Policy.ReadExactly` | src/tariffs/policy.rs:149 | a whole number of watt-hours or seconds stored as a decimal with an error below 5e-7 is read back exactly |
| `Policy.BlocksCover` | src/tariffs/policy.rs:150-151 | the blocks billed cover what was measured and overshoot it by less than one block |
| `Policy.BlockBillingExact` | src/tariffs/policy.rs:135-153 | such a quantity is billed as the smallest number of blocks that covers it, never one more |
| `Policy.ApplyMonotone` | src/tariffs/policy.rs:135-153 | billing more is never fewer blocks |
| `Policy.ApplyIdempotent` | src/tariffs/policy.rs:135-153 | billing what was billed, even when it comes back with a representation error, changes nothing |
| `Policy.ApplyNotBelow` | src/tariffs/policy.rs:135-153 | block billing bills no less than was measured, to within half a millionth of a counted unit |
| `Lookup.FindFrom` | src/tariffs/engine.rs:931-947 | what is found is the first component for the dimension in the first active element that prices it; nothing is found exactly when no active element prices it |
| `Lookup.ReservedExactlyWhenRestricted` | src/tariffs/engine.rs:949-986 | reserved time is priced exactly by elements that carry the reservation restriction for the session's expiry state, other time only by elements that carry none |
| `Lookup.BoundsTile` | src/tariffs/engine.rs:988-1055 | bounds are half-open: a restriction cut at any energy, duration, date or time of day holds at each moment in exactly one of its two parts |
| `Lookup.DayWindowsTile` | src/tariffs/engine.rs:988-991 | a window of the day and the window from its end to its start, one of them past midnight, cover every minute once |
| `Selection.SelectByPreference` | src/tariffs/engine.rs:677-710 | an active tariff of the wanted type if there is one, else an active untyped one, else any active one; an error exactly when none is active |
| `Selection.SelectTariff` | src/tariffs/engine.rs:655-667 | a period that names its tariff is priced by one with that identifier, compared without case |
| `Choosing.ChosenByPreference` | src/tariffs/engine.rs:677-710 | ad-hoc sessions get the first ad-hoc tariff in force, the others the first made for their profile, then the first without a type, then the first of any; none is chosen exactly when none is in force |
| `Choosing.TariffOfPeriod` | src/tariffs/engine.rs:655-667 | every period of a planned session is priced by the first tariff of the name it gives, compared letter by letter but for ASCII case, or by the one chosen for the session where the period starts |
| `Choosing.PeriodWithoutTariff` | src/tariffs/engine.rs:655-667 | it has none exactly when no tariff has the name, or none is in force at that start |
| `Choosing.OwnTariffPrices` | src/tariffs/engine.rs:683-705 | of a tariff made for the session and one made for other sessions, in either order, the former prices it |
| `Choosing.LimitsOfTheStart` | src/tariffs/engine.rs:669-675 | the limits a priced session is held to are those of the tariff chosen for it where the session starts |
| `Segments.PriceQuantities` | src/tariffs/engine.rs:172-231 | the four quantities of a period, looked up in order, become the segments and notes its specification function gives |
| `Segments.CollectSegments` | src/tariffs/engine.rs:146-270 | the walk over the periods gives the segments and notes of the planned session, and stops at the first period that cannot be planned with that period's error; what is looked up, and when, is `Moments.PricedByFirstHolding` |
| `Segments.PlannedMeaning` | src/tariffs/engine.rs:167-170 | planning succeeds exactly when every period can be planned, and otherwise fails with the first period that cannot |
| `Segments.FlatChargedOnce` | src/tariffs/engine.rs:233-269 | the flat fee is charged once, by the first period that offers one |
| `Segments.FlatNeverCharged` | src/tariffs/engine.rs:233-269 | it is not charged at all when no period offers one |
| `Segments.AuditTrail` | src/tariffs/engine.rs:217-230 | every segment of every run names a component of its tariff whose price, rate and step it carries, with a quantity the period consumed, and is marked reserved exactly when the element carries the fitting reservation restriction |
| `Moments.PricedByFirstHolding` | src/tariffs/engine.rs:838-856 | a quantity of a period is priced exactly when it is not zero and some element prices its dimension and holds where the period starts, given the energy and the seconds of the session before it and the wall clock there; then by the first such element, and otherwise it is noted as unpriced |
| `Moments.FlatByFirstHolding` | src/tariffs/engine.rs:233-269 | a flat fee is offered by the first element that so holds and lists one: for the session's own time, or for reserved time where a period has any and nothing else offers one |
| `Moments.TierOfPeriod` | src/tariffs/engine.rs:838-856 | under a tier and a fallback a period is priced by the tier exactly when the tier holds at its start |
| `Moments.TierOfEnergy` | src/tariffs/input.rs:165-169 | a tier up to an amount of energy holds exactly for the periods before which less was charged, and one from it for the others |
| `Moments.TierOfDuration` | src/tariffs/input.rs:171-177 | tiers by duration go by the whole seconds from the start of the session to the start of the period |
| `Moments.TierOfClock` | src/tariffs/engine.rs:840-845 | tiers by time of day, date and weekday go by the wall clock where the period starts |
| `Moments.UsedStepByStep` | src/tariffs/input.rs:165-177 | nothing is used up at the first period, and from each to the next exactly its own energy and the seconds between their starts |
| `Moments.SpansExactly` | src/tariffs/engine.rs:858-893 | a period is noted as spanning a price change exactly when the tier holds at one of its start and its last second and not at the other, by when it has charged all it does |
| `Moments.TieredEnergy` | src/tariffs/engine.rs:142-275 | the breakdown of a session that charges in every period under a tier up to some energy and a fallback has one energy segment a period, by the tier exactly while less than that was charged before |
| `Quantise.GroupByDimension` | src/tariffs/engine.rs:296-302 | the loop that finds or appends a group gives every dimension present its segments, in order of first appearance |
| `Quantise.StepSizeOncePerSession` | src/tariffs/engine.rs:289-313 | block billing is applied to at most one of the two time dimensions, to parking time whenever any was priced, and never to a flat fee |
| `Quantise.AdjustedSumsToBilled` | src/tariffs/engine.rs:304-332 | the quantities costed in a dimension add up to what is billed, and only the last segment differs from what was measured |
| `Quantise.CostDimension` | src/tariffs/engine.rs:334-357 | the running totals of a dimension are the sums its specification gives, with the notes its segments earn |
| `Quantise.QuantiseAndCost` | src/tariffs/engine.rs:278-360 | every dimension is block billed and costed once, with the notes in order; in which units is `BlockBilling` |
| `BlockBilling.ParkingInSeconds` | src/tariffs/engine.rs:304-325 | whenever parking is priced, n whole seconds of it, measured in hours to half a millionth of a second, are billed as the fewest blocks of the last segment's step that cover n seconds |
| `BlockBilling.TimeInSeconds` | src/tariffs/engine.rs:304-325 | so is charging time, when no parking is priced |
| `BlockBilling.EnergyInWattHours` | src/tariffs/engine.rs:304-325 | energy is billed so in watt-hours |
| `BlockBilling.BilledAsMeasured` | src/tariffs/engine.rs:304-325 | a flat fee, charging time beside parking, a step of zero and everything without block billing are billed as measured, and what is measured is the rounded sum of the segments |
| `Charges.EveryChargeIsAtPriceAndRate` | src/tariffs/engine.rs:337-395 | every published segment states the quantity it was billed, rounded, and is charged that quantity times its price to within less than one component unit, with its tax where prices include it, and its tax is its rate of its cost to within one such unit, or as many as the divisor where tax is taken out of the price |
| `Quantise.IncludedIsExact` | src/tariffs/engine.rs:384-395 | where prices include tax, net and tax are together exactly what the component states |
| `Quantise.SplitIsComponent` | src/tariffs/engine.rs:372-420 | net and tax keep the component precision on every tax basis |
| `Quantise.DimensionCostExact` | src/tariffs/engine.rs:349-357 | the cost and tax of a dimension are exactly the sums of its segments: rounding the sums changes nothing |
| `TaxLines.GroupTaxes` | src/tariffs/engine.rs:448-474 | the loop that finds or appends a tax line groups the costed segments by rate |
| `TaxLines.RawLinesKeepTax` | src/tariffs/engine.rs:448-490 | grouping, dropping empty lines and sorting keep the total tax of the segments |
| `TaxLines.SortIsSorted` | src/tariffs/engine.rs:475-476 | the lines are in order of their rate, with the same lines as before |
| `TaxLines.PresentTaxes` | src/tariffs/engine.rs:602-652 | the in-place pass over the tax lines gives the published lines and the note its specification gives; what those lines state is `TaxBases`, `TaxLines.PresentedSum` and `TaxLines.ApportionmentBound` |
| `TaxLines.PresentedSum` | src/tariffs/engine.rs:589-652 | the published lines sum to exactly the tax owed, whatever was clamped |
| `TaxLines.PresentedIsCurrency` | src/tariffs/engine.rs:640-650 | every published amount is a presentable one |
| `TaxLines.ApportionmentBound` | src/tariffs/engine.rs:638-651 | every line but the last is within one rounding of its exact share, and the last of n within n-1 roundings of its own |
| `Finish.ApplyLimits` | src/tariffs/engine.rs:489-518 | applying the minimum and then the maximum gives min(max(round(raw), round(min)), round(max)) before tax, the same of the after-tax bounds, and the limit that decided |
| `Finish.DecideTotals` | src/tariffs/engine.rs:520-574 | the recomputed and held totals, the base ratio and the notes are those of the closed forms |
| `Finish.FinishBreakdown` | src/tariffs/engine.rs:442-587 | grouping, limits, holding and apportioning give the finished breakdown of the specification |
| `Finish.TaxLinesAccountForTheTotals` | src/tariffs/engine.rs:442-587 | the finished tax lines sum to exactly the difference of the two totals, which are in order and presentable |
| `Finish.PreTaxBounds` | src/tariffs/engine.rs:495-518 | the pre-tax total never exceeds the rounded maximum, reaches the rounded minimum exactly when the rounded limits do not cross, and otherwise is the maximum |
| `Finish.ClampKeepsTheRate` | src/tariffs/engine.rs:520-543 | a clamp without an after-tax bound leaves tax within one rounding of the raw tax scaled by the clamp |
| `Finish.ScaledVatKeepsShare` | src/tariffs/engine.rs:525-541 | for a positive raw total the scaled tax has the same share of the clamped base as the raw tax had of the raw one |
| `Finish.AfterTaxMinimum` | src/tariffs/engine.rs:500-543 | the after-tax minimum holds unless the maximum decides the total; then it holds exactly when the after-tax maximum or the pre-tax total reaches it, or, where the maximum names no after-tax bound, exactly when the rounded maximum does, by itself or with the tax scaled down to it |
| `Finish.MaximumUndoesAfterTaxMinimum` | src/tariffs/engine.rs:530-543 | a maximum without an after-tax bound can undo an after-tax minimum: a concrete tariff |
| `Finish.TotalsNonNegative` | src/tariffs/engine.rs:495-574 | a session that meters no negative amount under limits of zero or more costs nothing negative |
| `Price.PriceSession` | src/tariffs/engine.rs:142-275 | pricing end to end gives the breakdown, or the error, of the specification |
| `Price.EveryBreakdownAddsUp` | src/tariffs/breakdown.rs:150-152 | for every session, tariff list and policy that can be priced the published tax lines sum to exactly the difference of the totals, and the inclusive total is not below the exclusive one |
| `TaxBases.BasesMoveWithTheTotal` | src/tariffs/engine.rs:593-652 | a finished breakdown publishes one line for each raw one, whose base is, within one rounding, what the segments of its rate cost, in the proportion the pre-tax total has to all that was metered where a limit was applied; tax that no line accounts for is one line on the whole total |
| `TaxBases.PricedBasesMove` | src/tariffs/engine.rs:593-652 | so for every session that can be priced |
| `TaxBases.BasesAddUpToTheTotal` | src/tariffs/engine.rs:593-652 | when every segment has a line the bases add up to the pre-tax total within one rounding a line, and that of the total itself where no limit was applied |
| `TaxBases.RatesPublished` | src/tariffs/engine.rs:448-476 | unless tax is owed that no line accounts for, a priced session has a line for a rate exactly when one of its segments is taxed at that rate, if only at zero percent, none without a rate, and all in order of rate |
| `Notes.NotesOfThePeriods` | src/tariffs/engine.rs:151-196 | a breakdown notes periods out of order exactly at the first that does not start after the one before it, and something unpriced exactly where a period starts that has a quantity no element holding there prices |
| `Notes.NotesOfAMoment` | src/tariffs/engine.rs:151-231 | no other note names a moment: those that do are the ones the periods earn |
| `Notes.NotesOfTheBasis` | src/tariffs/engine.rs:384-420 | it notes mixed tax bases exactly when two segments differ in theirs, included tax without a rate exactly when a segment has that, and an ignored rate exactly when a segment that no tax applies to names one; its own basis is that of every segment, or mixed |
| `Notes.NotesOfTheTotals` | src/tariffs/engine.rs:489-587 | it notes a clamp exactly when a limit decided a total, a negative tax exactly when none did and the rounded total with tax is below the one without, and unattributed tax exactly when its totals differ and its segments were taxed nothing together |
| `Price.RawTotalIsStated` | src/tariffs/engine.rs:337-346 | where prices include tax, the raw net and raw tax together are exactly what the components state for the billed segments |
| `Price.GrossConserved` | src/tariffs/engine.rs:489-574 | without limits the inclusive total is the rounding of what the components state, exactly when the tax they describe is not negative after rounding |
| `Gross.GrossSessionConserved` | src/tariffs/engine.rs:142-275 | so it is for every session priced by tax-included tariffs with prices and rates of zero or more, whatever the mix of rates, when no quantity can be billed below zero: under block billing none between zero and half a millionth of a counted unit, without it none below zero |
| `Gross.TinyQuantitiesGoBelowZero` | src/tariffs/engine.rs:304-332 | two smaller quantities, billed as nothing, leave the last one below zero |
| `Gross.GrossSessionNotConserved` | src/tariffs/engine.rs:142-275 | and then it is not: a session with prices, rates and quantities of zero or more whose components state nothing is priced at 50, the total before a tax of -50 |
| `OneUnit.OneUnitEnough` | src/tariffs/engine.rs:384-395 | dividing whole units before rounding moves the quotients of a split by one unit at most, for every strategy, where the divisor is above 2 or 2 - 1/Q for a whole Q (nearest strategies, and 2 unless ties go to even), whole (directed ones), or -1 or less (one-sided ones) |
| `OneUnit.OneUnitFails` | src/tariffs/engine.rs:384-395 | by any other divisor some amount split in two equal halves moves by two units or more |
| `Splitting.SegmentSplit` | src/tariffs/engine.rs:337-346 | for every rounding strategy and every rate, splitting a segment moves its cost by at most its slack: one component unit, or, where tax is taken out of the price at a rate for which that is not enough, as many as the divisor and the strategy allow |
| `Splitting.OneUnitExactly` | src/tariffs/engine.rs:384-395 | for every policy and rate, no split of a segment whose tax is taken out moves its cost by more than one unit exactly when the divisor is one of those |
| `Splitting.SlackIsReached` | src/tariffs/engine.rs:384-395 | at every rate of zero or more for which one unit is not enough some split moves the cost by exactly two, so the slack is the best bound |
| `Splitting.UsualRates` | src/tariffs/engine.rs:384-395 | under the default policy one unit is enough at 0, 50 and 100 percent and beyond, and not at 20 and 25 |
| `Splitting.TwoUnitsSuffice` | src/tariffs/engine.rs:384-395 | that is at most two units for any rate of zero or more |
| `Splitting.GrossSplit` | src/tariffs/engine.rs:384-395 | net and tax together move by at most one unit where prices include tax |
| `Splitting.TwoUnitsAreReached` | src/tariffs/engine.rs:384-395 | a concrete split at 25% that moves the cost by two units |
| `Splitting.SplittingAStretch` | src/tariffs/engine.rs:167-231 | splitting one period of a planned session keeps every measured and billed quantity and moves each dimension's cost by the slack of the segments split |
| `Splitting.SplittingAPeriod` | src/tariffs/engine.rs:142-358 | so it is for a session whose period is replaced by two, when every lookup finds the same component: for all seven strategies and every rate |
| `Lint.LintComponents` | src/tariffs/lint.rs:190-274 | the loop over the components of an element gives their findings and the dimensions it has seen |
| `Lint.LintRestrictions` | src/tariffs/lint.rs:347-429 | the pass over the restrictions of an element gives their findings |
| `Lint.LintTariff` | src/tariffs/lint.rs:173-345 | the linter gives every finding of its specification, in document order |
| `Lint.MeaningOfFindings` | src/tariffs/lint.rs:197-220 | duplicates, unreachable components and reservation dimensions are reported exactly where an earlier component, an earlier unrestricted element or a reservation restriction makes them so |
| `Lint.MeaningOfImpossible` | src/tariffs/lint.rs:373-400 | impossible bounds on energy, duration or date are reported exactly when they exclude everything |
| `Lint.LintIsSound` | src/tariffs/lint.rs:197-220 | the components those findings call dead are selected by none of the lookups the engine makes, in any context |
| `LintRuns.EverySegmentIsSelected` | src/tariffs/engine.rs:167-269 | every segment of every run, flat fees included, comes from one of those lookups, for a flat fee or a quantity of its period that is not zero |
| `LintRuns.NoDeadSegment` | src/tariffs/lint.rs:197-220 | so no segment of any run is priced by a component that is called dead |
| `LintRuns.NoDeadCharge` | src/tariffs/lint.rs:197-220 | and nothing in any published breakdown is |
| `Lint.ClaimedSelectedOnlyForReservations` | src/tariffs/lint.rs:210-220 | a component behind an unrestricted element is selected only for reserved time, by an element that describes reservation costs |
| `Lint.ClaimedSelectedExactly` | src/tariffs/lint.rs:210-220 | and exactly when the lookup is for reserved time, its element is the first active one that describes reservation costs and prices its dimension, and it is the first in it |
| `Lint.UnreachableReservationIsReached` | src/tariffs/lint.rs:210-220 | so the finding claims too much for such an element: a concrete tariff where it prices reserved time |
| `Lint.MeaningOfCrossedMeasures` | src/tariffs/lint.rs:378-387 | bounds on power or current are reported impossible exactly when they cross |
| `Lint.CrossedPowerHolds` | src/tariffs/lint.rs:378-387 | an element reported for its power holds at the start of a period exactly when its other restrictions do and the measured power spread from below the maximum to the minimum or above |
| `Lint.CrossedCurrentHolds` | src/tariffs/lint.rs:378-387 | so it is for current |
| `Lint.ImpossibleElementsAreReached` | src/tariffs/lint.rs:378-387 | so the finding claims too much: concrete tariffs and readings for which it is reported and the component is selected |
| `Lint.LimitsHoldUnlessReported` | src/tariffs/lint.rs:311-322 | unless crossing limits are reported every pre-tax total is within the rounded limits; otherwise it is the rounded maximum |
| `LintLaws.MeaningOfNeverActive` | src/tariffs/lint.rs:331-342 | a tariff is reported never active exactly when it has both dates and is active at no moment |
| `LintLaws.NeverActivePricesNothing` | src/tariffs/lint.rs:331-342 | so a session whose periods name no tariff has no price under tariffs that all are |
| `LintLaws.MeaningOfNothingPriced` | src/tariffs/lint.rs:289-297 | a tariff is reported to price nothing by use exactly when it lists neither energy nor time, and no lookup then finds either, in any context |
| `LintLaws.MeaningOfUnsplittable` | src/tariffs/lint.rs:299-309 | included tax is reported as unsplittable exactly when no component states a rate, and what any lookup finds is then charged whole, without tax |
| `LintLaws.MeaningOfCrossedAfterTaxes` | src/tariffs/lint.rs:323-330 | after-tax limits are reported exactly when both are given and no amount is within both |
| `LintLaws.MeaningOfBounds` | src/tariffs/lint.rs:371-400 | bounds on energy, power, current, duration and date are reported impossible, each pair at its own field, exactly when both are given and no value meets them |
| `LintLaws.MeaningOfWholeDay` | src/tariffs/lint.rs:401-411 | a window is reported as the whole day exactly when both ends are given and no minute is outside it, and leaving the ends out then changes no lookup |
| `LintLaws.MeaningOfEmpty` | src/tariffs/lint.rs:353-361 | restrictions are reported empty exactly when nothing is set in them, and the element then holds whenever it would without them |
| `LintLaws.MeaningOfSteps` | src/tariffs/lint.rs:222-241 | a zero step is reported exactly for a component with a unit, whose quantity is then billed as measured, and a step above 1 on a flat fee, which is never billed in blocks |
| `LintLaws.MeaningOfRates` | src/tariffs/lint.rs:255-278 | a rate is reported implausible exactly outside 0 to 100, and contradictory exactly where no tax applies; that one taxes nothing |
| `LintRuns.MeaningOfUnusedStep` | src/tariffs/lint.rs:242-252 | a step size is reported unused exactly when it is a charging-time one above 1 and the tariff prices parking anywhere |
| `LintRuns.StepIsAppliedUnlessParkingIsPriced` | src/tariffs/engine.rs:289-313 | over the planned periods of any session it is the step of the component the last charging time names, and it is applied exactly when no period has parking time that something prices; otherwise the time is billed as measured |
| `LintRuns.UnusedStepIsUsed` | src/tariffs/lint.rs:242-252 | so the finding claims too much: a concrete tariff where it is reported and a session of half an hour is billed as an hour |
| `Verify.SplitTimeCost` | src/tariffs/verify.rs:294-306 | the loop splits the cost of the TIME segments by their reservation mark |
| `Verify.VerifyCdrWithin` | src/tariffs/verify.rs:224-280 | the divergences listed are exactly the figures compared that are out by more than the tolerance, each once, in order; when each of them is listed is `OwnWork.SessionTimeDiverges`, `OwnWork.CostsDiverge` and `OwnWork.UnpricedEnergyDiverges` |
| `OwnWork.AgreesExactly` | src/tariffs/verify.rs:224-280 | a CDR agrees exactly when every figure it is compared on is within the tolerance |
| `OwnWork.SessionTimeDiverges` | src/tariffs/verify.rs:273-286 | the total time diverges exactly when 3600 times the hours stated are further from the whole seconds between the two timestamps than 3600 times the tolerance |
| `OwnWork.CostsDiverge` | src/tariffs/verify.rs:235-262 | each of the five costs diverges exactly when it is broken out and misstates its own dimension, or its part of TIME, but for the three a flat fee may belong to when one stands beside parking or reserved time: those never do |
| `OwnWork.ReportedInOrder` | src/tariffs/verify.rs:49-78 | divergences are reported in the fixed order of the figures, the totals first, then the costs, then the volumes, and each figure once |
| `OwnWork.FiguresArePublished` | src/tariffs/verify.rs:266-269 | the cost and the measure each dimension is compared with are those the breakdown publishes for it, and zero for one it does not list |
| `OwnWork.TimeCostPartitioned` | src/tariffs/verify.rs:288-306 | charging and reserved time partition what the TIME dimension costs |
| `OwnWork.PublishedPriceAddsUp` | src/tariffs/breakdown.rs:400-420 | the price a breakdown is published as states its inclusive total |
| `Published.PublishedPricesAgree` | src/tariffs/breakdown.rs:400-432 | taking the 2.3.0 price of a session down gives exactly its 2.2.1 price when it has a tax line; without one it leaves the inclusive total out, which is then the exclusive one; and exactly the tax lines are reported lost |
| `Published.PublishedTotalsSurvive` | src/tariffs/breakdown.rs:400-432 | the 2.2.1 price taken up states the same two totals |
| `OwnWork.OwnWorkVerifies` | src/tariffs/verify.rs:224-280 | a CDR filled in from the breakdown of any session, its total time such that 3600 times it is the seconds between its timestamps, has no divergence at any tolerance of zero or more |
| `OwnWork.MeasuredAmount` | src/tariffs/engine.rs:304-306 | the measure published for energy, time or parking is the rounded sum of what the periods consumed of it as far as some component prices it: charging and reserved hours together under TIME, parking hours under PARKING_TIME |
| `OwnWork.MeasuredEnergy` | src/tariffs/verify.rs:265-269 | the measured energy is the rounded energy of the periods that some component prices |
| `OwnWork.UnpricedEnergyDiverges` | src/tariffs/verify.rs:265-269 | a CDR that states the energy of all its periods is reported inconsistent exactly when leaving the unpriced ones out moves the rounded figure by more than the tolerance |
| `OwnWork.UnpricedSessionDiverges` | src/tariffs/verify.rs:265-269 | it is for ten kilowatt-hours under a tariff without elements |
| `Range.ApplyWithin` | src/tariffs/policy.rs:135-153 | block billing with a 32-bit step moves a quantity by at most 4.3 million units |
| `Range.EveryProductFits` | src/tariffs/engine.rs:339-382 | with rates of 0 to 79227 percent every product a segment is costed by is in range, for input the range check accepts |
| `Range.EverySumFits` | src/tariffs/engine.rs:334-358 | with at most 9903 periods so is every sum of costs, of taxes and of both, over any part of the segments |
| `Range.EnergySumsFit` | src/tariffs/input.rs:167-169 | the energy charged before any period is in range |
| `Range.QuantitySumsFit` | src/tariffs/engine.rs:304-306 | so is every sum of measured quantities |
| `RangeLimits.TotalsFitExactly` | src/tariffs/engine.rs:754-805 | every accepted session of n periods adds up to something a decimal holds exactly when n is at most 9903 |
| `RangeLimits.ProductsFitExactly` | src/tariffs/engine.rs:372-382 | every stated amount of every accepted session can be multiplied by its rate exactly when rates are bounded by a whole percentage of at most 79227 |
| `RangeLimits.RatesNeedATighterBound` | src/tariffs/engine.rs:788-790 | the check bounds a rate only at 1e12 percent, and one accepted period at that rate is out of range |
| `ClampLimits.ClampedSumFits` | src/tariffs/engine.rs:520-541 | for every session with prices and quantities of zero or more, rates of 0 to 100 percent and at most 9903 periods the scaled tax and the sum a price limit adds are in range, below 4e16 where no quantity is billed below zero |
| `ClampLimits.ClampedSumCanOverflow` | src/tariffs/engine.rs:520-541 | with a negative price it need not be: an accepted session that comes to 1.00 before tax, raised to a trillion |
| `ClampLimits.RunningSumStaysNearOwed` | src/tariffs/engine.rs:638-651 | while tax lines of zero or more are apportioned the running sum stays within what is owed by one rounding a line |
| `ClampLimits.RunningSumsFit` | src/tariffs/engine.rs:638-651 | so for such a session every running sum, and what is left for the last line, is in range |
| `Convert.Lossy.Record` | src/convert/mod.rs:103-105 | recording appends one loss |
| `Convert.Lossy.Absorb` | src/convert/mod.rs:110-114 | absorbing appends every loss of a nested report, in order, in the coordinates of the enclosing object |
| `Convert.DowngradePrice` | src/convert/v2_2_1_v2_3_0.rs:58-78 | folding the tax lines of a price gives its 2.2.1 form, whose amounts are those of `RoundTrip.PriceAmountsSurvive`, and the report of its specification |
| `Convert.UpgradeEvse` | src/convert/v2_2_1_v2_3_0.rs:242-275 | an EVSE goes up connector by connector |
| `Convert.DowngradeEvse` | src/convert/v2_2_1_v2_3_0.rs:279-327 | an EVSE goes down with its own losses first and each connector's under its index |
| `Convert.UpgradeLocation` | src/convert/v2_2_1_v2_3_0.rs:331-377 | a location goes up EVSE by EVSE |
| `Convert.DowngradeLocation` | src/convert/v2_2_1_v2_3_0.rs:381-434 | a location goes down with its own losses first and each EVSE's under its index |
| `Convert.UpgradeCdr` | src/convert/v2_2_1_v2_3_0.rs:768-816 | a CDR goes up tariff by tariff and price by price |
| `Convert.DowngradeCdr` | src/convert/v2_2_1_v2_3_0.rs:820-884 | a CDR goes down with the losses of its tariffs, its total, its five cost fields and its booking, in that order |
| `Convert.UpgradeCredentials` | src/convert/v2_2_1_v2_3_0.rs:954-984 | hub roles leave the list and the first of them becomes the hub identifier, without a loss |
| `RoundTrip.PriceRoundTrip` | src/convert/v2_2_1_v2_3_0.rs:26-79 | a 2.2.1 price comes back unchanged, and nothing is reported |
| `RoundTrip.LocationRoundTrip` | src/convert/v2_2_1_v2_3_0.rs:330-435 | a 2.2.1 location crosses up and down unchanged with both reports empty |
| `RoundTrip.TariffRoundTrip` | src/convert/v2_2_1_v2_3_0.rs:441-540 | so does a tariff |
| `RoundTrip.SessionRoundTrip` | src/convert/v2_2_1_v2_3_0.rs:887-942 | so does a session |
| `RoundTrip.CdrRoundTrip` | src/convert/v2_2_1_v2_3_0.rs:767-885 | so does a CDR |
| `RoundTrip.FoldedLinesAre` | src/convert/v2_2_1_v2_3_0.rs:61-73 | exactly the tax lines whose detail is folded away are reported, each at its index |
| `RoundTrip.PriceClean` | src/convert/v2_2_1_v2_3_0.rs:58-78 | a price is reported clean exactly when it has no tax line, or one plain VAT line |
| `RoundTrip.PriceComesBack` | src/convert/v2_2_1_v2_3_0.rs:26-79 | a 2.3.0 price comes back exactly when its report is empty and no tax line has undocumented fields |
| `RoundTrip.LineExtensionsVanish` | src/convert/v2_2_1_v2_3_0.rs:61-73 | undocumented fields of a tax line are dropped without a report: a concrete price |
| `RoundTrip.LocationComesBack` | src/convert/v2_2_1_v2_3_0.rs:330-435 | a 2.3.0 location comes back exactly when its report is empty |
| `RoundTrip.TariffComesBack` | src/convert/v2_2_1_v2_3_0.rs:441-540 | a 2.3.0 tariff comes back exactly when its report is empty |
| `RoundTrip.SessionComesBack` | src/convert/v2_2_1_v2_3_0.rs:887-942 | a 2.3.0 session comes back exactly when its report is empty and no tax line of its cost has undocumented fields |
| `RoundTrip.CdrComesBack` | src/convert/v2_2_1_v2_3_0.rs:767-885 | a 2.3.0 CDR comes back exactly when its report is empty and no tax line of any of its costs has undocumented fields |
| `RoundTrip.PriceAmountsSurvive` | src/convert/v2_2_1_v2_3_0.rs:58-78 | reported losses or not, a 2.3.0 price goes down with its amount before tax and the sum of every tax on top of it, and comes back with both |
| `RoundTrip.SessionAmountsSurvive` | src/convert/v2_2_1_v2_3_0.rs:887-942 | so does the total of a session |
| `RoundTrip.CdrAmountsSurvive` | src/convert/v2_2_1_v2_3_0.rs:767-885 | so do all six costs of a CDR, each under its own field |
| `RoundTrip.LimitsSurvive` | src/convert/v2_2_1_v2_3_0.rs:441-540 | the limits of a tariff come back whatever else it loses |
| `RoundTrip.RoleRoundTrip` | src/convert/v2_2_1_v2_3_0.rs:85-130 | every role but the hub's crosses unreported under the same name and comes back; the hub's becomes OTHER and is reported |
| `RoundTrip.ClientInfoRoundTrip` | src/convert/v2_2_1_v2_3_0.rs:1049-1085 | hub client info comes back unless it is that of a hub, which is reported |
| `RoundTrip.CredentialsRoundTrip` | src/convert/v2_2_1_v2_3_0.rs:948-1045 | 2.2.1 credentials without a hub role come back as they were, with nothing reported |
| `RoundTrip.HubPartySurvives` | src/convert/v2_2_1_v2_3_0.rs:1006-1031 | the party of a hub role is read back from the identifier exactly when its two parts are two and three characters long, all printable |
| `RoundTrip.MalformedHubVanishes` | src/convert/v2_2_1_v2_3_0.rs:1006-1031 | a hub identifier that is not five printable characters gives no HUB role and no loss |
| `RoundTrip.HubsSurvive` | src/convert/v2_2_1_v2_3_0.rs:954-984 | without a loss reported, every hub role's identifier survives going up exactly when all hub roles name the same one |
| `RoundTrip.OtherRolesStay` | src/convert/v2_2_1_v2_3_0.rs:959-975 | going up keeps exactly the entries that are not hub roles, in order, each with the name of its role |
| `RoundTrip.SecondHubVanishes` | src/convert/v2_2_1_v2_3_0.rs:954-984 | of two hub roles with different identifiers the second is dropped without a loss |
| `Wire.BridgePage` | src/convert/wire.rs:244-252 | a page is translated element by element, its losses under each index, and the first element that fails is the answer |
| `Wire.Bridge` | src/convert/wire.rs:233-256 | a document is returned as it is for its own version or when null, translated as a page or as one object, or refused |
| `Wire.FirstFailureIsTheAnswer` | src/convert/wire.rs:247-248 | an element that fails decides the page whatever follows it |
| `Bridging.UnsupportedExactly` | src/convert/wire.rs:78-86 | an object is refused as unsupported exactly between versions that are not bridgeable |
| `Bridging.ListIsExact` | src/convert/wire.rs:267-293 | the divergent fields are exactly those one version or the other reads as its own |
| `Shapes.RewrittenTwice` | src/v2_3_0/locations.rs:45-72 | a document that was read and written, with null and empty fields left out at every depth, is read and written again as it is |
| `Shapes.PatchRewritten` | src/convert/wire.rs:258-302 | patching what was written of a document and writing it again gives what patching the document itself gives |
| `Bridging.PatchCommutes` | src/convert/wire.rs:258-302 | patching and then bridging is bridging, patching and writing the shared fields, for every kind of object, every pair of versions and every patch outside the divergent fields; the bridge accepts the patched document exactly when its bridged form can be read, with the same losses |
| `Bridging.PatchCommutesExactly` | src/convert/wire.rs:258-302 | the two agree to the letter exactly when the patch writes no empty list and no null that writing leaves out, at any depth, other than to remove a member |
| `Bridging.EmptyListDoesNotCommute` | src/convert/wire.rs:258-302 | a patch that empties a list such as the images of a location does not: one way it leaves an empty list, the other way none |
| `Bridging.ImagesAreLeftOut` | src/v2_3_0/locations.rs:109-112 | the images of a location are such a list |
| `Bridging.OutsideListNothingMoves` | src/convert/wire.rs:258-265 | a crossing keeps every undocumented field outside the list as it is, and leaves out or writes a shared one by what was read of it |
| `Bridging.NothingMovesExactly` | src/convert/wire.rs:258-265 | no field outside the list moves at all exactly when every shared field is as it is written |
| `Bridging.NewFieldNeverCommutes` | src/convert/wire.rs:267-293 | a patch of any field that only 2.3.0 has never commutes with the way down, whatever it writes |
| `Bridging.DivergentPatchDoesNotCommute` | src/convert/wire.rs:258-302 | for the capabilities of any connector the bridge accepts the patched document, drops them and reports them |
| `Json.MergeOutside` | src/transport/patch.rs:171-187 | a merge patch that writes none of a set of members acts on the others alone |
| `Json.MergeBeside` | src/transport/patch.rs:171-187 | members laid under others can be put there before or after such a patch |
| `Json.MergedAt` | src/transport/patch.rs:171-187 | at every depth a merge patch leaves what it does not mention, removes what it nulls and writes the values it gives |
| `Json.MergedTwice` | src/transport/patch.rs:171-187 | applying a merge patch once more changes nothing |
| `Clashes.ComesBackAsWrittenExactly` | src/convert/wire.rs:183-220 | a 2.2.1 location, EVSE, connector, tariff, session or CDR that 2.2.1 can read crosses to 2.3.0 and back with both reports empty as what 2.2.1 writes of it exactly when it bears no name only 2.3.0 spells out, given that the objects in it bear none |
| `Clashes.ComesBackExactly` | src/convert/wire.rs:183-220 | it is the document it was exactly when, besides, it already was as 2.2.1 writes it |
| `Clashes.ClashIsLost` | src/convert/wire.rs:183-220 | a member of such a name is never in what comes back, whatever it held, for any kind of object |
| `Clashes.HelpPhoneIsLostOrRefused` | src/convert/v2_2_1_v2_3_0.rs:330-435 | so an undocumented help_phone on a location crosses without a word, and on the way back is reported as lost when it is a text and has the document refused when it is anything else but null |
| `Clashes.TripsSettle` | src/convert/wire.rs:183-220 | a document that comes back as 2.2.1 writes it is given back as it is by every further trip |
| `Documents.NewPriceReadsBack` | src/convert/wire.rs:183-220 | a 2.3.0 price is read back as it was written |
| `Documents.OldLocationReadsBack` | src/convert/wire.rs:183-220 | a 2.2.1 location is read back as it was written, to its connectors |
| `Documents.NewLocationReadsBack` | src/convert/wire.rs:183-220 | a 2.3.0 location is read back as it was written, to its connectors |
| `Documents.OldCdrReadsBack` | src/convert/wire.rs:183-220 | a 2.2.1 CDR is read back as it was written, with its tariffs and prices |
| `Documents.NewCdrReadsBack` | src/convert/wire.rs:183-220 | a 2.3.0 CDR is read back as it was written, with its tariffs and prices |
| `Documents.OldCredentialsReadsBack` | src/convert/wire.rs:183-220 | 2.2.1 credentials are read back as they were written |
| `Documents.NewCredentialsReadsBack` | src/convert/wire.rs:183-220 | 2.3.0 credentials are read back as they were written |
| `Documents.OldClientInfoReadsBack` | src/convert/wire.rs:183-220 | 2.2.1 hub client info is read back as it was written |
| `Documents.NewClientInfoReadsBack` | src/convert/wire.rs:183-220 | 2.3.0 hub client info is read back as it was written |
| `Crossings.CdrCostsGoDown` | src/convert/v2_2_1_v2_3_0.rs:819-885 | every cost a 2.3.0 CDR document states goes down under its own name: the amount before tax, and with every tax on top when there is any; an undocumented member of the same name stands instead |
| `Crossings.CdrCostsGoUp` | src/convert/v2_2_1_v2_3_0.rs:767-816 | every cost of a 2.2.1 CDR document goes up under its own name: the amount without VAT, and one tax line of what VAT adds |
| `Crossings.SessionCostCrosses` | src/convert/v2_2_1_v2_3_0.rs:887-942 | so does the cost of a session, in either direction |
| `Crossings.TariffLimitsGoDown` | src/convert/v2_2_1_v2_3_0.rs:480-540 | the lower and the upper limit of a 2.3.0 tariff document go down as they are, each under its own name |
| `Crossings.TariffLimitsGoUp` | src/convert/v2_2_1_v2_3_0.rs:441-477 | those of a 2.2.1 one go up so, beside a statement that prices include no tax |
| `Crossings.RolesCross` | src/convert/v2_2_1_v2_3_0.rs:1049-1080 | the role of hub client info crosses under its name, but HUB goes up as OTHER |
| `Crossings.HubGoesUp` | src/convert/v2_2_1_v2_3_0.rs:948-984 | a 2.2.1 credentials document goes up with the country code and the party of its first HUB role as its hub identifier, and without one exactly when it has no such role |
| `Crossings.HubGoesDown` | src/convert/v2_2_1_v2_3_0.rs:987-1040 | an identifier of five printable characters goes down as one more role at the end, a HUB role of that country code and party with the business details of the first role |
| `LossReports.PageReport` | src/convert/wire.rs:242-252 | the report of a page of locations on the way down holds exactly the present fields that 2.2.1 lacks, of the locations, their EVSEs and their connectors, each under a pointer that resolves in the page |
| `LossReports.PageReportsOnce` | src/convert/wire.rs:242-252 | and names each of them once |
| `LossReports.LocationReport` | src/convert/v2_2_1_v2_3_0.rs:380-435 | the same of one location |
| `LossReports.EvseReport` | src/convert/v2_2_1_v2_3_0.rs:278-328 | the same of one EVSE |
| `LossReports.ListReport` | src/convert/mod.rs:107-114 | a converted list reports each element's losses under the element's index, and no others |
| `CostReports.CostPageReport` | src/convert/wire.rs:242-252 | the report of a page of tariffs, sessions or CDRs on the way down holds exactly what the documents say and 2.2.1 cannot, each under the index of its document: any statement about tax but NO, preauthorised amounts, booking identifiers, and every tax line of a price that is not a single plain line of VAT |
| `CostReports.CdrReport` | src/convert/v2_2_1_v2_3_0.rs:820-884 | the same of one CDR, down to the tariffs in it and its six costs |
| `CostReports.PriceReport` | src/convert/v2_2_1_v2_3_0.rs:58-78 | the same of one price |
| `Text.SplitJoin` | src/client/paging.rs:244-255 | delimited pieces that do not hold the delimiter are read back from the text they are joined to |
| `Text.NumeralValue` | src/client/paging.rs:253 | a number is read back from its decimal numeral |
| `Paging.OffsetRoundTrip` | src/client/paging.rs:230-255 | the offset written to any URL is the offset read from it |
| `Paging.OtherFiltersSurvive` | src/client/paging.rs:244-255 | replacing the offset keeps the base and every other parameter in order, and writes exactly one offset |
| `Paging.PageStream.Fetch` | src/client/paging.rs:172-203 | a fetch that fails leaves the crawl where it was; one that succeeds takes the page or goes back by one, as its specification says |
| `Paging.PageStream.Next` | src/client/paging.rs:115-131 | the loop that fetches until there is something to hand out gives the object, the end or the error of the specification |
| `Paging.PageStream.CollectAll` | src/client/paging.rs:138-144 | collecting gives the list, and the state, of the specification |
| `Paging.NextUsesUp` | src/client/paging.rs:115-131 | each call ends: an object handed out used up a page or an object of the buffer, and no more than the allowed pages are ever fetched |
| `Paging.CrawlEnds` | src/client/paging.rs:115-144 | against any peer at all a crawl ends within the allowed pages and at most one failed request, having counted exactly what it handed out |
| `Crawling.CrawlIsSafe` | src/client/paging.rs:172-203 | if between any two requests the list only grows at its end or loses exactly one object, a crawl from the start that ends has yielded every object of the list as last seen, so every object that was there throughout; and if no object is listed twice at once, it repeated no more objects than it made corrections |
| `Crawling.TakenPage` | src/transport/pagination.rs:240-251 | taking a page keeps everything before the position delivered, and on lists of distinct objects the balance of repeats and corrections, objects that left the list counted as able to come back |
| `Crawling.RefetchedPage` | src/transport/pagination.rs:240-251 | going back by one after a total that shrank keeps both |
| `Crawling.ListServerServes` | src/testkit/stores.rs:105-129 | a server that pages through a list by offset and limit is one the crawl is safe against |
| `Crawling.StillListEvolves` | src/testkit/stores.rs:105-129 | so is a list that does not change |
| `Crawling.MovedObjectHidesAnother` | src/client/paging.rs:16-29 | the condition is needed: when one object moves to the end between two requests, another that was there throughout is not yielded and no correction is made |
| `Crawling.AfterAnErrorComesTheEnd` | src/client/paging.rs:115-131 | after an error the next call reports the end of the list |

## Left out

- Decimal representation: amounts are exact reals, so the 28 significant digits of a decimal, the rounding of products and quotients to them, and the fallbacks of checked operations are not modelled; quantities carry an explicit representation error where it matters (`Policy.BlockBillingExact`), and range is `Range` and `RangeLimits`.
- Text for people: the wording of notes, findings, losses, errors and `because` is not modelled; codes, places, pointers and order are.
- Time zones: local time, date and weekday come from a function of the instant that may fail; instants are unbounded, and a timestamp that cannot be represented is not an error here.
- Restrictions by booking, which neither the engine's matching nor the linter's emptiness check reads, are not modelled.
- Building a session from a CDR or a charging session (`src/tariffs/input.rs:197-340`) is only field mapping.
- The values of plain fields: a field that holds a plain value is read when it is a string, a number or a boolean, and is then written as it is. Its type, length and enum spellings, and the rewriting of numbers, strings and dates to one form, are not modelled, so documents are compared with plain values already in that form.
- The items of the lists that only 2.3.0 has (`parking_places`, `parking`, `capabilities`, `accepted_service_providers`) are not read further: they are new on the way up and gone on the way down.
- The `bookings` and `payments` features are taken as on, so `booking_id` and `preauthorize_amount` are fields of their own.
- Tokens, authorisation and the two command bodies are read and written with their shared fields alone, as their conversions change no field; publish tokens, CDR tokens and CDR locations inside other objects likewise.
- Credentials with a hub role are not inverted: it moves to `hub_party_id` and its business details are borrowed on the way back, by design.
- Which object an endpoint carries (`src/convert/wire.rs:314-368`) is a table of path lengths.
- The checks a server adds when it applies a patch (`src/transport/patch.rs:127-153`) are not modelled; the merge itself is, as a function.
- HTTP, routing, retries, registration, the hub, the client modules, the command line and the mock peer are input and output with no deep invariant of their own.
- URLs are strings as the crawl reads them; percent-encoding and URL syntax are not modelled.
- A page that a crawl bridges out of an older version before reading it (`src/client/paging.rs:206-223`) is one of the answers a peer may give.
- Range.EverySumFits: covers the sums over segments; the sums of a clamp and of apportioned tax lines are bounded in `ClampLimits.ClampedSumFits` and `ClampLimits.RunningSumsFit` for prices and quantities that are not negative.
- Crawling.CrawlIsSafe: a list that changes in any other way between two requests is not covered, and `Crawling.MovedObjectHidesAnother` shows why.
- Splitting.SplittingAPeriod: takes as given that every lookup finds the same component in both halves; one that does not is priced differently by design.
- ClampLimits.RunningSumsFit: takes every share of the tax as the exact quotient; where the product of a line and what is owed is out of range the engine charges the line all that is owed, as one of the fallbacks that are not modelled.
- Clashes.ComesBackAsWrittenExactly: takes as given that the objects inside the document (EVSEs, connectors, tariffs, prices) bear no name that another form of them spells out; the document itself may.
