# Race-disparity social card: group shaping and chart selection

This project models the logic behind the per-state race-disparity social card
of the COVID Tracking Project website. The card takes one state's record of
case and death rates per 1,000 people for six demographic groups: Black,
Hispanic/Latino, Asian, AIAN, White and NHPI. `getGroups` turns the record
into bars for the card:

- it rescales the rates to per 100,000;
- it filters out groups whose rates are empty (as written this filter never
  removes anything; see "## Findings");
- it takes the largest case rate and the largest death rate, which scale the
  bars;
- it sorts the array in place by deaths and then by cases, reading the "worst"
  group off the head of each sort.

The card component then decides four things. It picks which charts to draw
from the share of cases and deaths with race reported. It picks the words for
the rates shown. In deaths-only mode it re-sorts the bars by deaths. It
renames the District of Columbia. Each bar's width is its share of the largest
value, with a 10% floor.

Modules:

- `RaceTypes` (`race_types.dfy`) holds the record, candidate and retained
  group entries (`Group`, `Bar`), the label order, `RaceDict`, and the
  `SortedBy` and `IsMax` predicates.
- `Groups` (`groups.dfy`) holds `getGroups`:
  - the candidates and the filter are functions;
  - the maximum is a recursive function;
  - the two sorts are an in-place insertion sort on an `array<Bar>`;
  - `GetGroups`/`ShapeGroups` are methods proved against `ShapeOf`.
- `SocialCard` (`card.dfy`) holds the decisions of `StateRaceSocialCard`:
  `BarWidth`, `DisplayStateName`, `MissingData`, `Mode`, `SelectCharts` and
  the card method itself.

A group's `label` is called `race` in the model, because `label` is a
reserved word in Dafny. Rates are exact `real`s. An unreported rate is the
value `Empty`. Retained entries become `Bar`s whose two rates are plain
numbers.

`GetGroups` and the card use the corrected filter, which removes a group with
an empty rate. `GetGroupsAsWritten` runs the same shaping on the filter as
written, which keeps all six groups of every record. With the corrected
filter it can happen that no group survives; the source then reads `groups[0].label` of an
empty list, and that throws. The model returns `NoGroups` from `GetGroups` in that
case, and `Crashed` from the card, instead of requiring a non-empty list.

## Model

| member | source | states |
|---|---|---|
| `RaceTypes.RaceName` | src/components/social-media-graphics/race/state.js:97-105 | looking a label up in `raceDict` gives its name exactly for its seven keys, and None for any other label; the only labels the source looks up are the six group labels (lines 114-115 and 268) |
| `RaceTypes.GroupLabelsNamed` | src/components/social-media-graphics/race/state.js:97-105 | each of the six group labels is a key of `raceDict`, and the six display names are pairwise distinct |
| `Groups.Scale` | src/components/social-media-graphics/race/state.js:25-26 | rescaling per 1,000 to per 100,000 multiplies a reported rate by 100; an unreported one stays unreported, which is the corrected behaviour that makes the filter effective (`ScaleAsWritten` is the code as written) |
| `Groups.ScaleAsWritten` | src/components/social-media-graphics/race/state.js:25-56 | the JavaScript product `x * 100` is always a number: 0 for an empty field, and the same as `Scale` for a reported rate |
| `Groups.BuildCandidates` | src/components/social-media-graphics/race/state.js:21-58 | six entries in the order Black, Hispanic/Latino, Asian, AIAN, White, NHPI; each entry's rates are the record's rates for that label passed through the rescaling |
| `Groups.Candidates` | src/components/social-media-graphics/race/state.js:21-58 | six entries in canonical order, every label a key of `raceDict`, each rate empty exactly when the record's rate is, and otherwise 100 times it |
| `Groups.CandidatesAsWritten` | src/components/social-media-graphics/race/state.js:21-58 | as the source builds them, all six entries carry numbers for both rates |
| `Groups.Retain` | src/components/social-media-graphics/race/state.js:60-63 | the filter never lengthens the list |
| `Groups.RetainAppend` | src/components/social-media-graphics/race/state.js:60-63 | filtering a concatenation filters each part, so the filter preserves relative order |
| `Groups.RetainExactlyComplete` | src/components/social-media-graphics/race/state.js:60-63 | the filter keeps every entry whose cases and deaths are both non-empty, and keeps nothing else |
| `Groups.RetainAll` | src/components/social-media-graphics/race/state.js:60-63 | when every entry is complete the filter keeps all of them, position for position |
| `Groups.RetainedLabelsNamed` | src/components/social-media-graphics/race/state.js:21-63 | for every record and either rescaling (the corrected `Scale` or `ScaleAsWritten`, the code as written), every retained entry's label is a key of `raceDict` |
| `Groups.MaxOf` | src/components/social-media-graphics/race/state.js:65-66 | `Math.max` over a non-empty list is at least every entry's rate and equals some entry's rate |
| `Groups.SortedHeadIsMax` | src/components/social-media-graphics/race/state.js:68-86 | after sorting a permutation of the list non-increasingly, its first entry belongs to the list and attains the maximum |
| `Groups.SwapDown` | src/components/social-media-graphics/race/state.js:68-74 | exchanging two neighbouring bars changes nothing else and keeps the array a permutation |
| `Groups.Insert` | src/components/social-media-graphics/race/state.js:68-74 | one insertion step extends the sorted prefix by one, leaves the rest untouched, and keeps a permutation |
| `Groups.SortDescending` | src/components/social-media-graphics/race/state.js:68-74 | the in-place sort leaves the array sorted non-increasing by the chosen rate and a permutation of its prior contents |
| `Groups.ShapeGroups` | src/components/social-media-graphics/race/state.js:65-94 | an empty retained list fails (the source throws reading `groups[0].label`). Otherwise: the groups are a permutation of the list, sorted non-increasing by cases; the maxima are the maxima; the head's cases equal the case maximum; the worst-cases label is the head's label; both worst labels name entries attaining their maximum |
| `Groups.GetGroups` | src/components/social-media-graphics/race/state.js:16-95 | with the corrected filter: an absent record gives the empty result; a record whose filtered list is empty fails; any other record gives the shaped result of its filtered candidates, whose worst labels have display names |
| `Groups.GetGroupsAsWritten` | src/components/social-media-graphics/race/state.js:16-95 | with the filter as written: an absent record gives the empty result, and every other record gives a shaped result of all six groups (unreported rates as 0), whose worst labels have display names |
| `Groups.WorstLabelsNamed` | src/components/social-media-graphics/race/state.js:109-115 | for any shaped result of a record's retained list, built with either rescaling (so both the list `GetGroups` shapes and the list `GetGroupsAsWritten` shapes, the one the source runs), the two worst labels the lede looks up in `raceDict` always have a display name |
| `Groups.AsWrittenKeepsAll` | src/components/social-media-graphics/race/state.js:60-63 | as written, the filter keeps all six candidates of every record |
| `Groups.UnreportedStateShowsZeroBars` | src/components/social-media-graphics/race/state.js:21-63 | for a record with every rate empty, the code as written keeps six bars, one per group in canonical order, each with zero cases and zero deaths, while the corrected filter keeps none |
| `Groups.FullyReportedAgrees` | src/components/social-media-graphics/race/state.js:21-63 | for a record that reports all twelve rates, the corrected filter and the filter as written give the same six bars, so `GetGroups` and the card then describe what the source computes |
| `SocialCard.BarWidth` | src/components/social-media-graphics/race/state.js:123-124 | the width is never below 10%; it is the ratio times 100 when the ratio exceeds 0.1 and 10% otherwise; it is at most 100% when the value does not exceed a non-negative maximum |
| `SocialCard.BarWidthMonotone` | src/components/social-media-graphics/race/state.js:123-124 | for a positive maximum, a larger value never gets a narrower bar |
| `SocialCard.BarWidthsBounded` | src/components/social-media-graphics/race/state.js:272-285 | with non-negative rates scaled by their maximum, every bar on the card is between 10% and 100% wide |
| `SocialCard.DisplayStateName` | src/components/social-media-graphics/race/state.js:127-130 | "District of Columbia" becomes "The District of Columbia"; every other name is unchanged |
| `SocialCard.MissingData` | src/components/social-media-graphics/race/state.js:139-148 | a combined state is judged by its race-and-ethnicity shares, any other state by its race shares; a metric is missing exactly when its share is zero |
| `SocialCard.Mode` | src/components/social-media-graphics/race/state.js:150-156 | one chart when exactly one metric is missing, none when both are; cases-only and deaths-only name the metric still present. `noCharts`, `casesOnly` and `deathsOnly` are pairwise exclusive, and all false when both metrics are reported |
| `SocialCard.SelectCharts` | src/components/social-media-graphics/race/state.js:150-174 | the rates are "death rates" exactly in deaths-only mode, "case rates" exactly in cases-only mode, and "infection and death rates" otherwise. In deaths-only mode the bars end sorted non-increasing by deaths, as a permutation of their prior order; otherwise they keep their order |
| `SocialCard.StateRaceSocialCard` | src/components/social-media-graphics/race/state.js:127-177 | with the corrected filter: the card fails exactly when no group survives the filter. It shows no charts exactly when both metrics are missing. It carries the renamed state name. Otherwise its flags, rate words ("death rates" exactly when deaths-only, "case rates" exactly when cases-only, "infection and death rates" exactly when both charts are drawn), bar order (by deaths in deaths-only mode, else by cases), maxima and worst labels are those of the shaped groups |

## Left out

- The React markup is not modelled: the lede sentence, the card layout, class names, styles, logos, and the `FormatNumber` and `Percent` components. This is presentation. The `${…}%` string that `getWidth` builds is not modelled either; `BarWidth` returns the number.
- `CreateStateRaceSocialCards` is not modelled: the GraphQL query, the per-state record lookup and the image export through `renderedComponent`. This is framework glue. `combinedStates` is an input of the card method.
- `new Date()` and the date text are not modelled (clock and locale).
- `parseFloat` of the known-share strings is not modelled. The shares are given as numbers. A share that does not parse (NaN) is not modelled.
- Floating point is not modelled: rates are exact reals with no rounding. `undefined * 100` is NaN in JavaScript; `ScaleAsWritten` folds it into 0 like `'' * 100` and `null * 100`. Either way the product is a number, which is all the filter finding needs.
- GetGroups: models the corrected filter, which removes a group with an empty rate; the code as written keeps all six groups (see "## Findings" and `GetGroupsAsWritten`). So the `NoGroups` result and the card's `Crashed` result, and any card with fewer than six bars, arise only with the corrected filter.
- `Math.max()` of an empty list (minus infinity) is not computed: the source throws on `groups[0].label` right after, which the model returns as `NoGroups`.
- The order of ties is not specified. The source's comparator answers -1 for equal keys in both directions, so the engine's sort decides. The model proves only sortedness and permutation. No tie-break toward the canonical group order is proved; the comparator at state.js:70 and :80 does not define one.
- StateRaceSocialCard: takes a present record. In the source the record comes from a lookup that gives undefined for a listed state without a race row, and line 128 then reads `state.stateName` and throws before `getGroups` can check for it; that crash is not modelled. The card also runs on the corrected filter: for a record with an empty rate the source keeps all six groups, draws a zero bar for each unreported rate and never crashes, whereas the model drops those groups and answers `Crashed` when none is left. `Groups.FullyReportedAgrees` shows that the two agree on every record that reports all twelve rates.
- RaceName: inherited `Object.prototype` names such as `toString` or `constructor` are not modelled; `raceDict` returns those members where the model answers None. The source only looks up the six group labels.
- The unused `population` parameter of `getGroups` is left out. The second call of `getGroups` inside `SocialCardLede` is left out too; it recomputes the same worst labels.
- BarWidth: for a positive value with a maximum of 0, the source produces "Infinity%"; the requires excludes that input. The card never passes it, because every value is at most its maximum.
- SelectCharts: the deaths-only re-sort is made on a copy of the bars. In the source it reorders the very array that `groupValues.groups` holds. The card reads only the maxima from `groupValues` afterwards, so the aliasing is not observable there.
- The context page `src/pages/dashboard/index.js` holds no logic and is not part of this model.

## Findings

| source | as written | input that shows it | evidently intended | confidence | as-written member | corrected member |
|---|---|---|---|---|---|---|
| src/components/social-media-graphics/race/state.js:60-63 | The filter compares `cases` and `deaths` with `''`. Both values are products `x * 100`, which are always numbers: 0 for an empty or null field, NaN for an absent one. So no group is ever removed, and an unreported group is drawn as a zero bar. | a record whose per-capita rates are all empty (`Groups.Unreported`): six zero bars are kept | groups without case or death data are removed, as the comment on line 61 says | medium, not executed | `Groups.UnreportedStateShowsZeroBars` | `Groups.RetainExactlyComplete` |
