# Class conduct scoring engine — a Dafny model

This is a model of the scoring engine of a school's class-conduct dashboard (`index.tsx`). Every class in the roster starts at a base score of 100. Each score entry carries a signed `pointChange` for one class in one week. The engine derives two things from the roster and the entry log:

- **Rankings** (the `rankings` memo). The engine keeps one accumulator per class id, holding `plus`, `minus` and `total`. It routes each entry of a known class into `minus` when the change is negative and into `plus` otherwise, and adds every change to `total`. It then sorts the accumulators by descending total with a stable sort, so tied classes keep roster order, and numbers them from 1.
- **Trend series** (the `chartData` memo). The engine takes the first five ranked classes (fewer if the roster is smaller) and starts each at 100. It then walks the weeks in roster order. Each week it adds every charted class's summed changes for that week to the class's running total, and emits one chart point: the week's name plus each charted class's running total.

Modules:

- `ScoreModel` (`types.dfy`): the records (`ClassModel`, `Fault`, `Week`, `ScoreEntry`), the accumulator `Standing`, the ranking row, the chart point, and the id sets.
- `Sums` (`sums.dfy`): the filter and sum steps, as recursive functions with their algebra: append, permutation, and the plus/minus split.
- `Aggregation` (`aggregation.dfy`): the accumulator map and the two loops that fill it. They are proved against the reference standing `TallyOf`, the sums over a class's own entries.
- `Ranking` (`ranking.dfy`): a stable insertion sort by descending total and rank numbering. The sort is proved non-increasing, stable and a permutation. The model also proves that any stable non-increasing sort returns the same sequence, so the choice of sorting algorithm does not matter.
- `Trend` (`trend.dfy`): the nested week and class loops of the trend builder. They are proved against `SumUpTo`, a class's weekly changes summed over the first n weeks.
- `Dashboard` (`dashboard.dfy`): the two memos composed the way the dashboard view receives the rankings.

A change of exactly zero takes the `plus` branch of the source (index.tsx:234-235). Adding zero leaves `plus` unchanged, so the totals are the same as if a zero change counted toward neither bucket. The model follows the code's branch structure (`Aggregation.Routed`).

## Model

| member | source | states |
|---|---|---|
| Sums.OfWeek | index.tsx:397 | The week filter keeps only entries of that week and is never longer than the log; `Sums.OfWeekCounts` states the converse |
| Sums.OfWeekCounts | index.tsx:397 | The week filter keeps every copy of each entry of that week and no entry of another week |
| Sums.OfClass | index.tsx:400 | The class filter keeps only entries of that class and is never longer than the log |
| Sums.OfClassSnoc | index.tsx:400 | The defining equation of the class filter, unfolded at the last entry: a log extended by one entry extends the filtered log by that entry exactly when the entry belongs to the class, so the filter keeps log order |
| Sums.OfClassCounts | index.tsx:400 | The class filter keeps every copy of each entry of the class and no entry of another class |
| Sums.SumOfSnoc | index.tsx:401 | The defining equation of the sum, unfolded at the last entry: the reduce adds each entry's value once, in log order |
| Sums.SumOfAppend | index.tsx:401 | The sum over two consecutive stretches of the log is the sum of their sums |
| Sums.SplitBuckets | index.tsx:234-236 | A class's total change splits exactly into the part routed to `plus` and the part routed to `minus`; the `minus` sum is never positive and the `plus` sum never negative |
| Sums.SumOfPermutation | index.tsx:231-238 | A sum over the log is the same for every ordering of the log |
| Sums.OfClassPermutation | index.tsx:231-238 | Reordering the log reorders, but does not change, the entries each class receives |
| Aggregation.TallyOf | index.tsx:226-237 | The reference standing of a class: `total = 100 + plus + minus` with `minus <= 0 <= plus` |
| Aggregation.Routed | index.tsx:233-237 | One entry moves `total` by its change; `plus` moves by exactly the entry's `Gain` (the change when it is zero or positive, else 0) and `minus` by exactly its `Loss` (the change when negative, else 0), so only the bucket its sign selects moves |
| Aggregation.AppendEntry | index.tsx:231-238 | Appending one entry to the log (what saving a score does) changes only its own class's standing, exactly as one routing step would; every other class keeps its standing |
| Aggregation.FoldStep | index.tsx:232-237 | One pass of the entry loop keeps every accumulator equal to the reference standing of the log read so far |
| Aggregation.InitAccumulators | index.tsx:226-228 | The accumulator map has exactly the roster's class ids as keys, each at `plus = 0`, `minus = 0`, `total = 100` |
| Aggregation.FoldEntries | index.tsx:231-238 | After the entry loop, every accumulator holds its class's reference standing for the whole log |
| Aggregation.ReadBack | index.tsx:241 | Reading the filled accumulators back in roster (insertion) order yields exactly the reference standings |
| Aggregation.Aggregate | index.tsx:216-241 | The map's values read back in insertion order are the reference standings, one per roster class, in roster order |
| Aggregation.NoEntries | index.tsx:226-228 | With an empty log every class has `plus = 0`, `minus = 0`, `total = 100` |
| Aggregation.UnknownClassIgnored | index.tsx:232-233 | An entry whose class id is not in the roster changes no standing, wherever it sits in the log |
| Aggregation.OrderIndependent | index.tsx:231-238 | The standings depend only on the multiset of entries, not on their order in the log |
| Ranking.NonIncreasingPairwise | index.tsx:242 | In a sequence sorted by descending total, every total is at least every later one |
| Ranking.Insert | index.tsx:242 | Inserting a standing into a sequence sorted by descending total keeps it sorted |
| Ranking.InsertStable | index.tsx:242 | Insertion puts the new standing first among those with its total and leaves every other total's order unchanged |
| Ranking.SortByTotal | index.tsx:242 | The sort's output is non-increasing by total |
| Ranking.SortStable | index.tsx:241-242 | For every total, the standings carrying it come out in their input (roster) order |
| Ranking.SortClasses | index.tsx:241-242 | The sort neither drops nor duplicates a class |
| Ranking.StablePermutation | index.tsx:242 | A reordering that keeps, for each total, the same standings in the same order is a permutation |
| Ranking.HeadsAgree | index.tsx:242 | Two sorted, equally stable orderings begin with the same standing |
| Ranking.TailsAgree | index.tsx:242 | Removing an equal first standing keeps two orderings equally stable |
| Ranking.StableSortUnique | index.tsx:242 | Two non-increasing sequences with the same per-total order are identical: a stable sort has exactly one outcome |
| Ranking.AnyStableSortAgrees | index.tsx:241-242 | Any non-increasing, stable reordering of the standings (whatever algorithm the platform's stable sort uses) equals the modelled sort |
| Ranking.TiesKeepOrder | index.tsx:242 | Under a stable reordering, two standings with the same total keep their relative order |
| Ranking.TiesInRosterOrder | index.tsx:241-242 | After the sort, rows with equal totals come in the order of their classes in the roster |
| Ranking.AssignRanks | index.tsx:243 | One row per standing; the ranks are exactly `1..N` and strictly increasing in output order, so distinct even when totals tie; numbering changes no standing |
| Ranking.DistinctIdsPermutation | index.tsx:241-243 | Reordering a roster with distinct class ids keeps the ids distinct |
| Ranking.RowsAreTallies | index.tsx:241-243 | Any reordering of the reference standings still pairs each class with its own reference standing |
| Ranking.SortAndRank | index.tsx:241-243 | The sort-then-number pipeline yields one row per standing, non-increasing, stable, a permutation of the standings and of their classes |
| Ranking.ComputeRankings | index.tsx:216-245 | One row per roster class (a permutation of the roster, ids distinct), each row the class's reference standing, ranks `i + 1`, totals non-increasing, and any two tied rows in the order of their classes in the roster |
| Trend.ChartedClasses | index.tsx:385 | At most five classes; all of them when the ranking has five or fewer rows, otherwise exactly five; the k-th is the class of the k-th ranking row |
| Trend.WeekPipeline | index.tsx:397-401 | Filtering by week, then by class, then summing equals the class's reference change for that week |
| Trend.InitScores | index.tsx:390-391 | Each charted class starts at 100, with no week counted yet |
| Trend.ScoresStep | index.tsx:402 | `classScores[c.id] += change` moves exactly one class's running total on by one week |
| Trend.ValuesStep | index.tsx:403 | Writing the new running total into the point adds exactly that class's value |
| Trend.AdvanceStep | index.tsx:400-403 | One pass of the inner class loop moves one more class, in the running totals and in the point, to include the current week |
| Trend.AdvanceWeek | index.tsx:393-406 | After week i, each charted class's running total is 100 plus its changes in weeks 0 through i; the emitted point carries the week's name and exactly those totals |
| Trend.BuildSeries | index.tsx:383-408 | One point per week in roster order (empty weeks give an empty series); point i carries `weeks[i].name` and, for each charted class, 100 plus its changes over weeks 0 through i |
| Trend.SumUpToAppend | index.tsx:393-403 | With distinct week ids, a new entry moves a class's prefix sum only when its week is among the weeks counted |
| Trend.SumUpToIsPrefixSum | index.tsx:393-403 | With distinct week ids, point n-1's value is 100 plus the sum of the class's entries whose week is any of the first n weeks |
| Trend.SumUpToEmptyLog | index.tsx:391 | With an empty log every point repeats the base score |
| Trend.QuietWeekCarriesForward | index.tsx:397-403 | A week with no entry for a class repeats that class's previous value |
| Trend.NoMatchingEntry | index.tsx:400-401 | With no entry for the class in the week, the week's change is zero |
| Trend.InWeeksAll | index.tsx:397 | When every entry's week is counted, the week filter keeps the whole log |
| Trend.LastPointMatchesTotal | index.tsx:393-403 | When week ids are distinct and every entry's week is in the roster, the last point's value for a class equals that class's ranking `total` (line 236) |
| Dashboard.ChartedDistinct | index.tsx:385 | The charted classes are the first `min(5, N)` ranked classes, so their ids stay distinct |
| Dashboard.BuildDashboard | index.tsx:340 | The rankings feed the trend series. The rankings keep every guarantee of `Ranking.ComputeRankings`: a permutation of the roster, each row the class's reference standing, ranks `i + 1`, totals non-increasing, ties in roster order, the same per-total order as the roster. The series has one point per week, each as in `Trend.BuildSeries`; when every entry's week is in the roster and week ids are distinct, the last point reads each charted class's ranking total |

## Left out

- React components, JSX, `useState`/`useMemo` mechanics, navigation and role switching are user-interface plumbing.
- The embedded Google Apps Script (index.tsx:110-196) is a string literal that calls spreadsheet services the engine never runs.
- `handleSaveScore`, `handleExport` and `showToast` (index.tsx:248-274) use timers, random ids and the clock. Only the effect of a save on the standings is modelled: appending one entry to the log (`Aggregation.AppendEntry`).
- Clipboard access and the chart and icon libraries (rendering and colours) are outside the engine.
- Point changes are modelled as mathematical integers. JavaScript `number` arithmetic, fractional steps and the display rounding by `toFixed`/`parseFloat` are not modelled.
- The sort comparator `b.total - a.total` is modelled as a comparison of integer totals. `NaN` cannot arise with integers.
- The seed data constants (index.tsx:84-106) are not modelled.
- `Fault` is declared but no operation reads it: the engine only reads an entry's `pointChange`.
- Aggregation.Aggregate: requires distinct class ids. With a duplicate id the source's `map.set` silently keeps only the last class with that id, which the model does not capture.
- Ranking.ComputeRankings: requires distinct class ids, for the same reason as `Aggregation.Aggregate`.
- Trend.BuildSeries: requires the charted classes' ids to be distinct. `Dashboard.BuildDashboard` discharges this for rankings produced by `Ranking.ComputeRankings`. With a repeated id the source would add a week's change twice to the shared running total.
- Trend.BuildSeries: chart point values are keyed by class id, not by class name as at index.tsx:403. The model does not capture the source's collisions: two charted classes with the same name, or a class named `name`, which would overwrite the week's name.
- The accumulators are modelled as values in a map that the loop reassigns, not as objects mutated in place. Aliasing between the map and its values is not modelled.
- Weeks are taken in the order given. The source assumes they are chronological and has no date field to check it.
