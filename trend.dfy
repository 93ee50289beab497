/**
 * The `chartData` memo: running totals, week by week, for the first
 * `TopN` ranked classes, each starting from the base score.
 */
module Trend {
  import opened ScoreModel
  import opened Sums
  import opened Aggregation

  /** Reference value of one class's change in one week: the changes of the log's entries for that week and class. */
  function WeekChange(entries: seq<ScoreEntry>, weekId: string, classId: string): int
    decreases |entries|
  {
    if entries == [] then 0
    else
      var e := entries[|entries| - 1];
      WeekChange(entries[..|entries| - 1], weekId, classId) +
        (if e.weekId == weekId && e.classId == classId then e.pointChange else 0)
  }

  /** The source's filter-by-week, filter-by-class, reduce pipeline computes the reference week change. */
  lemma {:induction false} WeekPipeline(entries: seq<ScoreEntry>, weekId: string, classId: string)
    ensures SumOf(OfClass(OfWeek(entries, weekId), classId), Change) == WeekChange(entries, weekId, classId)
    decreases |entries|
  {
    if entries != [] {
      var init, e := entries[..|entries| - 1], entries[|entries| - 1];
      WeekPipeline(init, weekId, classId);
      var wk := OfWeek(init, weekId);
      if e.weekId == weekId {
        assert OfWeek(entries, weekId) == wk + [e];
        OfClassSnoc(wk, e, classId);
        if e.classId == classId {
          SumOfSnoc(OfClass(wk, classId), e, Change);
        }
      } else {
        assert OfWeek(entries, weekId) == wk + [] == wk;
      }
    }
  }

  /** A class's weekly changes summed over the first n weeks of the roster. */
  function SumUpTo(weeks: seq<Week>, n: nat, entries: seq<ScoreEntry>, classId: string): int
    requires n <= |weeks|
  {
    if n == 0 then 0
    else SumUpTo(weeks, n - 1, entries, classId) + WeekChange(entries, weeks[n - 1].id, classId)
  }

  /**
   * `rankings.slice(0, 5).map(r => r.classModel)`: the classes of the first
   * five rows, or of every row when there are fewer.
   */
  function ChartedClasses(ranking: seq<RankingRow>): (top: seq<ClassModel>)
    ensures |top| <= TopN
    ensures |ranking| <= TopN ==> |top| == |ranking|
    ensures |ranking| >= TopN ==> |top| == TopN
    ensures forall k :: 0 <= k < |top| ==> top[k] == ranking[k].classModel
  {
    seq(Min(TopN, |ranking|), k requires 0 <= k < Min(TopN, |ranking|) => ranking[k].classModel)
  }

  /** Running totals of the charted classes once the first n weeks are counted. */
  predicate ScoresAfter(scores: map<string, int>, top: seq<ClassModel>, weeks: seq<Week>, n: nat,
                        entries: seq<ScoreEntry>)
    requires n <= |weeks|
  {
    && scores.Keys == ClassIds(top)
    && forall k :: 0 <= k < |top| ==> scores[top[k].id] == BaseScore + SumUpTo(weeks, n, entries, top[k].id)
  }

  /**
   * The chart point of week `weeks[i]`: the week's name and, for each charted
   * class, the base score plus its changes in weeks 0 through i.
   */
  predicate ChartPoint(point: TrendPoint, top: seq<ClassModel>, weeks: seq<Week>, i: nat, entries: seq<ScoreEntry>)
    requires i < |weeks|
  {
    && point.name == weeks[i].name
    && ScoresAfter(point.scores, top, weeks, i + 1, entries)
  }

  /** The `forEach` that starts every charted class's running total at the base score. */
  method InitScores(top: seq<ClassModel>, weeks: seq<Week>, entries: seq<ScoreEntry>) returns (classScores: map<string, int>)
    ensures ScoresAfter(classScores, top, weeks, 0, entries)
  {
    classScores := map[];
    var k := 0;
    while k < |top|
      invariant 0 <= k <= |top|
      invariant classScores.Keys == ClassIds(top[..k])
      invariant forall j :: 0 <= j < k ==> classScores[top[j].id] == BaseScore
    {
      assert top[..k + 1][..k] == top[..k];
      classScores := classScores[top[k].id := BaseScore];
      k := k + 1;
    }
    assert top[..k] == top;
  }

  /**
   * State while week `weeks[i]` is being processed: the classes before position j
   * already include that week, in the running totals and in the week's point;
   * the others have not been reached.
   */
  ghost predicate WeekInProgress(scores: map<string, int>, values: map<string, int>, top: seq<ClassModel>,
                                 weeks: seq<Week>, i: nat, entries: seq<ScoreEntry>, j: nat)
    requires i < |weeks| && j <= |top|
  {
    && scores.Keys == ClassIds(top)
    && (forall q :: 0 <= q < |top| ==>
         scores[top[q].id] == BaseScore + SumUpTo(weeks, if q < j then i + 1 else i, entries, top[q].id))
    && values.Keys == ClassIds(top[..j])
    && forall q :: 0 <= q < j ==> values[top[q].id] == BaseScore + SumUpTo(weeks, i + 1, entries, top[q].id)
  }

  /**
   * `classScores[c.id] += change` followed by `point[c] = classScores[c.id]`, for
   * the class at position j, moves the processing state on by one class.
   */
  lemma AdvanceStep(top: seq<ClassModel>, weeks: seq<Week>, i: nat, entries: seq<ScoreEntry>, j: nat,
                    scores: map<string, int>, values: map<string, int>)
    requires DistinctClassIds(top)
    requires i < |weeks| && j < |top|
    requires WeekInProgress(scores, values, top, weeks, i, entries, j)
    ensures top[j].id in scores
    ensures var scores' := scores[top[j].id := scores[top[j].id] + WeekChange(entries, weeks[i].id, top[j].id)];
      WeekInProgress(scores', values[top[j].id := scores'[top[j].id]], top, weeks, i, entries, j + 1)
  {
    var id := top[j].id;
    assert id in ClassIds(top);
    var scores' := scores[id := scores[id] + WeekChange(entries, weeks[i].id, id)];
    ScoresStep(top, weeks, i, entries, j, scores, scores');
    ValuesStep(top, weeks, i, entries, j, values, scores'[id]);
  }

  lemma ScoresStep(top: seq<ClassModel>, weeks: seq<Week>, i: nat, entries: seq<ScoreEntry>, j: nat,
                   scores: map<string, int>, scores': map<string, int>)
    requires DistinctClassIds(top)
    requires i < |weeks| && j < |top|
    requires forall q :: 0 <= q < |top| ==>
      top[q].id in scores && scores[top[q].id] == BaseScore + SumUpTo(weeks, if q < j then i + 1 else i, entries, top[q].id)
    requires scores' == scores[top[j].id := scores[top[j].id] + WeekChange(entries, weeks[i].id, top[j].id)]
    ensures forall q :: 0 <= q < |top| ==>
      scores'[top[q].id] == BaseScore + SumUpTo(weeks, if q < j + 1 then i + 1 else i, entries, top[q].id)
  {
    forall q | 0 <= q < |top|
      ensures scores'[top[q].id] == BaseScore + SumUpTo(weeks, if q < j + 1 then i + 1 else i, entries, top[q].id)
    {
      if q != j {
        assert top[q].id != top[j].id;
      }
    }
  }

  lemma ValuesStep(top: seq<ClassModel>, weeks: seq<Week>, i: nat, entries: seq<ScoreEntry>, j: nat,
                   values: map<string, int>, v: int)
    requires DistinctClassIds(top)
    requires i < |weeks| && j < |top|
    requires values.Keys == ClassIds(top[..j])
    requires forall q :: 0 <= q < j ==> values[top[q].id] == BaseScore + SumUpTo(weeks, i + 1, entries, top[q].id)
    requires v == BaseScore + SumUpTo(weeks, i + 1, entries, top[j].id)
    ensures values[top[j].id := v].Keys == ClassIds(top[..j + 1])
    ensures forall q :: 0 <= q < j + 1 ==> values[top[j].id := v][top[q].id] == BaseScore + SumUpTo(weeks, i + 1, entries, top[q].id)
  {
    assert top[..j + 1][..j] == top[..j];
    forall q | 0 <= q < j + 1
      ensures values[top[j].id := v][top[q].id] == BaseScore + SumUpTo(weeks, i + 1, entries, top[q].id)
    {
      if q != j {
        assert top[q].id != top[j].id;
      }
    }
  }

  /**
   * The body run for week `weeks[i]`: each charted class's week change is added
   * to its running total, and the new running total is written into the week's point.
   */
  method AdvanceWeek(top: seq<ClassModel>, weeks: seq<Week>, i: nat, entries: seq<ScoreEntry>,
                     classScores: map<string, int>)
    returns (scores': map<string, int>, point: TrendPoint)
    requires DistinctClassIds(top)
    requires i < |weeks|
    requires ScoresAfter(classScores, top, weeks, i, entries)
    ensures ScoresAfter(scores', top, weeks, i + 1, entries)
    ensures ChartPoint(point, top, weeks, i, entries)
  {
    var w := weeks[i];
    var entriesForWeek := OfWeek(entries, w.id);
    scores' := classScores;
    var values := map[];
    var j := 0;
    assert top[..0] == [];
    while j < |top|
      invariant 0 <= j <= |top|
      invariant WeekInProgress(scores', values, top, weeks, i, entries, j)
    {
      var c := top[j];
      var classEntries := OfClass(entriesForWeek, c.id);
      var change := SumOf(classEntries, Change);
      WeekPipeline(entries, w.id, c.id);
      AdvanceStep(top, weeks, i, entries, j, scores', values);
      scores' := scores'[c.id := scores'[c.id] + change];
      values := values[c.id := scores'[c.id]];
      j := j + 1;
    }
    assert top[..j] == top;
    point := TrendPoint(w.name, values);
  }

  /**
   * The trend series: one point per week in roster order, holding the week's
   * name and, for each charted class, the base score plus its changes so far.
   */
  method BuildSeries(ranking: seq<RankingRow>, entries: seq<ScoreEntry>, weeks: seq<Week>)
    returns (series: seq<TrendPoint>)
    requires DistinctClassIds(ChartedClasses(ranking))
    ensures |series| == |weeks|
    ensures forall i :: 0 <= i < |weeks| ==> ChartPoint(series[i], ChartedClasses(ranking), weeks, i, entries)
  {
    var top := ChartedClasses(ranking);
    var classScores := InitScores(top, weeks, entries);
    series := [];
    var i := 0;
    while i < |weeks|
      invariant 0 <= i <= |weeks|
      invariant |series| == i
      invariant forall p :: 0 <= p < i ==> ChartPoint(series[p], top, weeks, p, entries)
      invariant ScoresAfter(classScores, top, weeks, i, entries)
    {
      var point;
      classScores, point := AdvanceWeek(top, weeks, i, entries, classScores);
      series := series + [point];
      i := i + 1;
    }
  }

  lemma WeekChangeAppend(entries: seq<ScoreEntry>, e: ScoreEntry, weekId: string, classId: string)
    ensures WeekChange(entries + [e], weekId, classId) ==
      WeekChange(entries, weekId, classId) + (if e.weekId == weekId && e.classId == classId then e.pointChange else 0)
  {
    var es := entries + [e];
    assert es[..|es| - 1] == entries;
  }

  /** With distinct week ids, a new entry moves the prefix sum only if its week is among the first n. */
  lemma {:induction false} SumUpToAppend(weeks: seq<Week>, n: nat, entries: seq<ScoreEntry>, e: ScoreEntry, classId: string)
    requires DistinctWeekIds(weeks)
    requires n <= |weeks|
    ensures SumUpTo(weeks, n, entries + [e], classId) ==
      SumUpTo(weeks, n, entries, classId) + (if e.classId == classId && e.weekId in WeekIdsBefore(weeks, n) then e.pointChange else 0)
    decreases n
  {
    if n > 0 {
      SumUpToAppend(weeks, n - 1, entries, e, classId);
      WeekChangeAppend(entries, e, weeks[n - 1].id, classId);
      NotInWeekIds(weeks, n - 1, weeks[n - 1].id);
    }
  }

  /**
   * With distinct week ids, the value charted at point n - 1 sums exactly the
   * class's entries whose week is one of the first n weeks.
   */
  lemma {:induction false} SumUpToIsPrefixSum(weeks: seq<Week>, n: nat, entries: seq<ScoreEntry>, classId: string)
    requires DistinctWeekIds(weeks)
    requires n <= |weeks|
    ensures SumUpTo(weeks, n, entries, classId) == SumOf(OfClass(InWeeks(entries, WeekIdsBefore(weeks, n)), classId), Change)
    decreases |entries|
  {
    var ids := WeekIdsBefore(weeks, n);
    if entries == [] {
      SumUpToEmptyLog(weeks, n, classId);
    } else {
      var init, e := entries[..|entries| - 1], entries[|entries| - 1];
      assert entries == init + [e];
      SumUpToIsPrefixSum(weeks, n, init, classId);
      SumUpToAppend(weeks, n, init, e, classId);
      InWeeksAppend(init, [e], ids);
      var picked := InWeeks([e], ids);
      assert [e][..0] == [];
      OfClassAppend(InWeeks(init, ids), picked, classId);
      SumOfAppend(OfClass(InWeeks(init, ids), classId), OfClass(picked, classId), Change);
      assert picked == if e.weekId in ids then [e] else [];
      if e.weekId in ids {
        assert OfClass([e], classId) == if e.classId == classId then [e] else [];
      }
    }
  }

  lemma {:induction false} SumUpToEmptyLog(weeks: seq<Week>, n: nat, classId: string)
    requires n <= |weeks|
    ensures SumUpTo(weeks, n, [], classId) == 0
    decreases n
  {
    if n > 0 {
      SumUpToEmptyLog(weeks, n - 1, classId);
    }
  }

  /** A week in which a class has no entry repeats that class's previous value. */
  lemma QuietWeekCarriesForward(weeks: seq<Week>, i: nat, entries: seq<ScoreEntry>, classId: string)
    requires i < |weeks|
    requires forall k :: 0 <= k < |entries| && entries[k].weekId == weeks[i].id ==> entries[k].classId != classId
    ensures SumUpTo(weeks, i + 1, entries, classId) == SumUpTo(weeks, i, entries, classId)
  {
    NoMatchingEntry(entries, weeks[i].id, classId);
  }

  lemma {:induction false} NoMatchingEntry(entries: seq<ScoreEntry>, weekId: string, classId: string)
    requires forall k :: 0 <= k < |entries| && entries[k].weekId == weekId ==> entries[k].classId != classId
    ensures WeekChange(entries, weekId, classId) == 0
    decreases |entries|
  {
    if entries != [] {
      NoMatchingEntry(entries[..|entries| - 1], weekId, classId);
    }
  }

  lemma {:induction false} InWeeksAll(entries: seq<ScoreEntry>, ids: set<string>)
    requires forall k :: 0 <= k < |entries| ==> entries[k].weekId in ids
    ensures InWeeks(entries, ids) == entries
    decreases |entries|
  {
    if entries != [] {
      var init := entries[..|entries| - 1];
      InWeeksAll(init, ids);
      assert entries == init + [entries[|entries| - 1]];
    }
  }

  /**
   * When every entry belongs to a week of the roster (and week ids are distinct),
   * a class's value at the last point of the series equals its ranking total.
   */
  lemma LastPointMatchesTotal(weeks: seq<Week>, entries: seq<ScoreEntry>, c: ClassModel)
    requires DistinctWeekIds(weeks)
    requires forall k :: 0 <= k < |entries| ==> entries[k].weekId in WeekIdsBefore(weeks, |weeks|)
    ensures BaseScore + SumUpTo(weeks, |weeks|, entries, c.id) == TallyOf(c, entries).total
  {
    SumUpToIsPrefixSum(weeks, |weeks|, entries, c.id);
    InWeeksAll(entries, WeekIdsBefore(weeks, |weeks|));
  }
}
