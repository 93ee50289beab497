/**
 * The two memos together, as the dashboard uses them: the rankings computed
 * from the roster and the log are handed to the trend builder.
 */
module Dashboard {
  import opened ScoreModel
  import opened Aggregation
  import opened Ranking
  import opened Trend

  /** The charted classes are a prefix of the ranked classes, so their ids stay distinct. */
  lemma ChartedDistinct(ranking: seq<RankingRow>)
    requires DistinctClassIds(ClassesOf(StandingsOf(ranking)))
    ensures DistinctClassIds(ChartedClasses(ranking))
  {
    var top, all := ChartedClasses(ranking), ClassesOf(StandingsOf(ranking));
    assert forall k :: 0 <= k < |top| ==> top[k] == all[k];
  }

  /**
   * Rankings, with every guarantee of the ranking computation, then the trend
   * series of the top classes. When every entry
   * belongs to a week of the roster, the last point of the series reads each
   * charted class's ranking total.
   */
  method BuildDashboard(classes: seq<ClassModel>, entries: seq<ScoreEntry>, weeks: seq<Week>)
    returns (ranking: seq<RankingRow>, series: seq<TrendPoint>)
    requires DistinctClassIds(classes)
    ensures |ranking| == |classes| && |series| == |weeks|
    ensures multiset(ClassesOf(StandingsOf(ranking))) == multiset(classes)
    ensures forall i :: 0 <= i < |ranking| ==> ranking[i].rank == i + 1
    ensures forall i :: 0 <= i < |ranking| ==>
      StandingsOf(ranking)[i] == TallyOf(ranking[i].classModel, entries)
    ensures forall i, j :: 0 <= i < j < |ranking| ==> ranking[i].total >= ranking[j].total
    ensures forall t :: WithTotal(StandingsOf(ranking), t) == WithTotal(Tallies(classes, entries), t)
    ensures forall i, j :: 0 <= i < j < |ranking| && ranking[i].total == ranking[j].total ==>
      exists a, b :: 0 <= a < b < |classes| && classes[a] == ranking[i].classModel && classes[b] == ranking[j].classModel
    ensures forall i :: 0 <= i < |weeks| ==> ChartPoint(series[i], ChartedClasses(ranking), weeks, i, entries)
    ensures DistinctWeekIds(weeks) && |weeks| > 0 &&
            (forall k :: 0 <= k < |entries| ==> entries[k].weekId in WeekIdsBefore(weeks, |weeks|)) ==>
      forall k :: 0 <= k < Min(TopN, |ranking|) ==>
        ranking[k].classModel.id in series[|weeks| - 1].scores &&
        series[|weeks| - 1].scores[ranking[k].classModel.id] == ranking[k].total
  {
    ranking := ComputeRankings(classes, entries);
    ChartedDistinct(ranking);
    series := BuildSeries(ranking, entries, weeks);
    if DistinctWeekIds(weeks) && |weeks| > 0 &&
       (forall k :: 0 <= k < |entries| ==> entries[k].weekId in WeekIdsBefore(weeks, |weeks|))
    {
      var top := ChartedClasses(ranking);
      var last := series[|weeks| - 1];
      assert ChartPoint(last, top, weeks, |weeks| - 1, entries);
      forall k | 0 <= k < Min(TopN, |ranking|)
        ensures ranking[k].classModel.id in last.scores && last.scores[ranking[k].classModel.id] == ranking[k].total
      {
        assert top[k] == ranking[k].classModel;
        LastPointMatchesTotal(weeks, entries, ranking[k].classModel);
        assert StandingsOf(ranking)[k].total == ranking[k].total;
      }
    }
  }
}
