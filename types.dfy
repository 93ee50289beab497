/** Reference data and derived records of the scoring engine. */
module ScoreModel {

  /** Every class starts from this score before any entry is applied. */
  const BaseScore: int := 100

  /** How many top-ranked classes the trend chart follows. */
  const TopN: nat := 5

  datatype ClassModel = ClassModel(id: string, name: string, grade: int)

  /** Whether a fault rewards or penalises; the engine never reads it, only `pointChange`. */
  datatype FaultType = Minus | Plus

  datatype Fault = Fault(id: string, name: string, point: int, kind: FaultType)

  /** Weeks are chronological by their position in the roster; there is no date field. */
  datatype Week = Week(id: string, name: string, monthId: string)

  /** One signed point change for one class in one week; the engine only folds these. */
  datatype ScoreEntry = ScoreEntry(
    id: string,
    weekId: string,
    classId: string,
    faultId: string,
    pointChange: int,
    note: string,
    createdAt: string,
    createdBy: string)

  /** The accumulator kept per class while the entry log is folded. */
  datatype Standing = Standing(classModel: ClassModel, plus: int, minus: int, total: int)

  /** A standing together with its 1-based position in the sorted ranking. */
  datatype RankingRow = RankingRow(classModel: ClassModel, plus: int, minus: int, total: int, rank: nat)

  /** One chart point: the week's display name and each charted class's running total, keyed by class id. */
  datatype TrendPoint = TrendPoint(name: string, scores: map<string, int>)

  predicate DistinctClassIds(classes: seq<ClassModel>) {
    forall i, j :: 0 <= i < j < |classes| ==> classes[i].id != classes[j].id
  }

  predicate DistinctWeekIds(weeks: seq<Week>) {
    forall i, j :: 0 <= i < j < |weeks| ==> weeks[i].id != weeks[j].id
  }

  /** The ids of a class list, as the keys of a Map filled from it. */
  function ClassIds(classes: seq<ClassModel>): (ids: set<string>)
    ensures forall k :: 0 <= k < |classes| ==> classes[k].id in ids
    decreases |classes|
  {
    if classes == [] then {}
    else ClassIds(classes[..|classes| - 1]) + {classes[|classes| - 1].id}
  }

  /** Ids of the first n weeks of the roster. */
  function WeekIdsBefore(weeks: seq<Week>, n: nat): set<string>
    requires n <= |weeks|
  {
    if n == 0 then {} else WeekIdsBefore(weeks, n - 1) + {weeks[n - 1].id}
  }

  /** An id that no class of the list carries is not among its ids. */
  lemma {:induction false} NotInClassIds(classes: seq<ClassModel>, id: string)
    requires forall k :: 0 <= k < |classes| ==> classes[k].id != id
    ensures id !in ClassIds(classes)
    decreases |classes|
  {
    if classes != [] {
      NotInClassIds(classes[..|classes| - 1], id);
    }
  }

  /** An id that none of the first n weeks carries is not among their ids. */
  lemma {:induction false} NotInWeekIds(weeks: seq<Week>, n: nat, id: string)
    requires n <= |weeks|
    requires forall k :: 0 <= k < n ==> weeks[k].id != id
    ensures id !in WeekIdsBefore(weeks, n)
    decreases n
  {
    if n > 0 {
      NotInWeekIds(weeks, n - 1, id);
    }
  }

  function Min(a: int, b: int): int {
    if a <= b then a else b
  }
}
