/**
 * The tail of the `rankings` memo: `Array.from(map.values())`, sorted by
 * descending total with a stable sort, then numbered `index + 1`.
 */
module Ranking {
  import opened ScoreModel
  import opened Aggregation

  /** Each total is at least the next one. */
  predicate NonIncreasing(s: seq<Standing>) {
    |s| <= 1 || (s[0].total >= s[1].total && NonIncreasing(s[1..]))
  }

  /** In a non-increasing sequence every total is at least every later one. */
  lemma {:induction false} NonIncreasingPairwise(s: seq<Standing>)
    requires NonIncreasing(s)
    ensures forall i, j :: 0 <= i < j < |s| ==> s[i].total >= s[j].total
    decreases |s|
  {
    if |s| > 1 {
      NonIncreasingPairwise(s[1..]);
      assert forall j :: 1 <= j < |s| ==> s[j] == s[1..][j - 1];
    }
  }

  /** The standings whose total is t, in their order in s. */
  function WithTotal(s: seq<Standing>, t: int): seq<Standing> {
    if s == [] then [] else (if s[0].total == t then [s[0]] else []) + WithTotal(s[1..], t)
  }

  function ClassesOf(s: seq<Standing>): seq<ClassModel> {
    seq(|s|, i requires 0 <= i < |s| => s[i].classModel)
  }

  lemma WithTotalMember(s: seq<Standing>, t: int, x: Standing)
    requires x in WithTotal(s, t)
    ensures x in s && x.total == t
  {
    if s != [] && x !in WithTotal(s[1..], t) {
      assert x == s[0];
    } else if s != [] {
      WithTotalMember(s[1..], t, x);
    }
  }

  /** The first standing of a sequence is among those that share its total. */
  lemma HeadKept(s: seq<Standing>)
    requires s != []
    ensures WithTotal(s, s[0].total) == [s[0]] + WithTotal(s[1..], s[0].total)
  {
  }

  /** A standing no smaller than the head of a sorted sequence can go in front of it. */
  lemma ConsSorted(a: Standing, s: seq<Standing>)
    requires NonIncreasing(s)
    requires s != [] ==> a.total >= s[0].total
    ensures NonIncreasing([a] + s)
  {
    assert ([a] + s)[1..] == s;
  }

  lemma WithTotalCons(x: Standing, s: seq<Standing>, t: int)
    ensures WithTotal([x] + s, t) == (if x.total == t then [x] else []) + WithTotal(s, t)
  {
    assert ([x] + s)[1..] == s;
  }

  lemma ClassesOfCons(x: Standing, s: seq<Standing>)
    ensures ClassesOf([x] + s) == [x.classModel] + ClassesOf(s)
  {
  }

  /**
   * Places x before the first standing whose total is not greater than its own:
   * x comes earlier in the input than everything in s, so ties keep input order.
   */
  function Insert(x: Standing, s: seq<Standing>): (r: seq<Standing>)
    requires NonIncreasing(s)
    ensures NonIncreasing(r)
    ensures r != [] && (r[0] == x || (s != [] && r[0] == s[0]))
  {
    if s == [] || s[0].total <= x.total then
      ConsSorted(x, s);
      [x] + s
    else
      var rest := Insert(x, s[1..]);
      ConsSorted(s[0], rest);
      [s[0]] + rest
  }

  lemma {:induction false} InsertClasses(x: Standing, s: seq<Standing>)
    requires NonIncreasing(s)
    ensures multiset(ClassesOf(Insert(x, s))) == multiset(ClassesOf(s)) + multiset{x.classModel}
    decreases |s|
  {
    if s == [] || s[0].total <= x.total {
      ClassesOfCons(x, s);
    } else {
      InsertClasses(x, s[1..]);
      assert ClassesOf(s) == [s[0].classModel] + ClassesOf(s[1..]);
      ClassesOfCons(s[0], Insert(x, s[1..]));
    }
  }

  /** Inserting x adds it in front of the standings that tie with it and leaves every other total's order alone. */
  lemma {:induction false} InsertStable(x: Standing, s: seq<Standing>, t: int)
    requires NonIncreasing(s)
    ensures WithTotal(Insert(x, s), t) == (if x.total == t then [x] else []) + WithTotal(s, t)
    decreases |s|
  {
    if s == [] || s[0].total <= x.total {
      WithTotalCons(x, s, t);
    } else {
      var rest := Insert(x, s[1..]);
      assert Insert(x, s) == [s[0]] + rest;
      InsertStable(x, s[1..], t);
      WithTotalCons(s[0], rest, t);
      assert WithTotal(s, t) == (if s[0].total == t then [s[0]] else []) + WithTotal(s[1..], t);
    }
  }

  /** Insertion sort by descending total, the way a stable sort with comparator `b.total - a.total` orders. */
  function SortByTotal(s: seq<Standing>): (r: seq<Standing>)
    ensures NonIncreasing(r)
  {
    if s == [] then [] else Insert(s[0], SortByTotal(s[1..]))
  }

  /** The sort is stable: for every total, the standings carrying it keep their input order. */
  lemma {:induction false} SortStable(s: seq<Standing>)
    ensures forall t :: WithTotal(SortByTotal(s), t) == WithTotal(s, t)
    decreases |s|
  {
    if s != [] {
      var rest := SortByTotal(s[1..]);
      SortStable(s[1..]);
      assert s == [s[0]] + s[1..];
      forall t ensures WithTotal(SortByTotal(s), t) == WithTotal(s, t) {
        InsertStable(s[0], rest, t);
        WithTotalCons(s[0], s[1..], t);
      }
    }
  }

  /** The sort moves classes around but neither drops nor duplicates one. */
  lemma {:induction false} SortClasses(s: seq<Standing>)
    ensures multiset(ClassesOf(SortByTotal(s))) == multiset(ClassesOf(s))
    decreases |s|
  {
    if s != [] {
      SortClasses(s[1..]);
      InsertClasses(s[0], SortByTotal(s[1..]));
      assert s == [s[0]] + s[1..];
      ClassesOfCons(s[0], s[1..]);
    }
  }

  /** Keeping every total's standings in order keeps every standing: the result is a permutation. */
  lemma StablePermutation(r: seq<Standing>, s: seq<Standing>)
    requires forall t :: WithTotal(r, t) == WithTotal(s, t)
    ensures multiset(r) == multiset(s)
  {
    forall x ensures multiset(r)[x] == multiset(s)[x] {
      CountWithTotal(r, x);
      CountWithTotal(s, x);
      assert WithTotal(r, x.total) == WithTotal(s, x.total);
    }
  }

  lemma {:induction false} CountWithTotal(s: seq<Standing>, x: Standing)
    ensures multiset(WithTotal(s, x.total))[x] == multiset(s)[x]
    decreases |s|
  {
    if s != [] {
      CountWithTotal(s[1..], x);
      assert s == [s[0]] + s[1..];
    }
  }

  /**
   * A stable sort has one possible outcome: two non-increasing sequences in which
   * every total's standings appear in the same order are equal.
   */
  lemma {:induction false} StableSortUnique(r1: seq<Standing>, r2: seq<Standing>)
    requires NonIncreasing(r1) && NonIncreasing(r2)
    requires forall t :: WithTotal(r1, t) == WithTotal(r2, t)
    ensures r1 == r2
    decreases |r1|
  {
    if r1 == [] && r2 != [] {
      HeadKept(r2);
      assert false;
    } else if r1 != [] && r2 == [] {
      HeadKept(r1);
      assert false;
    } else if r1 != [] {
      HeadsAgree(r1, r2);
      TailsAgree(r1, r2);
      StableSortUnique(r1[1..], r2[1..]);
      assert r1 == [r1[0]] + r1[1..];
      assert r2 == [r2[0]] + r2[1..];
    }
  }

  /** Two non-increasing sequences with the same standings per total start with the same standing. */
  lemma HeadsAgree(r1: seq<Standing>, r2: seq<Standing>)
    requires r1 != [] && r2 != []
    requires NonIncreasing(r1) && NonIncreasing(r2)
    requires forall t :: WithTotal(r1, t) == WithTotal(r2, t)
    ensures r1[0] == r2[0]
  {
    var t1, t2 := r1[0].total, r2[0].total;
    NonIncreasingPairwise(r1);
    NonIncreasingPairwise(r2);
    assert r1[0] in WithTotal(r2, t1);
    WithTotalMember(r2, t1, r1[0]);
    assert r2[0] in WithTotal(r1, t2);
    WithTotalMember(r1, t2, r2[0]);
    assert t1 == t2;
    assert r1[0] == WithTotal(r1, t1)[0] == WithTotal(r2, t1)[0] == r2[0];
  }

  /** Sequences with the same head and the same standings per total still agree per total after the head. */
  lemma TailsAgree(r1: seq<Standing>, r2: seq<Standing>)
    requires r1 != [] && r2 != [] && r1[0] == r2[0]
    requires forall t :: WithTotal(r1, t) == WithTotal(r2, t)
    ensures forall t :: WithTotal(r1[1..], t) == WithTotal(r2[1..], t)
  {
    forall t ensures WithTotal(r1[1..], t) == WithTotal(r2[1..], t) {
      var w1, w2 := WithTotal(r1[1..], t), WithTotal(r2[1..], t);
      assert WithTotal(r1, t) == WithTotal(r2, t);
      assert WithTotal(r1, t) == (if r1[0].total == t then [r1[0]] else []) + w1;
      assert WithTotal(r2, t) == (if r2[0].total == t then [r2[0]] else []) + w2;
      if r1[0].total == t {
        assert ([r1[0]] + w1)[1..] == w1;
        assert ([r1[0]] + w2)[1..] == w2;
      } else {
        assert [] + w1 == w1;
        assert [] + w2 == w2;
      }
    }
  }

  /** Whatever stable sort the platform runs, its output is SortByTotal's. */
  lemma AnyStableSortAgrees(s: seq<Standing>, r: seq<Standing>)
    requires NonIncreasing(r)
    requires forall t :: WithTotal(r, t) == WithTotal(s, t)
    ensures r == SortByTotal(s)
  {
    SortStable(s);
    StableSortUnique(r, SortByTotal(s));
  }

  /**
   * `.map((item, index) => ({ ...item, rank: index + 1 }))`: ranks are exactly
   * 1..N, increasing in output order, so distinct even when totals tie, and
   * numbering changes no standing.
   */
  function AssignRanks(s: seq<Standing>): (r: seq<RankingRow>)
    ensures |r| == |s|
    ensures forall n: int :: n in RankSet(r) <==> 1 <= n <= |s|
    ensures forall i, j :: 0 <= i < j < |r| ==> r[i].rank < r[j].rank
    ensures StandingsOf(r) == s
  {
    var r := seq(|s|, i requires 0 <= i < |s| => RankingRow(s[i].classModel, s[i].plus, s[i].minus, s[i].total, i + 1));
    RankSetCovers(r);
    r
  }

  /** The standing a ranking row was made from (the row without its rank). */
  function StandingsOf(rows: seq<RankingRow>): seq<Standing> {
    seq(|rows|, i requires 0 <= i < |rows| => Standing(rows[i].classModel, rows[i].plus, rows[i].minus, rows[i].total))
  }

  function RankSet(rows: seq<RankingRow>): set<int> {
    set i | 0 <= i < |rows| :: rows[i].rank as int
  }

  /** Rows numbered `index + 1` carry exactly the ranks 1..N. */
  lemma RankSetCovers(rows: seq<RankingRow>)
    requires forall i :: 0 <= i < |rows| ==> rows[i].rank == i + 1
    ensures forall n: int :: n in RankSet(rows) <==> 1 <= n <= |rows|
  {
    forall n: int | 1 <= n <= |rows| ensures n in RankSet(rows) {
      assert rows[n - 1].rank == n;
    }
  }

  lemma {:induction false} WithTotalAppend(a: seq<Standing>, b: seq<Standing>, t: int)
    ensures WithTotal(a + b, t) == WithTotal(a, t) + WithTotal(b, t)
    decreases |a|
  {
    if a == [] {
      assert a + b == b;
    } else {
      WithTotalAppend(a[1..], b, t);
      assert (a + b)[1..] == a[1..] + b;
    }
  }

  /** s[i] sits in its total's group at the position counted by the standings before it. */
  lemma PositionInGroup(s: seq<Standing>, i: nat)
    requires i < |s|
    ensures |WithTotal(s[..i], s[i].total)| < |WithTotal(s, s[i].total)|
    ensures WithTotal(s, s[i].total)[|WithTotal(s[..i], s[i].total)|] == s[i]
  {
    var t := s[i].total;
    assert s == s[..i] + s[i..];
    assert s[i..] == [s[i]] + s[i + 1..];
    WithTotalAppend(s[..i], s[i..], t);
    WithTotalCons(s[i], s[i + 1..], t);
  }

  /** Counting a total's standings over a longer prefix never gives fewer; past one of them, it gives more. */
  lemma PrefixGroupGrows(s: seq<Standing>, t: int, a: nat, b: nat)
    requires a <= b <= |s|
    ensures |WithTotal(s[..a], t)| <= |WithTotal(s[..b], t)|
    ensures a < b && s[a].total == t ==> |WithTotal(s[..a], t)| < |WithTotal(s[..b], t)|
  {
    assert s[..b] == s[..a] + s[a..b];
    WithTotalAppend(s[..a], s[a..b], t);
    if a < b {
      assert s[a..b] == [s[a]] + s[a + 1..b];
      WithTotalCons(s[a], s[a + 1..b], t);
    }
  }

  /** The standing at position p of a total's group, found in s together with its index. */
  lemma {:induction false} GroupMemberAt(s: seq<Standing>, t: int, p: nat) returns (a: nat)
    requires p < |WithTotal(s, t)|
    ensures a < |s| && s[a] == WithTotal(s, t)[p]
    ensures s[a].total == t && |WithTotal(s[..a], t)| == p
    decreases |s|
  {
    var w := WithTotal(s, t);
    if s[0].total == t && p == 0 {
      a := 0;
      assert s[..a] == [];
    } else {
      var p' := if s[0].total == t then p - 1 else p;
      var a' := GroupMemberAt(s[1..], t, p');
      a := a' + 1;
      assert s[..a] == [s[0]] + s[1..][..a'];
      WithTotalCons(s[0], s[1..][..a'], t);
    }
  }

  /**
   * When two sequences keep, for every total, the same standings in the same
   * order, two tied standings appear in the same relative order in both.
   */
  lemma TiesKeepOrder(r: seq<Standing>, s: seq<Standing>, i: nat, j: nat) returns (a: nat, b: nat)
    requires forall t :: WithTotal(r, t) == WithTotal(s, t)
    requires i < j < |r| && r[i].total == r[j].total
    ensures a < b < |s| && s[a] == r[i] && s[b] == r[j]
  {
    var t := r[i].total;
    PositionInGroup(r, i);
    PositionInGroup(r, j);
    PrefixGroupGrows(r, t, i, j);
    assert WithTotal(r, t) == WithTotal(s, t);
    a := GroupMemberAt(s, t, |WithTotal(r[..i], t)|);
    b := GroupMemberAt(s, t, |WithTotal(r[..j], t)|);
    if b <= a {
      PrefixGroupGrows(s, t, b, a);
      assert false;
    }
  }

  /** With distinct ids, each class of the list occurs in it exactly once. */
  lemma CountedOnce(a: seq<ClassModel>, p: nat)
    requires DistinctClassIds(a) && p < |a|
    ensures multiset(a)[a[p]] == 1
  {
    assert a == a[..p] + [a[p]] + a[p + 1..];
    assert a[p] !in a[..p];
    assert a[p] !in a[p + 1..];
  }

  /** A class found at two different positions of a list is counted at least twice. */
  lemma CountedTwice(b: seq<ClassModel>, i: nat, j: nat)
    requires i < j < |b| && b[i] == b[j]
    ensures multiset(b)[b[i]] >= 2
  {
    assert b == b[..j] + b[j..];
    assert b[i] in b[..j];
    assert b[j] == b[j..][0];
  }

  /** Reordering a list of classes keeps its ids distinct. */
  lemma DistinctIdsPermutation(a: seq<ClassModel>, b: seq<ClassModel>)
    requires multiset(a) == multiset(b) && DistinctClassIds(a)
    ensures DistinctClassIds(b)
  {
    forall i, j | 0 <= i < j < |b| ensures b[i].id != b[j].id {
      assert b[i] in multiset(a) && b[j] in multiset(a);
      var p :| 0 <= p < |a| && a[p] == b[i];
      var q :| 0 <= q < |a| && a[q] == b[j];
      if p == q {
        CountedTwice(b, i, j);
        CountedOnce(a, p);
        assert false;
      }
    }
  }

  /** Everything the sort-then-rank pipeline promises about the standings it is given. */
  lemma SortAndRank(standings: seq<Standing>)
    ensures |AssignRanks(SortByTotal(standings))| == |standings|
    ensures StandingsOf(AssignRanks(SortByTotal(standings))) == SortByTotal(standings)
    ensures forall i, j :: 0 <= i < j < |standings| ==>
      SortByTotal(standings)[i].total >= SortByTotal(standings)[j].total
    ensures forall t :: WithTotal(SortByTotal(standings), t) == WithTotal(standings, t)
    ensures multiset(SortByTotal(standings)) == multiset(standings)
    ensures multiset(ClassesOf(SortByTotal(standings))) == multiset(ClassesOf(standings))
  {
    var sorted := SortByTotal(standings);
    SortStable(standings);
    StablePermutation(sorted, standings);
    assert |sorted| == |multiset(sorted)| == |standings|;
    SortClasses(standings);
    NonIncreasingPairwise(sorted);
  }

  lemma ClassesOfTallies(classes: seq<ClassModel>, entries: seq<ScoreEntry>)
    ensures ClassesOf(Tallies(classes, entries)) == classes
  {
  }

  /** A reordering of the reference standings still pairs every class with its own reference standing. */
  lemma RowsAreTallies(classes: seq<ClassModel>, entries: seq<ScoreEntry>, rows: seq<Standing>)
    requires multiset(rows) == multiset(Tallies(classes, entries))
    ensures forall i :: 0 <= i < |rows| ==> rows[i] == TallyOf(rows[i].classModel, entries)
  {
    forall i | 0 <= i < |rows| ensures rows[i] == TallyOf(rows[i].classModel, entries) {
      assert rows[i] in multiset(Tallies(classes, entries));
    }
  }

  /** Rows with equal totals come in the order of their classes in the roster. */
  lemma TiesInRosterOrder(classes: seq<ClassModel>, entries: seq<ScoreEntry>, rows: seq<Standing>)
    requires forall t :: WithTotal(rows, t) == WithTotal(Tallies(classes, entries), t)
    ensures forall i, j :: 0 <= i < j < |rows| && rows[i].total == rows[j].total ==>
      exists a, b :: 0 <= a < b < |classes| && classes[a] == rows[i].classModel && classes[b] == rows[j].classModel
  {
    forall i, j | 0 <= i < j < |rows| && rows[i].total == rows[j].total
      ensures exists a, b :: 0 <= a < b < |classes| && classes[a] == rows[i].classModel && classes[b] == rows[j].classModel
    {
      var a, b := TiesKeepOrder(rows, Tallies(classes, entries), i, j);
      assert classes[a] == rows[i].classModel && classes[b] == rows[j].classModel;
    }
  }

  /**
   * The whole `rankings` memo: aggregate, sort descending by total with ties in
   * roster order, and number the rows from 1.
   */
  method ComputeRankings(classes: seq<ClassModel>, entries: seq<ScoreEntry>) returns (ranking: seq<RankingRow>)
    requires DistinctClassIds(classes)
    ensures |ranking| == |classes|
    ensures multiset(ClassesOf(StandingsOf(ranking))) == multiset(classes)
    ensures DistinctClassIds(ClassesOf(StandingsOf(ranking)))
    ensures multiset(StandingsOf(ranking)) == multiset(Tallies(classes, entries))
    ensures forall i :: 0 <= i < |ranking| ==> ranking[i].rank == i + 1
    ensures forall i :: 0 <= i < |ranking| ==>
      StandingsOf(ranking)[i] == TallyOf(ranking[i].classModel, entries)
    ensures forall i, j :: 0 <= i < j < |ranking| ==> ranking[i].total >= ranking[j].total
    ensures forall t :: WithTotal(StandingsOf(ranking), t) == WithTotal(Tallies(classes, entries), t)
    ensures forall i, j :: 0 <= i < j < |ranking| && ranking[i].total == ranking[j].total ==>
      exists a, b :: 0 <= a < b < |classes| && classes[a] == ranking[i].classModel && classes[b] == ranking[j].classModel
  {
    var standings := Aggregate(classes, entries);
    var sorted := SortByTotal(standings);
    ranking := AssignRanks(sorted);
    SortAndRank(standings);
    ClassesOfTallies(classes, entries);
    RowsAreTallies(classes, entries, sorted);
    DistinctIdsPermutation(classes, ClassesOf(sorted));
    TiesInRosterOrder(classes, entries, sorted);
  }
}
