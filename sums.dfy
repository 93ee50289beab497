/**
 * Filters and sums over the entry log: the `filter` and `reduce` steps of the
 * trend builder, and the reference sums the ranking accumulators must reach.
 */
module Sums {
  import opened ScoreModel

  /** The whole point change of an entry (what `total` receives). */
  function Change(e: ScoreEntry): int { e.pointChange }

  /** The part routed to `plus`: every change that is not negative, zero included. */
  function Gain(e: ScoreEntry): int { if e.pointChange < 0 then 0 else e.pointChange }

  /** The part routed to `minus`: only negative changes. */
  function Loss(e: ScoreEntry): int { if e.pointChange < 0 then e.pointChange else 0 }

  /** Left-to-right sum of f over the entries, as `reduce((sum, e) => sum + f(e), 0)`. */
  function SumOf(es: seq<ScoreEntry>, f: ScoreEntry -> int): int
    decreases |es|
  {
    if es == [] then 0 else SumOf(es[..|es| - 1], f) + f(es[|es| - 1])
  }

  /**
   * `entries.filter(e => e.classId === classId)`. The class filter and the week
   * filter below are kept as two functions on purpose, one per filter of the
   * trend builder, so each reads like the step it models.
   */
  function OfClass(es: seq<ScoreEntry>, classId: string): (r: seq<ScoreEntry>)
    ensures |r| <= |es|
    ensures forall k :: 0 <= k < |r| ==> r[k].classId == classId
    decreases |es|
  {
    if es == [] then []
    else
      var last := es[|es| - 1];
      OfClass(es[..|es| - 1], classId) + (if last.classId == classId then [last] else [])
  }

  /** `entries.filter(e => e.weekId === weekId)`. */
  function OfWeek(es: seq<ScoreEntry>, weekId: string): (r: seq<ScoreEntry>)
    ensures |r| <= |es|
    ensures forall k :: 0 <= k < |r| ==> r[k].weekId == weekId
    decreases |es|
  {
    if es == [] then []
    else
      var last := es[|es| - 1];
      OfWeek(es[..|es| - 1], weekId) + (if last.weekId == weekId then [last] else [])
  }

  /** The entries whose week is one of `weekIds`, in log order. */
  function InWeeks(es: seq<ScoreEntry>, weekIds: set<string>): (r: seq<ScoreEntry>)
    ensures |r| <= |es|
    decreases |es|
  {
    if es == [] then []
    else
      var last := es[|es| - 1];
      InWeeks(es[..|es| - 1], weekIds) + (if last.weekId in weekIds then [last] else [])
  }

  /** Appending one entry adds exactly its own value to the sum. */
  lemma SumOfSnoc(es: seq<ScoreEntry>, e: ScoreEntry, f: ScoreEntry -> int)
    ensures SumOf(es + [e], f) == SumOf(es, f) + f(e)
  {
    assert (es + [e])[..|es|] == es;
  }

  lemma OfClassSnoc(es: seq<ScoreEntry>, e: ScoreEntry, classId: string)
    ensures e.classId == classId ==> OfClass(es + [e], classId) == OfClass(es, classId) + [e]
    ensures e.classId != classId ==> OfClass(es + [e], classId) == OfClass(es, classId)
  {
    assert (es + [e])[..|es|] == es;
  }

  lemma {:induction false} SumOfAppend(a: seq<ScoreEntry>, b: seq<ScoreEntry>, f: ScoreEntry -> int)
    ensures SumOf(a + b, f) == SumOf(a, f) + SumOf(b, f)
    decreases |b|
  {
    if b == [] {
      assert a + b == a;
    } else {
      var ab := a + b;
      assert ab[..|ab| - 1] == a + b[..|b| - 1];
      assert ab[|ab| - 1] == b[|b| - 1];
      SumOfAppend(a, b[..|b| - 1], f);
    }
  }

  /** Taking one entry out of the log takes exactly its own contribution out of the sum. */
  lemma SumOfRemove(b: seq<ScoreEntry>, j: nat, f: ScoreEntry -> int)
    requires j < |b|
    ensures SumOf(b, f) == SumOf(b[..j] + b[j + 1..], f) + f(b[j])
  {
    var x := b[j];
    assert b[..j] + b[j..] == b;
    assert b[j..] == [x] + b[j + 1..];
    SumOfAppend(b[..j], b[j..], f);
    SumOfAppend([x], b[j + 1..], f);
    SumOfAppend(b[..j], b[j + 1..], f);
    assert SumOf([x], f) == f(x) by {
      assert [x][..0] == [];
    }
  }

  lemma RemoveOne(b: seq<ScoreEntry>, j: nat)
    requires j < |b|
    ensures multiset(b[..j] + b[j + 1..]) == multiset(b) - multiset{b[j]}
  {
    assert b[..j] + b[j..] == b;
    assert b[j..] == [b[j]] + b[j + 1..];
    assert multiset(b) == multiset(b[..j]) + multiset(b[j..]);
  }

  /** A sum over the log does not depend on the order of its entries. */
  lemma {:induction false} SumOfPermutation(a: seq<ScoreEntry>, b: seq<ScoreEntry>, f: ScoreEntry -> int)
    requires multiset(a) == multiset(b)
    ensures SumOf(a, f) == SumOf(b, f)
    decreases |a|
  {
    if a == [] {
      assert |b| == |multiset(b)| == 0;
    } else {
      var x := a[|a| - 1];
      var a' := a[..|a| - 1];
      assert a == a' + [x];
      assert x in multiset(b);
      var j :| 0 <= j < |b| && b[j] == x;
      var b' := b[..j] + b[j + 1..];
      RemoveOne(b, j);
      assert multiset(a') == multiset(a) - multiset{x};
      SumOfPermutation(a', b', f);
      SumOfRemove(b, j, f);
    }
  }

  /** Every change splits into its `plus` part and its `minus` part, which have opposite signs. */
  lemma {:induction false} SplitBuckets(es: seq<ScoreEntry>)
    ensures SumOf(es, Change) == SumOf(es, Gain) + SumOf(es, Loss)
    ensures SumOf(es, Loss) <= 0 <= SumOf(es, Gain)
    decreases |es|
  {
    if es != [] {
      SplitBuckets(es[..|es| - 1]);
    }
  }

  lemma {:induction false} OfClassAppend(a: seq<ScoreEntry>, b: seq<ScoreEntry>, classId: string)
    ensures OfClass(a + b, classId) == OfClass(a, classId) + OfClass(b, classId)
    decreases |b|
  {
    if b == [] {
      assert a + b == a;
    } else {
      var ab := a + b;
      assert ab[..|ab| - 1] == a + b[..|b| - 1];
      OfClassAppend(a, b[..|b| - 1], classId);
    }
  }

  lemma {:induction false} InWeeksAppend(a: seq<ScoreEntry>, b: seq<ScoreEntry>, weekIds: set<string>)
    ensures InWeeks(a + b, weekIds) == InWeeks(a, weekIds) + InWeeks(b, weekIds)
    decreases |b|
  {
    if b == [] {
      assert a + b == a;
    } else {
      var ab := a + b;
      assert ab[..|ab| - 1] == a + b[..|b| - 1];
      InWeeksAppend(a, b[..|b| - 1], weekIds);
    }
  }

  /** The class filter keeps every copy of a matching entry and no copy of any other. */
  lemma {:induction false} OfClassCounts(es: seq<ScoreEntry>, classId: string, e: ScoreEntry)
    ensures multiset(OfClass(es, classId))[e] == if e.classId == classId then multiset(es)[e] else 0
    decreases |es|
  {
    if es != [] {
      var last := es[|es| - 1];
      assert es == es[..|es| - 1] + [last];
      OfClassCounts(es[..|es| - 1], classId, e);
    }
  }

  /** The week filter keeps every copy of an entry of that week and no copy of any other. */
  lemma {:induction false} OfWeekCounts(es: seq<ScoreEntry>, weekId: string, e: ScoreEntry)
    ensures multiset(OfWeek(es, weekId))[e] == if e.weekId == weekId then multiset(es)[e] else 0
    decreases |es|
  {
    if es != [] {
      var last := es[|es| - 1];
      assert es == es[..|es| - 1] + [last];
      OfWeekCounts(es[..|es| - 1], weekId, e);
    }
  }

  /** Reordering the log reorders, but does not change, each class's entries. */
  lemma OfClassPermutation(a: seq<ScoreEntry>, b: seq<ScoreEntry>, classId: string)
    requires multiset(a) == multiset(b)
    ensures multiset(OfClass(a, classId)) == multiset(OfClass(b, classId))
  {
    forall e ensures multiset(OfClass(a, classId))[e] == multiset(OfClass(b, classId))[e] {
      OfClassCounts(a, classId, e);
      OfClassCounts(b, classId, e);
    }
  }
}
