/**
 * The fold of the `rankings` memo: one accumulator per roster class, every
 * entry of a known class routed into `plus` or `minus` and always into `total`.
 */
module Aggregation {
  import opened ScoreModel
  import opened Sums

  /** Reference value of a class's accumulator after the whole log: sums over its own entries. */
  function TallyOf(c: ClassModel, entries: seq<ScoreEntry>): (s: Standing)
    ensures s.classModel == c
    ensures s.total == BaseScore + s.plus + s.minus
    ensures s.minus <= 0 <= s.plus
  {
    var mine := OfClass(entries, c.id);
    SplitBuckets(mine);
    Standing(c, SumOf(mine, Gain), SumOf(mine, Loss), BaseScore + SumOf(mine, Change))
  }

  /** The reference standings, one per roster class, in roster order. */
  function Tallies(classes: seq<ClassModel>, entries: seq<ScoreEntry>): seq<Standing> {
    seq(|classes|, k requires 0 <= k < |classes| => TallyOf(classes[k], entries))
  }

  /** The update of one accumulator by one entry: negative changes go to `minus`, all others to `plus`. */
  function Routed(s: Standing, e: ScoreEntry): (r: Standing)
    ensures r.classModel == s.classModel && r.total == s.total + e.pointChange
    ensures r.plus + r.minus == s.plus + s.minus + e.pointChange
    ensures r.minus <= s.minus && r.plus >= s.plus
    ensures r.plus == s.plus + Gain(e) && r.minus == s.minus + Loss(e)
  {
    if e.pointChange < 0 then Standing(s.classModel, s.plus, s.minus + e.pointChange, s.total + e.pointChange)
    else Standing(s.classModel, s.plus + e.pointChange, s.minus, s.total + e.pointChange)
  }

  /** Applying one more entry changes only its own class's standing, in the bucket its sign selects. */
  lemma AppendEntry(c: ClassModel, entries: seq<ScoreEntry>, e: ScoreEntry)
    ensures TallyOf(c, entries + [e]) == if e.classId == c.id then Routed(TallyOf(c, entries), e) else TallyOf(c, entries)
  {
    var es := entries + [e];
    assert es[..|es| - 1] == entries;
    var mine := OfClass(entries, c.id);
    if e.classId == c.id {
      assert OfClass(es, c.id) == mine + [e];
      assert (mine + [e])[..|mine|] == mine;
    } else {
      assert OfClass(es, c.id) == mine;
    }
  }

  /** One pass of the entry loop keeps every accumulator equal to its reference value. */
  lemma FoldStep(classes: seq<ClassModel>, entries: seq<ScoreEntry>, e: ScoreEntry,
                 acc: map<string, Standing>, acc': map<string, Standing>)
    requires Accumulated(acc, classes, entries)
    requires acc' == if e.classId in acc then acc[e.classId := Routed(acc[e.classId], e)] else acc
    ensures Accumulated(acc', classes, entries + [e])
  {
    forall j | 0 <= j < |classes|
      ensures acc'[classes[j].id] == TallyOf(classes[j], entries + [e])
    {
      AppendEntry(classes[j], entries, e);
    }
  }

  /** Accumulators keyed by class id that hold exactly the reference standings of `classes` after `entries`. */
  ghost predicate Accumulated(acc: map<string, Standing>, classes: seq<ClassModel>, entries: seq<ScoreEntry>) {
    && acc.Keys == ClassIds(classes)
    && forall j :: 0 <= j < |classes| ==> acc[classes[j].id] == TallyOf(classes[j], entries)
  }

  /** The roster `forEach`: one fresh accumulator per class id, at the base score with empty buckets. */
  method InitAccumulators(classes: seq<ClassModel>) returns (acc: map<string, Standing>)
    requires DistinctClassIds(classes)
    ensures acc.Keys == ClassIds(classes)
    ensures forall j :: 0 <= j < |classes| ==> acc[classes[j].id] == Standing(classes[j], 0, 0, BaseScore)
  {
    acc := map[];
    var k := 0;
    while k < |classes|
      invariant 0 <= k <= |classes|
      invariant acc.Keys == ClassIds(classes[..k])
      invariant forall j :: 0 <= j < k ==> acc[classes[j].id] == Standing(classes[j], 0, 0, BaseScore)
    {
      assert classes[..k + 1][..k] == classes[..k];
      acc := acc[classes[k].id := Standing(classes[k], 0, 0, BaseScore)];
      k := k + 1;
    }
    assert classes[..k] == classes;
  }

  /**
   * The entry `forEach`: each entry whose class id has an accumulator is routed
   * into it; an entry of an unknown class is skipped.
   */
  method FoldEntries(classes: seq<ClassModel>, entries: seq<ScoreEntry>, init: map<string, Standing>)
    returns (acc: map<string, Standing>)
    requires Accumulated(init, classes, [])
    ensures Accumulated(acc, classes, entries)
  {
    acc := init;
    var i := 0;
    ghost var folded: seq<ScoreEntry> := [];
    while i < |entries|
      invariant 0 <= i <= |entries|
      invariant folded == entries[..i]
      invariant Accumulated(acc, classes, folded)
    {
      var e := entries[i];
      ghost var before := acc;
      if e.classId in acc {
        var current := acc[e.classId];
        var plus, minus := current.plus, current.minus;
        if e.pointChange < 0 {
          minus := minus + e.pointChange;
        } else {
          plus := plus + e.pointChange;
        }
        var updated := Standing(current.classModel, plus, minus, current.total + e.pointChange);
        assert updated == Routed(current, e);
        acc := acc[e.classId := updated];
      }
      FoldStep(classes, folded, e, before, acc);
      folded := folded + [e];
      i := i + 1;
    }
    assert folded == entries;
  }

  /** `Array.from(map.values())`: the accumulators in the order their keys were first inserted, the roster's. */
  method ReadBack(classes: seq<ClassModel>, entries: seq<ScoreEntry>, acc: map<string, Standing>)
    returns (standings: seq<Standing>)
    requires Accumulated(acc, classes, entries)
    ensures standings == Tallies(classes, entries)
  {
    standings := [];
    var k := 0;
    ghost var reference := Tallies(classes, entries);
    assert forall j :: 0 <= j < |classes| ==> classes[j].id in acc && acc[classes[j].id] == reference[j];
    while k < |classes|
      invariant 0 <= k <= |classes|
      invariant standings == reference[..k]
    {
      var value := acc[classes[k].id];
      assert reference[..k + 1] == reference[..k] + [value];
      standings := standings + [value];
      k := k + 1;
    }
    assert reference[..k] == reference;
  }

  /**
   * The accumulation of the `rankings` memo: a Map keyed by class id, filled in
   * roster order, every entry folded in, and its values read back in insertion order.
   */
  method Aggregate(classes: seq<ClassModel>, entries: seq<ScoreEntry>) returns (standings: seq<Standing>)
    requires DistinctClassIds(classes)
    ensures standings == Tallies(classes, entries)
  {
    var acc := InitAccumulators(classes);
    assert forall j :: 0 <= j < |classes| ==> TallyOf(classes[j], []) == Standing(classes[j], 0, 0, BaseScore);
    acc := FoldEntries(classes, entries, acc);
    standings := ReadBack(classes, entries, acc);
  }

  /** With an empty log every class keeps the base score and empty buckets. */
  lemma NoEntries(classes: seq<ClassModel>)
    ensures forall k :: 0 <= k < |classes| ==> Tallies(classes, [])[k] == Standing(classes[k], 0, 0, BaseScore)
  {
  }

  /** An entry for a class outside the roster changes no standing, wherever it sits in the log. */
  lemma UnknownClassIgnored(classes: seq<ClassModel>, before: seq<ScoreEntry>, e: ScoreEntry, after: seq<ScoreEntry>)
    requires e.classId !in ClassIds(classes)
    ensures Tallies(classes, before + [e] + after) == Tallies(classes, before + after)
  {
    forall k | 0 <= k < |classes|
      ensures TallyOf(classes[k], before + [e] + after) == TallyOf(classes[k], before + after)
    {
      var id := classes[k].id;
      assert id in ClassIds(classes);
      OfClassAppend(before + [e], after, id);
      OfClassAppend(before, after, id);
      var be := before + [e];
      assert be[..|be| - 1] == before;
      assert OfClass(be, id) == OfClass(before, id);
    }
  }

  /** The standings depend on the multiset of entries only, not on their order in the log. */
  lemma OrderIndependent(classes: seq<ClassModel>, a: seq<ScoreEntry>, b: seq<ScoreEntry>)
    requires multiset(a) == multiset(b)
    ensures Tallies(classes, a) == Tallies(classes, b)
  {
    forall k | 0 <= k < |classes|
      ensures TallyOf(classes[k], a) == TallyOf(classes[k], b)
    {
      var id := classes[k].id;
      OfClassPermutation(a, b, id);
      SumOfPermutation(OfClass(a, id), OfClass(b, id), Gain);
      SumOfPermutation(OfClass(a, id), OfClass(b, id), Loss);
      SumOfPermutation(OfClass(a, id), OfClass(b, id), Change);
    }
  }
}
