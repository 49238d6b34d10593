/** The analytics answer of the emotion routes: folds over the records of
    one user inside a time window. */
module Analytics {
  import opened Wrappers
  import opened Vocabulary
  import opened Numeric
  import opened EmotionRecordModel
  import opened Listing
  import opened Store

  /** A record of `userId` stamped at or after `start`: what the analytics
      query selects. */
  predicate InWindow(records: map<Id, EmotionRecord>, id: Id, userId: Id, start: int)
  {
    id in records && records[id].userId == userId && records[id].timestamp >= start
  }

  /** The identifiers of the selected records among those below `bound`.
      The query sets no sort order; the model reads the records in
      ascending identifier (insertion) order. */
  function Window(records: map<Id, EmotionRecord>, bound: nat, userId: Id, start: int): (ids: seq<Id>)
    ensures forall i, j :: 0 <= i < j < |ids| ==> ids[i] < ids[j]
    ensures forall id: Id :: id in ids <==> id < bound && InWindow(records, id, userId, start)
    ensures forall i :: 0 <= i < |ids| ==> ids[i] in records
  {
    if bound == 0 then []
    else
      var ids := Window(records, bound - 1, userId, start);
      assert forall i :: 0 <= i < |ids| ==> ids[i] in ids;
      if InWindow(records, bound - 1, userId, start) then ids + [bound - 1] else ids
  }

  /** The window lists every selected record exactly once. */
  lemma WindowSize(records: map<Id, EmotionRecord>, bound: nat, userId: Id, start: int)
    ensures |Window(records, bound, userId, start)| ==
      |set id | id in records && id < bound && InWindow(records, id, userId, start)|
  {
    var ids := Window(records, bound, userId, start);
    assert NoDuplicates(ids);
    DistinctCardinality(ids);
    assert Elements(ids) == set id | id in records && id < bound && InWindow(records, id, userId, start);
  }

  function Scores(es: seq<EmotionRecord>): (s: seq<int>)
    ensures |s| == |es| && forall i :: 0 <= i < |es| ==> s[i] == es[i].score
  {
    if es == [] then [] else Scores(es[..|es| - 1]) + [es[|es| - 1].score]
  }

  function LabelsOf(es: seq<EmotionRecord>): (s: seq<string>)
    ensures |s| == |es| && forall i :: 0 <= i < |es| ==> s[i] == es[i].emotion
  {
    if es == [] then [] else LabelsOf(es[..|es| - 1]) + [es[|es| - 1].emotion]
  }

  /** The keys of the emotion histogram in the order a JavaScript object
      lists them: each label once, in order of first appearance. */
  function KeyOrder(es: seq<EmotionRecord>): (ks: seq<string>)
    ensures NoDuplicates(ks)
    ensures forall k :: k in ks <==> k in LabelsOf(es)
  {
    if es == [] then []
    else
      var ks := KeyOrder(es[..|es| - 1]);
      var l := es[|es| - 1].emotion;
      assert LabelsOf(es) == LabelsOf(es[..|es| - 1]) + [l];
      if l in ks then ks else ks + [l]
  }

  /** The position at which `x` first occurs in `s`. */
  function FirstIndex(s: seq<string>, x: string): (i: nat)
    requires x in s
    ensures i < |s| && s[i] == x && x !in s[..i]
  {
    if s[0] == x then 0
    else
      var j := FirstIndex(s[1..], x);
      assert s[..j + 1] == [s[0]] + s[1..][..j];
      j + 1
  }

  /** A position holding `x` with no `x` before it is the first one. */
  lemma FirstIndexAt(s: seq<string>, x: string, i: nat)
    requires i < |s| && s[i] == x && x !in s[..i]
    ensures FirstIndex(s, x) == i
  {
  }

  /** The keys are listed in the order in which their labels first occur
      among the records, the insertion order of a JavaScript object. */
  lemma {:induction false} KeyOrderFirstAppearance(es: seq<EmotionRecord>)
    ensures forall i, j :: 0 <= i < j < |KeyOrder(es)| ==>
      FirstIndex(LabelsOf(es), KeyOrder(es)[i]) < FirstIndex(LabelsOf(es), KeyOrder(es)[j])
  {
    if es != [] {
      var init, l := es[..|es| - 1], es[|es| - 1].emotion;
      KeyOrderFirstAppearance(init);
      var ks0, ks, L0, L := KeyOrder(init), KeyOrder(es), LabelsOf(init), LabelsOf(es);
      assert L == L0 + [l];
      forall k | k in L0
        ensures FirstIndex(L, k) == FirstIndex(L0, k)
      {
        var p := FirstIndex(L0, k);
        assert L[..p] == L0[..p];
        FirstIndexAt(L, k, p);
      }
      if l !in ks0 {
        assert L[..|L0|] == L0;
        FirstIndexAt(L, l, |L0|);
      }
      forall i, j | 0 <= i < j < |ks|
        ensures FirstIndex(L, ks[i]) < FirstIndex(L, ks[j])
      {
        assert ks[i] == ks0[i];
        if j < |ks0| {
          assert ks[j] == ks0[j];
        }
      }
    }
  }

  /** How many records carry each label, built one record at a time: the
      keys are the labels that occur. */
  function Histogram(es: seq<EmotionRecord>): (h: map<string, nat>)
    ensures forall k :: k in h <==> k in LabelsOf(es)
  {
    if es == [] then map[]
    else
      var h := Histogram(es[..|es| - 1]);
      var l := es[|es| - 1].emotion;
      assert LabelsOf(es) == LabelsOf(es[..|es| - 1]) + [l];
      h[l := (if l in h then h[l] else 0) + 1]
  }

  /** The histogram's keys are the labels of the key order. */
  lemma {:induction false} HistogramKeys(es: seq<EmotionRecord>)
    ensures forall k :: k in Histogram(es) <==> k in KeyOrder(es)
  {
    if es != [] {
      HistogramKeys(es[..|es| - 1]);
    }
  }

  /** The histogram has exactly the labels that occur as keys, and counts
      each as often as it occurs among the records. */
  lemma {:induction false} HistogramCounts(es: seq<EmotionRecord>)
    ensures forall k :: k in Histogram(es) <==> k in KeyOrder(es)
    ensures forall k :: k in Histogram(es) ==> Histogram(es)[k] == multiset(LabelsOf(es))[k]
    ensures forall k :: k !in Histogram(es) ==> multiset(LabelsOf(es))[k] == 0
  {
    if es != [] {
      var init := es[..|es| - 1];
      HistogramCounts(init);
      assert LabelsOf(es) == LabelsOf(init) + [es[|es| - 1].emotion];
    }
  }

  /** The sum of the histogram's counts over a list of its keys. */
  function CountTotal(ks: seq<string>, h: map<string, nat>): int
    requires forall k :: k in ks ==> k in h
  {
    if ks == [] then 0 else CountTotal(ks[..|ks| - 1], h) + h[ks[|ks| - 1]]
  }

  lemma {:induction false} CountTotalOtherKey(ks: seq<string>, h: map<string, nat>, x: string, v: nat)
    requires forall k :: k in ks ==> k in h
    requires x !in ks
    ensures CountTotal(ks, h[x := v]) == CountTotal(ks, h)
  {
    if ks != [] {
      CountTotalOtherKey(ks[..|ks| - 1], h, x, v);
    }
  }

  lemma {:induction false} CountTotalBump(ks: seq<string>, h: map<string, nat>, x: string, v: nat)
    requires forall k :: k in ks ==> k in h
    requires NoDuplicates(ks) && x in ks && v == h[x] + 1
    ensures CountTotal(ks, h[x := v]) == CountTotal(ks, h) + 1
  {
    var init, last := ks[..|ks| - 1], ks[|ks| - 1];
    if last == x {
      assert x !in init;
      CountTotalOtherKey(init, h, x, v);
    } else {
      assert x in init;
      CountTotalBump(init, h, x, v);
    }
  }

  /** One more record adds its label to the key order if it is new and
      counts it once more in the histogram. */
  lemma HistogramStep(es: seq<EmotionRecord>)
    requires es != []
    ensures var init, l := es[..|es| - 1], es[|es| - 1].emotion;
      var h := Histogram(init);
      && Histogram(es) == h[l := (if l in h then h[l] else 0) + 1]
      && KeyOrder(es) == if l in KeyOrder(init) then KeyOrder(init) else KeyOrder(init) + [l]
  {
  }

  /** Counting one more occurrence of `l` adds one to the total, whether
      `l` was already a key or is appended as a new one. */
  lemma CountTotalStep(ks: seq<string>, h: map<string, nat>, l: string, v: nat)
    requires forall k :: k in ks ==> k in h
    requires NoDuplicates(ks) && (l in ks <==> l in h)
    requires v == (if l in h then h[l] else 0) + 1
    ensures var ks' := if l in ks then ks else ks + [l];
      CountTotal(ks', h[l := v]) == CountTotal(ks, h) + 1
  {
    if l in ks {
      CountTotalBump(ks, h, l, v);
    } else {
      CountTotalOtherKey(ks, h, l, v);
      assert (ks + [l])[..|ks|] == ks;
    }
  }

  /** The histogram's counts add up to the number of records. */
  lemma {:induction false} HistogramTotal(es: seq<EmotionRecord>)
    ensures forall k :: k in KeyOrder(es) ==> k in Histogram(es)
    ensures CountTotal(KeyOrder(es), Histogram(es)) == |es|
  {
    HistogramKeys(es);
    if es != [] {
      var init := es[..|es| - 1];
      HistogramTotal(init);
      HistogramKeys(init);
      HistogramStep(es);
      var h := Histogram(init);
      var l := es[|es| - 1].emotion;
      CountTotalStep(KeyOrder(init), h, l, (if l in h then h[l] else 0) + 1);
    }
  }

  /** The position the `reduce` over the keys ends at: it keeps the current
      key only when its count is strictly larger, so it ends at the last
      key with the largest count. */
  function LastMaxIndex(ks: seq<string>, h: map<string, nat>): (i: nat)
    requires |ks| > 0 && forall k :: k in ks ==> k in h
    ensures i < |ks|
    ensures forall j :: 0 <= j < |ks| ==> h[ks[j]] <= h[ks[i]]
    ensures forall j :: i < j < |ks| ==> h[ks[j]] < h[ks[i]]
  {
    if |ks| == 1 then 0
    else
      var a := LastMaxIndex(ks[..|ks| - 1], h);
      var b := |ks| - 1;
      if h[ks[a]] > h[ks[b]] then a else b
  }

  /** The most frequent label: `Neutral` when there are no records, and
      otherwise one of the records' labels. */
  function MostFrequent(es: seq<EmotionRecord>): (m: string)
    ensures es == [] ==> m == "Neutral"
    ensures es != [] ==> m in LabelsOf(es)
  {
    var ks := KeyOrder(es);
    HistogramTotal(es);
    assert es != [] ==> LabelsOf(es)[0] in ks;
    if |ks| > 0 then ks[LastMaxIndex(ks, Histogram(es))] else "Neutral"
  }

  /** `filter(e => e.interventionTriggered).length` */
  function TriggeredCount(es: seq<EmotionRecord>): (n: nat)
    ensures n <= |es|
    ensures n == 0 <==> forall i :: 0 <= i < |es| ==> !es[i].interventionTriggered
    ensures n == |es| <==> forall i :: 0 <= i < |es| ==> es[i].interventionTriggered
  {
    if es == [] then 0
    else TriggeredCount(es[..|es| - 1]) + if es[|es| - 1].interventionTriggered then 1 else 0
  }

  datatype Point = Point(date: int, score: int, emotion: string)

  datatype Report = Report(
    period: string,
    totalRecords: nat,
    averageScore: int,
    mostFrequentEmotion: string,
    emotionDistribution: map<string, nat>,
    distributionOrder: seq<string>,
    trajectory: seq<Point>,
    interventionsTriggered: nat)

  /** The analytics answer for the records of the window: it echoes the
      period, counts the records, keys the distribution by the labels that
      occur, has one trajectory point per record, and reports no more
      interventions than records. */
  function AnalyticsOf(period: string, es: seq<EmotionRecord>): (r: Report)
    ensures r.period == period && r.totalRecords == |es| && |r.trajectory| == |es|
    ensures forall k :: k in r.emotionDistribution <==> k in LabelsOf(es)
    ensures r.interventionsTriggered <= r.totalRecords
    ensures es == [] ==> r.averageScore == 0 && r.mostFrequentEmotion == "Neutral"
  {
    Report(
      period,
      |es|,
      RoundedMean(Scores(es)),
      MostFrequent(es),
      Histogram(es),
      KeyOrder(es),
      seq(|es|, i requires 0 <= i < |es| => Point(es[i].timestamp, es[i].score, es[i].emotion)),
      TriggeredCount(es))
  }

  /** The invariants of the answer: the total is the number of records, the
      distribution counts every record once, the average is the mean
      rounded half up (0 without records), and no more interventions than
      records are reported. */
  lemma AnalyticsInvariants(period: string, es: seq<EmotionRecord>)
    ensures AnalyticsOf(period, es).totalRecords == |es|
    ensures forall k :: k in AnalyticsOf(period, es).distributionOrder ==> k in AnalyticsOf(period, es).emotionDistribution
    ensures CountTotal(AnalyticsOf(period, es).distributionOrder, AnalyticsOf(period, es).emotionDistribution) == |es|
    ensures |es| == 0 ==> AnalyticsOf(period, es).averageScore == 0
    ensures |es| > 0 ==>
      2 * Sum(Scores(es)) - |es| < 2 * |es| * AnalyticsOf(period, es).averageScore <= 2 * Sum(Scores(es)) + |es|
    ensures 0 <= AnalyticsOf(period, es).interventionsTriggered <= |es|
    ensures |AnalyticsOf(period, es).trajectory| == |es|
  {
    HistogramTotal(es);
  }

  /** Over valid records the average score stays within [0, 100]. */
  lemma AverageInRange(period: string, es: seq<EmotionRecord>)
    requires forall i :: 0 <= i < |es| ==> ValidRecord(es[i])
    ensures 0 <= AnalyticsOf(period, es).averageScore <= 100
  {
    if |es| > 0 {
      MeanBounds(Scores(es), 0, 100);
    }
  }

  /** Read at each position of the key order, the histogram gives the
      number of records with that label. */
  lemma KeyCounts(es: seq<EmotionRecord>)
    ensures forall j :: 0 <= j < |KeyOrder(es)| ==>
      KeyOrder(es)[j] in Histogram(es) && Histogram(es)[KeyOrder(es)[j]] == multiset(LabelsOf(es))[KeyOrder(es)[j]]
  {
    HistogramCounts(es);
  }

  /** The most frequent label is `Neutral` without records; otherwise it is
      a label of the records, at position `i` of the key order, whose count
      no other label exceeds, and every label that first appears after it
      has a strictly smaller count. */
  lemma MostFrequentSpec(es: seq<EmotionRecord>) returns (i: nat)
    ensures |es| == 0 ==> MostFrequent(es) == "Neutral"
    ensures |es| > 0 ==>
      && i < |KeyOrder(es)| && KeyOrder(es)[i] == MostFrequent(es)
      && MostFrequent(es) in LabelsOf(es)
      && (forall k :: k in LabelsOf(es) ==> multiset(LabelsOf(es))[k] <= multiset(LabelsOf(es))[MostFrequent(es)])
      && (forall j :: i < j < |KeyOrder(es)| ==>
            multiset(LabelsOf(es))[KeyOrder(es)[j]] < multiset(LabelsOf(es))[MostFrequent(es)])
  {
    i := 0;
    if |es| > 0 {
      var ks, h, mc := KeyOrder(es), Histogram(es), multiset(LabelsOf(es));
      assert LabelsOf(es)[0] in ks;
      KeyCounts(es);
      i := LastMaxIndex(ks, h);
      var m := ks[i];
      assert m == MostFrequent(es);
      forall k | k in LabelsOf(es)
        ensures mc[k] <= mc[m]
      {
        var j :| 0 <= j < |ks| && ks[j] == k;
      }
    }
  }

  /** The answer over a table of valid records with identifiers below
      `bound`: it counts each selected record once, its distribution adds
      up to that count, and its average is a score in [0, 100]. */
  lemma WindowReport(records: map<Id, EmotionRecord>, bound: nat, userId: Id, start: int, period: string)
    requires forall id :: id in records ==> id < bound && ValidRecord(records[id])
    ensures var r := AnalyticsOf(period, DocsOf(records, Window(records, bound, userId, start)));
      && r.totalRecords == |set id | id in records && InWindow(records, id, userId, start)|
      && (forall k :: k in r.distributionOrder ==> k in r.emotionDistribution)
      && CountTotal(r.distributionOrder, r.emotionDistribution) == r.totalRecords
      && 0 <= r.averageScore <= 100
  {
    var es := DocsOf(records, Window(records, bound, userId, start));
    WindowSize(records, bound, userId, start);
    assert (set id | id in records && id < bound && InWindow(records, id, userId, start))
        == (set id | id in records && InWindow(records, id, userId, start));
    AnalyticsInvariants(period, es);
    AverageInRange(period, es);
  }
}
