/** The bar-chart data the Activity widget derives from its tally on every
    render: one bar per activity type, in key order. */
module Chart {
  import opened Tally

  /** The chart's `labels` and its one dataset's `data`. */
  datatype ChartSeries = ChartSeries(labels: seq<string>, data: seq<nat>)

  /** The values of the tally, in key order. */
  function Counts(t: Tally): (vs: seq<nat>)
    ensures |vs| == |t|
    ensures forall i :: 0 <= i < |t| ==> vs[i] == t[i].count
  {
    if t == [] then [] else [t[0].count] + Counts(t[1..])
  }

  /** `labels: Object.keys(tally)` and `data: Object.values(tally)`. */
  function ChartData(t: Tally): (c: ChartSeries)
    ensures |c.labels| == |c.data| == |t|
    ensures forall i :: 0 <= i < |t| ==> c.labels[i] == t[i].key && c.data[i] == t[i].count
  {
    ChartSeries(Labels(t), Counts(t))
  }

  /** The tally whose properties are the given labels paired with the given
      counts, position by position. */
  function Entries(labels: seq<string>, data: seq<nat>): Tally
    requires |labels| == |data|
  {
    if labels == [] then [] else [Entry(labels[0], data[0])] + Entries(labels[1..], data[1..])
  }

  /** Bar `i` is labelled with a type and is as high as that type's count;
      no type gets two bars. */
  lemma ChartDataAligned(t: Tally)
    requires Distinct(t)
    ensures |ChartData(t).labels| == |ChartData(t).data| == |t|
    ensures forall i :: 0 <= i < |t| ==> ChartData(t).data[i] == Get(t, ChartData(t).labels[i])
    ensures forall i, j :: 0 <= i < j < |t| ==> ChartData(t).labels[i] != ChartData(t).labels[j]
  {
    forall i | 0 <= i < |t|
      ensures ChartData(t).data[i] == Get(t, ChartData(t).labels[i])
    {
      GetAt(t, i);
    }
  }

  /** The projection loses nothing: pairing the labels back with the data
      gives the tally again, order included. */
  lemma {:induction false} ChartDataLossless(t: Tally)
    ensures |ChartData(t).labels| == |ChartData(t).data|
    ensures Entries(ChartData(t).labels, ChartData(t).data) == t
  {
    if t != [] {
      ChartDataLossless(t[1..]);
      assert Labels(t)[1..] == Labels(t[1..]);
      assert Counts(t)[1..] == Counts(t[1..]);
    }
  }

  /** The chart after a run of successful completions: one bar per type that
      occurred, in first-seen order, each as high as the number of
      completions of that type and so at least 1. */
  lemma ChartOfHistory(types: seq<string>)
    ensures |ChartData(TallyOf(types)).labels| == |ChartData(TallyOf(types)).data|
    ensures forall name :: name in ChartData(TallyOf(types)).labels <==> name in types
    ensures forall i :: 0 <= i < |ChartData(TallyOf(types)).data| ==>
      1 <= ChartData(TallyOf(types)).data[i] == multiset(types)[ChartData(TallyOf(types)).labels[i]]
    ensures FirstSeenOrder(ChartData(TallyOf(types)).labels, types)
  {
    var t := TallyOf(types);
    TallyOfWellFormed(types);
    TallyOfKeys(types);
    TallyOfFirstSeen(types);
    ChartDataAligned(t);
    forall i | 0 <= i < |t|
      ensures Get(t, t[i].key) == multiset(types)[t[i].key]
    {
      TallyOfCount(types, t[i].key);
    }
  }
}
