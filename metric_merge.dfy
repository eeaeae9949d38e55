/** Merging the per-closure metric dictionaries of one batch: later dictionaries win. */
module MetricMerge {
  import opened Types

  /** The callback-metrics key whose value weights the closure loss. */
  const RatioKey: string := "batch_loss_efficiency_ratio"

  /** `callback_metrics.get('batch_loss_efficiency_ratio', 1.0)`. */
  function EfficiencyRatio(callbackMetrics: MetricMap): real {
    if RatioKey in callbackMetrics then callbackMetrics[RatioKey] else 1.0
  }

  /** `{k: v for d in ds for k, v in d.items()}`. */
  function MergeAll(ds: seq<MetricMap>): MetricMap
    decreases |ds|
  {
    if |ds| == 0 then map[] else MergeAll(ds[..|ds| - 1]) + ds[|ds| - 1]
  }

  /** The merged keys are exactly the keys of some dictionary. */
  lemma {:induction false} MergeAllKeys(ds: seq<MetricMap>, k: string)
    ensures k in MergeAll(ds) <==> exists i :: 0 <= i < |ds| && k in ds[i]
    decreases |ds|
  {
    if |ds| > 0 {
      var init := ds[..|ds| - 1];
      MergeAllKeys(init, k);
      if k in MergeAll(ds) && k !in ds[|ds| - 1] {
        var i :| 0 <= i < |init| && k in init[i];
        assert k in ds[i];
      }
      if exists i :: 0 <= i < |ds| && k in ds[i] {
        var i :| 0 <= i < |ds| && k in ds[i];
        if i < |ds| - 1 {
          assert k in init[i];
        }
      }
    }
  }

  /** A key takes its value from the last dictionary that has it. */
  lemma {:induction false} MergeAllLatest(ds: seq<MetricMap>, i: nat, k: string)
    requires i < |ds| && k in ds[i]
    requires forall j :: i < j < |ds| ==> k !in ds[j]
    ensures k in MergeAll(ds) && MergeAll(ds)[k] == ds[i][k]
    decreases |ds|
  {
    if i < |ds| - 1 {
      var init := ds[..|ds| - 1];
      assert forall j :: i < j < |init| ==> init[j] == ds[j];
      MergeAllLatest(init, i, k);
    }
  }

  /** Two dictionaries, as from two optimizers: the union, the second one winning on shared keys. */
  lemma MergeTwo(a: MetricMap, b: MetricMap)
    ensures MergeAll([a, b]).Keys == a.Keys + b.Keys
    ensures forall k :: k in b ==> MergeAll([a, b])[k] == b[k]
    ensures forall k :: k in a && k !in b ==> MergeAll([a, b])[k] == a[k]
  {
    assert [a, b][..1] == [a];
    assert [a][..0] == [];
    assert MergeAll([a]) == a;
    assert MergeAll([a, b]) == a + b;
  }
}
