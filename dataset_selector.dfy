/**
 * `getDataset`: among the client's datasets, keep those whose CDN flag matches
 * the configured preference, take the first one with the largest
 * `currentRootCount`, and look up the provider id of its payee. The dataset
 * listing and the provider registry are SDK calls; here they are the
 * `all` sequence and the `providerIds` map (an address missing from the map
 * makes the lookup throw, which `getDataset` swallows).
 */
module DatasetSelector {
  import opened Wrappers
  import opened Types

  /** What `getDataset` returns, plus the address whose provider id it asked for. */
  datatype Selection = Selection(providerId: Option<int>, dataset: Option<DataSet>, queried: Option<string>)

  /** `datasets.filter(d => d.withCDN == flag)`, order kept. */
  function Filter(all: seq<DataSet>, flag: bool): (r: seq<DataSet>)
    ensures forall d :: d in r <==> d in all && d.withCDN == flag
    ensures |r| <= |all|
  {
    if all == [] then []
    else (if all[0].withCDN == flag then [all[0]] else []) + Filter(all[1..], flag)
  }

  /**
   * `reduce((max, d) => d.currentRootCount > max.currentRootCount ? d : max, seed)`
   * folded over `rest`: replacement happens only on a strict increase.
   */
  function ReduceMax(max: DataSet, rest: seq<DataSet>): (r: DataSet)
    ensures r == max || r in rest
    ensures r.currentRootCount >= max.currentRootCount
    ensures r != max ==> r.currentRootCount > max.currentRootCount
    ensures forall d :: d in rest ==> d.currentRootCount <= r.currentRootCount
    decreases |rest|
  {
    if rest == [] then max
    else
      var next := if rest[0].currentRootCount > max.currentRootCount then rest[0] else max;
      ReduceMax(next, rest[1..])
  }

  /** Of equal maxima the reduce keeps the one met first (or the seed). */
  lemma {:induction false} ReduceMaxKeepsFirst(max: DataSet, rest: seq<DataSet>, i: int)
    requires 0 <= i < |rest| && rest[i].currentRootCount >= ReduceMax(max, rest).currentRootCount
    ensures ReduceMax(max, rest) == max || ReduceMax(max, rest) in rest[..i + 1]
    decreases |rest|
  {
    var next := if rest[0].currentRootCount > max.currentRootCount then rest[0] else max;
    var r := ReduceMax(max, rest);
    assert r == ReduceMax(next, rest[1..]);
    if i == 0 {
      assert rest[..1] == [rest[0]];
    } else {
      ReduceMaxKeepsFirst(next, rest[1..], i - 1);
      assert rest[1..][..i] == rest[1..i + 1];
      if r != next {
        var j :| 0 <= j < i && rest[1..i + 1][j] == r;
        assert rest[..i + 1][j + 1] == r;
      } else if next == rest[0] {
        assert rest[..i + 1][0] == r;
      }
    }
  }

  lemma {:induction false} FilterAppend(a: seq<DataSet>, b: seq<DataSet>, flag: bool)
    ensures Filter(a + b, flag) == Filter(a, flag) + Filter(b, flag)
  {
    if a == [] {
      assert a + b == b;
    } else {
      assert (a + b)[1..] == a[1..] + b;
      FilterAppend(a[1..], b, flag);
    }
  }

  /**
   * The part of the filtered list up to a kept element `all[i]` holds only
   * elements of `all[..i + 1]`: filtering keeps input order.
   */
  lemma FilterUpTo(all: seq<DataSet>, flag: bool, i: int) returns (k: int)
    requires 0 <= i < |all| && all[i].withCDN == flag
    ensures 0 <= k < |Filter(all, flag)| && Filter(all, flag)[k] == all[i]
    ensures Filter(all, flag)[..k + 1] == Filter(all[..i + 1], flag)
  {
    var pre, post, head := all[..i + 1], all[i + 1..], all[..i];
    assert pre + post == all;
    assert head + [all[i]] == pre;
    FilterAppend(pre, post, flag);
    FilterAppend(head, [all[i]], flag);
    assert Filter([all[i]], flag) == [all[i]] by {
      assert [all[i]][1..] == [];
    }
    var front := Filter(pre, flag);
    assert front == Filter(head, flag) + [all[i]];
    k := |front| - 1;
    assert Filter(all, flag) == front + Filter(post, flag);
    assert (front + Filter(post, flag))[..k + 1] == front;
  }

  /**
   * The dataset `getDataset` settles on: none when the preferred partition is
   * empty (the reduce is seeded with `datasets[0]`, which is then undefined),
   * otherwise the first dataset of the partition with the most roots.
   */
  function SelectDataset(all: seq<DataSet>, withCDN: bool): (r: Option<DataSet>)
    ensures r.None? <==> forall d :: d in all ==> d.withCDN != withCDN
    ensures r.Some? ==> r.value in all && r.value.withCDN == withCDN
    ensures r.Some? ==> forall d :: d in all && d.withCDN == withCDN ==> d.currentRootCount <= r.value.currentRootCount
    ensures r.Some? ==> forall i :: (0 <= i < |all| && all[i].withCDN == withCDN
                          && all[i].currentRootCount >= r.value.currentRootCount) ==> r.value in all[..i + 1]
  {
    var withCdn := Filter(all, true);
    var withoutCdn := Filter(all, false);
    var datasets := if withCDN then withCdn else withoutCdn;
    if |datasets| == 0 then None
    else
      var best := ReduceMax(datasets[0], datasets);
      assert PickFrom(datasets) == Some(best);
      assert forall i :: 0 <= i < |all| && all[i].withCDN == withCDN && all[i].currentRootCount >= best.currentRootCount ==> best in all[..i + 1] by {
        forall i | 0 <= i < |all| && all[i].withCDN == withCDN && all[i].currentRootCount >= best.currentRootCount
          ensures best in all[..i + 1]
        {
          var k := FilterUpTo(all, withCDN, i);
          assert datasets == Filter(all, withCDN);
          ReduceMaxKeepsFirst(datasets[0], datasets, k);
          assert datasets[..k + 1][0] == datasets[0];
        }
      }
      PickFrom(datasets)
  }

  /** The reduce seeded with the first element; undefined (None) on an empty list. */
  function PickFrom(datasets: seq<DataSet>): Option<DataSet>
  {
    if |datasets| == 0 then None else Some(ReduceMax(datasets[0], datasets))
  }

  /**
   * `getDataset`: the selection, then the provider id of the chosen dataset's
   * payee. The lookup is made only when a dataset was chosen, and a failing
   * lookup leaves the provider id undefined without losing the dataset.
   */
  function GetDataset(all: seq<DataSet>, withCDN: bool, providerIds: map<string, int>): (r: Selection)
    ensures r.dataset == SelectDataset(all, withCDN)
    ensures r.queried.Some? <==> r.dataset.Some?
    ensures r.dataset.Some? ==> r.queried == Some(r.dataset.value.payee)
    ensures r.providerId.Some? <==> r.dataset.Some? && r.dataset.value.payee in providerIds
    ensures r.providerId.Some? ==> r.providerId.value == providerIds[r.dataset.value.payee]
  {
    match SelectDataset(all, withCDN)
    case None => Selection(None, None, None)
    case Some(d) =>
      var id := if d.payee in providerIds then Some(providerIds[d.payee]) else None;
      Selection(id, Some(d), Some(d.payee))
  }

  /** Equal root counts go to the dataset that comes first. */
  lemma TieGoesToFirst(a: DataSet, b: DataSet)
    requires a.withCDN && b.withCDN && a.currentRootCount == b.currentRootCount
    ensures SelectDataset([a, b], true) == Some(a)
  {
    var r := SelectDataset([a, b], true);
    assert [a, b][..1] == [a];
  }

  /** Datasets outside the preferred partition never influence the choice. */
  lemma {:induction false} OtherPartitionIgnored(all: seq<DataSet>, other: DataSet, withCDN: bool)
    requires other.withCDN != withCDN
    ensures SelectDataset(all + [other], withCDN) == SelectDataset(all, withCDN)
    ensures SelectDataset([other] + all, withCDN) == SelectDataset(all, withCDN)
  {
    FilterAppend(all, [other], withCDN);
    FilterAppend([other], all, withCDN);
    assert Filter([other], withCDN) == [] by {
      assert [other][1..] == [];
    }
    assert Filter(all + [other], withCDN) == Filter(all, withCDN);
    assert Filter([other] + all, withCDN) == Filter(all, withCDN);
  }

}
