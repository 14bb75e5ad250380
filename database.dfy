/**
 * better_test/database.py: the older weighted partitioner, which deals the
 * descending `(weight, label)` pairs round-robin. The JSON timing database
 * itself is file I/O and not part of this model.
 */
module Database {
  import opened Partition

  /**
   * `simple_weighted_partition` with the cursor `cycle(range(partitions))`.
   * With no partitions and some data the cursor is exhausted at once
   * (StopIteration), hence the requires.
   */
  method SimpleWeightedPartition(weightedData: seq<WeightedLabel>, partitions: nat) returns (results: seq<seq<string>>)
    requires partitions > 0 || weightedData == []
    ensures results == Deal(RoundRobin, partitions, Labels(SortDescending(weightedData)))
    ensures |results| == partitions
    ensures multiset(Flatten(results)) == multiset(Labels(weightedData))
    ensures forall b1, b2 :: 0 <= b1 <= b2 < partitions ==> |results[b2]| <= |results[b1]| <= |results[b2]| + 1
  {
    results := seq(partitions, _ => []);
    var sortedData := SortDescending(weightedData);
    ghost var labels := Labels(sortedData);
    var pos := 0;
    for k := 0 to |sortedData|
      invariant partitions > 0 ==> pos == k % partitions
      invariant results == Deal(RoundRobin, partitions, labels[..k])
    {
      DealStep(RoundRobin, partitions, labels, k);
      var index := pos;
      DivModStep(k, partitions);
      pos := if pos + 1 == partitions then 0 else pos + 1;
      results := results[index := results[index] + [sortedData[k].value]];
    }
    assert labels[..|sortedData|] == labels;
    PartitionFacts(RoundRobin, partitions, weightedData);
    forall b1, b2 | 0 <= b1 <= b2 < partitions
      ensures |results[b2]| <= |results[b1]|
    {
      RoundRobinSizesNonIncreasing(partitions, labels, b1, b2);
    }
  }

  /** The k-th item in descending order lands in bucket `k mod n`, at position `k div n`. */
  lemma RoundRobinPlacement(data: seq<WeightedLabel>, n: nat, k: nat)
    requires n > 0 && k < |data|
    ensures var buckets := Deal(RoundRobin, n, Labels(SortDescending(data)));
      k / n < |buckets[k % n]| && buckets[k % n][k / n] == SortDescending(data)[k].value
  {
    Placement(RoundRobin, n, data, k);
  }
}
