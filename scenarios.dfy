/** The worked numbers for the merge and for each rule. */
module Scenarios {
  import opened Wrappers
  import opened Regions
  import opened Rules

  /** [0, 10] then [5, 20] on one node accumulates [0, 20]. */
  lemma MergeExample()
    ensures Record(Some(Record(None, [Interval(0, 10)])), [Interval(5, 20)]) == [Interval(0, 20)]
  {
  }

  lemma ConvolutionExample()
    ensures Derive(Convolution, [Interval(0, 10)]) == Some([Interval(-1, 11)])
  {
    var up := ConvolutionRule([Interval(0, 10)]);
    assert up[0] == Interval(-1, 11);
    assert up == [Interval(-1, 11)];
  }

  lemma PoolingExample()
    ensures Derive(Pooling, [Interval(0, 10)]) == Some([Interval(0, 20)])
  {
    var up := PoolingRule([Interval(0, 10)]);
    assert up[0] == Interval(0, 20);
    assert up == [Interval(0, 20)];
  }

  /** An odd low rounds down, an odd high rounds up, also below zero. */
  lemma UpsampleExamples()
    ensures Derive(Upsample, [Interval(1, 11)]) == Some([Interval(0, 6)])
    ensures Derive(Upsample, [Interval(-3, -3)]) == Some([Interval(-2, -1)])
  {
    var up := UpsampleRule([Interval(1, 11)]);
    assert up[0] == HalveOutward(Interval(1, 11)) == Interval(0, 6);
    assert up == [Interval(0, 6)];
    var neg := UpsampleRule([Interval(-3, -3)]);
    assert neg[0] == HalveOutward(Interval(-3, -3)) == Interval(-2, -1);
    assert neg == [Interval(-2, -1)];
  }
}
