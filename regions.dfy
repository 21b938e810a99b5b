/** Requested regions and the merge a node applies to the region it has
    accumulated so far (LazyNetworkComponent.updateRequestedRegion, the
    first half). */
module Regions {
  import opened Wrappers

  /** One spatial dimension of a request: the inclusive bounds [low, high]. */
  datatype Interval = Interval(low: int, high: int)

  /** A region is one interval per spatial dimension. */
  type Region = seq<Interval>

  /** Every interval of the region has low <= high. */
  predicate Ordered(r: Region) {
    forall k :: 0 <= k < |r| ==> r[k].low <= r[k].high
  }

  /** `inner` lies inside `outer`. */
  predicate Within(inner: Interval, outer: Interval) {
    outer.low <= inner.low && inner.high <= outer.high
  }

  /** Both regions have the same dimensions and `outer` contains `inner`
      in every one of them. */
  predicate Covers(outer: Region, inner: Region) {
    |outer| == |inner| && forall k :: 0 <= k < |inner| ==> Within(inner[k], outer[k])
  }

  /** The smallest interval containing both `a` and `b`: the min of the
      lows and the max of the highs. */
  function Hull(a: Interval, b: Interval): (h: Interval)
    ensures Within(a, h) && Within(b, h)
    ensures forall c :: Within(a, c) && Within(b, c) ==> Within(h, c)
  {
    Interval(if b.low < a.low then b.low else a.low,
             if b.high > a.high then b.high else a.high)
  }

  /** The in-place merge of a later request into the recorded region,
      pairing dimensions as `zip` does: the first min(|acc|, |r|)
      intervals become hulls, the recorded intervals beyond them are left
      alone and the incoming ones beyond them are ignored. */
  function Union(acc: Region, r: Region): (u: Region)
    ensures |u| == |acc|
    ensures forall k :: 0 <= k < |acc| ==>
              u[k] == if k < |r| then Hull(acc[k], r[k]) else acc[k]
    decreases |acc|
  {
    if acc == [] || r == [] then acc
    else [Hull(acc[0], r[0])] + Union(acc[1..], r[1..])
  }

  /** The region a node holds after one request: a region that is not yet
      recorded, or is recorded but empty (and so false in a truth test),
      is replaced by a copy of the request; otherwise the request is merged
      into it. */
  function Record(recorded: Option<Region>, r: Region): (acc: Region)
    ensures recorded.None? || recorded.value == [] ==> acc == r
    ensures recorded.Some? && recorded.value != [] ==>
              Covers(acc, recorded.value) &&
              forall k :: 0 <= k < |r| && k < |acc| ==> Within(r[k], acc[k])
  {
    if recorded.None? || recorded.value == [] then r
    else Union(recorded.value, r)
  }

  /** How a node's recorded region may change from one moment to a later
      one: an unset region may become anything, an empty one may be
      replaced, and otherwise the later region keeps the dimensions and
      contains the earlier one. */
  predicate Grows(before: Option<Region>, after: Option<Region>) {
    before.None? ||
    (after.Some? && (before.value == [] || Covers(after.value, before.value)))
  }

  lemma CoversTransitive(a: Region, b: Region, c: Region)
    requires Covers(a, b) && Covers(b, c)
    ensures Covers(a, c)
  {
    forall k | 0 <= k < |c| ensures Within(c[k], a[k]) {
      assert Within(c[k], b[k]) && Within(b[k], a[k]);
    }
  }

  lemma CoversReflexive(a: Region)
    ensures Covers(a, a)
  {
  }

  /** Growth composes across successive requests. */
  lemma GrowsTransitive(a: Option<Region>, b: Option<Region>, c: Option<Region>)
    requires Grows(a, b) && Grows(b, c)
    ensures Grows(a, c)
  {
    if a.Some? && a.value != [] {
      CoversTransitive(c.value, b.value, a.value);
    }
  }

  /** A recorded region only grows (monotone growth, one call). */
  lemma RecordGrows(recorded: Option<Region>, r: Region)
    ensures Grows(recorded, Some(Record(recorded, r)))
  {
  }

  /** The number of dimensions is fixed by the first non-empty request. */
  lemma {:induction false} RecordKeepsDimensions(recorded: Option<Region>, r: Region)
    ensures |Record(recorded, r)| ==
            if recorded.None? || recorded.value == [] then |r| else |recorded.value|
  {
  }

  /** When the request has the recorded dimensions, the merged region
      contains the request. */
  lemma RecordCoversRequest(recorded: Option<Region>, r: Region)
    requires recorded.Some? ==> |recorded.value| == |r|
    ensures Covers(Record(recorded, r), r)
  {
  }

  /** The merge is the least upper bound: any region that contains both the
      recorded region and a request of the same dimensions contains their
      merge. */
  lemma UnionLeast(acc: Region, r: Region, c: Region)
    requires |r| == |acc| && Covers(c, acc) && Covers(c, r)
    ensures Covers(c, Union(acc, r))
  {
    var u := Union(acc, r);
    forall k | 0 <= k < |u| ensures Within(u[k], c[k]) {
      assert Within(acc[k], c[k]) && Within(r[k], c[k]);
    }
  }

  /** Requesting a region the node already covers changes nothing. */
  lemma RecordIdempotent(acc: Region, r: Region)
    requires Covers(acc, r)
    ensures Record(Some(acc), r) == acc
  {
    if acc != [] {
      var u := Union(acc, r);
      forall k | 0 <= k < |acc| ensures u[k] == acc[k] {
        assert Within(r[k], acc[k]);
      }
    }
  }

  /** Repeating the same request is a no-op, whatever the dimensions. */
  lemma RecordTwice(recorded: Option<Region>, r: Region)
    ensures Record(Some(Record(recorded, r)), r) == Record(recorded, r)
  {
    var a := Record(recorded, r);
    if a != [] {
      var u := Union(a, r);
      forall k | 0 <= k < |a| ensures u[k] == a[k] {
        if recorded.Some? && recorded.value != [] && k < |r| {
          assert a[k] == Hull(recorded.value[k], r[k]);
        }
      }
    }
  }
}
