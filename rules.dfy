/** The per-kind derivation rules: how each layer maps the region it has
    accumulated to the region it asks of its inputs
    (updateUpstreamRequestedRegion of each subclass). */
module Rules {
  import opened Wrappers
  import opened Regions

  /** The closed set of node kinds; the abstract base class has no
      counterpart, so a node without a rule cannot exist. */
  datatype Kind = Input | Convolution | Concatenate | Pooling | Upsample

  /** A 3x3 convolution needs one more position on each side. */
  function ConvolutionRule(r: Region): (up: Region)
    ensures |up| == |r|
    ensures forall k :: 0 <= k < |r| ==>
              up[k].low == r[k].low - 1 && up[k].high == r[k].high + 1
    ensures Covers(up, r)
    ensures Ordered(r) ==> Ordered(up)
  {
    if r == [] then []
    else [Interval(r[0].low - 1, r[0].high + 1)] + ConvolutionRule(r[1..])
  }

  /** A 2x pooling reads twice the coordinates of its output. */
  function PoolingRule(r: Region): (up: Region)
    ensures |up| == |r|
    ensures forall k :: 0 <= k < |r| ==>
              up[k].low == 2 * r[k].low && up[k].high == 2 * r[k].high
    ensures Ordered(r) ==> Ordered(up)
  {
    if r == [] then []
    else [Interval(2 * r[0].low, 2 * r[0].high)] + PoolingRule(r[1..])
  }

  /** One interval of the upsample rule: an odd low is lowered and an odd
      high raised to the next even value, then both are halved with floor
      division. The result, scaled back by 2, covers the interval, and it
      is the tightest one that does. */
  function HalveOutward(iv: Interval): (h: Interval)
    ensures 2 * h.low <= iv.low <= 2 * h.low + 1
    ensures 2 * h.high - 1 <= iv.high <= 2 * h.high
  {
    var low := if iv.low % 2 != 0 then iv.low - 1 else iv.low;
    var hi := if iv.high % 2 != 0 then iv.high + 1 else iv.high;
    Interval(low / 2, hi / 2)
  }

  /** The upsample rule, interval by interval. */
  function UpsampleRule(r: Region): (up: Region)
    ensures |up| == |r|
    ensures forall k :: 0 <= k < |r| ==> up[k] == HalveOutward(r[k])
    ensures Ordered(r) ==> Ordered(up)
  {
    if r == [] then []
    else [HalveOutward(r[0])] + UpsampleRule(r[1..])
  }

  /** LazyUpsample's loop: reassign each interval's bounds, then append the
      halved pair. */
  method UpsampleRegion(region: Region) returns (up: Region)
    ensures up == UpsampleRule(region)
  {
    up := [];
    for i := 0 to |region|
      invariant |up| == i
      invariant forall k :: 0 <= k < i ==> up[k] == HalveOutward(region[k])
    {
      var low, hi := region[i].low, region[i].high;
      if low % 2 != 0 {
        low := low - 1;
      }
      if hi % 2 != 0 {
        hi := hi + 1;
      }
      up := up + [Interval(low / 2, hi / 2)];
    }
  }

  /** Scaling the upsample rule's result back by 2 covers the request. */
  lemma UpsampleCovers(r: Region)
    ensures Covers(PoolingRule(UpsampleRule(r)), r)
  {
    var up := UpsampleRule(r);
    var back := PoolingRule(up);
    forall k | 0 <= k < |r| ensures Within(r[k], back[k]) {
      assert up[k] == HalveOutward(r[k]);
    }
  }

  /** ... and it is the smallest region that does: every `s` whose doubled
      region covers the request contains the upsample rule's result. */
  lemma UpsampleTightest(r: Region, s: Region)
    requires Covers(PoolingRule(s), r)
    ensures Covers(s, UpsampleRule(r))
  {
    var up := UpsampleRule(r);
    forall k | 0 <= k < |r| ensures Within(up[k], s[k]) {
      assert Within(r[k], PoolingRule(s)[k]);
      assert up[k] == HalveOutward(r[k]);
    }
  }

  /** Upsampling undoes pooling exactly: a doubled region halves back to
      itself. */
  lemma UpsampleAfterPooling(r: Region)
    ensures UpsampleRule(PoolingRule(r)) == r
  {
    var p := PoolingRule(r);
    var u := UpsampleRule(p);
    forall k | 0 <= k < |r| ensures u[k] == r[k] {
      assert u[k] == HalveOutward(p[k]);
      assert p[k] == Interval(2 * r[k].low, 2 * r[k].high);
    }
  }

  /** The region a node of the given kind asks of each of its inputs, once
      it has accumulated `acc`; None for an input node, whose rule sets
      nothing. Concatenation forwards its accumulated region unchanged. */
  function Derive(kind: Kind, acc: Region): (d: Option<Region>)
    ensures d.None? <==> kind.Input?
    ensures d.Some? ==> |d.value| == |acc|
    ensures kind.Concatenate? ==> d == Some(acc)
  {
    match kind
    case Input => None
    case Convolution => Some(ConvolutionRule(acc))
    case Concatenate => Some(acc)
    case Pooling => Some(PoolingRule(acc))
    case Upsample => Some(UpsampleRule(acc))
  }

  /** Every rule is monotone: a larger accumulated region derives a larger
      upstream region. */
  lemma DeriveMonotone(kind: Kind, a: Region, b: Region)
    requires Covers(b, a) && !kind.Input?
    ensures Covers(Derive(kind, b).value, Derive(kind, a).value)
  {
    if kind.Upsample? {
      var ua, ub := UpsampleRule(a), UpsampleRule(b);
      forall k | 0 <= k < |a| ensures Within(ua[k], ub[k]) {
        assert ua[k] == HalveOutward(a[k]) && ub[k] == HalveOutward(b[k]);
      }
    }
  }

  /** The dispatch of updateUpstreamRequestedRegion on the node's kind. It
      computes what `Derive` specifies; it exists separately so that the
      upsampling rule runs as the source's loop, `UpsampleRegion`. */
  method DeriveUpstream(kind: Kind, acc: Region) returns (d: Option<Region>)
    ensures d == Derive(kind, acc)
  {
    match kind {
      case Input =>
        d := None;
      case Convolution =>
        d := Some(ConvolutionRule(acc));
      case Concatenate =>
        d := Some(acc);
      case Pooling =>
        d := Some(PoolingRule(acc));
      case Upsample =>
        var up := UpsampleRegion(acc);
        d := Some(up);
    }
  }

  /** Every rule keeps low <= high. */
  lemma DeriveOrdered(kind: Kind, acc: Region)
    requires Ordered(acc) && Derive(kind, acc).Some?
    ensures Ordered(Derive(kind, acc).value)
  {
  }
}
