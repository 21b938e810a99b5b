/** What a request does to the whole network: which nodes it reaches, how
    their regions change, and that afterwards every component has recorded
    at least what its consumers derive. */
module Soundness {
  import opened Wrappers
  import opened Regions
  import opened Rules
  import opened Network

  /** Node `n` and every node reachable from it through inputs. */
  function Ancestors(g: seq<Node>, n: nat): (a: set<nat>)
    requires ValidGraph(g) && n < |g|
    ensures n in a
    ensures forall m :: m in a ==> m <= n
    decreases n, 1
  {
    {n} + AncestorsFrom(g, n, 0)
  }

  /** The ancestors of node `n`'s inputs from the `i`-th on. */
  function AncestorsFrom(g: seq<Node>, n: nat, i: nat): (a: set<nat>)
    requires ValidGraph(g) && n < |g| && i <= |g[n].inputs|
    ensures forall k :: i <= k < |g[n].inputs| ==> g[n].inputs[k] in a
    ensures forall m :: m in a ==> m < n
    decreases n, 0, |g[n].inputs| - i
  {
    if i == |g[n].inputs| then {}
    else Ancestors(g, g[n].inputs[i]) + AncestorsFrom(g, n, i + 1)
  }

  /** The requested node records the merge of the request and holds the
      region its rule derives from it. */
  lemma PropagateRecords(g: seq<Node>, st: State, n: nat, r: Region)
    requires ValidGraph(g) && Fits(g, st) && n < |g|
    ensures Propagate(g, st, n, r).requested[n] == Some(Record(st.requested[n], r))
    ensures Propagate(g, st, n, r).upstream[n] ==
              if g[n].kind.Input? then st.upstream[n]
              else Derive(g[n].kind, Record(st.requested[n], r))
  {
    var st1 := Receive(g, st, n, r);
    assert Propagate(g, st, n, r) == Forward(g, st1, n, 0);
  }

  // ---------------------------------------------------------------------
  // Monotone growth

  /** Every node's recorded region grows from `before` to `after`. */
  predicate AllGrow(before: State, after: State) {
    |after.requested| == |before.requested| &&
    forall j :: 0 <= j < |before.requested| ==> Grows(before.requested[j], after.requested[j])
  }

  lemma AllGrowTransitive(a: State, b: State, c: State)
    requires AllGrow(a, b) && AllGrow(b, c)
    ensures AllGrow(a, c)
  {
    forall j | 0 <= j < |a.requested| ensures Grows(a.requested[j], c.requested[j]) {
      GrowsTransitive(a.requested[j], b.requested[j], c.requested[j]);
    }
  }

  /** A request never shrinks or unsets any node's region. */
  lemma {:induction false} PropagateGrows(g: seq<Node>, st: State, n: nat, r: Region)
    requires ValidGraph(g) && Fits(g, st) && n < |g|
    ensures AllGrow(st, Propagate(g, st, n, r))
    decreases n, 1, 0
  {
    var st1 := Receive(g, st, n, r);
    RecordGrows(st.requested[n], r);
    assert AllGrow(st, st1);
    ForwardGrows(g, st1, n, 0);
    AllGrowTransitive(st, st1, Forward(g, st1, n, 0));
  }

  lemma {:induction false} ForwardGrows(g: seq<Node>, st: State, n: nat, i: nat)
    requires ValidGraph(g) && Fits(g, st) && n < |g| && i <= |g[n].inputs|
    requires i < |g[n].inputs| ==> st.upstream[n].Some?
    ensures AllGrow(st, Forward(g, st, n, i))
    decreases n, 0, |g[n].inputs| - i
  {
    if i == |g[n].inputs| {
      forall j | 0 <= j < |st.requested| ensures Grows(st.requested[j], st.requested[j]) {
        if st.requested[j].Some? {
          CoversReflexive(st.requested[j].value);
        }
      }
    } else {
      var st2 := Propagate(g, st, g[n].inputs[i], st.upstream[n].value);
      PropagateGrows(g, st, g[n].inputs[i], st.upstream[n].value);
      ForwardGrows(g, st2, n, i + 1);
      AllGrowTransitive(st, st2, Forward(g, st2, n, i + 1));
    }
  }

  // ---------------------------------------------------------------------
  // Reach: every ancestor is visited, nothing else changes

  /** Propagation is unconditional: whatever the node had recorded before,
      every ancestor of the requested node holds a region afterwards, and
      no other node changes. */
  lemma {:induction false} PropagateReach(g: seq<Node>, st: State, n: nat, r: Region)
    requires ValidGraph(g) && Fits(g, st) && n < |g|
    ensures forall m :: m in Ancestors(g, n) ==> Propagate(g, st, n, r).requested[m].Some?
    ensures forall j :: 0 <= j < |g| && j !in Ancestors(g, n) ==>
              Propagate(g, st, n, r).requested[j] == st.requested[j] &&
              Propagate(g, st, n, r).upstream[j] == st.upstream[j]
    decreases n, 1, 0
  {
    var st1 := Receive(g, st, n, r);
    ForwardReach(g, st1, n, 0);
  }

  lemma {:induction false} ForwardReach(g: seq<Node>, st: State, n: nat, i: nat)
    requires ValidGraph(g) && Fits(g, st) && n < |g| && i <= |g[n].inputs|
    requires i < |g[n].inputs| ==> st.upstream[n].Some?
    ensures forall m :: m in AncestorsFrom(g, n, i) ==> Forward(g, st, n, i).requested[m].Some?
    ensures forall j :: 0 <= j < |g| && j !in AncestorsFrom(g, n, i) ==>
              Forward(g, st, n, i).requested[j] == st.requested[j] &&
              Forward(g, st, n, i).upstream[j] == st.upstream[j]
    decreases n, 0, |g[n].inputs| - i
  {
    if i < |g[n].inputs| {
      var m := g[n].inputs[i];
      var st2 := Propagate(g, st, m, st.upstream[n].value);
      var st' := Forward(g, st2, n, i + 1);
      PropagateReach(g, st, m, st.upstream[n].value);
      ForwardReach(g, st2, n, i + 1);
      ForwardGrows(g, st2, n, i + 1);
      forall a | a in AncestorsFrom(g, n, i) ensures st'.requested[a].Some? {
        if a in Ancestors(g, m) {
          assert Grows(st2.requested[a], st'.requested[a]);
        }
      }
    }
  }

  // ---------------------------------------------------------------------
  // Served: every input covers what its consumer derives

  /** Every recorded region has `d` dimensions. */
  predicate Dimensions(st: State, d: nat) {
    forall j :: 0 <= j < |st.requested| && st.requested[j].Some? ==> |st.requested[j].value| == d
  }

  /** The `k`-th input of node `p` has recorded at least the region `p`
      derives from its own accumulated region. */
  predicate InputServed(g: seq<Node>, st: State, p: nat, k: nat)
    requires ValidGraph(g) && Fits(g, st) && p < |g| && k < |g[p].inputs|
  {
    var m := g[p].inputs[k];
    st.requested[p].None? || Derive(g[p].kind, st.requested[p].value).None? ||
    (st.requested[m].Some? &&
     Covers(st.requested[m].value, Derive(g[p].kind, st.requested[p].value).value))
  }

  /** Every input of every node is served. */
  predicate Served(g: seq<Node>, st: State)
    requires ValidGraph(g) && Fits(g, st)
  {
    forall p, k :: 0 <= p < |g| && 0 <= k < |g[p].inputs| ==> InputServed(g, st, p, k)
  }

  /** With the dimensions fixed, growth is containment. */
  lemma GrowsCovers(a: Region, b: Region, d: nat)
    requires Grows(Some(a), Some(b)) && |a| == d && |b| == d
    ensures Covers(b, a)
  {
  }

  /** An edge stays served while its consumer keeps its region and its
      input only grows. */
  lemma InputServedKept(g: seq<Node>, st: State, st': State, p: nat, k: nat, d: nat)
    requires ValidGraph(g) && Fits(g, st) && Fits(g, st') && p < |g| && k < |g[p].inputs|
    requires Dimensions(st, d) && Dimensions(st', d)
    requires st'.requested[p] == st.requested[p]
    requires Grows(st.requested[g[p].inputs[k]], st'.requested[g[p].inputs[k]])
    requires InputServed(g, st, p, k)
    ensures InputServed(g, st', p, k)
  {
    var m := g[p].inputs[k];
    if st.requested[p].Some? && Derive(g[p].kind, st.requested[p].value).Some? {
      GrowsCovers(st.requested[m].value, st'.requested[m].value, d);
      CoversTransitive(st'.requested[m].value, st.requested[m].value,
                       Derive(g[p].kind, st.requested[p].value).value);
    }
  }

  /** After a request of the recorded dimensions, the node covers the
      request, every edge out of its ancestors is served, and every edge
      that was served before still is. */
  lemma {:induction false} PropagateServes(g: seq<Node>, st: State, n: nat, r: Region, d: nat)
    requires ValidGraph(g) && Fits(g, st) && n < |g|
    requires Dimensions(st, d) && |r| == d
    ensures Dimensions(Propagate(g, st, n, r), d)
    ensures Covers(Propagate(g, st, n, r).requested[n].value, r)
    ensures forall p, k ::
              (0 <= p < |g| && 0 <= k < |g[p].inputs| &&
               (InputServed(g, st, p, k) || p in Ancestors(g, n))) ==>
              InputServed(g, Propagate(g, st, n, r), p, k)
    decreases n, 1, 0
  {
    var acc := Record(st.requested[n], r);
    var st1 := Receive(g, st, n, r);
    var st' := Forward(g, st1, n, 0);
    RecordCoversRequest(st.requested[n], r);
    assert st1.requested[n] == Some(acc);
    assert Dimensions(st1, d);
    RecordGrows(st.requested[n], r);
    forall p, k | 0 <= p < |g| && 0 <= k < |g[p].inputs| && p != n && InputServed(g, st, p, k)
      ensures InputServed(g, st1, p, k)
    {
      InputServedKept(g, st, st1, p, k, d);
    }
    ForwardServes(g, st1, n, 0, d);
    forall k | 0 <= k < |g[n].inputs| ensures InputServed(g, st', n, k) {
      assert st'.requested[n] == Some(acc);
    }
  }

  lemma {:induction false} ForwardServes(g: seq<Node>, st: State, n: nat, i: nat, d: nat)
    requires ValidGraph(g) && Fits(g, st) && n < |g| && i <= |g[n].inputs|
    requires i < |g[n].inputs| ==>
               st.requested[n].Some? && st.upstream[n] == Derive(g[n].kind, st.requested[n].value)
    requires Dimensions(st, d)
    ensures Dimensions(Forward(g, st, n, i), d)
    ensures forall k :: i <= k < |g[n].inputs| ==>
              Forward(g, st, n, i).requested[g[n].inputs[k]].Some? &&
              Covers(Forward(g, st, n, i).requested[g[n].inputs[k]].value, st.upstream[n].value)
    ensures forall p, k ::
              (0 <= p < |g| && 0 <= k < |g[p].inputs| &&
               (InputServed(g, st, p, k) || p in AncestorsFrom(g, n, i))) ==>
              InputServed(g, Forward(g, st, n, i), p, k)
    decreases n, 0, |g[n].inputs| - i
  {
    if i < |g[n].inputs| {
      var m := g[n].inputs[i];
      var up := st.upstream[n].value;
      var st2 := Propagate(g, st, m, up);
      var st' := Forward(g, st2, n, i + 1);
      PropagateServes(g, st, m, up, d);
      ForwardServes(g, st2, n, i + 1, d);
      ForwardGrows(g, st2, n, i + 1);
      assert Grows(st2.requested[m], st'.requested[m]);
      GrowsCovers(st2.requested[m].value, st'.requested[m].value, d);
      CoversTransitive(st'.requested[m].value, st2.requested[m].value, up);
    }
  }

  /** The served invariant: from a served network whose regions all have
      `d` dimensions, a request of `d` dimensions leaves the network served
      and the requested node covering the request. */
  lemma PropagateKeepsServed(g: seq<Node>, st: State, n: nat, r: Region, d: nat)
    requires ValidGraph(g) && Fits(g, st) && n < |g|
    requires Served(g, st) && Dimensions(st, d) && |r| == d
    ensures Served(g, Propagate(g, st, n, r)) && Dimensions(Propagate(g, st, n, r), d)
    ensures Covers(Propagate(g, st, n, r).requested[n].value, r)
  {
    PropagateServes(g, st, n, r, d);
  }

  /** The first request on a freshly built network: the requested node
      records a copy of the request, every ancestor records a region that
      serves its consumers and holds the upstream region derived from it,
      and nodes that are not ancestors stay unset. */
  lemma FirstRequest(g: seq<Node>, n: nat, r: Region)
    requires ValidGraph(g) && n < |g|
    ensures Propagate(g, Initial(|g|), n, r).requested[n] == Some(r)
    ensures Served(g, Propagate(g, Initial(|g|), n, r))
    ensures forall m :: m in Ancestors(g, n) ==> Propagate(g, Initial(|g|), n, r).requested[m].Some?
    ensures forall j :: 0 <= j < |g| && j !in Ancestors(g, n) ==>
              Propagate(g, Initial(|g|), n, r).requested[j].None?
    ensures Derived(g, Propagate(g, Initial(|g|), n, r))
  {
    PropagateKeepsDerived(g, Initial(|g|), n, r);
    PropagateRecords(g, Initial(|g|), n, r);
    PropagateKeepsServed(g, Initial(|g|), n, r, |r|);
    PropagateReach(g, Initial(|g|), n, r);
  }

  // ---------------------------------------------------------------------
  // Least: a node records no more than its consumers ask of it

  /** Node `m` holds nothing outside `c`. */
  predicate Bounded(st: State, m: nat, c: Region)
    requires m < |st.requested|
  {
    st.requested[m].None? || Covers(c, st.requested[m].value)
  }

  /** `c` contains what every node of `nodes` that lists `m` among its
      inputs derives from its region in `st`. */
  predicate BoundsConsumers(g: seq<Node>, st: State, nodes: set<nat>, m: nat, c: Region)
    requires ValidGraph(g) && Fits(g, st)
  {
    forall p :: 0 <= p < |g| && p in nodes && m in g[p].inputs && st.requested[p].Some? ==>
      Covers(c, Derive(g[p].kind, st.requested[p].value).value)
  }

  /** A bound on node `m` survives a request when it contains the request
      (if `m` is the requested node) and what every ancestor that lists `m`
      as an input derives at the end. */
  lemma {:induction false} PropagateBounded(g: seq<Node>, st: State, n: nat, r: Region,
                                            m: nat, c: Region, d: nat)
    requires ValidGraph(g) && Fits(g, st) && n < |g| && m < |g|
    requires Dimensions(st, d) && |r| == d && |c| == d
    requires Bounded(st, m, c) && (m == n ==> Covers(c, r))
    requires BoundsConsumers(g, Propagate(g, st, n, r), Ancestors(g, n), m, c)
    ensures Bounded(Propagate(g, st, n, r), m, c)
    decreases n, 1, 0
  {
    var acc := Record(st.requested[n], r);
    var st1 := Receive(g, st, n, r);
    var st' := Forward(g, st1, n, 0);
    assert st' == Propagate(g, st, n, r);
    RecordKeepsDimensions(st.requested[n], r);
    assert st1.requested[n] == Some(acc);
    assert Dimensions(st1, d);
    if m == n && st.requested[n].Some? && st.requested[n].value != [] {
      UnionLeast(st.requested[n].value, r, c);
    }
    assert Bounded(st1, m, c);
    if m in g[n].inputs {
      assert st'.requested[n] == Some(acc);
    }
    ForwardBounded(g, st1, n, 0, m, c, d);
  }

  lemma {:induction false} ForwardBounded(g: seq<Node>, st: State, n: nat, i: nat,
                                          m: nat, c: Region, d: nat)
    requires ValidGraph(g) && Fits(g, st) && n < |g| && m < |g| && i <= |g[n].inputs|
    requires i < |g[n].inputs| ==>
               st.requested[n].Some? && st.upstream[n] == Derive(g[n].kind, st.requested[n].value)
    requires Dimensions(st, d) && |c| == d
    requires Bounded(st, m, c)
    requires m in g[n].inputs[i..] ==> Covers(c, st.upstream[n].value)
    requires BoundsConsumers(g, Forward(g, st, n, i), AncestorsFrom(g, n, i), m, c)
    ensures Bounded(Forward(g, st, n, i), m, c)
    decreases n, 0, |g[n].inputs| - i
  {
    if i < |g[n].inputs| {
      var q := g[n].inputs[i];
      var up := st.upstream[n].value;
      var st2 := Propagate(g, st, q, up);
      var st' := Forward(g, st2, n, i + 1);
      assert st' == Forward(g, st, n, i);
      PropagateServes(g, st, q, up, d);
      ForwardServes(g, st2, n, i + 1, d);
      ForwardGrows(g, st2, n, i + 1);
      forall p | 0 <= p < |g| && p in Ancestors(g, q) && m in g[p].inputs && st2.requested[p].Some?
        ensures Covers(c, Derive(g[p].kind, st2.requested[p].value).value)
      {
        assert Grows(st2.requested[p], st'.requested[p]);
        GrowsCovers(st2.requested[p].value, st'.requested[p].value, d);
        DeriveMonotone(g[p].kind, st2.requested[p].value, st'.requested[p].value);
        CoversTransitive(c, Derive(g[p].kind, st'.requested[p].value).value,
                         Derive(g[p].kind, st2.requested[p].value).value);
      }
      assert g[n].inputs[i..][0] == q;
      PropagateBounded(g, st, q, up, m, c, d);
      assert g[n].inputs[i + 1..] == g[n].inputs[i..][1..];
      ForwardBounded(g, st2, n, i + 1, m, c, d);
    }
  }

  /** The first request on a fresh network records at every ancestor `m`
      other than the requested node the least region that serves its
      consumers: any region of the request's dimensions that contains what
      every ancestor listing `m` as an input derives contains what `m`
      records. With `FirstRequest` this makes each ancestor's region the
      hull of what its consumers ask of it. */
  lemma FirstRequestLeast(g: seq<Node>, n: nat, r: Region, m: nat, c: Region)
    requires ValidGraph(g) && n < |g|
    requires m in Ancestors(g, n) && m != n && |c| == |r|
    requires BoundsConsumers(g, Propagate(g, Initial(|g|), n, r), Ancestors(g, n), m, c)
    ensures Propagate(g, Initial(|g|), n, r).requested[m].Some?
    ensures Covers(c, Propagate(g, Initial(|g|), n, r).requested[m].value)
  {
    PropagateReach(g, Initial(|g|), n, r);
    PropagateBounded(g, Initial(|g|), n, r, m, c, |r|);
  }

  // ---------------------------------------------------------------------
  // Redundant re-propagation changes nothing

  /** Every non-input node that has a region holds the upstream region its
      rule derives from it. */
  predicate Derived(g: seq<Node>, st: State)
    requires ValidGraph(g) && Fits(g, st)
  {
    forall p :: 0 <= p < |g| && st.requested[p].Some? && !g[p].kind.Input? ==>
      st.upstream[p] == Derive(g[p].kind, st.requested[p].value)
  }

  /** Each request leaves every visited node holding its derived region. */
  lemma {:induction false} PropagateKeepsDerived(g: seq<Node>, st: State, n: nat, r: Region)
    requires ValidGraph(g) && Fits(g, st) && n < |g| && Derived(g, st)
    ensures Derived(g, Propagate(g, st, n, r))
    decreases n, 1, 0
  {
    var st1 := Receive(g, st, n, r);
    assert Derived(g, st1);
    ForwardKeepsDerived(g, st1, n, 0);
  }

  lemma {:induction false} ForwardKeepsDerived(g: seq<Node>, st: State, n: nat, i: nat)
    requires ValidGraph(g) && Fits(g, st) && n < |g| && i <= |g[n].inputs|
    requires i < |g[n].inputs| ==> st.upstream[n].Some?
    requires Derived(g, st)
    ensures Derived(g, Forward(g, st, n, i))
    decreases n, 0, |g[n].inputs| - i
  {
    if i < |g[n].inputs| {
      var st2 := Propagate(g, st, g[n].inputs[i], st.upstream[n].value);
      PropagateKeepsDerived(g, st, g[n].inputs[i], st.upstream[n].value);
      ForwardKeepsDerived(g, st2, n, i + 1);
    }
  }

  /** In a served, derived network, requesting a region the node already
      covers leaves every node as it was: the source's unconditional
      re-propagation is redundant there, though it still walks every
      ancestor. */
  lemma {:induction false} PropagateCoveredIsNoOp(g: seq<Node>, st: State, n: nat, r: Region)
    requires ValidGraph(g) && Fits(g, st) && n < |g|
    requires Served(g, st) && Derived(g, st)
    requires st.requested[n].Some? && Covers(st.requested[n].value, r)
    ensures Propagate(g, st, n, r) == st
    decreases n, 1, 0
  {
    var acc := st.requested[n].value;
    RecordIdempotent(acc, r);
    var st1 := Receive(g, st, n, r);
    assert st1.requested == st.requested;
    assert st1.upstream == st.upstream;
    ForwardCoveredIsNoOp(g, st, n, 0);
  }

  lemma {:induction false} ForwardCoveredIsNoOp(g: seq<Node>, st: State, n: nat, i: nat)
    requires ValidGraph(g) && Fits(g, st) && n < |g| && i <= |g[n].inputs|
    requires Served(g, st) && Derived(g, st)
    requires i < |g[n].inputs| ==> st.requested[n].Some?
    ensures Forward(g, st, n, i) == st
    decreases n, 0, |g[n].inputs| - i
  {
    if i < |g[n].inputs| {
      var m := g[n].inputs[i];
      assert InputServed(g, st, n, i);
      PropagateCoveredIsNoOp(g, st, m, st.upstream[n].value);
      ForwardCoveredIsNoOp(g, st, n, i + 1);
    }
  }
}
