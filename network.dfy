/** The network of lazy components and the merge-and-propagate operation
    (LazyNetworkComponent.updateRequestedRegion). Nodes live in an arena:
    node `n`'s inputs are indices of nodes built before it, which is how
    the components are wired bottom-up, and which rules out cycles. */
module Network {
  import opened Wrappers
  import opened Regions
  import opened Rules

  /** A component: its kind and the ordered list of its inputs. */
  datatype Node = Node(kind: Kind, inputs: seq<nat>)

  /** What each component's constructor wires up when it becomes node `id`:
      an input has no inputs, a concatenation any list, the other kinds
      exactly one; all of them already built. */
  predicate Wired(kind: Kind, inputs: seq<nat>, id: nat) {
    (forall i :: 0 <= i < |inputs| ==> inputs[i] < id) &&
    match kind
    case Input => inputs == []
    case Concatenate => true
    case _ => |inputs| == 1
  }

  predicate ValidGraph(g: seq<Node>) {
    forall n :: 0 <= n < |g| ==> Wired(g[n].kind, g[n].inputs, n)
  }

  /** The mutable part of every component: its accumulated
      `requestedRegion` and its last derived `upstream_region`. */
  datatype State = State(requested: seq<Option<Region>>, upstream: seq<Option<Region>>)

  predicate Fits(g: seq<Node>, st: State) {
    |st.requested| == |g| && |st.upstream| == |g|
  }

  /** Every component as constructed: nothing requested, nothing derived. */
  function Initial(size: nat): (st: State)
    ensures |st.requested| == size && |st.upstream| == size
    ensures forall j :: 0 <= j < size ==> st.requested[j].None? && st.upstream[j].None?
  {
    State(seq(size, _ => None), seq(size, _ => None))
  }

  /** The state once node `n` has taken `region` in, before it forwards
      anything: it records the merge and derives its upstream region by its
      kind's rule (an input keeps whatever it had). */
  function Receive(g: seq<Node>, st: State, n: nat, region: Region): (st': State)
    requires ValidGraph(g) && Fits(g, st) && n < |g|
    ensures Fits(g, st') && st'.requested[n].Some?
    ensures !g[n].kind.Input? ==> st'.upstream[n].Some?
    ensures forall j :: 0 <= j < |g| && j != n ==>
              st'.requested[j] == st.requested[j] && st'.upstream[j] == st.upstream[j]
  {
    var acc := Record(st.requested[n], region);
    var derived := Derive(g[n].kind, acc);
    State(st.requested[n := Some(acc)],
          if derived.Some? then st.upstream[n := derived] else st.upstream)
  }

  /** The state after node `n` receives `region`: it takes the region in,
      then forwards its upstream region to every input in order. */
  function Propagate(g: seq<Node>, st: State, n: nat, region: Region): (st': State)
    requires ValidGraph(g) && Fits(g, st) && n < |g|
    ensures Fits(g, st') && st'.requested[n].Some?
    ensures forall j :: n < j < |g| ==>
              st'.requested[j] == st.requested[j] && st'.upstream[j] == st.upstream[j]
    decreases n, 1, 0
  {
    Forward(g, Receive(g, st, n, region), n, 0)
  }

  /** Node `n` forwards its current upstream region to its inputs from the
      `i`-th on, one after the other; the region is read again before each
      call, as the source reads `self.upstream_region` on every iteration. */
  function Forward(g: seq<Node>, st: State, n: nat, i: nat): (st': State)
    requires ValidGraph(g) && Fits(g, st) && n < |g| && i <= |g[n].inputs|
    requires i < |g[n].inputs| ==> st.upstream[n].Some?
    ensures Fits(g, st')
    ensures forall j :: n <= j < |g| ==>
              st'.requested[j] == st.requested[j] && st'.upstream[j] == st.upstream[j]
    decreases n, 0, |g[n].inputs| - i
  {
    if i == |g[n].inputs| then st
    else Forward(g, Propagate(g, st, g[n].inputs[i], st.upstream[n].value), n, i + 1)
  }

  /** The in-place `zip` loop that merges a request into a non-empty
      recorded region. */
  method MergeRegion(acc: Region, region: Region) returns (merged: Region)
    ensures merged == Union(acc, region)
  {
    merged := acc;
    var k := 0;
    while k < |merged| && k < |region|
      invariant |merged| == |acc| && k <= |acc| && k <= |region|
      invariant forall j :: 0 <= j < k ==> merged[j] == Hull(acc[j], region[j])
      invariant forall j :: k <= j < |acc| ==> merged[j] == acc[j]
    {
      var low := if region[k].low < merged[k].low then region[k].low else merged[k].low;
      var high := if region[k].high > merged[k].high then region[k].high else merged[k].high;
      merged := merged[k := Interval(low, high)];
      k := k + 1;
    }
  }

  /** All components of one network with their mutable state. */
  class LazyNetwork {
    var nodes: seq<Node>
    var requested: seq<Option<Region>>
    var upstream: seq<Option<Region>>

    ghost predicate Valid()
      reads this
    {
      ValidGraph(nodes) && Fits(nodes, Snapshot())
    }

    function Snapshot(): State
      reads this
    {
      State(requested, upstream)
    }

    constructor ()
      ensures Valid() && nodes == [] && Snapshot() == Initial(0)
    {
      nodes, requested, upstream := [], [], [];
    }

    /** Builds one component over inputs that already exist; its region
        starts unset. */
    method AddNode(kind: Kind, inputs: seq<nat>) returns (id: nat)
      requires Valid() && Wired(kind, inputs, |nodes|)
      modifies this
      ensures Valid()
      ensures id == old(|nodes|) && nodes == old(nodes) + [Node(kind, inputs)]
      ensures requested == old(requested) + [None] && upstream == old(upstream) + [None]
      ensures old(Snapshot()) == Initial(old(|nodes|)) ==> Snapshot() == Initial(|nodes|)
    {
      id := |nodes|;
      nodes := nodes + [Node(kind, inputs)];
      requested := requested + [None];
      upstream := upstream + [None];
    }

    /** The first half of updateRequestedRegion: copy or merge the request
        into node `n`'s accumulated region, then derive its upstream region. */
    method RecordRequest(n: nat, region: Region)
      requires Valid() && n < |nodes|
      modifies this
      ensures Valid() && nodes == old(nodes)
      ensures Snapshot() == Receive(nodes, old(Snapshot()), n, region)
      ensures nodes[n].inputs != [] ==> upstream[n].Some?
    {
      var merged;
      if requested[n].None? || requested[n].value == [] {
        merged := region;
      } else {
        merged := MergeRegion(requested[n].value, region);
      }
      requested := requested[n := Some(merged)];
      var derived := DeriveUpstream(nodes[n].kind, merged);
      if derived.Some? {
        upstream := upstream[n := derived];
      }
    }

    /** Merges `region` into node `n`'s accumulated region, derives its
        upstream region and requests it from every input in turn. */
    method UpdateRequestedRegion(n: nat, region: Region)
      requires Valid() && n < |nodes|
      modifies this
      ensures Valid() && nodes == old(nodes)
      ensures Snapshot() == Propagate(nodes, old(Snapshot()), n, region)
      decreases n, 1
    {
      RecordRequest(n, region);
      ForwardToInputs(n);
    }

    /** The second half of updateRequestedRegion: the loop that requests
        node `n`'s upstream region, read afresh each time, from each of its
        inputs in order. */
    method ForwardToInputs(n: nat)
      requires Valid() && n < |nodes|
      requires nodes[n].inputs != [] ==> upstream[n].Some?
      modifies this
      ensures Valid() && nodes == old(nodes)
      ensures Snapshot() == Forward(nodes, old(Snapshot()), n, 0)
      decreases n, 0
    {
      ghost var g, start := nodes, State(requested, upstream);
      ghost var target := Forward(g, start, n, 0);
      var inputs := nodes[n].inputs;
      for i := 0 to |inputs|
        invariant nodes == g && Fits(g, State(requested, upstream))
        invariant upstream[n] == start.upstream[n]
        invariant Forward(g, State(requested, upstream), n, i) == target
      {
        UpdateRequestedRegion(inputs[i], upstream[n].value);
      }
    }
  }
}
