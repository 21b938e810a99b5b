# LazyNetwork region propagation, modelled in Dafny

LazyNetwork is a receptive-field calculator. A network is built bottom-up
out of lazy components: an input, 3x3 convolutions, 2x poolings, 2x
upsamplings and channel concatenations. A spatial region is requested at
the output component. A region is one inclusive `[low, high]` interval per
spatial dimension. The request is pushed backwards through the graph
towards the input. Every component keeps the region it has accumulated so
far (`requestedRegion`):

- The first request copies the region in.
- Each later request widens the accumulated region, per dimension, to the
  min of the lows and the max of the highs.

After merging, the component derives the region it needs from its inputs
(`upstream_region`) by its kind's rule. It then forwards that region to
each input in order. It does this on every call, even when the merge
changed nothing.

The project models this in six modules:

- `Wrappers` (wrappers.dfy): the `Option` type, for a region that is not set.

- `Regions` (regions.dfy): intervals and regions, and the merge. `Union` is
  the `zip` loop that pairs dimensions. `Record` is the whole first-or-later
  step, including the truth test, which also treats an empty recorded
  region as unset.
- `Rules` (rules.dfy): the closed set of component kinds and their
  derivation rules. The convolution, pooling and concatenation rules are
  functions. The upsampling loop is the method `UpsampleRegion`, proved
  against the function `UpsampleRule`.
- `Network` (network.dfy): the graph is an arena. Node `n` lists its inputs
  by index, and every input index is smaller than `n`. This is the
  bottom-up construction, and it rules out cycles. The class `LazyNetwork`
  holds the per-node `requested` and `upstream` values as sequence fields.
  Its method `UpdateRequestedRegion` is the recursive merge-and-propagate
  operation. It runs in two steps, `RecordRequest` (merge and derive) and
  `ForwardToInputs` (the loop over the inputs). It is proved equal to the
  specification function `Propagate`, whose forwarding half `Forward` reads
  the node's upstream region again before each input, as the source does.
- `Soundness` (soundness.dfy): what one request does to the whole
  network, with these lemmas:
  - no region ever shrinks;
  - every ancestor of the requested node is visited, and nothing else
    changes;
  - when all requests have the same number of dimensions, every input has
    recorded at least what each of its consumers derives (the *served*
    invariant);
  - after the first request on a fresh network, every ancestor has
    recorded no more than that: its region is the least one that serves
    its consumers;
  - in a network that is served and *derived* (every non-input node holds
    the upstream region its rule gives for its own region), repeating a
    request that is already covered changes no state. Every state reached
    from a freshly built network by requests is derived
    (`PropagateKeepsDerived`).
- `Scenarios` (scenarios.dfy): worked numbers for the merge and for each
  rule.

The model follows these details of the code:

- The input component's rule does nothing: `LazyInput` never sets
  `upstream_region`, so the model leaves `upstream` unchanged.
- A request whose number of dimensions differs from the recorded one is
  paired with it by `zip`: the recorded length is kept, extra incoming
  dimensions are ignored, and no error is raised.
- An empty recorded region counts as unset, so the next request replaces
  it.
- The upstream region is re-derived and forwarded on every call, whether
  or not the merge changed the accumulated region.

## Model

| member | source | states |
|---|---|---|
| Regions.Hull | lazyNetwork.py:13-14 | the merged interval contains the recorded and the new interval, and lies inside every interval that contains both (least upper bound) |
| Regions.Union | lazyNetwork.py:12-14 | the merge keeps the recorded region's length; each of the first min(recorded, incoming) dimensions becomes the hull of the pair; recorded dimensions beyond the incoming ones are left as they were; extra incoming dimensions are ignored |
| Regions.Record | lazyNetwork.py:9-14 | a node with no region, or an empty one, stores the request verbatim; otherwise the result contains the recorded region with the same dimensions, and also contains every paired incoming interval |
| Regions.RecordGrows | lazyNetwork.py:9-14 | one request never shrinks a recorded non-empty region: lows never rise, highs never fall, and the dimension count is kept; an unset or empty region may be replaced by anything |
| Regions.RecordKeepsDimensions | lazyNetwork.py:9-14 | the dimension count is the request's on first use and the recorded one afterwards |
| Regions.RecordCoversRequest | lazyNetwork.py:9-14 | when the dimensions agree, the accumulated region contains the request |
| Regions.UnionLeast | lazyNetwork.py:12-14 | any region that contains both the recorded region and a request of the same dimensions contains their merge |
| Regions.RecordIdempotent | lazyNetwork.py:12-14 | requesting a region the node already covers leaves the accumulated region unchanged |
| Regions.RecordTwice | lazyNetwork.py:9-14 | the same request made twice in a row has the effect of making it once, whatever the dimensions |
| Rules.ConvolutionRule | lazyNetwork.py:34-35 | maps each [a, b] to [a-1, b+1]; keeps the dimension count; contains the input region; keeps low <= high |
| Rules.PoolingRule | lazyNetwork.py:50-51 | maps each [a, b] to [2a, 2b]; keeps the dimension count; keeps low <= high |
| Rules.HalveOutward | lazyNetwork.py:59-64 | for [low, hi] the result [l, h] satisfies 2l <= low <= 2l+1 and 2h-1 <= hi <= 2h |
| Rules.UpsampleRule | lazyNetwork.py:57-64 | applies HalveOutward to every interval; keeps the dimension count; keeps low <= high |
| Rules.UpsampleRegion | lazyNetwork.py:57-64 | the loop that rounds odd bounds outward and appends the halved pair computes exactly UpsampleRule |
| Rules.UpsampleCovers | lazyNetwork.py:57-64 | scaling the upsample rule's result back by 2 covers the requested region |
| Rules.UpsampleTightest | lazyNetwork.py:57-64 | every region whose doubling covers the request contains the upsample rule's result, so the rule is the smallest such region |
| Rules.UpsampleAfterPooling | lazyNetwork.py:44-64 | the upsample rule undoes the pooling rule exactly |
| Rules.Derive | lazyNetwork.py:22-64 | an input derives nothing and every other kind derives a region of the same dimensions; concatenation forwards its accumulated region unchanged |
| Rules.DeriveMonotone | lazyNetwork.py:22-64 | every rule that derives a region is monotone: a larger accumulated region derives a larger upstream region |
| Rules.DeriveUpstream | lazyNetwork.py:15 | dispatching on the node's kind, with upsampling run as its loop, yields exactly the kind's rule |
| Rules.DeriveOrdered | lazyNetwork.py:22-64 | every rule keeps low <= high |
| Network.Initial | lazyNetwork.py:5-6 | a freshly built network has no requested and no derived region anywhere |
| Network.Receive | lazyNetwork.py:9-15 | taking a request in sets the node's region, gives every non-input node an upstream region, and touches no other node |
| Network.Propagate | lazyNetwork.py:7-17 | a request leaves the node with a region and changes no node built after it |
| Network.Forward | lazyNetwork.py:16-17 | forwarding to the inputs changes neither node n nor any node built after it |
| Network.MergeRegion | lazyNetwork.py:12-14 | the in-place zip loop computes exactly Union |
| Network.LazyNetwork.constructor | lazyNetwork.py:4-6 | a new network is empty, and its state is Initial(0) |
| Network.LazyNetwork.AddNode | lazyNetwork.py:22-56 | building a component over existing inputs appends it with no region and no upstream region and changes no other node, so a network built only by AddNode is in the state Initial |
| Network.LazyNetwork.RecordRequest | lazyNetwork.py:9-15 | the merge-and-derive step leaves the state given by Receive |
| Network.LazyNetwork.UpdateRequestedRegion | lazyNetwork.py:7-17 | the recursive call leaves the whole network in the state given by Propagate |
| Network.LazyNetwork.ForwardToInputs | lazyNetwork.py:16-17 | the loop over the inputs leaves the state given by Forward |
| Soundness.PropagateRecords | lazyNetwork.py:9-15 | after a request the node holds Record of its old region and the request, and a non-input node holds that region's derived upstream region |
| Soundness.PropagateGrows | lazyNetwork.py:7-17 | a request never shrinks or unsets any node's region anywhere in the network (monotone growth) |
| Soundness.ForwardGrows | lazyNetwork.py:16-17 | forwarding to the inputs never shrinks or unsets any region |
| Soundness.PropagateReach | lazyNetwork.py:15-17 | propagation is unconditional: whatever was recorded before, every ancestor of the requested node holds a region afterwards, and no node outside the ancestors changes |
| Soundness.ForwardReach | lazyNetwork.py:16-17 | forwarding reaches every ancestor of the remaining inputs and changes nothing else |
| Soundness.PropagateServes | lazyNetwork.py:7-17 | with consistent dimensions, the requested node covers the request, every input of every ancestor covers what its consumer derives, and every edge served before is still served |
| Soundness.ForwardServes | lazyNetwork.py:16-17 | after forwarding, every remaining input covers the forwarded region, and served edges stay served |
| Soundness.PropagateKeepsServed | lazyNetwork.py:7-17 | the served invariant is preserved by every request of the recorded dimensions |
| Soundness.FirstRequest | lazyNetwork.py:5-17 | on a fresh network, the first request is copied verbatim into the requested node; every ancestor then holds a region that serves its consumers and the upstream region derived from it, and every other node stays unset |
| Soundness.PropagateBounded | lazyNetwork.py:7-17 | a node stays inside a region c through a request when c contains the request (if the node is the requested one) and what every ancestor listing the node as an input finally derives |
| Soundness.ForwardBounded | lazyNetwork.py:16-17 | the same bound survives forwarding, when c also contains the forwarded region if the node is one of the remaining inputs |
| Soundness.FirstRequestLeast | lazyNetwork.py:5-17 | after the first request on a fresh network, every ancestor other than the requested node records a region contained in every region (of the request's dimensions) that contains what each of its consumers derives: together with FirstRequest, the least region that serves its consumers |
| Soundness.PropagateKeepsDerived | lazyNetwork.py:15-17 | every non-input node with a region keeps holding the upstream region derived from it |
| Soundness.ForwardKeepsDerived | lazyNetwork.py:16-17 | forwarding keeps every node's upstream region derived from its region |
| Soundness.PropagateCoveredIsNoOp | lazyNetwork.py:7-17 | in a served and derived network, re-requesting a region the node already covers leaves every node unchanged, though the walk still runs |
| Soundness.ForwardCoveredIsNoOp | lazyNetwork.py:16-17 | in a served and derived network, forwarding an already-served region changes nothing |
| Scenarios.MergeExample | lazyNetwork.py:9-14 | [0, 10] then [5, 20] accumulates [0, 20] |
| Scenarios.ConvolutionExample | lazyNetwork.py:35 | [0, 10] derives [-1, 11] |
| Scenarios.PoolingExample | lazyNetwork.py:51 | [0, 10] derives [0, 20] |
| Scenarios.UpsampleExamples | lazyNetwork.py:57-64 | [1, 11] derives [0, 6], and [-3, -3] derives [-2, -1] (floor semantics below zero) |

## Left out

- The tensor library import and each layer's `component` payload (lazyNetwork.py:1, 31, 39, 48, 55): no region logic reads the payload.
- The demonstration at lazyNetwork.py:65-118 builds a four-level encoder-decoder and prints the input's region. It is a caller and does printing, so it is not modelled, and its printed span is not reproduced.
- The base class's `NotImplementedError` (lazyNetwork.py:18-19): the kind is a closed datatype, so a node without a rule cannot exist.
- Cyclic graphs: the source would recurse forever. The arena requires every input index to be below the node's own index.
- Update in place and aliasing: the model works on region values. Two things in the source are not represented:
  - the in-place mutation of the two-element interval lists;
  - the alias between a concatenation's `upstream_region` and its `requestedRegion`.

  Neither is observable, because a receiver copies a region on first use and only ever mutates its own intervals.
- Intervals other than pairs of integers: the model's bounds are integers and every interval has exactly two of them. The source would also take float bounds, and interval lists longer than two at an input node or in a merge (which only reads the first two entries); only the rules that unpack an interval reject them.
- Object identity: components are arena indices, not objects holding references to each other. Sharing an ancestor is two nodes listing the same index.
- Call-stack depth: Python's recursion limit on very deep graphs is not modelled.
- Soundness.PropagateServes: assumes every request and every recorded region has the same number of dimensions. With mismatched dimensions the source's `zip` truncation can leave an input uncovered, and the lemma says nothing about that case.
