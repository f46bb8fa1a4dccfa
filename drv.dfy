// The DRM driver front end (sunh5_drv.c): the pitch of dumb buffers and
// the walk over the device-tree graph that `sunh5_drv_probe` makes to
// collect the display pipeline's components.
module Drv {
  import opened Wrappers

  // ---- dumb_create ----

  const U32_LIMIT: int := 0x1_0000_0000

  /** `sunh5_drm_gem_dumb_create`: ALIGN(DIV_ROUND_UP(width * bpp, 8), 2),
      with the product and the rounding sum taken in 32 bits as in C. */
  function Pitch(width: nat, bpp: nat): nat
    requires width < U32_LIMIT && bpp < U32_LIMIT
  {
    var bytes := ((width * bpp) % U32_LIMIT + 7) % U32_LIMIT / 8;
    (bytes + 1) / 2 * 2
  }

  /** The bytes a line of `width` pixels of `bpp` bits needs, rounded up. */
  function LineBytes(width: nat, bpp: nat): nat
  {
    (width * bpp + 7) / 8
  }

  /** The pitch is even, and when the product and the rounding fit in 32
      bits it holds a whole line and wastes at most one byte. */
  lemma PitchBounds(width: nat, bpp: nat)
    requires width < U32_LIMIT && bpp < U32_LIMIT
    ensures Pitch(width, bpp) % 2 == 0
    ensures width * bpp + 7 < U32_LIMIT ==>
      LineBytes(width, bpp) <= Pitch(width, bpp) <= LineBytes(width, bpp) + 1
    ensures width * bpp + 7 < U32_LIMIT ==> width * bpp <= 8 * Pitch(width, bpp)
  {
    var p := width * bpp;
    var bytes := (p % U32_LIMIT + 7) % U32_LIMIT / 8;
    if p + 7 < U32_LIMIT {
      assert p % U32_LIMIT == p;
      assert (p + 7) % U32_LIMIT == p + 7;
      assert bytes == LineBytes(width, bpp);
    }
  }

  /** Past 32 bits the product wraps: a 2^29-pixel line of 8-bit pixels
      gets pitch 0. */
  lemma PitchWraps()
    ensures Pitch(0x2000_0000, 8) == 0
    ensures LineBytes(0x2000_0000, 8) == 0x2000_0000
  {
    assert 0x2000_0000 * 8 == U32_LIMIT;
  }

  /** RGB888 at 1920 pixels needs 5760 bytes a line; a 1-bit 3-pixel line
      needs one byte and gets two. */
  lemma PitchExamples()
    ensures Pitch(1920, 24) == 5760
    ensures Pitch(3, 1) == 2
  {
  }

  // ---- the device-tree graph ----

  /** An endpoint of a node's output port: whether it is available and the
      node at the other end, when `of_graph_get_remote_port_parent` finds one. */
  datatype Endpoint = Endpoint(available: bool, remote: Option<nat>)

  /** A device-tree node of the pipeline: whether it is an "hdmi-connector",
      whether it is available, and its port 1 when it has one. */
  datatype Node = Node(connector: bool, available: bool, port1: Option<seq<Endpoint>>)

  /** Nodes by index; the remotes of endpoints are indices into it. */
  type Graph = seq<Node>

  /** The remotes `sunh5_drv_traverse_endpoints` puts, in order: those of
      the available endpoints that have one. */
  function Remotes(eps: seq<Endpoint>): (r: seq<nat>)
    ensures |r| <= |eps|
  {
    if eps == [] then []
    else
      var last := eps[|eps| - 1];
      Remotes(eps[..|eps| - 1]) + (if last.available && last.remote.Some? then [last.remote.value] else [])
  }

  /** Exactly the remotes of the available endpoints are put. */
  lemma {:induction false} RemotesMembers(eps: seq<Endpoint>, x: nat)
    ensures x in Remotes(eps) <==> exists i :: 0 <= i < |eps| && eps[i].available && eps[i].remote == Some(x)
  {
    if eps != [] {
      var init := eps[..|eps| - 1];
      RemotesMembers(init, x);
      if x in Remotes(init) {
        var i :| 0 <= i < |init| && init[i].available && init[i].remote == Some(x);
        assert eps[i] == init[i];
      }
      if exists i :: 0 <= i < |eps| && eps[i].available && eps[i].remote == Some(x) {
        var i :| 0 <= i < |eps| && eps[i].available && eps[i].remote == Some(x);
        if i < |init| {
          assert init[i] == eps[i];
        }
      }
    }
  }

  /** What processing a node puts into the FIFO: its port-1 remotes, none for
      a connector or a node without port 1. */
  function Enqueued(node: Node): seq<nat>
  {
    if node.connector || node.port1.None? then [] else Remotes(node.port1.value)
  }

  /** The pipeline graph is acyclic: every node's outputs come later in the
      numbering. The probe keeps no visited set, so on a cycle it would not stop. */
  predicate WellFormed(g: Graph)
  {
    forall n, r :: 0 <= n < |g| && r in Enqueued(g[n]) ==> n < r < |g|
  }

  predicate InGraph(g: Graph, xs: seq<nat>)
  {
    forall i :: 0 <= i < |xs| ==> xs[i] < |g|
  }

  // ---- the FIFO ----

  /** The capacity of `struct endpoint_list`'s kfifo. */
  const FIFO_SIZE: nat := 16

  /** `kfifo_put`: a put into a full FIFO is dropped. */
  function Put(fifo: seq<nat>, x: nat): seq<nat>
  {
    if |fifo| < FIFO_SIZE then fifo + [x] else fifo
  }

  lemma PutOne(fifo: seq<nat>, x: nat)
    ensures PutAll(fifo, [x]) == Put(fifo, x)
  {
    assert [x][..0] == [];
  }

  /** A sequence of puts, in order. */
  function PutAll(fifo: seq<nat>, xs: seq<nat>): seq<nat>
  {
    if xs == [] then fifo else Put(PutAll(fifo, xs[..|xs| - 1]), xs[|xs| - 1])
  }

  lemma PutAllSnoc(fifo: seq<nat>, xs: seq<nat>, x: nat)
    ensures PutAll(fifo, xs + [x]) == Put(PutAll(fifo, xs), x)
  {
    assert (xs + [x])[..|xs|] == xs;
  }

  /** The puts keep the first entries that fit and drop every later one. */
  lemma {:induction false} PutAllTruncates(fifo: seq<nat>, xs: seq<nat>)
    requires |fifo| <= FIFO_SIZE
    ensures |PutAll(fifo, xs)| == if |fifo| + |xs| < FIFO_SIZE then |fifo| + |xs| else FIFO_SIZE
    ensures PutAll(fifo, xs) == (fifo + xs)[..|PutAll(fifo, xs)|]
  {
    if xs != [] {
      var init := xs[..|xs| - 1];
      PutAllTruncates(fifo, init);
      assert (fifo + xs)[..|fifo| + |init|] == fifo + init;
      var k := |PutAll(fifo, init)|;
      assert (fifo + xs)[..k] == (fifo + init)[..k];
      if k < FIFO_SIZE {
        assert (fifo + xs)[..k + 1] == (fifo + xs)[..k] + [xs[|xs| - 1]];
      }
    }
  }

  // ---- the probe walk ----

  /** The walk's state: the FIFO, the count of components and the nodes
      added to the component match, in order. */
  datatype Walk = Walk(fifo: seq<nat>, count: int, matches: seq<nat>)

  /** A node added to the match: not a connector, and available. */
  predicate Matchable(g: Graph, n: nat)
  {
    n < |g| && !g[n].connector && g[n].available
  }

  /** One turn of the probe loop on the dequeued node `n`
      (`sunh5_drv_add_endpoint` and `count += ret`). */
  function Visit(g: Graph, w: Walk, n: nat): Walk
    requires n < |g|
  {
    var node := g[n];
    if node.connector then w
    else if node.available then Walk(PutAll(w.fifo, Enqueued(node)), w.count + 1, w.matches + [n])
    else Walk(PutAll(w.fifo, Enqueued(node)), w.count, w.matches)
  }

  /** How many times a walk started from `n` processes a node: `n` itself
      and every path out of it. */
  function Weight(g: Graph, n: nat): nat
    requires WellFormed(g) && n < |g|
    decreases |g| - n, 1
  {
    OutputsLater(g, n);
    1 + TotalAbove(g, Enqueued(g[n]), n)
  }

  lemma OutputsLater(g: Graph, n: nat)
    requires WellFormed(g) && n < |g|
    ensures forall i :: 0 <= i < |Enqueued(g[n])| ==> n < Enqueued(g[n])[i] < |g|
  {
    var outs := Enqueued(g[n]);
    forall i | 0 <= i < |outs|
      ensures n < outs[i] < |g|
    {
      assert outs[i] in outs;
    }
  }

  function TotalAbove(g: Graph, xs: seq<nat>, floor: int): nat
    requires WellFormed(g) && -1 <= floor
    requires forall i :: 0 <= i < |xs| ==> floor < xs[i] < |g|
    decreases |g| - floor, 0, |xs|
  {
    if xs == [] then 0
    else TotalAbove(g, xs[..|xs| - 1], floor) + Weight(g, xs[|xs| - 1])
  }

  /** The total weight of the nodes in a FIFO, which every turn lowers. */
  function Total(g: Graph, xs: seq<nat>): nat
    requires WellFormed(g) && InGraph(g, xs)
  {
    TotalAbove(g, xs, -1)
  }

  lemma {:induction false} FloorFree(g: Graph, xs: seq<nat>, floor: int)
    requires WellFormed(g) && -1 <= floor
    requires forall i :: 0 <= i < |xs| ==> floor < xs[i] < |g|
    ensures TotalAbove(g, xs, floor) == Total(g, xs)
  {
    if xs != [] {
      FloorFree(g, xs[..|xs| - 1], floor);
    }
  }

  lemma {:induction false} TotalAppend(g: Graph, a: seq<nat>, b: seq<nat>)
    requires WellFormed(g) && InGraph(g, a) && InGraph(g, b)
    ensures InGraph(g, a + b)
    ensures Total(g, a + b) == Total(g, a) + Total(g, b)
  {
    if b == [] {
      assert a + b == a;
    } else {
      var init := b[..|b| - 1];
      assert (a + b)[..|a + b| - 1] == a + init;
      assert (a + b)[|a + b| - 1] == b[|b| - 1];
      TotalAppend(g, a, init);
    }
  }

  lemma TotalPrefix(g: Graph, s: seq<nat>, k: nat)
    requires WellFormed(g) && InGraph(g, s) && k <= |s|
    ensures InGraph(g, s[..k]) && Total(g, s[..k]) <= Total(g, s)
  {
    assert s == s[..k] + s[k..];
    TotalAppend(g, s[..k], s[k..]);
  }

  /** A turn lowers the FIFO's total weight: it removes the dequeued node
      and adds at most the paths out of it. */
  lemma VisitLowers(g: Graph, w: Walk)
    requires WellFormed(g) && InGraph(g, w.fifo) && w.fifo != [] && |w.fifo| <= FIFO_SIZE
    ensures InGraph(g, Visit(g, w.(fifo := w.fifo[1..]), w.fifo[0]).fifo)
    ensures |Visit(g, w.(fifo := w.fifo[1..]), w.fifo[0]).fifo| <= FIFO_SIZE
    ensures Total(g, Visit(g, w.(fifo := w.fifo[1..]), w.fifo[0]).fifo) < Total(g, w.fifo)
  {
    var n, rest := w.fifo[0], w.fifo[1..];
    assert w.fifo == [n] + rest;
    TotalAppend(g, [n], rest);
    assert Total(g, [n]) == Weight(g, n) by {
      assert [n][..0] == [];
      assert TotalAbove(g, [], -1) == 0;
    }
    var outs := Enqueued(g[n]);
    OutputsLater(g, n);
    FloorFree(g, outs, n);
    TotalAppend(g, rest, outs);
    PutAllTruncates(rest, outs);
    TotalPrefix(g, rest + outs, |PutAll(rest, outs)|);
  }

  /** The rest of the probe loop: turns until the FIFO is empty. */
  function Run(g: Graph, w: Walk): (r: Walk)
    requires WellFormed(g) && InGraph(g, w.fifo) && |w.fifo| <= FIFO_SIZE
    ensures r.fifo == []
    ensures r.count - w.count == |r.matches| - |w.matches|
    ensures |w.matches| <= |r.matches| && r.matches[..|w.matches|] == w.matches
    ensures forall i :: |w.matches| <= i < |r.matches| ==> Matchable(g, r.matches[i])
    decreases Total(g, w.fifo)
  {
    if w.fifo == [] then w
    else
      VisitLowers(g, w);
      var next := Visit(g, w.(fifo := w.fifo[1..]), w.fifo[0]);
      var r := Run(g, next);
      assert r.matches[..|w.matches|] == r.matches[..|next.matches|][..|w.matches|];
      r
  }

  /** One turn of the loop, then the rest. */
  lemma RunStep(g: Graph, w: Walk)
    requires WellFormed(g) && InGraph(g, w.fifo) && |w.fifo| <= FIFO_SIZE && w.fifo != []
    ensures InGraph(g, Visit(g, w.(fifo := w.fifo[1..]), w.fifo[0]).fifo)
    ensures |Visit(g, w.(fifo := w.fifo[1..]), w.fifo[0]).fifo| <= FIFO_SIZE
    ensures Run(g, w) == Run(g, Visit(g, w.(fifo := w.fifo[1..]), w.fifo[0]))
  {
    VisitLowers(g, w);
  }

  /** The probe counts each added component once: the count is the length
      of the match list, and only available non-connector nodes are in it. */
  lemma RunCounts(g: Graph, pipelines: seq<nat>)
    requires WellFormed(g) && InGraph(g, pipelines)
    ensures |PutAll([], pipelines)| <= FIFO_SIZE && InGraph(g, PutAll([], pipelines))
    ensures var r := Run(g, Walk(PutAll([], pipelines), 0, []));
      r.count == |r.matches| && forall i :: 0 <= i < |r.matches| ==> Matchable(g, r.matches[i])
  {
    PutAllTruncates([], pipelines);
    assert ([] + pipelines) == pipelines;
  }

  /** `sunh5_drv_add_endpoint`'s port walk (`sunh5_drv_traverse_endpoints`). */
  method TraverseEndpoints(fifo: seq<nat>, node: Node) returns (out: seq<nat>)
    requires !node.connector
    ensures out == PutAll(fifo, Enqueued(node))
  {
    out := fifo;
    if node.port1.None? {
      return;
    }
    var eps := node.port1.value;
    var i := 0;
    while i < |eps|
      invariant i <= |eps|
      invariant out == PutAll(fifo, Remotes(eps[..i]))
    {
      assert eps[..i + 1][..i] == eps[..i];
      assert eps[..i + 1][i] == eps[i];
      ghost var before := Remotes(eps[..i]);
      if eps[i].available && eps[i].remote.Some? {
        assert Remotes(eps[..i + 1]) == before + [eps[i].remote.value];
        PutAllSnoc(fifo, before, eps[i].remote.value);
        out := Put(out, eps[i].remote.value);
      } else {
        assert Remotes(eps[..i + 1]) == before;
      }
      i := i + 1;
    }
    assert eps[..i] == eps;
  }

  /** `sunh5_drv_add_endpoint`: a connector ends the walk and counts
      nothing; otherwise an available node joins the match and counts one,
      and every node, available or not, has its outputs followed. */
  method AddEndpoint(g: Graph, n: nat, fifo: seq<nat>, matches: seq<nat>)
    returns (count: int, fifoOut: seq<nat>, matchesOut: seq<nat>)
    requires n < |g|
    ensures count == Visit(g, Walk(fifo, 0, matches), n).count
    ensures fifoOut == Visit(g, Walk(fifo, 0, matches), n).fifo
    ensures matchesOut == Visit(g, Walk(fifo, 0, matches), n).matches
    ensures count == (if Matchable(g, n) then 1 else 0)
  {
    count, fifoOut, matchesOut := 0, fifo, matches;
    if g[n].connector {
      return;
    }
    if g[n].available {
      matchesOut := matchesOut + [n];
      count := count + 1;
    }
    fifoOut := TraverseEndpoints(fifo, g[n]);
  }

  /** The first loop of `sunh5_drv_probe`: each node of
      "allwinner,pipelines" is put into the empty FIFO. */
  method QueuePipelines(g: Graph, pipelines: seq<nat>) returns (fifo: seq<nat>)
    requires InGraph(g, pipelines)
    ensures fifo == PutAll([], pipelines)
    ensures |fifo| <= FIFO_SIZE && InGraph(g, fifo)
  {
    fifo := [];
    var i := 0;
    while i < |pipelines|
      invariant i <= |pipelines|
      invariant fifo == PutAll([], pipelines[..i])
    {
      assert pipelines[..i + 1] == pipelines[..i] + [pipelines[i]];
      PutAllSnoc([], pipelines[..i], pipelines[i]);
      fifo := Put(fifo, pipelines[i]);
      i := i + 1;
    }
    assert pipelines[..i] == pipelines;
    PutAllTruncates([], pipelines);
    assert [] + pipelines == pipelines;
  }

  /** `sunh5_drv_probe`, given the nodes of "allwinner,pipelines" and what
      `component_master_add_with_match` would return. The walk is `Run`
      from the FIFO holding the pipelines; with nothing counted the probe
      succeeds without registering a master. */
  method Probe(g: Graph, pipelines: seq<nat>, masterRet: int) returns (r: int, matches: seq<nat>)
    requires WellFormed(g) && InGraph(g, pipelines)
    ensures |PutAll([], pipelines)| <= FIFO_SIZE && InGraph(g, PutAll([], pipelines))
    ensures matches == Run(g, Walk(PutAll([], pipelines), 0, [])).matches
    ensures r == (if Run(g, Walk(PutAll([], pipelines), 0, [])).count == 0 then 0 else masterRet)
  {
    var fifo := QueuePipelines(g, pipelines);
    var count := 0;
    matches := [];
    ghost var start := Walk(fifo, 0, []);
    while fifo != []
      invariant InGraph(g, fifo) && |fifo| <= FIFO_SIZE
      invariant Run(g, Walk(fifo, count, matches)) == Run(g, start)
      decreases Total(g, fifo)
    {
      var n := fifo[0];
      ghost var w := Walk(fifo, count, matches);
      VisitLowers(g, w);
      var ret;
      ret, fifo, matches := AddEndpoint(g, n, fifo[1..], matches);
      count := count + ret;
      assert Walk(fifo, count, matches) == Visit(g, w.(fifo := w.fifo[1..]), n);
    }
    r := if count == 0 then 0 else masterRet;
  }

  // ---- what the walk does not guard against ----

  /** Two pipelines meeting in one node: 0 and 1 both feed 2. */
  const Diamond: Graph := [
    Node(false, true, Some([Endpoint(true, Some(2))])),
    Node(false, true, Some([Endpoint(true, Some(2))])),
    Node(false, true, None)]

  /** With no visited set, a node reached by two paths is added to the match
      and counted twice. */
  lemma DiamondWellFormed()
    ensures WellFormed(Diamond)
  {
    assert Enqueued(Diamond[0]) == [2];
    assert Enqueued(Diamond[1]) == [2];
    assert Enqueued(Diamond[2]) == [];
  }

  lemma ReachedTwiceCountedTwice()
    ensures WellFormed(Diamond)
    ensures Run(Diamond, Walk([0, 1], 0, [])).matches == [0, 1, 2, 2]
    ensures Run(Diamond, Walk([0, 1], 0, [])).count == 4
  {
    DiamondWellFormed();
    DiamondVisits();
    var g := Diamond;
    var w0 := Walk([0, 1], 0, []);
    var w1 := Walk([1, 2], 1, [0]);
    var w2 := Walk([2, 2], 2, [0, 1]);
    var w3 := Walk([2], 3, [0, 1, 2]);
    var w4 := Walk([], 4, [0, 1, 2, 2]);
    assert w0.fifo[1..] == [1] && w1.fifo[1..] == [2] && w2.fifo[1..] == [2] && w3.fifo[1..] == [];
    RunStep(g, w0);
    RunStep(g, w1);
    RunStep(g, w2);
    RunStep(g, w3);
    assert Run(g, w4) == w4;
  }

  /** The four visits of the diamond walk, one node at a time. */
  lemma DiamondVisits()
    ensures Visit(Diamond, Walk([1], 0, []), 0) == Walk([1, 2], 1, [0])
    ensures Visit(Diamond, Walk([2], 1, [0]), 1) == Walk([2, 2], 2, [0, 1])
    ensures Visit(Diamond, Walk([2], 2, [0, 1]), 2) == Walk([2], 3, [0, 1, 2])
    ensures Visit(Diamond, Walk([], 3, [0, 1, 2]), 2) == Walk([], 4, [0, 1, 2, 2])
  {
    DiamondWellFormed();
    assert Enqueued(Diamond[0]) == [2];
    assert Enqueued(Diamond[1]) == [2];
    assert Enqueued(Diamond[2]) == [];
    PutOne([1], 2);
    PutOne([2], 2);
  }

  /** An unavailable node is not counted but its outputs are still followed. */
  lemma UnavailableStillFollowed(g: Graph, w: Walk, n: nat)
    requires n < |g| && !g[n].connector && !g[n].available
    ensures Visit(g, w, n).count == w.count && Visit(g, w, n).matches == w.matches
    ensures Visit(g, w, n).fifo == PutAll(w.fifo, Enqueued(g[n]))
  {
  }
}
