/**
 * The review network graph (frontend/src/components/NetworkGraph.js): the
 * initial ring layout, one tick of the force simulation and the choice of
 * edges that are drawn.
 *
 * The tick is written out with its constants (centering 0.005, repulsion
 * 800 / dist², springs 0.01 * (dist - 100), damping 0.85) in exact real
 * arithmetic; `Math.sqrt` is the parameter `sqrt`, about which nothing is
 * assumed. What is proved is the structure of the tick, not its physics.
 */
module NetworkGraph {
  import opened Wrappers

  /** A node of the graph data as the component receives it. */
  datatype GraphNode = GraphNode(id: string, classLabel: Option<string>, confidence: Option<real>, group: string)

  /** An edge between two node ids. */
  datatype Edge = Edge(source: string, target: string, relationship: string)

  datatype GraphData = GraphData(nodes: seq<GraphNode>, edges: seq<Edge>)

  /**
   * A node in the simulation: the received fields, a position, a velocity
   * and the optional pinned coordinates `fx`/`fy` (`null` is `None`).
   */
  datatype SimNode = SimNode(node: GraphNode, x: real, y: real, vx: real, vy: real, fx: Option<real>, fy: Option<real>)

  /** A force or velocity increment. */
  datatype Vec = Vec(dx: real, dy: real) {
    function Plus(other: Vec): Vec {
      Vec(dx + other.dx, dy + other.dy)
    }
  }

  const Zero := Vec(0.0, 0.0)

  // ---------------------------------------------------------------------------
  // Initialisation
  // ---------------------------------------------------------------------------

  /** The ring radius: 150 for user nodes, 250 for every other group. */
  function Radius(group: string): (r: real)
    ensures group == "user" ==> r == 150.0
    ensures group != "user" ==> r == 250.0
  {
    if group == "user" then 150.0 else 250.0
  }

  /**
   * The initial state of node `i`. `dir` stands for `(cos, sin)` of the
   * node's angle on the ring and `jitter` for the two `Math.random()` draws.
   */
  function InitialNode(n: GraphNode, width: real, height: real, dir: (real, real), jitter: (real, real)): (r: SimNode)
    ensures r.node == n && r.vx == 0.0 && r.vy == 0.0 && r.fx.None? && r.fy.None?
  {
    SimNode(n,
      width / 2.0 + dir.0 * Radius(n.group) + (jitter.0 - 0.5) * 50.0,
      height / 2.0 + dir.1 * Radius(n.group) + (jitter.1 - 0.5) * 50.0,
      0.0, 0.0, None, None)
  }

  /**
   * The `graphData.nodes.map(...)` that lays the nodes out: one simulation
   * node per received node, in order, at rest and not pinned.
   */
  function InitialNodes(nodes: seq<GraphNode>, width: real, height: real, dirs: seq<(real, real)>, jitters: seq<(real, real)>): (r: seq<SimNode>)
    requires |dirs| == |nodes| && |jitters| == |nodes|
    ensures |r| == |nodes|
    ensures forall i :: 0 <= i < |r| ==> r[i].node == nodes[i]
    ensures forall i :: 0 <= i < |r| ==> r[i].vx == 0.0 && r[i].vy == 0.0 && r[i].fx == None && r[i].fy == None
  {
    seq(|nodes|, i requires 0 <= i < |nodes| => InitialNode(nodes[i], width, height, dirs[i], jitters[i]))
  }

  /**
   * With draws in [0, 1) each coordinate lies within 25 of the point on the
   * ring, and with a unit direction that point is at the group's radius from
   * the centre of the canvas.
   */
  lemma InitialPlacement(n: GraphNode, width: real, height: real, dir: (real, real), jitter: (real, real))
    requires 0.0 <= jitter.0 < 1.0 && 0.0 <= jitter.1 < 1.0
    requires dir.0 * dir.0 + dir.1 * dir.1 == 1.0
    ensures var s := InitialNode(n, width, height, dir, jitter);
      var px := width / 2.0 + dir.0 * Radius(n.group);
      var py := height / 2.0 + dir.1 * Radius(n.group);
      && -25.0 <= s.x - px < 25.0 && -25.0 <= s.y - py < 25.0
      && (px - width / 2.0) * (px - width / 2.0) + (py - height / 2.0) * (py - height / 2.0) == Radius(n.group) * Radius(n.group)
  {
    var r := Radius(n.group);
    assert (dir.0 * r) * (dir.0 * r) + (dir.1 * r) * (dir.1 * r) == (dir.0 * dir.0 + dir.1 * dir.1) * (r * r);
  }

  // ---------------------------------------------------------------------------
  // Forces
  // ---------------------------------------------------------------------------

  /** The index of the first node with id `id` (`nodes.find`). */
  function Find(nodes: seq<SimNode>, id: string): (r: Option<nat>)
    ensures r.Some? ==>
      r.value < |nodes| && nodes[r.value].node.id == id && (forall k :: 0 <= k < r.value ==> nodes[k].node.id != id)
    ensures r.None? ==> forall k :: 0 <= k < |nodes| ==> nodes[k].node.id != id
    decreases |nodes|
  {
    if nodes == [] then None
    else if nodes[0].node.id == id then Some(0)
    else
      var r := Find(nodes[1..], id);
      if r.Some? then Some(r.value + 1) else None
  }

  /** `Math.sqrt(dx * dx + dy * dy) || 1`: never zero. */
  function Dist(dx: real, dy: real, sqrt: real -> real): (d: real)
    ensures d != 0.0
  {
    var s := sqrt(dx * dx + dy * dy);
    if s == 0.0 then 1.0 else s
  }

  /** The pull towards the canvas centre. */
  function Centering(n: SimNode, width: real, height: real): Vec {
    Vec((width / 2.0 - n.x) * 0.005, (height / 2.0 - n.y) * 0.005)
  }

  /** The push of `other` on `n`, of size 800 / dist² and directed away from `other`. */
  function Repel(x: real, y: real, otherX: real, otherY: real, sqrt: real -> real): Vec {
    var dx := x - otherX;
    var dy := y - otherY;
    var dist := Dist(dx, dy, sqrt);
    var force := 800.0 / (dist * dist);
    Vec(dx / dist * force, dy / dist * force)
  }

  /** The spring between `n` and the other end of an edge, of size 0.01 * (dist - 100). */
  function Spring(x: real, y: real, otherX: real, otherY: real, sqrt: real -> real): Vec {
    var dx := otherX - x;
    var dy := otherY - y;
    var dist := Dist(dx, dy, sqrt);
    var force := 0.01 * (dist - 100.0);
    Vec(dx / dist * force, dy / dist * force)
  }

  /** The pushes of nodes `0 .. count - 1` other than node `i` itself, added in order. */
  function Repulsion(nodes: seq<SimNode>, i: nat, count: nat, sqrt: real -> real): Vec
    requires i < |nodes| && count <= |nodes|
    decreases count
  {
    if count == 0 then Zero
    else
      var before := Repulsion(nodes, i, count - 1, sqrt);
      if count - 1 == i then before else before.Plus(Repel(nodes[i].x, nodes[i].y, nodes[count - 1].x, nodes[count - 1].y, sqrt))
  }

  /**
   * What one edge adds to node `i`: a spring to the target when `i` is the
   * source and the target exists, and a spring to the source when `i` is the
   * target and the source exists.
   */
  function EdgePull(nodes: seq<SimNode>, e: Edge, i: nat, sqrt: real -> real): Vec
    requires i < |nodes|
  {
    var id := nodes[i].node.id;
    var target := Find(nodes, e.target);
    var source := Find(nodes, e.source);
    var fromSource := if e.source == id && target.Some? then Spring(nodes[i].x, nodes[i].y, nodes[target.value].x, nodes[target.value].y, sqrt) else Zero;
    var fromTarget := if e.target == id && source.Some? then Spring(nodes[i].x, nodes[i].y, nodes[source.value].x, nodes[source.value].y, sqrt) else Zero;
    fromSource.Plus(fromTarget)
  }

  /** The pulls of the edges on node `i`, added in list order. */
  function EdgePulls(nodes: seq<SimNode>, edges: seq<Edge>, i: nat, sqrt: real -> real): Vec
    requires i < |nodes|
    decreases |edges|
  {
    if edges == [] then Zero
    else EdgePulls(nodes, edges[..|edges| - 1], i, sqrt).Plus(EdgePull(nodes, edges[|edges| - 1], i, sqrt))
  }

  /** An edge one of whose ends names no node. */
  predicate Dangling(nodes: seq<SimNode>, e: Edge) {
    Find(nodes, e.source).None? || Find(nodes, e.target).None?
  }

  /** A dangling edge pulls on no node. */
  lemma DanglingEdgeNoPull(nodes: seq<SimNode>, e: Edge, i: nat, sqrt: real -> real)
    requires i < |nodes| && Dangling(nodes, e)
    ensures EdgePull(nodes, e, i, sqrt) == Zero
  {
  }

  /** Adding a dangling edge to the list leaves the pull on every node as it was. */
  lemma DanglingEdgeIgnored(nodes: seq<SimNode>, edges: seq<Edge>, e: Edge, i: nat, sqrt: real -> real)
    requires i < |nodes| && Dangling(nodes, e)
    ensures EdgePulls(nodes, edges + [e], i, sqrt) == EdgePulls(nodes, edges, i, sqrt)
  {
    assert (edges + [e])[..|edges|] == edges;
    DanglingEdgeNoPull(nodes, e, i, sqrt);
  }

  /** A node with `fx` or `fy` set is skipped by the force loop. */
  predicate Pinned(n: SimNode) {
    n.fx.Some? || n.fy.Some?
  }

  /**
   * The velocity of node `i` after the force loop: centering, then the
   * pushes, then the edge pulls added to it, then damped by 0.85. A pinned
   * node is left as it is.
   */
  function Accelerate(nodes: seq<SimNode>, edges: seq<Edge>, i: nat, width: real, height: real, sqrt: real -> real): (r: SimNode)
    requires i < |nodes|
    ensures Pinned(nodes[i]) ==> r == nodes[i]
    ensures r == nodes[i].(vx := r.vx, vy := r.vy)
  {
    var n := nodes[i];
    if Pinned(n) then n
    else
      var c := Centering(n, width, height);
      var p := Repulsion(nodes, i, |nodes|, sqrt);
      var e := EdgePulls(nodes, edges, i, sqrt);
      n.(vx := (n.vx + c.dx + p.dx + e.dx) * 0.85, vy := (n.vy + c.dy + p.dy + e.dy) * 0.85)
  }

  /** Every node after the force loop; all forces are computed from the positions before it. */
  function Accelerated(nodes: seq<SimNode>, edges: seq<Edge>, width: real, height: real, sqrt: real -> real): (r: seq<SimNode>)
    ensures |r| == |nodes|
    ensures forall i :: 0 <= i < |nodes| ==> r[i] == Accelerate(nodes, edges, i, width, height, sqrt)
  {
    seq(|nodes|, i requires 0 <= i < |nodes| => Accelerate(nodes, edges, i, width, height, sqrt))
  }

  /** The new position of a node: its pinned coordinate, else the old one plus the velocity. */
  function MoveNode(n: SimNode): (r: SimNode)
    ensures r.node == n.node && r.vx == n.vx && r.vy == n.vy && r.fx == n.fx && r.fy == n.fy
    ensures n.fx.Some? ==> r.x == n.fx.value
    ensures n.fx.None? ==> r.x == n.x + n.vx
    ensures n.fy.Some? ==> r.y == n.fy.value
    ensures n.fy.None? ==> r.y == n.y + n.vy
  {
    n.(x := if n.fx.Some? then n.fx.value else n.x + n.vx,
       y := if n.fy.Some? then n.fy.value else n.y + n.vy)
  }

  /** The `nodes.map(...)` that builds the next node list. */
  function Moved(nodes: seq<SimNode>): (r: seq<SimNode>)
    ensures |r| == |nodes|
    ensures forall i :: 0 <= i < |nodes| ==> r[i] == MoveNode(nodes[i])
  {
    seq(|nodes|, i requires 0 <= i < |nodes| => MoveNode(nodes[i]))
  }

  /**
   * A tick keeps the number and order of the nodes and every field except
   * the position and the velocity; a pinned node keeps its velocity and
   * ends at its pinned coordinates.
   */
  lemma TickStructure(nodes: seq<SimNode>, edges: seq<Edge>, width: real, height: real, sqrt: real -> real)
    ensures var after := Moved(Accelerated(nodes, edges, width, height, sqrt));
      && |after| == |nodes|
      && (forall i :: 0 <= i < |nodes| ==>
            after[i].node == nodes[i].node && after[i].fx == nodes[i].fx && after[i].fy == nodes[i].fy)
      && (forall i :: 0 <= i < |nodes| && Pinned(nodes[i]) ==> after[i].vx == nodes[i].vx && after[i].vy == nodes[i].vy)
      && (forall i :: 0 <= i < |nodes| && nodes[i].fx.Some? ==> after[i].x == nodes[i].fx.value)
      && (forall i :: 0 <= i < |nodes| && nodes[i].fy.Some? ==> after[i].y == nodes[i].fy.value)
  {
  }

  /** A node with neither coordinate pinned moves by exactly its new velocity. */
  lemma FreeNodeMoves(nodes: seq<SimNode>, edges: seq<Edge>, i: nat, width: real, height: real, sqrt: real -> real)
    requires i < |nodes| && !Pinned(nodes[i])
    ensures var a := Accelerated(nodes, edges, width, height, sqrt)[i];
      Moved(Accelerated(nodes, edges, width, height, sqrt))[i] == a.(x := nodes[i].x + a.vx, y := nodes[i].y + a.vy)
  {
  }

  // ---------------------------------------------------------------------------
  // simulate
  // ---------------------------------------------------------------------------

  /** The force loop leaves ids and positions alone: every node agrees with `start` on them. */
  predicate SamePlaces(nodes: seq<SimNode>, start: seq<SimNode>) {
    |nodes| == |start| &&
    forall k :: 0 <= k < |nodes| ==> nodes[k].node == start[k].node && nodes[k].x == start[k].x && nodes[k].y == start[k].y
  }

  /** `nodes.find(n => n.id === id)` on the node array. */
  method FindNode(nodes: array<SimNode>, id: string) returns (found: Option<nat>)
    ensures found == Find(nodes[..], id)
  {
    var j := 0;
    while j < nodes.Length
      invariant 0 <= j <= nodes.Length
      invariant forall k :: 0 <= k < j ==> nodes[k].node.id != id
    {
      if nodes[j].node.id == id {
        FindFirst(nodes[..], id, j);
        return Some(j);
      }
      j := j + 1;
    }
    FindFirst(nodes[..], id, nodes.Length);
    found := None;
  }

  /** `Find` returns the first index with the id, or nothing when there is none. */
  lemma {:induction false} FindFirst(nodes: seq<SimNode>, id: string, j: nat)
    requires j <= |nodes| && forall k :: 0 <= k < j ==> nodes[k].node.id != id
    requires j < |nodes| ==> nodes[j].node.id == id
    ensures Find(nodes, id) == if j < |nodes| then Some(j) else None
    decreases j
  {
    if j > 0 {
      FindFirst(nodes[1..], id, j - 1);
    }
  }

  /** `Find` only looks at ids. */
  lemma {:induction false} FindSamePlaces(nodes: seq<SimNode>, start: seq<SimNode>, id: string)
    requires SamePlaces(nodes, start)
    ensures Find(nodes, id) == Find(start, id)
    decreases |nodes|
  {
    if nodes != [] {
      FindSamePlaces(nodes[1..], start[1..], id);
    }
  }

  /**
   * One frame's `simulate()`. When the simulation is off nothing changes and
   * no new node list is made. Otherwise the force loop updates the
   * velocities of the nodes in place, and the new node list is the moved
   * copy.
   */
  method Simulate(nodes: array<SimNode>, edges: seq<Edge>, isSimulating: bool, width: real, height: real, sqrt: real -> real)
    returns (newNodes: Option<seq<SimNode>>)
    modifies nodes
    ensures !isSimulating ==> newNodes == None && nodes[..] == old(nodes[..])
    ensures isSimulating ==>
      nodes[..] == Accelerated(old(nodes[..]), edges, width, height, sqrt) && newNodes == Some(Moved(nodes[..]))
  {
    if !isSimulating {
      return None;
    }
    ghost var start := nodes[..];
    var i := 0;
    while i < nodes.Length
      invariant 0 <= i <= nodes.Length
      invariant SamePlaces(nodes[..], start)
      invariant forall k :: 0 <= k < i ==> nodes[k] == Accelerate(start, edges, k, width, height, sqrt)
      invariant forall k :: i <= k < nodes.Length ==> nodes[k] == start[k]
    {
      var node := nodes[i];
      if node.fx.Some? || node.fy.Some? {
        i := i + 1;
        continue;
      }
      var updated := ApplyForces(nodes, edges, i, width, height, sqrt, start);
      nodes[i] := updated;
      i := i + 1;
    }
    assert nodes[..] == Accelerated(start, edges, width, height, sqrt);
    newNodes := Some(Moved(nodes[..]));
  }

  /**
   * The loop body for a node that is not pinned: centering, the pushes and
   * the edge pulls are added to its velocity, which is then damped.
   */
  method ApplyForces(nodes: array<SimNode>, edges: seq<Edge>, i: nat, width: real, height: real, sqrt: real -> real, ghost start: seq<SimNode>)
    returns (updated: SimNode)
    requires i < nodes.Length && SamePlaces(nodes[..], start) && nodes[i] == start[i] && !Pinned(start[i])
    ensures updated == Accelerate(start, edges, i, width, height, sqrt)
  {
    var node := nodes[i];
    var c := Centering(node, width, height);
    var vx := node.vx + c.dx;
    var vy := node.vy + c.dy;
    var push := RepulsionOf(nodes, i, sqrt, start);
    vx := vx + push.dx;
    vy := vy + push.dy;
    var pull := PullsOf(nodes, edges, i, sqrt, start);
    vx := vx + pull.dx;
    vy := vy + pull.dy;
    vx := vx * 0.85;
    vy := vy * 0.85;
    updated := node.(vx := vx, vy := vy);
  }

  /** The inner `for j` loop: the pushes of all other nodes on node `i`, in order. */
  method RepulsionOf(nodes: array<SimNode>, i: nat, sqrt: real -> real, ghost start: seq<SimNode>) returns (push: Vec)
    requires i < nodes.Length && SamePlaces(nodes[..], start)
    ensures push == Repulsion(start, i, |start|, sqrt)
  {
    push := Zero;
    var j := 0;
    while j < nodes.Length
      invariant 0 <= j <= nodes.Length
      invariant push == Repulsion(start, i, j, sqrt)
    {
      if i != j {
        push := push.Plus(Repel(nodes[i].x, nodes[i].y, nodes[j].x, nodes[j].y, sqrt));
      }
      j := j + 1;
    }
  }

  /** The `graphData.edges.forEach` loop: the pulls of all edges on node `i`, in order. */
  method PullsOf(nodes: array<SimNode>, edges: seq<Edge>, i: nat, sqrt: real -> real, ghost start: seq<SimNode>) returns (pull: Vec)
    requires i < nodes.Length && SamePlaces(nodes[..], start)
    ensures pull == EdgePulls(start, edges, i, sqrt)
  {
    pull := Zero;
    var k := 0;
    while k < |edges|
      invariant 0 <= k <= |edges|
      invariant pull == EdgePulls(start, edges[..k], i, sqrt)
    {
      var v := EdgePullOf(nodes, edges[k], i, sqrt, start);
      assert edges[..k + 1][..k] == edges[..k];
      pull := pull.Plus(v);
      k := k + 1;
    }
    assert edges[..k] == edges;
  }

  /** The body of the `forEach`: what one edge adds to node `i`. */
  method EdgePullOf(nodes: array<SimNode>, edge: Edge, i: nat, sqrt: real -> real, ghost start: seq<SimNode>) returns (v: Vec)
    requires i < nodes.Length && SamePlaces(nodes[..], start)
    ensures v == EdgePull(start, edge, i, sqrt)
  {
    var fromSource := Zero;
    var fromTarget := Zero;
    FindSamePlaces(nodes[..], start, edge.target);
    FindSamePlaces(nodes[..], start, edge.source);
    if edge.source == nodes[i].node.id {
      var target := FindNode(nodes, edge.target);
      if target.Some? {
        fromSource := Spring(nodes[i].x, nodes[i].y, nodes[target.value].x, nodes[target.value].y, sqrt);
      }
    }
    if edge.target == nodes[i].node.id {
      var source := FindNode(nodes, edge.source);
      if source.Some? {
        fromTarget := Spring(nodes[i].x, nodes[i].y, nodes[source.value].x, nodes[source.value].y, sqrt);
      }
    }
    v := fromSource.Plus(fromTarget);
  }

  // ---------------------------------------------------------------------------
  // Drawing
  // ---------------------------------------------------------------------------

  /** The edges `render` draws: those whose source and target are both found, in order. */
  function DrawnEdges(nodes: seq<SimNode>, edges: seq<Edge>): (drawn: seq<Edge>)
    ensures |drawn| <= |edges|
    decreases |edges|
  {
    if edges == [] then []
    else
      var rest := DrawnEdges(nodes, edges[1..]);
      if !Dangling(nodes, edges[0]) then [edges[0]] + rest else rest
  }

  /** An edge is drawn exactly when it is in the list and both of its ends are nodes. */
  lemma {:induction false} DrawnEdgesMembers(nodes: seq<SimNode>, edges: seq<Edge>, e: Edge)
    ensures e in DrawnEdges(nodes, edges) <==> e in edges && !Dangling(nodes, e)
    decreases |edges|
  {
    if edges != [] {
      DrawnEdgesMembers(nodes, edges[1..], e);
      assert edges == [edges[0]] + edges[1..];
    }
  }

  /** When no edge dangles, every edge is drawn. */
  lemma {:induction false} NoDanglingAllDrawn(nodes: seq<SimNode>, edges: seq<Edge>)
    requires forall k :: 0 <= k < |edges| ==> !Dangling(nodes, edges[k])
    ensures DrawnEdges(nodes, edges) == edges
    decreases |edges|
  {
    if edges != [] {
      NoDanglingAllDrawn(nodes, edges[1..]);
      assert [edges[0]] + edges[1..] == edges;
    }
  }

  /** The tick does not change which edges are drawn. */
  lemma DrawnEdgesStable(nodes: seq<SimNode>, edges: seq<Edge>, width: real, height: real, sqrt: real -> real)
    ensures DrawnEdges(Moved(Accelerated(nodes, edges, width, height, sqrt)), edges) == DrawnEdges(nodes, edges)
  {
    var after := Moved(Accelerated(nodes, edges, width, height, sqrt));
    forall id: string
      ensures Find(after, id) == Find(nodes, id)
    {
      FindSameIds(after, nodes, id);
    }
    DrawnEdgesSameIds(after, nodes, edges);
  }

  /** `Find` only looks at ids. */
  lemma {:induction false} FindSameIds(a: seq<SimNode>, b: seq<SimNode>, id: string)
    requires |a| == |b| && forall k :: 0 <= k < |a| ==> a[k].node.id == b[k].node.id
    ensures Find(a, id) == Find(b, id)
    decreases |a|
  {
    if a != [] {
      FindSameIds(a[1..], b[1..], id);
    }
  }

  lemma {:induction false} DrawnEdgesSameIds(a: seq<SimNode>, b: seq<SimNode>, edges: seq<Edge>)
    requires forall id :: Find(a, id) == Find(b, id)
    ensures DrawnEdges(a, edges) == DrawnEdges(b, edges)
    decreases |edges|
  {
    if edges != [] {
      DrawnEdgesSameIds(a, b, edges[1..]);
      assert Find(a, edges[0].source) == Find(b, edges[0].source);
      assert Find(a, edges[0].target) == Find(b, edges[0].target);
    }
  }
}
