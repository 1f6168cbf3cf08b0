/**
 * The telemetry drift: on every timer tick each node's coordinates are
 * nudged by one jitter value and clamped to the drawing box.
 */
module Telemetry {
  import opened Wrappers
  import opened Domain

  /** The clamp window of node positions. */
  const MinX: real := 60.0
  const MaxX: real := 820.0
  const MinY: real := 80.0
  const MaxY: real := 440.0

  function Max(a: real, b: real): (m: real)
    ensures m >= a && m >= b && (m == a || m == b)
  {
    if a >= b then a else b
  }

  function Min(a: real, b: real): (m: real)
    ensures m <= a && m <= b && (m == a || m == b)
  {
    if a <= b then a else b
  }

  function Abs(v: real): (a: real)
    ensures a >= 0.0 && (a == v || a == -v)
  {
    if v < 0.0 then -v else v
  }

  /** `max(lo, min(hi, v))`: `v` pulled into `[lo, hi]`. */
  function Clamp(lo: real, hi: real, v: real): (r: real)
    ensures lo <= hi ==> lo <= r <= hi
    ensures lo <= v <= hi ==> r == v
    ensures v <= lo ==> r == lo
    ensures lo <= hi <= v ==> r == hi
  {
    Max(lo, Min(hi, v))
  }

  /** A coordinate as the drift reads it: an absent coordinate counts as 0. */
  function OrZero(c: Option<real>): real {
    match c
    case None => 0.0
    case Some(v) => v
  }

  /** The range of one jitter value: twice a uniform draw from [0, 1), minus 1. */
  predicate ValidJitter(j: real) {
    -1.0 <= j < 1.0
  }

  /** Both coordinates are present and inside the clamp window. */
  predicate InBox(n: Node) {
    n.x.Some? && n.y.Some? &&
    MinX <= n.x.value <= MaxX && MinY <= n.y.value <= MaxY
  }

  /**
   * One node after one tick: the same jitter is added to both coordinates,
   * each result is clamped to its axis of the window, and every other field
   * is copied.
   */
  function Drift(n: Node, j: real): (r: Node)
    ensures r == n.(x := r.x, y := r.y)
    ensures r.x == Some(Clamp(MinX, MaxX, OrZero(n.x) + j))
    ensures r.y == Some(Clamp(MinY, MaxY, OrZero(n.y) + j))
    ensures InBox(r)
  {
    n.(x := Some(Clamp(MinX, MaxX, OrZero(n.x) + j)),
       y := Some(Clamp(MinY, MaxY, OrZero(n.y) + j)))
  }

  /**
   * A node that starts inside the window moves on each axis in the
   * direction of the jitter and by no more than it, so by at most one unit;
   * an axis on which the jitter keeps it inside moves by exactly the jitter.
   */
  lemma DriftStepBounded(n: Node, j: real)
    requires InBox(n) && ValidJitter(j)
    ensures var r := Drift(n, j);
      var dx := r.x.value - n.x.value;
      var dy := r.y.value - n.y.value;
      Abs(dx) <= 1.0 && Abs(dy) <= 1.0 &&
      (j >= 0.0 ==> 0.0 <= dx <= j && 0.0 <= dy <= j) &&
      (j < 0.0 ==> j <= dx <= 0.0 && j <= dy <= 0.0) &&
      (MinX <= n.x.value + j <= MaxX ==> dx == j) &&
      (MinY <= n.y.value + j <= MaxY ==> dy == j)
  {
  }

  /** A coordinate outside the window is pulled straight onto the nearer bound. */
  lemma DriftFromOutside(n: Node, j: real)
    requires ValidJitter(j)
    ensures n.x.Some? && n.x.value >= MaxX + 1.0 ==> Drift(n, j).x == Some(MaxX)
    ensures n.x.Some? && n.x.value <= MinX - 1.0 ==> Drift(n, j).x == Some(MinX)
    ensures n.y.Some? && n.y.value >= MaxY + 1.0 ==> Drift(n, j).y == Some(MaxY)
    ensures n.y.Some? && n.y.value <= MinY - 1.0 ==> Drift(n, j).y == Some(MinY)
  {
  }

  /** A coordinate on a bound that the jitter pushes outward stays on that bound. */
  lemma DriftAtBound(n: Node, j: real)
    ensures n.x == Some(MinX) && j <= 0.0 ==> Drift(n, j).x == Some(MinX)
    ensures n.x == Some(MaxX) && j >= 0.0 ==> Drift(n, j).x == Some(MaxX)
    ensures n.y == Some(MinY) && j <= 0.0 ==> Drift(n, j).y == Some(MinY)
    ensures n.y == Some(MaxY) && j >= 0.0 ==> Drift(n, j).y == Some(MaxY)
  {
  }

  /** A missing or zero coordinate is read as 0 and lands on the lower bound of its axis. */
  lemma DriftFromZero(n: Node, j: real)
    requires ValidJitter(j)
    ensures OrZero(n.x) == 0.0 ==> Drift(n, j).x == Some(MinX)
    ensures OrZero(n.y) == 0.0 ==> Drift(n, j).y == Some(MinY)
  {
  }

  /** Every node after one tick, each with its own jitter value. */
  function Drifted(nodes: seq<Node>, jitters: seq<real>): (r: seq<Node>)
    requires |jitters| == |nodes|
    ensures |r| == |nodes| && Ids(r) == Ids(nodes)
    ensures forall i :: 0 <= i < |nodes| ==> r[i] == Drift(nodes[i], jitters[i])
    ensures forall i :: 0 <= i < |nodes| ==>
      InBox(r[i]) && r[i] == nodes[i].(x := r[i].x, y := r[i].y)
  {
    seq(|nodes|, i requires 0 <= i < |nodes| => Drift(nodes[i], jitters[i]))
  }

  /** A tick keeps the ids unique and every link resolvable. */
  lemma DriftedKeepsLinks(nodes: seq<Node>, jitters: seq<real>, links: seq<Link>)
    requires |jitters| == |nodes|
    ensures UniqueIds(Drifted(nodes, jitters)) <==> UniqueIds(nodes)
    ensures Resolves(Drifted(nodes, jitters), links) <==> Resolves(nodes, links)
  {
  }

  /** The mock nodes start inside the clamp window. */
  lemma MockNodesInBox()
    ensures forall i :: 0 <= i < |MockNodes| ==> InBox(MockNodes[i])
  {
  }
}
