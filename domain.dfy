/**
 * The dashboard's domain model: telemetry nodes, the links between them,
 * and the mock data the dashboard starts from.
 */
module Domain {
  import opened Wrappers

  /**
   * A telemetry node. The three metrics are percentages by convention only
   * (nothing clamps them). A coordinate may be absent, which the drift
   * reads as 0.
   */
  datatype Node = Node(
    id: string,
    name: string,
    cx: real,
    consent: real,
    containment: real,
    x: Option<real>,
    y: Option<real>)

  /** A link between two node ids, weighted by a symbolic mass. */
  datatype Link = Link(source: string, target: string, mass: real)

  /** The ids of a node list, in order. */
  function Ids(nodes: seq<Node>): (ids: seq<string>)
    ensures |ids| == |nodes|
    ensures forall i :: 0 <= i < |nodes| ==> ids[i] == nodes[i].id
  {
    seq(|nodes|, i requires 0 <= i < |nodes| => nodes[i].id)
  }

  /** Some node carries this id. */
  predicate HasNode(nodes: seq<Node>, id: string) {
    exists i :: 0 <= i < |nodes| && nodes[i].id == id
  }

  /** Every link's two endpoints name nodes of the list. */
  predicate Resolves(nodes: seq<Node>, links: seq<Link>) {
    forall i :: 0 <= i < |links| ==> HasNode(nodes, links[i].source) && HasNode(nodes, links[i].target)
  }

  /** No two nodes share an id. */
  predicate UniqueIds(nodes: seq<Node>) {
    forall i, j :: 0 <= i < j < |nodes| ==> nodes[i].id != nodes[j].id
  }

  /** Id uniqueness and link resolution depend on the node ids alone. */
  lemma SameIds(a: seq<Node>, b: seq<Node>, links: seq<Link>)
    requires Ids(a) == Ids(b)
    ensures UniqueIds(a) <==> UniqueIds(b)
    ensures Resolves(a, links) <==> Resolves(b, links)
  {
  }

  /** The five mock nodes the dashboard starts with. */
  const MockNodes: seq<Node> := [
    Node("haven", "Haven Academy", 82.0, 97.0, 91.0, Some(180.0), Some(220.0)),
    Node("evedao", "EveDAO", 76.0, 92.0, 88.0, Some(520.0), Some(180.0)),
    Node("eve11", "Eve11 Engine", 89.0, 99.0, 95.0, Some(380.0), Some(360.0)),
    Node("partnerA", "Partner Lab A", 71.0, 90.0, 85.0, Some(720.0), Some(300.0)),
    Node("partnerB", "Partner Lab B", 64.0, 88.0, 80.0, Some(90.0), Some(360.0))
  ]

  /** The six mock links the dashboard starts with. */
  const MockLinks: seq<Link> := [
    Link("haven", "evedao", 0.62),
    Link("haven", "eve11", 0.78),
    Link("evedao", "eve11", 0.55),
    Link("evedao", "partnerA", 0.31),
    Link("haven", "partnerB", 0.28),
    Link("partnerB", "eve11", 0.40)
  ]

  /**
   * The mock data meets what the atlas relies on: ids are unique, every
   * link endpoint names a node, and every mass lies in [0, 1].
   */
  lemma MockDataWellFormed()
    ensures UniqueIds(MockNodes)
    ensures Resolves(MockNodes, MockLinks)
    ensures forall i :: 0 <= i < |MockLinks| ==> 0.0 <= MockLinks[i].mass <= 1.0
  {
    var n := MockNodes;
    assert n[0].id == "haven" && n[1].id == "evedao" && n[2].id == "eve11";
    assert n[3].id == "partnerA" && n[4].id == "partnerB";
    assert HasNode(n, "haven") && HasNode(n, "evedao") && HasNode(n, "eve11");
    assert HasNode(n, "partnerA") && HasNode(n, "partnerB");
  }
}
