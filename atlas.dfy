/**
 * The atlas view: joins every link to the positions of its endpoint nodes
 * and derives the drawing primitives (one line per link, one circle with
 * an outer ring per node) with their selection-dependent emphasis.
 */
module AtlasView {
  import opened Wrappers
  import opened Domain
  import opened Classifier

  /** A link joined to the coordinates of its two endpoints. */
  datatype PlacedLink = PlacedLink(
    source: string,
    target: string,
    mass: real,
    sx: Option<real>,
    sy: Option<real>,
    tx: Option<real>,
    ty: Option<real>)

  /** Looking up an endpoint id that no node carries. */
  datatype LinkError = UnknownNode(id: string)

  /**
   * Node `i` is the one the id lookup table keeps for `id`: the table is
   * built from (id, node) pairs in list order, so a later node with the
   * same id overwrites an earlier one.
   */
  predicate LastWithId(nodes: seq<Node>, i: int, id: string) {
    0 <= i < |nodes| && nodes[i].id == id &&
    forall k :: i < k < |nodes| ==> nodes[k].id != id
  }

  /** Dropping a last node that does not carry `id` changes neither whether `id` is known nor which node is kept for it. */
  lemma DropLast(nodes: seq<Node>, id: string)
    requires |nodes| > 0 && nodes[|nodes| - 1].id != id
    ensures HasNode(nodes, id) <==> HasNode(nodes[..|nodes| - 1], id)
    ensures forall i :: LastWithId(nodes[..|nodes| - 1], i, id) ==>
      LastWithId(nodes, i, id) && nodes[i] == nodes[..|nodes| - 1][i]
  {
  }

  /** The node the id lookup table holds for `id`, if any. */
  function ById(nodes: seq<Node>, id: string): (r: Option<Node>)
    ensures r.None? <==> !HasNode(nodes, id)
    ensures r.Some? ==> exists i :: LastWithId(nodes, i, id) && nodes[i] == r.value
  {
    if |nodes| == 0 then None
    else if nodes[|nodes| - 1].id == id then
      assert LastWithId(nodes, |nodes| - 1, id);
      Some(nodes[|nodes| - 1])
    else
      DropLast(nodes, id);
      ById(nodes[..|nodes| - 1], id)
  }

  /** With unique ids, the lookup finds exactly the node carrying the id. */
  lemma ByIdUnique(nodes: seq<Node>, i: int)
    requires UniqueIds(nodes) && 0 <= i < |nodes|
    ensures ById(nodes, nodes[i].id) == Some(nodes[i])
  {
  }

  /** The endpoint `id` of a placed link sits at `(x, y)`: the position of the node kept for `id`. */
  ghost predicate PositionedAt(nodes: seq<Node>, id: string, x: Option<real>, y: Option<real>) {
    exists i :: LastWithId(nodes, i, id) && nodes[i].x == x && nodes[i].y == y
  }

  /** `p` is link `l` joined to the positions of its endpoints. */
  ghost predicate Joined(nodes: seq<Node>, l: Link, p: PlacedLink) {
    p.source == l.source && p.target == l.target && p.mass == l.mass &&
    PositionedAt(nodes, l.source, p.sx, p.sy) &&
    PositionedAt(nodes, l.target, p.tx, p.ty)
  }

  /** The id whose lookup fails first for a link: the source is looked up before the target. */
  function MissingEndpoint(nodes: seq<Node>, l: Link): string {
    if HasNode(nodes, l.source) then l.target else l.source
  }

  /** Joins one link to its endpoints, failing on the first unknown endpoint id. */
  function PlaceLink(nodes: seq<Node>, l: Link): (r: Result<PlacedLink, LinkError>)
    ensures r.Success? <==> HasNode(nodes, l.source) && HasNode(nodes, l.target)
    ensures r.Success? ==> Joined(nodes, l, r.value)
    ensures r.Failure? ==> r.error == UnknownNode(MissingEndpoint(nodes, l))
  {
    match ById(nodes, l.source)
    case None => Failure(UnknownNode(l.source))
    case Some(s) =>
      match ById(nodes, l.target)
      case None => Failure(UnknownNode(l.target))
      case Some(t) => Success(PlacedLink(l.source, l.target, l.mass, s.x, s.y, t.x, t.y))
  }

  /** Resolution of a non-empty link list splits into its first link and the rest. */
  lemma ResolvesSplit(nodes: seq<Node>, links: seq<Link>)
    requires |links| > 0
    ensures Resolves(nodes, links) <==>
      HasNode(nodes, links[0].source) && HasNode(nodes, links[0].target) && Resolves(nodes, links[1..])
    ensures forall i :: 0 <= i < |links| - 1 ==> links[..i + 1] == [links[0]] + links[1..][..i]
  {
  }

  /** Resolution of `[l] + rest` follows from the resolution of `l`'s endpoints and of `rest`. */
  lemma ResolvesCons(nodes: seq<Node>, l: Link, rest: seq<Link>)
    requires HasNode(nodes, l.source) && HasNode(nodes, l.target) && Resolves(nodes, rest)
    ensures Resolves(nodes, [l] + rest)
  {
  }

  /** A failing link map names the first link with an unknown endpoint and the id that failed. */
  ghost predicate FailsAt(nodes: seq<Node>, links: seq<Link>, i: int, e: LinkError) {
    0 <= i < |links| && Resolves(nodes, links[..i]) &&
    !(HasNode(nodes, links[i].source) && HasNode(nodes, links[i].target)) &&
    e == UnknownNode(MissingEndpoint(nodes, links[i]))
  }

  /** A failure in the rest of a list whose first link resolves is a failure of the whole list, one index on. */
  lemma FailsLater(nodes: seq<Node>, links: seq<Link>, e: LinkError)
    requires |links| > 0 && HasNode(nodes, links[0].source) && HasNode(nodes, links[0].target)
    requires exists i :: FailsAt(nodes, links[1..], i, e)
    ensures exists i :: FailsAt(nodes, links, i, e)
  {
    var i :| FailsAt(nodes, links[1..], i, e);
    ResolvesCons(nodes, links[0], links[1..][..i]);
    ResolvesSplit(nodes, links);
    assert links[i + 1] == links[1..][i];
    assert FailsAt(nodes, links, i + 1, e);
  }

  /**
   * The link map: every link, in order, joined to its endpoints' positions.
   * The first link with an unknown endpoint aborts the whole map.
   */
  function LinkMap(nodes: seq<Node>, links: seq<Link>): (r: Result<seq<PlacedLink>, LinkError>)
    ensures r.Success? <==> Resolves(nodes, links)
    ensures r.Success? ==> |r.value| == |links|
    ensures r.Success? ==> forall i :: 0 <= i < |links| ==> Joined(nodes, links[i], r.value[i])
    ensures r.Success? ==> forall i :: 0 <= i < |links| ==> PlaceLink(nodes, links[i]) == Success(r.value[i])
    ensures r.Failure? ==> exists i :: FailsAt(nodes, links, i, r.error)
  {
    if |links| == 0 then Success([])
    else
      ResolvesSplit(nodes, links);
      match PlaceLink(nodes, links[0])
      case Failure(e) =>
        assert FailsAt(nodes, links, 0, e);
        Failure(e)
      case Success(p) =>
        match LinkMap(nodes, links[1..])
        case Failure(e) =>
          FailsLater(nodes, links, e);
          Failure(e)
        case Success(ps) =>
          assert forall i :: 0 < i < |links| ==> links[i] == links[1..][i - 1];
          Success([p] + ps)
  }

  /** Stroke width of a link: 1 plus six times its mass. */
  function Thickness(mass: real): (w: real)
    ensures 0.0 <= mass <= 1.0 ==> 1.0 <= w <= 7.0
    ensures mass == 0.0 ==> w == 1.0
    ensures mass == 1.0 ==> w == 7.0
  {
    1.0 + mass * 6.0
  }

  /** A heavier link is drawn at least as thick, and strictly thicker when strictly heavier. */
  lemma ThicknessMonotone(a: real, b: real)
    requires a <= b
    ensures Thickness(a) <= Thickness(b)
    ensures a < b ==> Thickness(a) < Thickness(b)
  {
  }

  /** One endpoint of the link is the node with id `id`. */
  predicate Touches(source: string, target: string, id: string) {
    source == id || target == id
  }

  /** A line segment of the atlas, one per link. */
  datatype Line = Line(
    x1: Option<real>,
    y1: Option<real>,
    x2: Option<real>,
    y2: Option<real>,
    stroke: Colour,
    opacity: real,
    width: real)

  /**
   * The line drawn for a placed link. Colour and opacity are two separate
   * decisions: cyan when a selection exists and the link touches it, and
   * 0.9 / 0.25 with a selection or 0.55 without one.
   */
  function LinkLine(p: PlacedLink, selected: Option<Node>): (ln: Line)
    ensures ln.x1 == p.sx && ln.y1 == p.sy && ln.x2 == p.tx && ln.y2 == p.ty
    ensures ln.width == Thickness(p.mass)
    ensures 0.0 <= p.mass <= 1.0 ==> 1.0 <= ln.width <= 7.0
    ensures selected.None? ==> ln.stroke == Slate500 && ln.opacity == 0.55
    ensures selected.Some? ==>
      (ln.stroke == CoherenceCyan && ln.opacity == 0.9 <==> Touches(p.source, p.target, selected.value.id))
    ensures selected.Some? && !Touches(p.source, p.target, selected.value.id) ==>
      ln.stroke == Slate500 && ln.opacity == 0.25
    ensures ln.stroke == CoherenceCyan <==> ln.opacity == 0.9
  {
    var stroke :=
      if selected.Some? && (p.source == selected.value.id || p.target == selected.value.id)
      then CoherenceCyan else Slate500;
    var opacity :=
      if selected.Some?
      then (if p.source == selected.value.id || p.target == selected.value.id then 0.9 else 0.25)
      else 0.55;
    Line(p.sx, p.sy, p.tx, p.ty, stroke, opacity, Thickness(p.mass))
  }

  /** Circle radius of a node: 14 at coherence 50, a quarter unit per coherence point. */
  function Radius(cx: real): (r: real)
    ensures cx == 50.0 ==> r == 14.0
    ensures r > 14.0 <==> cx > 50.0
    ensures 0.0 <= cx <= 100.0 ==> 1.5 <= r <= 26.5
  {
    14.0 + (cx - 50.0) * 0.25
  }

  /** The radius grows strictly with coherence. */
  lemma RadiusStrictlyIncreasing(a: real, b: real)
    requires a < b
    ensures Radius(a) < Radius(b)
  {
  }

  /** The node is the selected one: the selection exists and carries the node's id. */
  predicate IsActive(selected: Option<Node>, n: Node) {
    selected.Some? && selected.value.id == n.id
  }

  /** The filled circle and outer ring drawn for one node. */
  datatype Glyph = Glyph(
    x: Option<real>,
    y: Option<real>,
    r: real,
    fill: Colour,
    fillOpacity: real,
    ringR: real,
    ringStroke: Colour,
    ringOpacity: real)

  /** The glyph of a node: coherence sets size and colour, the selection sets emphasis. */
  function NodeGlyph(n: Node, selected: Option<Node>): (g: Glyph)
    ensures g.x == n.x && g.y == n.y
    ensures g.fill == CxColour(n.cx) && g.fill == LegendColour(LegendStatus(n.cx))
    ensures g.r == Radius(n.cx) && g.ringR == g.r + 6.0
    ensures n.cx == 50.0 ==> g.r == 14.0
    ensures g.fillOpacity == 0.95 <==> IsActive(selected, n)
    ensures g.ringStroke == Cyan400 <==> IsActive(selected, n)
    ensures g.ringOpacity == 0.9 <==> IsActive(selected, n)
    ensures !IsActive(selected, n) ==> g.fillOpacity == 0.8 && g.ringStroke == Slate400 && g.ringOpacity == 0.25
  {
    var r := Radius(n.cx);
    var active := selected.Some? && selected.value.id == n.id;
    Glyph(n.x, n.y, r, CxColour(n.cx), if active then 0.95 else 0.8,
          r + 6.0, if active then Cyan400 else Slate400, if active then 0.9 else 0.25)
  }

  /** Everything the atlas draws: the link lines under the node glyphs. */
  datatype Drawing = Drawing(lines: seq<Line>, glyphs: seq<Glyph>)

  /** One line per placed link, in order. */
  function Lines(placed: seq<PlacedLink>, selected: Option<Node>): (ls: seq<Line>)
    ensures |ls| == |placed|
    ensures forall i :: 0 <= i < |placed| ==> ls[i] == LinkLine(placed[i], selected)
  {
    seq(|placed|, i requires 0 <= i < |placed| => LinkLine(placed[i], selected))
  }

  /** One glyph per node, in order. */
  function Glyphs(nodes: seq<Node>, selected: Option<Node>): (gs: seq<Glyph>)
    ensures |gs| == |nodes|
    ensures forall i :: 0 <= i < |nodes| ==> gs[i] == NodeGlyph(nodes[i], selected)
  {
    seq(|nodes|, i requires 0 <= i < |nodes| => NodeGlyph(nodes[i], selected))
  }

  /**
   * `d` is the atlas drawing of `nodes` and `links` under `selected`: one
   * line per link and one glyph per node, in order; each line is the styled
   * line of its placed link (endpoints at the positions of the endpoint
   * nodes, opacity and colour by the selection rule) and each glyph is the
   * node's glyph (position, coherence radius and colour, emphasis iff
   * selected).
   */
  ghost predicate DrawingOf(nodes: seq<Node>, links: seq<Link>, selected: Option<Node>, d: Drawing) {
    |d.lines| == |links| && |d.glyphs| == |nodes| &&
    (forall i :: 0 <= i < |links| ==>
      PlaceLink(nodes, links[i]).Success? &&
      d.lines[i] == LinkLine(PlaceLink(nodes, links[i]).value, selected)) &&
    (forall i :: 0 <= i < |nodes| ==> d.glyphs[i] == NodeGlyph(nodes[i], selected)) &&
    (forall i :: 0 <= i < |links| ==>
      PositionedAt(nodes, links[i].source, d.lines[i].x1, d.lines[i].y1) &&
      PositionedAt(nodes, links[i].target, d.lines[i].x2, d.lines[i].y2)) &&
    (selected.None? ==> forall i :: 0 <= i < |links| ==> d.lines[i].opacity == 0.55) &&
    (selected.Some? ==> forall i :: 0 <= i < |links| ==>
      (d.lines[i].opacity == 0.9 <==> Touches(links[i].source, links[i].target, selected.value.id)) &&
      (d.lines[i].opacity != 0.9 ==> d.lines[i].opacity == 0.25)) &&
    (forall i :: 0 <= i < |nodes| ==>
      d.glyphs[i].x == nodes[i].x && d.glyphs[i].y == nodes[i].y &&
      (d.glyphs[i].fillOpacity == 0.95 <==> IsActive(selected, nodes[i])))
  }

  /** A drawing built from a successful link map is the atlas drawing. */
  lemma DrawingFacts(nodes: seq<Node>, links: seq<Link>, selected: Option<Node>, placed: seq<PlacedLink>, d: Drawing)
    requires LinkMap(nodes, links) == Success(placed)
    requires d == Drawing(Lines(placed, selected), Glyphs(nodes, selected))
    ensures DrawingOf(nodes, links, selected, d)
  {
    assert forall i :: 0 <= i < |links| ==> Joined(nodes, links[i], placed[i]);
  }

  /**
   * The atlas drawing for the current nodes, links and selection. It fails
   * exactly when the link map does, and otherwise is the atlas drawing.
   */
  function Render(nodes: seq<Node>, links: seq<Link>, selected: Option<Node>): (r: Result<Drawing, LinkError>)
    ensures r.Success? <==> Resolves(nodes, links)
    ensures r.Failure? ==> exists i :: FailsAt(nodes, links, i, r.error)
    ensures r.Success? ==> DrawingOf(nodes, links, selected, r.value)
  {
    match LinkMap(nodes, links)
    case Failure(e) => Failure(e)
    case Success(placed) =>
      var d := Drawing(Lines(placed, selected), Glyphs(nodes, selected));
      DrawingFacts(nodes, links, selected, placed, d);
      Success(d)
  }

  /** On the mock data every node's status label and fill colour name the same bucket. */
  lemma MockLabelsMatchColours()
    ensures forall i :: 0 <= i < |MockNodes| ==>
      LegendColour(FieldStatus(MockNodes[i].cx)) == CxColour(MockNodes[i].cx)
  {
  }
}
