/**
 * The dashboard component's state: the node list the drift timer replaces,
 * the static link list, the selected node and the active view, with the
 * handlers that change them.
 */
module App {
  import opened Wrappers
  import opened Domain
  import opened AtlasView
  import opened Telemetry

  /** The two presentation modes; exactly one is active. */
  datatype View = Overview | Atlas

  /** How a header button is drawn. */
  datatype Variant = Default | Outline

  /** The header draws the button of the active view filled and the other outlined. */
  function ButtonVariant(view: View, button: View): (v: Variant)
    ensures v == Default <==> view == button
  {
    if view == button then Default else Outline
  }

  /** Exactly one header button is highlighted, and it is the one for the active view. */
  lemma OneButtonHighlighted(view: View)
    ensures (ButtonVariant(view, Overview) == Default) != (ButtonVariant(view, Atlas) == Default)
    ensures ButtonVariant(view, view) == Default
  {
  }

  class Dashboard {
    var nodes: array<Node>
    var links: seq<Link>
    /** The node object last clicked (a snapshot taken at click time), or none. */
    var selected: Option<Node>
    var view: View

    /** Node ids stay unique and every link endpoint names a node, so the atlas can always be drawn. */
    ghost predicate Valid()
      reads this, nodes
    {
      UniqueIds(nodes[..]) && Resolves(nodes[..], links)
    }

    /** The initial state: the mock nodes and links, nothing selected, the atlas shown. */
    constructor ()
      ensures Valid() && fresh(nodes)
      ensures nodes[..] == MockNodes && links == MockLinks
      ensures selected == None && view == Atlas
    {
      nodes := new Node[5](i requires 0 <= i < 5 => MockNodes[i]);
      links := MockLinks;
      selected := None;
      view := Atlas;
      new;
      assert nodes[..] == MockNodes;
      MockDataWellFormed();
    }

    /**
     * One drift tick: every node, in order, is replaced by its drifted copy.
     * Afterwards every node lies in the window, ids, names and metrics are
     * unchanged, and a node that was inside the window moved by at most one
     * unit per axis.
     */
    method Tick(jitters: seq<real>)
      requires Valid()
      requires |jitters| == nodes.Length
      requires forall k :: 0 <= k < |jitters| ==> ValidJitter(jitters[k])
      modifies nodes
      ensures Valid()
      ensures nodes[..] == Drifted(old(nodes[..]), jitters)
      ensures forall k :: 0 <= k < nodes.Length ==> InBox(nodes[k])
      ensures forall k :: 0 <= k < nodes.Length && InBox(old(nodes[k])) ==>
        Abs(nodes[k].x.value - old(nodes[k]).x.value) <= 1.0 &&
        Abs(nodes[k].y.value - old(nodes[k]).y.value) <= 1.0
      ensures selected == old(selected) && view == old(view) && links == old(links)
    {
      var i := 0;
      while i < nodes.Length
        invariant 0 <= i <= nodes.Length
        invariant forall k :: 0 <= k < i ==> nodes[k] == Drift(old(nodes[k]), jitters[k])
        invariant forall k :: i <= k < nodes.Length ==> nodes[k] == old(nodes[k])
      {
        nodes[i] := Drift(nodes[i], jitters[i]);
        i := i + 1;
      }
      assert nodes[..] == Drifted(old(nodes[..]), jitters);
      DriftedKeepsLinks(old(nodes[..]), jitters, links);
      forall k | 0 <= k < nodes.Length && InBox(old(nodes[k]))
        ensures Abs(nodes[k].x.value - old(nodes[k]).x.value) <= 1.0
        ensures Abs(nodes[k].y.value - old(nodes[k]).y.value) <= 1.0
      {
        DriftStepBounded(old(nodes[k]), jitters[k]);
      }
    }

    /** Clicking a node card or an atlas node: the clicked node replaces any earlier selection. */
    method Select(n: Node)
      modifies this`selected
      ensures selected == Some(n)
      ensures nodes == old(nodes) && links == old(links) && view == old(view)
      ensures old(Valid()) ==> Valid()
    {
      selected := Some(n);
    }

    /** The detail panel's Close button clears the selection. */
    method Close()
      modifies this`selected
      ensures selected == None
      ensures nodes == old(nodes) && links == old(links) && view == old(view)
      ensures old(Valid()) ==> Valid()
    {
      selected := None;
    }

    /** A header button: switches the view and nothing else. */
    method SetView(v: View)
      modifies this`view
      ensures view == v
      ensures nodes == old(nodes) && links == old(links) && selected == old(selected)
      ensures old(Valid()) ==> Valid()
    {
      view := v;
    }
  }

  /** In every valid state the atlas drawing succeeds: no link endpoint lookup fails. */
  lemma ValidDashboardRenders(d: Dashboard)
    requires d.Valid()
    ensures Render(d.nodes[..], d.links, d.selected).Success?
  {
  }

  /**
   * A session: ticks, clicks and view switches keep the dashboard valid;
   * the last click wins, Close clears, and switching views back and forth
   * leaves nodes and selection as they were.
   */
  method Session(a: Node, b: Node, j1: seq<real>, j2: seq<real>)
    requires |j1| == |j2| == |MockNodes|
    requires forall k :: 0 <= k < |j1| ==> ValidJitter(j1[k]) && ValidJitter(j2[k])
  {
    var d := new Dashboard();
    d.Tick(j1);
    d.Select(a);
    d.Select(b);
    assert d.selected == Some(b);
    var before := d.nodes[..];
    d.SetView(Overview);
    d.SetView(Atlas);
    assert d.selected == Some(b) && d.nodes[..] == before && d.view == Atlas;
    d.Tick(j2);
    ValidDashboardRenders(d);
    d.Close();
    assert d.selected == None && d.Valid();
  }
}
