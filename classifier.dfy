/**
 * The coherence classifier of the Nimbus dashboard: the field-status label
 * shown in the node detail panel, the fill colour used by the overview
 * cards and the atlas circles, and the colour legend drawn under the atlas.
 */
module Classifier {

  /** The three field-status labels. */
  datatype Status = Calm | Variable | Storm {
    function Text(): string {
      match this
      case Calm => "Calm"
      case Variable => "Variable"
      case Storm => "Storm"
    }
  }

  /** The palette used by the dashboard's visual encoding. */
  datatype Colour =
    | CoherenceCyan    // coherence cyan, the "Calm" colour
    | ContainmentGold  // containment gold, the "Variable" colour
    | StormRed         // soft red, the "Storm" colour
    | Slate500         // neutral link stroke
    | Cyan400          // ring stroke of the selected node
    | Slate400         // ring stroke of every other node
  {
    function Hex(): string {
      match this
      case CoherenceCyan => "#36D0C4"
      case ContainmentGold => "#E5B769"
      case StormRed => "#F87171"
      case Slate500 => "#64748b"
      case Cyan400 => "#22d3ee"
      case Slate400 => "#94a3b8"
    }
  }

  /** The upper threshold shared by both classifiers. */
  const CalmCut: real := 85.0
  /** The lower threshold shared by both classifiers. */
  const StormCut: real := 70.0

  /** The field-status label, as written: both comparisons are strict. */
  function FieldStatus(cx: real): (s: Status)
    ensures s == Calm <==> cx > CalmCut
    ensures s == Variable <==> StormCut < cx <= CalmCut
    ensures s == Storm <==> cx <= StormCut
  {
    if cx > CalmCut then Calm else if cx > StormCut then Variable else Storm
  }

  /** The fill colour of a node: both comparisons are inclusive. */
  function CxColour(cx: real): (c: Colour)
    ensures c == CoherenceCyan <==> cx >= CalmCut
    ensures c == ContainmentGold <==> StormCut <= cx < CalmCut
    ensures c == StormRed <==> cx < StormCut
    ensures c in {CoherenceCyan, ContainmentGold, StormRed}
  {
    if cx >= CalmCut then CoherenceCyan
    else if cx >= StormCut then ContainmentGold
    else StormRed
  }

  /** The swatch the legend draws beside each label. */
  function LegendColour(s: Status): (c: Colour)
    ensures c in {CoherenceCyan, ContainmentGold, StormRed}
  {
    match s
    case Calm => CoherenceCyan
    case Variable => ContainmentGold
    case Storm => StormRed
  }

  /** The legend pairs each label with a different swatch, so a swatch names its label. */
  lemma LegendColourInjective(s: Status, t: Status)
    ensures LegendColour(s) == LegendColour(t) <==> s == t
  {
  }

  /**
   * The label and the colour name the same bucket for every coherence
   * value except the two thresholds themselves.
   */
  lemma LabelColourAgreement(cx: real)
    ensures LegendColour(FieldStatus(cx)) == CxColour(cx) <==> cx != StormCut && cx != CalmCut
  {
  }

  /** At the thresholds the label falls one bucket below the colour. */
  lemma LabelColourDisagreement()
    ensures FieldStatus(CalmCut) == Variable && CxColour(CalmCut) == CoherenceCyan
    ensures FieldStatus(StormCut) == Storm && CxColour(StormCut) == ContainmentGold
  {
  }

  /**
   * The label the legend documents ("Calm (>=85)", "Variable (70-84)",
   * "Storm (<70)"): the inclusive comparisons of the colour scale.
   */
  function LegendStatus(cx: real): (s: Status)
    ensures s == Calm <==> cx >= CalmCut
    ensures s == Variable <==> StormCut <= cx < CalmCut
    ensures s == Storm <==> cx < StormCut
    ensures LegendColour(s) == CxColour(cx)
  {
    if cx >= CalmCut then Calm else if cx >= StormCut then Variable else Storm
  }

  /** The legend's label and the as-written label differ exactly at the thresholds. */
  lemma LegendStatusCorrectsFieldStatus(cx: real)
    ensures LegendStatus(cx) != FieldStatus(cx) <==> cx == StormCut || cx == CalmCut
  {
  }

  /** Both classifiers are monotone: a larger coherence never lands in a worse bucket. */
  lemma ClassifiersMonotone(a: real, b: real)
    requires a <= b
    ensures Rank(FieldStatus(a)) <= Rank(FieldStatus(b))
    ensures Rank(LegendStatus(a)) <= Rank(LegendStatus(b))
  {
  }

  /** The order of the buckets: Storm below Variable below Calm. */
  function Rank(s: Status): (k: nat)
    ensures k <= 2
  {
    match s
    case Storm => 0
    case Variable => 1
    case Calm => 2
  }
}
