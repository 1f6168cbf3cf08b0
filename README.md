# Nimbus atlas: a verified model of the dashboard's encoding and drift logic

Nimbus is a prototype dashboard. It shows mock telemetry for a few named
nodes in two views: an overview grid of cards and an "atlas" graph of the
nodes and the links between them. This project models the parts of
`src/NimbusAtlasApp.jsx` that compute something, and proves properties of
them:

- **Classifier** (`classifier.dfy`) holds the field-status label (`fieldStatus`),
  the coherence colour scale (`cxColour`), the legend's label-to-swatch pairing,
  and the palette's hex constants. The label uses strict comparisons at 85 and 70.
  The colour uses inclusive ones. The model proves that the two agree everywhere
  except at exactly 70 and 85.
- **Domain** (`domain.dfy`) holds nodes, links and the mock data the dashboard
  starts from. A coordinate is an `Option<real>` because the drift reads a missing
  coordinate as 0.
- **AtlasView** (`atlas.dfy`) holds the id lookup table and the link map. It also
  holds each link's stroke, opacity and width, each node's radius, fill and ring,
  and the whole drawing (`Render`). The id table keeps the last node for each id,
  as `Object.fromEntries` does. An unknown endpoint id raises an error in the
  source. Here it is a `Failure(UnknownNode(id))` that names the first failing
  lookup: links are taken in order, and each link's source before its target.
- **Telemetry** (`drift.dfy`) holds one drift tick per node. One jitter value is
  added to both coordinates. The results are clamped to x in [60, 820] and
  y in [80, 440], and every other field is copied.
- **App** (`app.dfy`) holds the `Dashboard` class. Its state is the node array,
  the links, the selected node and the view. `Tick` updates the array in place,
  one node at a time. `Select`, `Close` and `SetView` are the click handlers.
  `Valid()` says that ids are unique and every link endpoint resolves. Every
  operation keeps it, so the atlas lookup never fails in a reachable state.

Numbers are exact `real`s. The random draw is a parameter: one jitter value per
node, in [-1, 1).

## Model

| member | source | states |
|---|---|---|
| Classifier.FieldStatus | src/NimbusAtlasApp.jsx:35 | the label partitions the reals: Calm iff cx > 85, Variable iff 70 < cx <= 85, Storm iff cx <= 70 |
| Classifier.CxColour | src/NimbusAtlasApp.jsx:38-42 | the colour partitions the reals: cyan iff cx >= 85, gold iff 70 <= cx < 85, red iff cx < 70; it is always one of these three |
| Classifier.LegendColour | src/NimbusAtlasApp.jsx:170-172 | the legend pairs each label with one of the three coherence swatches |
| Classifier.LegendColourInjective | src/NimbusAtlasApp.jsx:170-172 | different labels get different swatches, so a swatch identifies its label |
| Classifier.LabelColourAgreement | src/NimbusAtlasApp.jsx:35-42 | the label's legend swatch equals the fill colour iff cx is neither 70 nor 85 |
| Classifier.LabelColourDisagreement | src/NimbusAtlasApp.jsx:35-42 | at 85 the label is Variable but the colour is cyan; at 70 the label is Storm but the colour is gold |
| Classifier.LegendStatus | src/NimbusAtlasApp.jsx:174-176 | the legend's buckets (Calm >= 85, Variable 70-84, Storm < 70) partition the reals and always match the fill colour |
| Classifier.LegendStatusCorrectsFieldStatus | src/NimbusAtlasApp.jsx:174-176 | the legend's label and the as-written label differ exactly at cx = 70 and cx = 85 |
| Classifier.ClassifiersMonotone | src/NimbusAtlasApp.jsx:35 | a larger coherence never gets a worse label |
| Domain.MockDataWellFormed | src/NimbusAtlasApp.jsx:17-32 | the mock ids are unique, every mock link endpoint names a mock node, and every mock mass is in [0, 1] |
| AtlasView.ById | src/NimbusAtlasApp.jsx:102 | the lookup finds nothing iff no node carries the id; otherwise it returns the last node carrying it |
| AtlasView.ByIdUnique | src/NimbusAtlasApp.jsx:102 | when ids are unique, the lookup of a node's id returns that node |
| AtlasView.PlaceLink | src/NimbusAtlasApp.jsx:103-109 | a link is placed iff both endpoints are known; the placed link keeps source, target and mass and carries each endpoint node's position; a failure names the source if it is unknown, otherwise the target |
| AtlasView.LinkMap | src/NimbusAtlasApp.jsx:101-110 | succeeds iff every endpoint resolves; the result has the links' length and order, its i-th entry is link i placed on its own, joined to its endpoints' positions; a failure names the first link with an unknown endpoint, all earlier links resolving |
| AtlasView.Thickness | src/NimbusAtlasApp.jsx:129 | the width is 1 at mass 0, 7 at mass 1, and lies in [1, 7] for mass in [0, 1] |
| AtlasView.ThicknessMonotone | src/NimbusAtlasApp.jsx:129 | a heavier link is drawn at least as thick, and strictly thicker when strictly heavier |
| AtlasView.LinkLine | src/NimbusAtlasApp.jsx:129-144 | the width is the mass's thickness (so in [1, 7] for mass in [0, 1] and growing with mass); with no selection a link is grey at 0.55; with a selection it is cyan at 0.9 iff it touches the selected id, otherwise grey at 0.25; cyan exactly when the opacity is 0.9; its endpoints are the placed positions |
| AtlasView.Radius | src/NimbusAtlasApp.jsx:150 | the radius is 14 at cx = 50, exceeds 14 iff cx > 50, and lies in [1.5, 26.5] for cx in [0, 100] |
| AtlasView.RadiusStrictlyIncreasing | src/NimbusAtlasApp.jsx:150 | the radius is strictly increasing in cx |
| AtlasView.NodeGlyph | src/NimbusAtlasApp.jsx:150-156 | the circle sits at the node's position with the coherence colour and the coherence radius (so growing with cx); the ring radius is the radius + 6; fill opacity 0.95, cyan ring and ring opacity 0.9 each hold iff the node's id is the selected id, otherwise 0.8, slate and 0.25 |
| AtlasView.Render | src/NimbusAtlasApp.jsx:101-165 | the drawing exists iff every link resolves, otherwise the first failure is reported; one line per link and one glyph per node, in order; each line is its placed link's styled line (width, colour, opacity) with endpoints at the endpoint nodes' positions, and each glyph is its node's glyph (radius, coherence colour, ring); link opacities follow the selection rule and a glyph is emphasised iff its node is selected |
| AtlasView.MockLabelsMatchColours | src/NimbusAtlasApp.jsx:17-23 | on the mock nodes the label and the colour always name the same bucket |
| Telemetry.Clamp | src/NimbusAtlasApp.jsx:252-253 | max(lo, min(hi, v)) lies in [lo, hi], is v when v is inside, lo when v <= lo and hi when v >= hi |
| Telemetry.Drift | src/NimbusAtlasApp.jsx:250-254 | a drifted node differs from the old one only in x and y; each new coordinate is the old one (missing read as 0) plus the jitter, clamped to its axis of the window, so both are present and inside the window |
| Telemetry.DriftFromOutside | src/NimbusAtlasApp.jsx:252-253 | a coordinate at least one unit outside the window lands exactly on the nearer bound |
| Telemetry.DriftStepBounded | src/NimbusAtlasApp.jsx:251-253 | from inside the window, each axis moves in the jitter's direction by at most the jitter (so at most 1), and by exactly the jitter when that stays inside |
| Telemetry.DriftAtBound | src/NimbusAtlasApp.jsx:252-253 | a coordinate on a bound that the jitter pushes outward stays on that bound |
| Telemetry.DriftFromZero | src/NimbusAtlasApp.jsx:252-253 | a missing or zero coordinate lands on the lower bound of its axis |
| Telemetry.Drifted | src/NimbusAtlasApp.jsx:250-255 | a tick keeps the node count and the ids in order, drifts node i by jitter i, puts every node inside the window and changes nothing but x and y |
| Telemetry.DriftedKeepsLinks | src/NimbusAtlasApp.jsx:250-255 | a tick preserves id uniqueness and the resolvability of every link list |
| Telemetry.MockNodesInBox | src/NimbusAtlasApp.jsx:17-23 | every mock node starts inside the window |
| App.ButtonVariant | src/NimbusAtlasApp.jsx:226-230 | a header button is filled iff it belongs to the active view |
| App.OneButtonHighlighted | src/NimbusAtlasApp.jsx:226-230 | exactly one header button is filled, the active view's |
| App.Dashboard.constructor | src/NimbusAtlasApp.jsx:242-245 | the dashboard starts valid with the mock nodes and links, no selection and the atlas view |
| App.Dashboard.Tick | src/NimbusAtlasApp.jsx:249-256 | the new node array is the drifted old one; the state stays valid, every node is inside the window, nodes that started inside moved at most 1 per axis; selection, view and links are unchanged |
| App.Dashboard.Select | src/NimbusAtlasApp.jsx:265-273 | the clicked node becomes the selection whatever it was before; nodes, links and view are unchanged |
| App.Dashboard.Close | src/NimbusAtlasApp.jsx:276 | the selection becomes none; nodes, links and view are unchanged |
| App.Dashboard.SetView | src/NimbusAtlasApp.jsx:226-230 | the view becomes the chosen one; nodes, links and selection are unchanged |
| App.ValidDashboardRenders | src/NimbusAtlasApp.jsx:101-110 | in every valid dashboard state the atlas drawing succeeds |

`App.Session` is a verified client of the class. It shows that a click
overwrites the previous selection, that Close clears it, and that switching
the view back and forth leaves the nodes and the selection unchanged.

## Left out

- Rendering (JSX, SVG elements, Tailwind class strings, framer-motion, lucide icons) and the text label beside each node circle. The duplicated and garbled label and legend markup (src/NimbusAtlasApp.jsx:157-161, 173-179) is left out too. Only the legend's swatch-to-label pairing and its documented thresholds are modelled.
- The 1600 ms `setInterval` timer and its cleanup on unmount. These are host timers, so only a single tick is modelled.
- `Math.random`. It is a nondeterministic host source, so the jitter is a parameter restricted to [-1, 1).
- IEEE floating-point rounding and NaN. The model computes in exact reals, so a NaN coordinate (which `|| 0` also reads as 0) cannot be represented.
- Endpoint ids that name inherited object properties (such as `toString`). In the source the lookup table then returns an inherited value and the coordinates are `undefined` instead of an error. The model treats every id no node carries as unknown.
- Display formatting in `MetricCard`, `NodeSummaryCard`, `NodeDetail` and `HeaderBar`, the progress bar's `cx / 100` scale, and the static "Recent Events" list. All of these are UI only.
- `src/components/ui/button.jsx`, `src/components/ui/card.jsx` and `vite.config.js`. These only assemble CSS classes or configure the build.
- The state setter replaces the whole node list on each tick. The model updates the array in place, which is observably the same because nothing else keeps a reference to the old list. The selection holds a value copy of the clicked node, as the source keeps the clicked node object.
- `setLinks` is never called, so the links are fixed for the session.
- The status label uses strict `>` at 85 and 70, while the legend text at src/NimbusAtlasApp.jsx:174-176 documents inclusive buckets. The model keeps the strict label (see Findings).
- One jitter value per node serves both axes, so x and y move by the same amount unless one of them is clamped.
- The one-unit movement bound holds only for nodes that start inside the window. A node outside the window is clamped straight onto it (`Telemetry.DriftFromOutside`).
- An unknown link endpoint fails only when the atlas is drawn. Nothing checks the links when the data is loaded.

## Findings

| source | as written | input that shows it | evidently intended | confidence | as-written member | corrected member |
|---|---|---|---|---|---|---|
| src/NimbusAtlasApp.jsx:35 | the status label uses strict `>` at 85 and 70 | cx = 85 is labelled Variable but drawn cyan, and the legend says Calm is 85 and up; cx = 70 is labelled Storm but drawn gold, and the legend says Variable is 70-84 | inclusive `>=`, matching the colour scale and the legend at lines 174-176 | medium, not executed | Classifier.LabelColourDisagreement | Classifier.LegendStatus |
