/** Routing and view state of the process-flow topology.

    Stations are boxes centred on (x, y). A connection leaves its source box
    and enters its target box at an anchor ten units outside the middle of
    the side that faces the other end: left/right when the horizontal offset
    strictly dominates, top/bottom otherwise (ties included). A connection
    either runs through its waypoints or, without waypoints, is synthesised
    as a three-segment orthogonal route with its bend at the midpoint of the
    longer axis. SVG path strings are modelled as their point sequences.
 */
module ProcessFlow {
  import opened Common

  datatype Point = Point(x: real, y: real)

  /** A station of the layout. Width and height are optional; the routing
      defaults them with `??`, so an explicit zero is kept. */
  datatype FlowNode = FlowNode(
    id: string,
    name: string,
    x: real,
    y: real,
    kind: string,
    width: Option<real>,
    height: Option<real>)

  /** A directed connection; an absent waypoint list and an empty one are
      routed alike, so both are the empty sequence here. */
  datatype Connection = Connection(from: string, to: string, waypoints: seq<Point>)

  datatype Side = Left | Right | Top | Bottom

  const AnchorGap: real := 10.0
  const DefaultWidth: real := 120.0
  const DefaultHeight: real := 50.0

  /** `getNodePosition`: a station's coordinates are the centre of its box. */
  function Center(n: FlowNode): (p: Point)
    ensures p.x == n.x && p.y == n.y
  {
    Point(n.x, n.y)
  }

  /** `(node.width ?? 120) / 2` */
  function HalfWidth(n: FlowNode): (h: real)
    ensures n.width.None? ==> h == DefaultWidth / 2.0
    ensures n.width.Some? ==> h == n.width.value / 2.0
  {
    n.width.GetOr(DefaultWidth) / 2.0
  }

  /** `(node.height ?? 50) / 2` */
  function HalfHeight(n: FlowNode): (h: real)
    ensures n.height.None? ==> h == DefaultHeight / 2.0
    ensures n.height.Some? ==> h == n.height.value / 2.0
  {
    n.height.GetOr(DefaultHeight) / 2.0
  }

  /** The side of the box of `n` that faces `toward`. */
  function FacingSide(n: FlowNode, toward: Point): (s: Side)
    ensures (s == Left || s == Right) <==> Abs(toward.x - n.x) > Abs(toward.y - n.y)
    ensures s == Right <==> Abs(toward.x - n.x) > Abs(toward.y - n.y) && toward.x > n.x
    ensures s == Bottom <==> Abs(toward.x - n.x) <= Abs(toward.y - n.y) && toward.y > n.y
  {
    var dx := toward.x - n.x;
    var dy := toward.y - n.y;
    if Abs(dx) > Abs(dy) then (if dx > 0.0 then Right else Left)
    else (if dy > 0.0 then Bottom else Top)
  }

  /** `getEdgePoint`: the anchor ten units outside the middle of the facing side. */
  function EdgePoint(n: FlowNode, toward: Point): (p: Point)
    ensures FacingSide(n, toward) == Right ==> p == Point(n.x + (HalfWidth(n) + AnchorGap), n.y)
    ensures FacingSide(n, toward) == Left ==> p == Point(n.x - (HalfWidth(n) + AnchorGap), n.y)
    ensures FacingSide(n, toward) == Bottom ==> p == Point(n.x, n.y + (HalfHeight(n) + AnchorGap))
    ensures FacingSide(n, toward) == Top ==> p == Point(n.x, n.y - (HalfHeight(n) + AnchorGap))
  {
    var cx, cy := n.x, n.y;
    var dx, dy := toward.x - cx, toward.y - cy;
    if Abs(dx) > Abs(dy) then
      Point(cx + (if dx > 0.0 then HalfWidth(n) + AnchorGap else -HalfWidth(n) - AnchorGap), cy)
    else
      Point(cx, cy + (if dy > 0.0 then HalfHeight(n) + AnchorGap else -HalfHeight(n) - AnchorGap))
  }

  /** `nodes.find(n => n.id === id)`: the first station with that id. */
  function Find(nodes: seq<FlowNode>, id: string): (r: Option<FlowNode>)
    ensures r.None? <==> forall i :: 0 <= i < |nodes| ==> nodes[i].id != id
    ensures r.Some? ==> exists i :: 0 <= i < |nodes| && nodes[i] == r.value
                          && forall j :: 0 <= j < i ==> nodes[j].id != id
    ensures r.Some? ==> r.value.id == id
  {
    if |nodes| == 0 then None
    else if nodes[0].id == id then Some(nodes[0])
    else
      var rest := Find(nodes[1..], id);
      assert forall i :: 1 <= i < |nodes| ==> nodes[i] == nodes[1..][i - 1];
      if rest.Some? then
        var k :| 0 <= k < |nodes[1..]| && nodes[1..][k] == rest.value
                 && forall j :: 0 <= j < k ==> nodes[1..][j].id != id;
        assert nodes[k + 1] == rest.value;
        rest
      else rest
  }

  /** With unique ids, `find` returns exactly the station asked for. */
  lemma FindUniqueId(nodes: seq<FlowNode>, i: nat)
    requires i < |nodes|
    requires forall a, b :: 0 <= a < b < |nodes| ==> nodes[a].id != nodes[b].id
    ensures Find(nodes, nodes[i].id) == Some(nodes[i])
  {
    var r := Find(nodes, nodes[i].id);
    var k :| 0 <= k < |nodes| && nodes[k] == r.value && forall j :: 0 <= j < k ==> nodes[j].id != nodes[i].id;
    assert k == i;
  }

  /** Two stations side by side on one row connect through their facing
      left/right anchors. */
  lemma SameRowUsesSideAnchors(a: FlowNode, b: FlowNode)
    requires a.y == b.y && a.x < b.x
    ensures EdgePoint(a, Center(b)) == Point(a.x + HalfWidth(a) + AnchorGap, a.y)
    ensures EdgePoint(b, Center(a)) == Point(b.x - HalfWidth(b) - AnchorGap, b.y)
  {
    assert FacingSide(a, Center(b)) == Right;
    assert FacingSide(b, Center(a)) == Left;
  }

  predicate AxisAligned(a: Point, b: Point) {
    a.x == b.x || a.y == b.y
  }

  /** The route without waypoints: a bend at the midpoint of the axis with
      the larger span, giving three axis-parallel segments. */
  function OrthogonalRoute(start: Point, end: Point): (path: seq<Point>)
    ensures |path| == 4 && path[0] == start && path[3] == end
    ensures forall i :: 0 <= i < 3 ==> AxisAligned(path[i], path[i + 1])
    ensures Abs(end.x - start.x) > Abs(end.y - start.y) ==>
              path[1].x == (start.x + end.x) / 2.0 && path[1].y == start.y && path[2].y == end.y
    ensures Abs(end.x - start.x) <= Abs(end.y - start.y) ==>
              path[1].y == (start.y + end.y) / 2.0 && path[1].x == start.x && path[2].x == end.x
  {
    var midX := start.x + (end.x - start.x) / 2.0;
    var midY := start.y + (end.y - start.y) / 2.0;
    if Abs(end.x - start.x) > Abs(end.y - start.y) then
      [start, Point(midX, start.y), Point(midX, end.y), end]
    else
      [start, Point(start.x, midY), Point(end.x, midY), end]
  }

  /** `getConnectionPath` as a point sequence; a connection naming a missing
      station draws nothing. */
  function ConnectionPath(nodes: seq<FlowNode>, c: Connection): (path: seq<Point>)
    ensures path == [] <==> Find(nodes, c.from).None? || Find(nodes, c.to).None?
    ensures Find(nodes, c.from).Some? && Find(nodes, c.to).Some? && |c.waypoints| > 0 ==>
              var f, t, k := Find(nodes, c.from).value, Find(nodes, c.to).value, |c.waypoints|;
              && |path| == k + 2
              && path[0] == EdgePoint(f, Center(t))
              && path[1..k + 1] == c.waypoints
              && path[k + 1] == EdgePoint(t, c.waypoints[k - 1])
    ensures Find(nodes, c.from).Some? && Find(nodes, c.to).Some? && |c.waypoints| == 0 ==>
              var f, t := Find(nodes, c.from).value, Find(nodes, c.to).value;
              && |path| == 4
              && path[0] == EdgePoint(f, Center(t))
              && path[3] == EdgePoint(t, Center(f))
              && forall i :: 0 <= i < 3 ==> AxisAligned(path[i], path[i + 1])
    ensures Find(nodes, c.from).Some? && Find(nodes, c.to).Some? && |c.waypoints| == 0 ==>
              path == OrthogonalRoute(path[0], path[3])
  {
    var fromNode := Find(nodes, c.from);
    var toNode := Find(nodes, c.to);
    if fromNode.None? || toNode.None? then []
    else
      var start := EdgePoint(fromNode.value, Center(toNode.value));
      var end := EdgePoint(toNode.value, Center(fromNode.value));
      if |c.waypoints| > 0 then
        var path := [start] + c.waypoints + [EdgePoint(toNode.value, c.waypoints[|c.waypoints| - 1])];
        assert path[1..|c.waypoints| + 1] == c.waypoints;
        path
      else
        OrthogonalRoute(start, end)
  }

  /** Pan and zoom of the canvas. */
  datatype ViewState = ViewState(scale: real, pan: Point)

  datatype ViewEvent = Wheel(deltaY: real) | ZoomIn | ZoomOut | ResetView

  const MinScale: real := 0.4
  const MaxScale: real := 2.0
  const InitialView: ViewState := ViewState(0.8, Point(0.0, 0.0))

  predicate ScaleInRange(v: ViewState) {
    MinScale <= v.scale <= MaxScale
  }

  /** `handleWheel` and the three zoom buttons. */
  function ApplyView(v: ViewState, e: ViewEvent): (w: ViewState)
    ensures e.Wheel? ==> ScaleInRange(w) && w.pan == v.pan
    ensures e.Wheel? && MinScale <= v.scale - e.deltaY * 0.001 <= MaxScale ==> w.scale == v.scale - e.deltaY * 0.001
    ensures e == ZoomIn ==> w.scale <= MaxScale && w.pan == v.pan
    ensures e == ZoomIn && v.scale + 0.2 <= MaxScale ==> w.scale == v.scale + 0.2
    ensures e == ZoomOut ==> w.scale >= MinScale && w.pan == v.pan
    ensures e == ZoomOut && v.scale - 0.2 >= MinScale ==> w.scale == v.scale - 0.2
    ensures e.Wheel? && v.scale - e.deltaY * 0.001 > MaxScale ==> w.scale == MaxScale
    ensures e.Wheel? && v.scale - e.deltaY * 0.001 < MinScale ==> w.scale == MinScale
    ensures e == ZoomIn && v.scale + 0.2 > MaxScale ==> w.scale == MaxScale
    ensures e == ZoomOut && v.scale - 0.2 < MinScale ==> w.scale == MinScale
    ensures e == ResetView ==> w == InitialView
  {
    match e
    case Wheel(deltaY) => v.(scale := Max(MinScale, Min(MaxScale, v.scale - deltaY * 0.001)))
    case ZoomIn => v.(scale := Min(MaxScale, v.scale + 0.2))
    case ZoomOut => v.(scale := Max(MinScale, v.scale - 0.2))
    case ResetView => InitialView
  }

  function ReplayView(v: ViewState, es: seq<ViewEvent>): ViewState
    decreases |es|
  {
    if |es| == 0 then v else ReplayView(ApplyView(v, es[0]), es[1..])
  }

  /** Starting from the initial view, no sequence of wheel turns and button
      presses takes the scale out of [0.4, 2]. */
  lemma {:induction false} ScaleStaysInRange(v: ViewState, es: seq<ViewEvent>)
    requires ScaleInRange(v)
    ensures ScaleInRange(ReplayView(v, es))
    decreases |es|
  {
    if |es| > 0 {
      ScaleStaysInRange(ApplyView(v, es[0]), es[1..]);
    }
  }

  /** `handleNodeClick`: a click that was not the end of a drag toggles the
      selection of the clicked station. */
  function NodeClick(selected: Option<string>, dragDistance: real, id: string): (r: Option<string>)
    ensures dragDistance >= 5.0 ==> r == selected
    ensures dragDistance < 5.0 && selected == Some(id) ==> r == None
    ensures dragDistance < 5.0 && selected != Some(id) ==> r == Some(id)
  {
    if dragDistance < 5.0 then (if selected == Some(id) then None else Some(id))
    else selected
  }

  /** Two plain clicks on the same station restore the previous selection
      when nothing or that station was selected; when another station was
      selected, they leave nothing selected. */
  lemma ClickTwice(selected: Option<string>, dragDistance: real, id: string)
    requires dragDistance < 5.0
    ensures selected == None || selected == Some(id) ==>
              NodeClick(NodeClick(selected, dragDistance, id), dragDistance, id) == selected
    ensures selected != None && selected != Some(id) ==>
              NodeClick(NodeClick(selected, dragDistance, id), dragDistance, id) == None
  {
  }
}
