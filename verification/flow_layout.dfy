/** The fixed station layout and connection table of the process-flow view,
    and the facts that make every fixed connection drawable. */
module FlowLayout {
  import opened Common
  import opened ProcessFlow

  /** A table row; every station of the layout states its width and height. */
  function Station(id: string, name: string, x: real, y: real, kind: string, width: real, height: real): FlowNode {
    FlowNode(id, name, x, y, kind, Some(width), Some(height))
  }

  /** The 29 stations, in table order. */
  const Nodes: seq<FlowNode> := [
    Station("biw-storage", "BIW STORAGE", 200.0, 100.0, "storage", 140.0, 60.0),
    Station("prewash", "PREWASH", 400.0, 100.0, "process", 120.0, 50.0),
    Station("pretreatment", "PRETREATMENT", 600.0, 100.0, "process", 130.0, 50.0),
    Station("electrocoat-line", "ELECTROCOAT\nLINE", 800.0, 100.0, "process", 120.0, 60.0),
    Station("electrocoat-oven", "ELECTROCOAT\nOVEN", 1000.0, 100.0, "oven", 120.0, 60.0),
    Station("roof-ditch", "ROOF DITCH", 200.0, 220.0, "process", 110.0, 50.0),
    Station("melt-sheet", "MELT SHEET", 400.0, 220.0, "process", 110.0, 50.0),
    Station("jig-dejig", "JIG DEJIG", 600.0, 220.0, "process", 110.0, 50.0),
    Station("sealant-line-1", "SEALANT LINE", 800.0, 220.0, "process", 120.0, 50.0),
    Station("surfacer-ovenline", "SURFACER\nOVEN", 200.0, 340.0, "oven", 120.0, 60.0),
    Station("surfacer", "SURFACER\nBOOTH", 400.0, 340.0, "booth", 120.0, 60.0),
    Station("wet-sanding", "WET SANDING", 600.0, 340.0, "process", 120.0, 50.0),
    Station("dry-sanding", "DRY SANDING", 800.0, 340.0, "process", 120.0, 50.0),
    Station("bc-booth", "BASE COAT\nBOOTH", 200.0, 460.0, "booth", 120.0, 60.0),
    Station("bc-oven", "BASE COAT\nOVEN", 400.0, 460.0, "oven", 120.0, 60.0),
    Station("polishing", "POLISHING", 600.0, 460.0, "process", 120.0, 50.0),
    Station("color-change-bank", "COLOR CHANGE", 800.0, 460.0, "process", 120.0, 50.0),
    Station("top-coat-booth-1", "TOP COAT\nBOOTH 1", 200.0, 580.0, "booth", 120.0, 60.0),
    Station("top-coat-oven-1", "TOP COAT\nOVEN 1", 400.0, 580.0, "oven", 120.0, 60.0),
    Station("top-coat-booth-2", "TOP COAT\nBOOTH 2", 600.0, 580.0, "booth", 120.0, 60.0),
    Station("top-coat-oven-2", "TOP COAT\nOVEN 2", 800.0, 580.0, "oven", 120.0, 60.0),
    Station("wax-booth", "WAX BOOTH", 200.0, 700.0, "booth", 120.0, 50.0),
    Station("under-body", "UNDER BODY\nTREATMENT", 400.0, 700.0, "process", 120.0, 60.0),
    Station("under-body-oven", "UNDER BODY\nOVEN", 600.0, 700.0, "oven", 120.0, 60.0),
    Station("painted-bodies-storage", "PAINTED\nSTORAGE", 200.0, 820.0, "storage", 120.0, 60.0),
    Station("cont-room", "CONTROL\nROOM", 400.0, 820.0, "process", 120.0, 60.0),
    Station("paint-mix-room", "PAINT MIX", 600.0, 820.0, "process", 120.0, 60.0),
    Station("painted-bodies-assy", "TO ASSEMBLY", 800.0, 820.0, "destination", 120.0, 60.0),
    Station("rp-bodies-wet-sanding", "REWORK\nSTATION", 1000.0, 460.0, "process", 120.0, 60.0)
  ]

  /** The 30 connections, in drawing order. */
  const Connections: seq<Connection> := [
    Connection("biw-storage", "prewash", []),
    Connection("prewash", "pretreatment", []),
    Connection("pretreatment", "electrocoat-line", []),
    Connection("electrocoat-line", "electrocoat-oven", []),
    Connection("electrocoat-oven", "sealant-line-1", [Point(1000.0, 160.0), Point(800.0, 160.0)]),
    Connection("sealant-line-1", "jig-dejig", []),
    Connection("jig-dejig", "melt-sheet", []),
    Connection("melt-sheet", "roof-ditch", []),
    Connection("roof-ditch", "surfacer-ovenline", [Point(200.0, 280.0)]),
    Connection("surfacer-ovenline", "surfacer", []),
    Connection("surfacer", "wet-sanding", []),
    Connection("wet-sanding", "dry-sanding", []),
    Connection("dry-sanding", "color-change-bank", [Point(800.0, 400.0)]),
    Connection("color-change-bank", "polishing", [Point(800.0, 400.0), Point(600.0, 400.0)]),
    Connection("polishing", "bc-oven", [Point(600.0, 400.0), Point(400.0, 400.0)]),
    Connection("bc-oven", "bc-booth", []),
    Connection("bc-booth", "top-coat-booth-1", [Point(200.0, 520.0)]),
    Connection("bc-booth", "top-coat-booth-2", [Point(200.0, 520.0), Point(600.0, 520.0)]),
    Connection("top-coat-booth-1", "top-coat-oven-1", []),
    Connection("top-coat-booth-2", "top-coat-oven-2", []),
    Connection("top-coat-oven-1", "wax-booth", [Point(400.0, 640.0), Point(200.0, 640.0)]),
    Connection("top-coat-oven-2", "wax-booth", [Point(800.0, 640.0), Point(200.0, 640.0)]),
    Connection("wax-booth", "under-body", []),
    Connection("under-body", "under-body-oven", []),
    Connection("under-body-oven", "painted-bodies-storage", [Point(600.0, 760.0), Point(200.0, 760.0)]),
    Connection("painted-bodies-storage", "cont-room", []),
    Connection("cont-room", "paint-mix-room", []),
    Connection("paint-mix-room", "painted-bodies-assy", []),
    Connection("polishing", "rp-bodies-wet-sanding", [Point(1000.0, 460.0)]),
    Connection("rp-bodies-wet-sanding", "wet-sanding", [Point(1000.0, 340.0), Point(600.0, 340.0)])
  ]
  /** The station ids, in table order. */
  const NodeIds: seq<string> := [
    "biw-storage",
    "prewash",
    "pretreatment",
    "electrocoat-line",
    "electrocoat-oven",
    "roof-ditch",
    "melt-sheet",
    "jig-dejig",
    "sealant-line-1",
    "surfacer-ovenline",
    "surfacer",
    "wet-sanding",
    "dry-sanding",
    "bc-booth",
    "bc-oven",
    "polishing",
    "color-change-bank",
    "top-coat-booth-1",
    "top-coat-oven-1",
    "top-coat-booth-2",
    "top-coat-oven-2",
    "wax-booth",
    "under-body",
    "under-body-oven",
    "painted-bodies-storage",
    "cont-room",
    "paint-mix-room",
    "painted-bodies-assy",
    "rp-bodies-wet-sanding"
  ]

  lemma NodeIdsInOrder()
    ensures |Nodes| == |NodeIds|
    ensures forall i :: 0 <= i < |Nodes| ==> Nodes[i].id == NodeIds[i]
  {
  }

  lemma IdListDistinct()
    ensures forall i, j :: 0 <= i < j < |NodeIds| ==> NodeIds[i] != NodeIds[j]
  {
  }

  /** No two stations share an id. */
  lemma NodeIdsUnique()
    ensures forall i, j :: 0 <= i < j < |Nodes| ==> Nodes[i].id != Nodes[j].id
  {
    NodeIdsInOrder();
    IdListDistinct();
  }

  /** Every station is found under its own id, so the routing always picks
      the station the table means. */
  lemma EveryStationFoundByItsId()
    ensures forall i :: 0 <= i < |Nodes| ==> Find(Nodes, Nodes[i].id) == Some(Nodes[i])
  {
    NodeIdsUnique();
    forall i | 0 <= i < |Nodes|
      ensures Find(Nodes, Nodes[i].id) == Some(Nodes[i])
    {
      FindUniqueId(Nodes, i);
    }
  }

  lemma ListedIdResolves(id: string)
    requires id in NodeIds
    ensures Find(Nodes, id).Some?
  {
    NodeIdsInOrder();
    var k :| 0 <= k < |NodeIds| && NodeIds[k] == id;
    assert Nodes[k].id == id;
  }

  /** Both endpoints of every fixed connection name a station of the table. */
  lemma EveryEndpointResolves()
    ensures forall i :: 0 <= i < |Connections| ==>
              Find(Nodes, Connections[i].from).Some? && Find(Nodes, Connections[i].to).Some?
  {
    assert forall i :: 0 <= i < |Connections| ==> Connections[i].from in NodeIds && Connections[i].to in NodeIds;
    forall i | 0 <= i < |Connections|
      ensures Find(Nodes, Connections[i].from).Some? && Find(Nodes, Connections[i].to).Some?
    {
      ListedIdResolves(Connections[i].from);
      ListedIdResolves(Connections[i].to);
    }
  }

  /** Hence no fixed connection renders as an empty path. */
  lemma EveryConnectionDrawn()
    ensures forall i :: 0 <= i < |Connections| ==> ConnectionPath(Nodes, Connections[i]) != []
  {
    EveryEndpointResolves();
  }
}
