/**
 * The tree of life (src/TreeVessel.js), reduced to what is not drawing:
 * the ten sefirot above the axis, their ten qliphoth mirrored below it,
 * the twenty-two paths between them, and the lookup from a consciousness
 * value to the node it lights.
 */
module Tree {
  import opened Wrappers
  import opened JsMath

  /** A scene position. Every position in the tables is whole. */
  datatype Vec3 = Vec3(x: int, y: int, z: int)

  /** One node of either tree; `outline` is the optional ring colour. */
  datatype NodeData = NodeData(name: string, meaning: string, color: int, position: Vec3, outline: Option<int>)

  /** The number of nodes in each tree. */
  const NodeCount: nat := 10

  /** The point between the trees, where a consciousness of 0 sits. */
  const Origin: Vec3 := Vec3(0, 0, 0)

  /** The reflection through the horizontal axis. */
  function Mirror(p: Vec3): (m: Vec3)
    ensures m.x == p.x && m.z == p.z && m.y == -p.y
  {
    Vec3(p.x, -p.y, p.z)
  }

  const Sefirot: seq<NodeData> := [
    NodeData("Kéter", "Corona", 0xffffff, Vec3(0, 14, 0), None),
    NodeData("Jojmá", "Sabiduría", 0x00ffff, Vec3(3, 12, 0), None),
    NodeData("Biná", "Entendimiento", 0x111111, Vec3(-3, 12, 0), Some(0xffffff)),
    NodeData("Jesed", "Misericordia", 0x0000ff, Vec3(3, 10, 0), None),
    NodeData("Gevurá", "Rigor", 0xff0000, Vec3(-3, 10, 0), None),
    NodeData("Tiféret", "Belleza", 0xffff00, Vec3(0, 8, 0), None),
    NodeData("Netsaj", "Victoria", 0x00ff00, Vec3(3, 6, 0), None),
    NodeData("Hod", "Gloria", 0xffa500, Vec3(-3, 6, 0), None),
    NodeData("Yesod", "Fundamento", 0x9932cc, Vec3(0, 4, 0), None),
    NodeData("Maljut", "Reino", 0x8b4513, Vec3(0, 2, 0), None)
  ]

  const Qliphoth: seq<NodeData> := [
    NodeData("Thaumiel", "Gemelos de Dios", 0x333333, Vec3(0, -14, 0), Some(0x550000)),
    NodeData("Ghagiel", "El Estorbo", 0x444444, Vec3(3, -12, 0), Some(0x550000)),
    NodeData("Satariel", "El Ocultador", 0x111111, Vec3(-3, -12, 0), Some(0x555555)),
    NodeData("Gha'agsheblah", "El Devorador", 0x000066, Vec3(3, -10, 0), Some(0x0000aa)),
    NodeData("Golachab", "El Quemador", 0x660000, Vec3(-3, -10, 0), Some(0xff0000)),
    NodeData("Thagirion", "Los Disputadores", 0x666600, Vec3(0, -8, 0), Some(0xffff00)),
    NodeData("A'arab Zaraq", "Cuervos de la Muerte", 0x004400, Vec3(3, -6, 0), Some(0x00ff00)),
    NodeData("Samael", "Veneno de Dios", 0x442200, Vec3(-3, -6, 0), Some(0xffaa00)),
    NodeData("Gamaliel", "Los Obscenos", 0x330033, Vec3(0, -4, 0), Some(0xff00ff)),
    NodeData("Lilith", "Reina de la Noche", 0x221100, Vec3(0, -2, 0), Some(0x884400))
  ]

  /** The paths of the tree, as pairs of node indices. */
  const Connections: seq<(int, int)> := [
    (1, 2), (3, 4), (6, 7),
    (0, 5), (5, 8), (8, 9),
    (1, 3), (3, 6),
    (2, 4), (4, 7),
    (6, 9), (7, 9),
    (0, 1), (0, 2), (1, 5), (2, 5), (3, 5), (4, 5), (5, 6), (5, 7), (6, 8), (7, 8)
  ]

  /** Both tables have one entry per node. */
  lemma TablesHaveTenNodes()
    ensures |Sefirot| == NodeCount && |Qliphoth| == NodeCount
  {
  }

  /** Each qliphah sits at the mirror image of the sefirah with the same index. */
  lemma QliphothMirrorSefirot()
    ensures forall i :: 0 <= i < NodeCount ==> Qliphoth[i].position == Mirror(Sefirot[i].position)
  {
    assert Qliphoth[0].position == Mirror(Sefirot[0].position);
    assert Qliphoth[1].position == Mirror(Sefirot[1].position);
    assert Qliphoth[2].position == Mirror(Sefirot[2].position);
    assert Qliphoth[3].position == Mirror(Sefirot[3].position);
    assert Qliphoth[4].position == Mirror(Sefirot[4].position);
    assert Qliphoth[5].position == Mirror(Sefirot[5].position);
    assert Qliphoth[6].position == Mirror(Sefirot[6].position);
    assert Qliphoth[7].position == Mirror(Sefirot[7].position);
    assert Qliphoth[8].position == Mirror(Sefirot[8].position);
    assert Qliphoth[9].position == Mirror(Sefirot[9].position);
  }

  /** Every path joins two distinct nodes of the tree. */
  lemma ConnectionsWithinTree()
    ensures |Connections| == 22
    ensures forall k :: 0 <= k < |Connections| ==>
      0 <= Connections[k].0 < NodeCount && 0 <= Connections[k].1 < NodeCount &&
      Connections[k].0 != Connections[k].1
  {
  }

  /**
   * The node index a consciousness of magnitude `m` selects:
   * `round(10 - 10 m)`, held to 0..9 whatever `m` is.
   */
  function SafeIndex(m: real): (i: int)
    ensures 0 <= i < NodeCount
  {
    ClampInt(Round(10.0 - m * 10.0), 0, NodeCount - 1)
  }

  /** A larger magnitude never selects a lower node. */
  lemma SafeIndexMonotone(m1: real, m2: real)
    requires m1 <= m2
    ensures SafeIndex(m2) <= SafeIndex(m1)
  {
    assert 10.0 - m2 * 10.0 <= 10.0 - m1 * 10.0;
  }

  /** On the dial's own steps, a consciousness of k tenths selects node 10 - k. */
  lemma SafeIndexOnTenths(k: int)
    requires 1 <= k <= 10
    ensures SafeIndex(k as real / 10.0) == 10 - k
  {
    assert 10.0 - (k as real / 10.0) * 10.0 == (10 - k) as real;
  }

  /** getActiveNodeData: a sefirah above 0, the qliphah of the same index below, nothing at 0. */
  function ActiveNodeData(c: real): (r: Option<NodeData>)
    ensures r.None? <==> c == 0.0
  {
    if c > 0.0 then Some(Sefirot[SafeIndex(c)])
    else if c < 0.0 then Some(Qliphoth[SafeIndex(Abs(c))])
    else None
  }

  /** getActiveNodePosition: the sefirah's position above 0, its mirror below, the origin at 0. */
  function ActiveNodePosition(c: real): (p: Vec3)
    ensures c == 0.0 ==> p == Origin
  {
    if c > 0.0 then Sefirot[SafeIndex(c)].position
    else if c < 0.0 then Mirror(Sefirot[SafeIndex(Abs(c))].position)
    else Origin
  }

  /** Full consciousness lights Kéter; the smallest positive step lights Maljut. */
  lemma ExtremesOfTheLightTree()
    ensures ActiveNodeData(1.0) == Some(Sefirot[0]) && Sefirot[0].name == "Kéter"
    ensures ActiveNodeData(0.1) == Some(Sefirot[9]) && Sefirot[9].name == "Maljut"
  {
    SafeIndexOnTenths(10);
    SafeIndexOnTenths(1);
  }

  /** A negative value lights the qliphah at the index its magnitude gives a sefirah. */
  lemma ShadowUsesSameIndex(c: real)
    requires c > 0.0
    ensures ActiveNodeData(c) == Some(Sefirot[SafeIndex(c)])
    ensures ActiveNodeData(-c) == Some(Qliphoth[SafeIndex(c)])
  {
    assert Abs(-c) == c;
  }

  /** Negating consciousness mirrors the active position through the axis. */
  lemma PositionMirrors(c: real)
    ensures ActiveNodePosition(-c) == Mirror(ActiveNodePosition(c))
  {
    if c > 0.0 {
      assert Abs(-c) == c;
    } else if c < 0.0 {
      assert Abs(c) == -c;
    }
  }

  /** The position lookup and the data lookup agree wherever a node is lit. */
  lemma PositionOfActiveNode(c: real)
    requires c != 0.0
    ensures ActiveNodeData(c).Some?
    ensures ActiveNodeData(c).value.position == ActiveNodePosition(c)
  {
    QliphothMirrorSefirot();
  }

  /** Light values land in the upper tree, shadow values in the lower. */
  lemma ActiveSideFollowsSign(c: real)
    ensures c > 0.0 ==> ActiveNodePosition(c).y > 0
    ensures c < 0.0 ==> ActiveNodePosition(c).y < 0
  {
    var i := SafeIndex(Abs(c));
    assert Sefirot[i].position.y >= 2 by {
      assert forall j :: 0 <= j < NodeCount ==> Sefirot[j].position.y >= 2;
    }
    if c > 0.0 {
      assert Abs(c) == c;
    }
  }
}
