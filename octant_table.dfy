/** The static script's table of eight right-corner tetrahedra, one per
    octant, sharing the vertex O at the origin, together with the face list
    it draws, the two panel selections and the properties it prints. */
module OctantTable {
  import opened Points
  import opened RealMath
  import StarGeometry

  /** The leg length. */
  const L: real := 1.0

  datatype Tetrahedron = Tetrahedron(o: V3, a: V3, b: V3, c: V3, color: string, name: string)

  /** One key of the dictionary with its value; the dictionary keeps
      insertion order, so the table is a sequence of entries. */
  datatype Entry = Entry(id: string, tetra: Tetrahedron)

  datatype Option<T> = None | Some(value: T)

  /** The dictionary `tetrahedra` for leg length l. */
  function Table(l: real): (r: seq<Entry>)
    ensures |r| == 8
  {
    [ Entry("T1", Tetrahedron(Origin, V3(l, 0.0, 0.0), V3(0.0, l, 0.0), V3(0.0, 0.0, l), "lightcoral", "Positive XYZ")),
      Entry("T2", Tetrahedron(Origin, V3(-l, 0.0, 0.0), V3(0.0, l, 0.0), V3(0.0, 0.0, l), "lightblue", "Negative X")),
      Entry("T3", Tetrahedron(Origin, V3(l, 0.0, 0.0), V3(0.0, -l, 0.0), V3(0.0, 0.0, l), "lightgreen", "Negative Y")),
      Entry("T4", Tetrahedron(Origin, V3(l, 0.0, 0.0), V3(0.0, l, 0.0), V3(0.0, 0.0, -l), "lightyellow", "Negative Z")),
      Entry("T5", Tetrahedron(Origin, V3(-l, 0.0, 0.0), V3(0.0, -l, 0.0), V3(0.0, 0.0, l), "lightpink", "Negative XY")),
      Entry("T6", Tetrahedron(Origin, V3(-l, 0.0, 0.0), V3(0.0, l, 0.0), V3(0.0, 0.0, -l), "lightcyan", "Negative XZ")),
      Entry("T7", Tetrahedron(Origin, V3(l, 0.0, 0.0), V3(0.0, -l, 0.0), V3(0.0, 0.0, -l), "lavender", "Negative YZ")),
      Entry("T8", Tetrahedron(Origin, V3(-l, 0.0, 0.0), V3(0.0, -l, 0.0), V3(0.0, 0.0, -l), "wheat", "Negative XYZ")) ]
  }

  const Tetrahedra: seq<Entry> := Table(L)

  /** The vertex list O, A, B, C of one tetrahedron. */
  function Vertices(t: Tetrahedron): (r: seq<V3>)
    ensures |r| == 4
  {
    [t.o, t.a, t.b, t.c]
  }

  /** The keys in insertion order. */
  function Ids(table: seq<Entry>): (r: seq<string>)
    ensures |r| == |table| && forall i :: 0 <= i < |table| ==> r[i] == table[i].id
  {
    seq(|table|, i requires 0 <= i < |table| => table[i].id)
  }

  /** `tetrahedra[id]`: the entry under that key, or None where Python
      would raise KeyError. */
  function Lookup(table: seq<Entry>, id: string): (r: Option<Tetrahedron>)
    ensures r.None? <==> forall i :: 0 <= i < |table| ==> table[i].id != id
    ensures r.Some? ==> exists i :: 0 <= i < |table| && table[i].id == id && table[i].tetra == r.value
  {
    if |table| == 0 then None
    else if table[0].id == id then Some(table[0].tetra)
    else
      var rest := Lookup(table[1..], id);
      assert forall i :: 1 <= i < |table| ==> table[i] == table[1..][i - 1];
      rest
  }

  /** The keys of the table, in insertion order. */
  lemma TableKeys(l: real)
    ensures Ids(Table(l)) == ["T1", "T2", "T3", "T4", "T5", "T6", "T7", "T8"]
  {
  }

  /** In a table with distinct keys, every key finds the entry stored under it. */
  lemma LookupDistinctKeys(table: seq<Entry>, i: nat)
    requires i < |table|
    requires forall j, k :: 0 <= j < k < |table| ==> table[j].id != table[k].id
    ensures Lookup(table, table[i].id) == Some(table[i].tetra)
  {
    var r := Lookup(table, table[i].id);
    var k :| 0 <= k < |table| && table[k].id == table[i].id && table[k].tetra == r.value;
    assert k == i;
  }

  /** The eight keys are distinct, so each finds its own entry. */
  lemma LookupFindsEveryEntry(l: real, i: nat)
    requires i < 8
    ensures forall j :: 0 <= j < 8 && j != i ==> Table(l)[j].id != Table(l)[i].id
    ensures Lookup(Table(l), Table(l)[i].id) == Some(Table(l)[i].tetra)
  {
    var ids := Ids(Table(l));
    TableKeys(l);
    assert forall j, k :: 0 <= j < k < 8 ==> ids[j] != ids[k];
    LookupDistinctKeys(Table(l), i);
  }

  /** `plot_tetrahedron`'s faces: OAB, OAC, OBC and the far face ABC. */
  function PlotFaces(t: Tetrahedron): seq<seq<V3>>
  {
    [[t.o, t.a, t.b], [t.o, t.a, t.c], [t.o, t.b, t.c], [t.a, t.b, t.c]]
  }

  /** Both scripts draw the same four faces in the same order. */
  lemma PlotFacesAgreeWithAnimation(t: Tetrahedron)
    ensures PlotFaces(t) == StarGeometry.TetrahedronFaces(Vertices(t))
    ensures forall k, j :: 0 <= k < 4 && 0 <= j < 3 ==>
              PlotFaces(t)[k][j] == Vertices(t)[StarGeometry.FaceIndices[k][j]]
  {
    StarGeometry.FacesPickVertices(Vertices(t));
  }

  /** The panel of the upper-left-but-one plot and the one below it. */
  const Panel2: seq<string> := ["T1", "T2", "T3", "T4"]
  const Panel3: seq<string> := ["T5", "T6", "T7", "T8"]

  /** The two panels split the table: together, in order, they are all the
      keys, neither repeats one, and every key they name is present. */
  lemma PanelsPartitionTable(l: real)
    ensures Panel2 + Panel3 == Ids(Table(l))
    ensures forall k :: 0 <= k < 4 ==> Panel2[k] !in Panel3
    ensures forall id :: id in Panel2 + Panel3 ==> Lookup(Table(l), id).Some?
  {
    var ids := Ids(Table(l));
    assert ids == ["T1", "T2", "T3", "T4", "T5", "T6", "T7", "T8"];
    forall id | id in Panel2 + Panel3
      ensures Lookup(Table(l), id).Some?
    {
      assert id in ids;
      var i :| 0 <= i < 8 && ids[i] == id;
      LookupFindsEveryEntry(l, i);
    }
  }

  /** numpy's sign of each leg's non-zero coordinate: the octant a
      tetrahedron lies in. */
  function OctantOf(t: Tetrahedron): V3
  {
    V3(Sign(t.a.x), Sign(t.b.y), Sign(t.c.z))
  }

  /** One printed line of the octant coverage list. */
  datatype OctantLabel = OctantLabel(id: string, name: string, signs: V3)

  const PrintedOctants: seq<OctantLabel> := [
    OctantLabel("T1", "Positive XYZ", V3(1.0, 1.0, 1.0)),
    OctantLabel("T2", "Negative X", V3(-1.0, 1.0, 1.0)),
    OctantLabel("T3", "Negative Y", V3(1.0, -1.0, 1.0)),
    OctantLabel("T4", "Negative Z", V3(1.0, 1.0, -1.0)),
    OctantLabel("T5", "Negative XY", V3(-1.0, -1.0, 1.0)),
    OctantLabel("T6", "Negative XZ", V3(-1.0, 1.0, -1.0)),
    OctantLabel("T7", "Negative YZ", V3(1.0, -1.0, -1.0)),
    OctantLabel("T8", "Negative XYZ", V3(-1.0, -1.0, -1.0))
  ]

  /** Each printed label names the entry at its position and the octant
      that entry really lies in, for any positive leg length. */
  lemma PrintedOctantsMatchTable(l: real, i: nat)
    requires l > 0.0 && i < 8
    ensures PrintedOctants[i].id == Table(l)[i].id
    ensures PrintedOctants[i].name == Table(l)[i].tetra.name
    ensures OctantOf(Table(l)[i].tetra) == PrintedOctants[i].signs
  {
  }

  /** Position i of the animated star is entry StarOrder[i] of the table. */
  const StarOrder: seq<nat> := [0, 3, 2, 6, 1, 5, 4, 7]

  /** The animated script's star with scale l is this table, reordered:
      both scripts build the same eight solids. */
  lemma TableMatchesStar(l: real, i: nat)
    requires i < 8
    ensures StarOrder[i] < 8
    ensures Vertices(Table(l)[StarOrder[i]].tetra) == StarGeometry.Star(l)[i]
    ensures l > 0.0 ==> OctantOf(Table(l)[StarOrder[i]].tetra) == StarGeometry.OctantSigns[i]
  {
    StarGeometry.StarVertices(l, i);
    var t := Table(l)[StarOrder[i]].tetra;
    var s := StarGeometry.OctantSigns[i];
    assert StarGeometry.Star(l)[i] == [Origin, V3(l * s.x, 0.0, 0.0), V3(0.0, l * s.y, 0.0), V3(0.0, 0.0, l * s.z)];
    if i == 0 {
    } else if i == 1 {
    } else if i == 2 {
    } else if i == 3 {
    } else if i == 4 {
    } else if i == 5 {
    } else if i == 6 {
    } else {
    }
  }

  /** The eight entries lie in eight different octants. */
  lemma OctantsDistinct(l: real)
    requires l > 0.0
    ensures forall i, j :: 0 <= i < 8 && 0 <= j < 8 && i != j ==>
              OctantOf(Table(l)[i].tetra) != OctantOf(Table(l)[j].tetra)
  {
    forall i | 0 <= i < 8
      ensures OctantOf(Table(l)[i].tetra) == PrintedOctants[i].signs
    {
      PrintedOctantsMatchTable(l, i);
    }
  }

  /** Every octant holds one of the entries. */
  lemma OctantsCovered(l: real, s: V3)
    requires l > 0.0
    requires s.x in StarGeometry.SignChoices && s.y in StarGeometry.SignChoices && s.z in StarGeometry.SignChoices
    ensures exists i :: 0 <= i < 8 && OctantOf(Table(l)[i].tetra) == s
  {
    StarGeometry.OctantSignsDistinct();
    var p := StarGeometry.LoopPosition(s);
    TableMatchesStar(l, p);
    assert OctantOf(Table(l)[StarOrder[p]].tetra) == s;
  }

  /** The printed geometry, for any leg length l: O is the origin, the legs
      OA, OB, OC have squared length l² and are pairwise perpendicular (three
      right triangles), and the far face ABC has squared side 2 l². */
  lemma RightCornerTetrahedra(l: real, i: nat)
    requires i < 8
    ensures Table(l)[i].tetra.o == Origin
    ensures StarGeometry.RightCornerShape(Vertices(Table(l)[i].tetra), l * l)
  {
    var t := Table(l)[i].tetra;
    NegatedSquare(l);
    StarGeometry.RightCorner(t.a.x, t.b.y, t.c.z, l * l);
    assert Vertices(t) == StarGeometry.RightCornerList(t.a.x, t.b.y, t.c.z);
  }

  /** A, B and C lie on the x, y and z axes, at coordinate l or -l. */
  lemma LegsOnAxes(l: real, i: nat)
    requires i < 8
    ensures Table(l)[i].tetra.a == V3(Table(l)[i].tetra.a.x, 0.0, 0.0)
    ensures Table(l)[i].tetra.b == V3(0.0, Table(l)[i].tetra.b.y, 0.0)
    ensures Table(l)[i].tetra.c == V3(0.0, 0.0, Table(l)[i].tetra.c.z)
    ensures Table(l)[i].tetra.a.x in {l, -l} && Table(l)[i].tetra.b.y in {l, -l} && Table(l)[i].tetra.c.z in {l, -l}
  {
  }

  lemma NegatedSquare(l: real)
    ensures (-l) * (-l) == l * l
  {
  }

  /** With L = 1 the printed distances from O are all 1, and the printed
      side of the far face is L √2. */
  lemma PrintedLengths(m: Transcendentals, i: nat)
    requires SqrtLaw(m) && i < 8
    ensures forall k :: 1 <= k < 4 ==> Norm(m, Sub(Vertices(Tetrahedra[i].tetra)[k], Origin)) == L
    ensures forall j, k :: 1 <= j < k < 4 ==>
              Norm(m, Sub(Vertices(Tetrahedra[i].tetra)[j], Vertices(Tetrahedra[i].tetra)[k])) == L * m.sqrt(2.0)
  {
    RightCornerTetrahedra(L, i);
    var v := Vertices(Tetrahedra[i].tetra);
    forall k | 1 <= k < 4
      ensures Norm(m, Sub(v[k], Origin)) == L
    {
      UnitVectorHasUnitNorm(m, Sub(v[k], Origin));
    }
  }

  /** Every vertex lies in the cube [-l, l]³, and each of its six faces is
      touched, so the cube is the tightest axis-aligned box. */
  lemma BoundedByCube(l: real)
    requires l >= 0.0
    ensures forall i, k :: 0 <= i < 8 && 0 <= k < 4 ==> InCube(Vertices(Table(l)[i].tetra)[k], l)
    ensures Table(l)[0].tetra.a.x == l && Table(l)[7].tetra.a.x == -l
    ensures Table(l)[0].tetra.b.y == l && Table(l)[7].tetra.b.y == -l
    ensures Table(l)[0].tetra.c.z == l && Table(l)[7].tetra.c.z == -l
  {
    forall i, k | 0 <= i < 8 && 0 <= k < 4
      ensures InCube(Vertices(Table(l)[i].tetra)[k], l)
    {
      TableMatchesStar(l, LoopIndex(i));
      StarGeometry.StarInCube(l, LoopIndex(i), k);
    }
  }

  // ---------------------------------------------------------------------
  // The region the eight solids occupy

  /** The point with weights u, v, w on A, B, C and the rest on O. */
  function Combination(t: Tetrahedron, u: real, v: real, w: real): V3
  {
    Add(Scale(1.0 - u - v - w, t.o), Add(Scale(u, t.a), Add(Scale(v, t.b), Scale(w, t.c))))
  }

  /** The point lies in the solid tetrahedron OABC: it is a convex
      combination of the four corners. */
  ghost predicate InSolid(t: Tetrahedron, p: V3)
  {
    exists u, v, w :: 0.0 <= u && 0.0 <= v && 0.0 <= w && u + v + w <= 1.0 && p == Combination(t, u, v, w)
  }

  /** O at the origin and A, B, C on the x, y and z axes at coordinate L
      or -L, as every entry of the script's table is. */
  predicate OnUnitAxes(t: Tetrahedron)
  {
    t.o == Origin && t.a == V3(t.a.x, 0.0, 0.0) && t.b == V3(0.0, t.b.y, 0.0) && t.c == V3(0.0, 0.0, t.c.z) &&
    (t.a.x == L || t.a.x == -L) && (t.b.y == L || t.b.y == -L) && (t.c.z == L || t.c.z == -L)
  }

  lemma EntryOnUnitAxes(i: nat)
    requires i < 8
    ensures OnUnitAxes(Tetrahedra[i].tetra)
  {
    LegsOnAxes(L, i);
  }

  /** For such a tetrahedron the combination is (u A.x, v B.y, w C.z). */
  lemma CombinationOnAxes(t: Tetrahedron, u: real, v: real, w: real)
    requires OnUnitAxes(t)
    ensures Combination(t, u, v, w) == V3(u * t.a.x, v * t.b.y, w * t.c.z)
  {
  }

  /** A weight times a leg at 1 or -1 has the weight as absolute value. */
  lemma WeightedLeg(u: real, leg: real)
    requires 0.0 <= u && (leg == 1.0 || leg == -1.0)
    ensures Abs(u * leg) == u
  {
    if leg == -1.0 {
      assert u * leg == -u;
    }
  }

  /** The printed claim read as written: the cube corner (L, L, L) is in the
      cube, yet it lies in none of the eight solids. */
  lemma CubeCornerInNoTetrahedron(i: nat)
    requires i < 8
    ensures InCube(V3(L, L, L), L)
    ensures !InSolid(Tetrahedra[i].tetra, V3(L, L, L))
  {
    UnionIsOctahedron(V3(L, L, L));
    assert Abs(L) + Abs(L) + Abs(L) > L;
  }

  /** A point of such a solid has |x| + |y| + |z| <= L. */
  lemma SolidPointInOctahedron(t: Tetrahedron, p: V3)
    requires OnUnitAxes(t) && InSolid(t, p)
    ensures Abs(p.x) + Abs(p.y) + Abs(p.z) <= L
  {
    var u, v, w :| 0.0 <= u && 0.0 <= v && 0.0 <= w && u + v + w <= 1.0 && p == Combination(t, u, v, w);
    CombinationInOctahedron(t, u, v, w);
  }

  lemma CombinationInOctahedron(t: Tetrahedron, u: real, v: real, w: real)
    requires OnUnitAxes(t) && 0.0 <= u && 0.0 <= v && 0.0 <= w && u + v + w <= 1.0
    ensures Abs(Combination(t, u, v, w).x) + Abs(Combination(t, u, v, w).y) + Abs(Combination(t, u, v, w).z) <= L
  {
    CombinationOnAxes(t, u, v, w);
    WeightedLeg(u, t.a.x);
    WeightedLeg(v, t.b.y);
    WeightedLeg(w, t.c.z);
  }

  /** The sign row of the octant a point lies in, zeros counted as positive. */
  function OctantOfPoint(p: V3): (s: V3)
    ensures s.x in StarGeometry.SignChoices && s.y in StarGeometry.SignChoices && s.z in StarGeometry.SignChoices
    ensures p.x == Abs(p.x) * s.x && p.y == Abs(p.y) * s.y && p.z == Abs(p.z) * s.z
  {
    V3(if p.x < 0.0 then -1.0 else 1.0, if p.y < 0.0 then -1.0 else 1.0, if p.z < 0.0 then -1.0 else 1.0)
  }

  /** A point with |x| + |y| + |z| <= L lies in the solid whose octant is
      the point's, with weights |x|, |y| and |z|. */
  lemma OctahedronPointInSolid(t: Tetrahedron, p: V3)
    requires OnUnitAxes(t) && OctantOf(t) == OctantOfPoint(p)
    requires Abs(p.x) + Abs(p.y) + Abs(p.z) <= L
    ensures InSolid(t, p)
  {
    var u, v, w := Abs(p.x), Abs(p.y), Abs(p.z);
    CombinationOnAxes(t, u, v, w);
    assert t.a.x == OctantOfPoint(p).x && t.b.y == OctantOfPoint(p).y && t.c.z == OctantOfPoint(p).z;
    assert p == Combination(t, u, v, w);
  }

  /** Together the eight solids fill exactly the octahedron
      |x| + |y| + |z| <= L, not the cube [-L, L]³. */
  lemma UnionIsOctahedron(p: V3)
    ensures (exists i :: 0 <= i < 8 && InSolid(Tetrahedra[i].tetra, p)) <==> Abs(p.x) + Abs(p.y) + Abs(p.z) <= L
  {
    if exists i :: 0 <= i < 8 && InSolid(Tetrahedra[i].tetra, p) {
      var i :| 0 <= i < 8 && InSolid(Tetrahedra[i].tetra, p);
      EntryOnUnitAxes(i);
      SolidPointInOctahedron(Tetrahedra[i].tetra, p);
    }
    if Abs(p.x) + Abs(p.y) + Abs(p.z) <= L {
      var s := OctantOfPoint(p);
      OctantsCovered(L, s);
      var i :| 0 <= i < 8 && OctantOf(Tetrahedra[i].tetra) == s;
      EntryOnUnitAxes(i);
      OctahedronPointInSolid(Tetrahedra[i].tetra, p);
    }
  }

  /** The inverse of StarOrder. */
  function LoopIndex(i: nat): (p: nat)
    requires i < 8
    ensures p < 8 && StarOrder[p] == i
  {
    [0, 4, 2, 1, 6, 5, 3, 7][i]
  }

  /** The second panel is titled as holding the tetrahedra with a positive
      Z component and the third those with a negative one, but the
      selections are by key: T4 (second panel) points along -Z and T5
      (third panel) along +Z. */
  lemma PanelTitlesMismatch()
    ensures "T4" in Panel2 && Lookup(Tetrahedra, "T4").Some? && Lookup(Tetrahedra, "T4").value.c.z < 0.0
    ensures "T5" in Panel3 && Lookup(Tetrahedra, "T5").Some? && Lookup(Tetrahedra, "T5").value.c.z > 0.0
  {
    LookupFindsEveryEntry(L, 3);
    LookupFindsEveryEntry(L, 4);
  }

  /** The C vertex points along +Z (positive) or along -Z. */
  predicate HasZSign(t: Tetrahedron, positive: bool)
  {
    if positive then t.c.z > 0.0 else t.c.z < 0.0
  }

  /** The keys whose C vertex points along +Z (or -Z), in table order: the
      selection the panel titles describe. */
  function ZSignPanel(table: seq<Entry>, positive: bool): seq<string>
  {
    if |table| == 0 then []
    else (if HasZSign(table[0].tetra, positive) then [table[0].id] else []) + ZSignPanel(table[1..], positive)
  }

  /** A key is selected exactly when some entry under it has that Z sign. */
  lemma {:induction false} ZSignPanelMembers(table: seq<Entry>, positive: bool, id: string)
    ensures id in ZSignPanel(table, positive) <==>
              exists i :: 0 <= i < |table| && table[i].id == id && HasZSign(table[i].tetra, positive)
  {
    if |table| > 0 {
      ZSignPanelMembers(table[1..], positive, id);
      assert forall i :: 1 <= i < |table| ==> table[i] == table[1..][i - 1];
      if id in ZSignPanel(table[1..], positive) {
        var i :| 0 <= i < |table[1..]| && table[1..][i].id == id && HasZSign(table[1..][i].tetra, positive);
        assert table[i + 1] == table[1..][i];
      }
    }
  }

  /** One step of the filter at position k. */
  lemma ZSignPanelStep(table: seq<Entry>, positive: bool, k: nat)
    requires k < |table|
    ensures ZSignPanel(table[k..], positive) ==
              (if HasZSign(table[k].tetra, positive) then [table[k].id] else []) + ZSignPanel(table[k + 1..], positive)
  {
    assert table[k..][1..] == table[k + 1..];
  }

  /** The selection the second panel's title describes: T1, T2, T3 and T5
      point along +Z. */
  lemma PositiveZPanel()
    ensures ZSignPanel(Tetrahedra, true) == ["T1", "T2", "T3", "T5"]
  {
    var t := Tetrahedra;
    PositiveZMiddle();
    ZSignPanelStep(t, true, 1);
    assert ZSignPanel(t[1..], true) == ["T2", "T3", "T5"];
    ZSignPanelStep(t, true, 0);
    assert t[0..] == t;
  }

  lemma PositiveZMiddle()
    ensures ZSignPanel(Tetrahedra[2..], true) == ["T3", "T5"]
  {
    var t := Tetrahedra;
    PositiveZTail();
    ZSignPanelStep(t, true, 3);
    assert ZSignPanel(t[3..], true) == ["T5"];
    ZSignPanelStep(t, true, 2);
  }

  lemma PositiveZTail()
    ensures ZSignPanel(Tetrahedra[4..], true) == ["T5"]
  {
    var t := Tetrahedra;
    assert t[8..] == [];
    ZSignPanelStep(t, true, 7);
    assert ZSignPanel(t[7..], true) == [];
    ZSignPanelStep(t, true, 6);
    assert ZSignPanel(t[6..], true) == [];
    ZSignPanelStep(t, true, 5);
    assert ZSignPanel(t[5..], true) == [];
    ZSignPanelStep(t, true, 4);
  }

  /** The selection the third panel's title describes: T4, T6, T7 and T8
      point along -Z. */
  lemma NegativeZPanel()
    ensures ZSignPanel(Tetrahedra, false) == ["T4", "T6", "T7", "T8"]
  {
    var t := Tetrahedra;
    NegativeZMiddle();
    ZSignPanelStep(t, false, 1);
    assert ZSignPanel(t[1..], false) == ["T4", "T6", "T7", "T8"];
    ZSignPanelStep(t, false, 0);
    assert t[0..] == t;
  }

  lemma NegativeZMiddle()
    ensures ZSignPanel(Tetrahedra[2..], false) == ["T4", "T6", "T7", "T8"]
  {
    var t := Tetrahedra;
    NegativeZTail();
    ZSignPanelStep(t, false, 3);
    assert ZSignPanel(t[3..], false) == ["T4", "T6", "T7", "T8"];
    ZSignPanelStep(t, false, 2);
  }

  lemma NegativeZTail()
    ensures ZSignPanel(Tetrahedra[4..], false) == ["T6", "T7", "T8"]
  {
    var t := Tetrahedra;
    assert t[8..] == [];
    ZSignPanelStep(t, false, 7);
    assert ZSignPanel(t[7..], false) == ["T8"];
    ZSignPanelStep(t, false, 6);
    assert ZSignPanel(t[6..], false) == ["T7", "T8"];
    ZSignPanelStep(t, false, 5);
    assert ZSignPanel(t[5..], false) == ["T6", "T7", "T8"];
    ZSignPanelStep(t, false, 4);
  }
}
