/** The puzzle of the demo: 26 cubes are built, painted side by side, added to the world and rendered. */
module Kube {
  import opened Mesh
  import opened MeshWorld

  const CUBES := 27
  const CORE := 13

  const BOTTOM := 0
  const FRONT := 1
  const LEFT := 2
  const RIGHT := 3
  const BACK := 4
  const TOP := 5

  const Red := Color(0x10000, 0, 0, 0x10000)
  const Green := Color(0, 0x10000, 0, 0x10000)
  const Blue := Color(0, 0, 0x10000, 0x10000)
  const Yellow := Color(0x10000, 0x10000, 0, 0x10000)
  const Orange := Color(0x10000, 0x8000, 0, 0x10000)
  const White := Color(0x10000, 0x10000, 0x10000, 0x10000)
  const Black := Color(0, 0, 0, 0x10000)

  datatype Box = Box(left: real, bottom: real, back: real, right: real, top: real, front: real)

  function Low(third: int): real {
    if third == 0 then -1.0 else if third == 1 then -0.32 else 0.38
  }

  function High(third: int): real {
    if third == 0 then -0.38 else if third == 1 then 0.32 else 1.0
  }

  /** Cubes come in layers from top to bottom, rows from back to front, columns from left to right. */
  function Place(i: nat): Box {
    var x, y, z := i % 3, 2 - i / 9, i / 3 % 3;
    Box(Low(x), Low(y), Low(z), High(x), High(y), High(z))
  }

  /** Does a side of a box lie on the outside of the puzzle? */
  predicate Outside(b: Box, side: int) {
    if side == BOTTOM then b.bottom == -1.0
    else if side == FRONT then b.front == 1.0
    else if side == LEFT then b.left == -1.0
    else if side == RIGHT then b.right == 1.0
    else if side == BACK then b.back == -1.0
    else b.top == 1.0
  }

  function SideColor(side: int): Color {
    if side == BOTTOM then Red
    else if side == FRONT then Green
    else if side == LEFT then Yellow
    else if side == RIGHT then White
    else if side == BACK then Blue
    else Orange
  }

  /** The outside of the puzzle shows one colour per side; what is inside is black. */
  function Shown(i: nat, side: int): Paint {
    Coated(if Outside(Place(i), side) then SideColor(side) else Black)
  }

  // ---- one cube ----

  datatype Corner = Corner(x: real, y: real, z: real)

  /** The corners in the order in which a cube takes them: left before right, bottom before top, back before front. */
  function CornerOf(b: Box, k: nat): Corner {
    Corner(if k % 2 == 0 then b.left else b.right,
           if k / 2 % 2 == 0 then b.bottom else b.top,
           if k < 4 then b.back else b.front)
  }

  predicate Solid(b: Box) {
    b.left != b.right && b.bottom != b.top && b.back != b.front
  }

  lemma CornersDiffer(b: Box, j: nat, k: nat)
    requires Solid(b) && j < k < 8
    ensures CornerOf(b, j) != CornerOf(b, k)
  {
  }

  /** The corners of one side, in the order of its face. */
  function SideOf(b: Box, side: nat): (corners: seq<Corner>)
    requires side < 6
    ensures |corners| == 4
  {
    CubeLists(seq(8, k requires 0 <= k < 8 => CornerOf(b, k)))[side]
  }

  predicate StandsAt(v: GLVertex, c: Corner) {
    Corner(v.x, v.y, v.z) == c
  }

  /** The vertices of a face stand at the corners of a side. */
  predicate Stands(vs: seq<GLVertex>, b: Box, side: nat) {
    side < 6 && |vs| == 4 && forall c :: 0 <= c < 4 ==> StandsAt(vs[c], SideOf(b, side)[c])
  }

  lemma FacesStand(vs: seq<GLVertex>, b: Box, side: nat)
    requires HasCorners(vs, b, 8) && side < 6
    ensures Stands(CubeLists(vs)[side], b, side)
  {
    var corners := seq(8, k requires 0 <= k < 8 => CornerOf(b, k));
    forall k | 0 <= k < 8 ensures StandsAt(vs[k], corners[k]) {
    }
  }

  ghost predicate HasCorners(vs: seq<GLVertex>, b: Box, n: nat)
    reads vs
  {
    |vs| == n && forall k :: 0 <= k < n ==> vs[k].paint == Bare && Corner(vs[k].x, vs[k].y, vs[k].z) == CornerOf(b, k)
  }

  /** The index of every vertex is its place in the list, which a short can hold. */
  predicate Numbered(vs: seq<GLVertex>) {
    |vs| < 32768 && forall i :: 0 <= i < |vs| ==> vs[i].index == i
  }

  /** The next corner is at a place of its own, so it takes a new vertex. */
  method AddCorner(cube: GLShape, x: real, y: real, z: real, ghost b: Box) returns (v: GLVertex)
    requires Solid(b) && |cube.vertices| < 8 && HasCorners(cube.vertices, b, |cube.vertices|)
    requires CornerOf(b, |cube.vertices|) == Corner(x, y, z)
    requires Numbered(cube.world.vertices) && |cube.world.vertices| < 32767
    modifies cube`vertices, cube.world`vertices
    ensures fresh(v) && cube.vertices == old(cube.vertices) + [v]
    ensures HasCorners(cube.vertices, b, |cube.vertices|)
    ensures Numbered(cube.world.vertices) && cube.world.vertices == old(cube.world.vertices) + [v]
  {
    forall j, k | 0 <= j < k <= |cube.vertices| ensures CornerOf(b, j) != CornerOf(b, k) {
      CornersDiffer(b, j, k);
    }
    v := cube.AddVertex(x, y, z);
  }

  method AddBackCorners(cube: GLShape, b: Box)
    requires Solid(b) && cube.vertices == [] && Numbered(cube.world.vertices) && |cube.world.vertices| < 32764
    modifies cube`vertices, cube.world`vertices
    ensures HasCorners(cube.vertices, b, 4) && forall v :: v in cube.vertices ==> fresh(v)
    ensures Numbered(cube.world.vertices) && cube.world.vertices == old(cube.world.vertices) + cube.vertices
  {
    var leftBottomBack := AddCorner(cube, b.left, b.bottom, b.back, b);
    var rightBottomBack := AddCorner(cube, b.right, b.bottom, b.back, b);
    var leftTopBack := AddCorner(cube, b.left, b.top, b.back, b);
    var rightTopBack := AddCorner(cube, b.right, b.top, b.back, b);
  }

  method AddFrontCorners(cube: GLShape, b: Box)
    requires Solid(b) && HasCorners(cube.vertices, b, 4) && Numbered(cube.world.vertices)
    requires |cube.world.vertices| < 32764
    modifies cube`vertices, cube.world`vertices
    ensures HasCorners(cube.vertices, b, 8) && cube.vertices[..4] == old(cube.vertices)
    ensures Numbered(cube.world.vertices) && cube.world.vertices == old(cube.world.vertices) + cube.vertices[4..]
    ensures forall v :: v in cube.vertices ==> v in old(cube.vertices) || fresh(v)
  {
    var leftBottomFront := AddCorner(cube, b.left, b.bottom, b.front, b);
    var rightBottomFront := AddCorner(cube, b.right, b.bottom, b.front, b);
    var leftTopFront := AddCorner(cube, b.left, b.top, b.front, b);
    var rightTopFront := AddCorner(cube, b.right, b.top, b.front, b);
  }

  lemma CornersAreApart(vs: seq<GLVertex>, b: Box)
    requires Solid(b) && HasCorners(vs, b, 8)
    ensures Corners(vs)
  {
    forall j, k | 0 <= j < k < 8 ensures vs[j] != vs[k] {
      CornersDiffer(b, j, k);
    }
  }

  method AddCorners(cube: GLShape, b: Box)
    requires Solid(b) && cube.vertices == [] && Numbered(cube.world.vertices) && |cube.world.vertices| < 32760
    modifies cube`vertices, cube.world`vertices
    ensures Corners(cube.vertices) && HasCorners(cube.vertices, b, 8) && forall v :: v in cube.vertices ==> fresh(v)
    ensures Numbered(cube.world.vertices) && cube.world.vertices == old(cube.world.vertices) + cube.vertices
  {
    AddBackCorners(cube, b);
    ghost var back := cube.vertices;
    AddFrontCorners(cube, b);
    assert forall v :: v in cube.vertices ==> v in back || fresh(v);
    CornersAreApart(cube.vertices, b);
  }

  lemma CubeListsStay(vs: seq<GLVertex>, i: nat)
    requires |vs| == 8 && i < 6
    ensures |CubeLists(vs)[i]| == 4 && forall v :: v in CubeLists(vs)[i] ==> v in vs
  {
  }

  /** Six faces of four corners each. */
  method NewFaces(vs: seq<GLVertex>, ghost b: Box) returns (faces: seq<GLFace>)
    requires Corners(vs) && HasCorners(vs, b, 8)
    ensures |faces| == 6 && fresh(faces) && Settled(set f | f in faces)
    ensures forall i, j :: 0 <= i < j < 6 ==> faces[i] != faces[j]
    ensures forall i :: 0 <= i < 6 ==> |faces[i].vertices| == 4 && Stands(faces[i].vertices, b, i)
    ensures forall i, v :: 0 <= i < 6 && v in faces[i].vertices ==> v in vs
  {
    faces := CubeFaces(vs);
    forall i | 0 <= i < 6
      ensures |faces[i].vertices| == 4 && Stands(faces[i].vertices, b, i)
      ensures forall v :: v in faces[i].vertices ==> v in vs
    {
      CubeListsStay(vs, i);
      FacesStand(vs, b, i);
    }
  }

  /** A box with extent in every direction has eight corners of its own and six settled faces over them, each at its
      side of the box. */
  method NewCube(world: GLWorld, b: Box) returns (cube: GLShape)
    requires Solid(b) && Numbered(world.vertices) && |world.vertices| < 32760
    modifies world`vertices
    ensures Numbered(world.vertices) && world.vertices == old(world.vertices) + cube.vertices && |cube.vertices| == 8
    ensures fresh(cube) && forall v :: v in cube.vertices ==> fresh(v)
    ensures |cube.faces| == 6 && fresh(cube.faces) && Settled(set f | f in cube.faces)
    ensures forall i, j :: 0 <= i < j < 6 ==> cube.faces[i] != cube.faces[j]
    ensures forall i :: 0 <= i < 6 ==> |cube.faces[i].vertices| == 4 && Stands(cube.faces[i].vertices, b, i)
    ensures forall i, v :: 0 <= i < 6 && v in cube.faces[i].vertices ==> v in cube.vertices
  {
    cube := new GLShape(world);
    AddCorners(cube, b);
    var faces := NewFaces(cube.vertices, b);
    AddFaces(cube, faces);
  }

  method AddFaces(cube: GLShape, faces: seq<GLFace>)
    requires |faces| == 6 && cube.faces == []
    modifies cube`faces
    ensures cube.faces == faces
  {
    cube.AddFace(faces[0]);
    cube.AddFace(faces[1]);
    cube.AddFace(faces[2]);
    cube.AddFace(faces[3]);
    cube.AddFace(faces[4]);
    cube.AddFace(faces[5]);
  }

  // ---- the puzzle ----

  /** The faces cube by cube, all of them, the corners they share, and the vertex list of each. */
  datatype Parts = Parts(table: seq<seq<GLFace>>, all: set<GLFace>, corners: set<GLVertex>,
                         lists: map<GLFace, seq<GLVertex>>)

  predicate IsSide(i: int, side: int) {
    0 <= i < CUBES && i != CORE && 0 <= side < 6
  }

  /** The first n cubes are in place, the core is left out, and no face belongs to two of them. */
  ghost predicate Arranged(cubes: seq<GLShape?>, p: Parts)
    reads cubes
  {
    && |cubes| == |p.table| <= CUBES
    && (forall i :: 0 <= i < |cubes| ==> (cubes[i] == null <==> i == CORE))
    && (forall i :: 0 <= i < |cubes| && i != CORE ==> cubes[i].faces == p.table[i] && |p.table[i]| == 6)
    && (forall i, f :: 0 <= i < |cubes| && IsSide(i, f) ==> p.table[i][f] in p.all)
    && (forall i, f, j, g ::
          0 <= i < |cubes| && 0 <= j < |cubes| && IsSide(i, f) && IsSide(j, g) && (i != j || f != g) ==>
          p.table[i][f] != p.table[j][g])
  }

  ghost predicate Quads(p: Parts)
    reads p.all
  {
    forall f :: f in p.all ==>
      && |f.vertices| == 4 && (forall v :: v in f.vertices ==> v in p.corners)
      && f in p.lists && p.lists[f] == f.vertices
  }

  /** Every side of the first n cubes stands at its side of its box. */
  ghost predicate Standing(p: Parts, n: nat) {
    forall i, s :: IsSide(i, s) && i < n ==>
      && i < |p.table| && s < |p.table[i]| && p.table[i][s] in p.lists
      && Stands(p.lists[p.table[i][s]], Place(i), s)
  }

  ghost predicate Puzzle(cubes: seq<GLShape?>, p: Parts)
    reads cubes, p.all, p.corners
  {
    Arranged(cubes, p) && Quads(p) && Settled(p.all)
  }

  ghost predicate SixQuads(cube: GLShape)
    reads cube, cube.faces
  {
    |cube.faces| == 6 && forall i :: 0 <= i < 6 ==> |cube.faces[i].vertices| == 4
  }

  lemma SettledJoin(a: set<GLFace>, b: set<GLFace>)
    requires Settled(a) && Settled(b)
    requires forall f, g :: f in a && g in b ==> f.Last() != g.Last()
    ensures Settled(a + b)
  {
  }

  /** The corners of the cubes are vertices of the world, at their places. */
  ghost predicate Placed(vs: seq<GLVertex>, p: Parts) {
    Numbered(vs) && forall v :: v in p.corners ==> v in vs
  }

  method AppendCube(world: GLWorld, cubes: seq<GLShape?>, ghost p: Parts) returns (more: seq<GLShape?>, ghost q: Parts)
    requires Puzzle(cubes, p) && Standing(p, |cubes|) && |cubes| < CUBES && |cubes| != CORE
    requires Placed(world.vertices, p) && |world.vertices| <= 8 * CUBES
    modifies world`vertices
    ensures Placed(world.vertices, q) && |world.vertices| == old(|world.vertices|) + 8
    ensures Puzzle(more, q) && Standing(q, |more|) && |more| == |cubes| + 1
    ensures forall f :: f in q.all ==> f in p.all || fresh(f)
    ensures forall v :: v in q.corners ==> v in p.corners || fresh(v)
    ensures forall i :: 0 <= i < |cubes| ==> more[i] == cubes[i]
    ensures fresh(more[|cubes|])
  {
    var i := |cubes|;
    var cube := NewCube(world, Place(i));
    more := cubes + [cube];
    q := WithCube(p, cube);
    PuzzleJoins(cubes, p, cube);
    StandingJoins(p, cube, i);
  }

  ghost function WithCube(p: Parts, cube: GLShape): Parts
    reads cube, cube.faces
  {
    Parts(p.table + [cube.faces], p.all + (set f | f in cube.faces), p.corners + (set v | v in cube.vertices),
          p.lists + map f | f in cube.faces :: f.vertices)
  }

  lemma QuadsJoinParts(p: Parts, cube: GLShape)
    requires Quads(p) && SixQuads(cube) && forall f :: f in cube.faces ==> f !in p.all
    requires forall i, v :: 0 <= i < 6 && v in cube.faces[i].vertices ==> v in cube.vertices
    ensures Quads(WithCube(p, cube))
  {
    var q := WithCube(p, cube);
    forall f | f in q.all
      ensures |f.vertices| == 4 && (forall v :: v in f.vertices ==> v in q.corners)
      ensures f in q.lists && q.lists[f] == f.vertices
    {
      if f in cube.faces {
        var i :| 0 <= i < 6 && cube.faces[i] == f;
      }
    }
  }

  lemma StandingJoins(p: Parts, cube: GLShape, n: nat)
    requires Standing(p, n) && |p.table| == n && |cube.faces| == 6
    requires forall i, s :: IsSide(i, s) && i < n ==> s < |p.table[i]| && p.table[i][s] !in cube.faces
    requires forall s :: 0 <= s < 6 ==> Stands(cube.faces[s].vertices, Place(n), s)
    ensures Standing(WithCube(p, cube), n + 1)
  {
  }

  lemma PuzzleJoins(cubes: seq<GLShape?>, p: Parts, cube: GLShape)
    requires Puzzle(cubes, p) && |cubes| < CUBES && |cubes| != CORE
    requires SixQuads(cube) && Settled(set f | f in cube.faces)
    requires forall i, j :: 0 <= i < j < 6 ==> cube.faces[i] != cube.faces[j]
    requires forall i, v :: 0 <= i < 6 && v in cube.faces[i].vertices ==> v in cube.vertices
    requires (forall f :: f in cube.faces ==> f !in p.all) && forall v :: v in cube.vertices ==> v !in p.corners
    ensures Puzzle(cubes + [cube], WithCube(p, cube))
  {
    forall f, g | f in p.all && g in cube.faces ensures f.Last() != g.Last() {
      var i :| 0 <= i < 6 && cube.faces[i] == g;
      assert g.Last() in cube.vertices && f.Last() in p.corners;
    }
    SettledJoin(p.all, set f | f in cube.faces);
    QuadsJoinParts(p, cube);
    ArrangedJoins(cubes, p, cube);
  }

  lemma ArrangedJoins(cubes: seq<GLShape?>, p: Parts, cube: GLShape)
    requires Arranged(cubes, p) && |cubes| < CUBES && |cubes| != CORE
    requires |cube.faces| == 6 && forall i, j :: 0 <= i < j < 6 ==> cube.faces[i] != cube.faces[j]
    requires forall f :: f in cube.faces ==> f !in p.all
    ensures Arranged(cubes + [cube], WithCube(p, cube))
  {
  }

  method BuildCubes(world: GLWorld) returns (cubes: seq<GLShape?>, ghost p: Parts)
    requires world.vertices == []
    modifies world`vertices
    ensures Placed(world.vertices, p) && |world.vertices| == 208
    ensures Puzzle(cubes, p) && Standing(p, CUBES) && |cubes| == CUBES && fresh(p.all) && fresh(p.corners)
    ensures forall i :: 0 <= i < CUBES && i != CORE ==> fresh(cubes[i])
  {
    cubes, p := [], Parts([], {}, {}, map[]);
    for i := 0 to CUBES
      invariant |cubes| == i && Puzzle(cubes, p) && Standing(p, i) && fresh(p.all) && fresh(p.corners)
      invariant Placed(world.vertices, p) && |world.vertices| == 8 * (if i <= CORE then i else i - 1)
      invariant forall k :: 0 <= k < i && k != CORE ==> fresh(cubes[k])
    {
      if i == CORE {
        cubes, p := cubes + [null], p.(table := p.table + [[]]);
      } else {
        cubes, p := AppendCube(world, cubes, p);
      }
    }
  }

  // ---- the painting ----

  /** Painting one side of one cube changes the paint of that side only. */
  method PaintSide(cubes: seq<GLShape?>, ghost p: Parts, i: nat, side: nat, c: Color)
    requires Puzzle(cubes, p) && |cubes| == CUBES && IsSide(i, side)
    modifies p.all, p.corners
    ensures Puzzle(cubes, p)
    ensures forall j, s :: IsSide(j, s) ==>
      p.table[j][s].paint == if j == i && s == side then Coated(c) else old(p.table[j][s].paint)
  {
    cubes[i].SetFaceColor(side, c, p.all);
  }

  method PaintAllBlack(cubes: seq<GLShape?>, ghost p: Parts)
    requires Puzzle(cubes, p) && |cubes| == CUBES
    modifies p.all, p.corners
    ensures Puzzle(cubes, p)
    ensures forall j, s :: IsSide(j, s) ==> p.table[j][s].paint == Coated(Black)
  {
    for i := 0 to CUBES
      invariant Puzzle(cubes, p)
      invariant forall j, s :: IsSide(j, s) && j < i ==> p.table[j][s].paint == Coated(Black)
    {
      if cubes[i] != null {
        for side := 0 to 6
          invariant Puzzle(cubes, p)
          invariant forall j, s :: IsSide(j, s) && (j < i || (j == i && s < side)) ==>
            p.table[j][s].paint == Coated(Black)
        {
          PaintSide(cubes, p, i, side, Black);
        }
      }
    }
  }

  /** One side of the cubes from one number to another. */
  method PaintRange(cubes: seq<GLShape?>, ghost p: Parts, from: nat, to: nat, side: nat, c: Color)
    requires Puzzle(cubes, p) && |cubes| == CUBES && side < 6
    requires from <= to <= CUBES && (to <= CORE || from > CORE)
    modifies p.all, p.corners
    ensures Puzzle(cubes, p)
    ensures forall j, s :: IsSide(j, s) ==>
      p.table[j][s].paint == if from <= j < to && s == side then Coated(c) else old(p.table[j][s].paint)
  {
    for i := from to to
      invariant Puzzle(cubes, p)
      invariant forall j, s :: IsSide(j, s) ==>
        p.table[j][s].paint == if from <= j < i && s == side then Coated(c) else old(p.table[j][s].paint)
    {
      PaintSide(cubes, p, i, side, c);
    }
  }

  /** One side of every third cube. */
  method PaintColumn(cubes: seq<GLShape?>, ghost p: Parts, first: nat, side: nat, c: Color)
    requires Puzzle(cubes, p) && |cubes| == CUBES && side < 6 && (first == 0 || first == 2)
    modifies p.all, p.corners
    ensures Puzzle(cubes, p)
    ensures forall j, s :: IsSide(j, s) ==>
      p.table[j][s].paint == if j % 3 == first && s == side then Coated(c) else old(p.table[j][s].paint)
  {
    var i := first;
    while i < CUBES
      invariant i % 3 == first && Puzzle(cubes, p)
      invariant forall j, s :: IsSide(j, s) ==>
        p.table[j][s].paint == if j % 3 == first && j < i && s == side then Coated(c) else old(p.table[j][s].paint)
    {
      PaintSide(cubes, p, i, side, c);
      i := i + 3;
    }
  }

  /** One side of three cubes in every nine. */
  method PaintRows(cubes: seq<GLShape?>, ghost p: Parts, first: nat, side: nat, c: Color)
    requires Puzzle(cubes, p) && |cubes| == CUBES && side < 6 && (first == 0 || first == 6)
    modifies p.all, p.corners
    ensures Puzzle(cubes, p)
    ensures forall j, s :: IsSide(j, s) ==>
      p.table[j][s].paint == if j / 3 % 3 == first / 3 && s == side then Coated(c) else old(p.table[j][s].paint)
  {
    var i := first;
    while i < CUBES
      invariant i % 9 == first && Puzzle(cubes, p)
      invariant forall j, s :: IsSide(j, s) ==>
        p.table[j][s].paint ==
          if j / 3 % 3 == first / 3 && j < i && s == side then Coated(c) else old(p.table[j][s].paint)
    {
      PaintRange(cubes, p, i, i + 3, side, c);
      i := i + 9;
    }
  }

  /** Which cubes have which side on the outside. */
  lemma OutsideByNumber(i: nat)
    requires i < CUBES
    ensures Outside(Place(i), TOP) <==> i < 9
    ensures Outside(Place(i), BOTTOM) <==> 18 <= i
    ensures Outside(Place(i), LEFT) <==> i % 3 == 0
    ensures Outside(Place(i), RIGHT) <==> i % 3 == 2
    ensures Outside(Place(i), BACK) <==> i / 3 % 3 == 0
    ensures Outside(Place(i), FRONT) <==> i / 3 % 3 == 2
  {
  }

  /** After the painting every side of the puzzle shows its colour, and everything inside is black. */
  method PaintPuzzle(cubes: seq<GLShape?>, ghost p: Parts)
    requires Puzzle(cubes, p) && |cubes| == CUBES
    modifies p.all, p.corners
    ensures Puzzle(cubes, p)
    ensures forall j, s :: IsSide(j, s) ==> p.table[j][s].paint == Shown(j, s)
  {
    PaintAllBlack(cubes, p);
    PaintRange(cubes, p, 0, 9, TOP, Orange);
    PaintRange(cubes, p, 18, 27, BOTTOM, Red);
    PaintColumn(cubes, p, 0, LEFT, Yellow);
    PaintColumn(cubes, p, 2, RIGHT, White);
    PaintRows(cubes, p, 0, BACK, Blue);
    PaintRows(cubes, p, 6, FRONT, Green);
    forall j, s | IsSide(j, s) ensures p.table[j][s].paint == Shown(j, s) {
      OutsideByNumber(j);
    }
  }

  // ---- the world ----

  lemma {:induction false} QuadCount(lists: seq<seq<GLVertex>>)
    requires forall i :: 0 <= i < |lists| ==> |lists[i]| == 4
    ensures CountOf(lists) == 6 * |lists|
  {
    if lists != [] {
      QuadCount(lists[..|lists| - 1]);
    }
  }

  /** The world counts what its shapes will put. */
  ghost predicate Counted(world: GLWorld)
    reads world, world.shapes, FacesOf(world.shapes)
  {
    Wide(AllLists(world.shapes)) && world.indexCount == CountOf(AllLists(world.shapes))
  }

  lemma QuadsJoin(before: seq<seq<GLVertex>>, here: seq<seq<GLVertex>>)
    requires Wide(before) && |here| == 6 && forall i :: 0 <= i < 6 ==> |here[i]| == 4
    ensures Wide(before + here) && CountOf(here) == 36 && CountOf(before + here) == CountOf(before) + 36
  {
    QuadCount(here);
    CountsJoin(before, here);
  }

  method AddCube(world: GLWorld, cube: GLShape)
    requires Counted(world) && SixQuads(cube)
    modifies world`shapes, world`indexCount
    ensures Counted(world) && world.shapes == old(world.shapes) + [cube]
    ensures world.indexCount == old(world.indexCount) + 36
  {
    ghost var before := world.shapes;
    ghost var lists := AllLists(before);
    QuadsJoin(lists, Lists(cube.faces));
    world.AddShape(cube);
    ListsStay(before);
    AllListsNext(before, cube);
  }

  lemma AllListsNext(shapes: seq<GLShape>, last: GLShape)
    ensures AllLists(shapes + [last]) == AllLists(shapes) + Lists(last.faces)
  {
    assert (shapes + [last])[..|shapes|] == shapes;
  }

  lemma CubeHasQuads(cubes: seq<GLShape?>, p: Parts, i: nat)
    requires Puzzle(cubes, p) && i < |cubes| && i != CORE
    ensures SixQuads(cubes[i])
  {
    forall s | 0 <= s < 6 ensures |cubes[i].faces[s].vertices| == 4 {
      assert IsSide(i, s) && p.table[i][s] in p.all;
    }
  }

  method AddCubes(world: GLWorld, cubes: seq<GLShape?>)
    requires |cubes| == CUBES && cubes[CORE] == null
    requires forall i :: 0 <= i < CUBES && i != CORE ==> cubes[i] != null && SixQuads(cubes[i])
    requires world.shapes == [] && world.indexCount == 0
    modifies world`shapes, world`indexCount
    ensures Counted(world) && |world.shapes| == 26 && world.indexCount == 936
    ensures forall i :: 0 <= i < CORE ==> world.shapes[i] == cubes[i]
    ensures forall i :: CORE < i < CUBES ==> world.shapes[i - 1] == cubes[i]
  {
    for i := 0 to CUBES
      invariant Counted(world) && |world.shapes| == (if i <= CORE then i else i - 1)
      invariant world.indexCount == 36 * |world.shapes|
      invariant forall k :: 0 <= k < i && k < CORE ==> world.shapes[k] == cubes[k]
      invariant forall k :: CORE < k < i ==> world.shapes[k - 1] == cubes[k]
    {
      if cubes[i] != null {
        AddCube(world, cubes[i]);
      }
    }
  }

  /** A counted world fills all three buffers to the brim with what it holds. */
  method Render(world: GLWorld) returns (ok: bool, positions: Buffer, colors: Buffer, indices: Buffer)
    requires Counted(world) && world.indexCount >= 0
    ensures ok && |indices.contents| == indices.capacity == world.indexCount
    ensures |positions.contents| == positions.capacity && |colors.contents| == colors.capacity
    ensures positions.contents == Positions(world.vertices) && colors.contents == Colors(world.vertices)
    ensures Counted(world) && indices.contents == IndicesOf(AllLists(world.shapes))
  {
    ghost var lists := AllLists(world.shapes);
    CountsAgree(lists);
    ok, positions, colors, indices := world.Generate();
    ListsStay(world.shapes);
  }

  // ---- what the renderer is given ----

  lemma {:induction false} QuadIndicesAt(lists: seq<seq<GLVertex>>, q: nat, r: nat)
    requires Wide(lists) && (forall i :: 0 <= i < |lists| ==> |lists[i]| == 4) && q < |lists| && r < 6
    ensures |IndicesOf(lists)| == 6 * |lists| && |FaceIndices(lists[q])| == 6
    ensures IndicesOf(lists)[6 * q + r] == FaceIndices(lists[q])[r]
  {
    var n := |lists| - 1;
    CountsAgree(lists);
    QuadCount(lists);
    CountsAgree(lists[..n]);
    QuadCount(lists[..n]);
    FaceCount(lists[n]);
    if q < n {
      QuadIndicesAt(lists[..n], q, r);
    }
  }

  lemma {:induction false} ListsOfCubes(shapes: seq<GLShape>)
    requires forall i :: 0 <= i < |shapes| ==> SixQuads(shapes[i])
    ensures |AllLists(shapes)| == 6 * |shapes|
    ensures forall q :: 0 <= q < |AllLists(shapes)| ==> |AllLists(shapes)[q]| == 4
  {
    if shapes != [] {
      ListsOfCubes(shapes[..|shapes| - 1]);
    }
  }

  lemma {:induction false} CubeListAt(shapes: seq<GLShape>, i: nat, s: nat)
    requires forall k :: 0 <= k < |shapes| ==> SixQuads(shapes[k])
    requires i < |shapes| && s < 6
    ensures |AllLists(shapes)| == 6 * |shapes| && SixQuads(shapes[i])
    ensures AllLists(shapes)[6 * i + s] == shapes[i].faces[s].vertices
  {
    ListsOfCubes(shapes);
    ListsOfCubes(shapes[..|shapes| - 1]);
    if i < |shapes| - 1 {
      CubeListAt(shapes[..|shapes| - 1], i, s);
    }
  }

  lemma {:induction false} ColorsAt(vs: seq<GLVertex>, i: nat, c: nat)
    requires i < |vs| && c < 4
    ensures |Colors(vs)| == 4 * |vs| && Colors(vs)[4 * i + c] == Channels(vs[i].paint)[c]
  {
    var n := |vs| - 1;
    var before, last := Colors(vs[..n]), Channels(vs[n].paint);
    assert Colors(vs) == before + last;
    CellCounts(vs[..n]);
    if i < n {
      ColorsAt(vs[..n], i, c);
      assert vs[..n][i] == vs[i];
    }
  }

  /** Place of a cube among the 26 that are rendered. */
  function Rank(j: nat): nat {
    if j <= CORE then j else j - 1
  }

  /** Place of index r of triangle t on side s of cube j. */
  function IndexAt(j: nat, s: nat, t: nat, r: nat): nat {
    36 * Rank(j) + 6 * s + 3 * t + r
  }

  /** Place of the third index. */
  function ThirdIndex(j: nat, s: nat, t: nat): nat {
    IndexAt(j, s, t, 2)
  }

  /** The corner of a side that index r of triangle t stands for. */
  function CornerNumber(t: nat, r: nat): nat {
    if r == 2 then 3 else t + r
  }

  ghost predicate Rendered(world: GLWorld, cubes: seq<GLShape?>)
    reads world, cubes
  {
    && |cubes| == CUBES && |world.shapes| == 26
    && forall j :: 0 <= j < CUBES && j != CORE ==> world.shapes[Rank(j)] == cubes[j]
  }

  lemma RenderedShapesAreCubes(world: GLWorld, cubes: seq<GLShape?>, p: Parts)
    requires Puzzle(cubes, p) && Rendered(world, cubes)
    ensures forall i :: 0 <= i < 26 ==> SixQuads(world.shapes[i])
  {
    forall i | 0 <= i < 26 ensures SixQuads(world.shapes[i]) {
      var j := if i < CORE then i else i + 1;
      assert Rank(j) == i;
      CubeHasQuads(cubes, p, j);
    }
  }

  lemma IndexOfQuad(lists: seq<seq<GLVertex>>, q: nat, t: nat, r: nat)
    requires Wide(lists) && (forall i :: 0 <= i < |lists| ==> |lists[i]| == 4) && q < |lists| && t < 2 && r < 3
    ensures |IndicesOf(lists)| == 6 * |lists|
    ensures IndicesOf(lists)[6 * q + 3 * t + r] == lists[q][CornerNumber(t, r)].index
  {
    QuadIndicesAt(lists, q, 3 * t + r);
    TrianglesEndInLast(lists[q], 2, t);
  }

  /** The indices of each triangle are those of two neighbours and of the last vertex of its side. */
  lemma TriangleOfSide(world: GLWorld, cubes: seq<GLShape?>, p: Parts, j: nat, s: nat, t: nat, r: nat)
    requires Puzzle(cubes, p) && Rendered(world, cubes) && IsSide(j, s) && t < 2 && r < 3
    ensures Wide(AllLists(world.shapes)) && |IndicesOf(AllLists(world.shapes))| == 936
    ensures p.table[j][s] in p.all && |p.table[j][s].vertices| == 4
    ensures IndicesOf(AllLists(world.shapes))[IndexAt(j, s, t, r)] == p.table[j][s].vertices[CornerNumber(t, r)].index
  {
    RenderedShapesAreCubes(world, cubes, p);
    ListsOfCubes(world.shapes);
    CubeListAt(world.shapes, Rank(j), s);
    IndexOfQuad(AllLists(world.shapes), 6 * Rank(j) + s, t, r);
  }

  /** The colour cells a corner's index points at hold the paint of the corner. */
  lemma IndexShowsPaint(vs: seq<GLVertex>, v: GLVertex)
    requires Numbered(vs) && v in vs
    ensures 0 <= v.index < |vs| && |Colors(vs)| == 4 * |vs|
    ensures forall c :: 0 <= c < 4 ==> Colors(vs)[4 * v.index + c] == Channels(v.paint)[c]
  {
    CellCounts(vs);
    forall c | 0 <= c < 4 ensures Colors(vs)[4 * v.index + c] == Channels(v.paint)[c] {
      ColorsAt(vs, v.index, c);
    }
  }

  /** Both triangles of a side end in a vertex whose colour cells show the side. */
  ghost predicate SideShows(indices: seq<int>, colors: seq<int>, j: nat, s: nat)
    requires |indices| == 936 && |colors| == 832 && IsSide(j, s)
  {
    forall t, c :: 0 <= t < 2 && 0 <= c < 4 ==>
      var at := indices[ThirdIndex(j, s, t)];
      0 <= at < 208 && colors[4 * at + c] == Channels(Shown(j, s))[c]
  }

  lemma SideShowsPaint(indices: seq<int>, colors: seq<int>, j: nat, s: nat, at: int)
    requires |indices| == 936 && |colors| == 832 && IsSide(j, s) && 0 <= at < 208
    requires indices[ThirdIndex(j, s, 0)] == at == indices[ThirdIndex(j, s, 1)]
    requires forall c :: 0 <= c < 4 ==> colors[4 * at + c] == Channels(Shown(j, s))[c]
    ensures SideShows(indices, colors, j, s)
  {
    forall t: nat | t < 2 ensures indices[ThirdIndex(j, s, t)] == at {
      assert t == 0 || t == 1;
    }
  }

  lemma TriangleShowsSide(world: GLWorld, cubes: seq<GLShape?>, p: Parts, j: nat, s: nat)
    requires Puzzle(cubes, p) && Placed(world.vertices, p) && Rendered(world, cubes)
    requires |world.vertices| == 208 && IsSide(j, s) && p.table[j][s].paint == Shown(j, s)
    ensures Wide(AllLists(world.shapes)) && |IndicesOf(AllLists(world.shapes))| == 936
    ensures |Colors(world.vertices)| == 832
    ensures SideShows(IndicesOf(AllLists(world.shapes)), Colors(world.vertices), j, s)
  {
    TriangleOfSide(world, cubes, p, j, s, 0, 2);
    TriangleOfSide(world, cubes, p, j, s, 1, 2);
    var f := p.table[j][s];
    var last := f.Last();
    assert last in p.corners && last.paint == f.paint;
    IndexShowsPaint(world.vertices, last);
    SideShowsPaint(IndicesOf(AllLists(world.shapes)), Colors(world.vertices), j, s, last.index);
  }

  lemma {:induction false} PositionsAt(vs: seq<GLVertex>, i: nat)
    requires i < |vs|
    ensures |Positions(vs)| == 3 * |vs|
    ensures Positions(vs)[3 * i] == ToFixed(vs[i].x)
    ensures Positions(vs)[3 * i + 1] == ToFixed(vs[i].y) && Positions(vs)[3 * i + 2] == ToFixed(vs[i].z)
  {
    var n := |vs| - 1;
    var before, last := Positions(vs[..n]), Position(vs[n]);
    assert Positions(vs) == before + last;
    CellCounts(vs[..n]);
    if i < n {
      PositionsAt(vs[..n], i);
      assert vs[..n][i] == vs[i];
    }
  }

  /** The cells of vertex number at hold the place of a corner. */
  predicate Locates(positions: seq<int>, at: int, c: Corner) {
    && 0 <= at && 3 * at + 2 < |positions|
    && positions[3 * at] == ToFixed(c.x) && positions[3 * at + 1] == ToFixed(c.y)
    && positions[3 * at + 2] == ToFixed(c.z)
  }

  /** Both triangles of a side stand at the corners of that side of its box. */
  ghost predicate SideStands(indices: seq<int>, positions: seq<int>, j: nat, s: nat)
    requires |indices| == 936 && IsSide(j, s)
  {
    forall t, r :: 0 <= t < 2 && 0 <= r < 3 ==>
      Locates(positions, indices[IndexAt(j, s, t, r)], SideOf(Place(j), s)[CornerNumber(t, r)])
  }

  lemma TriangleStands(world: GLWorld, cubes: seq<GLShape?>, p: Parts, j: nat, s: nat, t: nat, r: nat)
    requires Puzzle(cubes, p) && Standing(p, CUBES) && Placed(world.vertices, p) && Rendered(world, cubes)
    requires IsSide(j, s) && t < 2 && r < 3
    ensures Wide(AllLists(world.shapes)) && |IndicesOf(AllLists(world.shapes))| == 936
    ensures Locates(Positions(world.vertices), IndicesOf(AllLists(world.shapes))[IndexAt(j, s, t, r)],
                    SideOf(Place(j), s)[CornerNumber(t, r)])
  {
    TriangleOfSide(world, cubes, p, j, s, t, r);
    var v := p.table[j][s].vertices[CornerNumber(t, r)];
    assert v in p.corners && StandsAt(v, SideOf(Place(j), s)[CornerNumber(t, r)]);
    PositionsAt(world.vertices, v.index);
  }

  lemma SideOfCubeStands(world: GLWorld, cubes: seq<GLShape?>, p: Parts, j: nat, s: nat)
    requires Puzzle(cubes, p) && Standing(p, CUBES) && Placed(world.vertices, p) && Rendered(world, cubes)
    requires IsSide(j, s)
    ensures Wide(AllLists(world.shapes)) && |IndicesOf(AllLists(world.shapes))| == 936
    ensures SideStands(IndicesOf(AllLists(world.shapes)), Positions(world.vertices), j, s)
  {
    TriangleStands(world, cubes, p, j, s, 0, 0);
    forall t: nat, r: nat | t < 2 && r < 3
      ensures Locates(Positions(world.vertices), IndicesOf(AllLists(world.shapes))[IndexAt(j, s, t, r)],
                      SideOf(Place(j), s)[CornerNumber(t, r)])
    {
      TriangleStands(world, cubes, p, j, s, t, r);
    }
  }

  lemma AllSidesStand(world: GLWorld, cubes: seq<GLShape?>, p: Parts)
    requires Puzzle(cubes, p) && Standing(p, CUBES) && Placed(world.vertices, p) && Rendered(world, cubes)
    ensures Wide(AllLists(world.shapes)) && |IndicesOf(AllLists(world.shapes))| == 936
    ensures forall j: nat, s: nat :: IsSide(j, s) ==>
      SideStands(IndicesOf(AllLists(world.shapes)), Positions(world.vertices), j, s)
  {
    SideOfCubeStands(world, cubes, p, 0, 0);
    forall j: nat, s: nat | IsSide(j, s)
      ensures SideStands(IndicesOf(AllLists(world.shapes)), Positions(world.vertices), j, s)
    {
      SideOfCubeStands(world, cubes, p, j, s);
    }
  }

  lemma AllSidesShow(world: GLWorld, cubes: seq<GLShape?>, p: Parts)
    requires Puzzle(cubes, p) && Placed(world.vertices, p) && Rendered(world, cubes)
    requires |world.vertices| == 208 && forall j, s :: IsSide(j, s) ==> p.table[j][s].paint == Shown(j, s)
    ensures Wide(AllLists(world.shapes)) && |IndicesOf(AllLists(world.shapes))| == 936
    ensures |Colors(world.vertices)| == 832
    ensures forall j: nat, s: nat :: IsSide(j, s) ==>
      SideShows(IndicesOf(AllLists(world.shapes)), Colors(world.vertices), j, s)
  {
    TriangleShowsSide(world, cubes, p, 0, 0);
    forall j: nat, s: nat | IsSide(j, s)
      ensures SideShows(IndicesOf(AllLists(world.shapes)), Colors(world.vertices), j, s)
    {
      TriangleShowsSide(world, cubes, p, j, s);
    }
  }

  method PaintedCubes(world: GLWorld) returns (cubes: seq<GLShape?>, ghost p: Parts)
    requires world.vertices == []
    modifies world`vertices
    ensures Placed(world.vertices, p) && |world.vertices| == 208
    ensures Puzzle(cubes, p) && Standing(p, CUBES) && |cubes| == CUBES
    ensures forall j, s :: IsSide(j, s) ==> p.table[j][s].paint == Shown(j, s)
  {
    cubes, p := BuildCubes(world);
    PaintPuzzle(cubes, p);
  }

  method FurnishedWorld() returns (world: GLWorld, cubes: seq<GLShape?>, ghost p: Parts)
    ensures Counted(world) && world.indexCount == 936 && Rendered(world, cubes)
    ensures Puzzle(cubes, p) && Standing(p, CUBES) && Placed(world.vertices, p) && |world.vertices| == 208
    ensures forall j, s :: IsSide(j, s) ==> p.table[j][s].paint == Shown(j, s)
  {
    world := new GLWorld();
    cubes, p := PaintedCubes(world);
    forall i | 0 <= i < CUBES && i != CORE ensures SixQuads(cubes[i]) {
      CubeHasQuads(cubes, p, i);
    }
    AddCubes(world, cubes);
  }

  /** The finished puzzle: buffers that are full, and for every side of every cube two triangles that stand at the
      corners of that side of its box and end in a vertex whose colour cells show that side: its colour on the
      outside, black inside. */
  method MakeWorld() returns (world: GLWorld, cubes: seq<GLShape?>, ghost p: Parts,
                              ok: bool, positions: Buffer, colors: Buffer, indices: Buffer)
    ensures Puzzle(cubes, p) && |cubes| == CUBES && |world.vertices| == 208
    ensures forall j, s :: IsSide(j, s) ==> p.table[j][s].paint == Shown(j, s)
    ensures ok && |indices.contents| == indices.capacity == 936
    ensures |positions.contents| == positions.capacity && positions.contents == Positions(world.vertices)
    ensures |colors.contents| == colors.capacity == 832
    ensures forall j: nat, s: nat :: IsSide(j, s) ==> SideShows(indices.contents, colors.contents, j, s)
    ensures forall j: nat, s: nat :: IsSide(j, s) ==> SideStands(indices.contents, positions.contents, j, s)
  {
    world, cubes, p := FurnishedWorld();
    ok, positions, colors, indices := Render(world);
    AllSidesShow(world, cubes, p);
    AllSidesStand(world, cubes, p);
  }
}
