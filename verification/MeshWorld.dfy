/** Shapes, the world, and the buffers it generates. */
module MeshWorld {
  import opened Basics
  import opened Mesh

  // ---- buffers ----

  /** An int or short buffer: what has been put so far, and a limit. */
  class Buffer {
    const capacity: nat
    var contents: seq<int>

    constructor (capacity: nat)
      ensures this.capacity == capacity && contents == []
    {
      this.capacity := capacity;
      contents := [];
    }

    /** Appends a value; false is the buffer overflow exception. */
    method Put(v: int) returns (ok: bool)
      requires |contents| <= capacity
      modifies this`contents
      ensures |contents| <= capacity
      ensures ok <==> |old(contents)| < capacity
      ensures contents == if ok then old(contents) + [v] else old(contents)
    {
      ok := |contents| < capacity;
      if ok {
        contents := contents + [v];
      }
    }
  }

  // ---- indices ----

  /** Narrowing to a 16-bit signed index. */
  function ToShort(n: int): int {
    (n + 32768) % 65536 - 32768
  }

  /** Vertex numbers below 65536 keep distinct indices; below 32768 they are kept as they are. */
  lemma ShortsAreDistinct(m: nat, n: nat)
    requires m < n < 65536
    ensures ToShort(m) != ToShort(n)
    ensures n < 32768 ==> ToShort(n) == n
  {
  }

  /** Indices of the triangles 1..k of a face: a strip of neighbours, each closed with the last vertex. */
  function Triangles(vs: seq<GLVertex>, k: nat): seq<int>
    requires |vs| > 0 && k < |vs|
  {
    if k == 0 then [] else Triangles(vs, k - 1) + [vs[k - 1].index, vs[k].index, vs[|vs| - 1].index]
  }

  /** All triangles of a face. */
  function FaceIndices(vs: seq<GLVertex>): seq<int>
    requires |vs| >= 2
  {
    Triangles(vs, |vs| - 2)
  }

  /** A face of n vertices has n - 2 triangles, made of neighbours in the list; every triangle ends in the last
      vertex. */
  lemma {:induction false} TrianglesEndInLast(vs: seq<GLVertex>, k: nat, j: nat)
    requires k < |vs| && j < k
    ensures |Triangles(vs, k)| == 3 * k
    ensures Triangles(vs, k)[3 * j] == vs[j].index && Triangles(vs, k)[3 * j + 1] == vs[j + 1].index
    ensures Triangles(vs, k)[3 * j + 2] == vs[|vs| - 1].index
  {
    TriangleCount(vs, k - 1);
    if j < k - 1 {
      TrianglesEndInLast(vs, k - 1, j);
    }
  }

  lemma {:induction false} TriangleCount(vs: seq<GLVertex>, k: nat)
    requires |vs| > 0 && k < |vs|
    ensures |Triangles(vs, k)| == 3 * k
  {
    if k > 0 {
      TriangleCount(vs, k - 1);
    }
  }

  /** Index count as a face reports it. */
  function IndexCount(vs: seq<GLVertex>): int {
    (|vs| - 2) * 3
  }

  lemma FaceCount(vs: seq<GLVertex>)
    requires |vs| >= 2
    ensures |FaceIndices(vs)| == IndexCount(vs)
  {
    TriangleCount(vs, |vs| - 2);
  }

  /** What a painted face sends to the index buffer: every triangle ends in the vertex that carries its colour. */
  lemma PaintedTriangles(faces: set<GLFace>, f: GLFace, j: nat)
    requires f in faces && WellPainted(faces) && f.IsPainted() && j < |f.vertices| - 2
    ensures |FaceIndices(f.vertices)| == IndexCount(f.vertices)
    ensures FaceIndices(f.vertices)[3 * j + 2] == f.Last().index && f.Last().paint == f.paint
  {
    TrianglesEndInLast(f.vertices, |f.vertices| - 2, j);
  }

  method PutTriangle(buffer: Buffer, a: int, b: int, c: int) returns (ok: bool)
    requires |buffer.contents| <= buffer.capacity
    modifies buffer
    ensures |buffer.contents| <= buffer.capacity
    ensures ok <==> |old(buffer.contents)| + 3 <= buffer.capacity
    ensures ok ==> buffer.contents == old(buffer.contents) + [a, b, c]
  {
    ok := buffer.Put(a);
    if ok {
      ok := buffer.Put(b);
    }
    if ok {
      ok := buffer.Put(c);
    }
  }

  method PutFace(f: GLFace, buffer: Buffer) returns (ok: bool)
    requires |buffer.contents| <= buffer.capacity && |f.vertices| >= 2
    modifies buffer
    ensures |buffer.contents| <= buffer.capacity
    ensures ok <==> |old(buffer.contents)| + |FaceIndices(f.vertices)| <= buffer.capacity
    ensures ok ==> buffer.contents == old(buffer.contents) + FaceIndices(f.vertices)
  {
    var vs := f.vertices;
    var last := |vs| - 1;
    var v0, vn := vs[0], vs[last];
    ghost var before := buffer.contents;
    FaceCount(vs);
    assert before + Triangles(vs, 0) == before;
    var i := 1;
    while i < last
      invariant 1 <= i <= last && v0 == vs[i - 1] && |buffer.contents| <= buffer.capacity
      invariant buffer.contents == before + Triangles(vs, i - 1)
    {
      TriangleCount(vs, i - 1);
      var v1 := vs[i];
      ok := PutTriangle(buffer, v0.index, v1.index, vn.index);
      if !ok {
        return;
      }
      assert before + Triangles(vs, i - 1) + [v0.index, v1.index, vn.index] == before + Triangles(vs, i);
      v0 := v1;
      i := i + 1;
    }
    ok := true;
  }

  // ---- shapes ----

  predicate At(v: GLVertex, x: real, y: real, z: real) {
    v.x == x && v.y == y && v.z == z
  }

  /** No two vertices of the list are in one place. */
  ghost predicate DistinctPlaces(vs: seq<GLVertex>) {
    forall i, j :: 0 <= i < j < |vs| ==> !At(vs[i], vs[j].x, vs[j].y, vs[j].z)
  }

  /** The vertex lists of some faces. */
  function Lists(faces: seq<GLFace>): (lists: seq<seq<GLVertex>>)
    reads faces
    ensures |lists| == |faces| && forall i :: 0 <= i < |faces| ==> lists[i] == faces[i].vertices
  {
    seq(|faces|, i requires 0 <= i < |faces| reads faces => faces[i].vertices)
  }

  ghost predicate Wide(lists: seq<seq<GLVertex>>) {
    forall i :: 0 <= i < |lists| ==> |lists[i]| >= 2
  }

  function CountOf(lists: seq<seq<GLVertex>>): int {
    if lists == [] then 0 else CountOf(lists[..|lists| - 1]) + IndexCount(lists[|lists| - 1])
  }

  function IndicesOf(lists: seq<seq<GLVertex>>): seq<int>
    requires Wide(lists)
  {
    if lists == [] then [] else IndicesOf(lists[..|lists| - 1]) + FaceIndices(lists[|lists| - 1])
  }

  /** The count that is reported is the number of indices that are put. */
  lemma {:induction false} CountsAgree(lists: seq<seq<GLVertex>>)
    requires Wide(lists)
    ensures |IndicesOf(lists)| == CountOf(lists)
  {
    if lists != [] {
      CountsAgree(lists[..|lists| - 1]);
      FaceCount(lists[|lists| - 1]);
    }
  }

  lemma {:induction false} CountsJoin(a: seq<seq<GLVertex>>, b: seq<seq<GLVertex>>)
    requires Wide(a) && Wide(b)
    ensures CountOf(a + b) == CountOf(a) + CountOf(b) && CountOf(b) >= 0
    ensures IndicesOf(a + b) == IndicesOf(a) + IndicesOf(b)
  {
    if b == [] {
      assert a + b == a;
    } else {
      var c := b[..|b| - 1];
      assert (a + b)[..|a + b| - 1] == a + c && (a + b)[|a + b| - 1] == b[|b| - 1];
      CountsJoin(a, c);
      assert IndicesOf(a + b) == IndicesOf(a + c) + FaceIndices(b[|b| - 1]);
      assert IndicesOf(b) == IndicesOf(c) + FaceIndices(b[|b| - 1]);
    }
  }

  /** What the next list adds, and what is still to come. */
  lemma CountsNext(lists: seq<seq<GLVertex>>, i: nat)
    requires Wide(lists) && i < |lists|
    ensures CountOf(lists[..i + 1]) == CountOf(lists[..i]) + |FaceIndices(lists[i])| <= CountOf(lists)
    ensures IndicesOf(lists[..i + 1]) == IndicesOf(lists[..i]) + FaceIndices(lists[i])
    ensures |IndicesOf(lists[..i])| == CountOf(lists[..i])
  {
    assert lists[..i + 1][..i] == lists[..i];
    assert lists == lists[..i + 1] + lists[i + 1..];
    CountsJoin(lists[..i + 1], lists[i + 1..]);
    CountsAgree(lists[..i]);
    FaceCount(lists[i]);
  }

  class GLShape {
    const world: GLWorld
    var faces: seq<GLFace>
    var vertices: seq<GLVertex>

    constructor (world: GLWorld)
      ensures this.world == world && faces == [] && vertices == []
    {
      this.world := world;
      faces, vertices := [], [];
    }

    method AddFace(f: GLFace)
      modifies this`faces
      ensures faces == old(faces) + [f]
    {
      faces := faces + [f];
    }

    /** Paints one of the shape's faces. */
    method SetFaceColor(face: nat, c: Color, ghost all: set<GLFace>)
      requires face < |faces| && faces[face] in all && WellPainted(all)
      requires faces[face].CanPaint()
      modifies faces[face], faces[face].vertices
      ensures WellPainted(all) && faces[face].paint == Coated(c)
      ensures forall g :: g in all && g != faces[face] ==> g.vertices == old(g.vertices) && g.paint == old(g.paint)
      ensures old(Settled(all)) ==> Settled(all) && faces[face].vertices == old(faces[face].vertices)
    {
      PaintFace(all, faces[face], c);
    }

    /** Returns the shape's vertex at a place, taking a new one from the world only when there is none. */
    method AddVertex(x: real, y: real, z: real) returns (v: GLVertex)
      requires DistinctPlaces(vertices)
      modifies this`vertices, world`vertices
      ensures DistinctPlaces(vertices) && v in vertices && At(v, x, y, z)
      ensures (exists u :: u in old(vertices) && At(u, x, y, z)) ==>
        v in old(vertices) && vertices == old(vertices) && world.vertices == old(world.vertices)
      ensures !(exists u :: u in old(vertices) && At(u, x, y, z)) ==>
        && fresh(v) && v.index == ToShort(|old(world.vertices)|) && v.paint == Bare
        && vertices == old(vertices) + [v] && world.vertices == old(world.vertices) + [v]
    {
      var i := 0;
      while i < |vertices|
        invariant 0 <= i <= |vertices|
        invariant forall j :: 0 <= j < i ==> !At(vertices[j], x, y, z)
      {
        if At(vertices[i], x, y, z) {
          return vertices[i];
        }
        i := i + 1;
      }
      v := world.AddVertex(x, y, z);
      vertices := vertices + [v];
    }

    method GetIndexCount() returns (count: int)
      ensures count == CountOf(Lists(faces))
    {
      count := 0;
      ghost var lists := Lists(faces);
      var i := 0;
      while i < |faces|
        invariant 0 <= i <= |faces| && count == CountOf(lists[..i])
      {
        count := count + IndexCount(faces[i].vertices);
        i := i + 1;
        assert lists[..i][..i - 1] == lists[..i - 1];
      }
      assert lists[..|faces|] == lists;
    }

    method PutIndices(buffer: Buffer) returns (ok: bool)
      requires |buffer.contents| <= buffer.capacity && Wide(Lists(faces))
      modifies buffer
      ensures |buffer.contents| <= buffer.capacity
      ensures ok <==> |old(buffer.contents)| + CountOf(old(Lists(faces))) <= buffer.capacity
      ensures ok ==> buffer.contents == old(buffer.contents) + IndicesOf(old(Lists(faces)))
    {
      ghost var before := buffer.contents;
      ghost var lists := Lists(faces);
      assert before + IndicesOf(lists[..0]) == before;
      var i := 0;
      while i < |faces|
        invariant 0 <= i <= |faces| && Added(buffer, before, lists, i)
        invariant forall k :: 0 <= k < |faces| ==> faces[k].vertices == lists[k]
      {
        ok := PutNext(faces[i], buffer, before, lists, i);
        if !ok {
          return;
        }
        i := i + 1;
      }
      assert lists[..|faces|] == lists;
      CountsAgree(lists);
      ok := true;
    }
  }

  /** The buffer has taken the first i of some lists, and had room for them. */
  ghost predicate Added(buffer: Buffer, before: seq<int>, lists: seq<seq<GLVertex>>, i: nat)
    reads buffer
    requires i <= |lists|
  {
    && Wide(lists[..i]) && buffer.contents == before + IndicesOf(lists[..i])
    && |before| + CountOf(lists[..i]) <= buffer.capacity
  }

  method PutNext(f: GLFace, buffer: Buffer, ghost before: seq<int>, ghost lists: seq<seq<GLVertex>>, ghost i: nat)
    returns (ok: bool)
    requires Wide(lists) && i < |lists| && f.vertices == lists[i] && Added(buffer, before, lists, i)
    modifies buffer
    ensures |buffer.contents| <= buffer.capacity
    ensures !ok ==> |before| + CountOf(lists) > buffer.capacity
    ensures ok ==> Added(buffer, before, lists, i + 1)
  {
    CountsNext(lists, i);
    ok := PutFace(f, buffer);
    assert before + IndicesOf(lists[..i]) + FaceIndices(lists[i]) == before + IndicesOf(lists[..i + 1]);
  }

  // ---- the world ----

  /** 16.16 fixed point, saturating like a cast from float to int. */
  function ToFixed(r: real): int {
    var v := Truncate(r * 65536.0);
    if v > 0x7fff_ffff then 0x7fff_ffff else if v < -0x8000_0000 then -0x8000_0000 else v
  }

  function Position(v: GLVertex): seq<int> {
    [ToFixed(v.x), ToFixed(v.y), ToFixed(v.z)]
  }

  function Channels(p: Paint): seq<int> {
    match p
    case Bare => [0, 0, 0, 0]
    case Coated(c) => [c.red, c.green, c.blue, c.alpha]
  }

  function Positions(vs: seq<GLVertex>): seq<int> {
    if vs == [] then [] else Positions(vs[..|vs| - 1]) + Position(vs[|vs| - 1])
  }

  function Colors(vs: seq<GLVertex>): seq<int>
    reads vs
  {
    if vs == [] then [] else Colors(vs[..|vs| - 1]) + Channels(vs[|vs| - 1].paint)
  }

  lemma {:induction false} CellCounts(vs: seq<GLVertex>)
    ensures |Positions(vs)| == 3 * |vs| && |Colors(vs)| == 4 * |vs|
  {
    if vs != [] {
      CellCounts(vs[..|vs| - 1]);
    }
  }

  function FacesOf(shapes: seq<GLShape>): set<GLFace>
    reads shapes
  {
    set s, f | s in shapes && f in s.faces :: f
  }

  /** The vertex lists of all faces of some shapes. */
  function AllLists(shapes: seq<GLShape>): seq<seq<GLVertex>>
    reads shapes, FacesOf(shapes)
  {
    if shapes == [] then []
    else
      var last := shapes[|shapes| - 1];
      assert last in shapes;
      assert forall f :: f in last.faces ==> f in FacesOf(shapes);
      assert forall f :: f in FacesOf(shapes[..|shapes| - 1]) ==> f in FacesOf(shapes);
      AllLists(shapes[..|shapes| - 1]) + Lists(last.faces)
  }

  /** The lists depend on nothing but the shapes and their faces. */
  twostate lemma {:induction false} ListsStay(shapes: seq<GLShape>)
    requires forall i :: 0 <= i < |shapes| ==> unchanged(shapes[i])
    requires forall i, f :: 0 <= i < |shapes| && f in old(shapes[i].faces) ==> unchanged(f)
    ensures AllLists(shapes) == old(AllLists(shapes))
  {
    if shapes != [] {
      var last := shapes[|shapes| - 1];
      ListsStay(shapes[..|shapes| - 1]);
      forall i | 0 <= i < |last.faces| ensures last.faces[i].vertices == old(last.faces[i].vertices) {
        assert last.faces[i] in old(last.faces);
      }
      assert Lists(last.faces) == old(Lists(last.faces));
    }
  }

  class GLWorld {
    var shapes: seq<GLShape>
    var vertices: seq<GLVertex>
    var indexCount: int

    constructor ()
      ensures shapes == [] && vertices == [] && indexCount == 0
    {
      shapes, vertices, indexCount := [], [], 0;
    }

    method AddVertex(x: real, y: real, z: real) returns (v: GLVertex)
      modifies this`vertices
      ensures fresh(v) && At(v, x, y, z) && v.index == ToShort(|old(vertices)|) && v.paint == Bare
      ensures vertices == old(vertices) + [v]
    {
      v := new GLVertex(x, y, z, ToShort(|vertices|));
      vertices := vertices + [v];
    }

    /** Takes the shape in with the index count it has now. */
    method AddShape(shape: GLShape)
      modifies this`shapes, this`indexCount
      ensures shapes == old(shapes) + [shape] && indexCount == old(indexCount) + CountOf(Lists(shape.faces))
    {
      shapes := shapes + [shape];
      var count := shape.GetIndexCount();
      indexCount := indexCount + count;
    }

    method PutVertices(positions: Buffer, colors: Buffer)
      requires positions != colors
      requires positions.contents == [] && positions.capacity == 3 * |vertices|
      requires colors.contents == [] && colors.capacity == 4 * |vertices|
      modifies positions, colors
      ensures positions.contents == Positions(vertices) && |positions.contents| == positions.capacity
      ensures colors.contents == Colors(vertices) && |colors.contents| == colors.capacity
    {
      var i := 0;
      while i < |vertices|
        invariant 0 <= i <= |vertices|
        invariant positions.contents == Positions(vertices[..i]) && |positions.contents| == 3 * i
        invariant colors.contents == Colors(vertices[..i]) && |colors.contents| == 4 * i
      {
        assert vertices[..i + 1][..i] == vertices[..i];
        PutVertex(vertices[i], positions, colors);
        i := i + 1;
      }
      assert vertices[..|vertices|] == vertices;
    }

    /** Fills the three buffers. The index buffer overflows exactly when the shapes have more indices
        than they had when they were added; with the same number it is filled exactly. */
    method Generate() returns (ok: bool, positions: Buffer, colors: Buffer, indices: Buffer)
      requires Wide(AllLists(shapes)) && indexCount >= 0
      ensures positions.contents == Positions(vertices) && |positions.contents| == positions.capacity
      ensures colors.contents == Colors(vertices) && |colors.contents| == colors.capacity
      ensures ok <==> CountOf(old(AllLists(shapes))) <= indexCount
      ensures |indices.contents| <= indices.capacity && indices.capacity == indexCount
      ensures ok ==> indices.contents == IndicesOf(old(AllLists(shapes)))
    {
      positions, colors := GenerateVertices();
      ListsStay(shapes);
      ok, indices := GenerateIndices();
    }

    method GenerateVertices() returns (positions: Buffer, colors: Buffer)
      ensures fresh(positions) && fresh(colors)
      ensures positions.contents == Positions(vertices) && |positions.contents| == positions.capacity
      ensures colors.contents == Colors(vertices) && |colors.contents| == colors.capacity
    {
      colors := new Buffer(|vertices| * 4);
      positions := new Buffer(|vertices| * 3);
      PutVertices(positions, colors);
    }

    method GenerateIndices() returns (ok: bool, indices: Buffer)
      requires Wide(AllLists(shapes)) && indexCount >= 0
      ensures fresh(indices) && |indices.contents| <= indices.capacity && indices.capacity == indexCount
      ensures ok <==> CountOf(old(AllLists(shapes))) <= indexCount
      ensures ok ==> indices.contents == IndicesOf(old(AllLists(shapes)))
    {
      indices := new Buffer(indexCount);
      ListsStay(shapes);
      ok := PutShapes(indices);
    }

    method PutShapes(indices: Buffer) returns (ok: bool)
      requires Wide(AllLists(shapes)) && |indices.contents| <= indices.capacity && indices.contents == []
      modifies indices
      ensures |indices.contents| <= indices.capacity
      ensures ok <==> CountOf(old(AllLists(shapes))) <= indices.capacity
      ensures ok ==> indices.contents == IndicesOf(old(AllLists(shapes)))
    {
      forall i | 0 <= i < |shapes|
        ensures ShapeAdds(AllLists(shapes[..i]), Lists(shapes[i].faces), AllLists(shapes[..i + 1]), AllLists(shapes))
      {
        ShapesNext(shapes, i);
      }
      var i := 0;
      while i < |shapes|
        invariant 0 <= i <= |shapes| && |indices.contents| <= indices.capacity
        invariant Wide(old(AllLists(shapes[..i]))) && indices.contents == IndicesOf(old(AllLists(shapes[..i])))
        invariant CountOf(old(AllLists(shapes[..i]))) <= indices.capacity
      {
        assert old(ShapeAdds(AllLists(shapes[..i]), Lists(shapes[i].faces),
                             AllLists(shapes[..i + 1]), AllLists(shapes)));
        assert Lists(shapes[i].faces) == old(Lists(shapes[i].faces));
        ok := shapes[i].PutIndices(indices);
        if !ok {
          return;
        }
        i := i + 1;
      }
      assert shapes[..|shapes|] == shapes;
      ok := true;
    }
  }

  /** One more shape: what it adds to the lists before it, within all of them. */
  ghost predicate ShapeAdds(before: seq<seq<GLVertex>>, here: seq<seq<GLVertex>>,
                            after: seq<seq<GLVertex>>, all: seq<seq<GLVertex>>) {
    && Wide(before) && Wide(here) && Wide(after)
    && |IndicesOf(before)| == CountOf(before)
    && CountOf(before) + CountOf(here) == CountOf(after) <= CountOf(all)
    && IndicesOf(after) == IndicesOf(before) + IndicesOf(here)
  }

  lemma {:induction false} ListsSplit(shapes: seq<GLShape>, i: nat)
    requires i <= |shapes|
    ensures AllLists(shapes[..i]) <= AllLists(shapes)
  {
    if i == |shapes| {
      assert shapes[..i] == shapes;
    } else {
      assert shapes[..|shapes| - 1][..i] == shapes[..i];
      ListsSplit(shapes[..|shapes| - 1], i);
    }
  }

  lemma {:induction false} ListsGrow(shapes: seq<GLShape>, i: nat)
    requires i < |shapes|
    ensures AllLists(shapes[..i + 1]) == AllLists(shapes[..i]) + Lists(shapes[i].faces)
  {
    var upto := shapes[..i + 1];
    assert upto[..|upto| - 1] == shapes[..i] && upto[|upto| - 1] == shapes[i];
  }

  lemma {:induction false} ShapesNext(shapes: seq<GLShape>, i: nat)
    requires Wide(AllLists(shapes)) && i < |shapes|
    ensures ShapeAdds(AllLists(shapes[..i]), Lists(shapes[i].faces), AllLists(shapes[..i + 1]), AllLists(shapes))
  {
    ListsGrow(shapes, i);
    ListsSplit(shapes, i + 1);
    JoinAdds(AllLists(shapes[..i]), Lists(shapes[i].faces), AllLists(shapes[..i + 1]), AllLists(shapes));
  }

  lemma JoinAdds(before: seq<seq<GLVertex>>, here: seq<seq<GLVertex>>,
                 after: seq<seq<GLVertex>>, all: seq<seq<GLVertex>>)
    requires after == before + here && after <= all && Wide(all)
    ensures ShapeAdds(before, here, after, all)
  {
    PrefixWide(after, all);
    PrefixWide(before, after);
    SuffixWide(before, here);
    CountsAgree(before);
    CountsJoin(before, here);
    assert all == after + all[|after|..];
    SuffixWide(after, all[|after|..]);
    CountsJoin(after, all[|after|..]);
  }

  lemma PrefixWide(a: seq<seq<GLVertex>>, b: seq<seq<GLVertex>>)
    requires a <= b && Wide(b)
    ensures Wide(a)
  {
  }

  lemma SuffixWide(a: seq<seq<GLVertex>>, b: seq<seq<GLVertex>>)
    requires Wide(a + b)
    ensures Wide(b)
  {
    forall i | 0 <= i < |b| ensures |b[i]| >= 2 {
      assert (a + b)[|a| + i] == b[i];
    }
  }

  /** Puts the position of a vertex and its colour, black and transparent when it has none. */
  method PutVertex(v: GLVertex, positions: Buffer, colors: Buffer)
    requires positions != colors
    requires |positions.contents| + 3 <= positions.capacity && |colors.contents| + 4 <= colors.capacity
    modifies positions, colors
    ensures positions.contents == old(positions.contents) + Position(v)
    ensures colors.contents == old(colors.contents) + Channels(v.paint)
  {
    var cells, channels := Position(v), Channels(v.paint);
    PutAll(positions, cells);
    PutAll(colors, channels);
  }

  method PutAll(buffer: Buffer, cells: seq<int>)
    requires |buffer.contents| <= buffer.capacity && |buffer.contents| + |cells| <= buffer.capacity
    modifies buffer
    ensures |buffer.contents| <= buffer.capacity && buffer.contents == old(buffer.contents) + cells
  {
    var i := 0;
    while i < |cells|
      invariant 0 <= i <= |cells| && |buffer.contents| <= buffer.capacity
      invariant |buffer.contents| == |old(buffer.contents)| + i
      invariant buffer.contents == old(buffer.contents) + cells[..i]
    {
      var ok := buffer.Put(cells[i]);
      assert cells[..i + 1] == cells[..i] + [cells[i]];
      i := i + 1;
    }
    assert cells[..|cells|] == cells;
  }
}
