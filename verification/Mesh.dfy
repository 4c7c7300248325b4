/** Faces that share vertices: each painted face claims a vertex of its own to carry its colour. */
module Mesh {

  datatype Color = Color(red: int, green: int, blue: int, alpha: int)

  datatype Paint = Bare | Coated(color: Color)

  /** A vertex; faces and shapes share it by reference. */
  class GLVertex {
    const x: real
    const y: real
    const z: real
    const index: int
    var paint: Paint

    constructor (x: real, y: real, z: real, index: int)
      ensures this.x == x && this.y == y && this.z == z && this.index == index && paint == Bare
    {
      this.x, this.y, this.z, this.index := x, y, z, index;
      paint := Bare;
    }
  }

  // ---- turning a vertex list ----

  /** The list after r turns, each of which moves the last element to the front. */
  function Turned<T>(s: seq<T>, r: nat): (t: seq<T>)
    ensures |t| == |s|
    decreases r
  {
    if r == 0 || s == [] then s else Turned([s[|s| - 1]] + s[..|s| - 1], r - 1)
  }

  /** Up to one full circle, turning is cutting: the cyclic order is kept. */
  lemma {:induction false} TurnedIsCut<T>(s: seq<T>, r: nat)
    requires r <= |s|
    ensures Turned(s, r) == s[|s| - r..] + s[..|s| - r]
  {
    if 0 < r {
      TurnedNext(s, r - 1);
      TurnedIsCut(s, r - 1);
      var t := Turned(s, r - 1);
      assert t[|t| - 1] == s[|s| - r];
      assert [t[|t| - 1]] + t[..|t| - 1] == s[|s| - r..] + s[..|s| - r];
    }
  }

  lemma {:induction false} TurnedNext<T>(s: seq<T>, r: nat)
    requires s != []
    ensures Turned(s, r + 1) == [Turned(s, r)[|s| - 1]] + Turned(s, r)[..|s| - 1]
    decreases r
  {
    if r > 0 {
      TurnedNext([s[|s| - 1]] + s[..|s| - 1], r - 1);
    }
  }

  lemma {:induction false} TurnedKeepsElements<T>(s: seq<T>, r: nat)
    ensures forall x :: x in Turned(s, r) <==> x in s
    decreases r
  {
    if r > 0 && s != [] {
      var t := [s[|s| - 1]] + s[..|s| - 1];
      TurnedKeepsElements(t, r - 1);
      assert s == s[..|s| - 1] + [s[|s| - 1]];
    }
  }

  /** Every element has been in the list before. */
  lemma {:induction false} TurnedFrom<T>(s: seq<T>, r: nat, k: nat) returns (j: nat)
    requires k < |s|
    ensures j < |s| && Turned(s, r)[k] == s[j]
    decreases r
  {
    j := k;
    if r > 0 {
      var t := [s[|s| - 1]] + s[..|s| - 1];
      var i := TurnedFrom(t, r - 1, k);
      j := if i == 0 then |s| - 1 else i - 1;
    }
  }

  /** One turn of a list that is cut behind p cuts it before p. */
  lemma CutTurns<T>(s: seq<T>, t: seq<T>, p: nat)
    requires p < |s| && t == s[p + 1..] + s[..p + 1]
    ensures t[|t| - 1] == s[p] && ([s[p]] + t)[..|s|] == s[p..] + s[..p]
  {
    assert [s[p]] + s[p + 1..] == s[p..];
    assert s[..p + 1] == s[..p] + [s[p]];
  }

  // ---- faces ----

  /** Position of the last bare vertex. */
  ghost predicate LastBare(vs: seq<GLVertex>, p: int)
    reads vs
  {
    0 <= p < |vs| && vs[p].paint == Bare && forall j :: p < j < |vs| ==> vs[j].paint != Bare
  }

  lemma {:induction false} SomeLastBare(vs: seq<GLVertex>) returns (p: nat)
    requires exists v :: v in vs && v.paint == Bare
    ensures LastBare(vs, p)
  {
    p := |vs| - 1;
    if vs[p].paint != Bare {
      assert exists v :: v in vs[..p] && v.paint == Bare by {
        var v :| v in vs && v.paint == Bare;
        assert vs == vs[..p] + [vs[p]];
      }
      p := SomeLastBare(vs[..p]);
    }
  }

  /** After r turns the last vertex of the list is bare. */
  ghost predicate StopsAfter(vs: seq<GLVertex>, r: nat)
    reads vs
    requires vs != []
  {
    TurnedKeepsElements(vs, r);
    assert Turned(vs, r)[|vs| - 1] in Turned(vs, r);
    Turned(vs, r)[|vs| - 1].paint == Bare
  }

  /** Turning the vertices of a face until the last one is bare ends if and only if some vertex is bare. */
  lemma TurningStopsIffBare(vs: seq<GLVertex>)
    requires vs != []
    ensures (exists r: nat :: StopsAfter(vs, r)) <==> exists v :: v in vs && v.paint == Bare
  {
    if r: nat :| StopsAfter(vs, r) {
      var j := TurnedFrom(vs, r, |vs| - 1);
      assert vs[j].paint == Bare;
    }
    if v :| v in vs && v.paint == Bare {
      var p: nat :| p < |vs| && vs[p] == v;
      TurnedIsCut(vs, |vs| - 1 - p);
      assert StopsAfter(vs, |vs| - 1 - p);
    }
  }

  class GLFace {
    var vertices: seq<GLVertex>
    var paint: Paint

    constructor (vs: seq<GLVertex>)
      ensures vertices == vs && paint == Bare
    {
      vertices := vs;
      paint := Bare;
    }

    /** Has been painted, with vertices enough to carry the colour. */
    ghost predicate IsPainted()
      reads this
    {
      paint != Bare && |vertices| >= 3
    }

    function Last(): (v: GLVertex)
      reads this
      requires |vertices| > 0
      ensures v in vertices
    {
      vertices[|vertices| - 1]
    }

    /** Colouring returns: the face is too small, has been coloured before, or has a bare vertex to turn to. */
    ghost predicate CanPaint()
      reads this, vertices
    {
      |vertices| >= 3 && paint == Bare ==> exists v :: v in vertices && v.paint == Bare
    }

    /** Turns the vertex list until its last vertex is bare. Without a bare vertex that would never end. */
    method TurnToBare()
      requires exists v :: v in vertices && v.paint == Bare
      modifies this`vertices
      ensures |vertices| == |old(vertices)| && Last().paint == Bare
      ensures exists p :: LastBare(old(vertices), p) && vertices == old(vertices)[p + 1..] + old(vertices)[..p + 1]
    {
      var last := |vertices| - 1;
      var vertex := vertices[last];
      ghost var vs := vertices;
      ghost var p := last;
      ghost var bare := SomeLastBare(vs);
      assert vs[last + 1..] + vs[..last + 1] == vs;
      while vertex.paint != Bare
        invariant bare <= p <= last && |vs| == last + 1 && vertex == vs[p]
        invariant vertices == vs[p + 1..] + vs[..p + 1]
        decreases p
      {
        CutTurns(vs, vertices, p);
        vertices := [vertex] + vertices;
        vertices := vertices[..last + 1];
        p := p - 1;
        CutTurns(vs, vertices, p);
        vertex := vertices[last];
      }
      CutTurns(vs, vertices, p);
      assert LastBare(vs, p);
    }

    /** Colours the face in its last vertex; a face painted for the first time picks a bare one. */
    method SetColor(c: Color)
      requires CanPaint()
      modifies this, vertices
      ensures paint == Coated(c) && |vertices| == |old(vertices)|
      ensures |vertices| < 3 ==> vertices == old(vertices) && forall v :: v in vertices ==> v.paint == old(v.paint)
      ensures |vertices| >= 3 ==> Last().paint == Coated(c)
      ensures |vertices| >= 3 ==> forall v :: v in old(vertices) && v != Last() ==> v.paint == old(v.paint)
      ensures |vertices| >= 3 && old(paint) != Bare ==> vertices == old(vertices)
      ensures |vertices| >= 3 && old(paint) == Bare ==>
        exists p :: old(LastBare(vertices, p)) && vertices == old(vertices)[p + 1..] + old(vertices)[..p + 1]
    {
      var last := |vertices| - 1;
      if last >= 2 {
        if paint == Bare {
          TurnToBare();
        }
        var vertex := vertices[last];
        vertex.paint := Coated(c);
      }
      paint := Coated(c);
    }
  }

  // ---- the painting of a set of faces ----

  /** Painted faces carry their colour in their last vertex, and no two share it. */
  ghost predicate WellPainted(faces: set<GLFace>)
    reads faces, set f, v | f in faces && v in f.vertices :: v
  {
    && (forall f :: f in faces && f.IsPainted() ==> f.Last().paint == f.paint)
    && (forall f, g :: f in faces && g in faces && f != g && f.IsPainted() && g.IsPainted() ==> f.Last() != g.Last())
  }

  /** Every face keeps its colour, or its lack of one, in a last vertex of its own. */
  ghost predicate Settled(faces: set<GLFace>)
    reads faces, set f, v | f in faces && v in f.vertices :: v
  {
    && (forall f :: f in faces ==> |f.vertices| >= 3 && f.Last().paint == f.paint)
    && (forall f, g :: f in faces && g in faces && f != g ==> f.Last() != g.Last())
  }

  /** Painting a face keeps every other painted face as it was. When the faces are settled no list is turned,
      so painting them in any order never gets stuck. */
  method PaintFace(ghost faces: set<GLFace>, f: GLFace, c: Color)
    requires f in faces && WellPainted(faces)
    requires f.CanPaint()
    modifies f, f.vertices
    ensures WellPainted(faces) && f.paint == Coated(c)
    ensures forall g :: g in faces && g != f ==> g.vertices == old(g.vertices) && g.paint == old(g.paint)
    ensures |f.vertices| == |old(f.vertices)| && forall v :: v in f.vertices ==> v in old(f.vertices)
    ensures old(Settled(faces)) ==> Settled(faces) && f.vertices == old(f.vertices)
  {
    ghost var vs := f.vertices;
    ghost var settled := Settled(faces);
    f.SetColor(c);
    if settled {
      assert f.vertices == vs by {
        assert vs[|vs|..] + vs[..|vs|] == vs;
      }
    }
  }

  // ---- more faces than vertices ----

  lemma {:induction false} LastsFit(faces: set<GLFace>, corners: set<GLVertex>)
    requires forall f :: f in faces ==> |f.vertices| > 0 && f.Last() in corners
    requires forall f, g :: f in faces && g in faces && f != g ==> f.Last() != g.Last()
    ensures |faces| <= |corners|
    decreases |faces|
  {
    if f :| f in faces {
      LastsFit(faces - {f}, corners - {f.Last()});
    }
  }

  /** No more faces can be painted than there are vertices to carry their colours. */
  lemma PaintedFacesFit(faces: set<GLFace>, corners: set<GLVertex>)
    requires WellPainted(faces)
    requires forall f :: f in faces ==> f.IsPainted() && forall v :: v in f.vertices ==> v in corners
    ensures |faces| <= |corners|
  {
    LastsFit(faces, corners);
  }

  lemma {:induction false} DistinctCount(faces: seq<GLFace>)
    requires forall i, j :: 0 <= i < j < |faces| ==> faces[i] != faces[j]
    ensures |set f | f in faces| == |faces|
  {
    if faces != [] {
      var n := |faces| - 1;
      DistinctCount(faces[..n]);
      assert faces == faces[..n] + [faces[n]];
      assert (set f | f in faces) == (set f | f in faces[..n]) + {faces[n]};
    }
  }

  /** Faces over some corners, each with vertices enough to carry a colour. */
  ghost predicate Over(faces: seq<GLFace>, corners: set<GLVertex>)
    reads faces
  {
    forall f :: f in faces ==> |f.vertices| >= 3 && forall v :: v in f.vertices ==> v in corners
  }

  /** Paints faces in the order given, up to one on which colouring would not return. With more faces than corners
      there is always such a face. */
  method PaintInOrder(faces: seq<GLFace>, ghost corners: set<GLVertex>, c: Color) returns (done: nat)
    requires forall i, j :: 0 <= i < j < |faces| ==> faces[i] != faces[j]
    requires Over(faces, corners) && WellPainted(set f | f in faces)
    modifies faces, corners
    ensures done <= |faces| && WellPainted(set f | f in faces)
    ensures forall i :: 0 <= i < done ==> faces[i].paint == Coated(c)
    ensures done < |faces| ==> !faces[done].CanPaint()
    ensures |faces| > |corners| ==> done < |faces|
  {
    ghost var all := set f | f in faces;
    done := 0;
    while done < |faces|
      invariant done <= |faces| && Over(faces, corners) && WellPainted(all)
      invariant forall i :: 0 <= i < done ==> faces[i].paint == Coated(c)
    {
      var f := faces[done];
      if f.paint == Bare && forall v :: v in f.vertices ==> v.paint != Bare {
        return;
      }
      assert f in faces;
      PaintFace(all, f, c);
      done := done + 1;
    }
    DistinctCount(faces);
    PaintedFacesFit(all, corners);
  }

  /** Fresh faces over given vertex lists. */
  method FacesOver(lists: seq<seq<GLVertex>>, ghost corners: set<GLVertex>) returns (faces: seq<GLFace>)
    requires forall i :: 0 <= i < |lists| ==> |lists[i]| >= 3 && forall v :: v in lists[i] ==> v in corners
    ensures |faces| == |lists| && Over(faces, corners) && fresh(faces)
    ensures forall f :: f in faces ==> f.paint == Bare
    ensures forall j, k :: 0 <= j < k < |faces| ==> faces[j] != faces[k]
  {
    faces := [];
    for i := 0 to |lists|
      invariant |faces| == i && fresh(faces) && Over(faces, corners)
      invariant forall f :: f in faces ==> f.paint == Bare
      invariant forall j, k :: 0 <= j < k < i ==> faces[j] != faces[k]
    {
      var face := new GLFace(lists[i]);
      faces := faces + [face];
    }
  }

  /** The faces of an octahedron over its north, east, south, west, top and bottom corners. */
  function OctahedronLists(vs: seq<GLVertex>): (lists: seq<seq<GLVertex>>)
    requires |vs| == 6
    ensures |lists| == 8
  {
    [[vs[0], vs[1], vs[4]], [vs[1], vs[2], vs[4]], [vs[2], vs[3], vs[4]], [vs[3], vs[0], vs[4]],
     [vs[1], vs[0], vs[5]], [vs[2], vs[1], vs[5]], [vs[3], vs[2], vs[5]], [vs[0], vs[3], vs[5]]]
  }

  lemma OctahedronListsStay(vs: seq<GLVertex>, i: nat)
    requires |vs| == 6 && i < 8
    ensures |OctahedronLists(vs)[i]| == 3 && forall v :: v in OctahedronLists(vs)[i] ==> v in vs
  {
  }

  lemma {:induction false} CornerCount(vs: seq<GLVertex>)
    ensures |set v | v in vs| <= |vs|
  {
    if vs != [] {
      var n := |vs| - 1;
      CornerCount(vs[..n]);
      assert vs == vs[..n] + [vs[n]];
      assert (set v | v in vs) == (set v | v in vs[..n]) + {vs[n]};
    }
  }

  /** An octahedron has eight faces and six corners, so painting it gets stuck. */
  method OctahedronGetsStuck(vs: seq<GLVertex>, c: Color) returns (faces: seq<GLFace>, done: nat)
    requires |vs| == 6
    modifies vs
    ensures |faces| == 8 && done < 8 && !faces[done].CanPaint()
  {
    ghost var corners := set v | v in vs;
    CornerCount(vs);
    forall i | 0 <= i < 8
      ensures |OctahedronLists(vs)[i]| >= 3 && forall v :: v in OctahedronLists(vs)[i] ==> v in corners
    {
      OctahedronListsStay(vs, i);
    }
    faces := FacesOver(OctahedronLists(vs), corners);
    done := PaintInOrder(faces, corners, c);
  }

  // ---- the cube ----

  ghost predicate Corners(vs: seq<GLVertex>)
    reads vs
  {
    |vs| == 8 && (forall i, j :: 0 <= i < j < 8 ==> vs[i] != vs[j]) && forall i :: 0 <= i < 8 ==> vs[i].paint == Bare
  }

  /** The vertex lists of a cube's faces: bottom, front, left, right, back, top. The corners come in the order
      left-bottom-back, right-bottom-back, left-top-back, right-top-back, and the same in front. */
  function CubeLists<T>(vs: seq<T>): (lists: seq<seq<T>>)
    requires |vs| == 8
    ensures |lists| == 6
  {
    [[vs[0], vs[4], vs[5], vs[1]],
     [vs[4], vs[6], vs[7], vs[5]],
     [vs[0], vs[2], vs[6], vs[4]],
     [vs[1], vs[5], vs[7], vs[3]],
     [vs[0], vs[1], vs[3], vs[2]],
     [vs[2], vs[3], vs[7], vs[6]]]
  }

  /** The six lists end in six different corners. */
  lemma CubeEndsDiffer(vs: seq<GLVertex>, i: nat, j: nat)
    requires Corners(vs) && i < j < 6
    ensures |CubeLists(vs)[i]| == |CubeLists(vs)[j]| == 4 && CubeLists(vs)[i][3] != CubeLists(vs)[j][3]
    ensures CubeLists(vs)[i][3] in vs && CubeLists(vs)[j][3] in vs
  {
    var ends := [1, 5, 4, 3, 2, 6];
    assert CubeLists(vs)[i][3] == vs[ends[i]] && CubeLists(vs)[j][3] == vs[ends[j]];
    assert ends[i] != ends[j];
  }

  /** Fresh faces over lists that end in different bare vertices are settled. */
  lemma FreshFacesSettle(faces: seq<GLFace>)
    requires forall i :: 0 <= i < |faces| ==>
      faces[i].paint == Bare && |faces[i].vertices| >= 3 && faces[i].Last().paint == Bare
    requires forall i, j :: 0 <= i < j < |faces| ==> faces[i].Last() != faces[j].Last()
    ensures Settled(set f | f in faces)
  {
  }

  /** So a cube can be painted face by face in any order without a single turn. */
  method CubeFaces(vs: seq<GLVertex>) returns (faces: seq<GLFace>)
    requires Corners(vs)
    ensures |faces| == 6 && fresh(faces) && Settled(set f | f in faces)
    ensures forall i, j :: 0 <= i < j < 6 ==> faces[i] != faces[j]
    ensures forall i :: 0 <= i < 6 ==> faces[i].vertices == CubeLists(vs)[i] && faces[i].paint == Bare
  {
    var lists := CubeLists(vs);
    forall i, j | 0 <= i < j < 6
      ensures |lists[i]| == |lists[j]| == 4 && lists[i][3] != lists[j][3] && lists[i][3] in vs && lists[j][3] in vs
    {
      CubeEndsDiffer(vs, i, j);
    }
    faces := [];
    for i := 0 to 6
      invariant |faces| == i && fresh(faces)
      invariant forall k :: 0 <= k < i ==> faces[k].vertices == lists[k] && faces[k].paint == Bare
    {
      var face := new GLFace(lists[i]);
      faces := faces + [face];
    }
    FreshFacesSettle(faces);
  }
}
