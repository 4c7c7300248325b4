/** Where the cubes of the puzzle are, which way their sides face, and what their cells hold, in numbers. */
module KubeGeometry {
  import opened Basics
  import opened Mesh
  import opened MeshWorld
  import opened Kube

  // ---- one side of a box ----

  /** A corner of a box is on its bottom, front, left, right, back or top side. */
  predicate OnSide(b: Box, side: nat, c: Corner) {
    match side
    case 0 => c.y == b.bottom
    case 1 => c.z == b.front
    case 2 => c.x == b.left
    case 3 => c.x == b.right
    case 4 => c.z == b.back
    case _ => c.y == b.top
  }

  predicate IsCorner(b: Box, c: Corner) {
    (c.x == b.left || c.x == b.right) && (c.y == b.bottom || c.y == b.top) && (c.z == b.back || c.z == b.front)
  }

  /** A box whose low ends are below its high ends. */
  predicate Upright(b: Box) {
    b.left < b.right && b.bottom < b.top && b.back < b.front
  }

  /** A side is a way around the four corners of the box that are on it, one edge after the other. */
  lemma {:induction false} SideGoesAround(b: Box, side: nat, c: nat)
    requires Upright(b) && side < 6 && c < 4
    ensures IsCorner(b, SideOf(b, side)[c]) && OnSide(b, side, SideOf(b, side)[c])
    ensures var here, next := SideOf(b, side)[c], SideOf(b, side)[(c + 1) % 4];
      1 == (if here.x != next.x then 1 else 0) + (if here.y != next.y then 1 else 0)
           + (if here.z != next.z then 1 else 0)
    ensures SideOf(b, side)[c] != SideOf(b, side)[(c + 2) % 4]
  {
  }

  function Minus(c: Corner, d: Corner): Corner {
    Corner(c.x - d.x, c.y - d.y, c.z - d.z)
  }

  /** The vector product. */
  function Cross(c: Corner, d: Corner): Corner {
    Corner(c.y * d.z - c.z * d.y, c.z * d.x - c.x * d.z, c.x * d.y - c.y * d.x)
  }

  /** Points from a side into the box. */
  predicate Inward(side: nat, c: Corner) {
    match side
    case 0 => c.x == 0.0 && c.y > 0.0 && c.z == 0.0
    case 1 => c.x == 0.0 && c.y == 0.0 && c.z < 0.0
    case 2 => c.x > 0.0 && c.y == 0.0 && c.z == 0.0
    case 3 => c.x < 0.0 && c.y == 0.0 && c.z == 0.0
    case 4 => c.x == 0.0 && c.y == 0.0 && c.z > 0.0
    case _ => c.x == 0.0 && c.y < 0.0 && c.z == 0.0
  }

  lemma ProductPositive(a: real, b: real)
    requires a > 0.0 && b > 0.0
    ensures a * b > 0.0
  {
  }

  /** Seen from outside, every side goes around clockwise, in both of its triangles. */
  lemma {:induction false} SideIsClockwise(b: Box, side: nat, t: nat)
    requires Upright(b) && side < 6 && t < 2
    ensures var first, second, third :=
        SideOf(b, side)[CornerNumber(t, 0)], SideOf(b, side)[CornerNumber(t, 1)], SideOf(b, side)[CornerNumber(t, 2)];
      Inward(side, Cross(Minus(second, first), Minus(third, second)))
  {
    var dx, dy, dz := b.right - b.left, b.top - b.bottom, b.front - b.back;
    ProductPositive(dx, dy);
    ProductPositive(dy, dz);
    ProductPositive(dz, dx);
  }

  // ---- the boxes ----

  /** From left to right the cubes span two units, with gaps of 0.06. */
  lemma {:induction false} CubesFromLeft(i: nat)
    requires i < CUBES
    ensures i % 3 == 0 ==> Place(i).left == -1.0 && Place(i + 2).right == 1.0
    ensures i % 3 < 2 ==> Place(i + 1) == Place(i).(left := Place(i + 1).left, right := Place(i + 1).right)
    ensures i % 3 < 2 ==> Place(i + 1).left - Place(i).right == 0.06
  {
  }

  /** From back to front. */
  lemma {:induction false} CubesFromBack(i: nat)
    requires i < CUBES
    ensures i / 3 % 3 == 0 ==> Place(i).back == -1.0 && Place(i + 6).front == 1.0
    ensures i / 3 % 3 < 2 ==> Place(i + 3) == Place(i).(back := Place(i + 3).back, front := Place(i + 3).front)
    ensures i / 3 % 3 < 2 ==> Place(i + 3).back - Place(i).front == 0.06
  {
  }

  /** From top to bottom. */
  lemma {:induction false} CubesFromTop(i: nat)
    requires i < CUBES
    ensures i < 9 ==> Place(i).top == 1.0 && Place(i + 18).bottom == -1.0
    ensures i < 18 ==> Place(i + 9) == Place(i).(bottom := Place(i + 9).bottom, top := Place(i + 9).top)
    ensures i < 18 ==> Place(i).bottom - Place(i + 9).top == 0.06
  {
  }

  /** Every cube stands upright, so what is said of sides holds for each. */
  lemma {:induction false} CubesAreUpright(i: nat)
    requires i < CUBES
    ensures Upright(Place(i)) && Solid(Place(i))
  {
  }

  // ---- the cells ----

  /** A place within the range of 16.16 fixed point takes the 65536th part, toward zero. */
  lemma FixedWithin(r: real)
    requires -32768.0 <= r < 32768.0
    ensures r >= 0.0 ==> ToFixed(r) as real <= 65536.0 * r < ToFixed(r) as real + 1.0
    ensures r <= 0.0 ==> ToFixed(r) as real - 1.0 < 65536.0 * r <= ToFixed(r) as real
  {
  }

  /** Beyond it, the ends of the range. */
  lemma FixedSaturates(r: real)
    ensures r >= 32768.0 ==> ToFixed(r) == 2147483647
    ensures r < -32768.0 ==> ToFixed(r) == -2147483648
  {
  }

  /** Red, green, blue and alpha of a side: orange on top, red at the bottom, yellow to the left, white to the right,
      blue at the back, green in front, and black inside. */
  function CellsOf(i: nat, side: nat): seq<int> {
    if side == 5 && i < 9 then [65536, 32768, 0, 65536]
    else if side == 0 && i >= 18 then [65536, 0, 0, 65536]
    else if side == 2 && i % 3 == 0 then [65536, 65536, 0, 65536]
    else if side == 3 && i % 3 == 2 then [65536, 65536, 65536, 65536]
    else if side == 4 && i / 3 % 3 == 0 then [0, 0, 65536, 65536]
    else if side == 1 && i / 3 % 3 == 2 then [0, 65536, 0, 65536]
    else [0, 0, 0, 65536]
  }

  lemma SideCells(i: nat, side: nat)
    requires IsSide(i, side)
    ensures Channels(Shown(i, side)) == CellsOf(i, side)
  {
    OutsideByNumber(i);
  }

  /** So in the buffers of the finished puzzle the third vertex of each triangle of a side has these cells. */
  lemma {:induction false} ThirdVertexCells(indices: seq<int>, colors: seq<int>, j: nat, s: nat, t: nat)
    requires |indices| == 936 && |colors| == 832 && IsSide(j, s) && SideShows(indices, colors, j, s) && t < 2
    ensures var at := indices[IndexAt(j, s, t, 2)];
      0 <= at < 208 && colors[4 * at..4 * at + 4] == CellsOf(j, s)
  {
    SideCells(j, s);
    var at := indices[ThirdIndex(j, s, t)];
    assert Channels(Shown(j, s))[0] == CellsOf(j, s)[0];
    forall c | 0 <= c < 4 ensures colors[4 * at..4 * at + 4][c] == CellsOf(j, s)[c] {
      assert colors[4 * at + c] == Channels(Shown(j, s))[c];
    }
  }
}
