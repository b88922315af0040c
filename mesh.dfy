/**
  The mushroom mesh once the bmesh topology operations have run: 28 vertex
  positions and 26 face material slots, which the generator then edits by
  hard-coded index ranges.
 */
module Mesh {
  import opened PyRanges
  import opened Geometry

  /** Vertex and face counts the cube, inset, extrude and delete sequence leaves. */
  const VertexCount: nat := 28
  const FaceCount: nat := 26

  /** The factor by which the stem's base ring is widened. */
  const BaseThickening: real := 1.5

  /** Material slots: the stem material is appended first, the cap material second. */
  const StemSlot: int := 0
  const CapSlot: int := 1

  /** What the opaque topology operations hand over: vertex positions and face slots. */
  datatype Topology = Topology(verts: seq<Vec3>, slots: seq<int>)

  predicate WellShaped(t: Topology) {
    |t.verts| == VertexCount && |t.slots| == FaceCount
  }

  /** The stem's base ring, the four vertices the last extrusion creates. */
  function BaseRing(): set<int> {
    {24, 25, 26, 27}
  }

  /** The cap vertices whose height and width are sampled. */
  function CapRim(): set<int> {
    {0, 2, 4, 6, 8, 9, 10, 11}
  }

  /** Faces that take the stem material. */
  function StemFaces(): set<int> {
    {10, 18, 19, 20, 21, 22, 23, 24, 25}
  }

  /** Faces that take the cap material. */
  function CapFaces(): set<int> {
    {0, 1, 2, 3, 4, 5, 6, 7, 8, 9, 11, 12, 13, 14, 15, 16, 17}
  }

  /** Step 5: the base ring widened in x and y. */
  function ThickenedBase(vs: seq<Vec3>): (r: seq<Vec3>)
    ensures |r| == |vs|
  {
    ScaledAt(vs, BaseRing(), XY, BaseThickening)
  }

  /** Step 8: the cap rim's z multiplied by the sampled height factor. */
  function CapHeightScaled(vs: seq<Vec3>, f: real): (r: seq<Vec3>)
    ensures |r| == |vs|
  {
    ScaledAt(vs, CapRim(), Z, f)
  }

  /** Step 9: the cap rim's x and y multiplied by the sampled width factor. */
  function CapWidthScaled(vs: seq<Vec3>, f: real): (r: seq<Vec3>)
    ensures |r| == |vs|
  {
    ScaledAt(vs, CapRim(), XY, f)
  }

  /** Overall scaling: every coordinate of every vertex multiplied by the sampled size. */
  function OverallScaled(vs: seq<Vec3>, f: real): (r: seq<Vec3>)
    ensures |r| == |vs|
  {
    seq(|vs|, i requires 0 <= i < |vs| => Scale(vs[i], XYZ, f))
  }

  /** The slot list after writing `slot` to every face in `sel`. */
  function AssignedAt(ss: seq<int>, sel: set<int>, slot: int): (r: seq<int>)
    ensures |r| == |ss|
  {
    seq(|ss|, f requires 0 <= f < |ss| => if f in sel then slot else ss[f])
  }

  /** The intended partition, written independently of the loops: face 10 and faces 18 to 25 are stem. */
  function ReferenceSlots(): (r: seq<int>)
    ensures |r| == FaceCount
    ensures forall f :: 0 <= f < FaceCount ==> (r[f] == StemSlot <==> f in StemFaces())
    ensures forall f :: 0 <= f < FaceCount ==> (r[f] == CapSlot <==> f in CapFaces())
  {
    seq(FaceCount, f => if f == 10 || 18 <= f then StemSlot else CapSlot)
  }

  /** The loop `range(24, 28)` visits exactly the base ring. */
  lemma BaseRingExactly()
    ensures Members(Range(24, 28, 1)) == BaseRing()
  {
    UnitRangeSet(24, 28);
  }

  /** The loop `range(0, 7, 2)` visits exactly 0, 2, 4 and 6. */
  lemma EvenRimExactly()
    ensures Members(Range(0, 7, 2)) == {0, 2, 4, 6}
  {
    EvenRangeToSeven();
    assert Members([0, 2, 4, 6]) == {0, 2, 4, 6};
  }

  /** The loop `range(8, 12)` visits exactly 8, 9, 10 and 11. */
  lemma UpperRimExactly()
    ensures Members(Range(8, 12, 1)) == {8, 9, 10, 11}
  {
    UnitRangeSet(8, 12);
  }

  /** The two cap loops together visit exactly the cap rim, and share no index. */
  lemma CapRimExactly()
    ensures Members(Range(0, 7, 2)) + Members(Range(8, 12, 1)) == CapRim()
    ensures Members(Range(0, 7, 2)) * Members(Range(8, 12, 1)) == {}
  {
    EvenRimExactly();
    UpperRimExactly();
  }

  /** Face 10 and the loop `range(18, 26)` are exactly the stem faces. */
  lemma StemFacesExactly()
    ensures {10} + Members(Range(18, 26, 1)) == StemFaces()
  {
    UnitRangeSet(18, 26);
  }

  /** The loops `range(0, 10)` and `range(11, 18)` are exactly the cap faces. */
  lemma CapFacesExactly()
    ensures Members(Range(0, 10, 1)) + Members(Range(11, 18, 1)) == CapFaces()
  {
    LowerCapFacesExactly();
    UpperCapFacesExactly();
  }

  /** The loop `range(0, 10)` visits exactly faces 0 to 9. */
  lemma LowerCapFacesExactly()
    ensures Members(Range(0, 10, 1)) == {0, 1, 2, 3, 4, 5, 6, 7, 8, 9}
  {
    UnitRangeSet(0, 10);
  }

  /** The loop `range(11, 18)` visits exactly faces 11 to 17. */
  lemma UpperCapFacesExactly()
    ensures Members(Range(11, 18, 1)) == {11, 12, 13, 14, 15, 16, 17}
  {
    UnitRangeSet(11, 18);
  }

  /** Stem and cap faces are disjoint and together are faces 0 to 25. */
  lemma FacePartition()
    ensures StemFaces() * CapFaces() == {}
    ensures forall f :: f in StemFaces() + CapFaces() <==> 0 <= f < FaceCount
  {
  }

  /**
    Base thickening multiplies x and y of vertices 24 to 27 by 1.5; their z and
    every other vertex are unchanged.
   */
  lemma ThickenBaseTouches(vs: seq<Vec3>, i: int)
    requires 0 <= i < |vs|
    ensures |ThickenedBase(vs)| == |vs|
    ensures ThickenedBase(vs)[i].z == vs[i].z
    ensures 24 <= i < 28 ==> ThickenedBase(vs)[i].x == 1.5 * vs[i].x && ThickenedBase(vs)[i].y == 1.5 * vs[i].y
    ensures !(24 <= i < 28) ==> ThickenedBase(vs)[i] == vs[i]
  {
  }

  /**
    Cap height multiplies only z of the vertices {0, 2, 4, 6, 8, 9, 10, 11};
    their x and y and every other vertex are unchanged.
   */
  lemma CapHeightTouches(vs: seq<Vec3>, f: real, i: int)
    requires 0 <= i < |vs|
    ensures |CapHeightScaled(vs, f)| == |vs|
    ensures CapHeightScaled(vs, f)[i].x == vs[i].x && CapHeightScaled(vs, f)[i].y == vs[i].y
    ensures i in {0, 2, 4, 6, 8, 9, 10, 11} ==> CapHeightScaled(vs, f)[i].z == vs[i].z * f
    ensures i !in {0, 2, 4, 6, 8, 9, 10, 11} ==> CapHeightScaled(vs, f)[i] == vs[i]
  {
  }

  /** Cap width multiplies x and y of the same vertices by one factor and leaves every z unchanged. */
  lemma CapWidthTouches(vs: seq<Vec3>, f: real, i: int)
    requires 0 <= i < |vs|
    ensures |CapWidthScaled(vs, f)| == |vs|
    ensures CapWidthScaled(vs, f)[i].z == vs[i].z
    ensures i in {0, 2, 4, 6, 8, 9, 10, 11} ==>
      CapWidthScaled(vs, f)[i].x == vs[i].x * f && CapWidthScaled(vs, f)[i].y == vs[i].y * f
    ensures i !in {0, 2, 4, 6, 8, 9, 10, 11} ==> CapWidthScaled(vs, f)[i] == vs[i]
  {
  }

  /** Cap height and cap width commute. */
  lemma CapHeightWidthCommute(vs: seq<Vec3>, h: real, w: real)
    ensures CapWidthScaled(CapHeightScaled(vs, h), w) == CapHeightScaled(CapWidthScaled(vs, w), h)
  {
    ScaledAtCommute(vs, CapRim(), Z, h, CapRim(), XY, w);
  }

  /** The base ring and the cap rim share no vertex. */
  lemma BaseAndCapDisjoint()
    ensures BaseRing() * CapRim() == {}
  {
  }

  /** Overall scaling multiplies every coordinate of every vertex by the same factor. */
  lemma OverallScaleEvery(vs: seq<Vec3>, f: real, i: int)
    requires 0 <= i < |vs|
    ensures |OverallScaled(vs, f)| == |vs|
    ensures OverallScaled(vs, f)[i] == Vec3(vs[i].x * f, vs[i].y * f, vs[i].z * f)
  {
  }

  /** Overall scaling by `f` moves every vertex `|f|` times as far from the origin (squared: `f * f`). */
  lemma OverallScaleDistance(vs: seq<Vec3>, f: real, i: int)
    requires 0 <= i < |vs|
    ensures NormSquared(OverallScaled(vs, f)[i]) == f * f * NormSquared(vs[i])
  {
    UniformScaleNorm(vs[i], f);
  }

  /** Scaling by `f` then by `k` equals scaling once by `f * k`. */
  lemma OverallScaleCompose(vs: seq<Vec3>, f: real, k: real)
    ensures OverallScaled(OverallScaled(vs, f), k) == OverallScaled(vs, Mul(f, k))
  {
    var lhs, rhs := OverallScaled(OverallScaled(vs, f), k), OverallScaled(vs, Mul(f, k));
    forall i | 0 <= i < |vs| ensures lhs[i] == rhs[i] {
      ScaleCompose(vs[i], XYZ, f, k);
    }
  }

  /**
    Whatever slots the topology left behind, the stem assignment followed by the
    cap assignment gives exactly the reference partition: every face gets one slot.
   */
  lemma SlotsAfterAssignment(ss: seq<int>)
    requires |ss| == FaceCount
    ensures AssignedAt(AssignedAt(ss, StemFaces(), StemSlot), CapFaces(), CapSlot) == ReferenceSlots()
  {
    FacePartition();
    var r := AssignedAt(AssignedAt(ss, StemFaces(), StemSlot), CapFaces(), CapSlot);
    forall f | 0 <= f < FaceCount ensures r[f] == ReferenceSlots()[f] {
      assert f in StemFaces() + CapFaces();
    }
  }

  /** The two slot assignments touch disjoint faces, so their order does not matter. */
  lemma SlotAssignmentsCommute(ss: seq<int>)
    ensures AssignedAt(AssignedAt(ss, StemFaces(), StemSlot), CapFaces(), CapSlot)
         == AssignedAt(AssignedAt(ss, CapFaces(), CapSlot), StemFaces(), StemSlot)
  {
    FacePartition();
    var a := AssignedAt(AssignedAt(ss, StemFaces(), StemSlot), CapFaces(), CapSlot);
    var b := AssignedAt(AssignedAt(ss, CapFaces(), CapSlot), StemFaces(), StemSlot);
    forall f | 0 <= f < |ss| ensures a[f] == b[f] {
      assert !(f in StemFaces() && f in CapFaces()) by {
        assert f in StemFaces() && f in CapFaces() ==> f in StemFaces() * CapFaces();
      }
    }
  }

  /** The bmesh after topology: vertex coordinates and face material indices, edited in place. */
  class MushroomMesh {
    const verts: array<Vec3>
    const slots: array<int>

    ghost predicate Valid() {
      verts.Length == VertexCount && slots.Length == FaceCount
    }

    /** Takes over the vertices and faces that the topology operations produced. */
    constructor (t: Topology)
      requires WellShaped(t)
      ensures Valid() && fresh(verts) && fresh(slots)
      ensures verts[..] == t.verts && slots[..] == t.slots
    {
      verts := new Vec3[|t.verts|](i requires 0 <= i < |t.verts| => t.verts[i]);
      slots := new int[|t.slots|](f requires 0 <= f < |t.slots| => t.slots[f]);
    }

    /** One index loop: for each index of `idx`, multiply the `axes` coordinates of that vertex by `f`. */
    method ScaleVertices(idx: seq<int>, axes: Axes, f: real)
      requires Valid()
      requires forall k :: 0 <= k < |idx| ==> 0 <= idx[k] < verts.Length
      requires forall k, l :: 0 <= k < l < |idx| ==> idx[k] < idx[l]
      modifies verts
      ensures verts[..] == ScaledAt(old(verts[..]), Members(idx), axes, f)
    {
      for k := 0 to |idx|
        invariant verts[..] == ScaledAt(old(verts[..]), Members(idx[..k]), axes, f)
      {
        assert idx[..k + 1] == idx[..k] + [idx[k]];
        assert idx[k] !in Members(idx[..k]);
        verts[idx[k]] := Scale(verts[idx[k]], axes, f);
      }
      assert idx[..|idx|] == idx;
    }

    /** One slot loop: write `slot` to the material index of every face of `idx`. */
    method AssignSlots(idx: seq<int>, slot: int)
      requires Valid()
      requires forall k :: 0 <= k < |idx| ==> 0 <= idx[k] < slots.Length
      modifies slots
      ensures slots[..] == AssignedAt(old(slots[..]), Members(idx), slot)
    {
      for k := 0 to |idx|
        invariant slots[..] == AssignedAt(old(slots[..]), Members(idx[..k]), slot)
      {
        assert idx[..k + 1] == idx[..k] + [idx[k]];
        slots[idx[k]] := slot;
      }
      assert idx[..|idx|] == idx;
    }

    /** Step 5: thicken the stem base. */
    method ThickenBase()
      requires Valid()
      modifies verts
      ensures verts[..] == ThickenedBase(old(verts[..]))
    {
      RangeIncreasing(24, 28, 1);
      ScaleVertices(Range(24, 28, 1), XY, BaseThickening);
      BaseRingExactly();
    }

    /** Step 8: change the cap height. */
    method ScaleCapHeight(f: real)
      requires Valid()
      modifies verts
      ensures verts[..] == CapHeightScaled(old(verts[..]), f)
    {
      RangeIncreasing(0, 7, 2);
      ScaleVertices(Range(0, 7, 2), Z, f);
      RangeIncreasing(8, 12, 1);
      ScaleVertices(Range(8, 12, 1), Z, f);
      CapRimExactly();
      ScaledAtUnion(old(verts[..]), Members(Range(0, 7, 2)), Members(Range(8, 12, 1)), Z, f);
    }

    /** Step 9: change the cap width. */
    method ScaleCapWidth(f: real)
      requires Valid()
      modifies verts
      ensures verts[..] == CapWidthScaled(old(verts[..]), f)
    {
      RangeIncreasing(0, 7, 2);
      ScaleVertices(Range(0, 7, 2), XY, f);
      RangeIncreasing(8, 12, 1);
      ScaleVertices(Range(8, 12, 1), XY, f);
      CapRimExactly();
      ScaledAtUnion(old(verts[..]), Members(Range(0, 7, 2)), Members(Range(8, 12, 1)), XY, f);
    }

    /** Overall scaling of every vertex. */
    method ScaleOverall(f: real)
      requires Valid()
      modifies verts
      ensures verts[..] == OverallScaled(old(verts[..]), f)
    {
      for i := 0 to verts.Length
        invariant forall j :: 0 <= j < i ==> verts[j] == Scale(old(verts[j]), XYZ, f)
        invariant forall j :: i <= j < verts.Length ==> verts[j] == old(verts[j])
      {
        verts[i] := Scale(verts[i], XYZ, f);
      }
    }

    /** Step 6: the stem faces get the stem slot. */
    method AssignStemSlots()
      requires Valid()
      modifies slots
      ensures slots[..] == AssignedAt(old(slots[..]), StemFaces(), StemSlot)
    {
      slots[10] := StemSlot;
      ghost var afterTen := slots[..];
      AssignSlots(Range(18, 26, 1), StemSlot);
      assert afterTen == AssignedAt(old(slots[..]), {10}, StemSlot);
      AssignedAtUnion(old(slots[..]), {10}, Members(Range(18, 26, 1)), StemSlot);
      StemFacesExactly();
    }

    /** Step 7: the cap faces get the cap slot. */
    method AssignCapSlots()
      requires Valid()
      modifies slots
      ensures slots[..] == AssignedAt(old(slots[..]), CapFaces(), CapSlot)
    {
      AssignSlots(Range(0, 10, 1), CapSlot);
      AssignSlots(Range(11, 18, 1), CapSlot);
      AssignedAtUnion(old(slots[..]), Members(Range(0, 10, 1)), Members(Range(11, 18, 1)), CapSlot);
      CapFacesExactly();
    }
  }

  /** Two slot loops writing the same slot make one assignment over the union. */
  lemma AssignedAtUnion(ss: seq<int>, a: set<int>, b: set<int>, slot: int)
    ensures AssignedAt(AssignedAt(ss, a, slot), b, slot) == AssignedAt(ss, a + b, slot)
  {
  }
}
