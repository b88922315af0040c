/**
  The operator: `execute` seeds the random stream and, for one of the four
  species identifiers, runs `generate_mushroom` and names the object after the
  species. The same recipe serves every species.
 */
module Generator {
  import opened Wrappers
  import opened Geometry
  import opened Sampler
  import opened Mesh
  import opened CapShader

  /** A material as the generator sets it up: name, viewport color, and whether it uses nodes. */
  datatype Material = Material(name: string, diffuse: Rgba, useNodes: bool)

  const StemMaterial: Material := Material("toadstool_stem", Rgba(1.0, 0.847914, 0.631299, 1.0), false)
  const CapMaterial: Material := Material("toadstool_cap", Rgba(1.0, 0.0, 0.0, 1.0), true)

  /** The coordinates after steps 5, 8 and 9, for the cap height `h` and cap width `w`. */
  function Shaped(vs: seq<Vec3>, h: real, w: real): (r: seq<Vec3>)
    ensures |r| == |vs|
  {
    CapWidthScaled(CapHeightScaled(ThickenedBase(vs), h), w)
  }

  /** The coordinates after steps 5, 8, 9 and the overall scaling, for the sampled parameters. */
  function Sculpted(vs: seq<Vec3>, p: Parameters): (r: seq<Vec3>)
    ensures |r| == |vs|
  {
    OverallScaled(Shaped(vs, p.capHeight, p.capWidth), p.overallScale)
  }

  /** A base-ring vertex ends up widened by 1.5 and scaled by the sampled size. */
  lemma SculptedBaseVertex(vs: seq<Vec3>, p: Parameters, i: int)
    requires |vs| == VertexCount && 24 <= i < 28
    ensures Sculpted(vs, p)[i] == Vec3(vs[i].x * 1.5 * p.overallScale, vs[i].y * 1.5 * p.overallScale, vs[i].z * p.overallScale)
  {
    var t := ThickenedBase(vs);
    var h := CapHeightScaled(t, p.capHeight);
    var w := CapWidthScaled(h, p.capWidth);
    assert i in BaseRing() && i !in CapRim();
    assert w[i] == h[i] == t[i] == Vec3(vs[i].x * 1.5, vs[i].y * 1.5, vs[i].z);
    assert Sculpted(vs, p) == OverallScaled(w, p.overallScale);
  }

  /** Before the overall scaling, a cap-rim vertex has the sampled width and height and is untouched by step 5. */
  lemma ShapedRimVertex(vs: seq<Vec3>, h: real, w: real, i: int)
    requires |vs| == VertexCount && i in {0, 2, 4, 6, 8, 9, 10, 11}
    ensures Shaped(vs, h, w)[i] == Vec3(vs[i].x * w, vs[i].y * w, vs[i].z * h)
  {
    var t := ThickenedBase(vs);
    assert i !in BaseRing() && i in CapRim();
    assert t[i] == vs[i];
    assert CapHeightScaled(t, h)[i] == Vec3(vs[i].x, vs[i].y, vs[i].z * h);
  }

  /** A cap-rim vertex ends up with the sampled width and height, then scaled by the sampled size. */
  lemma SculptedRimVertex(vs: seq<Vec3>, p: Parameters, i: int)
    requires |vs| == VertexCount && i in CapRim()
    ensures Sculpted(vs, p)[i].x == vs[i].x * p.capWidth * p.overallScale
    ensures Sculpted(vs, p)[i].y == vs[i].y * p.capWidth * p.overallScale
    ensures Sculpted(vs, p)[i].z == vs[i].z * p.capHeight * p.overallScale
  {
    var w := Shaped(vs, p.capHeight, p.capWidth);
    ShapedRimVertex(vs, p.capHeight, p.capWidth, i);
    assert Sculpted(vs, p) == OverallScaled(w, p.overallScale);
    ScaledPointAt(w, p.overallScale, i, vs[i].x * p.capWidth, vs[i].y * p.capWidth, vs[i].z * p.capHeight);
  }

  /** The overall scaling of a vertex whose coordinates are known. */
  lemma ScaledPointAt(w: seq<Vec3>, s: real, i: int, x: real, y: real, z: real)
    requires 0 <= i < |w| && w[i] == Vec3(x, y, z)
    ensures OverallScaled(w, s)[i] == Vec3(x * s, y * s, z * s)
  {
  }

  /** Every other vertex is only scaled by the sampled size. */
  lemma SculptedOtherVertex(vs: seq<Vec3>, p: Parameters, i: int)
    requires |vs| == VertexCount && 0 <= i < |vs|
    requires !(24 <= i < 28) && i !in {0, 2, 4, 6, 8, 9, 10, 11}
    ensures Sculpted(vs, p)[i] == Vec3(vs[i].x * p.overallScale, vs[i].y * p.overallScale, vs[i].z * p.overallScale)
  {
    var t := ThickenedBase(vs);
    var h := CapHeightScaled(t, p.capHeight);
    var w := CapWidthScaled(h, p.capWidth);
    assert i !in BaseRing() && i !in CapRim();
    assert w[i] == h[i] == t[i] == vs[i];
    assert Sculpted(vs, p) == OverallScaled(w, p.overallScale);
  }

  /** Changing the cap width before the cap height would give the same mesh. */
  lemma CapStepsCommute(vs: seq<Vec3>, p: Parameters)
    ensures Sculpted(vs, p)
         == OverallScaled(CapHeightScaled(CapWidthScaled(ThickenedBase(vs), p.capWidth), p.capHeight), p.overallScale)
  {
    CapHeightWidthCommute(ThickenedBase(vs), p.capHeight, p.capWidth);
  }

  /**
    The size is applied last and to every vertex, so a mushroom sampled with size
    `s * k` is the one sampled with size `s`, scaled once more by `k`.
   */
  lemma SculptedSizeCompose(vs: seq<Vec3>, p: Parameters, k: real)
    ensures Sculpted(vs, p.(overallScale := Mul(p.overallScale, k))) == OverallScaled(Sculpted(vs, p), k)
  {
    var w := Shaped(vs, p.capHeight, p.capWidth);
    OverallScaleCompose(w, p.overallScale, k);
  }

  /** The Blender object: its name, its mesh and the materials appended to it. */
  class MushroomObject {
    var name: string
    const mesh: MushroomMesh
    var materials: seq<Material>

    /** `bpy.data.objects.new("Mushroom", mushroom_mesh)`. */
    constructor (mesh: MushroomMesh)
      ensures name == "Mushroom" && this.mesh == mesh && materials == []
    {
      name := "Mushroom";
      this.mesh := mesh;
      materials := [];
    }

    /** `obj.data.materials.append(m)`: the new material takes the next slot index. */
    method AppendMaterial(m: Material) returns (slot: nat)
      modifies this
      ensures materials == old(materials) + [m] && name == old(name)
      ensures slot == |old(materials)| && materials[slot] == m
    {
      slot := |materials|;
      materials := materials + [m];
    }
  }

  /** What one generation hands over: the object, the cap material's node tree and the sampled values. */
  datatype Generated = Generated(obj: MushroomObject, capTree: NodeTree, params: Parameters)

  /** The full outcome of one generation from the draws `u` and the topology operations. */
  ghost predicate ProducedFrom(g: Generated, u: seq<real>, topology: real -> Topology)
    reads g.obj, g.obj.mesh, g.obj.mesh.verts, g.obj.mesh.slots, g.capTree
    requires |u| >= DrawCount && ValidDraws(u)
  {
    && g.params == SampleParameters(u)
    && g.obj.mesh.Valid()
    && g.obj.mesh.verts[..] == Sculpted(topology(g.params.stemThickness).verts, g.params)
    && g.obj.mesh.slots[..] == ReferenceSlots()
    && g.obj.materials == [StemMaterial, CapMaterial]
    && g.obj.materials[StemSlot] == StemMaterial && g.obj.materials[CapSlot] == CapMaterial
    && g.capTree.nodes == CapTreeNodes(g.params.voronoiRandomness, g.params.threshold,
                                       Rgba(g.params.red, g.params.green, g.params.blue, 1.0))
    && g.capTree.links == CapTreeLinks()
  }
  /** Every face of a generated mushroom wears the material of its part: stem faces the stem material, the rest the cap material. */
  lemma FacesWearTheirMaterial(g: Generated, u: seq<real>, topology: real -> Topology)
    requires |u| >= DrawCount && ValidDraws(u) && ProducedFrom(g, u, topology)
    ensures forall f :: 0 <= f < FaceCount ==> 0 <= g.obj.mesh.slots[f] < |g.obj.materials|
    ensures forall f :: 0 <= f < FaceCount ==>
      g.obj.materials[g.obj.mesh.slots[f]] == (if f in StemFaces() then StemMaterial else CapMaterial)
  {
    forall f | 0 <= f < FaceCount
      ensures 0 <= g.obj.mesh.slots[f] < |g.obj.materials|
      ensures g.obj.materials[g.obj.mesh.slots[f]] == (if f in StemFaces() then StemMaterial else CapMaterial)
    {
      assert g.obj.mesh.slots[f] == g.obj.mesh.slots[..][f] == ReferenceSlots()[f];
      FacePartition();
    }
  }


  /**
    `generate_mushroom`: the stem thickness is drawn first and consumed by the
    topology operations (steps 1 to 4, opaque here); then the base is thickened,
    the stem slots assigned, the cap pattern built, the cap slots assigned, and
    the cap height, cap width and overall size drawn and applied, in that order.
   */
  method GenerateMushroom(rng: RandomStream, topology: real -> Topology) returns (g: Generated)
    requires rng.Valid() && rng.position + DrawCount <= |rng.draws|
    requires forall t :: WellShaped(topology(t))
    modifies rng
    ensures rng.Valid() && rng.position == old(rng.position) + DrawCount
    ensures fresh(g.obj) && fresh(g.obj.mesh) && fresh(g.obj.mesh.verts) && fresh(g.obj.mesh.slots) && fresh(g.capTree)
    ensures g.obj.name == "Mushroom"
    ensures ValidDraws(old(rng.Remaining())) && ProducedFrom(g, old(rng.Remaining()), topology)
  {
    ghost var u := rng.Remaining();
    RemainingDrawsValid(rng);
    ghost var start := rng.position;
    // step 3's draw, used by the inset that the topology stands for
    var stemThickness := rng.NextUniform(StemThicknessDraw);
    var t := topology(stemThickness);
    var mesh := new MushroomMesh(t);
    var obj := new MushroomObject(mesh);
    ghost var initialSlots := mesh.slots[..];
    DressStem(obj);
    var capTree, randomness, threshold, stop := DressCap(obj, rng);
    var capHeight, capWidth, size := ShapeCap(mesh, rng);
    var p := Parameters(stemThickness, randomness, threshold, stop.r, stop.g, stop.b, capHeight, capWidth, size);
    DrawsInOrder(rng.draws, start, u, p);
    SlotsAfterAssignment(initialSlots);
    g := Generated(obj, capTree, p);
  }

  /** The draws left in a valid stream lie in [0, 1). */
  lemma RemainingDrawsValid(rng: RandomStream)
    requires rng.Valid()
    ensures ValidDraws(rng.Remaining())
  {
    var u := rng.Remaining();
    forall k | 0 <= k < |u| ensures 0.0 <= u[k] < 1.0 {
      assert u[k] == rng.draws[rng.position + k];
    }
  }

  /** The values drawn one after the other from position `start` are the sampler's parameters for the remaining draws. */
  lemma DrawsInOrder(draws: seq<real>, start: nat, u: seq<real>, p: Parameters)
    requires start + DrawCount <= |draws| && u == draws[start..] && ValidDraws(u)
    requires p.stemThickness == Uniform(StemThicknessDraw, draws[start])
    requires p.voronoiRandomness == Uniform(VoronoiRandomnessDraw, draws[start + 1])
    requires p.threshold == Uniform(ThresholdDraw, draws[start + 2])
    requires p.red == Uniform(RedDraw, draws[start + 3])
    requires p.green == Uniform(GreenDraw, draws[start + 4])
    requires p.blue == Uniform(BlueDraw, draws[start + 5])
    requires p.capHeight == Uniform(CapHeightDraw, draws[start + 6])
    requires p.capWidth == Uniform(CapWidthDraw, draws[start + 7])
    requires p.overallScale == Uniform(OverallScaleDraw, draws[start + 8])
    ensures p == SampleParameters(u)
  {
    assert forall k :: 0 <= k < DrawCount ==> u[k] == draws[start + k];
  }

  /** Steps 5 and 6: thicken the base, append the stem material and give the stem faces its slot. */
  method DressStem(obj: MushroomObject)
    requires obj.mesh.Valid() && obj.materials == []
    modifies obj, obj.mesh.verts, obj.mesh.slots
    ensures obj.name == old(obj.name) && obj.materials == [StemMaterial]
    ensures obj.mesh.verts[..] == ThickenedBase(old(obj.mesh.verts[..]))
    ensures obj.mesh.slots[..] == AssignedAt(old(obj.mesh.slots[..]), StemFaces(), StemSlot)
  {
    obj.mesh.ThickenBase();
    var stemSlot := obj.AppendMaterial(StemMaterial);
    obj.mesh.AssignStemSlots();
  }

  /** Step 7: the cap material with its node tree and its five draws, appended second; the cap faces get its slot. */
  method DressCap(obj: MushroomObject, rng: RandomStream) returns (capTree: NodeTree, randomness: real, threshold: real, stop: Rgba)
    requires obj.mesh.Valid() && obj.materials == [StemMaterial]
    requires rng.Valid() && rng.position + 5 <= |rng.draws|
    modifies obj, obj.mesh.slots, rng
    ensures fresh(capTree) && rng.Valid() && rng.position == old(rng.position) + 5
    ensures obj.name == old(obj.name) && obj.materials == [StemMaterial, CapMaterial]
    ensures obj.mesh.slots[..] == AssignedAt(old(obj.mesh.slots[..]), CapFaces(), CapSlot)
    ensures randomness == Uniform(VoronoiRandomnessDraw, rng.draws[old(rng.position)])
    ensures threshold == Uniform(ThresholdDraw, rng.draws[old(rng.position) + 1])
    ensures stop == Rgba(Uniform(RedDraw, rng.draws[old(rng.position) + 2]),
                         Uniform(GreenDraw, rng.draws[old(rng.position) + 3]),
                         Uniform(BlueDraw, rng.draws[old(rng.position) + 4]), 1.0)
    ensures capTree.nodes == CapTreeNodes(randomness, threshold, stop) && capTree.links == CapTreeLinks()
  {
    capTree := new NodeTree.Default();
    assert FindKind(capTree.nodes, PrincipledBsdf) == Some(0);
    randomness, threshold, stop := BuildCapPattern(capTree, rng);
    var capSlot := obj.AppendMaterial(CapMaterial);
    obj.mesh.AssignCapSlots();
  }

  /** Steps 8 and 9 and the overall scaling: draw each factor and apply it before drawing the next. */
  method ShapeCap(mesh: MushroomMesh, rng: RandomStream) returns (capHeight: real, capWidth: real, size: real)
    requires mesh.Valid() && rng.Valid() && rng.position + 3 <= |rng.draws|
    modifies mesh.verts, rng
    ensures rng.Valid() && rng.position == old(rng.position) + 3
    ensures capHeight == Uniform(CapHeightDraw, rng.draws[old(rng.position)])
    ensures capWidth == Uniform(CapWidthDraw, rng.draws[old(rng.position) + 1])
    ensures size == Uniform(OverallScaleDraw, rng.draws[old(rng.position) + 2])
    ensures mesh.verts[..] == OverallScaled(CapWidthScaled(CapHeightScaled(old(mesh.verts[..]), capHeight), capWidth), size)
  {
    capHeight := rng.NextUniform(CapHeightDraw);
    mesh.ScaleCapHeight(capHeight);
    capWidth := rng.NextUniform(CapWidthDraw);
    mesh.ScaleCapWidth(capWidth);
    size := rng.NextUniform(OverallScaleDraw);
    mesh.ScaleOverall(size);
  }

  /** The species identifiers and labels of the operator's `SPECIES` property. */
  const SpeciesItems: seq<(string, string)> := [
    ("SP1", "Boletus"), ("SP2", "Crested Inkling"), ("SP3", "Drab Bonnet"), ("SP4", "Toadstool")]

  /** The name `execute` gives the object for a species identifier; `None` for an unmatched one. */
  function SpeciesName(species: string): Option<string> {
    if species == "SP1" then Some("Boletus")
    else if species == "SP2" then Some("Crested Inkling")
    else if species == "SP3" then Some("Drab Bonnet")
    else if species == "SP4" then Some("Toadstool")
    else None
  }

  /** Exactly the four identifiers of the property are matched, each named after its label. */
  lemma SpeciesNamesFollowItems(species: string)
    ensures SpeciesName(species).Some? <==> exists k :: 0 <= k < |SpeciesItems| && SpeciesItems[k].0 == species
    ensures forall k :: 0 <= k < |SpeciesItems| ==> SpeciesName(SpeciesItems[k].0) == Some(SpeciesItems[k].1)
  {
    if SpeciesName(species).Some? {
      var k := if species == "SP1" then 0 else if species == "SP2" then 1 else if species == "SP3" then 2 else 3;
      assert SpeciesItems[k].0 == species;
    }
  }

  /** Different species get different names. */
  lemma SpeciesNamesDistinct(a: string, b: string)
    requires SpeciesName(a).Some? && SpeciesName(b).Some? && a != b
    ensures SpeciesName(a) != SpeciesName(b)
  {
  }

  /**
    `execute`: seeds the stream (`seed` stands for the draws its seed selects),
    then, for a matched species, generates one mushroom and renames it; an
    unmatched species creates nothing.
   */
  method Execute(species: string, seed: seq<real>, topology: real -> Topology) returns (created: Option<Generated>)
    requires ValidDraws(seed) && |seed| >= DrawCount
    requires forall t :: WellShaped(topology(t))
    ensures created.Some? <==> SpeciesName(species).Some?
    ensures created.Some? ==> fresh(created.value.obj) && fresh(created.value.capTree)
    ensures created.Some? ==> created.value.obj.name == SpeciesName(species).value
    ensures created.Some? ==> ProducedFrom(created.value, seed, topology)
  {
    var rng := new RandomStream.Seeded(seed);
    assert rng.Remaining() == seed;
    var name := SpeciesName(species);
    if name.Some? {
      var g := GenerateMushroom(rng, topology);
      g.obj.name := name.value;
      created := Some(g);
    } else {
      created := None;
    }
  }
}
