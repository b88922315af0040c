/**
  The cap material's node tree: texture coordinates feed a mapping, the mapping a
  Voronoi texture, the texture a LESS_THAN math node, that a color ramp, and the
  ramp the Principled BSDF's base color. The tree is only built here; evaluating
  it is Blender's business.
 */
module CapShader {
  import opened Wrappers
  import opened Sampler

  datatype Rgba = Rgba(r: real, g: real, b: real, a: real)

  /** The node types of `nodes.new(...)`, plus the two nodes a material's tree starts with. */
  datatype NodeKind =
    | TexCoord        // ShaderNodeTexCoord
    | Mapping         // ShaderNodeMapping
    | TexVoronoi      // ShaderNodeTexVoronoi
    | Math            // ShaderNodeMath
    | ValToRgb        // ShaderNodeValToRGB, the color ramp
    | PrincipledBsdf
    | MaterialOutput

  /**
    A node with the settings the generator gives it: the default values of the
    input sockets it sets (by socket index), the math operation and the color of
    the ramp's first stop. Whatever is not recorded keeps Blender's default.
   */
  datatype Node = Node(kind: NodeKind, inputs: map<nat, real>, operation: Option<string>, firstStop: Option<Rgba>)

  /** `links.new(from.outputs[fromSocket], to.inputs[toSocket])`. */
  datatype Link = Link(fromNode: nat, fromSocket: nat, toNode: nat, toSocket: nat)

  /** Socket indices and values the source hard-codes. */
  const ObjectOutput: nat := 3
  const VoronoiScaleInput: nat := 2
  const VoronoiRandomnessInput: nat := 5
  const MathSecondInput: nat := 1
  const VoronoiScale: real := 60.0
  const LessThan: string := "LESS_THAN"

  /** A node fresh from `nodes.new`, with nothing set. */
  function NewNode(kind: NodeKind): Node {
    Node(kind, map[], None, None)
  }

  /** The tree of a material once `use_nodes` is switched on: a Principled BSDF wired to the output. */
  function DefaultNodes(): seq<Node> {
    [NewNode(PrincipledBsdf), NewNode(MaterialOutput)]
  }

  function DefaultLinks(): seq<Link> {
    [Link(0, 0, 1, 0)]
  }

  /** The five nodes the cap material adds, in creation order, with the settings the source gives them. */
  function CapNodes(randomness: real, threshold: real, stop: Rgba): (r: seq<Node>)
    ensures |r| == 5
    ensures forall k :: 0 <= k < |r| ==> r[k].kind != PrincipledBsdf && r[k].kind != MaterialOutput
  {
    [ NewNode(TexCoord),
      NewNode(Mapping),
      Node(TexVoronoi, map[VoronoiScaleInput := VoronoiScale, VoronoiRandomnessInput := randomness], None, None),
      Node(Math, map[MathSecondInput := threshold], Some(LessThan), None),
      Node(ValToRgb, map[], None, Some(stop)) ]
  }

  /** The five links the cap material adds, for nodes created from index `base` on and the BSDF at `bsdf`. */
  function CapLinks(base: nat, bsdf: nat): (r: seq<Link>)
    ensures |r| == 5 && r[0].fromNode == base && r[4].toNode == bsdf
    ensures forall k :: 0 <= k < 4 ==> r[k].toNode == r[k + 1].fromNode
    ensures forall k :: 0 <= k < |r| ==> r[k].toSocket == 0
  {
    [ Link(base, ObjectOutput, base + 1, 0),
      Link(base + 1, 0, base + 2, 0),
      Link(base + 2, 0, base + 3, 0),
      Link(base + 3, 0, base + 4, 0),
      Link(base + 4, 0, bsdf, 0) ]
  }

  /** The first node of the given kind, as `nodes["Principled BSDF"]` finds the default BSDF by name. */
  function FindKind(nodes: seq<Node>, kind: NodeKind): (r: Option<nat>)
    ensures r.Some? ==> r.value < |nodes| && nodes[r.value].kind == kind
    ensures r.Some? ==> forall j :: 0 <= j < r.value ==> nodes[j].kind != kind
    ensures r.None? <==> forall j :: 0 <= j < |nodes| ==> nodes[j].kind != kind
  {
    if nodes == [] then None
    else if nodes[0].kind == kind then Some(0)
    else match FindKind(nodes[1..], kind)
      case None => None
      case Some(i) => Some(i + 1)
  }

  /** Every link joins nodes that exist. */
  ghost predicate LinksWithin(nodes: seq<Node>, links: seq<Link>) {
    forall k :: 0 <= k < |links| ==> links[k].fromNode < |nodes| && links[k].toNode < |nodes|
  }

  /** Each link starts at the node where the previous one ends. */
  ghost predicate IsChain(links: seq<Link>) {
    forall k :: 0 < k < |links| ==> links[k - 1].toNode == links[k].fromNode
  }

  ghost predicate Linked(links: seq<Link>, a: nat, b: nat) {
    exists l :: l in links && l.fromNode == a && l.toNode == b
  }

  /** A walk along links, node by node. */
  ghost predicate IsPath(links: seq<Link>, path: seq<nat>) {
    forall k :: 0 <= k < |path| - 1 ==> Linked(links, path[k], path[k + 1])
  }

  /** No walk of one link or more returns to where it started. */
  ghost predicate Acyclic(links: seq<Link>) {
    forall path :: IsPath(links, path) && |path| >= 2 ==> path[0] != path[|path| - 1]
  }

  /** Every link goes from a node of lower rank to one of higher rank. */
  ghost predicate RankedBy(links: seq<Link>, rank: seq<int>) {
    forall l :: l in links ==> l.fromNode < |rank| && l.toNode < |rank| && rank[l.fromNode] < rank[l.toNode]
  }

  /** Along a walk in a ranked graph the rank strictly increases. */
  lemma {:induction false} RankIncreasesAlongPath(links: seq<Link>, rank: seq<int>, path: seq<nat>)
    requires RankedBy(links, rank) && IsPath(links, path) && |path| >= 2
    ensures path[0] < |rank| && path[|path| - 1] < |rank| && rank[path[0]] < rank[path[|path| - 1]]
    decreases |path|
  {
    assert Linked(links, path[0], path[1]);
    if |path| > 2 {
      var rest := path[1..];
      assert IsPath(links, rest) by {
        forall k | 0 <= k < |rest| - 1 ensures Linked(links, rest[k], rest[k + 1]) {
          assert rest[k] == path[k + 1] && rest[k + 1] == path[k + 2];
        }
      }
      RankIncreasesAlongPath(links, rank, rest);
    }
  }

  /** A graph with a rank function has no cycle. */
  lemma RankedIsAcyclic(links: seq<Link>, rank: seq<int>)
    requires RankedBy(links, rank)
    ensures Acyclic(links)
  {
    forall path | IsPath(links, path) && |path| >= 2 ensures path[0] != path[|path| - 1] {
      RankIncreasesAlongPath(links, rank, path);
    }
  }

  /** The cap tree after construction: the two default nodes, then the five created ones. */
  function CapTreeNodes(randomness: real, threshold: real, stop: Rgba): seq<Node> {
    DefaultNodes() + CapNodes(randomness, threshold, stop)
  }

  function CapTreeLinks(): seq<Link> {
    DefaultLinks() + CapLinks(|DefaultNodes()|, 0)
  }

  /**
    The cap pattern is a chain of exactly five links, TexCoord output 3 into
    Mapping input 0, then Mapping, Voronoi, LESS_THAN math and color ramp, ending
    in the BSDF's input 0; Voronoi scale is 60 and the sampled values sit on the
    sockets the source names.
   */
  lemma CapPatternIsChain(randomness: real, threshold: real, stop: Rgba)
    ensures var nodes, added := CapTreeNodes(randomness, threshold, stop), CapLinks(|DefaultNodes()|, 0);
      && |added| == 5
      && IsChain(added)
      && LinksWithin(nodes, CapTreeLinks())
      && nodes[added[0].fromNode].kind == TexCoord && added[0].fromSocket == ObjectOutput
      && nodes[added[1].fromNode].kind == Mapping
      && nodes[added[2].fromNode].kind == TexVoronoi
      && nodes[added[3].fromNode].kind == Math
      && nodes[added[4].fromNode].kind == ValToRgb
      && nodes[added[4].toNode].kind == PrincipledBsdf
      && (forall k :: 0 <= k < 5 ==> added[k].toSocket == 0)
      && (forall k :: 1 <= k < 5 ==> added[k].fromSocket == 0)
      && nodes[added[2].fromNode].inputs == map[2 := 60.0, 5 := randomness]
      && nodes[added[3].fromNode].operation == Some("LESS_THAN")
      && nodes[added[3].fromNode].inputs == map[1 := threshold]
      && nodes[added[4].fromNode].firstStop == Some(stop)
  {
  }

  /** The whole cap tree, default link included, has no cycle. */
  lemma CapTreeAcyclic()
    ensures Acyclic(CapTreeLinks())
  {
    RankedIsAcyclic(CapTreeLinks(), [5, 6, 0, 1, 2, 3, 4]);
  }

  /** A material's node tree, edited by successive `nodes.new` and `links.new` calls. */
  class NodeTree {
    var nodes: seq<Node>
    var links: seq<Link>

    ghost predicate Valid()
      reads this
    {
      LinksWithin(nodes, links)
    }

    /** `use_nodes = True` on a new material. */
    constructor Default()
      ensures Valid() && nodes == DefaultNodes() && links == DefaultLinks()
    {
      nodes := DefaultNodes();
      links := DefaultLinks();
    }

    /** `nodes.new(kind)`: returns the new node's index. */
    method New(kind: NodeKind) returns (i: nat)
      requires Valid()
      modifies this
      ensures Valid() && nodes == old(nodes) + [NewNode(kind)] && links == old(links)
      ensures i == |old(nodes)|
    {
      i := |nodes|;
      nodes := nodes + [NewNode(kind)];
    }

    /** `node.inputs[socket].default_value = value`. */
    method SetInput(i: nat, socket: nat, value: real)
      requires Valid() && i < |nodes|
      modifies this
      ensures Valid() && links == old(links)
      ensures nodes == old(nodes)[i := old(nodes)[i].(inputs := old(nodes)[i].inputs[socket := value])]
    {
      nodes := nodes[i := nodes[i].(inputs := nodes[i].inputs[socket := value])];
    }

    /** `node.operation = op`. */
    method SetOperation(i: nat, op: string)
      requires Valid() && i < |nodes|
      modifies this
      ensures Valid() && links == old(links)
      ensures nodes == old(nodes)[i := old(nodes)[i].(operation := Some(op))]
    {
      nodes := nodes[i := nodes[i].(operation := Some(op))];
    }

    /** `node.color_ramp.elements[0].color = color`. */
    method SetFirstStop(i: nat, color: Rgba)
      requires Valid() && i < |nodes|
      modifies this
      ensures Valid() && links == old(links)
      ensures nodes == old(nodes)[i := old(nodes)[i].(firstStop := Some(color))]
    {
      nodes := nodes[i := nodes[i].(firstStop := Some(color))];
    }

    /** `links.new(nodes[from].outputs[out], nodes[to].inputs[input])`. */
    method Connect(from: nat, out: nat, to: nat, input: nat)
      requires Valid() && from < |nodes| && to < |nodes|
      modifies this
      ensures Valid() && nodes == old(nodes)
      ensures links == old(links) + [Link(from, out, to, input)]
    {
      links := links + [Link(from, out, to, input)];
    }
  }

  /**
    Step 7: creates the five pattern nodes, draws Voronoi randomness, the
    threshold and the red, green and blue of the ramp's first stop (five draws,
    in this order), and wires the chain into the existing Principled BSDF.
   */
  method BuildCapPattern(tree: NodeTree, rng: RandomStream) returns (randomness: real, threshold: real, stop: Rgba)
    requires tree.Valid() && FindKind(tree.nodes, PrincipledBsdf).Some?
    requires rng.Valid() && rng.position + 5 <= |rng.draws|
    modifies tree, rng
    ensures tree.Valid() && rng.Valid()
    ensures rng.position == old(rng.position) + 5
    ensures randomness == Uniform(VoronoiRandomnessDraw, rng.draws[old(rng.position)])
    ensures threshold == Uniform(ThresholdDraw, rng.draws[old(rng.position) + 1])
    ensures stop == Rgba(Uniform(RedDraw, rng.draws[old(rng.position) + 2]),
                         Uniform(GreenDraw, rng.draws[old(rng.position) + 3]),
                         Uniform(BlueDraw, rng.draws[old(rng.position) + 4]), 1.0)
    ensures tree.nodes == old(tree.nodes) + CapNodes(randomness, threshold, stop)
    ensures tree.links == old(tree.links) + CapLinks(|old(tree.nodes)|, FindKind(old(tree.nodes), PrincipledBsdf).value)
  {
    var base := |tree.nodes|;
    ghost var before := tree.nodes;
    randomness, threshold, stop := AddPatternNodes(tree, rng);
    FindKindInPrefix(before, CapNodes(randomness, threshold, stop), PrincipledBsdf);
    var bsdf := FindKind(tree.nodes, PrincipledBsdf).value;
    WirePattern(tree, base, bsdf);
  }

  /** Lines creating and setting the pattern nodes, with the five draws they make. */
  method AddPatternNodes(tree: NodeTree, rng: RandomStream) returns (randomness: real, threshold: real, stop: Rgba)
    requires tree.Valid()
    requires rng.Valid() && rng.position + 5 <= |rng.draws|
    modifies tree, rng
    ensures tree.Valid() && rng.Valid() && tree.links == old(tree.links)
    ensures rng.position == old(rng.position) + 5
    ensures randomness == Uniform(VoronoiRandomnessDraw, rng.draws[old(rng.position)])
    ensures threshold == Uniform(ThresholdDraw, rng.draws[old(rng.position) + 1])
    ensures stop == Rgba(Uniform(RedDraw, rng.draws[old(rng.position) + 2]),
                         Uniform(GreenDraw, rng.draws[old(rng.position) + 3]),
                         Uniform(BlueDraw, rng.draws[old(rng.position) + 4]), 1.0)
    ensures tree.nodes == old(tree.nodes) + CapNodes(randomness, threshold, stop)
  {
    var base := CreatePatternNodes(tree);
    randomness, threshold, stop := SetPatternValues(tree, base, rng);
  }

  /** The five `nodes.new` calls, the math node switched to LESS_THAN on creation; returns the first new index. */
  method CreatePatternNodes(tree: NodeTree) returns (base: nat)
    requires tree.Valid()
    modifies tree
    ensures tree.Valid() && tree.links == old(tree.links) && base == |old(tree.nodes)|
    ensures tree.nodes == old(tree.nodes) + [NewNode(TexCoord), NewNode(Mapping), NewNode(TexVoronoi),
      NewNode(Math).(operation := Some(LessThan)), NewNode(ValToRgb)]
  {
    base := tree.New(TexCoord);
    var mapping := tree.New(Mapping);
    var dots := tree.New(TexVoronoi);
    var math := tree.New(Math);
    tree.SetOperation(math, LessThan);
    var colors := tree.New(ValToRgb);
  }

  /** The Voronoi scale, then the five draws in source order, each stored on its socket as it is drawn. */
  method SetPatternValues(tree: NodeTree, base: nat, rng: RandomStream) returns (randomness: real, threshold: real, stop: Rgba)
    requires tree.Valid() && base + 5 == |tree.nodes|
    requires tree.nodes[base..] == [NewNode(TexCoord), NewNode(Mapping), NewNode(TexVoronoi),
      NewNode(Math).(operation := Some(LessThan)), NewNode(ValToRgb)]
    requires rng.Valid() && rng.position + 5 <= |rng.draws|
    modifies tree, rng
    ensures tree.Valid() && rng.Valid() && tree.links == old(tree.links)
    ensures rng.position == old(rng.position) + 5
    ensures randomness == Uniform(VoronoiRandomnessDraw, rng.draws[old(rng.position)])
    ensures threshold == Uniform(ThresholdDraw, rng.draws[old(rng.position) + 1])
    ensures stop == Rgba(Uniform(RedDraw, rng.draws[old(rng.position) + 2]),
                         Uniform(GreenDraw, rng.draws[old(rng.position) + 3]),
                         Uniform(BlueDraw, rng.draws[old(rng.position) + 4]), 1.0)
    ensures tree.nodes == old(tree.nodes)[..base] + CapNodes(randomness, threshold, stop)
  {
    var dots, math, colors := base + 2, base + 3, base + 4;
    tree.SetInput(dots, VoronoiScaleInput, VoronoiScale);
    randomness := rng.NextUniform(VoronoiRandomnessDraw);
    tree.SetInput(dots, VoronoiRandomnessInput, randomness);
    threshold := rng.NextUniform(ThresholdDraw);
    tree.SetInput(math, MathSecondInput, threshold);
    var red := rng.NextUniform(RedDraw);
    var green := rng.NextUniform(GreenDraw);
    var blue := rng.NextUniform(BlueDraw);
    stop := Rgba(red, green, blue, 1.0);
    tree.SetFirstStop(colors, stop);
  }

  /** Lines wiring the chain: five `links.new` calls, the last into the BSDF's base color. */
  method WirePattern(tree: NodeTree, base: nat, bsdf: nat)
    requires tree.Valid() && base + 5 <= |tree.nodes| && bsdf < |tree.nodes|
    modifies tree
    ensures tree.Valid() && tree.nodes == old(tree.nodes)
    ensures tree.links == old(tree.links) + CapLinks(base, bsdf)
  {
    tree.Connect(base, ObjectOutput, base + 1, 0);
    tree.Connect(base + 1, 0, base + 2, 0);
    tree.Connect(base + 2, 0, base + 3, 0);
    tree.Connect(base + 3, 0, base + 4, 0);
    tree.Connect(base + 4, 0, bsdf, 0);
  }

  /** Appending nodes does not change which node a lookup finds, once the prefix holds one. */
  lemma FindKindInPrefix(prefix: seq<Node>, more: seq<Node>, kind: NodeKind)
    requires FindKind(prefix, kind).Some?
    ensures FindKind(prefix + more, kind) == FindKind(prefix, kind)
  {
    var i := FindKind(prefix, kind).value;
    assert forall j :: 0 <= j <= i ==> (prefix + more)[j] == prefix[j];
  }
}
