/**
  The parameter sampler. `random.seed(SEED)` fixes one stream of draws; each
  `random.uniform(a, b)` consumes the next draw `u` in [0, 1) and yields
  `a + (b - a) * u`. The generator makes nine such calls in a fixed order.
 */
module Sampler {

  /** The two arguments `a` and `b` of one `random.uniform(a, b)` call. */
  datatype Interval = Interval(a: real, b: real)

  /** `random.uniform(i.a, i.b)` for the draw `u`. */
  function Uniform(i: Interval, u: real): (r: real)
    requires 0.0 <= u < 1.0
    ensures i.a < i.b ==> i.a <= r < i.b
    ensures i.a == i.b ==> r == i.a
    ensures i.b < i.a ==> i.b < r <= i.a
  {
    i.a + Stretch(i.b - i.a, u)
  }

  /** The draw `u` stretched over an interval of width `w`: the `(b - a) * u` of `random.uniform`. */
  function Stretch(w: real, u: real): (d: real)
    requires 0.0 <= u < 1.0
    ensures w > 0.0 ==> 0.0 <= d < w
    ensures w == 0.0 ==> d == 0.0
    ensures w < 0.0 ==> w < d <= 0.0
  {
    var rest := 1.0 - u;
    assert w * u + w * rest == w;
    assert w > 0.0 ==> w * rest > 0.0 && w * u >= 0.0;
    assert w < 0.0 ==> w * rest < 0.0 && w * u <= 0.0;
    w * u
  }

  /** Over a non-degenerate interval, different draws give different values. */
  lemma UniformInjective(i: Interval, u: real, v: real)
    requires 0.0 <= u < 1.0 && 0.0 <= v < 1.0
    requires i.a != i.b
    ensures Uniform(i, u) == Uniform(i, v) <==> u == v
  {
    var w := i.b - i.a;
    if Uniform(i, u) == Uniform(i, v) {
      assert w * u == w * v;
      assert w * (u - v) == 0.0;
    }
  }

  /** Every draw of the stream lies in [0, 1). */
  ghost predicate ValidDraws(u: seq<real>) {
    forall k :: 0 <= k < |u| ==> 0.0 <= u[k] < 1.0
  }

  /** The number of `random.uniform` calls one generation makes. */
  const DrawCount: nat := 9

  /** The interval of each of the nine `random.uniform` calls, in the order they are made. */
  const StemThicknessDraw := Interval(0.1, 0.3)
  const VoronoiRandomnessDraw := Interval(0.5, 1.0)
  const ThresholdDraw := Interval(0.2, 0.45)
  const RedDraw := Interval(1.0, 1.0)
  const GreenDraw := Interval(0.0, 0.05)
  const BlueDraw := Interval(0.0, 0.0)
  const CapHeightDraw := Interval(0.1, 1.0)
  const CapWidthDraw := Interval(0.9, 2.5)
  const OverallScaleDraw := Interval(0.045, 0.09)

  /** The values one generation samples, named after the variables of the source. */
  datatype Parameters = Parameters(
    stemThickness: real,
    voronoiRandomness: real,
    threshold: real,
    red: real,
    green: real,
    blue: real,
    capHeight: real,
    capWidth: real,
    overallScale: real)

  /** The nine draws, in the order the generator consumes them. */
  function SampleParameters(u: seq<real>): (p: Parameters)
    requires |u| >= DrawCount && ValidDraws(u)
    ensures InRange(p)
  {
    Parameters(
      stemThickness := Uniform(StemThicknessDraw, u[0]),
      voronoiRandomness := Uniform(VoronoiRandomnessDraw, u[1]),
      threshold := Uniform(ThresholdDraw, u[2]),
      red := Uniform(RedDraw, u[3]),
      green := Uniform(GreenDraw, u[4]),
      blue := Uniform(BlueDraw, u[5]),
      capHeight := Uniform(CapHeightDraw, u[6]),
      capWidth := Uniform(CapWidthDraw, u[7]),
      overallScale := Uniform(OverallScaleDraw, u[8]))
  }

  /** Each sampled value lies in the closed interval its `random.uniform` call names. */
  ghost predicate InRange(p: Parameters) {
    && 0.1 <= p.stemThickness <= 0.3
    && 0.5 <= p.voronoiRandomness <= 1.0
    && 0.2 <= p.threshold <= 0.45
    && p.red == 1.0
    && 0.0 <= p.green <= 0.05
    && p.blue == 0.0
    && 0.1 <= p.capHeight <= 1.0
    && 0.9 <= p.capWidth <= 2.5
    && 0.045 <= p.overallScale <= 0.09
  }

  /** The bounds of the k-th draw, as a table in draw order. */
  const DrawBounds: seq<Interval> := [
    StemThicknessDraw, VoronoiRandomnessDraw, ThresholdDraw,
    RedDraw, GreenDraw, BlueDraw,
    CapHeightDraw, CapWidthDraw, OverallScaleDraw]

  /** The parameter that the k-th draw sets. */
  function ParameterAt(p: Parameters, k: nat): real
    requires k < DrawCount
  {
    match k
    case 0 => p.stemThickness
    case 1 => p.voronoiRandomness
    case 2 => p.threshold
    case 3 => p.red
    case 4 => p.green
    case 5 => p.blue
    case 6 => p.capHeight
    case 7 => p.capWidth
    case _ => p.overallScale
  }

  /** The sampler agrees with the table: the k-th parameter is the k-th draw scaled to the k-th bounds. */
  lemma SampleFollowsDrawTable(u: seq<real>, k: nat)
    requires |u| >= DrawCount && ValidDraws(u)
    requires k < DrawCount
    ensures ParameterAt(SampleParameters(u), k) == Uniform(DrawBounds[k], u[k])
  {
  }

  /** Determinism: only the first nine draws matter, so streams that agree on them give identical parameters. */
  lemma FirstDrawsDetermine(u: seq<real>, v: seq<real>)
    requires |u| >= DrawCount && ValidDraws(u)
    requires |v| >= DrawCount && ValidDraws(v)
    requires u[..DrawCount] == v[..DrawCount]
    ensures SampleParameters(u) == SampleParameters(v)
  {
    forall k | 0 <= k < DrawCount ensures u[k] == v[k] {
      assert u[k] == u[..DrawCount][k];
    }
  }

  /** A parameter drawn from a non-degenerate interval differs whenever its draw differs. */
  lemma DistinctDrawsDistinctParameter(u: seq<real>, v: seq<real>, k: nat)
    requires |u| >= DrawCount && ValidDraws(u)
    requires |v| >= DrawCount && ValidDraws(v)
    requires k < DrawCount && DrawBounds[k].a != DrawBounds[k].b
    ensures ParameterAt(SampleParameters(u), k) == ParameterAt(SampleParameters(v), k) <==> u[k] == v[k]
  {
    SampleFollowsDrawTable(u, k);
    SampleFollowsDrawTable(v, k);
    UniformInjective(DrawBounds[k], u[k], v[k]);
  }

  /** The stream with the draws at positions `i` and `j` exchanged. */
  function Swapped(u: seq<real>, i: nat, j: nat): (w: seq<real>)
    requires i < |u| && j < |u|
    ensures |w| == |u|
  {
    u[i := u[j]][j := u[i]]
  }

  /**
    Determinism is relative to draw order: consuming the draws in another order
    (two positions exchanged) hands parameter `i` the draw meant for `j`, which
    changes it whenever the two draws differ and its interval is not a single point.
   */
  lemma DrawOrderMatters(u: seq<real>, i: nat, j: nat)
    requires |u| >= DrawCount && ValidDraws(u)
    requires i < DrawCount && j < DrawCount
    requires u[i] != u[j] && DrawBounds[i].a != DrawBounds[i].b
    ensures ValidDraws(Swapped(u, i, j))
    ensures ParameterAt(SampleParameters(Swapped(u, i, j)), i) == Uniform(DrawBounds[i], u[j])
    ensures ParameterAt(SampleParameters(Swapped(u, i, j)), i) != ParameterAt(SampleParameters(u), i)
  {
    var w := Swapped(u, i, j);
    assert w[i] == u[j];
    SampleFollowsDrawTable(w, i);
    DistinctDrawsDistinctParameter(w, u, i);
  }

  /**
    The global random stream after `random.seed(SEED)`: the seed selects the
    sequence of draws, and every `random.uniform` call advances the position.
   */
  class RandomStream {
    const draws: seq<real>
    var position: nat

    ghost predicate Valid()
      reads this
    {
      position <= |draws| && ValidDraws(draws)
    }

    /** The draws not yet consumed. */
    ghost function Remaining(): seq<real>
      reads this
      requires Valid()
    {
      draws[position..]
    }

    /** `random.seed(SEED)`, where `draws` is the stream that seed selects. */
    constructor Seeded(draws: seq<real>)
      requires ValidDraws(draws)
      ensures Valid() && this.draws == draws && position == 0
    {
      this.draws := draws;
      position := 0;
    }

    /** `random.uniform(i.a, i.b)`: consumes one draw. */
    method NextUniform(i: Interval) returns (r: real)
      requires Valid() && position < |draws|
      modifies this
      ensures Valid() && position == old(position) + 1
      ensures r == Uniform(i, draws[old(position)])
    {
      r := Uniform(i, draws[position]);
      position := position + 1;
    }
  }
}
