/**
 * Particles: the decorative firefly background. At mount it generates one
 * batch of particles, sized by the viewport width, with every attribute an
 * affine image of a fresh random draw. The random source is injected as a
 * sequence of draws in [0, 1).
 */
module Particles {

  /** One decorative point: percentage position, pixel size, seconds, opacity. */
  datatype Particle = Particle(
    id: nat,
    x: real,
    y: real,
    size: real,
    duration: real,
    delay: real,
    opacity: real)

  /** Viewports narrower than this get the smaller batch. */
  const MobileBreakpoint: int := 768
  const MobileCount: nat := 20
  const DesktopCount: nat := 35

  /** Each particle consumes this many draws: x, y, size, duration, delay, opacity. */
  const DrawsPerParticle: nat := 6

  /** A value `Math.random` can return. */
  predicate IsDraw(r: real) { 0.0 <= r < 1.0 }

  predicate AllDraws(draws: seq<real>) { forall k :: 0 <= k < |draws| ==> IsDraw(draws[k]) }

  /** The attribute ranges a particle built from draws in [0, 1) lies in. */
  predicate InRange(p: Particle)
  {
    && 0.0 <= p.x < 100.0
    && 0.0 <= p.y < 100.0
    && 2.0 <= p.size < 6.0
    && 6.0 <= p.duration < 14.0
    && 0.0 <= p.delay < 5.0
    && 0.2 <= p.opacity < 0.8
  }

  /** How many particles a viewport of the given width gets. */
  function BatchSize(innerWidth: int): (n: nat)
    ensures n == MobileCount || n == DesktopCount
    ensures n == MobileCount <==> innerWidth < MobileBreakpoint
  {
    if innerWidth < MobileBreakpoint then MobileCount else DesktopCount
  }

  /** The 767/768 boundary of the batch size. */
  lemma BatchSizeBoundary()
    ensures BatchSize(767) == 20 && BatchSize(768) == 35
  {
  }

  /** Particle `id` built from its six draws, taken in field order. */
  function MakeParticle(id: nat, r: seq<real>): (p: Particle)
    requires |r| == DrawsPerParticle
    ensures p.id == id
    ensures AllDraws(r) ==> InRange(p)
  {
    Particle(
      id,
      r[0] * 100.0,
      r[1] * 100.0,
      r[2] * 4.0 + 2.0,
      r[3] * 8.0 + 6.0,
      r[4] * 5.0,
      r[5] * 0.6 + 0.2)
  }

  /** The draws particle `i` consumes: the i-th run of six. */
  function DrawsOf(draws: seq<real>, i: nat): (r: seq<real>)
    requires DrawsPerParticle * (i + 1) <= |draws|
    ensures |r| == DrawsPerParticle
    ensures forall k :: 0 <= k < DrawsPerParticle ==> r[k] == draws[DrawsPerParticle * i + k]
  {
    draws[DrawsPerParticle * i .. DrawsPerParticle * (i + 1)]
  }

  /** The batch that the given width and draws produce. */
  function Batch(innerWidth: int, draws: seq<real>): (b: seq<Particle>)
    requires DrawsPerParticle * BatchSize(innerWidth) <= |draws|
    ensures |b| == BatchSize(innerWidth)
    ensures forall i :: 0 <= i < |b| ==> b[i].id == i
  {
    seq(BatchSize(innerWidth), i requires 0 <= i < BatchSize(innerWidth) => MakeParticle(i, DrawsOf(draws, i)))
  }

  /**
   * A batch has exactly the chosen number of particles, numbered 0, 1, 2, ...
   * in order, and with draws in [0, 1) every attribute lies in its range.
   */
  lemma BatchShape(innerWidth: int, draws: seq<real>)
    requires DrawsPerParticle * BatchSize(innerWidth) <= |draws|
    ensures |Batch(innerWidth, draws)| == BatchSize(innerWidth)
    ensures forall i :: 0 <= i < |Batch(innerWidth, draws)| ==> Batch(innerWidth, draws)[i].id == i
    ensures AllDraws(draws) ==> forall p :: p in Batch(innerWidth, draws) ==> InRange(p)
  {
  }

  /** Ids are unique within a batch. */
  lemma BatchIdsUnique(innerWidth: int, draws: seq<real>, i: nat, j: nat)
    requires DrawsPerParticle * BatchSize(innerWidth) <= |draws|
    requires i < j < BatchSize(innerWidth)
    ensures Batch(innerWidth, draws)[i].id != Batch(innerWidth, draws)[j].id
  {
  }

  /**
   * `generateParticles`: reads `Math.random` six times per particle, in the
   * order x, y, size, duration, delay, opacity, and pushes the record.
   */
  method GenerateParticles(innerWidth: int, draws: seq<real>) returns (newParticles: seq<Particle>)
    requires DrawsPerParticle * BatchSize(innerWidth) <= |draws|
    ensures newParticles == Batch(innerWidth, draws)
    ensures |newParticles| == BatchSize(innerWidth)
    ensures forall i :: 0 <= i < |newParticles| ==> newParticles[i].id == i
    ensures AllDraws(draws) ==> forall p :: p in newParticles ==> InRange(p)
  {
    newParticles := [];
    var count := if innerWidth < MobileBreakpoint then MobileCount else DesktopCount;
    var next := 0;
    for i := 0 to count
      invariant next == DrawsPerParticle * i
      invariant |newParticles| == i
      invariant forall j :: 0 <= j < i ==> newParticles[j] == MakeParticle(j, DrawsOf(draws, j))
    {
      var x := draws[next] * 100.0;
      var y := draws[next + 1] * 100.0;
      var size := draws[next + 2] * 4.0 + 2.0;
      var duration := draws[next + 3] * 8.0 + 6.0;
      var delay := draws[next + 4] * 5.0;
      var opacity := draws[next + 5] * 0.6 + 0.2;
      next := next + DrawsPerParticle;
      newParticles := newParticles + [Particle(i, x, y, size, duration, delay, opacity)];
    }
    BatchShape(innerWidth, draws);
  }

  /** The component's `particles` state cell. */
  class ParticleField {
    var particles: seq<Particle>

    /** Before generation the list is empty. */
    constructor ()
      ensures particles == []
    {
      particles := [];
    }

    /** The mount effect: generate one batch and store it. */
    method Mount(innerWidth: int, draws: seq<real>)
      requires DrawsPerParticle * BatchSize(innerWidth) <= |draws|
      modifies this
      ensures particles == Batch(innerWidth, draws)
    {
      var newParticles := GenerateParticles(innerWidth, draws);
      particles := newParticles;
    }
  }
}
