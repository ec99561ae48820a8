/**
 * The particle network: a fixed number of particles drift over the canvas,
 * are pushed away by the pointer, bounce off the edges, and every pair
 * closer than 150 px is joined by a line whose opacity falls linearly with
 * the distance.
 *
 * `Math.sqrt` is not computed: a distance is given together with the squared
 * distance it is the root of (`IsRoot`), and the connection test compares
 * squared distances. The direction `atan2` yields is the given vector divided
 * by its length. Random draws are parameters.
 */
module CanvasEffects {

  import opened Common

  const ParticleCount := 100
  const ParticleSpeed: real := 0.5
  const ConnectionDistance: real := 150.0
  const MouseRadius: real := 200.0
  const ParticleSize: real := 2.0
  const LineOpacity: real := 0.15
  const Damping: real := 0.99
  const JitterScale: real := 0.1
  const PushScale: real := 0.5

  // ---------------------------------------------------------------------
  // One particle
  // ---------------------------------------------------------------------

  /** The four draws of `reset`: position and velocity. */
  datatype ResetDraw = ResetDraw(x: real, y: real, vx: real, vy: real)

  predicate ValidResetDraw(d: ResetDraw)
  {
    IsRoll(d.x) && IsRoll(d.y) && IsRoll(d.vx) && IsRoll(d.vy)
  }

  /** `(Math.random() - 0.5) * particleSpeed`: a start velocity component in [-0.25, 0.25). */
  function StartVelocity(roll: real): (v: real)
    requires IsRoll(roll)
    ensures -ParticleSpeed / 2.0 <= v < ParticleSpeed / 2.0
  {
    (roll - 0.5) * ParticleSpeed
  }

  /** `(Math.random() - 0.5) * 0.1`: the jitter added each frame, in [-0.05, 0.05). */
  function Jitter(roll: real): (j: real)
    requires IsRoll(roll)
    ensures -JitterScale / 2.0 <= j < JitterScale / 2.0
  {
    (roll - 0.5) * JitterScale
  }

  /** The push strength `(mouseRadius - distance) / mouseRadius` inside the radius: in (0, 1]. */
  function PointerForce(d: real): (f: real)
    requires 0.0 <= d < MouseRadius
    ensures 0.0 < f <= 1.0
    ensures d == 0.0 ==> f == 1.0
  {
    (MouseRadius - d) / MouseRadius
  }

  /** A nearer pointer pushes harder. */
  lemma PointerForceDecreases(d1: real, d2: real)
    requires 0.0 <= d1 < d2 < MouseRadius
    ensures PointerForce(d2) < PointerForce(d1)
  {
  }

  /**
   * `(cos(atan2(dy, dx)), sin(atan2(dy, dx)))` for a vector of length `d`:
   * the direction of (dx, dy), which scaled by the length gives (dx, dy)
   * back, and (1, 0) for the zero vector.
   */
  function Heading(dx: real, dy: real, d: real): (r: (real, real))
    requires IsRoot(d, dx * dx + dy * dy)
    ensures d > 0.0 ==> r.0 * d == dx && r.1 * d == dy
    ensures d == 0.0 ==> r == (1.0, 0.0)
  {
    if d == 0.0 then (1.0, 0.0) else (dx / d, dy / d)
  }

  /**
   * The velocity after the pointer step of `update`: unchanged unless the
   * pointer is present and nearer than 200 px. Otherwise the change is
   * parallel to the offset (dx, dy) to the pointer, points away from it and
   * has length `PointerForce(d) * 0.5`; on the pointer itself `atan2(0, 0)`
   * is 0, so the push is straight along -x.
   */
  function PushedVelocity(x: real, y: real, vx: real, vy: real, m: Pointer, d: real): (r: (real, real))
    requires PointerDistance(m, x, y, d)
    ensures !Present(m) || d >= MouseRadius ==> r == (vx, vy)
    ensures Present(m) && d == 0.0 ==> r == (vx - PushScale, vy)
    ensures Present(m) && 0.0 < d < MouseRadius ==>
      var dx, dy := m.x.value - x, m.y.value - y;
      && (r.0 - vx) * dx + (r.1 - vy) * dy == -(d * PointerForce(d) * PushScale)
      && (r.0 - vx) * dy == (r.1 - vy) * dx
    ensures Present(m) ==>
      var dx, dy := m.x.value - x, m.y.value - y;
      (r.0 - vx) * dx + (r.1 - vy) * dy <= 0.0
  {
    if Present(m) && d < MouseRadius then
      var dx, dy := m.x.value - x, m.y.value - y;
      var force := PointerForce(d);
      var h := Heading(dx, dy, d);
      PushAway(dx, dy, d, force);
      (vx - h.0 * force * PushScale, vy - h.1 * force * PushScale)
    else
      (vx, vy)
  }

  /**
   * The push `-(heading * force * 0.5)` never points towards the pointer;
   * off the pointer it has component `-d * force * 0.5` along the offset
   * (dx, dy) and is parallel to it.
   */
  lemma PushAway(dx: real, dy: real, d: real, force: real)
    requires IsRoot(d, dx * dx + dy * dy) && force > 0.0
    ensures var h := Heading(dx, dy, d);
      var px, py := -(h.0 * force * PushScale), -(h.1 * force * PushScale);
      && px * dx + py * dy <= 0.0
      && (d > 0.0 ==> px * dx + py * dy == -(d * force * PushScale) && px * dy == py * dx)
  {
    var h := Heading(dx, dy, d);
    var px, py := -(h.0 * force * PushScale), -(h.1 * force * PushScale);
    if d > 0.0 {
      assert h.0 * dx + h.1 * dy == d by {
        assert (h.0 * dx + h.1 * dy) * d == dx * dx + dy * dy;
      }
      assert px * dx + py * dy == -(force * PushScale) * (h.0 * dx + h.1 * dy);
      assert h.0 * dy == h.1 * dx by {
        assert (h.0 * dy) * d == dx * dy == (h.1 * dx) * d;
      }
      assert px * dy == -(force * PushScale) * (h.0 * dy);
      assert py * dx == -(force * PushScale) * (h.1 * dx);
      ProductPositive(d, force);
    }
  }

  /**
   * The boundary rule on one axis: a coordinate inside [0, limit] is left
   * alone; outside it is clamped to the nearer edge and the velocity
   * component is negated.
   */
  function Bounce(pos: real, vel: real, limit: real): (r: (real, real))
    requires limit >= 0.0
    ensures 0.0 <= r.0 <= limit
    ensures 0.0 <= pos <= limit ==> r == (pos, vel)
    ensures pos < 0.0 ==> r == (0.0, -vel)
    ensures pos > limit ==> r == (limit, -vel)
  {
    if pos < 0.0 || pos > limit then
      (Max(0.0, Min(limit, pos)), vel * -1.0)
    else
      (pos, vel)
  }

  /**
   * One `update` of a particle as a function of its old motion: the
   * particle always ends on the canvas, and one that is away from the
   * pointer and the edges just moves by its velocity, which is then damped
   * and jittered.
   */
  function Step(m: Motion, mouse: Pointer, d: real, jitterX: real, jitterY: real, width: nat, height: nat): (r: Motion)
    requires PointerDistance(mouse, m.x, m.y, d) && IsRoll(jitterX) && IsRoll(jitterY)
    ensures 0.0 <= r.x <= width as real && 0.0 <= r.y <= height as real
    ensures (!Present(mouse) || d >= MouseRadius) && 0.0 <= m.x + m.vx <= width as real ==>
      r.x == m.x + m.vx && r.vx == m.vx * Damping + Jitter(jitterX)
    ensures (!Present(mouse) || d >= MouseRadius) && 0.0 <= m.y + m.vy <= height as real ==>
      r.y == m.y + m.vy && r.vy == m.vy * Damping + Jitter(jitterY)
  {
    var v := PushedVelocity(m.x, m.y, m.vx, m.vy, mouse, d);
    var alongX := Bounce(m.x + v.0, v.0 * Damping + Jitter(jitterX), width as real);
    var alongY := Bounce(m.y + v.1, v.1 * Damping + Jitter(jitterY), height as real);
    Motion(alongX.0, alongY.0, alongX.1, alongY.1)
  }

  /** A particle of the network; the canvas size is passed to the operations that read it. */
  class Particle {
    var x: real
    var y: real
    var vx: real
    var vy: real
    var radius: real

    function State(): Motion
      reads this
    {
      Motion(x, y, vx, vy)
    }

    /**
     * `new Particle(canvas)`: `reset` draws a position and a velocity, then
     * the constructor draws the position once more.
     */
    constructor (width: nat, height: nat, draw: ResetDraw, xRoll: real, yRoll: real)
      requires ValidResetDraw(draw) && IsRoll(xRoll) && IsRoll(yRoll)
      ensures x == Scale(xRoll, width) && y == Scale(yRoll, height)
      ensures vx == StartVelocity(draw.vx) && vy == StartVelocity(draw.vy)
      ensures radius == ParticleSize
      ensures 0.0 <= x <= width as real && 0.0 <= y <= height as real
    {
      new;
      Reset(width, height, draw);
      x := Scale(xRoll, width);
      y := Scale(yRoll, height);
    }

    method Reset(width: nat, height: nat, draw: ResetDraw)
      requires ValidResetDraw(draw)
      modifies this
      ensures x == Scale(draw.x, width) && y == Scale(draw.y, height)
      ensures vx == StartVelocity(draw.vx) && vy == StartVelocity(draw.vy)
      ensures radius == ParticleSize
    {
      x := Scale(draw.x, width);
      y := Scale(draw.y, height);
      vx := (draw.vx - 0.5) * ParticleSpeed;
      vy := (draw.vy - 0.5) * ParticleSpeed;
      radius := ParticleSize;
    }

    /** The pointer section of `update`: only the velocity changes. */
    method Repel(mouse: Pointer, d: real)
      requires PointerDistance(mouse, x, y, d)
      modifies this
      ensures (vx, vy) == PushedVelocity(old(x), old(y), old(vx), old(vy), mouse, d)
      ensures x == old(x) && y == old(y) && radius == old(radius)
    {
      ghost var v := PushedVelocity(x, y, vx, vy, mouse, d);
      if Truthy(mouse.x) && Truthy(mouse.y) {
        var dx := mouse.x.value - x;
        var dy := mouse.y.value - y;
        var distance := d;
        if distance < MouseRadius {
          var force := (MouseRadius - distance) / MouseRadius;
          var heading := Heading(dx, dy, distance);
          assert force == PointerForce(d);
          vx := vx - heading.0 * force * PushScale;
          vy := vy - heading.1 * force * PushScale;
          assert vx == v.0;
          assert vy == v.1;
        }
      }
    }

    /**
     * `update(mouse)`. In order: the pointer push; the position advances by
     * that (undamped) velocity; the velocity is damped by 0.99; jitter is
     * added; the bounce flips the velocity and clamps an out-of-range
     * coordinate. `d` is the distance to the pointer, `jitterX`/`jitterY`
     * the two draws of the jitter.
     */
    method Update(mouse: Pointer, d: real, jitterX: real, jitterY: real, width: nat, height: nat)
      requires PointerDistance(mouse, x, y, d)
      requires IsRoll(jitterX) && IsRoll(jitterY)
      modifies this
      ensures State() == Step(old(State()), mouse, d, jitterX, jitterY, width, height)
      ensures radius == old(radius)
    {
      ghost var v := PushedVelocity(x, y, vx, vy, mouse, d);
      Repel(mouse, d);

      x := x + vx;
      y := y + vy;

      vx := vx * Damping;
      vy := vy * Damping;

      vx := vx + (jitterX - 0.5) * JitterScale;
      vy := vy + (jitterY - 0.5) * JitterScale;
      ghost var bounceX := Bounce(x, vx, width as real);
      ghost var bounceY := Bounce(y, vy, height as real);
      assert x == old(x) + v.0 && vx == v.0 * Damping + Jitter(jitterX);
      assert y == old(y) + v.1 && vy == v.1 * Damping + Jitter(jitterY);

      if x < 0.0 || x > width as real {
        vx := vx * -1.0;
        x := Max(0.0, Min(width as real, x));
      }
      if y < 0.0 || y > height as real {
        vy := vy * -1.0;
        y := Max(0.0, Min(height as real, y));
      }
      assert (x, vx) == bounceX && (y, vy) == bounceY;
    }
  }

  // ---------------------------------------------------------------------
  // Connections
  // ---------------------------------------------------------------------

  /** `distance < connectionDistance`, compared on squares. */
  predicate Linked(p: Point, q: Point)
  {
    SqDist(p, q) < ConnectionDistance * ConnectionDistance
  }

  /** The squared-distance test agrees with the distance test of the source. */
  lemma LinkedIffNear(p: Point, q: Point, d: real)
    requires IsRoot(d, SqDist(p, q))
    ensures Linked(p, q) <==> d < ConnectionDistance
  {
    RootBelowIff(d, SqDist(p, q), ConnectionDistance);
  }

  /**
   * `(1 - distance / connectionDistance) * lineOpacity`, taken over the
   * closed range [0, 150]: lines are drawn only below 150 px, where it is
   * positive, and it would reach 0 exactly at the threshold.
   */
  function LineOpacityAt(d: real): (o: real)
    requires 0.0 <= d <= ConnectionDistance
    ensures 0.0 <= o <= LineOpacity
    ensures d < ConnectionDistance ==> 0.0 < o
    ensures d == 0.0 ==> o == LineOpacity
    ensures d == ConnectionDistance ==> o == 0.0
  {
    (1.0 - d / ConnectionDistance) * LineOpacity
  }

  /** Opacity falls strictly as the distance grows, from 0.15 down to 0 at the threshold. */
  lemma LineOpacityFalls(d1: real, d2: real)
    requires 0.0 <= d1 < d2 <= ConnectionDistance
    ensures LineOpacityAt(d2) < LineOpacityAt(d1)
  {
  }

  /** The links (i, k) for i < k < upto, in order of k. */
  function RowLinks(pts: seq<Point>, i: nat, upto: nat): seq<Link>
    requires i < |pts| && upto <= |pts|
  {
    if upto <= i + 1 then []
    else RowLinks(pts, i, upto - 1) + (if Linked(pts[i], pts[upto - 1]) then [Link(i, upto - 1)] else [])
  }

  /** The links drawn by the first `rows` iterations of the outer loop. */
  function LinksUpTo(pts: seq<Point>, rows: nat): seq<Link>
    requires rows <= |pts|
  {
    if rows == 0 then []
    else LinksUpTo(pts, rows - 1) + RowLinks(pts, rows - 1, |pts|)
  }

  predicate LinkBefore(a: Link, b: Link)
  {
    a.i < b.i || (a.i == b.i && a.j < b.j)
  }

  predicate StrictlyOrdered(links: seq<Link>)
  {
    forall p, q :: 0 <= p < q < |links| ==> LinkBefore(links[p], links[q])
  }

  lemma {:induction false} RowLinksSpec(pts: seq<Point>, i: nat, upto: nat)
    requires i < |pts| && upto <= |pts|
    ensures forall l :: l in RowLinks(pts, i, upto) <==> l.i == i && i < l.j < upto && Linked(pts[i], pts[l.j])
    ensures StrictlyOrdered(RowLinks(pts, i, upto))
  {
    if upto > i + 1 {
      RowLinksSpec(pts, i, upto - 1);
    }
  }

  lemma {:induction false} LinksUpToSpec(pts: seq<Point>, rows: nat)
    requires rows <= |pts|
    ensures forall l :: l in LinksUpTo(pts, rows) <==>
      l.i < rows && l.i < l.j < |pts| && Linked(pts[l.i], pts[l.j])
    ensures StrictlyOrdered(LinksUpTo(pts, rows))
  {
    if rows > 0 {
      LinksUpToSpec(pts, rows - 1);
      RowLinksSpec(pts, rows - 1, |pts|);
      var a, b := LinksUpTo(pts, rows - 1), RowLinks(pts, rows - 1, |pts|);
      forall p, q | 0 <= p < q < |a + b|
        ensures LinkBefore((a + b)[p], (a + b)[q])
      {
        if q < |a| {
        } else if p >= |a| {
          assert (a + b)[p] == b[p - |a|] && (a + b)[q] == b[q - |a|];
        } else {
          assert (a + b)[p] in a && (a + b)[q] in b;
        }
      }
    }
  }

  /**
   * `connectParticles` draws exactly the pairs i < j closer than 150 px,
   * each unordered pair once, in the order of the nested loops.
   */
  lemma AllPairsLinkedOnce(pts: seq<Point>)
    ensures forall i: nat, j: nat :: Link(i, j) in LinksUpTo(pts, |pts|) <==> i < j < |pts| && Linked(pts[i], pts[j])
    ensures StrictlyOrdered(LinksUpTo(pts, |pts|))
    ensures forall p, q :: 0 <= p < q < |LinksUpTo(pts, |pts|)| ==> LinksUpTo(pts, |pts|)[p] != LinksUpTo(pts, |pts|)[q]
  {
    LinksUpToSpec(pts, |pts|);
  }

  // ---------------------------------------------------------------------
  // The network
  // ---------------------------------------------------------------------

  /** The draws behind one `new Particle(canvas)`. */
  datatype ParticleDraws = ParticleDraws(reset: ResetDraw, x: real, y: real)

  predicate ValidParticleDraws(draws: seq<ParticleDraws>)
  {
    && |draws| == ParticleCount
    && forall k :: 0 <= k < |draws| ==> ValidResetDraw(draws[k].reset) && IsRoll(draws[k].x) && IsRoll(draws[k].y)
  }

  ghost function Positions(ps: seq<Particle>): (pts: seq<Point>)
    reads ps
    ensures |pts| == |ps|
    ensures forall k :: 0 <= k < |ps| ==> pts[k] == Point(ps[k].x, ps[k].y)
  {
    seq(|ps|, k requires 0 <= k < |ps| reads ps => Point(ps[k].x, ps[k].y))
  }

  /** `ParticleNetwork`: the canvas size, the particle list and the shared pointer record. */
  class ParticleNetwork {
    var width: nat
    var height: nat
    var particles: seq<Particle>
    var mouse: Pointer

    ghost predicate Valid()
      reads this, particles
    {
      && Distinct(particles)
      && (forall k :: 0 <= k < |particles| ==>
            0.0 <= particles[k].x <= width as real && 0.0 <= particles[k].y <= height as real)
    }

    /** `init`: size the canvas to the viewport and create the particles; no pointer yet. */
    constructor (width: nat, height: nat, draws: seq<ParticleDraws>)
      requires ValidParticleDraws(draws)
      ensures Valid() && |particles| == ParticleCount && mouse == NoPointer
      ensures this.width == width && this.height == height
    {
      this.width := width;
      this.height := height;
      particles := [];
      mouse := NoPointer;
      new;
      CreateParticles(draws);
    }

    /**
     * `createParticles`: the list is replaced by exactly 100 new particles
     * placed by the draws.
     */
    method CreateParticles(draws: seq<ParticleDraws>)
      requires ValidParticleDraws(draws)
      modifies this
      ensures Valid() && |particles| == ParticleCount
      ensures forall k :: 0 <= k < ParticleCount ==>
        && fresh(particles[k])
        && particles[k].x == draws[k].x * width as real
        && particles[k].y == draws[k].y * height as real
        && particles[k].vx == StartVelocity(draws[k].reset.vx)
        && particles[k].vy == StartVelocity(draws[k].reset.vy)
        && particles[k].radius == ParticleSize
      ensures width == old(width) && height == old(height) && mouse == old(mouse)
    {
      particles := [];
      for i := 0 to ParticleCount
        invariant |particles| == i
        invariant forall p, q :: 0 <= p < q < i ==> particles[p] != particles[q]
        invariant forall k :: 0 <= k < i ==>
          && fresh(particles[k])
          && particles[k].x == draws[k].x * width as real
          && particles[k].y == draws[k].y * height as real
          && particles[k].vx == StartVelocity(draws[k].reset.vx)
          && particles[k].vy == StartVelocity(draws[k].reset.vy)
          && particles[k].radius == ParticleSize
          && 0.0 <= particles[k].x <= width as real && 0.0 <= particles[k].y <= height as real
        invariant width == old(width) && height == old(height) && mouse == old(mouse)
      {
        var p := new Particle(width, height, draws[i].reset, draws[i].x, draws[i].y);
        particles := particles + [p];
      }
    }

    /** The `resize` listener: the canvas takes the viewport size and the particles are rebuilt. */
    method Resize(innerWidth: nat, innerHeight: nat, draws: seq<ParticleDraws>)
      requires ValidParticleDraws(draws)
      modifies this
      ensures Valid() && width == innerWidth && height == innerHeight
      ensures |particles| == ParticleCount && forall k :: 0 <= k < ParticleCount ==> fresh(particles[k])
      ensures mouse == old(mouse)
    {
      width := innerWidth;
      height := innerHeight;
      CreateParticles(draws);
    }

    /**
     * The `forEach` of `animate` that updates every particle: each particle
     * takes one `Step` from its own old state (the others are not touched),
     * and all of them stay on the canvas. `distances[k]` is particle k's
     * distance to the pointer, `jitters[k]` its two jitter draws.
     */
    method UpdateParticles(distances: seq<real>, jitters: seq<(real, real)>)
      requires Valid()
      requires |distances| == |particles| && |jitters| == |particles|
      requires forall k :: 0 <= k < |particles| ==>
        && PointerDistance(mouse, particles[k].x, particles[k].y, distances[k])
        && IsRoll(jitters[k].0) && IsRoll(jitters[k].1)
      modifies particles
      ensures Valid()
      ensures forall k :: 0 <= k < |particles| ==>
        particles[k].State() == Step(old(particles[k].State()), mouse, distances[k], jitters[k].0, jitters[k].1, width, height)
    {
      for i := 0 to |particles|
        invariant Distinct(particles)
        invariant forall k :: 0 <= k < i ==>
          particles[k].State() == Step(old(particles[k].State()), mouse, distances[k], jitters[k].0, jitters[k].1, width, height)
        invariant forall k :: i <= k < |particles| ==> particles[k].State() == old(particles[k].State())
      {
        particles[i].Update(mouse, distances[i], jitters[i].0, jitters[i].1, width, height);
      }
    }

    /** `mousemove` and `touchmove`: the pointer record takes the event's client coordinates. */
    method PointerMove(clientX: real, clientY: real)
      modifies this
      ensures mouse == Pointer(Some(clientX), Some(clientY))
      ensures width == old(width) && height == old(height) && particles == old(particles)
    {
      mouse := Pointer(Some(clientX), Some(clientY));
    }

    /** `mouseleave` and `touchend`: both coordinates become null. */
    method PointerLeave()
      modifies this
      ensures mouse == NoPointer && !Present(mouse)
      ensures width == old(width) && height == old(height) && particles == old(particles)
    {
      mouse := NoPointer;
    }

    /**
     * `connectParticles`: the lines drawn are `LinksUpTo` over the particle
     * positions, so by `AllPairsLinkedOnce` every pair i < j is examined
     * once and linked iff the particles are closer than 150 px.
     */
    method ConnectParticles() returns (links: seq<Link>)
      ensures links == LinksUpTo(Positions(particles), |particles|)
    {
      ghost var pts := Positions(particles);
      links := [];
      var i := 0;
      while i < |particles|
        invariant 0 <= i <= |particles|
        invariant links == LinksUpTo(pts, i)
      {
        var row := ConnectFrom(i);
        links := links + row;
        i := i + 1;
      }
    }

    /** One pass of the inner loop of `connectParticles`: the partners j > i of particle i. */
    method ConnectFrom(i: nat) returns (row: seq<Link>)
      requires i < |particles|
      ensures row == RowLinks(Positions(particles), i, |particles|)
    {
      ghost var pts := Positions(particles);
      row := [];
      var j := i + 1;
      while j < |particles|
        invariant i + 1 <= j <= |particles|
        invariant row == RowLinks(pts, i, j)
      {
        var p := Point(particles[i].x, particles[i].y);
        var q := Point(particles[j].x, particles[j].y);
        assert p == pts[i] && q == pts[j];
        if Linked(p, q) {
          row := row + [Link(i, j)];
        }
        j := j + 1;
      }
    }
  }
}
