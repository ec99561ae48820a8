/**
 * The wave-and-constellation background: twinkling stars that drift away
 * from the pointer and wrap around the edges, lines between near stars
 * (at most four per star as the first end), and two short-lived kinds of
 * entity, shooting stars and lightning bolts, spawned under a cap and
 * pruned by an order-preserving filter.
 *
 * Random draws are parameters. `Math.sqrt` is replaced by a given distance
 * whose square is the squared distance; `cos`/`sin` are replaced by an
 * oracle `polar(angle, length)` giving the offset of a step of that length
 * in that direction.
 */
module WaveConstellation {

  import opened Common

  const StarCount := 250
  const StarMinSize: real := 1.0
  const StarMaxSize: real := 3.5
  const TwinkleSpeed: real := 0.02
  /** The twinkle turns round at opacity 1 and at this floor. */
  const TwinkleFloor: real := 0.3
  const ShootingStarChance: real := 0.0005
  const MaxShootingStars := 3
  const ConstellationDistance: real := 250.0
  const MaxConnections := 4
  const MouseRadius: real := 150.0
  const RepulsionForce: real := 0.3
  const StarDamping: real := 0.95
  const LightningChance: real := 0.002
  const MaxBolts := 2
  const BranchProbability: real := 0.3
  const SegmentLength: real := 15.0
  const MaxSegments := 30
  /** `Math.floor(maxSegments / 3)`. */
  const BranchSegments := 10
  /** Branches may start at every fifth segment of the main bolt. */
  const BranchStride := 5
  const BoltLife := 15
  /** `Math.PI` as a double. */
  const Pi: real := 3.141592653589793

  /** The `polar(angle, length)` oracle: `(cos(angle) * length, sin(angle) * length)`. */
  type Polar = (real, real) -> (real, real)

  // ---------------------------------------------------------------------
  // Stars
  // ---------------------------------------------------------------------

  /** The six draws of `Star.reset`. */
  datatype StarDraw = StarDraw(x: real, y: real, size: real, opacity: real, direction: real, speed: real)

  predicate ValidStarDraw(d: StarDraw)
  {
    IsRoll(d.x) && IsRoll(d.y) && IsRoll(d.size) && IsRoll(d.opacity) && IsRoll(d.direction) && IsRoll(d.speed)
  }

  /**
   * The twinkle step: opacity moves by one step in the current direction,
   * and the direction turns round exactly when the new opacity has reached
   * 1 or fallen to 0.3.
   */
  function Twinkle(opacity: real, direction: int, speed: real): (r: (real, int))
    requires direction == 1 || direction == -1
    ensures r.0 == opacity + speed * direction as real
    ensures r.1 == 1 || r.1 == -1
    ensures r.1 == -direction <==> r.0 >= 1.0 || r.0 <= TwinkleFloor
  {
    var o := opacity + speed * direction as real;
    if o >= 1.0 || o <= TwinkleFloor then (o, direction * -1) else (o, direction)
  }

  /**
   * The twinkle band: above 1 the opacity is falling, below 0.3 it is
   * rising, and it never leaves [0.3 - speed, 1 + speed].
   */
  predicate TwinkleBand(opacity: real, direction: int, speed: real)
  {
    && (direction == 1 || direction == -1)
    && (opacity > 1.0 ==> direction == -1)
    && (opacity < TwinkleFloor ==> direction == 1)
    && TwinkleFloor - speed <= opacity <= 1.0 + speed
  }

  /** Every twinkle step keeps a star inside its band. */
  lemma TwinkleStaysInBand(opacity: real, direction: int, speed: real)
    requires speed >= 0.0 && TwinkleBand(opacity, direction, speed)
    ensures TwinkleBand(Twinkle(opacity, direction, speed).0, Twinkle(opacity, direction, speed).1, speed)
  {
    var r := Twinkle(opacity, direction, speed);
    if direction == 1 {
      assert r.0 == opacity + speed;
    } else {
      assert r.0 == opacity - speed;
    }
  }

  /** A fresh star (opacity in [0.3, 1)) starts inside its band, whichever way it twinkles. */
  lemma FreshStarInBand(opacityRoll: real, direction: int, speed: real)
    requires IsRoll(opacityRoll) && (direction == 1 || direction == -1) && speed >= 0.0
    ensures TwinkleBand(TwinkleFloor + opacityRoll * 0.7, direction, speed)
  {
  }

  /** The push strength `(radius - distance) / radius` inside the 150 px radius: in (0, 1]. */
  function StarForce(d: real): (f: real)
    requires 0.0 <= d < MouseRadius
    ensures 0.0 < f <= 1.0
  {
    (MouseRadius - d) / MouseRadius
  }

  /**
   * The push of `Star.update` as written: `dx / distance` with `distance`
   * 0 is NaN in JavaScript, modelled as `None`; it is reached exactly when
   * the star sits on the pointer.
   */
  function StarPushAsWritten(dx: real, dy: real, d: real): (r: Option<(real, real)>)
    requires d >= 0.0
    ensures r.None? <==> d == 0.0
    ensures d >= MouseRadius ==> r == Some((0.0, 0.0))
    ensures 0.0 < d < MouseRadius ==>
      && r.Some?
      && r.value.0 * d == dx * StarForce(d) * RepulsionForce
      && r.value.1 * d == dy * StarForce(d) * RepulsionForce
  {
    if d < MouseRadius then
      if d == 0.0 then None
      else
        var force := StarForce(d);
        QuotientScaled(dx, d, force * RepulsionForce);
        QuotientScaled(dy, d, force * RepulsionForce);
        Some((dx / d * force * RepulsionForce, dy / d * force * RepulsionForce))
    else
      Some((0.0, 0.0))
  }

  /**
   * The push with the zero distance handled: a star on the pointer is not
   * pushed; elsewhere the push is the one written, along (dx, dy), away
   * from the pointer.
   */
  function StarPush(dx: real, dy: real, d: real): (r: (real, real))
    requires d >= 0.0
    ensures d == 0.0 || d >= MouseRadius ==> r == (0.0, 0.0)
    ensures d > 0.0 ==> StarPushAsWritten(dx, dy, d) == Some(r)
    ensures 0.0 < d < MouseRadius ==>
      && r.0 * d == dx * StarForce(d) * RepulsionForce
      && r.1 * d == dy * StarForce(d) * RepulsionForce
  {
    match StarPushAsWritten(dx, dy, d)
    case Some(p) => p
    case None => (0.0, 0.0)
  }

  /**
   * The pushed star moves away from the pointer: the push never has the
   * opposite sign to (dx, dy) on either axis, and inside the radius it has
   * exactly the sign of (dx, dy) on each axis.
   */
  lemma StarPushPointsAway(dx: real, dy: real, d: real)
    requires d >= 0.0
    ensures var p := StarPush(dx, dy, d);
      && (dx >= 0.0 ==> p.0 >= 0.0) && (dx <= 0.0 ==> p.0 <= 0.0)
      && (dy >= 0.0 ==> p.1 >= 0.0) && (dy <= 0.0 ==> p.1 <= 0.0)
    ensures var p := StarPush(dx, dy, d);
      0.0 < d < MouseRadius ==>
      && (dx > 0.0 ==> p.0 > 0.0) && (dx < 0.0 ==> p.0 < 0.0)
      && (dy > 0.0 ==> p.1 > 0.0) && (dy < 0.0 ==> p.1 < 0.0)
  {
    if 0.0 < d < MouseRadius {
      var p := StarPush(dx, dy, d);
      var k := StarForce(d) * RepulsionForce;
      ProductPositive(StarForce(d), RepulsionForce);
      ScaledSign(dx, k);
      ScaledSign(dy, k);
      SignOfQuotient(p.0, d, dx * k);
      SignOfQuotient(p.1, d, dy * k);
    }
  }

  /** `a / b * c` times `b` is `a * c`. */
  lemma QuotientScaled(a: real, b: real, c: real)
    requires b > 0.0
    ensures a / b * c * b == a * c
  {
    assert a / b * b == a;
    assert a / b * c * b == (a / b * b) * c;
  }

  /** A value whose product with a positive `d` is `q` has the sign of `q`. */
  lemma SignOfQuotient(p: real, d: real, q: real)
    requires d > 0.0 && p * d == q
    ensures q > 0.0 ==> p > 0.0
    ensures q < 0.0 ==> p < 0.0
    ensures q >= 0.0 ==> p >= 0.0
    ensures q <= 0.0 ==> p <= 0.0
  {
    if p > 0.0 {
      ProductPositive(p, d);
    } else if p < 0.0 {
      ProductPositive(-p, d);
    }
  }

  lemma ScaledSign(a: real, b: real)
    requires b > 0.0
    ensures a >= 0.0 ==> a * b >= 0.0
    ensures a <= 0.0 ==> a * b <= 0.0
  {
    if a > 0.0 {
      ProductPositive(a, b);
    } else if a < 0.0 {
      ProductPositive(-a, b);
    }
  }

  /**
   * The edge rule of `Star.update`: a coordinate below 0 jumps to the far
   * edge, one beyond the far edge jumps to 0, and one inside is kept.
   */
  function Wrap(v: real, limit: real): (r: real)
    requires limit >= 0.0
    ensures 0.0 <= r <= limit
    ensures 0.0 <= v <= limit ==> r == v
    ensures v < 0.0 ==> r == limit
    ensures v > limit ==> r == 0.0
  {
    var a := if v < 0.0 then limit else v;
    if a > limit then 0.0 else a
  }

  /**
   * The motion part of `Star.update`: the push (away from a present
   * pointer nearer than 150 px) is added to the velocity, the position
   * advances by that velocity, the velocity is damped by 0.95 afterwards,
   * and the position wraps.
   */
  function StarDrift(m: Motion, mouse: Pointer, d: real, width: nat, height: nat): (r: Motion)
    requires PointerDistance(mouse, m.x, m.y, d)
    ensures 0.0 <= r.x <= width as real && 0.0 <= r.y <= height as real
    ensures !Present(mouse) || d >= MouseRadius ==>
      && r.vx == m.vx * StarDamping && r.vy == m.vy * StarDamping
      && (0.0 <= m.x + m.vx <= width as real ==> r.x == m.x + m.vx)
      && (0.0 <= m.y + m.vy <= height as real ==> r.y == m.y + m.vy)
  {
    var push := if Present(mouse) then StarPush(m.x - mouse.x.value, m.y - mouse.y.value, d) else (0.0, 0.0);
    var vx, vy := m.vx + push.0, m.vy + push.1;
    Motion(Wrap(m.x + vx, width as real), Wrap(m.y + vy, height as real), vx * StarDamping, vy * StarDamping)
  }

  /** `baseSize * (0.8 + opacity * 0.2)`: the size pulses with the opacity. */
  function PulsedSize(baseSize: real, opacity: real): (s: real)
    requires baseSize > 0.0
    ensures opacity == 1.0 ==> s == baseSize
    ensures 0.0 <= opacity ==> s >= baseSize * 0.8
  {
    baseSize * (0.8 + opacity * 0.2)
  }

  /** A nearer twinkle peak gives a larger star. */
  lemma PulsedSizeGrows(baseSize: real, o1: real, o2: real)
    requires baseSize > 0.0 && o1 < o2
    ensures PulsedSize(baseSize, o1) < PulsedSize(baseSize, o2)
  {
    ProductPositive(baseSize, (o2 - o1) * 0.2);
    assert PulsedSize(baseSize, o2) - PulsedSize(baseSize, o1) == baseSize * ((o2 - o1) * 0.2);
  }

  class Star {
    var x: real
    var y: real
    var baseSize: real
    var size: real
    var opacity: real
    var twinkleDirection: int
    var twinkleSpeed: real
    var vx: real
    var vy: real

    function State(): Motion
      reads this
    {
      Motion(x, y, vx, vy)
    }

    /** Size, speed and twinkle are those a reset can produce, and the twinkle is inside its band. */
    ghost predicate Valid()
      reads this
    {
      && StarMinSize <= baseSize < StarMaxSize
      && TwinkleSpeed / 2.0 <= twinkleSpeed < TwinkleSpeed * 1.5
      && TwinkleBand(opacity, twinkleDirection, twinkleSpeed)
    }

    /** On the canvas, edges included. */
    ghost predicate Inside(width: nat, height: nat)
      reads this
    {
      0.0 <= x <= width as real && 0.0 <= y <= height as real
    }

    /** The twinkle part of the state: opacity and direction. */
    function Light(): (real, int)
      reads this
    {
      (opacity, twinkleDirection)
    }

    /**
     * The state one `update` produces from motion `m`, twinkle state `light`
     * and base size `base`: drifted, twinkled, the same base size, and the
     * size pulsed by the new opacity.
     */
    ghost predicate UpdatedFrom(m: Motion, light: (real, int), base: real, mouse: Pointer, d: real, width: nat, height: nat)
      reads this
    {
      && PointerDistance(mouse, m.x, m.y, d) && (light.1 == 1 || light.1 == -1)
      && State() == StarDrift(m, mouse, d, width, height)
      && Light() == Twinkle(light.0, light.1, twinkleSpeed)
      && base > 0.0 && baseSize == base && size == PulsedSize(base, opacity)
    }

    /** `new Star(canvas)`: `reset`, then a second draw of the position. */
    constructor (width: nat, height: nat, draw: StarDraw, xRoll: real, yRoll: real)
      requires ValidStarDraw(draw) && IsRoll(xRoll) && IsRoll(yRoll)
      ensures Valid()
      ensures x == Scale(xRoll, width) && y == Scale(yRoll, height)
      ensures vx == 0.0 && vy == 0.0 && size == baseSize
      ensures TwinkleFloor <= opacity < 1.0
    {
      new;
      Reset(width, height, draw);
      x := Scale(xRoll, width);
      y := Scale(yRoll, height);
    }

    /**
     * `reset`: a position on the canvas, a base size in [1, 3.5), an
     * opacity in [0.3, 1), a direction chosen by a coin, a twinkle speed in
     * [0.01, 0.03), and no velocity.
     */
    method Reset(width: nat, height: nat, draw: StarDraw)
      requires ValidStarDraw(draw)
      modifies this
      ensures Valid()
      ensures x == Scale(draw.x, width) && y == Scale(draw.y, height)
      ensures baseSize == StarMinSize + draw.size * (StarMaxSize - StarMinSize) && size == baseSize
      ensures opacity == TwinkleFloor + draw.opacity * 0.7 && TwinkleFloor <= opacity < 1.0
      ensures twinkleDirection == (if draw.direction > 0.5 then 1 else -1)
      ensures twinkleSpeed == TwinkleSpeed * (0.5 + draw.speed)
      ensures vx == 0.0 && vy == 0.0
    {
      x := Scale(draw.x, width);
      y := Scale(draw.y, height);
      baseSize := StarMinSize + draw.size * (StarMaxSize - StarMinSize);
      size := baseSize;
      opacity := 0.3 + draw.opacity * 0.7;
      twinkleDirection := if draw.direction > 0.5 then 1 else -1;
      twinkleSpeed := TwinkleSpeed * (0.5 + draw.speed);
      vx := 0.0;
      vy := 0.0;
      FreshStarInBand(draw.opacity, twinkleDirection, twinkleSpeed);
    }

    /** The twinkle section of `update`: only opacity and direction change. */
    method TwinkleStep()
      requires Valid()
      modifies this
      ensures Valid()
      ensures (opacity, twinkleDirection) == Twinkle(old(opacity), old(twinkleDirection), old(twinkleSpeed))
      ensures State() == old(State()) && baseSize == old(baseSize) && twinkleSpeed == old(twinkleSpeed)
    {
      TwinkleStaysInBand(opacity, twinkleDirection, twinkleSpeed);
      opacity := opacity + twinkleSpeed * twinkleDirection as real;
      if opacity >= 1.0 || opacity <= TwinkleFloor {
        twinkleDirection := twinkleDirection * -1;
      }
    }

    /** The pointer section of `update`: only the velocity changes. */
    method Repel(mouse: Pointer, d: real)
      requires PointerDistance(mouse, x, y, d)
      modifies this
      ensures var push := if Present(mouse) then StarPush(old(x) - mouse.x.value, old(y) - mouse.y.value, d) else (0.0, 0.0);
        vx == old(vx) + push.0 && vy == old(vy) + push.1
      ensures x == old(x) && y == old(y)
      ensures opacity == old(opacity) && twinkleDirection == old(twinkleDirection)
      ensures baseSize == old(baseSize) && twinkleSpeed == old(twinkleSpeed)
    {
      if Truthy(mouse.x) && Truthy(mouse.y) {
        var dx := x - mouse.x.value;
        var dy := y - mouse.y.value;
        var distance := d;
        if distance < MouseRadius && distance > 0.0 {
          var force := (MouseRadius - distance) / MouseRadius;
          assert force == StarForce(d);
          vx := vx + dx / distance * force * RepulsionForce;
          vy := vy + dy / distance * force * RepulsionForce;
        }
      }
    }

    /**
     * `update(mouse)`: the twinkle step, the drift (push, move, damp, wrap)
     * and the size pulse. The star stays on the canvas and inside its
     * twinkle band. `d` is the distance to the pointer. The push is the
     * corrected one, with no push for a star exactly on the pointer.
     */
    method Update(mouse: Pointer, d: real, width: nat, height: nat)
      requires Valid() && PointerDistance(mouse, x, y, d)
      modifies this
      ensures Valid()
      ensures (opacity, twinkleDirection) == Twinkle(old(opacity), old(twinkleDirection), old(twinkleSpeed))
      ensures State() == StarDrift(old(State()), mouse, d, width, height) && Inside(width, height)
      ensures size == PulsedSize(baseSize, opacity)
      ensures baseSize == old(baseSize) && twinkleSpeed == old(twinkleSpeed)
    {
      ghost var drift := StarDrift(State(), mouse, d, width, height);
      TwinkleStep();
      Repel(mouse, d);
      Move(width, height);
      size := baseSize * (0.8 + opacity * 0.2);
      assert State() == drift;
    }

    /** The movement section of `update`: advance, damp, and wrap around the edges. */
    method Move(width: nat, height: nat)
      modifies this
      ensures x == Wrap(old(x) + old(vx), width as real) && y == Wrap(old(y) + old(vy), height as real)
      ensures vx == old(vx) * StarDamping && vy == old(vy) * StarDamping
      ensures opacity == old(opacity) && twinkleDirection == old(twinkleDirection)
      ensures baseSize == old(baseSize) && twinkleSpeed == old(twinkleSpeed)
    {
      x := x + vx;
      y := y + vy;

      vx := vx * StarDamping;
      vy := vy * StarDamping;

      if x < 0.0 { x := width as real; }
      if x > width as real { x := 0.0; }
      if y < 0.0 { y := height as real; }
      if y > height as real { y := 0.0; }
    }
  }

  // ---------------------------------------------------------------------
  // Shooting stars
  // ---------------------------------------------------------------------

  /** The six draws of `ShootingStar.reset`. */
  datatype ShootingDraw = ShootingDraw(side: real, along: real, length: real, speed: real, angle: real, life: real)

  predicate ValidShootingDraw(d: ShootingDraw)
  {
    IsRoll(d.side) && IsRoll(d.along) && IsRoll(d.length) && IsRoll(d.speed) && IsRoll(d.angle) && IsRoll(d.life)
  }

  /** A shooting star's position, shape, velocity, age, life span and opacity. */
  datatype Flight = Flight(
    x: real, y: real, length: real, speed: real, angle: real,
    vx: real, vy: real, life: nat, maxLife: real, opacity: real)

  class ShootingStar {
    var x: real
    var y: real
    var length: real
    var speed: real
    var angle: real
    var vx: real
    var vy: real
    var opacity: real
    var life: nat
    var maxLife: real

    /** Younger than its life span. */
    predicate Alive()
      reads this
    {
      life as real < maxLife
    }

    /** The whole state of the star. */
    function State(): Flight
      reads this
    {
      Flight(x, y, length, speed, angle, vx, vy, life, maxLife, opacity)
    }

    /**
     * The state one `update` produces from `before`: one velocity step
     * further, one frame older, the same shape, velocity and life span,
     * and the opacity faded to `1 - life / maxLife`.
     */
    ghost predicate AgedFrom(before: Flight)
      reads this
    {
      && x == before.x + before.vx && y == before.y + before.vy
      && length == before.length && speed == before.speed && angle == before.angle
      && vx == before.vx && vy == before.vy
      && life == before.life + 1 && maxLife == before.maxLife
      && maxLife > 0.0 && opacity == 1.0 - life as real / maxLife
    }

    /** A life span a reset can produce, and still alive. */
    ghost predicate Valid()
      reads this
    {
      60.0 <= maxLife < 100.0 && Alive()
    }

    /** `new ShootingStar(canvas)`, that is `reset`. */
    constructor (width: nat, height: nat, draw: ShootingDraw, polar: Polar)
      requires ValidShootingDraw(draw)
      ensures Valid() && life == 0 && opacity == 1.0
      ensures (y == 0.0 && 0.0 <= x <= width as real) || (x == 0.0 && 0.0 <= y <= height as real / 2.0)
      ensures 60.0 <= length < 100.0 && 3.0 <= speed < 6.0
      ensures Pi / 4.0 - 0.25 <= angle < Pi / 4.0 + 0.25
      ensures (vx, vy) == polar(angle, speed)
    {
      new;
      Reset(width, height, draw, polar);
    }

    /**
     * `reset`: the star enters on the top edge or on the upper half of the
     * left edge, heads down and right at 45 degrees give or take 0.25
     * radians, and will live between 60 and 100 frames.
     */
    method Reset(width: nat, height: nat, draw: ShootingDraw, polar: Polar)
      requires ValidShootingDraw(draw)
      modifies this
      ensures Valid() && life == 0 && opacity == 1.0
      ensures draw.side > 0.5 ==> y == 0.0 && x == Scale(draw.along, width)
      ensures draw.side <= 0.5 ==> x == 0.0 && y == Scale(draw.along, height) / 2.0
      ensures (y == 0.0 && 0.0 <= x <= width as real) || (x == 0.0 && 0.0 <= y <= height as real / 2.0)
      ensures length == 60.0 + draw.length * 40.0 && 60.0 <= length < 100.0
      ensures speed == 3.0 + draw.speed * 3.0 && 3.0 <= speed < 6.0
      ensures angle == Pi / 4.0 + (draw.angle - 0.5) * 0.5
      ensures Pi / 4.0 - 0.25 <= angle < Pi / 4.0 + 0.25
      ensures (vx, vy) == polar(angle, speed)
      ensures maxLife == 60.0 + draw.life * 40.0
    {
      if draw.side > 0.5 {
        x := Scale(draw.along, width);
        y := 0.0;
      } else {
        x := 0.0;
        y := Scale(draw.along, height) / 2.0;
      }
      length := 60.0 + draw.length * 40.0;
      speed := 3.0 + draw.speed * 3.0;
      angle := Pi / 4.0 + (draw.angle - 0.5) * 0.5;
      var offset := polar(angle, speed);
      vx := offset.0;
      vy := offset.1;
      opacity := 1.0;
      life := 0;
      maxLife := 60.0 + draw.life * 40.0;
    }

    /**
     * `update`: one step along the velocity, one frame older, the opacity
     * fades linearly to 0 over the life span, and the result says whether
     * the star is still alive, which is exactly when it is still visible.
     */
    method Update() returns (alive: bool)
      requires 60.0 <= maxLife
      modifies this
      ensures AgedFrom(old(State()))
      ensures alive <==> Alive()
      ensures alive <==> opacity > 0.0
    {
      x := x + vx;
      y := y + vy;
      life := life + 1;
      opacity := 1.0 - life as real / maxLife;
      alive := life as real < maxLife;
      FadeIsPositiveWhileAlive(life as real, maxLife);
    }
  }

  /** `1 - life / maxLife` is positive exactly while `life < maxLife`. */
  lemma FadeIsPositiveWhileAlive(life: real, maxLife: real)
    requires maxLife > 0.0
    ensures 1.0 - life / maxLife > 0.0 <==> life < maxLife
  {
    if life < maxLife {
      assert life / maxLife < 1.0;
    } else {
      assert life / maxLife >= 1.0;
    }
  }

  // ---------------------------------------------------------------------
  // Lightning
  // ---------------------------------------------------------------------

  /** A drawn piece of a bolt, from (x, y) to (x2, y2). */
  datatype Segment = Segment(x: real, y: real, x2: real, y2: real)

  /** The two draws of one step of `generateBolt`: the turn and the length. */
  datatype BoltStep = BoltStep(turn: real, stretch: real)

  /** The draws of one branch opportunity of `generate`: the coin, the angle, and the branch's steps. */
  datatype BranchDraw = BranchDraw(chance: real, angle: real, steps: seq<BoltStep>)

  predicate ValidSteps(steps: seq<BoltStep>)
  {
    forall k :: 0 <= k < |steps| ==> IsRoll(steps[k].turn) && IsRoll(steps[k].stretch)
  }

  predicate ValidBranchDraws(draws: seq<BranchDraw>)
  {
    && |draws| == MaxSegments / BranchStride
    && forall k :: 0 <= k < |draws| ==>
         IsRoll(draws[k].chance) && IsRoll(draws[k].angle)
         && |draws[k].steps| == BranchSegments && ValidSteps(draws[k].steps)
  }

  /** The clamp of `generateBolt`: the heading never gets flatter than 45 degrees. */
  function ClampAngle(a: real): (r: real)
    ensures Pi / 4.0 <= r <= 3.0 * Pi / 4.0
    ensures Pi / 4.0 <= a <= 3.0 * Pi / 4.0 ==> r == a
    ensures a < Pi / 4.0 ==> r == Pi / 4.0
    ensures a > 3.0 * Pi / 4.0 ==> r == 3.0 * Pi / 4.0
  {
    Max(Pi / 4.0, Min(3.0 * Pi / 4.0, a))
  }

  /** `segmentLength * (0.7 + Math.random() * 0.6)`: in [10.5, 19.5). */
  function StepLength(stretch: real): (l: real)
    requires IsRoll(stretch)
    ensures 10.5 <= l < 19.5
  {
    SegmentLength * (0.7 + stretch * 0.6)
  }

  /** The heading after step k of a bolt that started with heading `start`. */
  predicate TurnedFrom(angles: seq<real>, k: nat, start: real, steps: seq<BoltStep>)
    requires k < |angles| && k < |steps|
  {
    angles[k] == ClampAngle((if k == 0 then start else angles[k - 1]) + (steps[k].turn - 0.5) * 0.8)
  }

  /** Segment k goes from where it starts by the oracle's offset for its heading and length. */
  predicate SteppedBy(segs: seq<Segment>, angles: seq<real>, k: nat, steps: seq<BoltStep>, polar: Polar)
    requires k < |segs| && k < |angles| && k < |steps| && IsRoll(steps[k].stretch)
  {
    var offset := polar(angles[k], StepLength(steps[k].stretch));
    segs[k].x2 == segs[k].x + offset.0 && segs[k].y2 == segs[k].y + offset.1
  }

  /** The segments and headings of a walk so far: chained end to start, each step taken from its draws. */
  ghost predicate BoltPrefix(segs: seq<Segment>, angles: seq<real>, start: real, steps: seq<BoltStep>, polar: Polar)
  {
    && |segs| == |angles| <= |steps| && ValidSteps(steps)
    && (forall k :: 1 <= k < |segs| ==> segs[k].x == segs[k - 1].x2 && segs[k].y == segs[k - 1].y2)
    && (forall k :: 0 <= k < |segs| ==> TurnedFrom(angles, k, start, steps) && SteppedBy(segs, angles, k, steps, polar))
  }

  /** One more step of `generateBolt` keeps the walk well formed. */
  lemma BoltGrows(segs: seq<Segment>, angles: seq<real>, start: real, steps: seq<BoltStep>, polar: Polar, seg: Segment, a: real)
    requires BoltPrefix(segs, angles, start, steps, polar) && |segs| < |steps|
    requires |segs| > 0 ==> seg.x == segs[|segs| - 1].x2 && seg.y == segs[|segs| - 1].y2
    requires a == ClampAngle((if |segs| == 0 then start else angles[|segs| - 1]) + (steps[|segs|].turn - 0.5) * 0.8)
    requires seg.x2 == seg.x + polar(a, StepLength(steps[|segs|].stretch)).0
    requires seg.y2 == seg.y + polar(a, StepLength(steps[|segs|].stretch)).1
    ensures BoltPrefix(segs + [seg], angles + [a], start, steps, polar)
  {
    var segs', angles' := segs + [seg], angles + [a];
    forall k | 0 <= k < |segs'|
      ensures TurnedFrom(angles', k, start, steps) && SteppedBy(segs', angles', k, steps, polar)
    {
      if k < |segs| {
        assert segs'[k] == segs[k] && angles'[k] == angles[k];
        assert TurnedFrom(angles, k, start, steps) && SteppedBy(segs, angles, k, steps, polar);
        if k > 0 {
          assert angles'[k - 1] == angles[k - 1];
        }
      }
    }
  }

  function FlashOpacity(life: nat): (o: real)
    ensures 0.0 <= o <= 1.0
    ensures o > 0.0 <==> life < BoltLife
    ensures life < 3 ==> o == 1.0
    ensures 3 <= life < 6 ==> o == 0.3
    ensures 6 <= life < 9 ==> o == 0.8
  {
    if life < 3 then 1.0
    else if life < 6 then 0.3
    else if life < 9 then 0.8
    else Max(0.0, 1.0 - (life - 9) as real / (BoltLife - 9) as real)
  }

  class Lightning {
    var segments: seq<Segment>
    var branches: seq<seq<Segment>>
    var life: nat
    var maxLife: nat
    var opacity: real

    /** The shape of the bolt: its main path and its branches. */
    function Shape(): (seq<Segment>, seq<seq<Segment>>)
      reads this
    {
      (segments, branches)
    }

    /** Still alive: younger than the 15-frame life span. */
    ghost predicate Valid()
      reads this
    {
      maxLife == BoltLife && life < maxLife
    }

    /** `new Lightning(canvas)`: a fresh bolt, fully opaque, whose shape is generated at once. */
    constructor (width: nat, height: nat, startRoll: real, mainSteps: seq<BoltStep>, branchDraws: seq<BranchDraw>, polar: Polar)
      requires IsRoll(startRoll) && |mainSteps| == MaxSegments && ValidSteps(mainSteps)
      requires ValidBranchDraws(branchDraws)
      ensures Valid() && life == 0 && opacity == 1.0
      ensures 0 < |segments| <= MaxSegments
      ensures segments[0].x == Scale(startRoll, width) && segments[0].y == 0.0
      ensures forall b :: 0 <= b < |branches| ==> 0 < |branches[b]| <= BranchSegments
    {
      segments := [];
      branches := [];
      life := 0;
      maxLife := BoltLife;
      opacity := 1.0;
      new;
      ghost var origins := Generate(width, height, startRoll, mainSteps, branchDraws, polar);
    }

    /**
     * `generateBolt`: a walk of at most `maxSegments` steps from the start
     * point. Each step turns the heading by up to 0.4 radians either way,
     * clamps it to [pi/4, 3pi/4] and appends a segment that starts where the
     * previous one ended; the walk stops right after the first segment that
     * ends below the canvas. `angles` are the headings taken.
     */
    method GenerateBolt(startX: real, startY: real, angle: real, maxSegments: nat, height: nat,
                        steps: seq<BoltStep>, polar: Polar)
      returns (segs: seq<Segment>, ghost angles: seq<real>)
      requires |steps| == maxSegments && ValidSteps(steps)
      ensures |segs| == |angles| <= maxSegments
      ensures maxSegments > 0 ==> |segs| > 0
      ensures |segs| > 0 ==> segs[0].x == startX && segs[0].y == startY
      ensures forall k :: 1 <= k < |segs| ==> segs[k].x == segs[k - 1].x2 && segs[k].y == segs[k - 1].y2
      ensures forall k :: 0 <= k < |segs| ==> TurnedFrom(angles, k, angle, steps)
      ensures forall k :: 0 <= k < |segs| ==> Pi / 4.0 <= angles[k] <= 3.0 * Pi / 4.0
      ensures forall k :: 0 <= k < |segs| ==> SteppedBy(segs, angles, k, steps, polar)
      ensures forall k :: 0 <= k < |segs| - 1 ==> segs[k].y2 <= height as real
      ensures |segs| < maxSegments ==> |segs| > 0 && segs[|segs| - 1].y2 > height as real
    {
      segs, angles := [], [];
      var x, y := startX, startY;
      var currentAngle := angle;
      var i := 0;
      while i < maxSegments
        invariant 0 <= i <= maxSegments && |segs| == |angles| == i
        invariant i > 0 ==> segs[0].x == startX && segs[0].y == startY
        invariant i > 0 ==> x == segs[i - 1].x2 && y == segs[i - 1].y2 && currentAngle == angles[i - 1]
        invariant i == 0 ==> x == startX && y == startY && currentAngle == angle
        invariant BoltPrefix(segs, angles, angle, steps, polar)
        invariant forall k :: 0 <= k < i ==> segs[k].y2 <= height as real
      {
        currentAngle := ClampAngle(currentAngle + (steps[i].turn - 0.5) * 0.8);
        var length := StepLength(steps[i].stretch);
        var offset := polar(currentAngle, length);
        var newX := x + offset.0;
        var newY := y + offset.1;
        BoltGrows(segs, angles, angle, steps, polar, Segment(x, y, newX, newY), currentAngle);
        segs := segs + [Segment(x, y, newX, newY)];
        angles := angles + [currentAngle];
        x, y := newX, newY;
        i := i + 1;
        if y > height as real {
          break;
        }
      }
      forall k | 0 <= k < |segs|
        ensures Pi / 4.0 <= angles[k] <= 3.0 * Pi / 4.0
      {
        assert TurnedFrom(angles, k, angle, steps);
      }
    }

    /**
     * `generate`: the main bolt starts at a random point of the top edge
     * heading straight down; then every fifth segment (0, 5, 10, ...) gets
     * a branch with probability 0.3, a bolt of at most 10 segments that
     * starts at that segment's start point and heads down within 30 degrees
     * either way. `origins` are the indices the branches start from.
     */
    method Generate(width: nat, height: nat, startRoll: real, mainSteps: seq<BoltStep>, branchDraws: seq<BranchDraw>, polar: Polar)
      returns (ghost origins: seq<nat>)
      requires IsRoll(startRoll) && |mainSteps| == MaxSegments && ValidSteps(mainSteps)
      requires ValidBranchDraws(branchDraws)
      modifies this
      ensures 0 < |segments| <= MaxSegments
      ensures segments[0].x == Scale(startRoll, width) && segments[0].y == 0.0
      ensures forall k :: 1 <= k < |segments| ==> segments[k].x == segments[k - 1].x2 && segments[k].y == segments[k - 1].y2
      ensures |branches| == |origins|
      ensures forall b :: 0 <= b < |branches| ==>
        && origins[b] < |segments| && origins[b] % BranchStride == 0
        && branchDraws[origins[b] / BranchStride].chance < BranchProbability
        && 0 < |branches[b]| <= BranchSegments
        && branches[b][0].x == segments[origins[b]].x && branches[b][0].y == segments[origins[b]].y
      ensures forall i :: 0 <= i < |segments| && i % BranchStride == 0 ==>
        (branchDraws[i / BranchStride].chance < BranchProbability <==> i in origins)
      ensures forall b, c :: 0 <= b < c < |origins| ==> origins[b] < origins[c]
      ensures life == old(life) && maxLife == old(maxLife) && opacity == old(opacity)
    {
      var startX := Scale(startRoll, width);
      var startY := 0.0;
      var main;
      ghost var mainAngles;
      main, mainAngles := GenerateBolt(startX, startY, Pi / 2.0, MaxSegments, height, mainSteps, polar);
      segments := main;
      branches, origins := GenerateBranches(main, height, branchDraws, polar);
    }

    /** The branch loop of `generate`, over the main bolt `main`. */
    method GenerateBranches(main: seq<Segment>, height: nat, branchDraws: seq<BranchDraw>, polar: Polar)
      returns (bs: seq<seq<Segment>>, ghost origins: seq<nat>)
      requires 0 < |main| <= MaxSegments && ValidBranchDraws(branchDraws)
      ensures |bs| == |origins|
      ensures forall b :: 0 <= b < |bs| ==>
        && origins[b] < |main| && origins[b] % BranchStride == 0
        && branchDraws[origins[b] / BranchStride].chance < BranchProbability
        && 0 < |bs[b]| <= BranchSegments
        && bs[b][0].x == main[origins[b]].x && bs[b][0].y == main[origins[b]].y
      ensures forall i :: 0 <= i < |main| && i % BranchStride == 0 ==>
        (branchDraws[i / BranchStride].chance < BranchProbability <==> i in origins)
      ensures forall b, c :: 0 <= b < c < |origins| ==> origins[b] < origins[c]
    {
      bs, origins := [], [];
      var i := 0;
      while i < |main|
        invariant i % BranchStride == 0 && 0 <= i <= |main| + BranchStride - 1
        invariant |bs| == |origins|
        invariant forall b :: 0 <= b < |bs| ==>
          && origins[b] < i && origins[b] < |main| && origins[b] % BranchStride == 0
          && branchDraws[origins[b] / BranchStride].chance < BranchProbability
          && 0 < |bs[b]| <= BranchSegments
          && bs[b][0].x == main[origins[b]].x && bs[b][0].y == main[origins[b]].y
        invariant forall j :: 0 <= j < i && j < |main| && j % BranchStride == 0 ==>
          (branchDraws[j / BranchStride].chance < BranchProbability <==> j in origins)
        invariant forall b, c :: 0 <= b < c < |origins| ==> origins[b] < origins[c]
      {
        var draw := branchDraws[i / BranchStride];
        if draw.chance < BranchProbability {
          var branchAngle := Pi / 2.0 + (draw.angle - 0.5) * Pi / 3.0;
          var branch;
          ghost var branchAngles;
          branch, branchAngles := GenerateBolt(main[i].x, main[i].y, branchAngle, MaxSegments / 3, height, draw.steps, polar);
          bs := bs + [branch];
          origins := origins + [i];
        }
        i := i + BranchStride;
      }
    }

    /**
     * `update`: one frame older, the flash opacity for that age, and alive
     * exactly while younger than 15 frames; a fresh bolt therefore survives
     * 14 updates, and is visible on each of them.
     */
    method Update() returns (alive: bool)
      requires maxLife == BoltLife
      modifies this
      ensures life == old(life) + 1
      ensures opacity == FlashOpacity(life)
      ensures alive <==> life < maxLife
      ensures alive <==> opacity > 0.0
      ensures segments == old(segments) && branches == old(branches) && maxLife == old(maxLife)
    {
      life := life + 1;
      if life < 3 {
        opacity := 1.0;
      } else if life < 6 {
        opacity := 0.3;
      } else if life < 9 {
        opacity := 0.8;
      } else {
        opacity := Max(0.0, 1.0 - (life - 9) as real / (maxLife - 9) as real);
      }
      alive := life < maxLife;
    }
  }

  // ---------------------------------------------------------------------
  // Constellation lines
  // ---------------------------------------------------------------------

  /** `distance < connectionDistance` (250), compared on squares. */
  predicate Near(p: Point, q: Point)
  {
    SqDist(p, q) < ConstellationDistance * ConstellationDistance
  }

  /** The squared-distance test agrees with the distance test of the source. */
  lemma NearIffCloser(p: Point, q: Point, d: real)
    requires IsRoot(d, SqDist(p, q))
    ensures Near(p, q) <==> d < ConstellationDistance
  {
    RootBelowIff(d, SqDist(p, q), ConstellationDistance);
  }

  /** The lines (i, j) with i < j < upto and star j near star i, in order of j, before the cap. */
  function Candidates(pts: seq<Point>, i: nat, upto: nat): seq<Link>
    requires i < |pts| && upto <= |pts|
  {
    if upto <= i + 1 then []
    else Candidates(pts, i, upto - 1) + (if Near(pts[i], pts[upto - 1]) then [Link(i, upto - 1)] else [])
  }

  /** The lines star i starts: its first four candidates. */
  function CappedRow(pts: seq<Point>, i: nat): seq<Link>
    requires i < |pts|
  {
    var c := Candidates(pts, i, |pts|);
    if |c| <= MaxConnections then c else c[..MaxConnections]
  }

  /** The lines drawn by the first `rows` iterations of the outer loop. */
  function Constellation(pts: seq<Point>, rows: nat): seq<Link>
    requires rows <= |pts|
  {
    if rows == 0 then [] else Constellation(pts, rows - 1) + CappedRow(pts, rows - 1)
  }

  lemma {:induction false} CandidatesSpec(pts: seq<Point>, i: nat, upto: nat)
    requires i < |pts| && upto <= |pts|
    ensures forall l :: l in Candidates(pts, i, upto) <==> l.i == i && i < l.j < upto && Near(pts[i], pts[l.j])
    ensures forall p, q :: 0 <= p < q < |Candidates(pts, i, upto)| ==>
      Candidates(pts, i, upto)[p].j < Candidates(pts, i, upto)[q].j
  {
    if upto > i + 1 {
      CandidatesSpec(pts, i, upto - 1);
    }
  }

  /** Stopping the inner loop early gives a prefix of the full candidate list. */
  lemma {:induction false} CandidatesPrefix(pts: seq<Point>, i: nat, j: nat, upto: nat)
    requires i < |pts| && j <= upto <= |pts|
    ensures Candidates(pts, i, j) <= Candidates(pts, i, upto)
  {
    if j < upto && upto > i + 1 {
      CandidatesPrefix(pts, i, j, upto - 1);
    }
  }

  /**
   * Star i starts at most four lines, each to a near star j > i; they go
   * to the first near stars in index order; and when there are fewer than
   * four, every near star j > i gets one.
   */
  lemma CappedRowSpec(pts: seq<Point>, i: nat)
    requires i < |pts|
    ensures |CappedRow(pts, i)| <= MaxConnections
    ensures forall l :: l in CappedRow(pts, i) ==> l.i == i && i < l.j < |pts| && Near(pts[i], pts[l.j])
    ensures forall j, k :: i < k < j < |pts| && Link(i, j) in CappedRow(pts, i) && Near(pts[i], pts[k]) ==>
      Link(i, k) in CappedRow(pts, i)
    ensures |CappedRow(pts, i)| < MaxConnections ==>
      forall j :: i < j < |pts| && Near(pts[i], pts[j]) ==> Link(i, j) in CappedRow(pts, i)
  {
    CandidatesSpec(pts, i, |pts|);
    assert forall l :: l in CappedRow(pts, i) ==> l in Candidates(pts, i, |pts|);
    CappedRowTakesNearestFirst(pts, i);
  }

  /** A star skipped by the cap comes after every star that got a line. */
  lemma CappedRowTakesNearestFirst(pts: seq<Point>, i: nat)
    requires i < |pts|
    ensures forall j, k :: i < k < j < |pts| && Link(i, j) in CappedRow(pts, i) && Near(pts[i], pts[k]) ==>
      Link(i, k) in CappedRow(pts, i)
  {
    var c := Candidates(pts, i, |pts|);
    CandidatesSpec(pts, i, |pts|);
    var row := CappedRow(pts, i);
    forall j, k | i < k < j < |pts| && Link(i, j) in row && Near(pts[i], pts[k])
      ensures Link(i, k) in row
    {
      var q :| 0 <= q < |row| && row[q] == Link(i, j);
      assert Link(i, k) in c;
      var p :| 0 <= p < |c| && c[p] == Link(i, k);
      if q <= p {
        assert c[q] == row[q];
      }
      assert p < |row| && row[p] == c[p];
    }
  }

  /** The lines drawn are exactly the capped rows: a star may still end more than four lines. */
  lemma {:induction false} ConstellationSpec(pts: seq<Point>, rows: nat)
    requires rows <= |pts|
    ensures forall l :: l in Constellation(pts, rows) <==> l.i < rows && l in CappedRow(pts, l.i)
  {
    if rows > 0 {
      ConstellationSpec(pts, rows - 1);
      CappedRowSpec(pts, rows - 1);
      forall l: Link | l.i < rows - 1
        ensures l !in CappedRow(pts, rows - 1)
      {
      }
    }
  }

  /** Six stars on one spot: star 4 ends the lines from stars 0 to 3 and starts one to star 5. */
  lemma StarMayHaveMoreThanFourLines()
    ensures var pts := [Point(0.0, 0.0), Point(0.0, 0.0), Point(0.0, 0.0), Point(0.0, 0.0), Point(0.0, 0.0), Point(0.0, 0.0)];
      forall l :: l in [Link(0, 4), Link(1, 4), Link(2, 4), Link(3, 4), Link(4, 5)] ==> l in Constellation(pts, 6)
  {
    var o := Point(0.0, 0.0);
    var pts := [o, o, o, o, o, o];
    ConstellationSpec(pts, 6);
    forall i | 0 <= i < 5
      ensures Link(i, if i < 4 then 4 else 5) in CappedRow(pts, i)
    {
      AllNearCandidates(pts, i, 6);
      var q := if i < 4 then 3 - i else 0;
      assert CappedRow(pts, i)[q] == Link(i, if i < 4 then 4 else 5);
    }
  }

  /** When every star is near every other, the candidates of i are all j > i, in order. */
  lemma {:induction false} AllNearCandidates(pts: seq<Point>, i: nat, upto: nat)
    requires i < |pts| && upto <= |pts|
    requires forall j :: 0 <= j < |pts| ==> pts[j] == pts[0]
    ensures |Candidates(pts, i, upto)| == if upto <= i + 1 then 0 else upto - i - 1
    ensures forall q :: 0 <= q < |Candidates(pts, i, upto)| ==> Candidates(pts, i, upto)[q] == Link(i, i + 1 + q)
  {
    if upto > i + 1 {
      AllNearCandidates(pts, i, upto - 1);
      assert Near(pts[i], pts[upto - 1]);
    }
  }

  // ---------------------------------------------------------------------
  // The scene
  // ---------------------------------------------------------------------

  /** The draws behind one `new Star(canvas)`. */
  datatype StarDraws = StarDraws(reset: StarDraw, x: real, y: real)

  predicate ValidStarDraws(draws: seq<StarDraws>)
  {
    && |draws| == StarCount
    && forall k :: 0 <= k < |draws| ==> ValidStarDraw(draws[k].reset) && IsRoll(draws[k].x) && IsRoll(draws[k].y)
  }

  ghost function StarPositions(ss: seq<Star>): (pts: seq<Point>)
    reads ss
    ensures |pts| == |ss|
    ensures forall k :: 0 <= k < |ss| ==> pts[k] == Point(ss[k].x, ss[k].y)
  {
    seq(|ss|, k requires 0 <= k < |ss| reads ss => Point(ss[k].x, ss[k].y))
  }

  /**
   * The update pass of `updateShootingStars`: every star in the list is
   * updated once, and `keep[m]` is what star m's update answered.
   */
  method AgeShootingStars(list: seq<ShootingStar>) returns (keep: seq<bool>)
    requires Distinct(list)
    requires forall m :: 0 <= m < |list| ==> 60.0 <= list[m].maxLife
    modifies list
    ensures |keep| == |list|
    ensures forall m :: 0 <= m < |list| ==>
      list[m].AgedFrom(old(list[m].State())) && (keep[m] <==> list[m].Alive())
  {
    keep := [];
    for k := 0 to |list|
      invariant |keep| == k
      invariant forall m :: 0 <= m < k ==>
        list[m].AgedFrom(old(list[m].State())) && (keep[m] <==> list[m].Alive())
      invariant forall m :: k <= m < |list| ==> list[m].State() == old(list[m].State())
    {
      var a := list[k].Update();
      keep := keep + [a];
    }
  }

  /**
   * The update pass of `updateLightning`: every bolt in the list is
   * updated once, and `keep[m]` is what bolt m's update answered.
   */
  method AgeBolts(list: seq<Lightning>) returns (keep: seq<bool>)
    requires Distinct(list)
    requires forall m :: 0 <= m < |list| ==> list[m].maxLife == BoltLife
    modifies list
    ensures |keep| == |list|
    ensures forall m :: 0 <= m < |list| ==>
      && list[m].life == old(list[m].life) + 1 && list[m].maxLife == BoltLife
      && list[m].opacity == FlashOpacity(list[m].life) && list[m].Shape() == old(list[m].Shape())
      && (keep[m] <==> list[m].life < BoltLife)
  {
    keep := [];
    for k := 0 to |list|
      invariant |keep| == k
      invariant forall m :: 0 <= m < k ==>
        && list[m].life == old(list[m].life) + 1 && list[m].maxLife == BoltLife
        && list[m].opacity == FlashOpacity(list[m].life) && list[m].Shape() == old(list[m].Shape())
        && (keep[m] <==> list[m].life < BoltLife)
      invariant forall m :: k <= m < |list| ==>
        list[m].life == old(list[m].life) && list[m].maxLife == BoltLife && list[m].Shape() == old(list[m].Shape())
    {
      var a := list[k].Update();
      keep := keep + [a];
    }
  }

  /** Filtering the updated shooting stars by their answers keeps exactly the live ones, each once. */
  lemma SelectKeepsLiveShootingStars(list: seq<ShootingStar>, keep: seq<bool>)
    requires |keep| == |list| && Distinct(list)
    requires forall m :: 0 <= m < |list| ==>
      60.0 <= list[m].maxLife < 100.0 && (keep[m] <==> list[m].Alive())
    ensures Distinct(Select(list, keep)) && IsSubsequence(Select(list, keep), list)
    ensures forall s :: s in Select(list, keep) <==> s in list && s.Alive()
    ensures forall n :: 0 <= n < |Select(list, keep)| ==> Select(list, keep)[n].Valid()
  {
    SelectKeepsFlaggedInOrder(list, keep);
    SelectKeepsDistinct(list, keep);
    forall n | 0 <= n < |Select(list, keep)|
      ensures Select(list, keep)[n].Valid()
    {
      assert Select(list, keep)[n] in Select(list, keep);
    }
  }

  /** Filtering the updated bolts by their answers keeps exactly the live ones, each once. */
  lemma SelectKeepsLiveBolts(list: seq<Lightning>, keep: seq<bool>)
    requires |keep| == |list| && Distinct(list)
    requires forall m :: 0 <= m < |list| ==> list[m].maxLife == BoltLife && (keep[m] <==> list[m].life < BoltLife)
    ensures Distinct(Select(list, keep)) && IsSubsequence(Select(list, keep), list)
    ensures forall b :: b in Select(list, keep) <==> b in list && b.life < BoltLife
    ensures forall n :: 0 <= n < |Select(list, keep)| ==> Select(list, keep)[n].Valid()
  {
    SelectKeepsFlaggedInOrder(list, keep);
    SelectKeepsDistinct(list, keep);
    forall n | 0 <= n < |Select(list, keep)|
      ensures Select(list, keep)[n].Valid()
    {
      assert Select(list, keep)[n] in Select(list, keep);
    }
  }

  /** `WaveConstellation`: the canvas size, the three entity lists and the shared pointer record. */
  class WaveConstellation {
    var width: nat
    var height: nat
    var stars: seq<Star>
    var shootingStars: seq<ShootingStar>
    var lightningBolts: seq<Lightning>
    var mouse: Pointer

    /** Every star is on the canvas and inside its twinkle band. */
    ghost predicate StarsValid()
      reads this, stars
    {
      && Distinct(stars)
      && forall k :: 0 <= k < |stars| ==>
           stars[k].Valid() && stars[k].Inside(width, height)
    }

    /** The transient lists stay under their caps and hold only live entities. */
    ghost predicate TransientsValid()
      reads this, shootingStars, lightningBolts
    {
      ShootingStarsValid() && BoltsValid()
    }

    ghost predicate ShootingStarsValid()
      reads this, shootingStars
    {
      && |shootingStars| <= MaxShootingStars && Distinct(shootingStars)
      && (forall k :: 0 <= k < |shootingStars| ==> shootingStars[k].Valid())
    }

    ghost predicate BoltsValid()
      reads this, lightningBolts
    {
      && |lightningBolts| <= MaxBolts && Distinct(lightningBolts)
      && (forall k :: 0 <= k < |lightningBolts| ==> lightningBolts[k].Valid())
    }

    ghost predicate Valid()
      reads this, stars, shootingStars, lightningBolts
    {
      StarsValid() && TransientsValid()
    }

    /** `init`: size the canvas to the viewport and create the stars; nothing else yet. */
    constructor (width: nat, height: nat, draws: seq<StarDraws>)
      requires ValidStarDraws(draws)
      ensures Valid() && |stars| == StarCount
      ensures shootingStars == [] && lightningBolts == [] && mouse == NoPointer
      ensures this.width == width && this.height == height
    {
      this.width := width;
      this.height := height;
      stars := [];
      shootingStars := [];
      lightningBolts := [];
      mouse := NoPointer;
      new;
      CreateStars(draws);
    }

    /** `createStars`: the list is replaced by exactly 250 new stars placed by the draws. */
    method CreateStars(draws: seq<StarDraws>)
      requires ValidStarDraws(draws)
      modifies this
      ensures StarsValid() && |stars| == StarCount
      ensures forall k :: 0 <= k < StarCount ==>
        && fresh(stars[k])
        && stars[k].x == Scale(draws[k].x, width) && stars[k].y == Scale(draws[k].y, height)
      ensures width == old(width) && height == old(height) && mouse == old(mouse)
      ensures shootingStars == old(shootingStars) && lightningBolts == old(lightningBolts)
    {
      stars := [];
      for i := 0 to StarCount
        invariant |stars| == i && Distinct(stars)
        invariant forall k :: 0 <= k < i ==>
          && fresh(stars[k]) && stars[k].Valid()
          && stars[k].x == Scale(draws[k].x, width) && stars[k].y == Scale(draws[k].y, height)
        invariant width == old(width) && height == old(height) && mouse == old(mouse)
        invariant shootingStars == old(shootingStars) && lightningBolts == old(lightningBolts)
      {
        var star := new Star(width, height, draws[i].reset, draws[i].x, draws[i].y);
        stars := stars + [star];
      }
    }

    /** The `resize` listener: the canvas takes the viewport size and the stars are rebuilt. */
    method Resize(innerWidth: nat, innerHeight: nat, draws: seq<StarDraws>)
      requires TransientsValid() && ValidStarDraws(draws)
      modifies this
      ensures Valid() && width == innerWidth && height == innerHeight
      ensures |stars| == StarCount && forall k :: 0 <= k < StarCount ==> fresh(stars[k])
      ensures shootingStars == old(shootingStars) && lightningBolts == old(lightningBolts) && mouse == old(mouse)
    {
      width := innerWidth;
      height := innerHeight;
      CreateStars(draws);
    }

    /** `mousemove` and `touchmove`: the pointer record takes the event's client coordinates. */
    method PointerMove(clientX: real, clientY: real)
      modifies this
      ensures mouse == Pointer(Some(clientX), Some(clientY))
      ensures width == old(width) && height == old(height) && stars == old(stars)
      ensures shootingStars == old(shootingStars) && lightningBolts == old(lightningBolts)
    {
      mouse := Pointer(Some(clientX), Some(clientY));
    }

    /** `mouseleave` and `touchend`: both coordinates become null. */
    method PointerLeave()
      modifies this
      ensures mouse == NoPointer && !Present(mouse)
      ensures width == old(width) && height == old(height) && stars == old(stars)
      ensures shootingStars == old(shootingStars) && lightningBolts == old(lightningBolts)
    {
      mouse := NoPointer;
    }

    /**
     * The `forEach` of `animate` that updates every star: each star takes
     * its own twinkle step and drift, and all of them stay on the canvas
     * and inside their bands. `distances[k]` is star k's distance to the
     * pointer.
     */
    method UpdateStars(distances: seq<real>)
      requires StarsValid() && |distances| == |stars|
      requires forall k :: 0 <= k < |stars| ==> PointerDistance(mouse, stars[k].x, stars[k].y, distances[k])
      modifies stars
      ensures StarsValid()
      ensures forall k :: 0 <= k < |stars| ==>
        stars[k].twinkleSpeed == old(stars[k].twinkleSpeed) && stars[k].baseSize == old(stars[k].baseSize)
      ensures forall k :: 0 <= k < |stars| ==>
        stars[k].UpdatedFrom(old(stars[k].State()), old(stars[k].Light()), old(stars[k].baseSize), mouse, distances[k], width, height)
    {
      for i := 0 to |stars|
        invariant Distinct(stars)
        invariant forall k :: 0 <= k < |stars| ==> stars[k].Valid() && stars[k].Inside(width, height)
        invariant forall k :: 0 <= k < i ==>
          stars[k].UpdatedFrom(old(stars[k].State()), old(stars[k].Light()), old(stars[k].baseSize), mouse, distances[k], width, height)
        invariant forall k :: i <= k < |stars| ==>
          stars[k].State() == old(stars[k].State()) && stars[k].Light() == old(stars[k].Light())
        invariant forall k :: 0 <= k < |stars| ==>
          stars[k].twinkleSpeed == old(stars[k].twinkleSpeed) && stars[k].baseSize == old(stars[k].baseSize)
      {
        stars[i].Update(mouse, distances[i], width, height);
      }
    }

    /**
     * `drawConstellations`: star i starts lines to the first (at most four)
     * stars j > i nearer than 250 px.
     */
    method DrawConstellations() returns (lines: seq<Link>)
      ensures lines == Constellation(StarPositions(stars), |stars|)
      ensures forall l :: l in lines ==>
        l.i < l.j < |stars| && Near(Point(stars[l.i].x, stars[l.i].y), Point(stars[l.j].x, stars[l.j].y))
    {
      ghost var pts := StarPositions(stars);
      lines := [];
      var i := 0;
      while i < |stars|
        invariant 0 <= i <= |stars|
        invariant lines == Constellation(pts, i)
      {
        var row := ConstellationRow(i);
        lines := lines + row;
        i := i + 1;
      }
      ConstellationSpec(pts, |stars|);
      forall l | l in lines
        ensures l.i < l.j < |stars| && Near(pts[l.i], pts[l.j])
      {
        CappedRowSpec(pts, l.i);
      }
    }

    /** One pass of the inner loop of `drawConstellations`, which breaks after four lines. */
    method ConstellationRow(i: nat) returns (row: seq<Link>)
      requires i < |stars|
      ensures row == CappedRow(StarPositions(stars), i)
    {
      ghost var pts := StarPositions(stars);
      row := [];
      var connections := 0;
      var j := i + 1;
      while j < |stars|
        invariant i + 1 <= j <= |stars|
        invariant row == Candidates(pts, i, j) && connections == |row| <= MaxConnections
      {
        if connections >= MaxConnections {
          break;
        }
        var p := Point(stars[i].x, stars[i].y);
        var q := Point(stars[j].x, stars[j].y);
        assert p == pts[i] && q == pts[j];
        if Near(p, q) {
          row := row + [Link(i, j)];
          connections := connections + 1;
        }
        j := j + 1;
      }
      CandidatesPrefix(pts, i, j, |stars|);
    }

    /** The spawn step of `updateShootingStars`: one new star at the end, by chance and under the cap. */
    method SpawnShootingStar(spawnRoll: real, draw: ShootingDraw, polar: Polar)
      requires ShootingStarsValid() && IsRoll(spawnRoll) && ValidShootingDraw(draw)
      modifies this
      ensures ShootingStarsValid()
      ensures |shootingStars| == |old(shootingStars)| + (if spawnRoll < ShootingStarChance && |old(shootingStars)| < MaxShootingStars then 1 else 0)
      ensures shootingStars[..|old(shootingStars)|] == old(shootingStars)
      ensures |shootingStars| > |old(shootingStars)| ==>
        fresh(shootingStars[|shootingStars| - 1]) && shootingStars[|shootingStars| - 1].life == 0
      ensures stars == old(stars) && lightningBolts == old(lightningBolts)
      ensures width == old(width) && height == old(height) && mouse == old(mouse)
    {
      if spawnRoll < ShootingStarChance && |shootingStars| < MaxShootingStars {
        var star := new ShootingStar(width, height, draw, polar);
        shootingStars := shootingStars + [star];
      }
    }

    /** The spawn step of `updateLightning`: one new bolt at the end, by chance and under the cap. */
    method SpawnBolt(spawnRoll: real, startRoll: real, mainSteps: seq<BoltStep>, branchDraws: seq<BranchDraw>, polar: Polar)
      requires BoltsValid() && IsRoll(spawnRoll)
      requires IsRoll(startRoll) && |mainSteps| == MaxSegments && ValidSteps(mainSteps) && ValidBranchDraws(branchDraws)
      modifies this
      ensures BoltsValid()
      ensures |lightningBolts| == |old(lightningBolts)| + (if spawnRoll < LightningChance && |old(lightningBolts)| < MaxBolts then 1 else 0)
      ensures lightningBolts[..|old(lightningBolts)|] == old(lightningBolts)
      ensures |lightningBolts| > |old(lightningBolts)| ==>
        fresh(lightningBolts[|lightningBolts| - 1]) && lightningBolts[|lightningBolts| - 1].life == 0
      ensures stars == old(stars) && shootingStars == old(shootingStars)
      ensures width == old(width) && height == old(height) && mouse == old(mouse)
    {
      if spawnRoll < LightningChance && |lightningBolts| < MaxBolts {
        var bolt := new Lightning(width, height, startRoll, mainSteps, branchDraws, polar);
        lightningBolts := lightningBolts + [bolt];
      }
    }

    /**
     * `updateShootingStars`: a new shooting star joins the end of the list
     * with chance 0.0005, and only while there are fewer than 3; then every
     * star in the list (`pool`) is updated once and the list keeps, in their
     * order, exactly those whose update said alive.
     */
    method UpdateShootingStars(spawnRoll: real, draw: ShootingDraw, polar: Polar)
      returns (ghost pool: seq<ShootingStar>, ghost alive: seq<bool>)
      requires ShootingStarsValid() && IsRoll(spawnRoll) && ValidShootingDraw(draw)
      modifies this, shootingStars
      ensures ShootingStarsValid()
      ensures |pool| == |alive|
      ensures |pool| == |old(shootingStars)| + (if spawnRoll < ShootingStarChance && |old(shootingStars)| < MaxShootingStars then 1 else 0)
      ensures pool[..|old(shootingStars)|] == old(shootingStars)
      ensures |pool| > |old(shootingStars)| ==> fresh(pool[|pool| - 1]) && pool[|pool| - 1].life == 1
      ensures forall k :: 0 <= k < |old(shootingStars)| ==> pool[k].AgedFrom(old(shootingStars[k].State()))
      ensures forall k :: 0 <= k < |pool| ==> (alive[k] <==> pool[k].Alive())
      ensures shootingStars == Select(pool, alive)
      ensures forall s :: s in shootingStars <==> s in pool && s.Alive()
      ensures stars == old(stars) && lightningBolts == old(lightningBolts)
      ensures width == old(width) && height == old(height) && mouse == old(mouse)
    {
      SpawnShootingStar(spawnRoll, draw, polar);
      pool := shootingStars;
      alive := AgeShootingStarsAndPrune();
    }

    /** The filter of `updateShootingStars`: update every star once and keep, in order, those still alive. */
    method AgeShootingStarsAndPrune() returns (ghost alive: seq<bool>)
      requires ShootingStarsValid()
      modifies this, shootingStars
      ensures |alive| == |old(shootingStars)|
      ensures forall k :: 0 <= k < |alive| ==>
        && old(shootingStars)[k].AgedFrom(old(shootingStars[k].State()))
        && (alive[k] <==> old(shootingStars)[k].Alive())
      ensures shootingStars == Select(old(shootingStars), alive)
      ensures ShootingStarsValid()
      ensures forall s :: s in shootingStars <==> s in old(shootingStars) && s.Alive()
      ensures stars == old(stars) && lightningBolts == old(lightningBolts)
      ensures width == old(width) && height == old(height) && mouse == old(mouse)
    {
      var list := shootingStars;
      var keep := AgeShootingStars(list);
      alive := keep;
      shootingStars := Select(list, keep);
      SelectKeepsLiveShootingStars(list, keep);
    }

    /**
     * `updateLightning`: a new bolt joins the end of the list with chance
     * 0.002, and only while there are fewer than 2; then every bolt in the
     * list (`pool`) is updated once and the list keeps, in their order,
     * exactly those whose update said alive.
     */
    method UpdateLightning(spawnRoll: real, startRoll: real, mainSteps: seq<BoltStep>, branchDraws: seq<BranchDraw>, polar: Polar)
      returns (ghost pool: seq<Lightning>, ghost alive: seq<bool>)
      requires BoltsValid() && IsRoll(spawnRoll)
      requires IsRoll(startRoll) && |mainSteps| == MaxSegments && ValidSteps(mainSteps) && ValidBranchDraws(branchDraws)
      modifies this, lightningBolts
      ensures BoltsValid()
      ensures |pool| == |alive|
      ensures |pool| == |old(lightningBolts)| + (if spawnRoll < LightningChance && |old(lightningBolts)| < MaxBolts then 1 else 0)
      ensures pool[..|old(lightningBolts)|] == old(lightningBolts)
      ensures |pool| > |old(lightningBolts)| ==> fresh(pool[|pool| - 1]) && pool[|pool| - 1].life == 1
      ensures forall k :: 0 <= k < |old(lightningBolts)| ==>
        pool[k].life == old(lightningBolts[k].life) + 1 && pool[k].Shape() == old(lightningBolts[k].Shape())
      ensures forall k :: 0 <= k < |pool| ==>
        pool[k].opacity == FlashOpacity(pool[k].life) && (alive[k] <==> pool[k].life < BoltLife)
      ensures lightningBolts == Select(pool, alive)
      ensures forall b :: b in lightningBolts <==> b in pool && b.life < BoltLife
      ensures stars == old(stars) && shootingStars == old(shootingStars)
      ensures width == old(width) && height == old(height) && mouse == old(mouse)
    {
      SpawnBolt(spawnRoll, startRoll, mainSteps, branchDraws, polar);
      pool := lightningBolts;
      alive := AgeBoltsAndPrune();
    }

    /** The filter of `updateLightning`: update every bolt once and keep, in order, those still alive. */
    method AgeBoltsAndPrune() returns (ghost alive: seq<bool>)
      requires BoltsValid()
      modifies this, lightningBolts
      ensures |alive| == |old(lightningBolts)|
      ensures forall k :: 0 <= k < |alive| ==>
        && old(lightningBolts)[k].life == old(lightningBolts[k].life) + 1
        && old(lightningBolts)[k].opacity == FlashOpacity(old(lightningBolts)[k].life)
        && old(lightningBolts)[k].Shape() == old(lightningBolts[k].Shape())
        && (alive[k] <==> old(lightningBolts)[k].life < BoltLife)
      ensures lightningBolts == Select(old(lightningBolts), alive)
      ensures BoltsValid()
      ensures forall b :: b in lightningBolts <==> b in old(lightningBolts) && b.life < BoltLife
      ensures stars == old(stars) && shootingStars == old(shootingStars)
      ensures width == old(width) && height == old(height) && mouse == old(mouse)
    {
      var list := lightningBolts;
      var keep := AgeBolts(list);
      alive := keep;
      lightningBolts := Select(list, keep);
      SelectKeepsLiveBolts(list, keep);
    }
  }
}
