/**
 * Space objects of the newer game (Zapoctak.Net1/SpaceObject.cs with the data
 * of Planet.cs and Sun.cs). A body is a value: the engine keeps the bodies in
 * the level's lists and replaces a list element where the C# code assigns a
 * property of the object. Coordinates are real numbers; distances are handled
 * squared, so no square root is needed.
 */
module Bodies {
  import opened Wrappers

  /** `SpaceObject.SlowdownFactor`: movement per tick is velocity divided by this. */
  const SlowdownFactor: real := 20.0

  /** `Planet.MinimumRadius`: a smaller planet is destroyed. */
  const MinimumRadius: real := 1.0

  /** The five numbers of a `Coordinates` struct, stored unchanged and read-only. */
  datatype Coordinates = Coordinates(xPos: real, yPos: real, xVel: real, yVel: real, radius: real)

  /**
   * `Planet.PlanetType` by its underlying value. The level file is read with an
   * unchecked cast, so a planet may carry any integer, not only the three
   * declared members Good = 0, Neutral = 1 and Bad = 2.
   */
  type PlanetType = int

  const Good: PlanetType := 0
  const Neutral: PlanetType := 1
  const Bad: PlanetType := 2

  /** A value with a declared enum member, and so a valid index into the per-type counts. */
  predicate IsDeclaredType(t: PlanetType) {
    t == Good || t == Neutral || t == Bad
  }

  /**
   * The state of one space object. `isImmortal` is only ever consulted for
   * moving objects (planets and power-ups); a sun's flag is always false.
   */
  datatype Body = Body(xPos: real, yPos: real, xVel: real, yVel: real, radius: real,
                       isDestroyed: bool, isImmortal: bool)

  /** A body built from `Coordinates` (SpaceObject's second constructor): alive, mortal. */
  function FromCoordinates(c: Coordinates): (b: Body)
    ensures CoordinatesOf(b) == c
    ensures !b.isDestroyed && !b.isImmortal
  {
    Body(c.xPos, c.yPos, c.xVel, c.yVel, c.radius, false, false)
  }

  function CoordinatesOf(b: Body): Coordinates {
    Coordinates(b.xPos, b.yPos, b.xVel, b.yVel, b.radius)
  }

  datatype Sun = Sun(body: Body, temperature: real, mass: real)

  datatype Planet = Planet(body: Body, kind: PlanetType)

  /**
   * The `IsDestroyed` setter of a moving object: assigning true to an immortal
   * object is ignored, every other assignment is stored. (A sun's setter is
   * the plain auto-property, written `b.(isDestroyed := v)` at its call sites.)
   */
  function SetDestroyed(b: Body, value: bool): (r: Body)
    ensures r.(isDestroyed := b.isDestroyed) == b
    ensures b.isImmortal && value ==> r == b
    ensures !value ==> !r.isDestroyed
    ensures !b.isImmortal ==> r.isDestroyed == value
  {
    if b.isImmortal && value then b else b.(isDestroyed := value)
  }

  /** Assigning the same value twice has the effect of assigning it once. */
  lemma SetDestroyedIdempotent(b: Body, value: bool)
    ensures SetDestroyed(SetDestroyed(b, value), value) == SetDestroyed(b, value)
  {
  }

  /** `MovingSpaceObject.UpdatePosition`: one tick of straight-line motion. */
  function UpdatePosition(b: Body): (r: Body)
    ensures r.xVel == b.xVel && r.yVel == b.yVel && r.radius == b.radius
    ensures r.isDestroyed == b.isDestroyed && r.isImmortal == b.isImmortal
    ensures (r.xPos - b.xPos) * SlowdownFactor == b.xVel
    ensures (r.yPos - b.yPos) * SlowdownFactor == b.yVel
  {
    b.(xPos := b.xPos + b.xVel / SlowdownFactor, yPos := b.yPos + b.yVel / SlowdownFactor)
  }

  /** `n` consecutive position updates. */
  function Drift(b: Body, n: nat): Body {
    if n == 0 then b else UpdatePosition(Drift(b, n - 1))
  }

  /** Without gravity, `n` ticks move a body by `n` twentieths of its velocity. */
  lemma {:induction false} DriftIsLinear(b: Body, n: nat)
    ensures Drift(b, n).xPos == b.xPos + (n as real) * b.xVel / SlowdownFactor
    ensures Drift(b, n).yPos == b.yPos + (n as real) * b.yVel / SlowdownFactor
    ensures CoordinatesOf(Drift(b, n)).(xPos := b.xPos, yPos := b.yPos) == CoordinatesOf(b)
  {
    if n > 0 {
      DriftIsLinear(b, n - 1);
    }
  }

  /** The square of `DistanceTo`, the Euclidean distance between the two centres. */
  function DistanceSquared(a: Body, b: Body): (d: real)
    ensures d >= 0.0
  {
    (a.xPos - b.xPos) * (a.xPos - b.xPos) + (a.yPos - b.yPos) * (a.yPos - b.yPos)
  }

  lemma DistanceSymmetric(a: Body, b: Body)
    ensures DistanceSquared(a, b) == DistanceSquared(b, a)
    ensures DistanceSquared(a, a) == 0.0
  {
  }

  /**
   * `HasCollidedWith`: the distance is strictly smaller than the sum of the
   * radii. With `s` the sum, `sqrt(d2) < s` holds exactly when `s > 0` and
   * `d2 < s * s` (see `CollisionMatchesDistance`).
   */
  predicate HasCollidedWith(a: Body, b: Body) {
    var s := a.radius + b.radius;
    s > 0.0 && DistanceSquared(a, b) < s * s
  }

  /** `DistanceTo(o) <= limit`, squared the same way. */
  predicate WithinDistance(a: Body, b: Body, limit: real) {
    limit >= 0.0 && DistanceSquared(a, b) <= limit * limit
  }

  lemma SquareMonotone(x: real, y: real)
    requires 0.0 <= x < y
    ensures x * x < y * y
  {
    var u, v := y - x, y + x;
    assert u > 0.0 && v > 0.0;
    assert u * v > 0.0;
    assert y * y - x * x == u * v;
  }

  /**
   * For the true distance `d` between the centres, the squared test agrees
   * with `d < a.radius + b.radius`.
   */
  lemma CollisionMatchesDistance(a: Body, b: Body, d: real)
    requires d >= 0.0 && d * d == DistanceSquared(a, b)
    ensures HasCollidedWith(a, b) <==> d < a.radius + b.radius
  {
    var s := a.radius + b.radius;
    if d < s {
      SquareMonotone(d, s);
    } else if s > 0.0 {
      if s < d { SquareMonotone(s, d); }
    }
  }

  /** Bodies whose centres are exactly the sum of the radii apart have not collided. */
  lemma TouchingIsNoCollision(a: Body, b: Body, d: real)
    requires d >= 0.0 && d * d == DistanceSquared(a, b)
    requires d == a.radius + b.radius
    ensures !HasCollidedWith(a, b)
  {
    CollisionMatchesDistance(a, b, d);
  }

  lemma CollisionSymmetric(a: Body, b: Body)
    ensures HasCollidedWith(a, b) <==> HasCollidedWith(b, a)
  {
    DistanceSymmetric(a, b);
  }

  /** For the true distance `d`, the squared test agrees with `d <= limit`. */
  lemma WithinMatchesDistance(a: Body, b: Body, d: real, limit: real)
    requires d >= 0.0 && d * d == DistanceSquared(a, b)
    ensures WithinDistance(a, b, limit) <==> d <= limit
  {
    if limit >= 0.0 && limit < d {
      SquareMonotone(limit, d);
    } else if d <= limit {
      if d < limit { SquareMonotone(d, limit); }
    }
  }

  /** Only position and radius decide a collision; the flags do not. */
  lemma CollisionIgnoresFlags(a: Body, b: Body, x: bool, y: bool)
    ensures HasCollidedWith(a.(isDestroyed := x), b.(isDestroyed := y)) == HasCollidedWith(a, b)
    ensures HasCollidedWith(SetDestroyed(a, x), SetDestroyed(b, y)) == HasCollidedWith(a, b)
  {
  }

  function SunBodies(suns: seq<Sun>): (r: seq<Body>)
    ensures |r| == |suns| && forall k :: 0 <= k < |suns| ==> r[k] == suns[k].body
  {
    seq(|suns|, k requires 0 <= k < |suns| => suns[k].body)
  }

  function PlanetBodies(planets: seq<Planet>): (r: seq<Body>)
    ensures |r| == |planets| && forall k :: 0 <= k < |planets| ==> r[k] == planets[k].body
  {
    seq(|planets|, k requires 0 <= k < |planets| => planets[k].body)
  }

  /** `target` is not destroyed and overlaps `b`: the test of every skip-destroyed loop. */
  predicate LiveHit(b: Body, target: Body) {
    !target.isDestroyed && HasCollidedWith(b, target)
  }

  /**
   * The index at which a `foreach`/`for` loop starting at `from` that skips
   * destroyed targets stops on its first collision with `b`.
   */
  function FirstLiveHit(targets: seq<Body>, b: Body, from: nat): (r: Option<nat>)
    requires from <= |targets|
    ensures r.Some? ==> from <= r.value < |targets| && LiveHit(b, targets[r.value])
    ensures r.Some? ==> forall k :: from <= k < r.value ==> !LiveHit(b, targets[k])
    ensures r.None? ==> forall k :: from <= k < |targets| ==> !LiveHit(b, targets[k])
    decreases |targets| - from
  {
    if from == |targets| then None
    else if LiveHit(b, targets[from]) then Some(from)
    else FirstLiveHit(targets, b, from + 1)
  }

  /** A scan that meets no live overlapping target finds nothing. */
  lemma NoLiveHitFindsNothing(targets: seq<Body>, b: Body, from: nat)
    requires from <= |targets|
    requires forall k :: from <= k < |targets| ==> !LiveHit(b, targets[k])
    ensures FirstLiveHit(targets, b, from) == None
  {
  }

  /** A scan stops at the least index of a live overlapping target. */
  lemma LeastLiveHitFound(targets: seq<Body>, b: Body, from: nat, k: nat)
    requires from <= k < |targets| && LiveHit(b, targets[k])
    requires forall m :: from <= m < k ==> !LiveHit(b, targets[m])
    ensures FirstLiveHit(targets, b, from) == Some(k)
  {
  }
}
