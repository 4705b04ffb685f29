/** The ring of entry dots on the mood seal (physics/SealPhysicsEngine.kt).
    Each dot has an angle on the ring and an angular velocity; one `step`
    moves the dots, pushes overlapping pairs apart, trades their velocities
    and reports the hard impacts, then applies friction. */
module SealPhysics {

  import opened InfluenceMath

  /** Velocity kept by each dot of a colliding pair (restitution). */
  const Restitution: real := 0.9
  /** Velocity kept per step, whatever the step's length. */
  const Friction: real := 0.97
  /** Velocities below this magnitude after friction stop the dot. */
  const RestThreshold: real := 0.05
  /** Relative velocity that counts as the strongest possible impact. */
  const ImpactScale: real := 720.0
  /** Impacts of this normalised strength or less are not reported. */
  const ImpactFloor: real := 0.15

  /** The ring as the step sees it, plus what the step reported: the impact
      strengths passed to `onImpact`, in call order, and the dots that took
      part in a collision. */
  datatype Ring = Ring(angles: seq<real>, velocities: seq<real>, impacts: seq<real>, collided: set<nat>)

  ghost predicate Normalised(s: seq<real>) {
    forall k :: 0 <= k < |s| ==> 0.0 <= s[k] < 360.0
  }

  ghost predicate ReportedStrengths(s: seq<real>) {
    forall k :: 0 <= k < |s| ==> ImpactFloor < s[k] <= 1.0
  }

  /** What every part of a step keeps: the lengths, normalised angles, the
      reports already made, and the velocity of every dot that did not collide. */
  ghost predicate Conserves(r: Ring, r': Ring) {
    && |r'.angles| == |r.angles|
    && |r'.velocities| == |r.velocities|
    && (Normalised(r.angles) ==> Normalised(r'.angles))
    && r.impacts <= r'.impacts
    && (ReportedStrengths(r.impacts) ==> ReportedStrengths(r'.impacts))
    && r.collided <= r'.collided
    && (forall k :: 0 <= k < |r.velocities| && k !in r'.collided ==> r'.velocities[k] == r.velocities[k])
  }

  lemma ConservesTransitive(r: Ring, r': Ring, r'': Ring)
    requires Conserves(r, r') && Conserves(r', r'')
    ensures Conserves(r, r'')
  {
  }

  /** Clamps to [0, 1]. */
  function Clamp01(x: real): (c: real)
    ensures 0.0 <= c <= 1.0
    ensures 0.0 <= x <= 1.0 ==> c == x
  {
    if x < 0.0 then 0.0 else if x > 1.0 then 1.0 else x
  }

  /** The normalised strength of an impact between velocities `vi` and `vj`. */
  function ImpactStrength(vi: real, vj: real): (s: real)
    ensures 0.0 <= s <= 1.0
    ensures s > ImpactFloor <==> Abs(vi - vj) > 108.0
  {
    Clamp01(Abs(vi - vj) / ImpactScale)
  }

  /** Pass 1: every dot moves by velocity times the step's length, and its
      angle is wrapped into [0, 360). */
  function Integrate(angles: seq<real>, velocities: seq<real>, deltaSeconds: real): (moved: seq<real>)
    requires |angles| <= |velocities|
    ensures |moved| == |angles| && Normalised(moved)
  {
    seq(|angles|, k requires 0 <= k < |angles| => Advance(angles[k], velocities[k], deltaSeconds))
  }

  /** One dot of pass 1. */
  function Advance(angle: real, velocity: real, deltaSeconds: real): (moved: real)
    ensures 0.0 <= moved < 360.0
  {
    NormalizeAngle(angle + velocity * deltaSeconds)
  }

  /** How far each dot of an overlapping pair is pushed, `direction *
      overlap / 2`: half the overlap, signed by the push direction, which is
      +1 when `b` lies less than half a turn counter-clockwise of `a` and -1
      otherwise. */
  function PairShift(a: real, b: real, minSep: real): (shift: real)
    ensures AngularDistance(a, b) < minSep ==>
      2.0 * Abs(shift) == minSep - AngularDistance(a, b) && (shift > 0.0 <==> SignedDelta(a, b) > 0.0)
  {
    var half := (minSep - AngularDistance(a, b)) / 2.0;
    if SignedDelta(a, b) > 0.0 then half else -half
  }

  /** The push of a colliding pair: dot i moves back by `shift`, dot j on by
      `shift`, both wrapped into [0, 360). */
  function PushApart(angles: seq<real>, i: nat, j: nat, shift: real): (pushed: seq<real>)
    requires i < j < |angles|
    ensures |pushed| == |angles|
  {
    angles[i := NormalizeAngle(angles[i] - shift)][j := NormalizeAngle(angles[j] + shift)]
  }

  /** The velocity exchange of a colliding pair, with restitution. */
  function Trade(velocities: seq<real>, i: nat, j: nat): (traded: seq<real>)
    requires i < j < |velocities|
    ensures |traded| == |velocities|
  {
    velocities[i := velocities[j] * Restitution][j := velocities[i] * Restitution]
  }

  /** One pair (i, j) of pass 2: when the dots are closer than the minimum
      separation they are pushed apart by half the overlap each, trade their
      velocities with restitution, and a hard enough impact is reported. */
  function ResolvePair(r: Ring, i: nat, j: nat, minSep: real): (r': Ring)
    requires i < j < |r.angles| <= |r.velocities|
    ensures |r'.angles| == |r.angles| && |r'.velocities| == |r.velocities|
    ensures AngularDistance(r.angles[i], r.angles[j]) >= minSep ==> r' == r
    ensures AngularDistance(r.angles[i], r.angles[j]) < minSep ==>
      && r'.collided == r.collided + {i, j}
      && r'.velocities[i] == r.velocities[j] * Restitution
      && r'.velocities[j] == r.velocities[i] * Restitution
      && (forall k :: 0 <= k < |r.angles| && k != i && k != j ==> r'.angles[k] == r.angles[k])
      && r.impacts <= r'.impacts && |r'.impacts| <= |r.impacts| + 1
  {
    var a := r.angles[i];
    var b := r.angles[j];
    var dist := AngularDistance(a, b);
    if dist < minSep then
      var angles := PushApart(r.angles, i, j, PairShift(a, b, minSep));
      var strength := ImpactStrength(r.velocities[i], r.velocities[j]);
      var impacts := if strength > ImpactFloor then r.impacts + [strength] else r.impacts;
      Ring(angles, Trade(r.velocities, i, j), impacts, r.collided + {i, j})
    else r
  }

  /** Resolving a pair keeps the lengths, keeps angles normalised, only adds
      reports, and changes only the velocities of the pair it marks collided. */
  lemma ResolvePairConserves(r: Ring, i: nat, j: nat, minSep: real)
    requires i < j < |r.angles| <= |r.velocities|
    ensures Conserves(r, ResolvePair(r, i, j, minSep))
  {
  }

  /** Pairs (i, i + 1), ..., (i, j - 1) of pass 2, in that order. */
  function ResolveRow(r: Ring, i: nat, j: nat, minSep: real): (r': Ring)
    requires i < |r.angles| <= |r.velocities| && j <= |r.angles|
    ensures Conserves(r, r')
    decreases j
  {
    if j <= i + 1 then r
    else
      var before := ResolveRow(r, i, j - 1, minSep);
      var after := ResolvePair(before, i, j - 1, minSep);
      ResolvePairConserves(before, i, j - 1, minSep);
      ConservesTransitive(r, before, after);
      after
  }

  /** Rows 0, ..., i - 1 of pass 2: every pair is resolved once, in
      ascending (i, j) order, and each pair sees the angles and velocities
      left by the pairs before it. */
  function ResolveRows(r: Ring, i: nat, minSep: real): (r': Ring)
    requires i <= |r.angles| <= |r.velocities|
    ensures Conserves(r, r')
  {
    if i == 0 then r
    else
      var before := ResolveRows(r, i - 1, minSep);
      var after := ResolveRow(before, i - 1, |before.angles|, minSep);
      ConservesTransitive(r, before, after);
      after
  }

  /** Pass 3 for one velocity. */
  function Damp(v: real): (w: real)
    ensures w == 0.0 || Abs(w) >= RestThreshold
    ensures Abs(w) <= Abs(v)
    ensures w != 0.0 ==> w == v * Friction
  {
    var w := v * Friction;
    if Abs(w) < RestThreshold then 0.0 else w
  }

  function DampAll(velocities: seq<real>): (damped: seq<real>)
    ensures |damped| == |velocities|
    ensures forall k :: 0 <= k < |velocities| ==> damped[k] == Damp(velocities[k])
  {
    seq(|velocities|, k requires 0 <= k < |velocities| => Damp(velocities[k]))
  }

  /** The whole `step`. A ring without dots is left alone, friction included. */
  function StepSpec(angles: seq<real>, velocities: seq<real>, deltaSeconds: real, minSep: real): (r: Ring)
    requires |angles| <= |velocities|
    ensures |angles| == 0 ==> r == Ring(angles, velocities, [], {})
    ensures |r.angles| == |angles| && |r.velocities| == |velocities|
  {
    if |angles| == 0 then Ring(angles, velocities, [], {})
    else
      var resolved := ResolveRows(Ring(Integrate(angles, velocities, deltaSeconds), velocities, [], {}), |angles|, minSep);
      Ring(resolved.angles, DampAll(resolved.velocities), resolved.impacts, resolved.collided)
  }

  class SealPhysicsEngine {

    const minSeparationDeg: real

    constructor (minSeparationDeg: real)
      ensures this.minSeparationDeg == minSeparationDeg
    {
      this.minSeparationDeg := minSeparationDeg;
    }

    /** `step`, updating the two lists in place. The strengths handed to
        `onImpact` are returned, in call order, as `impacts`. */
    method Step(angles: array<real>, velocities: array<real>, deltaSeconds: real) returns (ghost impacts: seq<real>)
      requires angles.Length <= velocities.Length
      requires angles != velocities
      modifies angles, velocities
      ensures var r := StepSpec(old(angles[..]), old(velocities[..]), deltaSeconds, minSeparationDeg);
        angles[..] == r.angles && velocities[..] == r.velocities && impacts == r.impacts
    {
      impacts := [];
      if angles.Length == 0 {
        return;
      }
      IntegratePass(angles, velocities, deltaSeconds);
      ghost var collided;
      impacts, collided := CollisionPass(angles, velocities);
      FrictionPass(velocities);
    }

    /** Pass 1: `for (i in angles.indices)`. */
    method IntegratePass(angles: array<real>, velocities: array<real>, deltaSeconds: real)
      requires angles.Length <= velocities.Length
      requires angles != velocities
      modifies angles
      ensures angles[..] == Integrate(old(angles[..]), velocities[..], deltaSeconds)
    {
      for i := 0 to angles.Length
        invariant forall k :: 0 <= k < i ==> angles[k] == Advance(old(angles[k]), velocities[k], deltaSeconds)
        invariant forall k :: i <= k < angles.Length ==> angles[k] == old(angles[k])
      {
        angles[i] := Advance(angles[i], velocities[i], deltaSeconds);
      }
    }

    /** Pass 2: every pair i < j, row by row. */
    method CollisionPass(angles: array<real>, velocities: array<real>) returns (ghost impacts: seq<real>, ghost collided: set<nat>)
      requires angles.Length <= velocities.Length
      requires angles != velocities
      modifies angles, velocities
      ensures Ring(angles[..], velocities[..], impacts, collided)
           == ResolveRows(Ring(old(angles[..]), old(velocities[..]), [], {}), angles.Length, minSeparationDeg)
    {
      ghost var start := Ring(angles[..], velocities[..], [], {});
      impacts, collided := [], {};
      for i := 0 to angles.Length
        invariant Ring(angles[..], velocities[..], impacts, collided) == ResolveRows(start, i, minSeparationDeg)
      {
        impacts, collided := ResolveRowInPlace(angles, velocities, i, impacts, collided);
      }
    }

    /** The inner loop of pass 2 for row i: pairs (i, i + 1), ..., (i, n - 1). */
    method ResolveRowInPlace(angles: array<real>, velocities: array<real>, i: nat,
                             ghost impacts: seq<real>, ghost collided: set<nat>)
      returns (ghost impacts': seq<real>, ghost collided': set<nat>)
      requires angles != velocities
      requires i < angles.Length <= velocities.Length
      modifies angles, velocities
      ensures Ring(angles[..], velocities[..], impacts', collided')
           == ResolveRow(Ring(old(angles[..]), old(velocities[..]), impacts, collided), i, angles.Length, minSeparationDeg)
    {
      ghost var row := Ring(angles[..], velocities[..], impacts, collided);
      impacts', collided' := impacts, collided;
      for j := i + 1 to angles.Length
        invariant Ring(angles[..], velocities[..], impacts', collided') == ResolveRow(row, i, j, minSeparationDeg)
      {
        impacts', collided' := ResolvePairInPlace(angles, velocities, i, j, impacts', collided');
      }
    }

    /** Pass 3: `for (i in velocities.indices)`. */
    method FrictionPass(velocities: array<real>)
      modifies velocities
      ensures velocities[..] == DampAll(old(velocities[..]))
    {
      for i := 0 to velocities.Length
        invariant forall k :: 0 <= k < i ==> velocities[k] == Damp(old(velocities[k]))
        invariant forall k :: i <= k < velocities.Length ==> velocities[k] == old(velocities[k])
      {
        velocities[i] := velocities[i] * Friction;
        if Abs(velocities[i]) < RestThreshold {
          velocities[i] := 0.0;
        }
      }
    }

    /** The body of the pair loop for the pair (i, j). */
    method ResolvePairInPlace(angles: array<real>, velocities: array<real>, i: nat, j: nat,
                              ghost impacts: seq<real>, ghost collided: set<nat>)
      returns (ghost impacts': seq<real>, ghost collided': set<nat>)
      requires angles != velocities
      requires i < j < angles.Length <= velocities.Length
      modifies angles, velocities
      ensures Ring(angles[..], velocities[..], impacts', collided')
           == ResolvePair(Ring(old(angles[..]), old(velocities[..]), impacts, collided), i, j, minSeparationDeg)
    {
      impacts', collided' := impacts, collided;
      var a := angles[i];
      var b := angles[j];
      var dist := AngularDistance(a, b);
      if dist < minSeparationDeg {
        var overlap := minSeparationDeg - dist;
        var direction := if Rem360(b - a + 540.0) - 180.0 > 0.0 then 1.0 else -1.0;
        var shift := direction * overlap / 2.0;
        assert shift == PairShift(a, b, minSeparationDeg) by {
          if direction > 0.0 {
            assert shift == overlap / 2.0;
          } else {
            assert shift == -(overlap / 2.0);
          }
        }
        PushApartInPlace(angles, i, j, shift);
        var vi := velocities[i];
        var vj := velocities[j];
        TradeInPlace(velocities, i, j);
        var relativeVelocity := Abs(vi - vj);
        var normalizedImpact := Clamp01(relativeVelocity / ImpactScale);
        if normalizedImpact > ImpactFloor {
          impacts' := impacts' + [normalizedImpact];
        }
        collided' := collided' + {i, j};
      }
    }

    /** The two angle writes of a colliding pair. */
    method PushApartInPlace(angles: array<real>, i: nat, j: nat, shift: real)
      requires i < j < angles.Length
      modifies angles
      ensures angles[..] == PushApart(old(angles[..]), i, j, shift)
    {
      angles[i] := NormalizeAngle(angles[i] - shift);
      angles[j] := NormalizeAngle(angles[j] + shift);
    }

    /** The two velocity writes of a colliding pair. */
    method TradeInPlace(velocities: array<real>, i: nat, j: nat)
      requires i < j < velocities.Length
      modifies velocities
      ensures velocities[..] == Trade(old(velocities[..]), i, j)
    {
      var vi := velocities[i];
      var vj := velocities[j];
      velocities[i] := vj * Restitution;
      velocities[j] := vi * Restitution;
    }
  }

  /* ---------------- properties of one step ---------------- */

  /** A ring without dots is left exactly as it was and reports nothing. */
  lemma EmptyRingIsNoOp(velocities: seq<real>, deltaSeconds: real, minSep: real)
    ensures StepSpec([], velocities, deltaSeconds, minSep) == Ring([], velocities, [], {})
  {
  }

  /** A step keeps both lengths, leaves every angle in [0, 360), reports only
      strengths in (0.15, 1], and leaves every velocity at rest or at least
      at the rest threshold. */
  lemma {:induction false} StepShape(angles: seq<real>, velocities: seq<real>, deltaSeconds: real, minSep: real)
    requires 0 < |angles| <= |velocities|
    ensures var r := StepSpec(angles, velocities, deltaSeconds, minSep);
      && |r.angles| == |angles| && |r.velocities| == |velocities|
      && Normalised(r.angles)
      && ReportedStrengths(r.impacts)
      && (forall k :: 0 <= k < |r.velocities| ==> r.velocities[k] == 0.0 || Abs(r.velocities[k]) >= RestThreshold)
  {
    var start := Ring(Integrate(angles, velocities, deltaSeconds), velocities, [], {});
    var resolved := ResolveRows(start, |angles|, minSep);
    assert Conserves(start, resolved);
  }

  /** A dot that took part in no collision never speeds up. */
  lemma {:induction false} UntouchedDotSlowsDown(angles: seq<real>, velocities: seq<real>, deltaSeconds: real, minSep: real, k: nat)
    requires 0 < |angles| <= |velocities| && k < |velocities|
    requires k !in StepSpec(angles, velocities, deltaSeconds, minSep).collided
    ensures Abs(StepSpec(angles, velocities, deltaSeconds, minSep).velocities[k]) <= Abs(velocities[k])
  {
    var start := Ring(Integrate(angles, velocities, deltaSeconds), velocities, [], {});
    var resolved := ResolveRows(start, |angles|, minSep);
    assert Conserves(start, resolved);
  }

  /** What one pair does: nothing unless the dots overlap; otherwise each
      takes 0.9 of the other's velocity, nothing else changes speed, and an
      impact of strength in (0.15, 1] is reported exactly when the relative
      velocity exceeds 108 degrees per second. */
  lemma {:induction false} PairRule(r: Ring, i: nat, j: nat, minSep: real)
    requires i < j < |r.angles| <= |r.velocities|
    ensures var r' := ResolvePair(r, i, j, minSep);
      var collide := AngularDistance(r.angles[i], r.angles[j]) < minSep;
      var vi, vj := r.velocities[i], r.velocities[j];
      && (!collide ==> r' == r)
      && (collide ==>
            && r'.velocities[i] == 0.9 * vj && r'.velocities[j] == 0.9 * vi
            && (forall k :: 0 <= k < |r.velocities| && k != i && k != j ==> r'.velocities[k] == r.velocities[k])
            && (forall k :: 0 <= k < |r.angles| && k != i && k != j ==> r'.angles[k] == r.angles[k]))
      && (|r'.impacts| == |r.impacts| + 1 <==> collide && Abs(vi - vj) > 108.0)
      && (|r'.impacts| == |r.impacts| ==> r'.impacts == r.impacts)
      && (|r'.impacts| == |r.impacts| + 1 ==>
            r'.impacts == r.impacts + [ImpactStrength(vi, vj)] && ImpactFloor < ImpactStrength(vi, vj) <= 1.0)
  {
  }

  /** Two overlapping dots at rest are pushed apart symmetrically: each moves
      by half the overlap, in opposite directions along the shorter arc, and
      they end exactly the minimum separation apart. */
  lemma {:induction false} PairSeparates(a: real, b: real, minSep: real)
    requires 0.0 <= a < 360.0 && 0.0 <= b < 360.0
    requires AngularDistance(a, b) < minSep <= 180.0
    ensures var r' := ResolvePair(Ring([a, b], [0.0, 0.0], [], {}), 0, 1, minSep);
      var half := (minSep - AngularDistance(a, b)) / 2.0;
      && Abs(PairShift(a, b, minSep)) == half
      && SignedDelta(a, r'.angles[0]) == -PairShift(a, b, minSep)
      && SignedDelta(b, r'.angles[1]) == PairShift(a, b, minSep)
      && AngularDistance(r'.angles[0], r'.angles[1]) == minSep
      && r'.velocities == [0.0, 0.0] && r'.impacts == []
  {
    var x := PairShift(a, b, minSep);
    var r' := ResolvePair(Ring([a, b], [0.0, 0.0], [], {}), 0, 1, minSep);
    assert r' == Ring([NormalizeAngle(a - x), NormalizeAngle(b + x)], [0.0, 0.0], [], {0, 1}) by {
      RestingPair(a, b, minSep);
    }
    PushMovesHalf(a, b, x);
    PushedApart(a, b, minSep, x);
  }

  /** The pair step on a two-dot ring at rest, written out. */
  lemma RestingPair(a: real, b: real, minSep: real)
    requires AngularDistance(a, b) < minSep
    ensures var x := PairShift(a, b, minSep);
      ResolvePair(Ring([a, b], [0.0, 0.0], [], {}), 0, 1, minSep)
        == Ring([NormalizeAngle(a - x), NormalizeAngle(b + x)], [0.0, 0.0], [], {0, 1})
  {
    var x := PairShift(a, b, minSep);
    assert PushApart([a, b], 0, 1, x) == [NormalizeAngle(a - x), NormalizeAngle(b + x)];
    assert Trade([0.0, 0.0], 0, 1) == [0.0, 0.0];
    assert ImpactStrength(0.0, 0.0) == 0.0;
  }

  /** Each dot of the pair is seen to move by exactly its share of the push. */
  lemma {:induction false} PushMovesHalf(a: real, b: real, x: real)
    requires 0.0 <= a < 360.0 && 0.0 <= b < 360.0 && -90.0 <= x <= 90.0
    ensures SignedDelta(a, NormalizeAngle(a - x)) == -x
    ensures SignedDelta(b, NormalizeAngle(b + x)) == x
  {
    SignedDeltaOfShift(a, -x);
    assert a + -x == a - x;
    SignedDeltaOfShift(b, x);
  }

  /** The push leaves the pair exactly `minSep` apart. */
  lemma {:induction false} PushedApart(a: real, b: real, minSep: real, x: real)
    requires 0.0 <= a < 360.0 && 0.0 <= b < 360.0
    requires AngularDistance(a, b) < minSep <= 180.0
    requires x == PairShift(a, b, minSep)
    ensures AngularDistance(NormalizeAngle(a - x), NormalizeAngle(b + x)) == minSep
  {
    var s := SignedDelta(a, b);
    var t := -2.0 * x - s;
    assert Fold(Mod360(t)) == minSep by {
      SignedDeltaOfCanonical(a, b);
      HalfOverlap(s, AngularDistance(a, b), minSep, x);
      FoldOfHalfTurn(minSep);
    }
    assert Mod360((a - x) - (b + x)) == Mod360(t) by {
      SignedDeltaOfCanonical(a, b);
      ShiftedDifference(a, b, x, s);
    }
    assert AngularDistance(NormalizeAngle(a - x), NormalizeAngle(b + x)) == Fold(Mod360((a - x) - (b + x))) by {
      DistanceOfNormalizedIsFolded(a - x, b + x);
    }
  }

  /** Pushing both ends shifts their difference by twice the push. */
  lemma ShiftedDifference(a: real, b: real, x: real, s: real)
    requires Mod360(s) == Mod360(b - a)
    ensures Mod360((a - x) - (b + x)) == Mod360(-2.0 * x - s)
  {
    assert (a - x) - (b + x) == -2.0 * x - (b - a);
    ModCongruent(s, b - a, -2.0 * x);
  }

  /** The arithmetic of the push: twice the shift plus the signed delta is
      the minimum separation, up to sign. */
  lemma HalfOverlap(s: real, dist: real, minSep: real, x: real)
    requires s > 0.0 ==> s == dist
    requires s <= 0.0 ==> s == -dist
    requires x == (if s > 0.0 then (minSep - dist) / 2.0 else -((minSep - dist) / 2.0))
    ensures -2.0 * x - s == -minSep || -2.0 * x - s == minSep
  {
  }

  /** A ring at rest whose dots are normalised and pairwise at least the
      minimum separation apart is left exactly as it was. */
  lemma {:induction false} SettledRingStaysPut(angles: seq<real>, velocities: seq<real>, deltaSeconds: real, minSep: real)
    requires |angles| <= |velocities|
    requires forall k :: 0 <= k < |velocities| ==> velocities[k] == 0.0
    requires Normalised(angles)
    requires forall p, q :: 0 <= p < q < |angles| ==> AngularDistance(angles[p], angles[q]) >= minSep
    ensures StepSpec(angles, velocities, deltaSeconds, minSep) ==
      Ring(angles, velocities, [], {})
  {
    if |angles| > 0 {
      var moved := Integrate(angles, velocities, deltaSeconds);
      forall k | 0 <= k < |angles|
        ensures moved[k] == angles[k]
      {
        assert angles[k] + velocities[k] * deltaSeconds == angles[k];
        NormalizeFixesCanonical(angles[k]);
      }
      assert moved == angles;
      var start := Ring(angles, velocities, [], {});
      SeparatedRowsUnchanged(start, |angles|, minSep);
      assert DampAll(velocities) == velocities;
    }
  }

  lemma {:induction false} SeparatedRowUnchanged(r: Ring, i: nat, j: nat, minSep: real)
    requires i < |r.angles| <= |r.velocities| && j <= |r.angles|
    requires forall p, q :: 0 <= p < q < |r.angles| ==> AngularDistance(r.angles[p], r.angles[q]) >= minSep
    ensures ResolveRow(r, i, j, minSep) == r
    decreases j
  {
    if j > i + 1 {
      SeparatedRowUnchanged(r, i, j - 1, minSep);
    }
  }

  lemma {:induction false} SeparatedRowsUnchanged(r: Ring, i: nat, minSep: real)
    requires i <= |r.angles| <= |r.velocities|
    requires forall p, q :: 0 <= p < q < |r.angles| ==> AngularDistance(r.angles[p], r.angles[q]) >= minSep
    ensures ResolveRows(r, i, minSep) == r
  {
    if i > 0 {
      SeparatedRowsUnchanged(r, i - 1, minSep);
      SeparatedRowUnchanged(r, i - 1, |r.angles|, minSep);
    }
  }

  /** A worked step: dots at 0 and 5 degrees with velocities 100 and -40,
      minimum separation 20, no time elapsed. The pair is pushed to 352.5 and
      12.5, the velocities become -36 and 90 and then -34.92 and 87.3 after
      friction, and one impact of strength 140 / 720 is reported. */
  lemma CollisionExample()
    ensures StepSpec([0.0, 5.0], [100.0, -40.0], 0.0, 20.0)
         == Ring([352.5, 12.5], [-34.92, 87.3], [7.0 / 36.0], {0, 1})
  {
    ExampleAtRest();
    ExampleRows();
    ExampleFriction();
  }

  /** The collision pass of the worked step: only the pair (0, 1) acts. */
  lemma ExampleRows()
    ensures ResolveRows(Ring([0.0, 5.0], [100.0, -40.0], [], {}), 2, 20.0)
         == Ring([352.5, 12.5], [-36.0, 90.0], [7.0 / 36.0], {0, 1})
  {
    var start := Ring([0.0, 5.0], [100.0, -40.0], [], {});
    var pushed := Ring([352.5, 12.5], [-36.0, 90.0], [7.0 / 36.0], {0, 1});
    ExamplePair();
    assert ResolveRow(start, 0, 2, 20.0) == pushed by {
      assert ResolveRow(start, 0, 1, 20.0) == start;
    }
    assert ResolveRows(start, 1, 20.0) == pushed;
    assert ResolveRow(pushed, 1, 2, 20.0) == pushed;
  }

  lemma ExampleAtRest()
    ensures Integrate([0.0, 5.0], [100.0, -40.0], 0.0) == [0.0, 5.0]
  {
    var m := Integrate([0.0, 5.0], [100.0, -40.0], 0.0);
    assert m[0] == Advance(0.0, 100.0, 0.0) == NormalizeAngle(0.0) by {
      assert 0.0 + 100.0 * 0.0 == 0.0;
    }
    assert m[1] == Advance(5.0, -40.0, 0.0) == NormalizeAngle(5.0) by {
      assert 5.0 + -40.0 * 0.0 == 5.0;
    }
    NormalizeFixesCanonical(0.0);
    NormalizeFixesCanonical(5.0);
  }

  lemma ExamplePair()
    ensures ResolvePair(Ring([0.0, 5.0], [100.0, -40.0], [], {}), 0, 1, 20.0)
         == Ring([352.5, 12.5], [-36.0, 90.0], [7.0 / 36.0], {0, 1})
  {
    ExampleGeometry();
    assert ImpactStrength(100.0, -40.0) == 7.0 / 36.0;
  }

  lemma ExampleGeometry()
    ensures AngularDistance(0.0, 5.0) == 5.0
    ensures PairShift(0.0, 5.0, 20.0) == 7.5
    ensures NormalizeAngle(0.0 - 7.5) == 352.5
    ensures NormalizeAngle(5.0 + 7.5) == 12.5
  {
    DistanceIsFoldedDifference(0.0, 5.0);
    ModUnique(-5.0, 355.0, -1);
    assert Rem360(545.0) == 185.0 by {
      assert Trunc(545.0 / 360.0) == 1;
    }
    ModUnique(-7.5, 352.5, -1);
    ModUnique(12.5, 12.5, 0);
  }

  lemma ExampleFriction()
    ensures DampAll([-36.0, 90.0]) == [-34.92, 87.3]
  {
    assert Damp(-36.0) == -34.92;
    assert Damp(90.0) == 87.3;
  }
}
