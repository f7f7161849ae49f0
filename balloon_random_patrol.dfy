/** The balloon patrol (`BalloonRandomPatrol`): the entity flies leg after leg
    between randomly chosen waypoints and never picks the waypoint it is
    already heading for twice in a row. Only the discrete part is modelled:
    which waypoint is chosen, how many random draws that takes, the state of
    the current leg, and when a leg counts as finished. The eased path and the
    noise offset are computed by the host and handed in as the new position. */
module Patrol {
  import opened Geometry

  /** `Random.Range(lo, hi)` as a stream of raw draws fixed in advance: each
      call consumes the next draw and reduces it into `[lo, hi)`. A finite
      stream stands for the generator's future; which values it holds is up to
      the caller, so every statement about a pick holds for every generator. */
  class RandomSource {
    var pending: seq<nat>

    constructor (draws: seq<nat>)
      ensures pending == draws
    {
      pending := draws;
    }

    method Range(lo: int, hi: int) returns (r: int)
      requires lo < hi && pending != []
      modifies this
      ensures lo <= r < hi
      ensures r == lo + old(pending)[0] % (hi - lo)
      ensures pending == old(pending)[1..]
    {
      r := lo + pending[0] % (hi - lo);
      pending := pending[1..];
    }
  }

  /** The index that the draw `d` yields for `n` waypoints. */
  function IndexOf(d: nat, n: nat): int
    requires n > 0
  {
    d % n
  }

  /** Some draw in `draws` yields an index other than `prev`: exactly when the
      rejection loop that avoids `prev` ends within these draws. */
  predicate Avoids(draws: seq<nat>, n: nat, prev: int)
    requires n > 0
  {
    exists k :: 0 <= k < |draws| && IndexOf(draws[k], n) != prev
  }

  /** The position of the draw that the rejection loop accepts: the first one
      whose index differs from `prev`; every draw before it is rejected. */
  function FirstAvoiding(draws: seq<nat>, n: nat, prev: int): (k: nat)
    requires n > 0 && Avoids(draws, n, prev)
    ensures k < |draws| && IndexOf(draws[k], n) != prev
    ensures forall j :: 0 <= j < k ==> IndexOf(draws[j], n) == prev
    decreases |draws|
  {
    if IndexOf(draws[0], n) != prev then 0
    else
      assert Avoids(draws[1..], n, prev) by {
        var w :| 0 <= w < |draws| && IndexOf(draws[w], n) != prev;
        assert 0 <= w - 1 < |draws[1..]| && draws[1..][w - 1] == draws[w];
      }
      1 + FirstAvoiding(draws[1..], n, prev)
  }

  /** The first pick, made while `currentTargetIndex` is still -1, accepts the
      very first draw: no index equals -1, so nothing is redrawn. */
  lemma FirstPickNeverRedraws(draws: seq<nat>, n: nat)
    requires n > 0 && draws != []
    ensures Avoids(draws, n, -1) && FirstAvoiding(draws, n, -1) == 0
  {
    assert IndexOf(draws[0], n) != -1;
  }

  /** With a single waypoint whose index is already the current target, no
      generator ever yields a different index: the rejection loop would never
      end. Only the guards of `Start` and `Update` keep it from being entered
      in that state. */
  lemma SingleWaypointNeverAvoids(draws: seq<nat>)
    ensures !Avoids(draws, 1, 0)
  {
    forall k | 0 <= k < |draws|
      ensures IndexOf(draws[k], 1) == 0
    {
    }
  }

  /** With two or more waypoints the loop does not end for every generator
      either: one that keeps repeating the current index keeps it spinning. */
  lemma RepeatingGeneratorNeverAvoids(n: nat, prev: nat, len: nat)
    requires prev < n
    ensures !Avoids(seq(len, _ => prev), n, prev)
  {
    var draws := seq(len, _ => prev);
    forall k | 0 <= k < |draws|
      ensures IndexOf(draws[k], n) == prev
    {
      assert draws[k] == prev;
    }
  }

  /** `fractionOfJourney >= 1f`, where `fractionOfJourney = distCovered /
      journeyLength`, read with IEEE division: over a zero-length leg a
      positive distance gives +Infinity (the leg is finished) while a zero
      distance gives NaN and a negative one -Infinity (it is not). */
  predicate JourneyComplete(distCovered: real, journeyLength: real) {
    if journeyLength == 0.0 then distCovered > 0.0
    else distCovered / journeyLength >= 1.0
  }

  /** On a leg of positive length the leg is finished exactly when the
      distance covered reaches its length; at `speed > 0` that is exactly when
      the time spent on it reaches `journeyLength / speed`. */
  lemma ArrivalTime(elapsed: real, speed: real, journeyLength: real)
    requires journeyLength > 0.0 && speed > 0.0
    ensures JourneyComplete(elapsed * speed, journeyLength) <==> elapsed * speed >= journeyLength
    ensures JourneyComplete(elapsed * speed, journeyLength) <==> elapsed >= journeyLength / speed
  {
    var q := elapsed * speed / journeyLength;
    assert q * journeyLength == elapsed * speed;
    if q >= 1.0 {
      assert q * journeyLength >= journeyLength;
    } else {
      assert q * journeyLength < journeyLength;
    }
    var t := journeyLength / speed;
    assert t * speed == journeyLength;
    if elapsed >= t {
      assert elapsed * speed >= t * speed;
    } else {
      assert elapsed * speed < t * speed;
    }
  }

  class BalloonRandomPatrol {
    /** The waypoints' positions; Unity reads them from transforms, which the
        patrol never moves. */
    const points: seq<Vec3>
    const speed: real
    /** Declared in the inspector but never read: arrival does not depend on
        it. */
    const reachThreshold: real
    /** `Vector3.magnitude`, a square root in single precision. */
    const magnitude: Vec3 -> real

    /** The entity's `transform.position`. */
    var position: Vec3

    var currentStartPos: Vec3
    var currentEndPos: Vec3
    var journeyLength: real
    var startTime: real
    var currentTargetIndex: int

    /** A fresh component: C# zero-initialises the leg and sets the target
        index to -1. */
    constructor (points: seq<Vec3>, speed: real, reachThreshold: real,
                 magnitude: Vec3 -> real, position: Vec3)
      ensures this.points == points && this.speed == speed
      ensures this.reachThreshold == reachThreshold && this.magnitude == magnitude
      ensures this.position == position
      ensures currentStartPos == ZERO && currentEndPos == ZERO
      ensures journeyLength == 0.0 && startTime == 0.0
      ensures currentTargetIndex == -1
    {
      this.points := points;
      this.speed := speed;
      this.reachThreshold := reachThreshold;
      this.magnitude := magnitude;
      this.position := position;
      currentStartPos, currentEndPos := ZERO, ZERO;
      journeyLength, startTime := 0.0, 0.0;
      currentTargetIndex := -1;
    }

    /** Starts a new leg from where the entity actually is, towards a random
        waypoint other than the current one, drawing again for as long as the
        draw repeats the current index. It consumes exactly the draws up to
        the first acceptable one. */
    method PickNewDestination(rng: RandomSource, now: real)
      requires |points| > 0
      requires Avoids(rng.pending, |points|, currentTargetIndex)
      modifies this, rng
      ensures 0 <= currentTargetIndex < |points|
      ensures currentTargetIndex != old(currentTargetIndex)
      ensures var k := FirstAvoiding(old(rng.pending), |points|, old(currentTargetIndex));
              currentTargetIndex == IndexOf(old(rng.pending)[k], |points|) &&
              rng.pending == old(rng.pending)[k + 1..]
      ensures currentStartPos == old(position)
      ensures currentEndPos == points[currentTargetIndex]
      ensures journeyLength == Distance(magnitude, currentStartPos, currentEndPos)
      ensures startTime == now
      ensures position == old(position)
    {
      ghost var draws, prev, n := rng.pending, currentTargetIndex, |points|;
      ghost var first := FirstAvoiding(draws, n, prev);
      currentStartPos := position;

      var newIndex := rng.Range(0, |points|);
      ghost var used := 0;
      while newIndex == currentTargetIndex
        invariant currentTargetIndex == prev && 0 <= used <= first
        invariant newIndex == IndexOf(draws[used], n)
        invariant rng.pending == draws[used + 1..]
        invariant currentStartPos == old(position) && position == old(position)
        decreases |rng.pending|
      {
        newIndex := rng.Range(0, |points|);
        used := used + 1;
      }

      currentTargetIndex := newIndex;
      currentEndPos := points[currentTargetIndex];
      journeyLength := Distance(magnitude, currentStartPos, currentEndPos);
      startTime := now;
    }

    /** Snaps the entity to the first waypoint and picks the first leg; with
        no waypoints it does nothing. */
    method Start(rng: RandomSource, now: real)
      requires |points| > 0 ==> Avoids(rng.pending, |points|, currentTargetIndex)
      modifies this, rng
      ensures |points| == 0 ==> unchanged(this) && unchanged(rng)
      ensures |points| > 0 ==>
        position == points[0] && currentStartPos == points[0] &&
        0 <= currentTargetIndex < |points| && currentTargetIndex != old(currentTargetIndex) &&
        currentEndPos == points[currentTargetIndex] &&
        journeyLength == Distance(magnitude, points[0], currentEndPos) && startTime == now
      ensures |points| > 0 && old(currentTargetIndex) == -1 ==>
        currentTargetIndex == IndexOf(old(rng.pending)[0], |points|) &&
        rng.pending == old(rng.pending)[1..]
    {
      if |points| == 0 {
        return;
      }
      position := points[0];
      currentStartPos := points[0];
      if currentTargetIndex == -1 {
        FirstPickNeverRedraws(rng.pending, |points|);
      }
      PickNewDestination(rng, now);
    }

    /** One frame. With fewer than two waypoints nothing happens. Otherwise the
        entity moves to `newPosition` (the eased point of the leg plus noise,
        computed by the host), and a new leg starts from there in the same
        frame exactly when the current one is finished. */
    method Update(rng: RandomSource, now: real, newPosition: Vec3)
      requires |points| >= 2 && JourneyComplete((now - startTime) * speed, journeyLength) ==>
        Avoids(rng.pending, |points|, currentTargetIndex)
      modifies this, rng
      ensures |points| < 2 ==> unchanged(this) && unchanged(rng)
      ensures |points| >= 2 ==> position == newPosition
      ensures |points| >= 2 && JourneyComplete((old(now - startTime)) * speed, old(journeyLength)) ==>
        0 <= currentTargetIndex < |points| && currentTargetIndex != old(currentTargetIndex) &&
        currentStartPos == newPosition && currentEndPos == points[currentTargetIndex] &&
        journeyLength == Distance(magnitude, newPosition, currentEndPos) && startTime == now
      ensures |points| >= 2 && JourneyComplete((old(now - startTime)) * speed, old(journeyLength)) ==>
        var k := FirstAvoiding(old(rng.pending), |points|, old(currentTargetIndex));
        currentTargetIndex == IndexOf(old(rng.pending)[k], |points|) &&
        rng.pending == old(rng.pending)[k + 1..]
      ensures |points| >= 2 && !JourneyComplete((old(now - startTime)) * speed, old(journeyLength)) ==>
        currentTargetIndex == old(currentTargetIndex) &&
        currentStartPos == old(currentStartPos) && currentEndPos == old(currentEndPos) &&
        journeyLength == old(journeyLength) && startTime == old(startTime) &&
        unchanged(rng)
    {
      if |points| < 2 {
        return;
      }
      var distCovered := (now - startTime) * speed;
      var finished := JourneyComplete(distCovered, journeyLength);
      position := newPosition;
      if finished {
        PickNewDestination(rng, now);
      }
    }
  }
}
