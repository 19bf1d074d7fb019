/** What the follower does in every situation: without a target, with one near or far, to either side, in a search. */
module FollowCourse {
  import opened Contracts
  import opened FollowModel
  import opened FollowRuns

  // ---- What counts as a target ----

  /** Fresh enough, visible, and located. */
  predicate Shows(c: Config, r: Received, now: real) {
    && now - r.at <= c.staleAfter
    && r.observation.visible && r.observation.center.Some? && r.observation.proximity.Some?
  }

  predicate Scans(c: Config, r: Received, now: real) {
    now - r.at <= c.staleAfter && !r.observation.visible && r.observation.scanning
  }

  /** Whatever does not show the target, and is no identity scan, is treated exactly like receiving nothing. */
  lemma NothingShownIsNothing(c: Config, s: Follower, r: Received, now: real)
    requires ValidConfig(c) && !Shows(c, r, now) && !Scans(c, r, now)
    ensures Step(c, s, Some(r), now) == Step(c, s, None, now)
    ensures Step(c, s, None, now).1.state in {Lost, Search, Relocate}
  {
  }

  /** A target is answered by turning, approaching or holding; an identity scan by standing still. */
  lemma ShownTargetIsAnswered(c: Config, s: Follower, r: Received, now: real)
    requires ValidConfig(c)
    ensures Shows(c, r, now) ==> Step(c, s, Some(r), now).1.state in {Align, Follow, Hold}
    ensures Scans(c, r, now) ==> Step(c, s, Some(r), now).1 == Decision(Observe, 0.0, 0.0, 0.0)
  {
  }

  // ---- Smoothing ----

  /** The first observation after a loss, or ever, is taken as it is; the centre of the image is no error. */
  lemma FirstObservationIsTaken(c: Config, s: Follower, lost: Option<Received>, before: real, r: Received, now: real)
    requires ValidConfig(c) && Shows(c, r, now)
    requires match lost case None => true case Some(other) => !Shows(c, other, before)
    ensures
      var n := Step(c, Step(c, s, lost, before).0, Some(r), now).0;
      n.smoothed == Some(Smoothed(2.0 * r.observation.center.value - 1.0, r.observation.proximity.value))
  {
  }

  /** A further observation moves the smoothed values by the same fraction of the way, towards what it shows. */
  lemma SmoothingIsProportional(c: Config, s: Follower, r: Received, now: real)
    requires ValidConfig(c) && Shows(c, r, now) && s.smoothed.Some? && s.lastKey != Some(r.observation.key)
    ensures
      var was, n := s.smoothed.value, Step(c, s, Some(r), now).0;
      && n.smoothed.Some?
      && n.smoothed.value.error - was.error == c.alpha * (2.0 * r.observation.center.value - 1.0 - was.error)
      && n.smoothed.value.height - was.height == c.alpha * (r.observation.proximity.value - was.height)
  {
    Proportion(c.alpha, 2.0 * r.observation.center.value - 1.0, s.smoothed.value.error);
    Proportion(c.alpha, r.observation.proximity.value, s.smoothed.value.height);
  }

  lemma Proportion(alpha: real, latest: real, kept: real)
    ensures Mix(alpha, latest, kept) - kept == alpha * (latest - kept)
  {
  }

  // ---- Steering ----

  function Capped(v: real, limit: real): real {
    if v > limit then limit else if v < -limit then -limit else v
  }

  /**
   Beyond the alignment band the follower turns, in proportion to the error and at most at full turn. Inside it, it
   approaches a target that is far, in proportion to the missing height and at most at full speed, and holds before one
   that is near. In between it goes on with what it did.
   */
  lemma SteeringOutsideTheBands(c: Config, state: FollowState, m: Smoothed)
    requires ValidConfig(c)
    ensures
      var d := Steer(c, state, m);
      var aligned := if state == Align then Magnitude(m.error) <= c.alignExit else Magnitude(m.error) <= c.alignEnter;
      var far := if state == Follow then m.height < c.holdAbove else m.height < c.resumeBelow;
      && (!aligned ==> d == Decision(Align, 0.0, 0.0, Capped(m.error * c.turnGain, c.maxTurn)))
      && (aligned && far ==>
            d == Decision(Follow, 0.0, Capped((c.holdAbove - m.height) * c.forwardGain, c.maxForward), 0.0))
      && (aligned && !far ==> d == Decision(Hold, 0.0, 0.0, 0.0))
  {
    if m.height < c.holdAbove { ProductOfNonnegative(c.holdAbove - m.height, c.forwardGain); }
  }

  // ---- Searching ----

  function Cycle(c: Config): real {
    c.sweep + c.relocateTurn + c.relocateForwardTime
  }

  lemma WholePart(cycle: real, k: int, x: real)
    requires cycle > 0.0 && 0.0 <= x < cycle
    ensures Phase(cycle, k as real * cycle + x) == (k, x)
  {
    var q := (k as real * cycle + x) / cycle;
    assert q * cycle == k as real * cycle + x;
    Fraction(q, k as real, cycle, x);
    assert k as real <= q < k as real + 1.0;
    assert q.Floor == k;
    var time := k as real * cycle + x;
    assert Phase(cycle, time).0 == k;
    assert Phase(cycle, time).1 == time - k as real * cycle;
  }

  lemma Fraction(q: real, whole: real, cycle: real, x: real)
    requires q * cycle == whole * cycle + x && 0.0 <= x < cycle
    ensures whole <= q < whole + 1.0
  {
    if q < whole {
      Above(whole - q, cycle);
    }
    if q >= whole + 1.0 {
      Below(whole + 1.0, q, cycle);
    }
  }

  lemma Above(a: real, b: real)
    requires a > 0.0 && b > 0.0
    ensures a * b > 0.0
  {
  }

  lemma Below(a: real, b: real, k: real)
    requires a <= b && k > 0.0
    ensures a * k <= b * k
  {
    assert (b - a) * k >= 0.0;
  }

  /**
   The search timeline: first wait; then, in every cycle, sweep to one side, keep turning while relocating, and advance.
   The first sweep goes to the given side, and every other cycle to the other one. Without active search it only waits.
   */
  lemma SearchTimeline(c: Config, direction: real, elapsed: real, k: nat, x: real)
    requires ValidConfig(c) && 0.0 <= x < Cycle(c)
    ensures elapsed < c.searchDelay || !c.activeSearch ==>
              SearchPlan(c, direction, elapsed) == Decision(Lost, 0.0, 0.0, 0.0)
    ensures c.activeSearch && elapsed == c.searchDelay + (k as real * Cycle(c) + x) ==>
      var turn := (if k % 2 == 0 then direction else -direction) * c.searchTurn;
      SearchPlan(c, direction, elapsed) ==
        if x < c.sweep then Decision(Search, 0.0, 0.0, turn)
        else if x < c.sweep + c.relocateTurn then Decision(Relocate, 0.0, 0.0, turn)
        else Decision(Relocate, 0.0, c.relocateForward, 0.0)
  {
    WholePart(Cycle(c), k, x);
    Below(0.0, k as real, Cycle(c));
  }

  // ---- Where the search starts ----

  /** The side on which a target was last seen off the centre; to the right if never. */
  function LastSide(c: Config, side: real, ts: seq<Tick>): real
    decreases |ts|
  {
    if ts == [] then side
    else
      var seen := match ts[0].received case None => false case Some(r) => Shows(c, r, ts[0].now);
      var center := if seen then ts[0].received.value.observation.center.value else 0.5;
      LastSide(c, if center > 0.5 then 1.0 else if center < 0.5 then -1.0 else side, ts[1..])
  }

  /** A search first turns to the side on which the target was last seen. */
  lemma {:induction false} SearchStartsWhereLastSeen(c: Config, s: Follower, ts: seq<Tick>)
    requires ValidConfig(c)
    ensures Run(c, s, ts).direction == LastSide(c, s.direction, ts)
    decreases |ts|
  {
    if ts != [] { SearchStartsWhereLastSeen(c, Step(c, s, ts[0].received, ts[0].now).0, ts[1..]); }
  }
}
