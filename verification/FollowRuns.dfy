/** The search clock and the bounds of every decision, over every run of ticks with a clock that never runs back. */
module FollowRuns {
  import opened Contracts
  import opened FollowModel

  datatype Tick = Tick(received: Option<Received>, now: real)

  /** One tick of a loss episode. */
  datatype Gap = Gap(at: real, scanning: bool)

  // ---- The search clock ----

  /** The time between consecutive missing ticks, leaving out each gap that begins with an identity scan. */
  function SearchClock(ticks: seq<Gap>): real
    decreases |ticks|
  {
    if |ticks| <= 1 then 0.0
    else
      var last, before := ticks[|ticks| - 1], ticks[|ticks| - 2];
      SearchClock(ticks[..|ticks| - 1]) + if before.scanning then 0.0 else last.at - before.at
  }

  /** The missing ticks since the target was last seen. */
  function Episode(c: Config, episode: seq<Gap>, t: Tick): seq<Gap> {
    match Classify(c, t.received, t.now)
    case Seen(_, _, _) => []
    case Missing => episode + [Gap(t.now, false)]
    case Scanning => episode + [Gap(t.now, true)]
  }

  function Last(episode: seq<Gap>): Gap
    requires episode != []
  {
    episode[|episode| - 1]
  }

  /** Searched time so far, or frozen since a pause began, is the search clock of the episode. */
  predicate Tracks(s: Follower, episode: seq<Gap>) {
    if episode == [] then s.lostSince.None?
    else
      && s.lostSince.Some?
      && (Last(episode).scanning <==> s.pausedSince.Some?)
      && (s.pausedSince.Some? ==> s.pausedSince.value <= Last(episode).at)
      && (if s.pausedSince.Some? then s.pausedSince.value else Last(episode).at) - s.lostSince.value - s.pausedSeconds
           == SearchClock(episode)
      && SearchClock(episode) >= 0.0
  }

  lemma OneMoreTick(episode: seq<Gap>, g: Gap)
    requires episode != []
    ensures SearchClock(episode + [g]) ==
            SearchClock(episode) + if Last(episode).scanning then 0.0 else g.at - Last(episode).at
  {
    assert (episode + [g])[..|episode|] == episode;
  }

  predicate Clocked(episode: seq<Gap>, now: real) {
    episode == [] || Last(episode).at <= now
  }

  lemma StepTracks(c: Config, s: Follower, episode: seq<Gap>, t: Tick)
    requires ValidConfig(c) && Tracks(s, episode) && Clocked(episode, t.now)
    ensures Tracks(Step(c, s, t.received, t.now).0, Episode(c, episode, t))
    ensures Classify(c, t.received, t.now).Missing? ==>
      Step(c, s, t.received, t.now).1 == SearchPlan(c, s.direction, SearchClock(Episode(c, episode, t)))
  {
    if episode != [] {
      OneMoreTick(episode, Gap(t.now, false));
      OneMoreTick(episode, Gap(t.now, true));
    }
  }

  // ---- Runs ----

  function Run(c: Config, s: Follower, ts: seq<Tick>): Follower
    requires ValidConfig(c)
    decreases |ts|
  {
    if ts == [] then s else Run(c, Step(c, s, ts[0].received, ts[0].now).0, ts[1..])
  }

  function Episodes(c: Config, episode: seq<Gap>, ts: seq<Tick>): seq<Gap>
    decreases |ts|
  {
    if ts == [] then episode else Episodes(c, Episode(c, episode, ts[0]), ts[1..])
  }

  /** The clock never runs backwards. */
  predicate Monotonic(ts: seq<Tick>) {
    forall i, j :: 0 <= i < j < |ts| ==> ts[i].now <= ts[j].now
  }

  lemma {:induction false} RunTracks(c: Config, s: Follower, episode: seq<Gap>, ts: seq<Tick>)
    requires ValidConfig(c) && Tracks(s, episode) && Monotonic(ts) && (ts != [] ==> Clocked(episode, ts[0].now))
    ensures Tracks(Run(c, s, ts), Episodes(c, episode, ts))
    ensures ts != [] ==> Clocked(Episodes(c, episode, ts), ts[|ts| - 1].now)
    decreases |ts|
  {
    if ts != [] {
      StepTracks(c, s, episode, ts[0]);
      var next, more := Step(c, s, ts[0].received, ts[0].now).0, Episode(c, episode, ts[0]);
      assert Clocked(more, ts[0].now);
      RunTracks(c, next, more, ts[1..]);
    }
  }

  /**
   For every run with a clock that never runs backwards: what the controller does about a missing target is the
   search plan read at the sum of the gaps, since the target was lost, whose earlier tick was not an identity
   scan; the incremental pause bookkeeping computes exactly that sum.
   */
  lemma SearchFollowsTheClock(c: Config, ts: seq<Tick>, t: Tick)
    requires ValidConfig(c) && Monotonic(ts + [t]) && Classify(c, t.received, t.now).Missing?
    ensures
      var s := Run(c, NEW_FOLLOWER, ts);
      Step(c, s, t.received, t.now).1 == SearchPlan(c, s.direction, SearchClock(Episode(c, Episodes(c, [], ts), t)))
  {
    forall i, j | 0 <= i < j < |ts| ensures ts[i].now <= ts[j].now {
      assert (ts + [t])[i].now <= (ts + [t])[j].now;
    }
    RunTracks(c, NEW_FOLLOWER, [], ts);
    if ts != [] {
      assert (ts + [t])[|ts| - 1].now <= (ts + [t])[|ts|].now;
    }
    StepTracks(c, Run(c, NEW_FOLLOWER, ts), Episodes(c, [], ts), t);
  }

  /** Within an episode the search clock never runs backwards, and stands still over a gap that begins with a scan. */
  lemma SearchClockNeverRunsBack(episode: seq<Gap>, g: Gap)
    requires episode != [] && Last(episode).at <= g.at
    ensures SearchClock(episode) <= SearchClock(episode + [g])
    ensures Last(episode).scanning ==> SearchClock(episode + [g]) == SearchClock(episode)
  {
    OneMoreTick(episode, g);
  }

  // ---- Bounded decisions ----

  predicate Unit(x: real) {
    -1.0 <= x <= 1.0
  }

  predicate InRange(d: Decision) {
    Unit(d.horizontal) && Unit(d.vertical) && Unit(d.look)
  }

  lemma UnitProduct(a: real, b: real)
    requires (a == 1.0 || a == -1.0) && 0.0 <= b <= 1.0
    ensures Unit(a * b)
  {
  }

  lemma ProductOfNonnegative(a: real, b: real)
    requires a >= 0.0 && b >= 0.0
    ensures a * b >= 0.0
  {
  }

  lemma PlanIsInRange(c: Config, direction: real, elapsed: real)
    requires ValidConfig(c) && (direction == 1.0 || direction == -1.0)
    ensures InRange(SearchPlan(c, direction, elapsed))
  {
    UnitProduct(1.0, c.searchTurn);
    UnitProduct(-1.0, c.searchTurn);
  }

  lemma SteerIsInRange(c: Config, state: FollowState, m: Smoothed)
    requires ValidConfig(c)
    ensures InRange(Steer(c, state, m))
  {
    ProductOfNonnegative(Positive(c.holdAbove - m.height), c.forwardGain);
  }

  /** No decision of any run is outside what a decision may be: every control is in [-1, 1]. */
  lemma {:induction false} EveryDecisionIsInRange(c: Config, s: Follower, ts: seq<Tick>, t: Tick)
    requires ValidConfig(c) && (s.direction == 1.0 || s.direction == -1.0)
    ensures InRange(Step(c, Run(c, s, ts), t.received, t.now).1)
    decreases |ts|
  {
    if ts != [] {
      EveryDecisionIsInRange(c, Step(c, s, ts[0].received, ts[0].now).0, ts[1..], t);
    } else {
      match Classify(c, t.received, t.now)
      case Missing =>
        var missing := Prepare(s, t.now);
        var d := LoseTarget(c, s, t.now).1;
        PlanIsInRange(c, s.direction, Elapsed(LoseTarget(c, s, t.now).0.(state := missing.state), t.now));
      case Scanning =>
      case Seen(error, proximity, key) => SteerIsInRange(c, s.state, Smooth(c, s, error, proximity, key));
    }
  }

  /** Looking at the same observation again does not weigh it twice. */
  lemma SameObservationIsCountedOnce(c: Config, s: Follower, r: Received, first: real, again: real)
    requires ValidConfig(c)
    requires Classify(c, Some(r), first).Seen? && Classify(c, Some(r), again).Seen?
    ensures
      var once := Step(c, s, Some(r), first).0;
      Step(c, once, Some(r), again).0.smoothed == once.smoothed
  {
  }

  // ---- Hysteresis ----

  /**
   Inside a hysteresis band the controller keeps doing what it did: it goes on aligning, or following, exactly if
   that was its last state. It turns only towards the target, and never advances on a target that is near.
   */
  lemma InsideABandNothingChanges(c: Config, state: FollowState, m: Smoothed)
    requires ValidConfig(c)
    ensures
      var d := Steer(c, state, m);
      && (c.alignExit < Magnitude(m.error) <= c.alignEnter ==> (d.state == Align <==> state == Align))
      && (Magnitude(m.error) <= c.alignExit && c.resumeBelow <= m.height < c.holdAbove ==>
            (d.state == Follow <==> state == Follow))
      && (d.look > 0.0 ==> m.error > 0.0) && (d.look < 0.0 ==> m.error < 0.0)
      && (d.vertical > 0.0 ==> m.height < c.holdAbove && d.look == 0.0) && d.vertical >= 0.0
  {
    ProductOfNonnegative(Positive(c.holdAbove - m.height), c.forwardGain);
    ProductOfNonnegative(Magnitude(m.error), c.turnGain);
  }

  lemma WeightedBetween(alpha: real, a: real, b: real)
    requires 0.0 < alpha <= 1.0 && a <= b
    ensures a <= Mix(alpha, a, b) <= b && a <= Mix(alpha, b, a) <= b
  {
    ProductOfNonnegative(alpha, b - a);
    ProductOfNonnegative(1.0 - alpha, b - a);
  }

  /** Smoothing never leaves the range between the latest observation and the value before it. */
  lemma SmoothingStaysBetween(c: Config, s: Follower, error: real, proximity: real, key: Key)
    requires ValidConfig(c) && s.smoothed.Some?
    ensures
      var m, was := Smooth(c, s, error, proximity, key), s.smoothed.value;
      && (was.error <= m.error <= error || error <= m.error <= was.error)
      && (was.height <= m.height <= proximity || proximity <= m.height <= was.height)
  {
    var was := s.smoothed.value;
    if was.error <= error {
      WeightedBetween(c.alpha, was.error, error);
    } else {
      WeightedBetween(c.alpha, error, was.error);
    }
    if was.height <= proximity {
      WeightedBetween(c.alpha, was.height, proximity);
    } else {
      WeightedBetween(c.alpha, proximity, was.height);
    }
  }
}
