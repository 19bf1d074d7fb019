/**
 Following a person in the image: smoothing and hysteresis while the target is seen, and a search timeline
 while it is missing, paused whenever an identity scan is running. Numbers are real.
 */
module FollowModel {
  import opened Contracts

  datatype FollowState = Lost | Observe | Search | Relocate | Align | Follow | Hold

  datatype Config = Config(
    staleAfter: real,
    activeSearch: bool,
    searchDelay: real,
    sweep: real,
    searchTurn: real,
    relocateTurn: real,
    relocateForwardTime: real,
    relocateForward: real,
    alignEnter: real,
    alignExit: real,
    resumeBelow: real,
    holdAbove: real,
    turnGain: real,
    maxTurn: real,
    forwardGain: real,
    maxForward: real,
    alpha: real)

  predicate ValidConfig(c: Config) {
    && c.staleAfter > 0.0 && c.searchDelay >= 0.0 && c.sweep > 0.0 && 0.0 < c.searchTurn <= 1.0
    && c.relocateTurn > 0.0 && c.relocateForwardTime > 0.0 && 0.0 < c.relocateForward <= 1.0
    && 0.0 <= c.alignExit < c.alignEnter <= 1.0 && 0.0 < c.resumeBelow < c.holdAbove <= 1.0
    && c.turnGain > 0.0 && c.forwardGain > 0.0 && 0.0 < c.maxTurn <= 1.0 && 0.0 < c.maxForward <= 1.0
    && 0.0 < c.alpha <= 1.0
  }

  datatype Key = Key(session: string, sequence: int)

  datatype Observation = Observation(
    visible: bool, scanning: bool, center: Option<real>, proximity: Option<real>, key: Key)

  datatype Received = Received(observation: Observation, at: real)

  datatype Smoothed = Smoothed(error: real, height: real)

  datatype Decision = Decision(state: FollowState, horizontal: real, vertical: real, look: real)

  datatype Follower = Follower(
    state: FollowState,
    lastKey: Option<Key>,
    smoothed: Option<Smoothed>,
    lostSince: Option<real>,
    pausedSince: Option<real>,
    pausedSeconds: real,
    direction: real)

  const NEW_FOLLOWER := Follower(Lost, None, None, None, None, 0.0, 1.0)

  function Positive(x: real): real {
    if x < 0.0 then 0.0 else x
  }

  function Clamp(v: real, lower: real, upper: real): real {
    var low := if upper < v then upper else v;
    if low < lower then lower else low
  }

  // ---- A missing target ----

  /** What one tick says about the target. */
  datatype Sight = Seen(error: real, proximity: real, key: Key) | Missing | Scanning

  function Classify(c: Config, r: Option<Received>, now: real): Sight {
    if r.None? then Missing
    else
      var o := r.value.observation;
      if Positive(now - r.value.at) > c.staleAfter then Missing
      else if !o.visible then if o.scanning then Scanning else Missing
      else if o.center.None? || o.proximity.None? then Missing
      else Seen(2.0 * (o.center.value - 0.5), o.proximity.value, o.key)
  }

  function Prepare(s: Follower, now: real): Follower {
    var episode :=
      if s.lostSince.None? then s.(lostSince := Some(now), pausedSince := None, pausedSeconds := 0.0) else s;
    episode.(lastKey := None, smoothed := None)
  }

  /** Which cycle a time falls into, and how far into it. */
  function Phase(cycle: real, time: real): (int, real)
    requires cycle > 0.0
  {
    var index := (time / cycle).Floor;
    (index, time - index as real * cycle)
  }

  /** Every other cycle turns the other way. */
  function Turn(c: Config, direction: real, index: int): real {
    direction * (if index % 2 == 0 then 1.0 else -1.0) * c.searchTurn
  }

  /** The search timeline as a plan over searched time: wait, then sweep, turn and advance, then sweep back. */
  function SearchPlan(c: Config, direction: real, elapsed: real): Decision
    requires ValidConfig(c)
  {
    if !c.activeSearch || elapsed < c.searchDelay then Decision(Lost, 0.0, 0.0, 0.0)
    else
      var (index, phase) := Phase(c.sweep + c.relocateTurn + c.relocateForwardTime, elapsed - c.searchDelay);
      if phase < c.sweep then Decision(Search, 0.0, 0.0, Turn(c, direction, index))
      else if phase - c.sweep < c.relocateTurn then Decision(Relocate, 0.0, 0.0, Turn(c, direction, index))
      else Decision(Relocate, 0.0, c.relocateForward, 0.0)
  }

  function Elapsed(s: Follower, now: real): real
    requires s.lostSince.Some?
  {
    Positive(now - s.lostSince.value - s.pausedSeconds)
  }

  function LoseTarget(c: Config, s: Follower, now: real): (Follower, Decision)
    requires ValidConfig(c)
  {
    var missing := Prepare(s, now);
    var resumed :=
      if missing.pausedSince.None? then missing
      else missing.(pausedSeconds := missing.pausedSeconds + Positive(now - missing.pausedSince.value),
            pausedSince := None);
    var d := SearchPlan(c, s.direction, Elapsed(resumed, now));
    (resumed.(state := d.state), d)
  }

  function ObserveScan(s: Follower, now: real): (Follower, Decision) {
    var missing := Prepare(s, now);
    var paused := if missing.pausedSince.None? then missing.(pausedSince := Some(now)) else missing;
    (paused.(state := Observe), Decision(Observe, 0.0, 0.0, 0.0))
  }

  // ---- A visible target ----

  function Mix(alpha: real, latest: real, kept: real): real {
    alpha * latest + (1.0 - alpha) * kept
  }

  /** One observation is counted once, however often it is looked at. */
  function Smooth(c: Config, s: Follower, error: real, proximity: real, key: Key): Smoothed {
    if s.lastKey == Some(key) && s.smoothed.Some? then s.smoothed.value
    else if s.smoothed.None? then Smoothed(error, proximity)
    else Smoothed(Mix(c.alpha, error, s.smoothed.value.error), Mix(c.alpha, proximity, s.smoothed.value.height))
  }

  function Magnitude(x: real): real {
    if x < 0.0 then -x else x
  }

  /** Turn first; then approach or hold, with a threshold that depends on what was done last. */
  function Steer(c: Config, state: FollowState, m: Smoothed): Decision {
    var threshold := if state == Align then c.alignExit else c.alignEnter;
    if Magnitude(m.error) > threshold then Decision(Align, 0.0, 0.0, Clamp(m.error * c.turnGain, -c.maxTurn, c.maxTurn))
    else if m.height < (if state == Follow then c.holdAbove else c.resumeBelow) then
      var forward := Positive(c.holdAbove - m.height) * c.forwardGain;
      Decision(Follow, 0.0, if forward < c.maxForward then forward else c.maxForward, 0.0)
    else Decision(Hold, 0.0, 0.0, 0.0)
  }

  function SeeTarget(c: Config, s: Follower, error: real, proximity: real, key: Key): (Follower, Decision) {
    var m := Smooth(c, s, error, proximity, key);
    var d := Steer(c, s.state, m);
    var direction := if error > 0.0 then 1.0 else if error < 0.0 then -1.0 else s.direction;
    (Follower(d.state, Some(key), Some(m), None, None, 0.0, direction), d)
  }

  function Step(c: Config, s: Follower, r: Option<Received>, now: real): (Follower, Decision)
    requires ValidConfig(c)
  {
    match Classify(c, r, now)
    case Missing => LoseTarget(c, s, now)
    case Scanning => ObserveScan(s, now)
    case Seen(error, proximity, key) => SeeTarget(c, s, error, proximity, key)
  }
}
