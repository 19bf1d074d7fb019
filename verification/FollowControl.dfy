/** The follow controller object, proved against FollowModel. */
module FollowControl {
  import opened Contracts
  import opened FollowModel

  class FollowController {
    const config: Config
    var state: FollowState
    var lastKey: Option<Key>
    var smoothed: Option<Smoothed>
    var lostSince: Option<real>
    var pausedSince: Option<real>
    var pausedSeconds: real
    var direction: real

    ghost function Model(): Follower
      reads this
    {
      Follower(state, lastKey, smoothed, lostSince, pausedSince, pausedSeconds, direction)
    }

    constructor (config: Config)
      ensures Model() == NEW_FOLLOWER && this.config == config
    {
      this.config := config;
      state, lastKey, smoothed, lostSince := Lost, None, None, None;
      pausedSince, pausedSeconds, direction := None, 0.0, 1.0;
    }

    method PrepareForMissingTarget(now: real)
      modifies this`lostSince, this`pausedSince, this`pausedSeconds, this`lastKey, this`smoothed
      ensures Model() == Prepare(old(Model()), now) && lostSince.Some?
    {
      if lostSince.None? {
        lostSince, pausedSince, pausedSeconds := Some(now), None, 0.0;
      }
      lastKey, smoothed := None, None;
    }

    method LoseTarget(now: real) returns (d: Decision)
      requires ValidConfig(config)
      modifies this
      ensures (Model(), d) == FollowModel.LoseTarget(config, old(Model()), now)
    {
      PrepareForMissingTarget(now);
      if pausedSince.Some? {
        pausedSeconds := pausedSeconds + Positive(now - pausedSince.value);
        pausedSince := None;
      }
      var elapsed := Positive(now - lostSince.value - pausedSeconds);
      if !config.activeSearch || elapsed < config.searchDelay {
        state := Lost;
        return Decision(Lost, 0.0, 0.0, 0.0);
      }
      var (index, phase) :=
        Phase(config.sweep + config.relocateTurn + config.relocateForwardTime, elapsed - config.searchDelay);
      if phase < config.sweep {
        state := Search;
        return Decision(Search, 0.0, 0.0, Turn(config, direction, index));
      }
      state := Relocate;
      if phase - config.sweep < config.relocateTurn {
        return Decision(Relocate, 0.0, 0.0, Turn(config, direction, index));
      }
      return Decision(Relocate, 0.0, config.relocateForward, 0.0);
    }

    method ObserveIdentityScan(now: real) returns (d: Decision)
      modifies this
      ensures (Model(), d) == ObserveScan(old(Model()), now)
    {
      PrepareForMissingTarget(now);
      if pausedSince.None? {
        pausedSince := Some(now);
      }
      state := Observe;
      return Decision(Observe, 0.0, 0.0, 0.0);
    }

    method SmoothObservation(centerError: real, proximity: real, key: Key) returns (m: Smoothed)
      modifies this`smoothed, this`lastKey
      ensures m == Smooth(config, old(Model()), centerError, proximity, key)
      ensures smoothed == Some(m) && lastKey == Some(key)
    {
      if lastKey != Some(key) || smoothed.None? {
        smoothed :=
          if smoothed.None? then Some(Smoothed(centerError, proximity))
          else Some(Smoothed(Mix(config.alpha, centerError, smoothed.value.error),
                             Mix(config.alpha, proximity, smoothed.value.height)));
        lastKey := Some(key);
      }
      return smoothed.value;
    }

    /** Align on the target, then approach or hold. */
    method Approach(m: Smoothed) returns (d: Decision)
      modifies this`state
      ensures d == Steer(config, old(state), m) && state == d.state
    {
      var threshold := if state == Align then config.alignExit else config.alignEnter;
      if Magnitude(m.error) > threshold {
        state := Align;
        return Decision(Align, 0.0, 0.0, Clamp(m.error * config.turnGain, -config.maxTurn, config.maxTurn));
      }
      var shouldFollow := m.height < (if state == Follow then config.holdAbove else config.resumeBelow);
      if shouldFollow {
        state := Follow;
        var forward := Positive(config.holdAbove - m.height) * config.forwardGain;
        return Decision(Follow, 0.0, if forward < config.maxForward then forward else config.maxForward, 0.0);
      }
      state := Hold;
      return Decision(Hold, 0.0, 0.0, 0.0);
    }

    method SeeTarget(centerError: real, proximity: real, key: Key) returns (d: Decision)
      modifies this
      ensures (Model(), d) == FollowModel.SeeTarget(config, old(Model()), centerError, proximity, key)
    {
      lostSince, pausedSince, pausedSeconds := None, None, 0.0;
      if centerError != 0.0 {
        direction := if centerError > 0.0 then 1.0 else -1.0;
      }
      var m := SmoothObservation(centerError, proximity, key);
      d := Approach(m);
    }

    method Step(received: Option<Received>, now: real) returns (d: Decision)
      requires ValidConfig(config)
      modifies this
      ensures (Model(), d) == FollowModel.Step(config, old(Model()), received, now)
    {
      if received.None? {
        d := LoseTarget(now);
        return;
      }
      var o := received.value.observation;
      var age := Positive(now - received.value.at);
      if age > config.staleAfter {
        d := LoseTarget(now);
      } else if !o.visible {
        if o.scanning {
          d := ObserveIdentityScan(now);
        } else {
          d := LoseTarget(now);
        }
      } else if o.center.None? || o.proximity.None? {
        d := LoseTarget(now);
      } else {
        d := SeeTarget(2.0 * (o.center.value - 0.5), o.proximity.value, o.key);
      }
    }
  }
}
