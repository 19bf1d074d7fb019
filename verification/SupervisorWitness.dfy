/** When the neutralize before a cancel signal raises, the cancelled lease can still reach its device. */
module SupervisorWitness {
  import opened Contracts
  import GatewayModel
  import OutputSystem
  import S = SupervisorSystem
  import SupervisorModel
  import SupervisorRuns

  ghost predicate Follows(ws: seq<S.World>, steps: seq<S.Step>, w: S.World) {
    S.Trace(ws, steps) && ws[|steps|] == w
  }

  /** Some interleaving leads to this state. */
  ghost predicate Reachable(w: S.World) {
    exists ws, steps :: Follows(ws, steps, w)
  }

  lemma StartIsReachable(r: Resource)
    ensures Reachable(S.Start(r))
  {
    assert Follows([S.Start(r)], [], S.Start(r));
  }

  lemma NextIsReachable(w: S.World, step: S.Step)
    requires Reachable(w) && w.done <= |w.slot.log| && S.Enabled(w, step)
    ensures Reachable(S.Next(w, step))
  {
    var ws, steps :| Follows(ws, steps, w);
    var longer, more := ws + [S.Next(w, step)], steps + [step];
    forall i | 0 <= i < |more|
      ensures longer[i].done <= |longer[i].slot.log|
      ensures S.Enabled(longer[i], more[i]) && longer[i + 1] == S.Next(longer[i], more[i])
    {
      if i < |steps| { assert longer[i] == ws[i] && longer[i + 1] == ws[i + 1] && more[i] == steps[i]; }
    }
    assert Follows(longer, more, S.Next(w, step));
  }

  const LEASE_LOG := [SupervisorModel.AuthorizeCall(1, "a", true), SupervisorModel.StartThread(1)]

  /** Action "a" has been scheduled under lease 1. */
  function LeaseSlot(): SupervisorModel.Slot {
    SupervisorModel.Schedule(SupervisorModel.IDLE, "a", SupervisorModel.Oracle(true, false, false))
  }

  lemma LeaseSlotIs()
    ensures LeaseSlot().log == LEASE_LOG
  {
  }

  /** Both ends share session "s". */
  lemma Connect(r: Resource) returns (w: S.World)
    ensures Reachable(w) && w == S.Start(r).(slot := LeaseSlot(), system := w.system)
    ensures w.system.transport == OutputSystem.START.transport.(session := Some("s"))
    ensures w.system.gateway.session == Some("s") && w.system.gateway.resources[r] == GatewayModel.UNUSED
    ensures w.system.usedIds == {} && w.system.sent == {} && w.system.written == []
  {
    var w0 := S.Start(r);
    StartIsReachable(r);
    var w1 := S.Next(w0, S.Environment(OutputSystem.MacOpen("s")));
    NextIsReachable(w0, S.Environment(OutputSystem.MacOpen("s")));
    var w2 := S.Next(w1, S.Environment(OutputSystem.WindowsOpen("s")));
    NextIsReachable(w1, S.Environment(OutputSystem.WindowsOpen("s")));
    var schedule := SupervisorRuns.ScheduleEvent("a", SupervisorModel.Oracle(true, false, false));
    w := S.Next(w2, S.Supervise(schedule));
    NextIsReachable(w2, S.Supervise(schedule));
  }

  /** The authorization is sent, delivered and accepted. */
  lemma Accept(r: Resource) returns (w: S.World)
    ensures Reachable(w) && w == S.Start(r).(slot := LeaseSlot(), calling := Some("m"), authorized := map[1 := "s"],
                                             system := w.system)
    ensures "m" in w.system.transport.acks && !w.system.transport.acks["m"].failed && w.system.written == []
    ensures OutputSystem.Ack("m", true) in w.system.acks
    ensures w.system.gateway.session == Some("s")
    ensures w.system.gateway.resources[r] == GatewayModel.ResourceState(1, Some("a"), -1, None)
  {
    LeaseSlotIs();
    var w0 := Connect(r);
    var m := OutputSystem.ControlMessage("m", "s", OutputSystem.AuthorizeControl(Lease(r, 1, Some("a"))));
    var w1 := S.Next(w0, S.Call("m"));
    NextIsReachable(w0, S.Call("m"));
    var arrive := S.Environment(OutputSystem.Deliver(m, 0.0, 0.0, true));
    w := S.Next(w1, arrive);
    NextIsReachable(w1, arrive);
  }

  /** The answer arrives in time and ends the wait. */
  lemma Answer(r: Resource) returns (w: S.World)
    ensures Reachable(w) && w == S.Start(r).(slot := LeaseSlot(), calling := Some("m"), authorized := map[1 := "s"],
                                             system := w.system)
    ensures "m" in w.system.returned && w.system.gateway.session == Some("s") && w.system.written == []
    ensures w.system.gateway.resources[r] == GatewayModel.ResourceState(1, Some("a"), -1, None)
  {
    var w0 := Accept(r);
    var answer := S.Environment(OutputSystem.DeliverAck(OutputSystem.Ack("m", true)));
    var w1 := S.Next(w0, answer);
    NextIsReachable(w0, answer);
    var conclude := S.Environment(OutputSystem.Conclude("m", false));
    w := S.Next(w1, conclude);
    NextIsReachable(w1, conclude);
  }

  /** The call returns and the executor is started. */
  lemma Launch(r: Resource) returns (w: S.World)
    ensures Reachable(w) && w.resource == r && w.slot == LeaseSlot() && w.done == 2 && w.calling.None?
    ensures w.lastFence.None?
    ensures w.system.gateway.session == Some("s") && w.system.written == []
    ensures w.system.gateway.resources[r] == GatewayModel.ResourceState(1, Some("a"), -1, None)
  {
    LeaseSlotIs();
    var w0 := Answer(r);
    var w1 := S.Next(w0, S.Return);
    NextIsReachable(w0, S.Return);
    w := S.Next(w1, S.Local);
    NextIsReachable(w1, S.Local);
  }

  /** A halt whose neutralize raises still shows the cancel signal. */
  lemma CancelUnfenced(r: Resource) returns (w: S.World)
    ensures Reachable(w) && w.resource == r && w.done <= |w.slot.log| && w.system.written == []
    ensures 1 in w.signals && w.signals[1] == S.Signal(0, None)
    ensures w.system.gateway.session == Some("s")
    ensures w.system.gateway.resources[r] == GatewayModel.ResourceState(1, Some("a"), -1, None)
  {
    LeaseSlotIs();
    var w0 := Launch(r);
    var halt := S.Supervise(SupervisorRuns.HaltEvent(SupervisorModel.Oracle(false, false, false)));
    var w1 := S.Next(w0, halt);
    assert w1.slot.log == LEASE_LOG + [SupervisorModel.NeutralizeCall(2, false), SupervisorModel.CancelSignal(1)];
    NextIsReachable(w0, halt);
    var w2 := S.Next(w1, S.Raise);
    NextIsReachable(w1, S.Raise);
    w := S.Next(w2, S.Local);
    NextIsReachable(w2, S.Local);
  }

  predicate IsLease(e: Envelope, r: Resource, t: nat) {
    e.resource == r && e.leaseToken == t
  }

  /** Lease `t` was written after its executor could see the cancel signal. */
  predicate WrittenAfterSignal(w: S.World, t: nat) {
    && t in w.signals
    && exists i :: w.signals[t].mark <= i < |w.system.written| && IsLease(w.system.written[i], w.resource, t)
  }

  /** On either output, the condition of the guarantee is needed: an unfenced cancel lets its own lease through. */
  lemma UnfencedLeaseIsWritten(r: Resource)
    ensures exists w :: Reachable(w) && w.resource == r && 1 in w.signals && w.signals[1].fence.None?
                        && WrittenAfterSignal(w, 1)
  {
    var w0 := CancelUnfenced(r);
    var e := Envelope("s", "a", r, 1, 0, 1000, 0);
    var send := S.Environment(OutputSystem.SendData(e));
    var w1 := S.Next(w0, send);
    NextIsReachable(w0, send);
    var arrive := S.Environment(OutputSystem.Deliver(OutputSystem.DataMessage(e), 0.0, 0.0, true));
    var w2 := S.Next(w1, arrive);
    NextIsReachable(w1, arrive);
    assert w2.system.written == [e];
    assert IsLease(w2.system.written[0], r, 1);
    assert WrittenAfterSignal(w2, 1);
  }
}
