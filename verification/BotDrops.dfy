/** When the drop of a bot that should be up is not followed by a reconnect. */
module BotDrops {
  import RS = ReconnectScheduler
  import WD = Watchdog
  import opened BotProtocol
  import opened BotSupervision
  import opened BotRetries

  // ---- A drop while a run is in flight ----

  /** The drop of an online bot that should be up is scheduled exactly when no run for it is in flight. */
  lemma DropScheduledIff(m: Manager, i: nat)
    requires Inv(m) && i < |m.insts| && m.insts[i].connected && m.settings.eventDriven && Auto(m, m.insts[i].bot)
    ensures Inv(Do(m, Drop(i))) && !IsConnected(Do(m, Drop(i)), m.insts[i].bot)
    ensures m.insts[i].bot in Do(m, Drop(i)).sched.timers <==> m.insts[i].bot !in m.sched.inFlight
  {
    StepKeepsInv(m, Drop(i));
    assert TornOrCurrent(m, i);
  }

  /** The bot is down, and a run for it is still waiting for its connect. */
  ghost predicate Stranded(m: Manager, id: BotId, c: nat)
    requires Shape(m)
  {
    && c < |m.calls| && Flying(m, c) && BotOf(m, c) == id
    && forall k :: 0 <= k < |m.insts| && m.insts[k].bot == id ==> m.insts[k].disconnectEmitted
  }

  /** Neither the operator has touched the bot nor has the waiting run come to its end. */
  predicate Undisturbed(step: Step, id: BotId, c: nat) {
    && step != OperatorStart(id) && step != Stop(id) && step != Remove(id)
    && !(step.Settle? && step.call == c)
  }

  /** The bot gets no new instance, its torn down ones stay so, and its run keeps waiting in the same generation. */
  ghost predicate Aside(m: Manager, p: Manager, id: BotId, c: nat) {
    && c < |m.calls| && c < |p.calls| && p.calls[c] == m.calls[c] && RS.Gen(p.sched, id) == RS.Gen(m.sched, id)
    && |m.insts| <= |p.insts| && (forall k :: |m.insts| <= k < |p.insts| ==> p.insts[k].bot != id)
    && (forall k :: 0 <= k < |m.insts| ==> p.insts[k].bot == m.insts[k].bot)
    && (forall k :: 0 <= k < |m.insts| && m.insts[k].bot == id && m.insts[k].disconnectEmitted ==>
          p.insts[k].disconnectEmitted)
  }

  lemma AsideTwice(m: Manager, p: Manager, q: Manager, id: BotId, c: nat)
    requires Aside(m, p, id, c) && Aside(p, q, id, c)
    ensures Aside(m, q, id, c)
  {
  }

  lemma DropAside(m: Manager, i: nat, id: BotId, c: nat)
    requires i < |m.insts| && c < |m.calls|
    ensures Aside(m, Disconnect(m, i), id, c)
    ensures Aside(m, Dropped(m, i), id, c)
  {
    DisconnectIsLocal(m, i);
  }

  lemma StartAside(m: Manager, other: BotId, kind: Kind, id: BotId, c: nat)
    requires Shape(m) && other != id && c < |m.calls|
    ensures Aside(m, Start(m, other, kind).0, id, c)
  {
    if other in m.bots {
      var i, p, q := m.bots[other], Disconnect(m, m.bots[other]), Start(m, other, kind).0;
      DisconnectIsLocal(m, i);
      DropAside(m, i, id, c);
      if kind == Operator || Auto(m, other) {
        assert Aside(p, q, id, c);
        AsideTwice(m, p, q, id, c);
      }
    }
  }

  lemma FailedAside(m: Manager, i: nat, kind: Kind, id: BotId, c: nat)
    requires i < |m.insts| && c < |m.calls|
    ensures Aside(m, Failed(m, i, kind), id, c)
  {
    DisconnectIsLocal(m, i);
  }

  lemma SucceededAside(m: Manager, i: nat, kind: Kind, persists: bool, id: BotId, c: nat)
    requires i < |m.insts| && c < |m.calls|
    ensures Aside(m, Succeeded(m, i, kind, persists), id, c)
  {
    DisconnectIsLocal(m, i);
  }

  lemma ConnectedAside(m: Manager, i: nat, id: BotId, c: nat)
    requires i < |m.insts| && c < |m.calls|
    ensures Aside(m, Connected(m, i), id, c)
  {
  }

  lemma SettledAside(m: Manager, d: nat, outcome: Outcome, id: BotId, c: nat)
    requires Shape(m) && Enabled(m, Settle(d, outcome)) && d != c && c < |m.calls|
    ensures Aside(m, Settled(m, d, outcome), id, c)
  {
    var call, p := m.calls[d], Settled(m, d, outcome);
    var ended := m.(calls := m.calls[d := if outcome.TimedOut? then call.(kind := Orphan) else call.(open := false)]);
    assert Aside(m, ended, id, c);
    if !outcome.Resolved? || m.insts[call.inst].disconnectEmitted {
      FailedAside(ended, call.inst, call.kind, id, c);
      AsideTwice(m, ended, p, id, c);
    } else {
      var up := Connected(ended, call.inst);
      ConnectedAside(ended, call.inst, id, c);
      SucceededAside(up, call.inst, call.kind, outcome.persists, id, c);
      AsideTwice(m, ended, up, id, c);
      AsideTwice(m, up, p, id, c);
    }
  }

  lemma StoppedAside(m: Manager, other: BotId, id: BotId, c: nat)
    requires Inv(m) && other in m.bots && other != id && c < |m.calls|
    ensures Aside(m, Stopped(m, other), id, c)
  {
    StoppedKeepsInv(m, other);
  }

  lemma RemovedAside(m: Manager, other: BotId, id: BotId, c: nat)
    requires Shape(m) && other != id && c < |m.calls|
    ensures Aside(m, Removed(m, other), id, c)
  {
    if other in m.bots { DisconnectIsLocal(m.(sched := RS.Cancel(m.sched, other)), m.bots[other]); }
  }

  lemma FiredAside(m: Manager, other: BotId, id: BotId, c: nat)
    requires Shape(m) && other in m.sched.timers && other != id && c < |m.calls|
    ensures Aside(m, TimerFired(m, other), id, c)
  {
    var (sched, begun) := RS.Fired(m.sched, other);
    var p := m.(sched := sched);
    if begun {
      var kind := Kind.Run(RS.Gen(sched, other));
      var q := Start(p, other, kind).0;
      StartAside(p, other, kind, id, c);
      AsideTwice(m, p, q, id, c);
    }
  }

  lemma WatchedAside(m: Manager, due: bool, id: BotId, c: nat)
    requires Shape(m) && m.watchdog.Looping? && id in m.sched.inFlight && c < |m.calls|
    ensures Aside(m, Watched(m, due), id, c)
  {
    var rest := m.watchdog.rest;
    if rest != [] && rest[0] != id { StartAside(m.(watchdog := WD.Looping(rest[1..])), rest[0], Watch, id, c); }
  }

  lemma OthersStayAside(m: Manager, step: Step, id: BotId, c: nat)
    requires Inv(m) && Enabled(m, step) && Undisturbed(step, id, c) && Stranded(m, id, c)
    ensures Aside(m, Do(m, step), id, c)
  {
    assert FlightOf(m, c);
    match step
    case OperatorStart(other) => StartAside(m, other, Operator, id, c);
    case Settle(d, outcome) => SettledAside(m, d, outcome, id, c);
    case Stop(other) => if other in m.bots { StoppedAside(m, other, id, c); }
    case Remove(other) => RemovedAside(m, other, id, c);
    case Drop(i) => DropAside(m, i, id, c);
    case IdleOut(i) => DropAside(m, i, id, c);
    case Fire(other) => FiredAside(m, other, id, c);
    case WatchNext(due) => WatchedAside(m, due, id, c);
    case _ =>
  }

  lemma {:induction false} RunStaysStranded(m: Manager, steps: seq<Step>, id: BotId, c: nat)
    requires Inv(m) && CanRun(m, steps) && Stranded(m, id, c)
    requires forall j :: 0 <= j < |steps| ==> Undisturbed(steps[j], id, c)
    ensures var p := BotSupervision.Run(m, steps);
      Stranded(p, id, c) && p.calls[c] == m.calls[c] && RS.Gen(p.sched, id) == RS.Gen(m.sched, id)
    decreases |steps|
  {
    if steps != [] {
      StepKeepsInv(m, steps[0]);
      OthersStayAside(m, steps[0], id, c);
      RunStaysStranded(Do(m, steps[0]), steps[1..], id, c);
    }
  }

  /** However its connect ends, the run of a stranded bot fails; it reschedules only in its own generation. */
  lemma StrandedRunEnds(m: Manager, id: BotId, c: nat, outcome: Outcome)
    requires Inv(m) && Stranded(m, id, c) && Enabled(m, Settle(c, outcome))
    ensures var q := Settled(m, c, outcome);
      && (id in q.sched.timers <==> m.calls[c].kind.generation == RS.Gen(m.sched, id))
      && id !in q.sched.inFlight
  {
    assert FlightOf(m, c);
    var call := m.calls[c];
    DisconnectIsLocal(m.(calls := m.calls[c := call.(open := false)]), call.inst);
    DisconnectIsLocal(m.(calls := m.calls[c := call.(kind := Orphan)]), call.inst);
  }

  /**
   * An online bot drops while a run for it is in flight. Until that run ends nothing is scheduled, and then a
   * reconnect is exactly when the run is of the current generation: a run that a stop or removal has outdated loses
   * the recovery.
   */
  lemma RecoveryLostIff(m: Manager, i: nat, between: seq<Step>, id: BotId, c: nat, outcome: Outcome)
    requires Inv(m) && i < |m.insts| && m.insts[i].connected && m.insts[i].bot == id
    requires c < |m.calls| && Flying(m, c) && BotOf(m, c) == id
    requires CanRunAfter(m, Drop(i), between) && forall j :: 0 <= j < |between| ==> Undisturbed(between[j], id, c)
    ensures var p := RunAfter(m, Drop(i), between);
      && !IsConnected(p, id) && id !in p.sched.timers && c < |p.calls| && Flying(p, c)
      && (Enabled(p, Settle(c, outcome)) ==>
            && id !in Do(p, Settle(c, outcome)).sched.inFlight
            && (id in Do(p, Settle(c, outcome)).sched.timers <==> m.calls[c].kind.generation == RS.Gen(m.sched, id)))
  {
    StepKeepsInv(m, Drop(i));
    var down, p := Do(m, Drop(i)), RunAfter(m, Drop(i), between);
    DropStrands(m, i, id, c);
    RunStaysStranded(down, between, id, c);
    AllTornDown(p, id);
    assert FlightOf(p, c);
    if Enabled(p, Settle(c, outcome)) { StrandedRunEnds(p, id, c, outcome); }
  }

  lemma DropStrands(m: Manager, i: nat, id: BotId, c: nat)
    requires Inv(m) && i < |m.insts| && m.insts[i].connected && m.insts[i].bot == id
    requires c < |m.calls| && Flying(m, c) && BotOf(m, c) == id && Inv(Do(m, Drop(i)))
    ensures var p := Do(m, Drop(i));
      Stranded(p, id, c) && p.calls[c] == m.calls[c] && RS.Gen(p.sched, id) == RS.Gen(m.sched, id)
  {
    assert TornOrCurrent(m, i);
    AllTorn(Do(m, Drop(i)), id);
  }

  lemma AllTornDown(m: Manager, id: BotId)
    requires Inv(m) && forall k :: 0 <= k < |m.insts| && m.insts[k].bot == id ==> m.insts[k].disconnectEmitted
    ensures !IsConnected(m, id)
  {
    if id in m.bots { assert TornOrCurrent(m, m.bots[id]); }
  }

  // ---- A recovery that is lost ----

  /** The bot should be up, but it is offline, and nothing that would bring it back is scheduled or under way. */
  ghost predicate Abandoned(m: Manager, id: BotId)
    requires Shape(m)
  {
    Auto(m, id) && !IsConnected(m, id) && !RS.Busy(m.sched, id) && forall c :: 0 <= c < |m.calls| ==> !m.calls[c].open
  }

  /** `Retrying`, after the operator has stopped the bot and started it again, and it has gone online. */
  function Restarted(id: BotId, settings: Settings): Manager {
    Manager(
      map[id := 2], map[id := true],
      [Instance(id, false, true, true), Instance(id, false, true, true), Instance(id, true, false, false)],
      [Call(0, Kind.Boot(true), false), Call(1, Kind.Run(0), true), Call(2, Operator, false)],
      RS.Sched(map[], map[], {id}, map[id := 1]), map[], {id}, WD.Resting, settings)
  }

  lemma StopsAndStarts(id: BotId, settings: Settings)
    requires Inv(Retrying(id, settings))
    ensures var m := Retrying(id, settings);
      && Inv(Do(m, Stop(id))) && Inv(Do(Do(m, Stop(id)), OperatorStart(id)))
      && Enabled(Do(Do(m, Stop(id)), OperatorStart(id)), Settle(2, Resolved(false)))
      && Do(Do(Do(m, Stop(id)), OperatorStart(id)), Settle(2, Resolved(false))) == Restarted(id, settings)
  {
    var m := Retrying(id, settings);
    StepKeepsInv(m, Stop(id));
    var p := Do(m, Stop(id));
    assert p.insts == [Instance(id, false, true, true), Instance(id, false, true, false)] && p.rows == map[id := false];
    assert p.sched == RS.Sched(map[], map[], {id}, map[id := 1]);
    StepKeepsInv(p, OperatorStart(id));
    var q := Do(p, OperatorStart(id));
    assert q.insts == [Instance(id, false, true, true), Instance(id, false, true, true), Fresh(id)];
    assert q.calls == [Call(0, Kind.Boot(true), false), Call(1, Kind.Run(0), true), Call(2, Operator, true)];
    assert q.bots == map[id := 2] && q.sched == p.sched;
  }

  lemma DropIsLost(id: BotId, settings: Settings)
    requires settings.eventDriven && Inv(Restarted(id, settings))
    ensures var m := Restarted(id, settings);
      && Inv(Do(m, Drop(2))) && Enabled(Do(m, Drop(2)), Settle(1, Rejected))
      && Inv(Do(Do(m, Drop(2)), Settle(1, Rejected))) && Abandoned(Do(Do(m, Drop(2)), Settle(1, Rejected)), id)
  {
    var m := Restarted(id, settings);
    assert m.insts[2].bot == id && m.insts[2].connected && Flying(m, 1) && BotOf(m, 1) == id;
    StepKeepsInv(m, Drop(2));
    var p := Do(m, Drop(2));
    assert p.insts[2] == Instance(id, false, true, false) && p.calls == m.calls;
    DropStrands(m, 2, id, 1);
    StrandedRunEnds(p, id, 1, Rejected);
    StepKeepsInv(p, Settle(1, Rejected));
    DisconnectIsLocal(p.(calls := p.calls[1 := Call(1, Kind.Run(0), false)]), 1);
    var q := Do(p, Settle(1, Rejected));
    assert q.calls == [Call(0, Kind.Boot(true), false), Call(1, Kind.Run(0), false), Call(2, Operator, false)];
    assert q.bots == map[id := 2] && q.insts[2] == p.insts[2];
  }

  lemma OneStep(m: Manager, step: Step, p: Manager, rest: seq<Step>)
    requires Inv(m) && Enabled(m, step) && Do(m, step) == p && Inv(p) && CanRun(p, rest)
    ensures CanRun(m, [step] + rest) && BotSupervision.Run(m, [step] + rest) == BotSupervision.Run(p, rest)
  {
    assert ([step] + rest)[1..] == rest;
  }

  ghost predicate LeadsToAbandoned(m: Manager, steps: seq<Step>, id: BotId)
    requires Inv(m)
  {
    CanRun(m, steps) && Abandoned(BotSupervision.Run(m, steps), id)
  }

  const DROP_STEPS: seq<Step> := [Drop(2), Settle(1, Rejected)]

  function RestartSteps(id: BotId): seq<Step> {
    [Stop(id)] + ([OperatorStart(id)] + ([Settle(2, Resolved(false))] + DROP_STEPS))
  }

  lemma RetryingAbandons(id: BotId, settings: Settings)
    requires settings.eventDriven && Inv(Retrying(id, settings))
    ensures LeadsToAbandoned(Retrying(id, settings), RestartSteps(id), id)
  {
    var m, last := Retrying(id, settings), Restarted(id, settings);
    StopsAndStarts(id, settings);
    var p := Do(m, Stop(id));
    var q := Do(p, OperatorStart(id));
    StepKeepsInv(q, Settle(2, Resolved(false)));
    RestartedAbandons(id, settings);
    OneStep(q, Settle(2, Resolved(false)), last, DROP_STEPS);
    OneStep(p, OperatorStart(id), q, [Settle(2, Resolved(false))] + DROP_STEPS);
    OneStep(m, Stop(id), p, [OperatorStart(id)] + ([Settle(2, Resolved(false))] + DROP_STEPS));
  }

  lemma RestartedAbandons(id: BotId, settings: Settings)
    requires settings.eventDriven && Inv(Restarted(id, settings))
    ensures LeadsToAbandoned(Restarted(id, settings), DROP_STEPS, id)
  {
    var m := Restarted(id, settings);
    DropIsLost(id, settings);
    var p := Do(m, Drop(2));
    TwoSteps(m, Drop(2), Settle(1, Rejected), Do(p, Settle(1, Rejected)), []);
    assert DROP_STEPS + [] == DROP_STEPS;
  }

  lemma OnlineAbandons(id: BotId, settings: Settings)
    requires settings.eventDriven && Inv(Online(id, settings))
    ensures LeadsToAbandoned(Online(id, settings), [Drop(0), Fire(id)] + RestartSteps(id), id)
  {
    var m := Online(id, settings);
    DropsAndRetries(id, settings);
    StepKeepsInv(Do(m, Drop(0)), Fire(id));
    RetryingAbandons(id, settings);
    TwoSteps(m, Drop(0), Fire(id), Retrying(id, settings), RestartSteps(id));
  }

  /**
   * From a fresh start: the bot drops, the operator stops and starts it while the scheduler's reconnect is connecting,
   * and it drops again before that connect has failed. Then nothing is scheduled or under way to bring it back.
   */
  lemma AbandonedHappens(id: BotId, settings: Settings)
    requires settings.eventDriven
    ensures LeadsToAbandoned(BotSupervision.Boot(map[id := true], settings),
      [Load(id), Settle(0, Resolved(false))] + ([Drop(0), Fire(id)] + RestartSteps(id)), id)
  {
    var m := BotSupervision.Boot(map[id := true], settings);
    GoesOnline(id, settings);
    StepKeepsInv(Do(m, Load(id)), Settle(0, Resolved(false)));
    OnlineAbandons(id, settings);
    TwoSteps(m, Load(id), Settle(0, Resolved(false)), Online(id, settings), [Drop(0), Fire(id)] + RestartSteps(id));
  }
}
