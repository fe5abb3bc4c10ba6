/** When a bot that is online is put down for a reconnect all the same. */
module BotRetries {
  import RS = ReconnectScheduler
  import WD = Watchdog
  import opened BotProtocol
  import opened BotSupervision

  /** A reconnect timer is pending for a bot that is online; when it fires, `startBot` tears the bot down. */
  ghost predicate Doomed(m: Manager, id: BotId)
    requires Shape(m)
  {
    IsConnected(m, id) && id in m.sched.timers
  }

  /** The scheduler's own run ends while another instance, started by someone else meanwhile, is online. */
  ghost predicate Overtaken(m: Manager, step: Step, id: BotId)
    requires Shape(m)
  {
    && step.Settle? && step.call < |m.calls| && Flying(m, step.call) && BotOf(m, step.call) == id
    && m.calls[step.call].kind.generation == RS.Gen(m.sched, id)
    && IsConnected(m, id) && !Current(m, m.calls[step.call].inst)
  }

  /** The voice transport of an online bot is stuck, and recovery is on and idle. */
  ghost predicate Wedged(m: Manager, step: Step, id: BotId)
    requires Shape(m)
  {
    && step.Unhealthy? && step.inst < |m.insts| && Current(m, step.inst) && m.insts[step.inst].bot == id
    && m.insts[step.inst].connected && m.settings.eventDriven && Auto(m, id) && !RS.Busy(m.sched, id)
  }

  /** Nothing on the way from `m` to `p` has doomed the bot. */
  ghost predicate Calm(m: Manager, p: Manager, id: BotId)
    requires Shape(m) && Shape(p)
  {
    Doomed(p, id) ==> Doomed(m, id)
  }

  /** A start brings nobody online and sets no timer; it touches no other bot. */
  lemma StartSparesOthers(m: Manager, other: BotId, kind: Kind, id: BotId)
    requires Shape(m) && other != id
    ensures var q := Start(m, other, kind).0;
      && q.sched == m.sched && (id in q.bots <==> id in m.bots)
      && (id in m.bots ==>
            q.bots[id] == m.bots[id] && m.bots[id] < |q.insts| && q.insts[m.bots[id]] == m.insts[m.bots[id]])
  {
    if other in m.bots { DisconnectIsLocal(m, m.bots[other]); }
  }

  lemma StartIsOffline(m: Manager, id: BotId, kind: Kind)
    requires Shape(m)
    ensures var (q, how) := Start(m, id, kind);
      && q.sched == m.sched && (!how.Waiting? ==> q == m)
      && (how.Waiting? ==> id in q.bots && q.bots[id] < |q.insts| && !q.insts[q.bots[id]].connected)
  {
    if id in m.bots { DisconnectIsLocal(m, m.bots[id]); }
  }

  lemma StartIsCalm(m: Manager, other: BotId, kind: Kind, id: BotId)
    requires Shape(m) && Shape(Start(m, other, kind).0)
    ensures Calm(m, Start(m, other, kind).0, id)
  {
    if id == other { StartIsOffline(m, id, kind); } else { StartSparesOthers(m, other, kind, id); }
  }

  lemma RemovalIsCalm(m: Manager, other: BotId, id: BotId)
    requires Inv(m) && Inv(Removed(m, other))
    ensures Calm(m, Removed(m, other), id)
  {
    if other in m.bots { DisconnectIsLocal(m.(sched := RS.Cancel(m.sched, other)), m.bots[other]); }
  }

  lemma DropIsCalm(m: Manager, i: nat, id: BotId)
    requires Inv(m) && i < |m.insts| && Inv(Dropped(m, i)) && Inv(Disconnect(m, i))
    ensures Calm(m, Dropped(m, i), id) && Calm(m, Disconnect(m, i), id)
  {
    DisconnectIsLocal(m, i);
  }

  /** A run that does not get as far as a connect ends at once; without an instance its bot is not online. */
  lemma RunEndsCalm(m: Manager, other: BotId, generation: nat, how: Begun, id: BotId)
    requires Shape(m) && !how.Waiting? && (how.Threw? ==> other !in m.bots)
    ensures Calm(m, RunEnds(m, other, generation, how.Skipped?), id)
  {
  }

  lemma FiredIsCalm(m: Manager, other: BotId, id: BotId)
    requires Inv(m) && other in m.sched.timers && Inv(TimerFired(m, other))
    ensures Calm(m, TimerFired(m, other), id)
  {
    var (sched, begun) := RS.Fired(m.sched, other);
    var p := m.(sched := sched);
    assert Calm(m, p, id);
    if begun {
      var kind := Kind.Run(RS.Gen(sched, other));
      FlyKeepsInv(m, other);
      NoRunWithTimer(m, other);
      NoRunStays(m, p, other);
      StartKeepsInv(p, other, kind);
      StartIsCalm(p, other, kind, id);
      var how := Start(p, other, kind).1;
      if !how.Waiting? { RunEndsCalm(p, other, kind.generation, how, id); }
    }
  }

  lemma WatchedIsCalm(m: Manager, due: bool, id: BotId)
    requires Inv(m) && m.watchdog.Looping? && Inv(Watched(m, due))
    ensures Calm(m, Watched(m, due), id)
  {
    var rest := m.watchdog.rest;
    if rest != [] {
      var p := m.(watchdog := WD.Looping(rest[1..]));
      RowsKeepInv(m, m.rows, m.used, WD.Looping(rest[1..]));
      StartKeepsInv(p, rest[0], Watch);
      StartIsCalm(p, rest[0], Watch, id);
    }
  }

  /** A failure tears down its own instance, so only a run that another instance has overtaken can matter. */
  lemma FailedDooms(m: Manager, i: nat, kind: Kind, id: BotId)
    requires Inv(m) && i < |m.insts| && Inv(Failed(m, i, kind)) && !Doomed(m, id)
    requires kind.Run? && m.insts[i].bot == id ==> id in m.sched.inFlight
    ensures Doomed(Failed(m, i, kind), id)
      <==> kind.Run? && m.insts[i].bot == id && kind.generation == RS.Gen(m.sched, id)
           && IsConnected(m, id) && !Current(m, i)
  {
    DisconnectIsLocal(m, i);
  }

  lemma SucceededIsCalm(m: Manager, i: nat, kind: Kind, persists: bool, id: BotId)
    requires Inv(m) && i < |m.insts| && Inv(Succeeded(m, i, kind, persists))
    ensures Calm(m, Succeeded(m, i, kind, persists), id)
  {
    DisconnectIsLocal(m, i);
  }

  /** Going online calls off whatever timer was pending. */
  lemma ConnectedIsCalm(m: Manager, i: nat, id: BotId)
    requires Inv(m) && i < |m.insts| && !m.insts[i].disconnectEmitted && Inv(Connected(m, i))
    ensures Calm(m, Connected(m, i), id)
  {
    ConnectedKeepsInv(m, i);
  }

  lemma {:induction false} SettledDooms(m: Manager, c: nat, outcome: Outcome, id: BotId)
    requires Inv(m) && Enabled(m, Settle(c, outcome)) && !Doomed(m, id) && Inv(Settled(m, c, outcome))
    ensures Doomed(Settled(m, c, outcome), id) <==> Overtaken(m, Settle(c, outcome), id)
  {
    var call := m.calls[c];
    if Flying(m, c) { assert FlightOf(m, c); }
    assert TornOrCurrent(m, call.inst);
    if outcome.TimedOut? {
      CallEndsKeepsInv(m, c, call.(kind := Orphan));
      FailedDooms(m.(calls := m.calls[c := call.(kind := Orphan)]), call.inst, call.kind, id);
    } else {
      var closed := m.(calls := m.calls[c := call.(open := false)]);
      CallEndsKeepsInv(m, c, call.(open := false));
      if outcome.Rejected? || m.insts[call.inst].disconnectEmitted {
        FailedDooms(closed, call.inst, call.kind, id);
      } else {
        ConnectedKeepsInv(closed, call.inst);
        ConnectedIsCalm(closed, call.inst, id);
        SucceededIsCalm(Connected(closed, call.inst), call.inst, call.kind, outcome.persists, id);
      }
    }
  }

  lemma StopIsCalm(m: Manager, other: BotId, id: BotId)
    requires Inv(m) && other in m.bots && Inv(Stopped(m, other))
    ensures Calm(m, Stopped(m, other), id)
  {
    StoppedKeepsInv(m, other);
  }

  lemma UnhealthyDooms(m: Manager, i: nat, id: BotId)
    requires Inv(m) && i < |m.insts| && !Doomed(m, id) && Inv(Do(m, Unhealthy(i)))
    ensures Doomed(Do(m, Unhealthy(i)), id) <==> Wedged(m, Unhealthy(i), id)
  {
  }

  /**
   * A step puts an online bot down for a reconnect exactly when its voice transport is stuck, or when a run of the
   * scheduler ends after another start has overtaken it: an operator's start does not cancel the run in flight.
   */
  lemma {:induction false} DoomedIff(m: Manager, step: Step, id: BotId)
    requires Inv(m) && Enabled(m, step) && !Doomed(m, id)
    ensures Inv(Do(m, step))
    ensures Doomed(Do(m, step), id) <==> Wedged(m, step, id) || Overtaken(m, step, id)
  {
    StepKeepsInv(m, step);
    if step.Settle? {
      SettledDooms(m, step.call, step.outcome, id);
    } else if step.Unhealthy? {
      UnhealthyDooms(m, step.inst, id);
    } else {
      OthersAreCalm(m, step, id);
    }
  }

  lemma OthersAreCalm(m: Manager, step: Step, id: BotId)
    requires Inv(m) && Enabled(m, step) && !step.Settle? && !step.Unhealthy? && Inv(Do(m, step))
    ensures Calm(m, Do(m, step), id)
  {
    match step
    case OperatorStart(other) => StartIsCalm(m, other, Operator, id);
    case Stop(other) => if other in m.bots { StopIsCalm(m, other, id); }
    case Remove(other) => RemovalIsCalm(m, other, id);
    case IdleOut(i) => DropKeepsInv(m, i); DropIsCalm(m, i, id);
    case Drop(i) => DisconnectKeepsInv(m, i); DropIsCalm(m, i, id);
    case Fire(other) => FiredIsCalm(m, other, id);
    case WatchNext(due) => WatchedIsCalm(m, due, id);
    case _ =>
  }

  /** The `k`-th step of a run finds the bot wedged or a run for it overtaken. */
  ghost predicate DoomedAt(m: Manager, steps: seq<Step>, k: nat, id: BotId)
    requires Inv(m) && k < |steps|
  {
    && CanRun(m, steps[..k])
    && var p := BotSupervision.Run(m, steps[..k]); Wedged(p, steps[k], id) || Overtaken(p, steps[k], id)
  }

  /** Over every run: an online bot has a pending timer only if some step found it wedged or a run for it overtaken. */
  lemma {:induction false} DoomHasACause(m: Manager, steps: seq<Step>, id: BotId) returns (k: nat)
    requires Inv(m) && !Doomed(m, id) && CanRun(m, steps) && Doomed(BotSupervision.Run(m, steps), id)
    ensures k < |steps| && DoomedAt(m, steps, k, id)
    decreases |steps|
  {
    DoomedIff(m, steps[0], id);
    var p := Do(m, steps[0]);
    if Doomed(p, id) {
      k := 0;
      assert steps[..0] == [];
    } else {
      var j := DoomHasACause(p, steps[1..], id);
      k := j + 1;
      assert steps[..k][0] == steps[0] && steps[..k][1..] == steps[1..][..j] && steps[k] == steps[1..][j];
    }
  }

  // ---- Who overtakes a run ----

  /** The run still waits, but its instance is no longer the current one. */
  ghost predicate LeftBehind(p: Manager, c: nat)
    requires Shape(p)
  {
    c < |p.calls| && Flying(p, c) && !Current(p, p.calls[c].inst)
  }

  /** The map keeps its instance for the bot. */
  ghost predicate KeepsPlace(m: Manager, p: Manager, id: BotId) {
    id in m.bots ==> id in p.bots && p.bots[id] == m.bots[id]
  }

  lemma StartKeepsOthers(m: Manager, id: BotId, other: BotId, kind: Kind)
    requires Shape(m) && (other == id ==> kind != Operator && !Auto(m, id))
    ensures KeepsPlace(m, Start(m, other, kind).0, id)
  {
    if other in m.bots { DisconnectIsLocal(m, m.bots[other]); }
  }

  lemma FailedKeepsPlace(m: Manager, id: BotId, i: nat, kind: Kind)
    requires i < |m.insts|
    ensures KeepsPlace(m, Failed(m, i, kind), id)
  {
    DisconnectIsLocal(m, i);
  }

  lemma SucceededKeepsPlace(m: Manager, id: BotId, i: nat, kind: Kind, persists: bool)
    requires i < |m.insts|
    ensures KeepsPlace(m, Succeeded(m, i, kind, persists), id)
  {
    DisconnectIsLocal(m, i);
  }

  lemma SettledKeepsPlace(m: Manager, id: BotId, d: nat, outcome: Outcome)
    requires Shape(m) && Enabled(m, Settle(d, outcome))
    ensures KeepsPlace(m, Settled(m, d, outcome), id)
  {
    var call := m.calls[d];
    var ended := m.(calls := m.calls[d := if outcome.TimedOut? then call.(kind := Orphan) else call.(open := false)]);
    FailedKeepsPlace(ended, id, call.inst, call.kind);
    if outcome.Resolved? {
      SucceededKeepsPlace(Connected(ended, call.inst), id, call.inst, call.kind, outcome.persists);
    }
  }

  lemma FiredKeepsPlace(m: Manager, id: BotId, other: BotId)
    requires Shape(m) && other in m.sched.timers && other != id
    ensures KeepsPlace(m, TimerFired(m, other), id)
  {
    var (sched, begun) := RS.Fired(m.sched, other);
    var p := m.(sched := sched);
    StartKeepsOthers(p, id, other, Kind.Run(RS.Gen(sched, other)));
  }

  /** The watchdog leaves alone whom the scheduler is recovering. */
  lemma WatchedKeepsPlace(m: Manager, id: BotId, due: bool)
    requires Shape(m) && m.watchdog.Looping? && id in m.sched.inFlight
    ensures KeepsPlace(m, Watched(m, due), id)
  {
    var rest := m.watchdog.rest;
    if rest != [] && rest[0] != id { StartKeepsOthers(m.(watchdog := WD.Looping(rest[1..])), id, rest[0], Watch); }
  }

  lemma DropKeepsPlace(m: Manager, id: BotId, i: nat)
    requires i < |m.insts|
    ensures KeepsPlace(m, Dropped(m, i), id) && KeepsPlace(m, Disconnect(m, i), id)
  {
    DisconnectIsLocal(m, i);
  }

  lemma StoppedKeepsPlace(m: Manager, id: BotId, other: BotId)
    requires Inv(m) && other in m.bots
    ensures KeepsPlace(m, Stopped(m, other), id)
  {
    StoppedKeepsInv(m, other);
  }

  /** Removing another bot keeps the place, removing the bot itself leaves its calls waiting without one. */
  lemma RemovedPlace(m: Manager, id: BotId, other: BotId)
    requires Shape(m)
    ensures other != id ==> KeepsPlace(m, Removed(m, other), id)
    ensures Removed(m, other).calls == m.calls && other !in Removed(m, other).bots
  {
    if other in m.bots { DisconnectIsLocal(m.(sched := RS.Cancel(m.sched, other)), m.bots[other]); }
  }

  lemma RestartLeavesBehind(m: Manager, c: nat)
    requires Inv(m) && c < |m.calls| && Flying(m, c) && Current(m, m.calls[c].inst)
    requires Inv(Start(m, BotOf(m, c), Operator).0)
    ensures LeftBehind(Start(m, BotOf(m, c), Operator).0, c)
  {
    assert FlightOf(m, c);
    DisconnectIsLocal(m, m.calls[c].inst);
  }

  lemma OthersKeepPlace(m: Manager, step: Step, id: BotId)
    requires Inv(m) && Enabled(m, step) && step != OperatorStart(id) && step != Remove(id)
    requires id in m.bots && id in m.sched.inFlight
    ensures KeepsPlace(m, Do(m, step), id)
  {
    match step
    case OperatorStart(other) => StartKeepsOthers(m, id, other, Operator);
    case Settle(d, outcome) => SettledKeepsPlace(m, id, d, outcome);
    case Stop(other) => if other in m.bots { StoppedKeepsPlace(m, id, other); }
    case Remove(other) => RemovedPlace(m, id, other);
    case Drop(i) => DropKeepsPlace(m, id, i);
    case IdleOut(i) => DropKeepsPlace(m, id, i);
    case Fire(other) => FiredKeepsPlace(m, id, other);
    case WatchNext(due) => WatchedKeepsPlace(m, id, due);
    case _ =>
  }

  /** A waiting run is left behind exactly by an operator's start or removal of its bot: the others keep off. */
  lemma OnlyOperatorsOvertake(m: Manager, step: Step, c: nat)
    requires Inv(m) && Enabled(m, step) && c < |m.calls| && Flying(m, c) && Current(m, m.calls[c].inst)
    ensures Inv(Do(m, step))
    ensures LeftBehind(Do(m, step), c) <==> step == OperatorStart(BotOf(m, c)) || step == Remove(BotOf(m, c))
  {
    StepKeepsInv(m, step);
    StepGrows(m, step);
    assert CallAges(m.calls[c], Do(m, step).calls[c]);
    if step == OperatorStart(BotOf(m, c)) {
      RestartLeavesBehind(m, c);
    } else if step == Remove(BotOf(m, c)) {
      RemovedPlace(m, BotOf(m, c), BotOf(m, c));
    } else {
      assert FlightOf(m, c);
      OthersKeepPlace(m, step, BotOf(m, c));
    }
  }

  // ---- Such a run is reachable ----

  /** A bot that has just gone online after start-up. */
  function Online(id: BotId, settings: Settings): Manager {
    Manager(
      map[id := 0], map[id := true], [Instance(id, true, false, false)], [Call(0, Kind.Boot(true), false)],
      RS.IDLE, map[], {id}, WD.Resting, settings)
  }

  /** The same bot once it has dropped and the scheduler is connecting it again. */
  function Retrying(id: BotId, settings: Settings): Manager {
    Manager(
      map[id := 1], map[id := true], [Instance(id, false, true, true), Fresh(id)],
      [Call(0, Kind.Boot(true), false), Call(1, Kind.Run(0), true)],
      RS.Sched(map[id := 1], map[], {id}, map[]), map[], {id}, WD.Resting, settings)
  }

  lemma GoesOnline(id: BotId, settings: Settings)
    ensures var m := BotSupervision.Boot(map[id := true], settings);
      && Enabled(m, Load(id)) && Inv(Do(m, Load(id))) && Enabled(Do(m, Load(id)), Settle(0, Resolved(false)))
      && Do(Do(m, Load(id)), Settle(0, Resolved(false))) == Online(id, settings)
  {
    var m := BotSupervision.Boot(map[id := true], settings);
    StepKeepsInv(m, Load(id));
    var p := Do(m, Load(id));
    assert p.insts == [Fresh(id)] && p.calls == [Call(0, Kind.Boot(true), true)];
    assert p.bots == map[id := 0] && p.unloaded == map[] && p.used == {id};
  }

  lemma DropsAndRetries(id: BotId, settings: Settings)
    requires settings.eventDriven && Inv(Online(id, settings))
    ensures var m := Online(id, settings);
      && Inv(Do(m, Drop(0))) && Enabled(Do(m, Drop(0)), Fire(id))
      && Do(Do(m, Drop(0)), Fire(id)) == Retrying(id, settings)
  {
    var m := Online(id, settings);
    StepKeepsInv(m, Drop(0));
    var p := Do(m, Drop(0));
    assert p.insts == [Instance(id, false, true, false)];
    assert p.sched == RS.Schedule(RS.IDLE, id, settings.backoff);
    StepKeepsInv(p, Fire(id));
    var q := Do(p, Fire(id));
    assert q.insts == [Instance(id, false, true, true), Fresh(id)];
    assert q.sched == RS.Sched(map[id := 1], map[], {id}, map[]);
    assert q.bots == map[id := 1];
  }

  lemma StartOvertakes(id: BotId, settings: Settings)
    requires Inv(Retrying(id, settings))
    ensures var m := Retrying(id, settings);
      && Inv(Do(m, OperatorStart(id))) && Enabled(Do(m, OperatorStart(id)), Settle(2, Resolved(false)))
      && Inv(Do(Do(m, OperatorStart(id)), Settle(2, Resolved(false))))
      && Enabled(Do(Do(m, OperatorStart(id)), Settle(2, Resolved(false))), Settle(1, Rejected))
      && Overtaken(Do(Do(m, OperatorStart(id)), Settle(2, Resolved(false))), Settle(1, Rejected), id)
      && Auto(Do(Do(m, OperatorStart(id)), Settle(2, Resolved(false))), id)
  {
    var m := Retrying(id, settings);
    StepKeepsInv(m, OperatorStart(id));
    var p := Do(m, OperatorStart(id));
    assert p.insts[2] == Fresh(id) && p.calls[2] == Call(2, Operator, true) && p.calls[1] == Call(1, Kind.Run(0), true);
    StepKeepsInv(p, Settle(2, Resolved(false)));
  }

  /** A run may begin with two more steps. */
  lemma TwoSteps(m: Manager, a: Step, b: Step, p: Manager, rest: seq<Step>)
    requires Inv(m) && Enabled(m, a) && Inv(Do(m, a)) && Enabled(Do(m, a), b) && Do(Do(m, a), b) == p
    requires Inv(p) && CanRun(p, rest)
    ensures CanRun(m, [a, b] + rest) && BotSupervision.Run(m, [a, b] + rest) == BotSupervision.Run(p, rest)
  {
    var steps := [a, b] + rest;
    assert steps[1..] == [b] + rest && steps[1..][1..] == rest;
  }

  ghost predicate LeadsToOvertaken(m: Manager, steps: seq<Step>, step: Step, id: BotId)
    requires Inv(m)
  {
    && CanRun(m, steps)
    && var p := BotSupervision.Run(m, steps); Enabled(p, step) && Overtaken(p, step, id) && Auto(p, id)
  }

  function StartSteps(id: BotId): seq<Step> {
    [OperatorStart(id), Settle(2, Resolved(false))]
  }

  lemma RetryingLeads(id: BotId, settings: Settings)
    requires Inv(Retrying(id, settings))
    ensures LeadsToOvertaken(Retrying(id, settings), StartSteps(id), Settle(1, Rejected), id)
  {
    var m := Retrying(id, settings);
    StartOvertakes(id, settings);
    var p := Do(Do(m, OperatorStart(id)), Settle(2, Resolved(false)));
    TwoSteps(m, OperatorStart(id), Settle(2, Resolved(false)), p, []);
    assert StartSteps(id) + [] == StartSteps(id);
  }

  lemma OnlineLeads(id: BotId, settings: Settings)
    requires settings.eventDriven && Inv(Online(id, settings))
    ensures LeadsToOvertaken(Online(id, settings), [Drop(0), Fire(id)] + StartSteps(id), Settle(1, Rejected), id)
  {
    var m := Online(id, settings);
    DropsAndRetries(id, settings);
    StepKeepsInv(Do(m, Drop(0)), Fire(id));
    RetryingLeads(id, settings);
    TwoSteps(m, Drop(0), Fire(id), Retrying(id, settings), StartSteps(id));
  }

  /** From a fresh start: the operator starts the bot while the scheduler's reconnect is connecting, and it fails. */
  lemma OvertakenHappens(id: BotId, settings: Settings)
    requires settings.eventDriven
    ensures LeadsToOvertaken(BotSupervision.Boot(map[id := true], settings),
      [Load(id), Settle(0, Resolved(false))] + ([Drop(0), Fire(id)] + StartSteps(id)), Settle(1, Rejected), id)
  {
    var m := BotSupervision.Boot(map[id := true], settings);
    GoesOnline(id, settings);
    StepKeepsInv(Do(m, Load(id)), Settle(0, Resolved(false)));
    OnlineLeads(id, settings);
    TwoSteps(m, Load(id), Settle(0, Resolved(false)), Online(id, settings), [Drop(0), Fire(id)] + StartSteps(id));
  }

  // ---- What the pending timer does to an online bot ----

  /** When the timer of an online bot that should be up fires, the bot is torn down. */
  lemma FireTearsDown(m: Manager, id: BotId)
    requires Inv(m) && Doomed(m, id) && Auto(m, id)
    ensures Inv(Do(m, Fire(id))) && !IsConnected(Do(m, Fire(id)), id)
  {
    StepKeepsInv(m, Fire(id));
    FlyKeepsInv(m, id);
    DisconnectIsLocal(m.(sched := RS.Fired(m.sched, id).0), m.bots[id]);
  }

  /** The overtaken run fails, and the bot that the operator had brought online is torn down. */
  lemma OvertakenGoesDown(id: BotId, settings: Settings)
    requires settings.eventDriven
    ensures var m := BotSupervision.Boot(map[id := true], settings);
      var steps := [Load(id), Settle(0, Resolved(false))] + ([Drop(0), Fire(id)] + StartSteps(id));
      && CanRun(m, steps)
      && var p := BotSupervision.Run(m, steps);
      && IsConnected(p, id) && Enabled(p, Settle(1, Rejected)) && Inv(Do(p, Settle(1, Rejected)))
      && var q := Do(p, Settle(1, Rejected));
      && IsConnected(q, id) && Enabled(q, Fire(id)) && !IsConnected(Do(q, Fire(id)), id)
  {
    OvertakenHappens(id, settings);
    var m := BotSupervision.Boot(map[id := true], settings);
    var p := BotSupervision.Run(m, [Load(id), Settle(0, Resolved(false))] + ([Drop(0), Fire(id)] + StartSteps(id)));
    OvertakenGoesOn(p, Settle(1, Rejected), id);
  }

  lemma AutoStays(m: Manager, step: Step, id: BotId)
    requires Inv(m) && Enabled(m, step) && step.Settle? && Overtaken(m, step, id) && Auto(m, id)
    ensures Auto(Do(m, step), id)
  {
    var call := m.calls[step.call];
    DisconnectIsLocal(m.(calls := m.calls[step.call := call.(open := false)]), call.inst);
    DisconnectIsLocal(m.(calls := m.calls[step.call := call.(kind := Orphan)]), call.inst);
  }

  lemma OvertakenGoesOn(p: Manager, step: Step, id: BotId)
    requires Inv(p) && Enabled(p, step) && Overtaken(p, step, id) && Auto(p, id)
    ensures Inv(Do(p, step)) && IsConnected(Do(p, step), id)
    ensures Enabled(Do(p, step), Fire(id)) && !IsConnected(Do(Do(p, step), Fire(id)), id)
  {
    assert FlightOf(p, step.call);
    DoomedIff(p, step, id);
    AutoStays(p, step, id);
    FireTearsDown(Do(p, step), id);
  }
}
