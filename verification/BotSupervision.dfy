/** What the bot protocol guarantees over every interleaving. */
module BotSupervision {
  import RS = ReconnectScheduler
  import WD = Watchdog
  import opened BotProtocol

  // ---- Runs ----

  /** The process has just started: nothing is loaded, connected or scheduled. */
  function Boot(rows: map<BotId, bool>, settings: Settings): (m: Manager)
    ensures Inv(m)
  {
    Manager(map[], rows, [], [], RS.IDLE, rows, rows.Keys, WD.Resting, settings)
  }

  ghost predicate CanRun(m: Manager, steps: seq<Step>)
    requires Inv(m)
    decreases |steps|
  {
    steps == [] || (Enabled(m, steps[0]) && (StepKeepsInv(m, steps[0]); CanRun(Do(m, steps[0]), steps[1..])))
  }

  ghost function Run(m: Manager, steps: seq<Step>): (p: Manager)
    requires Inv(m) && CanRun(m, steps)
    ensures Inv(p)
    decreases |steps|
  {
    if steps == [] then m
    else
      StepKeepsInv(m, steps[0]);
      Run(Do(m, steps[0]), steps[1..])
  }

  // ---- At most one live instance ----

  /** Over every run: a connected instance is the one in the map, so a bot id has at most one. */
  lemma AtMostOneLive(rows: map<BotId, bool>, settings: Settings, steps: seq<Step>, i: nat, j: nat)
    requires CanRun(Boot(rows, settings), steps)
    ensures var m := Run(Boot(rows, settings), steps);
      && (i < |m.insts| && m.insts[i].connected ==> Current(m, i))
      && (i < |m.insts| && j < |m.insts| && m.insts[i].connected && m.insts[j].connected ==>
            (m.insts[i].bot == m.insts[j].bot ==> i == j))
  {
    var m := Run(Boot(rows, settings), steps);
    if i < |m.insts| { assert TornOrCurrent(m, i); }
    if j < |m.insts| { assert TornOrCurrent(m, j); }
  }

  /**
   * Instances keep their bots, and the map only ever takes in new instances. Calls keep their instances, a waiting run
   * was already waiting before, and generations never go back.
   */
  ghost predicate Grows(m: Manager, p: Manager) {
    && |m.insts| <= |p.insts| && (forall k :: 0 <= k < |m.insts| ==> p.insts[k].bot == m.insts[k].bot)
    && (forall id :: id in p.bots && p.bots[id] < |m.insts| ==> id in m.bots && m.bots[id] == p.bots[id])
    && |m.calls| <= |p.calls| && (forall c :: 0 <= c < |m.calls| ==> CallAges(m.calls[c], p.calls[c]))
    && (forall id :: RS.Gen(m.sched, id) <= RS.Gen(p.sched, id))
  }

  ghost predicate CallAges(a: Call, b: Call) {
    b.inst == a.inst && (b.open && b.kind.Run? ==> b == a)
  }

  lemma GrowsTwice(m: Manager, p: Manager, q: Manager)
    requires Grows(m, p) && Grows(p, q)
    ensures Grows(m, q)
  {
  }

  lemma DisconnectGrows(m: Manager, i: nat)
    requires i < |m.insts|
    ensures Grows(m, Disconnect(m, i))
  {
    DisconnectIsLocal(m, i);
  }

  lemma StartGrows(m: Manager, id: BotId, kind: Kind)
    requires Shape(m)
    ensures Grows(m, Start(m, id, kind).0)
  {
    if id in m.bots && (kind == Operator || Auto(m, id)) {
      var i := m.bots[id];
      DisconnectIsLocal(m, i);
      DisconnectGrows(m, i);
      var p, q := Disconnect(m, i), Start(m, id, kind).0;
      assert Grows(p, q);
      GrowsTwice(m, p, q);
    }
  }

  lemma FailedGrows(m: Manager, i: nat, kind: Kind)
    requires i < |m.insts|
    ensures Grows(m, Failed(m, i, kind))
  {
    DisconnectIsLocal(m, i);
  }

  lemma SucceededGrows(m: Manager, i: nat, kind: Kind, persists: bool)
    requires i < |m.insts|
    ensures Grows(m, Succeeded(m, i, kind, persists))
  {
    DisconnectIsLocal(m, i);
  }

  lemma ConnectedGrows(m: Manager, i: nat)
    requires i < |m.insts|
    ensures Grows(m, Connected(m, i))
  {
  }

  lemma CallEndsGrows(m: Manager, c: nat, call: Call)
    requires c < |m.calls| && CallAges(m.calls[c], call)
    ensures Grows(m, m.(calls := m.calls[c := call]))
  {
  }

  lemma SettledGrows(m: Manager, c: nat, outcome: Outcome)
    requires Inv(m) && Enabled(m, Settle(c, outcome))
    ensures Grows(m, Settled(m, c, outcome))
  {
    var call, p := m.calls[c], Settled(m, c, outcome);
    var ended := m.(calls := m.calls[c := if outcome.TimedOut? then call.(kind := Orphan) else call.(open := false)]);
    CallEndsGrows(m, c, ended.calls[c]);
    if !outcome.Resolved? || m.insts[call.inst].disconnectEmitted {
      FailedGrows(ended, call.inst, call.kind);
      GrowsTwice(m, ended, p);
    } else {
      var up := Connected(ended, call.inst);
      ConnectedGrows(ended, call.inst);
      SucceededGrows(up, call.inst, call.kind, outcome.persists);
      GrowsTwice(m, ended, up);
      GrowsTwice(m, up, p);
    }
  }

  lemma RemovedGrows(m: Manager, id: BotId)
    requires Inv(m)
    ensures Grows(m, Removed(m, id))
  {
    if id in m.bots { DisconnectIsLocal(m.(sched := RS.Cancel(m.sched, id)), m.bots[id]); }
  }

  lemma RunEndsGrows(m: Manager, id: BotId, generation: nat, succeeded: bool)
    ensures Grows(m, RunEnds(m, id, generation, succeeded))
  {
  }

  lemma FiredGrows(m: Manager, id: BotId)
    requires Shape(m) && id in m.sched.timers
    ensures Grows(m, TimerFired(m, id))
  {
    var (sched, begun) := RS.Fired(m.sched, id);
    var p := m.(sched := sched);
    assert Grows(m, p);
    if begun {
      var generation := RS.Gen(sched, id);
      var (q, how) := Start(p, id, BotProtocol.Run(generation));
      StartGrows(p, id, BotProtocol.Run(generation));
      GrowsTwice(m, p, q);
      RunEndsGrows(q, id, generation, how.Skipped?);
      GrowsTwice(m, q, RunEnds(q, id, generation, how.Skipped?));
    }
  }

  lemma LoadedGrows(m: Manager, id: BotId)
    requires Shape(m) && id in m.unloaded
    ensures Grows(m, Loaded(m, id))
  {
  }

  lemma StoppedGrows(m: Manager, id: BotId)
    requires Inv(m) && id in m.bots
    ensures Grows(m, Stopped(m, id))
  {
    StoppedKeepsInv(m, id);
  }

  lemma WatchedGrows(m: Manager, due: bool)
    requires Inv(m) && m.watchdog.Looping?
    ensures Grows(m, Watched(m, due))
  {
    if m.watchdog.rest != [] {
      var p := m.(watchdog := WD.Looping(m.watchdog.rest[1..]));
      RowsKeepInv(m, m.rows, m.used, WD.Looping(m.watchdog.rest[1..]));
      StartGrows(p, m.watchdog.rest[0], Watch);
    }
  }

  lemma DroppedGrows(m: Manager, i: nat)
    requires i < |m.insts|
    ensures Grows(m, Dropped(m, i))
  {
  }

  lemma StepGrows(m: Manager, step: Step)
    requires Inv(m) && Enabled(m, step)
    ensures Grows(m, Do(m, step))
  {
    match step
    case Load(id) => LoadedGrows(m, id);
    case OperatorStart(id) => StartGrows(m, id, Operator);
    case Settle(c, outcome) => SettledGrows(m, c, outcome);
    case Stop(id) => if id in m.bots { StoppedGrows(m, id); }
    case Remove(id) => RemovedGrows(m, id);
    case Drop(i) => DroppedGrows(m, i);
    case IdleOut(i) => DisconnectGrows(m, i);
    case Fire(id) => FiredGrows(m, id);
    case WatchNext(due) => WatchedGrows(m, due);
    case _ =>
  }

  /** An instance that has left the map stays out and torn down for good, whatever its pending connects come to. */
  lemma {:induction false} TornDownForGood(m: Manager, steps: seq<Step>, i: nat)
    requires Inv(m) && CanRun(m, steps) && i < |m.insts| && !Current(m, i)
    ensures var p := Run(m, steps);
      i < |p.insts| && !Current(p, i) && p.insts[i].disconnectEmitted && !p.insts[i].connected
    decreases |steps|
  {
    if steps == [] {
      assert TornOrCurrent(m, i);
    } else {
      StepKeepsInv(m, steps[0]);
      StepGrows(m, steps[0]);
      TornDownForGood(Do(m, steps[0]), steps[1..], i);
    }
  }

  // ---- Stop is final ----

  /** Stopped and staying so: not wanted, nothing scheduled, every instance torn down, and only stale runs left. */
  ghost predicate Quiet(m: Manager, id: BotId)
    requires Shape(m)
  {
    && id in m.used && id !in m.unloaded && !Auto(m, id) && id !in m.sched.timers
    && (forall i :: 0 <= i < |m.insts| && m.insts[i].bot == id ==>
          m.insts[i].disconnectEmitted && !m.insts[i].connected)
    && (forall c :: 0 <= c < |m.calls| && Flying(m, c) && BotOf(m, c) == id ==>
          m.calls[c].kind.generation < RS.Gen(m.sched, id))
  }

  lemma StopMakesQuiet(m: Manager, id: BotId)
    requires Inv(m) && id in m.bots
    ensures Inv(Stopped(m, id)) && Quiet(Stopped(m, id), id)
  {
    StoppedKeepsInv(m, id);
    var p := Stopped(m, id);
    AllTorn(p, id);
    forall c | 0 <= c < |p.calls| && Flying(p, c) && BotOf(p, c) == id
      ensures p.calls[c].kind.generation < RS.Gen(p.sched, id)
    {
      assert Flying(m, c) && FlightOf(m, c);
    }
  }

  /** Nothing that concerns bot `id` has changed. */
  ghost predicate Elsewhere(m: Manager, p: Manager, id: BotId) {
    && m.used <= p.used && (id in p.unloaded ==> id in m.unloaded) && Auto(p, id) == Auto(m, id)
    && (id in p.sched.timers ==> id in m.sched.timers) && RS.Gen(p.sched, id) >= RS.Gen(m.sched, id)
    && |m.insts| <= |p.insts|
    && (forall i :: 0 <= i < |m.insts| ==>
          p.insts[i].bot == m.insts[i].bot && (m.insts[i].bot == id ==> StaysDown(m.insts[i], p.insts[i])))
    && (forall i :: |m.insts| <= i < |p.insts| ==> p.insts[i].bot != id)
    && |m.calls| <= |p.calls|
    && (forall c :: 0 <= c < |m.calls| ==>
          p.calls[c].inst == m.calls[c].inst && (p.calls[c].open && p.calls[c].kind.Run? ==> p.calls[c] == m.calls[c]))
    && (forall c :: |m.calls| <= c < |p.calls| ==> p.calls[c].inst < |p.insts| && p.insts[p.calls[c].inst].bot != id)
  }

  ghost predicate StaysDown(a: Instance, b: Instance) {
    (a.disconnectEmitted ==> b.disconnectEmitted) && (!a.connected ==> !b.connected)
  }

  lemma QuietElsewhere(m: Manager, p: Manager, id: BotId)
    requires Shape(m) && Shape(p) && Quiet(m, id) && Elsewhere(m, p, id)
    ensures Quiet(p, id)
  {
    forall c | 0 <= c < |p.calls| && Flying(p, c) && BotOf(p, c) == id
      ensures p.calls[c].kind.generation < RS.Gen(p.sched, id)
    {
      assert c < |m.calls| && Flying(m, c) && BotOf(m, c) == id;
    }
  }

  lemma DisconnectElsewhere(m: Manager, id: BotId, i: nat)
    requires i < |m.insts| && !Auto(m, id)
    ensures Elsewhere(m, Disconnect(m, i), id)
  {
    DisconnectIsLocal(m, i);
  }

  lemma DroppedElsewhere(m: Manager, id: BotId, i: nat)
    requires i < |m.insts| && !Auto(m, id)
    ensures Elsewhere(m, Dropped(m, i), id)
  {
  }

  lemma CalledElsewhere(m: Manager, id: BotId, i: nat, kind: Kind)
    requires i < |m.insts| && m.insts[i].bot != id
    ensures Elsewhere(m, Called(m, i, kind), id)
  {
  }

  /** A start for another bot, or one that recovery asks for after the stop, leaves the bot alone. */
  lemma StartElsewhere(m: Manager, id: BotId, other: BotId, kind: Kind)
    requires Inv(m) && Quiet(m, id) && (other != id || kind != Operator)
    ensures Elsewhere(m, Start(m, other, kind).0, id)
  {
    if other != id && other in m.bots && (kind == Operator || Auto(m, other)) {
      var i := m.bots[other];
      DisconnectIsLocal(m, i);
      DisconnectElsewhere(m, id, i);
      var p := Disconnect(m, i);
      if other in m.rows {
        ReplacedElsewhere(p, id, other);
        ElsewhereTwice(m, p, Replaced(p, other), id);
        CalledElsewhere(Replaced(p, other), id, |p.insts|, kind);
        ElsewhereTwice(m, Replaced(p, other), Called(Replaced(p, other), |p.insts|, kind), id);
      } else {
        var q := Set(p, i, Connecting(p.insts[i]));
        ConnectingElsewhere(p, id, i);
        ElsewhereTwice(m, p, q, id);
        CalledElsewhere(q, id, i, NoRow);
        ElsewhereTwice(m, q, Called(q, i, NoRow), id);
      }
    }
  }

  lemma ReplacedElsewhere(m: Manager, id: BotId, other: BotId)
    requires other != id
    ensures Elsewhere(m, Replaced(m, other), id)
  {
  }

  lemma ConnectingElsewhere(m: Manager, id: BotId, i: nat)
    requires i < |m.insts| && m.insts[i].bot != id
    ensures Elsewhere(m, Set(m, i, Connecting(m.insts[i])), id)
  {
  }

  lemma FailedElsewhere(m: Manager, id: BotId, i: nat, kind: Kind)
    requires i < |m.insts| && !Auto(m, id)
    requires m.insts[i].bot == id && kind.Run? ==> kind.generation < RS.Gen(m.sched, id)
    ensures Elsewhere(m, Failed(m, i, kind), id)
  {
    DisconnectIsLocal(m, i);
  }

  lemma SucceededElsewhere(m: Manager, id: BotId, i: nat, kind: Kind, persists: bool)
    requires i < |m.insts| && m.insts[i].bot != id
    ensures Elsewhere(m, Succeeded(m, i, kind, persists), id)
  {
    DisconnectIsLocal(m, i);
  }

  lemma ElsewhereTwice(m: Manager, p: Manager, q: Manager, id: BotId)
    requires Elsewhere(m, p, id) && Elsewhere(p, q, id)
    ensures Elsewhere(m, q, id)
  {
  }

  /** A call ends, or is left to resolve with nobody waiting for it. */
  lemma CallEndsElsewhere(m: Manager, id: BotId, c: nat, call: Call)
    requires c < |m.calls| && call.inst == m.calls[c].inst && !(call.open && call.kind.Run?)
    ensures Elsewhere(m, m.(calls := m.calls[c := call]), id)
  {
  }

  lemma ConnectedElsewhere(m: Manager, id: BotId, i: nat)
    requires i < |m.insts| && m.insts[i].bot != id
    ensures Elsewhere(m, Connected(m, i), id)
  {
  }

  /** A call of a quiet bot fails: every instance it may have connected is torn down, and its runs are stale. */
  lemma EndedElsewhere(m: Manager, id: BotId, c: nat, call: Call)
    requires Shape(m) && Quiet(m, id) && c < |m.calls| && m.calls[c].open
    requires call.inst == m.calls[c].inst && !(call.open && call.kind.Run?)
    ensures Elsewhere(m, Failed(m.(calls := m.calls[c := call]), call.inst, m.calls[c].kind), id)
  {
    var i, kind, ended := call.inst, m.calls[c].kind, m.(calls := m.calls[c := call]);
    if kind.Run? && m.insts[i].bot == id { assert Flying(m, c); }
    CallEndsElsewhere(m, id, c, call);
    FailedElsewhere(ended, id, i, kind);
    ElsewhereTwice(m, ended, Failed(ended, i, kind), id);
  }

  lemma WentUpElsewhere(m: Manager, id: BotId, c: nat, persists: bool)
    requires Shape(m) && c < |m.calls| && m.insts[m.calls[c].inst].bot != id
    ensures var ended := m.(calls := m.calls[c := m.calls[c].(open := false)]);
      Elsewhere(m, Succeeded(Connected(ended, m.calls[c].inst), m.calls[c].inst, m.calls[c].kind, persists), id)
  {
    var i, kind, ended := m.calls[c].inst, m.calls[c].kind, m.(calls := m.calls[c := m.calls[c].(open := false)]);
    CallEndsElsewhere(m, id, c, m.calls[c].(open := false));
    ConnectedElsewhere(ended, id, i);
    var up := Connected(ended, i);
    ElsewhereTwice(m, ended, up, id);
    SucceededElsewhere(up, id, i, kind, persists);
    ElsewhereTwice(m, up, Succeeded(up, i, kind, persists), id);
  }

  lemma SettledElsewhere(m: Manager, id: BotId, c: nat, outcome: Outcome)
    requires Inv(m) && Quiet(m, id) && Enabled(m, Settle(c, outcome))
    ensures Elsewhere(m, Settled(m, c, outcome), id)
  {
    var call := m.calls[c];
    if outcome.TimedOut? {
      EndedElsewhere(m, id, c, call.(kind := Orphan));
    } else if outcome.Rejected? || m.insts[call.inst].disconnectEmitted {
      EndedElsewhere(m, id, c, call.(open := false));
    } else {
      WentUpElsewhere(m, id, c, outcome.persists);
    }
  }

  lemma RemovedElsewhere(m: Manager, id: BotId, other: BotId)
    requires Inv(m) && Quiet(m, id)
    ensures Elsewhere(m, Removed(m, other), id)
  {
    if other in m.bots { DisconnectIsLocal(m.(sched := RS.Cancel(m.sched, other)), m.bots[other]); }
  }

  lemma StoppedElsewhere(m: Manager, id: BotId, other: BotId)
    requires Inv(m) && Quiet(m, id) && other in m.bots
    ensures Elsewhere(m, Stopped(m, other), id)
  {
    StoppedKeepsInv(m, other);
  }

  lemma RunEndsElsewhere(m: Manager, id: BotId, other: BotId, generation: nat, succeeded: bool)
    requires other != id
    ensures Elsewhere(m, RunEnds(m, other, generation, succeeded), id)
  {
  }

  lemma FiredElsewhere(m: Manager, id: BotId, other: BotId)
    requires Inv(m) && Quiet(m, id) && other in m.sched.timers
    ensures Elsewhere(m, TimerFired(m, other), id)
  {
    var (sched, begun) := RS.Fired(m.sched, other);
    var p := m.(sched := sched);
    FlyKeepsInv(m, other);
    QuietElsewhere(m, p, id);
    if begun {
      var generation := RS.Gen(sched, other);
      var (q, how) := Start(p, other, BotProtocol.Run(generation));
      StartElsewhere(p, id, other, BotProtocol.Run(generation));
      ElsewhereTwice(m, p, q, id);
      if !how.Waiting? {
        RunEndsElsewhere(q, id, other, generation, how.Skipped?);
        ElsewhereTwice(m, q, RunEnds(q, other, generation, how.Skipped?), id);
      }
    }
  }

  lemma WatchedElsewhere(m: Manager, id: BotId, due: bool)
    requires Inv(m) && Quiet(m, id) && m.watchdog.Looping?
    ensures Elsewhere(m, Watched(m, due), id)
  {
    if m.watchdog.rest != [] {
      var p := m.(watchdog := WD.Looping(m.watchdog.rest[1..]));
      RowsKeepInv(m, m.rows, m.used, WD.Looping(m.watchdog.rest[1..]));
      QuietElsewhere(m, p, id);
      StartElsewhere(p, id, m.watchdog.rest[0], Watch);
    }
  }

  lemma LoadedElsewhere(m: Manager, id: BotId, other: BotId)
    requires Inv(m) && Quiet(m, id) && other in m.unloaded
    ensures Elsewhere(m, Loaded(m, other), id)
  {
  }

  lemma CreatedElsewhere(m: Manager, id: BotId, other: BotId, autoStart: bool)
    requires Inv(m) && Quiet(m, id) && other !in m.used
    ensures Elsewhere(m, Do(m, Create(other, autoStart)), id)
  {
  }

  lemma StepElsewhere(m: Manager, step: Step, id: BotId)
    requires Inv(m) && Enabled(m, step) && Quiet(m, id) && step != OperatorStart(id)
    ensures Elsewhere(m, Do(m, step), id)
  {
    match step
    case Create(other, autoStart) => CreatedElsewhere(m, id, other, autoStart);
    case Load(other) => LoadedElsewhere(m, id, other);
    case OperatorStart(other) => StartElsewhere(m, id, other, Operator);
    case Settle(c, outcome) => SettledElsewhere(m, id, c, outcome);
    case Stop(other) => if other in m.bots { StoppedElsewhere(m, id, other); }
    case Remove(other) => RemovedElsewhere(m, id, other);
    case Drop(i) => DroppedElsewhere(m, id, i);
    case IdleOut(i) => DisconnectElsewhere(m, id, i);
    case Fire(other) => FiredElsewhere(m, id, other);
    case WatchNext(due) => WatchedElsewhere(m, id, due);
    case _ =>
  }

  lemma StepStaysQuiet(m: Manager, step: Step, id: BotId)
    requires Inv(m) && Enabled(m, step) && Quiet(m, id) && step != OperatorStart(id)
    ensures Inv(Do(m, step)) && Quiet(Do(m, step), id)
  {
    StepKeepsInv(m, step);
    StepElsewhere(m, step, id);
    QuietElsewhere(m, Do(m, step), id);
  }

  /** Right after the operator has stopped the bot. */
  ghost function AfterStop(m: Manager, id: BotId): (p: Manager)
    requires Inv(m) && id in m.bots
    ensures Inv(p)
  {
    StoppedKeepsInv(m, id);
    Stopped(m, id)
  }

  /**
   * Stop is final: from the stop until the operator starts the bot again, in every interleaving, autoStart stays
   * false, no reconnect timer is pending and no instance is connected, whatever starts were outstanding.
   */
  lemma {:induction false} StopIsFinal(m: Manager, steps: seq<Step>, id: BotId)
    requires Inv(m) && id in m.bots && CanRun(AfterStop(m, id), steps) && OperatorStart(id) !in steps
    ensures var p := Run(AfterStop(m, id), steps);
      && !Auto(p, id) && id !in p.sched.timers && !IsConnected(p, id)
      && forall i :: 0 <= i < |p.insts| && p.insts[i].bot == id ==> !p.insts[i].connected
  {
    StopMakesQuiet(m, id);
    RunStaysQuiet(Stopped(m, id), steps, id);
  }

  lemma {:induction false} RunStaysQuiet(m: Manager, steps: seq<Step>, id: BotId)
    requires Inv(m) && CanRun(m, steps) && Quiet(m, id) && OperatorStart(id) !in steps
    ensures Quiet(Run(m, steps), id)
    decreases |steps|
  {
    if steps != [] {
      StepStaysQuiet(m, steps[0], id);
      RunStaysQuiet(Do(m, steps[0]), steps[1..], id);
    }
  }

  // ---- Single flight, seen from the manager ----

  /** Over every run: a bot never has a timer beside a running reconnect, nor two running reconnects. */
  lemma SingleFlight(rows: map<BotId, bool>, settings: Settings, steps: seq<Step>, c: nat, d: nat)
    requires CanRun(Boot(rows, settings), steps)
    ensures var m := Run(Boot(rows, settings), steps);
      c < |m.calls| && Flying(m, c) ==>
        && BotOf(m, c) !in m.sched.timers
        && (d < |m.calls| && d != c && Flying(m, d) ==> BotOf(m, d) != BotOf(m, c))
  {
    var m := Run(Boot(rows, settings), steps);
    if c < |m.calls| && Flying(m, c) { assert FlightOf(m, c); }
  }

  lemma {:induction false} RunGrows(m: Manager, steps: seq<Step>)
    requires Inv(m) && CanRun(m, steps)
    ensures Grows(m, Run(m, steps))
    decreases |steps|
  {
    if steps != [] {
      StepKeepsInv(m, steps[0]);
      StepGrows(m, steps[0]);
      RunGrows(Do(m, steps[0]), steps[1..]);
      GrowsTwice(m, Do(m, steps[0]), Run(m, steps));
    }
  }

  /** A run of an older generation ends without touching attempts, timers or generations, however its connect ends. */
  lemma StaleRunIsIgnored(m: Manager, c: nat, outcome: Outcome)
    requires Inv(m) && Enabled(m, Settle(c, outcome)) && Flying(m, c)
    requires m.calls[c].kind.generation < RS.Gen(m.sched, BotOf(m, c))
    ensures Settled(m, c, outcome).sched == m.sched.(inFlight := m.sched.inFlight - {BotOf(m, c)})
  {
    assert FlightOf(m, c);
    var call := m.calls[c];
    DisconnectIsLocal(m.(calls := m.calls[c := call.(open := false)]), call.inst);
    DisconnectIsLocal(m.(calls := m.calls[c := call.(kind := Orphan)]), call.inst);
  }

  /** Stopping or removing a bot outdates the run it may have in flight. */
  lemma CancelOutdates(m: Manager, cancel: Step, c: nat)
    requires Inv(m) && c < |m.calls| && Flying(m, c)
    requires cancel == Remove(BotOf(m, c)) || (cancel == Stop(BotOf(m, c)) && BotOf(m, c) in m.bots)
    ensures m.calls[c].kind.generation < RS.Gen(Do(m, cancel).sched, BotOf(m, c))
  {
    var id := BotOf(m, c);
    assert FlightOf(m, c);
    if cancel == Stop(id) {
      StoppedKeepsInv(m, id);
    } else if id in m.bots {
      DisconnectIsLocal(m.(sched := RS.Cancel(m.sched, id)), m.bots[id]);
    }
  }

  /** The state after one step and a run. */
  ghost predicate CanRunAfter(m: Manager, step: Step, steps: seq<Step>)
    requires Inv(m) && Enabled(m, step)
  {
    StepKeepsInv(m, step);
    CanRun(Do(m, step), steps)
  }

  ghost function RunAfter(m: Manager, step: Step, steps: seq<Step>): (p: Manager)
    requires Inv(m) && Enabled(m, step) && CanRunAfter(m, step, steps)
    ensures Inv(p)
  {
    StepKeepsInv(m, step);
    Run(Do(m, step), steps)
  }

  /**
   * A run begun before the bot was stopped or removed is ignored for good: whatever happens between the cancel and the
   * end of its connect, further starts included, that end only takes the bot out of flight.
   */
  lemma {:induction false} CancelledRunIsIgnored(m: Manager, cancel: Step, between: seq<Step>, c: nat, outcome: Outcome)
    requires Inv(m) && c < |m.calls| && Flying(m, c)
    requires cancel == Remove(BotOf(m, c)) || (cancel == Stop(BotOf(m, c)) && BotOf(m, c) in m.bots)
    requires CanRunAfter(m, cancel, between)
    ensures var p := RunAfter(m, cancel, between);
      c < |p.calls| && (Flying(p, c) && Enabled(p, Settle(c, outcome)) ==>
        Do(p, Settle(c, outcome)).sched == p.sched.(inFlight := p.sched.inFlight - {BotOf(m, c)}))
  {
    StepKeepsInv(m, cancel);
    CancelOutdates(m, cancel, c);
    StepGrows(m, cancel);
    RunGrows(Do(m, cancel), between);
    var p := RunAfter(m, cancel, between);
    GrowsTwice(m, Do(m, cancel), p);
    assert CallAges(m.calls[c], p.calls[c]);
    if Flying(p, c) && Enabled(p, Settle(c, outcome)) { StaleRunIsIgnored(p, c, outcome); }
  }
}
