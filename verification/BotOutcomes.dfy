/** What the steps of the bot protocol come to, on the flags of the instances, and for how long. */
module BotOutcomes {
  import RS = ReconnectScheduler
  import WD = Watchdog
  import opened BotProtocol
  import opened BotSupervision

  /** Torn down: its teardown was announced, and it is not connected. */
  ghost predicate IsTorn(m: Manager, i: nat)
    requires i < |m.insts|
  {
    m.insts[i].disconnectEmitted && !m.insts[i].connected
  }

  // ---- How a connect ends ----

  /** A start whose connect fails or passes its deadline is torn down; at start-up nobody sees to that. */
  lemma FailedStartIsTorn(m: Manager, c: nat, outcome: Outcome)
    requires Inv(m) && Enabled(m, Settle(c, outcome)) && !outcome.Resolved?
    ensures var call, p := m.calls[c], Do(m, Settle(c, outcome));
      && call.inst < |p.insts| == |m.insts|
      && (call.kind.Operator? || call.kind.NoRow? || call.kind.Watch? || call.kind.Run? ==> IsTorn(p, call.inst))
      && (call.kind.Boot? || call.kind.Orphan? ==> p.insts == m.insts)
      && (forall i :: 0 <= i < |m.insts| && i != call.inst ==> p.insts[i] == m.insts[i])
      && p.rows == m.rows && p.bots == m.bots
  {
    EndedIsLocal(m, c, if outcome.TimedOut? then m.calls[c].(kind := Orphan) else m.calls[c].(open := false));
  }

  lemma EndedIsLocal(m: Manager, c: nat, call: Call)
    requires Shape(m) && c < |m.calls| && call.inst == m.calls[c].inst
    ensures var ended := m.(calls := m.calls[c := call]);
      Disconnect(ended, call.inst) == Set(ended, call.inst, Downed(m, call.inst))
  {
    DisconnectIsLocal(m.(calls := m.calls[c := call]), call.inst);
  }

  /**
   * A connect that resolves leaves its instance torn down when it was torn down before. Otherwise the bot goes online,
   * its start is recorded, and a recovery stays online exactly when the bot is still to auto-start.
   */
  lemma ResolvedStart(m: Manager, c: nat, persists: bool)
    requires Inv(m) && Enabled(m, Settle(c, Resolved(persists)))
    ensures var i, kind, p := m.calls[c].inst, m.calls[c].kind, Do(m, Settle(c, Resolved(persists)));
      var id := m.insts[i].bot;
      && i < |p.insts|
      && (m.insts[i].disconnectEmitted ==> IsTorn(p, i) && p.rows == m.rows)
      && (!m.insts[i].disconnectEmitted ==>
            && (kind.Operator? ==> p.insts[i].connected && p.rows == m.rows[id := true])
            && (kind.NoRow? || kind.Orphan? ==> p.insts[i].connected && p.rows == m.rows)
            && (kind.Boot? ==> p.insts[i].connected)
            && (kind.Boot? ==> p.rows == if persists then m.rows[id := kind.autoStart] else m.rows)
            && (kind.Watch? || kind.Run? ==> p.rows == m.rows)
            && (kind.Watch? || kind.Run? ==> if Auto(m, id) then p.insts[i].connected else IsTorn(p, i)))
  {
    var call := m.calls[c];
    var ended := m.(calls := m.calls[c := call.(open := false)]);
    assert TornOrCurrent(m, call.inst);
    EndedIsLocal(m, c, call.(open := false));
    DisconnectIsLocal(Connected(ended, call.inst), call.inst);
  }

  // ---- What other steps come to ----

  /** An operator's start tears the current instance down; a fresh one takes its place, or it connects again itself. */
  lemma OperatorStarts(m: Manager, id: BotId)
    requires Inv(m) && id in m.bots
    ensures var i, p, n := m.bots[id], Do(m, OperatorStart(id)), |m.insts|;
      && |p.calls| == |m.calls| + 1 && p.calls[..|m.calls|] == m.calls && p.rows == m.rows && p.sched == m.sched
      && i < n
      && (id in m.rows ==>
            && |p.insts| == n + 1 && IsTorn(p, i) && p.insts[n] == Fresh(id) && p.bots == m.bots[id := n]
            && p.calls[|m.calls|] == Call(n, Operator, true))
      && (id !in m.rows ==>
            && |p.insts| == n && p.insts[i] == Fresh(id) && p.bots == m.bots
            && p.calls[|m.calls|] == Call(i, NoRow, true))
  {
    DisconnectIsLocal(m, m.bots[id]);
  }

  /** A removal tears the bot down and forgets its row and instance; the idle timeout only tears down. */
  lemma RemovesAndIdles(m: Manager, id: BotId, i: nat)
    requires Inv(m) && i < |m.insts|
    ensures var p := Do(m, Remove(id));
      && |p.insts| == |m.insts| && p.bots == m.bots - {id} && p.rows == m.rows - {id} && id !in p.sched.timers
      && (id in m.bots ==> m.bots[id] < |p.insts| && IsTorn(p, m.bots[id]))
    ensures var p := Do(m, IdleOut(i));
      && |p.insts| == |m.insts| && IsTorn(p, i)
      && p == m.(insts := p.insts) && forall k :: 0 <= k < |m.insts| && k != i ==> p.insts[k] == m.insts[k]
  {
    DisconnectIsLocal(m, i);
    if id in m.bots { DisconnectIsLocal(m.(sched := RS.Cancel(m.sched, id)), m.bots[id]); }
  }

  /** The watchdog starts the next bot exactly when it is known, wanted, offline, not being recovered, and due. */
  lemma WatchdogStartsIff(m: Manager, due: bool)
    requires Inv(m) && m.watchdog.Looping? && m.watchdog.rest != []
    ensures var id, n, p := m.watchdog.rest[0], |m.insts|, Do(m, WatchNext(due));
      var starts := id in m.bots && Auto(m, id) && !IsConnected(m, id) && !RS.Busy(m.sched, id) && due;
      if starts
      then |p.insts| == n + 1 && p.insts[n] == Fresh(id) && p.bots == m.bots[id := n]
           && p.calls == m.calls + [Call(n, Watch, true)] && p.watchdog == WD.Awaiting(m.watchdog.rest[1..])
      else p == m.(watchdog := WD.Looping(m.watchdog.rest[1..]))
  {
    var p := m.(watchdog := WD.Looping(m.watchdog.rest[1..]));
    if m.watchdog.rest[0] in m.bots { DisconnectIsLocal(p, m.bots[m.watchdog.rest[0]]); }
  }

  /** A timer starts its bot exactly when the bot is known and still wanted; an unknown bot is tried again later. */
  lemma TimerStartsIff(m: Manager, id: BotId)
    requires Inv(m) && id in m.sched.timers
    ensures var n, p := |m.insts|, Do(m, Fire(id));
      if id in m.bots && Auto(m, id)
      then |p.insts| == n + 1 && p.insts[n] == Fresh(id) && p.bots == m.bots[id := n]
           && p.calls == m.calls + [Call(n, Kind.Run(RS.Gen(m.sched, id)), true)] && id in p.sched.inFlight
      else p.insts == m.insts && p.calls == m.calls && p.bots == m.bots && id !in p.sched.inFlight
           && (id in p.sched.timers <==> id !in m.bots)
  {
    if id in m.bots { DisconnectIsLocal(m.(sched := RS.Fired(m.sched, id).0), m.bots[id]); }
  }

  /** A new bot has its row and a fresh instance; a saved one connects exactly when it is to auto-start. */
  lemma CreatesAndLoads(m: Manager, id: BotId, autoStart: bool)
    requires Inv(m)
    ensures Enabled(m, Create(id, autoStart)) ==>
      Do(m, Create(id, autoStart)) == m.(
        bots := m.bots[id := |m.insts|], insts := m.insts + [Fresh(id)], rows := m.rows[id := autoStart],
        used := m.used + {id})
    ensures Enabled(m, Load(id)) ==>
      Do(m, Load(id)) == m.(
        bots := m.bots[id := |m.insts|], insts := m.insts + [Fresh(id)], unloaded := m.unloaded - {id},
        calls := if m.unloaded[id] then m.calls + [Call(|m.insts|, Kind.Boot(true), true)] else m.calls)
  {
  }

  /** A stop clears the row and tears the bot down; a tick sets the watchdog on its targets and does nothing else. */
  lemma StopsAndTicks(m: Manager, id: BotId, targets: seq<BotId>)
    requires Inv(m)
    ensures id in m.bots ==>
      var p := Do(m, Stop(id));
      && p.rows == (if id in m.rows then m.rows[id := false] else m.rows) && p.bots == m.bots && p.calls == m.calls
      && |p.insts| == |m.insts| && m.bots[id] < |m.insts| && IsTorn(p, m.bots[id])
      && id !in p.sched.timers && RS.Gen(p.sched, id) == RS.Gen(m.sched, id) + 1
    ensures id !in m.bots ==> Do(m, Stop(id)) == Do(m, OperatorStart(id)) == m
    ensures Enabled(m, Tick(targets)) ==> Do(m, Tick(targets)) == m.(watchdog := WD.Looping(targets))
  {
    if id in m.bots { StoppedKeepsInv(m, id); }
  }

  /** A drop tears its instance down, and concerns the scheduler only for the current one of a bot to be recovered. */
  lemma DropTearsDown(m: Manager, i: nat)
    requires Inv(m) && i < |m.insts|
    ensures var p, id := Do(m, Drop(i)), m.insts[i].bot;
      && |p.insts| == |m.insts| && IsTorn(p, i) && p.bots == m.bots && p.rows == m.rows && p.calls == m.calls
      && (forall k :: 0 <= k < |m.insts| && k != i ==> p.insts[k] == m.insts[k])
      && (m.insts[i].disconnectEmitted || !Current(m, i) || !m.settings.eventDriven || !Auto(m, id) ==>
            p.sched == m.sched)
  {
  }

  // ---- Torn down until it connects again itself ----

  /** The step has a bot without a row connect with the very instance that was torn down. */
  ghost predicate Reconnects(m: Manager, step: Step, i: nat)
    requires Shape(m) && i < |m.insts|
  {
    step == OperatorStart(m.insts[i].bot) && Current(m, i) && m.insts[i].bot !in m.rows
  }

  ghost predicate StaysTorn(m: Manager, p: Manager, i: nat) {
    i < |m.insts| <= |p.insts| && (m.insts[i].disconnectEmitted ==> p.insts[i].disconnectEmitted)
  }

  lemma DropStaysTorn(m: Manager, j: nat, i: nat)
    requires j < |m.insts| && i < |m.insts|
    ensures StaysTorn(m, Disconnect(m, j), i) && StaysTorn(m, Dropped(m, j), i)
  {
    DisconnectIsLocal(m, j);
  }

  lemma StartStaysTorn(m: Manager, id: BotId, kind: Kind, i: nat)
    requires Shape(m) && i < |m.insts|
    requires kind.Operator? ==> !Reconnects(m, OperatorStart(id), i)
    ensures StaysTorn(m, Start(m, id, kind).0, i)
  {
    if id in m.bots { DisconnectIsLocal(m, m.bots[id]); }
  }

  lemma FailedStaysTorn(m: Manager, j: nat, kind: Kind, i: nat)
    requires j < |m.insts| && i < |m.insts|
    ensures StaysTorn(m, Failed(m, j, kind), i)
  {
    DisconnectIsLocal(m, j);
  }

  lemma SucceededStaysTorn(m: Manager, j: nat, kind: Kind, persists: bool, i: nat)
    requires j < |m.insts| && i < |m.insts|
    ensures StaysTorn(m, Succeeded(m, j, kind, persists), i)
  {
    DisconnectIsLocal(m, j);
  }

  lemma SettledStaysTorn(m: Manager, c: nat, outcome: Outcome, i: nat)
    requires Shape(m) && Enabled(m, Settle(c, outcome)) && i < |m.insts|
    ensures StaysTorn(m, Settled(m, c, outcome), i)
  {
    var call := m.calls[c];
    var ended := m.(calls := m.calls[c := if outcome.TimedOut? then call.(kind := Orphan) else call.(open := false)]);
    FailedStaysTorn(ended, call.inst, call.kind, i);
    if outcome.Resolved? {
      SucceededStaysTorn(Connected(ended, call.inst), call.inst, call.kind, outcome.persists, i);
    }
  }

  lemma StoppedStaysTorn(m: Manager, id: BotId, i: nat)
    requires Inv(m) && id in m.bots && i < |m.insts|
    ensures StaysTorn(m, Stopped(m, id), i)
  {
    StoppedKeepsInv(m, id);
  }

  lemma RemovedStaysTorn(m: Manager, id: BotId, i: nat)
    requires Shape(m) && i < |m.insts|
    ensures StaysTorn(m, Removed(m, id), i)
  {
    if id in m.bots { DisconnectIsLocal(m.(sched := RS.Cancel(m.sched, id)), m.bots[id]); }
  }

  lemma FiredStaysTorn(m: Manager, id: BotId, i: nat)
    requires Shape(m) && id in m.sched.timers && i < |m.insts|
    ensures StaysTorn(m, TimerFired(m, id), i)
  {
    var sched := RS.Fired(m.sched, id).0;
    StartStaysTorn(m.(sched := sched), id, Kind.Run(RS.Gen(sched, id)), i);
  }

  lemma WatchedStaysTorn(m: Manager, due: bool, i: nat)
    requires Shape(m) && m.watchdog.Looping? && i < |m.insts|
    ensures StaysTorn(m, Watched(m, due), i)
  {
    var rest := m.watchdog.rest;
    if rest != [] { StartStaysTorn(m.(watchdog := WD.Looping(rest[1..])), rest[0], Watch, i); }
  }

  /** A torn down instance stays so in every step but a start of a bot without a row that connects it again. */
  lemma UntornIff(m: Manager, step: Step, i: nat)
    requires Inv(m) && Enabled(m, step) && i < |m.insts| && m.insts[i].disconnectEmitted
    ensures Inv(Do(m, step)) && i < |Do(m, step).insts|
    ensures !Do(m, step).insts[i].disconnectEmitted <==> Reconnects(m, step, i)
  {
    StepKeepsInv(m, step);
    if Reconnects(m, step, i) {
      OperatorStarts(m, m.insts[i].bot);
    } else {
      match step
      case OperatorStart(id) => StartStaysTorn(m, id, Operator, i);
      case Settle(c, outcome) => SettledStaysTorn(m, c, outcome, i);
      case Stop(id) => if id in m.bots { StoppedStaysTorn(m, id, i); }
      case Remove(id) => RemovedStaysTorn(m, id, i);
      case Drop(j) => DropStaysTorn(m, j, i);
      case IdleOut(j) => DropStaysTorn(m, j, i);
      case Fire(id) => FiredStaysTorn(m, id, i);
      case WatchNext(due) => WatchedStaysTorn(m, due, i);
      case _ =>
    }
  }

  /** No step of the run connects the instance again. */
  ghost predicate NeverReconnects(m: Manager, steps: seq<Step>, i: nat)
    requires Inv(m) && CanRun(m, steps) && i < |m.insts|
    decreases |steps|
  {
    steps == [] ||
    (StepKeepsInv(m, steps[0]); StepGrows(m, steps[0]);
     !Reconnects(m, steps[0], i) && NeverReconnects(Do(m, steps[0]), steps[1..], i))
  }

  ghost predicate NeverReconnectsAfter(m: Manager, step: Step, later: seq<Step>, i: nat)
    requires Inv(m) && Enabled(m, step) && CanRunAfter(m, step, later) && i < |m.insts|
  {
    StepKeepsInv(m, step);
    StepGrows(m, step);
    NeverReconnects(Do(m, step), later, i)
  }

  lemma {:induction false} RunStaysTorn(m: Manager, steps: seq<Step>, i: nat)
    requires Inv(m) && CanRun(m, steps) && i < |m.insts| && m.insts[i].disconnectEmitted && NeverReconnects(m, steps, i)
    ensures i < |BotSupervision.Run(m, steps).insts| && IsTorn(BotSupervision.Run(m, steps), i)
    decreases |steps|
  {
    if steps == [] {
      assert TornOrCurrent(m, i);
    } else {
      UntornIff(m, steps[0], i);
      RunStaysTorn(Do(m, steps[0]), steps[1..], i);
    }
  }

  /**
   * A start that has failed or timed out stays down over every run, even when its connect resolves after all, unless a
   * start of a bot without a row connects the very same instance again.
   */
  lemma FailedStartStaysDown(m: Manager, c: nat, outcome: Outcome, later: seq<Step>)
    requires Inv(m) && Enabled(m, Settle(c, outcome)) && !outcome.Resolved?
    requires !m.calls[c].kind.Boot? && !m.calls[c].kind.Orphan?
    requires CanRunAfter(m, Settle(c, outcome), later)
    requires NeverReconnectsAfter(m, Settle(c, outcome), later, m.calls[c].inst)
    ensures var i, q := m.calls[c].inst, RunAfter(m, Settle(c, outcome), later); i < |q.insts| && IsTorn(q, i)
  {
    StepKeepsInv(m, Settle(c, outcome));
    FailedStartIsTorn(m, c, outcome);
    RunStaysTorn(Do(m, Settle(c, outcome)), later, m.calls[c].inst);
  }

  // ---- The watchdog waits for one start at a time ----

  ghost predicate WatchOpen(m: Manager, c: nat)
    requires c < |m.calls|
  {
    m.calls[c].open && m.calls[c].kind.Watch?
  }

  /** The watchdog waits exactly while a start of its own is open, and then for a single one. */
  ghost predicate Watches(m: Manager) {
    && (m.watchdog.Awaiting? <==> exists c :: 0 <= c < |m.calls| && WatchOpen(m, c))
    && forall c, d :: 0 <= c < d < |m.calls| && WatchOpen(m, c) ==> !WatchOpen(m, d)
  }

  /** Neither the watchdog nor its starts are concerned. */
  ghost predicate Unwatched(m: Manager, p: Manager) {
    && p.watchdog == m.watchdog && |m.calls| <= |p.calls|
    && (forall c :: 0 <= c < |m.calls| ==> (WatchOpen(p, c) <==> WatchOpen(m, c)))
    && (forall c :: |m.calls| <= c < |p.calls| ==> !WatchOpen(p, c))
  }

  lemma UnwatchedStays(m: Manager, p: Manager)
    requires Watches(m) && Unwatched(m, p)
    ensures Watches(p)
  {
    if m.watchdog.Awaiting? {
      var c :| 0 <= c < |m.calls| && WatchOpen(m, c);
      assert WatchOpen(p, c);
    } else {
      forall c | 0 <= c < |p.calls| ensures !WatchOpen(p, c) {
        assert c < |m.calls| ==> !WatchOpen(m, c);
      }
    }
  }

  lemma StartUnwatched(m: Manager, id: BotId, kind: Kind)
    requires Shape(m)
    ensures var (p, how) := Start(m, id, kind);
      && (!kind.Watch? ==> Unwatched(m, p))
      && (kind.Watch? && how.Waiting? ==> p.watchdog == m.watchdog && p.calls[..|p.calls| - 1] == m.calls)
      && (!how.Waiting? ==> p == m)
  {
    if id in m.bots { DisconnectIsLocal(m, m.bots[id]); }
  }

  lemma DropUnwatched(m: Manager, i: nat)
    requires i < |m.insts|
    ensures Unwatched(m, Disconnect(m, i)) && Unwatched(m, Dropped(m, i))
  {
    DisconnectIsLocal(m, i);
  }

  lemma RemovedUnwatched(m: Manager, id: BotId)
    requires Inv(m)
    ensures Unwatched(m, Removed(m, id))
    ensures id in m.bots ==> Unwatched(m, Stopped(m, id))
  {
    if id in m.bots {
      DisconnectIsLocal(m.(sched := RS.Cancel(m.sched, id)), m.bots[id]);
      StoppedKeepsInv(m, id);
    }
  }

  lemma FiredUnwatched(m: Manager, id: BotId)
    requires Shape(m) && id in m.sched.timers
    ensures Unwatched(m, TimerFired(m, id))
  {
    var sched := RS.Fired(m.sched, id).0;
    StartUnwatched(m.(sched := sched), id, Kind.Run(RS.Gen(sched, id)));
  }

  /** What the end of a call does to the calls and the watchdog. */
  lemma SettledCalls(m: Manager, c: nat, outcome: Outcome)
    requires Inv(m) && Enabled(m, Settle(c, outcome))
    ensures var call, p := m.calls[c], Settled(m, c, outcome);
      && p.calls == m.calls[c := if outcome.TimedOut? then call.(kind := Orphan) else call.(open := false)]
      && p.watchdog == if call.kind.Watch? then WD.GoesOn(m.watchdog) else m.watchdog
  {
    var call := m.calls[c];
    var ended := m.(calls := m.calls[c := if outcome.TimedOut? then call.(kind := Orphan) else call.(open := false)]);
    DisconnectIsLocal(ended, call.inst);
    DisconnectIsLocal(Connected(ended, call.inst), call.inst);
  }

  lemma SettledWatches(m: Manager, c: nat, outcome: Outcome)
    requires Inv(m) && Watches(m) && Enabled(m, Settle(c, outcome))
    ensures Watches(Settled(m, c, outcome))
  {
    var p := Settled(m, c, outcome);
    SettledCalls(m, c, outcome);
    if WatchOpen(m, c) {
      forall d | 0 <= d < |p.calls| ensures !WatchOpen(p, d) {
        assert d == c || !WatchOpen(m, d);
      }
    } else {
      assert Unwatched(m, p);
      UnwatchedStays(m, p);
    }
  }

  lemma WatchedWatches(m: Manager, due: bool)
    requires Inv(m) && Watches(m) && m.watchdog.Looping?
    ensures Watches(Watched(m, due))
  {
    var p := Watched(m, due);
    assert forall c :: 0 <= c < |m.calls| ==> !WatchOpen(m, c);
    if m.watchdog.rest != [] {
      WatchdogStartsIff(m, due);
      if p.watchdog.Awaiting? {
        assert WatchOpen(p, |m.calls|);
        assert forall c :: 0 <= c < |m.calls| ==> (WatchOpen(p, c) <==> WatchOpen(m, c));
      } else {
        assert forall c :: 0 <= c < |m.calls| ==> (WatchOpen(p, c) <==> WatchOpen(m, c));
      }
    } else {
      assert forall c :: 0 <= c < |m.calls| ==> (WatchOpen(p, c) <==> WatchOpen(m, c));
    }
  }

  lemma StepKeepsWatches(m: Manager, step: Step)
    requires Inv(m) && Watches(m) && Enabled(m, step)
    ensures Watches(Do(m, step))
  {
    if step.Settle? {
      SettledWatches(m, step.call, step.outcome);
    } else if step.WatchNext? {
      WatchedWatches(m, step.due);
    } else if step.Tick? {
      var p := Do(m, step);
      assert forall c :: 0 <= c < |m.calls| ==> (WatchOpen(p, c) <==> WatchOpen(m, c));
    } else {
      OthersUnwatched(m, step);
      UnwatchedStays(m, Do(m, step));
    }
  }

  lemma OthersUnwatched(m: Manager, step: Step)
    requires Inv(m) && Enabled(m, step) && !step.Settle? && !step.WatchNext? && !step.Tick?
    ensures Unwatched(m, Do(m, step))
  {
    match step
    case OperatorStart(id) => StartUnwatched(m, id, Operator);
    case Stop(id) => RemovedUnwatched(m, id);
    case Remove(id) => RemovedUnwatched(m, id);
    case Drop(i) => DropUnwatched(m, i);
    case IdleOut(i) => DropUnwatched(m, i);
    case Fire(id) => FiredUnwatched(m, id);
    case _ =>
  }

  lemma {:induction false} RunKeepsWatches(m: Manager, steps: seq<Step>)
    requires Inv(m) && Watches(m) && CanRun(m, steps)
    ensures Watches(BotSupervision.Run(m, steps))
    decreases |steps|
  {
    if steps != [] {
      StepKeepsInv(m, steps[0]);
      StepKeepsWatches(m, steps[0]);
      RunKeepsWatches(Do(m, steps[0]), steps[1..]);
    }
  }

  /** Over every run: however the watchdog's start ends, the watchdog goes on with the rest of its targets. */
  lemma WatchdogGoesOn(rows: map<BotId, bool>, settings: Settings, steps: seq<Step>, c: nat, outcome: Outcome)
    requires CanRun(BotSupervision.Boot(rows, settings), steps)
    requires var m := BotSupervision.Run(BotSupervision.Boot(rows, settings), steps);
      Enabled(m, Settle(c, outcome)) && m.calls[c].kind.Watch?
    ensures var m := BotSupervision.Run(BotSupervision.Boot(rows, settings), steps);
      && m.watchdog.Awaiting? && Do(m, Settle(c, outcome)).watchdog == WD.Looping(m.watchdog.rest)
  {
    RunKeepsWatches(BotSupervision.Boot(rows, settings), steps);
    var m := BotSupervision.Run(BotSupervision.Boot(rows, settings), steps);
    assert WatchOpen(m, c);
    SettledCalls(m, c, outcome);
  }
}
