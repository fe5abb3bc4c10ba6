/**
 * Who keeps a bot online: operator, reconnect scheduler and watchdog over several instances per bot id
 * (bot/src/bot/manager.ts, bot/src/bot/instance.ts, bot/src/watchdog.ts). Each step runs to its next `await`;
 * a connect that resolves and the continuation of its caller are one step.
 */
module BotProtocol {
  import RS = ReconnectScheduler
  import WD = Watchdog

  type BotId = RS.BotId

  /** One `BotInstance`: which bot it is for, and the flags of bot/src/bot/instance.ts. */
  datatype Instance = Instance(bot: BotId, connected: bool, disconnectEmitted: bool, localDisconnect: bool)

  /** Who waits for a connect: an operator's start (with or without a saved row), start-up, the watchdog, a run of the
      scheduler, or nobody any more once the deadline has passed. */
  datatype Kind = Operator | NoRow | Boot(autoStart: bool) | Watch | Run(generation: nat) | Orphan

  datatype Call = Call(inst: nat, kind: Kind, open: bool)

  datatype Settings = Settings(eventDriven: bool, backoff: RS.Config)

  /** `rows` is the persisted autoStart of saved bots; `unloaded` what start-up has yet to load. Ids are not reused. */
  datatype Manager = Manager(
    bots: map<BotId, nat>, rows: map<BotId, bool>, insts: seq<Instance>, calls: seq<Call>, sched: RS.Sched,
    unloaded: map<BotId, bool>, used: set<BotId>, watchdog: WD.Loop, settings: Settings)

  // ---- One instance ----

  function Fresh(id: BotId): Instance {
    Instance(id, false, false, false)
  }

  function Connecting(inst: Instance): Instance {
    inst.(disconnectEmitted := false, localDisconnect := false)
  }

  function Down(inst: Instance): Instance {
    inst.(connected := false, disconnectEmitted := true)
  }

  // ---- Manager primitives ----

  predicate Current(m: Manager, i: nat)
    requires i < |m.insts|
  {
    m.insts[i].bot in m.bots && m.bots[m.insts[i].bot] == i
  }

  predicate Auto(m: Manager, id: BotId) {
    id in m.rows && m.rows[id]
  }

  function Set(m: Manager, i: nat, inst: Instance): Manager
    requires i < |m.insts|
  {
    m.(insts := m.insts[i := inst])
  }

  function ScheduleFor(m: Manager, id: BotId): Manager {
    if m.settings.eventDriven && Auto(m, id) then m.(sched := RS.Schedule(m.sched, id, m.settings.backoff)) else m
  }

  /** The manager's listener for an instance's "disconnected" event. */
  function OnDisconnected(m: Manager, i: nat): Manager
    requires i < |m.insts|
  {
    if !Current(m, i) then m
    else if m.insts[i].localDisconnect then Set(m, i, m.insts[i].(localDisconnect := false))
    else ScheduleFor(m, m.insts[i].bot)
  }

  /** `BotInstance.disconnect()` */
  function Disconnect(m: Manager, i: nat): Manager
    requires i < |m.insts|
  {
    var inst := m.insts[i];
    var down := Set(m, i, Down(inst).(localDisconnect := true));
    if inst.disconnectEmitted then down else OnDisconnected(down, i)
  }

  /** The connection closes from the other side. */
  function Dropped(m: Manager, i: nat): Manager
    requires i < |m.insts|
  {
    var inst := m.insts[i];
    var down := Set(m, i, Down(inst));
    if inst.disconnectEmitted then down else OnDisconnected(down, i)
  }

  /** `BotInstance.connect()` has succeeded; the manager's listener resets the backoff. */
  function Connected(m: Manager, i: nat): Manager
    requires i < |m.insts|
  {
    var up := Set(m, i, m.insts[i].(connected := true));
    if Current(up, i) then up.(sched := RS.Reset(m.sched, m.insts[i].bot)) else up
  }

  /** A new instance takes the bot's place in the map. */
  function Replaced(m: Manager, id: BotId): Manager {
    m.(bots := m.bots[id := |m.insts|], insts := m.insts + [Fresh(id)])
  }

  function Called(m: Manager, i: nat, kind: Kind): Manager {
    m.(calls := m.calls + [Call(i, kind, true)])
  }

  datatype Begun = Threw | Skipped | Waiting

  /** `startBot` up to its connect. `Operator` is a plain start; the other kinds come from recovery. */
  function Start(m: Manager, id: BotId, kind: Kind): (Manager, Begun)
    requires id in m.bots ==> m.bots[id] < |m.insts|
  {
    if id !in m.bots then (m, Threw)
    else if kind != Operator && !Auto(m, id) then (m, Skipped)
    else
      var i := m.bots[id];
      var p := Disconnect(m, i);
      if id in m.rows then (Called(Replaced(p, id), |p.insts|, kind), Waiting)
      else (Called(Set(p, i, Connecting(p.insts[i])), i, NoRow), Waiting)
  }

  function RunEnds(m: Manager, id: BotId, generation: nat, succeeded: bool): Manager {
    m.(sched := RS.Finished(m.sched, id, generation, succeeded, m.settings.backoff))
  }

  /** The caller of a connect goes on after success. */
  function Succeeded(m: Manager, i: nat, kind: Kind, persists: bool): Manager
    requires i < |m.insts|
  {
    var id := m.insts[i].bot;
    match kind
    case Operator => m.(rows := m.rows[id := true])
    case Boot(autoStart) => if persists then m.(rows := m.rows[id := autoStart]) else m
    case Watch => (if Auto(m, id) then m else Disconnect(m, i)).(watchdog := WD.GoesOn(m.watchdog))
    case Run(generation) => RunEnds(if Auto(m, id) then m else Disconnect(m, i), id, generation, true)
    case _ => m
  }

  /** The caller of a connect goes on after a failure or its deadline: the instance is torn down. */
  function Failed(m: Manager, i: nat, kind: Kind): Manager
    requires i < |m.insts|
  {
    match kind
    case Boot(_) => m
    case Orphan => m
    case Watch => Disconnect(m, i).(watchdog := WD.GoesOn(m.watchdog))
    case Run(generation) => RunEnds(Disconnect(m, i), m.insts[i].bot, generation, false)
    case _ => Disconnect(m, i)
  }

  /** What a connect comes to. A start-up connect may or may not have a new identity to save. */
  datatype Outcome = Resolved(persists: bool) | Rejected | TimedOut

  function Settled(m: Manager, c: nat, outcome: Outcome): Manager
    requires c < |m.calls| && m.calls[c].inst < |m.insts|
  {
    var call := m.calls[c];
    var closed := m.(calls := m.calls[c := call.(open := false)]);
    match outcome
    case Resolved(persists) =>
      if m.insts[call.inst].disconnectEmitted then Failed(closed, call.inst, call.kind)
      else Succeeded(Connected(closed, call.inst), call.inst, call.kind, persists)
    case Rejected => Failed(closed, call.inst, call.kind)
    case TimedOut => Failed(m.(calls := m.calls[c := call.(kind := Orphan)]), call.inst, call.kind)
  }

  // ---- Steps ----

  datatype Step =
    | Create(id: BotId, autoStart: bool)
    | Load(id: BotId)
    | OperatorStart(id: BotId)
    | Stop(id: BotId)
    | Remove(id: BotId)
    | Settle(call: nat, outcome: Outcome)
    | Drop(inst: nat)
    | Unhealthy(inst: nat)
    | IdleOut(inst: nat)
    | Fire(id: BotId)
    | Tick(targets: seq<BotId>)
    | WatchNext(due: bool)

  predicate Enabled(m: Manager, step: Step) {
    match step
    case Create(id, _) => id !in m.used
    case Load(id) => id in m.unloaded
    case Settle(c, outcome) =>
      && c < |m.calls| && m.calls[c].open
      && (outcome.TimedOut? ==> !m.calls[c].kind.Boot? && !m.calls[c].kind.Orphan?)
    case Drop(i) => i < |m.insts|
    case Unhealthy(i) => i < |m.insts|
    case IdleOut(i) => i < |m.insts|
    case Fire(id) => id in m.sched.timers
    case Tick(targets) => m.watchdog.Resting? && forall i :: 0 <= i < |targets| ==> Auto(m, targets[i])
    case WatchNext(_) => m.watchdog.Looping?
    case _ => true
  }

  function Loaded(m: Manager, id: BotId): Manager
    requires id in m.unloaded
  {
    var p := Replaced(m, id).(unloaded := m.unloaded - {id});
    if m.unloaded[id] then Called(p, |m.insts|, Boot(true)) else p
  }

  function Stopped(m: Manager, id: BotId): Manager
    requires id in m.bots && m.bots[id] < |m.insts|
  {
    var p := m.(sched := RS.Cancel(m.sched, id), rows := if id in m.rows then m.rows[id := false] else m.rows);
    Disconnect(p, m.bots[id])
  }

  function Removed(m: Manager, id: BotId): Manager
    requires id in m.bots ==> m.bots[id] < |m.insts|
  {
    var p := m.(sched := RS.Cancel(m.sched, id));
    var q := if id in m.bots then Disconnect(p, m.bots[id]) else p;
    q.(bots := q.bots - {id}, rows := q.rows - {id})
  }

  function TimerFired(m: Manager, id: BotId): Manager
    requires id in m.sched.timers && (id in m.bots ==> m.bots[id] < |m.insts|)
  {
    var (sched, begun) := RS.Fired(m.sched, id);
    var p := m.(sched := sched);
    if !begun then p
    else
      var generation := RS.Gen(sched, id);
      var (q, how) := Start(p, id, Run(generation));
      if how.Waiting? then q else RunEnds(q, id, generation, how.Skipped?)
  }

  function IsConnected(m: Manager, id: BotId): bool
    requires id in m.bots ==> m.bots[id] < |m.insts|
  {
    id in m.bots && m.insts[m.bots[id]].connected
  }

  function Watched(m: Manager, due: bool): Manager
    requires m.watchdog.Looping? && forall id :: id in m.bots ==> m.bots[id] < |m.insts|
  {
    var rest := m.watchdog.rest;
    if rest == [] then m.(watchdog := WD.Resting)
    else
      var p := m.(watchdog := WD.Looping(rest[1..]));
      if IsConnected(m, rest[0]) || RS.Busy(m.sched, rest[0]) || !due then p
      else
        var (q, how) := Start(p, rest[0], Watch);
        if how.Waiting? then q.(watchdog := WD.Awaiting(rest[1..])) else q
  }

  function Do(m: Manager, step: Step): Manager
    requires Shape(m) && Enabled(m, step)
  {
    match step
    case Create(id, autoStart) =>
      Replaced(m, id).(rows := m.rows[id := autoStart], used := m.used + {id})
    case Load(id) => Loaded(m, id)
    case OperatorStart(id) => Start(m, id, Operator).0
    case Stop(id) => if id in m.bots then Stopped(m, id) else m
    case Remove(id) => Removed(m, id)
    case Settle(c, outcome) => Settled(m, c, outcome)
    case Drop(i) => Dropped(m, i)
    case Unhealthy(i) => if Current(m, i) then ScheduleFor(m, m.insts[i].bot) else m
    case IdleOut(i) => Disconnect(m, i)
    case Fire(id) => TimerFired(m, id)
    case Tick(targets) => m.(watchdog := WD.Looping(targets))
    case WatchNext(due) => Watched(m, due)
  }

  // ---- Invariant ----

  /** The map holds instances of its own bots, and no bot is both loaded and yet to load. */
  ghost predicate Shape(m: Manager) {
    && (forall id :: id in m.bots ==> m.bots[id] < |m.insts| && m.insts[m.bots[id]].bot == id && id in m.used)
    && (forall c :: 0 <= c < |m.calls| ==> m.calls[c].inst < |m.insts|)
    && (forall i :: 0 <= i < |m.insts| ==> m.insts[i].bot in m.used)
    && m.rows.Keys <= m.used && m.unloaded.Keys <= m.used && m.bots.Keys !! m.unloaded.Keys
    && (forall i :: 0 <= i < |m.insts| ==> m.insts[i].bot !in m.unloaded)
  }

  /** An instance outside the map is torn down; a torn down one is not connected, and only such is marked local. */
  ghost predicate OneLive(m: Manager) {
    forall i :: 0 <= i < |m.insts| ==> TornOrCurrent(m, i)
  }

  ghost predicate TornOrCurrent(m: Manager, i: nat)
    requires i < |m.insts|
  {
    && (m.insts[i].disconnectEmitted ==> !m.insts[i].connected)
    && (m.insts[i].localDisconnect ==> m.insts[i].disconnectEmitted)
    && (Current(m, i) || m.insts[i].disconnectEmitted)
  }

  /** A run of the scheduler that is still waiting for its connect. */
  ghost predicate Flying(m: Manager, c: nat)
    requires c < |m.calls|
  {
    m.calls[c].open && m.calls[c].kind.Run?
  }

  ghost function BotOf(m: Manager, c: nat): BotId
    requires c < |m.calls| && m.calls[c].inst < |m.insts|
  {
    m.insts[m.calls[c].inst].bot
  }

  /** Never a timer beside a run, never two runs, and runs know their generation. */
  ghost predicate Flight(m: Manager)
    requires Shape(m)
  {
    && (forall id :: id in m.sched.timers ==>
          id !in m.sched.inFlight && m.sched.timers[id].generation == RS.Gen(m.sched, id))
    && (forall c :: 0 <= c < |m.calls| && Flying(m, c) ==> FlightOf(m, c))
    && (forall c, d :: 0 <= c < d < |m.calls| && Flying(m, c) && Flying(m, d) ==> BotOf(m, c) != BotOf(m, d))
  }

  ghost predicate FlightOf(m: Manager, c: nat)
    requires Shape(m) && c < |m.calls| && Flying(m, c)
  {
    && BotOf(m, c) in m.sched.inFlight && m.calls[c].kind.generation <= RS.Gen(m.sched, BotOf(m, c))
    // a run begun before a cancel waits for an instance that is torn down
    && (m.calls[c].kind.generation < RS.Gen(m.sched, BotOf(m, c)) ==> m.insts[m.calls[c].inst].disconnectEmitted)
    // while its instance is current, the bot has a row
    && (Current(m, m.calls[c].inst) ==> BotOf(m, c) in m.rows)
  }

  ghost predicate Inv(m: Manager) {
    Shape(m) && OneLive(m) && Flight(m)
  }

  // ---- Primitives keep the invariant ----

  /** What `disconnect()` leaves of an instance; it never schedules a reconnect. */
  function Downed(m: Manager, i: nat): Instance
    requires i < |m.insts|
  {
    Down(m.insts[i]).(localDisconnect := m.insts[i].disconnectEmitted || !Current(m, i))
  }

  lemma DisconnectIsLocal(m: Manager, i: nat)
    requires i < |m.insts|
    ensures Disconnect(m, i) == Set(m, i, Downed(m, i))
  {
  }

  lemma DownKeepsInv(m: Manager, i: nat, inst: Instance)
    requires Inv(m) && i < |m.insts| && inst.bot == m.insts[i].bot && inst.disconnectEmitted && !inst.connected
    ensures Inv(Set(m, i, inst))
  {
    var p := Set(m, i, inst);
    assert Shape(p);
    forall k | 0 <= k < |p.insts| ensures TornOrCurrent(p, k) { assert TornOrCurrent(m, k); }
    FlightMoves(m, p);
  }

  /** Flight survives when runs keep their bots and nothing they rely on is lost. */
  lemma FlightMoves(m: Manager, p: Manager)
    requires Shape(m) && Flight(m) && Shape(p) && p.sched == m.sched && p.calls == m.calls
    requires |m.insts| <= |p.insts| && forall k :: 0 <= k < |m.insts| ==> p.insts[k].bot == m.insts[k].bot
    requires forall k :: 0 <= k < |m.insts| && m.insts[k].disconnectEmitted ==> p.insts[k].disconnectEmitted
    requires forall k :: 0 <= k < |m.insts| && Current(p, k) && p.insts[k].bot !in p.rows ==>
      Current(m, k) && m.insts[k].bot !in m.rows
    ensures Flight(p)
  {
    forall c | 0 <= c < |p.calls| && Flying(p, c) ensures FlightOf(p, c) {
      assert Flying(m, c) && FlightOf(m, c);
    }
    forall c, d | 0 <= c < d < |p.calls| && Flying(p, c) && Flying(p, d) ensures BotOf(p, c) != BotOf(p, d) {
      assert Flying(m, c) && Flying(m, d);
    }
  }

  lemma DisconnectKeepsInv(m: Manager, i: nat)
    requires Inv(m) && i < |m.insts|
    ensures Inv(Disconnect(m, i)) && Disconnect(m, i) == Set(m, i, Downed(m, i))
  {
    DisconnectIsLocal(m, i);
    DownKeepsInv(m, i, Downed(m, i));
  }

  /** A change of the scheduler keeps the invariant when timers and runs stay apart and generations are kept. */
  lemma SchedKeepsInv(m: Manager, sched: RS.Sched)
    requires Inv(m) && sched.generation == m.sched.generation && sched.inFlight == m.sched.inFlight
    requires forall id :: id in sched.timers ==>
      id !in sched.inFlight && sched.timers[id].generation == RS.Gen(sched, id)
    ensures Inv(m.(sched := sched))
  {
    var p := m.(sched := sched);
    forall k | 0 <= k < |p.insts| ensures TornOrCurrent(p, k) { assert TornOrCurrent(m, k); }
    forall c | 0 <= c < |p.calls| && Flying(p, c) ensures FlightOf(p, c) { assert Flying(m, c) && FlightOf(m, c); }
    forall c, d | 0 <= c < d < |p.calls| && Flying(p, c) && Flying(p, d) ensures BotOf(p, c) != BotOf(p, d) {
      assert Flying(m, c) && Flying(m, d);
    }
  }

  lemma ScheduleKeepsInv(m: Manager, id: BotId)
    requires Inv(m)
    ensures Inv(ScheduleFor(m, id))
  {
    SchedKeepsInv(m, RS.Schedule(m.sched, id, m.settings.backoff));
  }

  lemma DropKeepsInv(m: Manager, i: nat)
    requires Inv(m) && i < |m.insts|
    ensures Inv(Dropped(m, i))
  {
    var down := Set(m, i, Down(m.insts[i]));
    DownKeepsInv(m, i, Down(m.insts[i]));
    if !m.insts[i].disconnectEmitted && Current(down, i) {
      if m.insts[i].localDisconnect {
        DownKeepsInv(down, i, down.insts[i].(localDisconnect := false));
      } else {
        ScheduleKeepsInv(down, m.insts[i].bot);
      }
    }
  }

  /** A connect that was not aborted belongs to the current instance, which goes online. */
  lemma ConnectedKeepsInv(m: Manager, i: nat)
    requires Inv(m) && i < |m.insts| && !m.insts[i].disconnectEmitted
    ensures Current(m, i) && Inv(Connected(m, i))
    ensures Connected(m, i) == Set(m, i, m.insts[i].(connected := true)).(sched := RS.Reset(m.sched, m.insts[i].bot))
  {
    assert TornOrCurrent(m, i);
    var up := Set(m, i, m.insts[i].(connected := true));
    forall k | 0 <= k < |up.insts| ensures TornOrCurrent(up, k) { assert TornOrCurrent(m, k); }
    FlightMoves(m, up);
    SchedKeepsInv(up, RS.Reset(m.sched, m.insts[i].bot));
  }

  /** A bot's next instance may take over once the one before is torn down. */
  lemma ReplacedKeepsInv(m: Manager, id: BotId)
    requires Inv(m) && id in m.used && id !in m.unloaded
    requires id in m.bots ==> m.insts[m.bots[id]].disconnectEmitted
    ensures Inv(Replaced(m, id))
  {
    var p := Replaced(m, id);
    forall k | 0 <= k < |p.insts| ensures TornOrCurrent(p, k) {
      if k < |m.insts| { assert TornOrCurrent(m, k); }
    }
    FlightMoves(m, p);
  }

  ghost predicate NoRun(m: Manager, id: BotId)
    requires Shape(m)
  {
    forall c :: 0 <= c < |m.calls| && Flying(m, c) ==> BotOf(m, c) != id
  }

  lemma NoRunStays(m: Manager, p: Manager, id: BotId)
    requires Shape(m) && Shape(p) && p.calls == m.calls && |m.insts| <= |p.insts|
    requires forall k :: 0 <= k < |m.insts| ==> p.insts[k].bot == m.insts[k].bot
    ensures NoRun(m, id) ==> NoRun(p, id)
  {
    if NoRun(m, id) {
      forall c | 0 <= c < |p.calls| && Flying(p, c) ensures BotOf(p, c) != id { assert Flying(m, c); }
    }
  }

  lemma CalledKeepsInv(m: Manager, i: nat, kind: Kind)
    requires Inv(m) && i < |m.insts|
    requires kind.Run? ==>
      && NoRun(m, m.insts[i].bot) && m.insts[i].bot in m.sched.inFlight && m.insts[i].bot in m.rows
      && kind.generation == RS.Gen(m.sched, m.insts[i].bot)
    ensures Inv(Called(m, i, kind))
  {
    var p := Called(m, i, kind);
    forall k | 0 <= k < |p.insts| ensures TornOrCurrent(p, k) { assert TornOrCurrent(m, k); }
    forall c | 0 <= c < |p.calls| && Flying(p, c) ensures FlightOf(p, c) {
      if c < |m.calls| { assert Flying(m, c) && FlightOf(m, c); }
    }
    forall c, d | 0 <= c < d < |p.calls| && Flying(p, c) && Flying(p, d) ensures BotOf(p, c) != BotOf(p, d) {
      assert Flying(m, c);
      if d < |m.calls| { assert Flying(m, d); }
    }
  }

  /** A call that ends, or that nobody waits for any more, is no run; its bot then has none. */
  lemma CallEndsKeepsInv(m: Manager, c: nat, call: Call)
    requires Inv(m) && c < |m.calls| && call.inst == m.calls[c].inst && !(call.open && call.kind.Run?)
    ensures Inv(m.(calls := m.calls[c := call]))
    ensures Flying(m, c) ==> NoRun(m.(calls := m.calls[c := call]), BotOf(m, c))
  {
    var p := m.(calls := m.calls[c := call]);
    forall k | 0 <= k < |p.insts| ensures TornOrCurrent(p, k) { assert TornOrCurrent(m, k); }
    forall d | 0 <= d < |p.calls| && Flying(p, d) ensures FlightOf(p, d) {
      assert d != c && Flying(m, d) && FlightOf(m, d);
    }
    forall d, e | 0 <= d < e < |p.calls| && Flying(p, d) && Flying(p, e) ensures BotOf(p, d) != BotOf(p, e) {
      assert Flying(m, d) && Flying(m, e);
    }
    if Flying(m, c) {
      forall d | 0 <= d < |p.calls| && Flying(p, d) ensures BotOf(p, d) != BotOf(m, c) {
        assert Flying(m, d);
        if d < c { assert BotOf(m, d) != BotOf(m, c); } else { assert BotOf(m, c) != BotOf(m, d); }
      }
    }
  }

  lemma RunEndsKeepsInv(m: Manager, id: BotId, generation: nat, succeeded: bool)
    requires Inv(m) && NoRun(m, id)
    ensures Inv(RunEnds(m, id, generation, succeeded))
  {
    var p := RunEnds(m, id, generation, succeeded);
    forall k | 0 <= k < |p.insts| ensures TornOrCurrent(p, k) { assert TornOrCurrent(m, k); }
    forall c | 0 <= c < |p.calls| && Flying(p, c) ensures FlightOf(p, c) {
      assert Flying(m, c) && FlightOf(m, c) && BotOf(m, c) != id;
    }
    forall c, d | 0 <= c < d < |p.calls| && Flying(p, c) && Flying(p, d) ensures BotOf(p, c) != BotOf(p, d) {
      assert Flying(m, c) && Flying(m, d);
    }
  }

  /** Cancelling is safe once every instance of the bot is about to be torn down. */
  lemma CancelKeepsInv(m: Manager, id: BotId)
    requires Inv(m) && forall i :: 0 <= i < |m.insts| && m.insts[i].bot == id ==> m.insts[i].disconnectEmitted
    ensures Inv(m.(sched := RS.Cancel(m.sched, id)))
  {
    var p := m.(sched := RS.Cancel(m.sched, id));
    forall k | 0 <= k < |p.insts| ensures TornOrCurrent(p, k) { assert TornOrCurrent(m, k); }
    forall c | 0 <= c < |p.calls| && Flying(p, c) ensures FlightOf(p, c) { assert Flying(m, c) && FlightOf(m, c); }
    forall c, d | 0 <= c < d < |p.calls| && Flying(p, c) && Flying(p, d) ensures BotOf(p, c) != BotOf(p, d) {
      assert Flying(m, c) && Flying(m, d);
    }
  }

  /** More rows, or other flags in them, keep the invariant; so does anything the watchdog remembers. */
  lemma RowsKeepInv(m: Manager, rows: map<BotId, bool>, used: set<BotId>, watchdog: WD.Loop)
    requires Inv(m) && m.rows.Keys <= rows.Keys <= used && m.used <= used
    ensures Inv(m.(rows := rows, used := used, watchdog := watchdog))
  {
    var p := m.(rows := rows, used := used, watchdog := watchdog);
    forall k | 0 <= k < |p.insts| ensures TornOrCurrent(p, k) { assert TornOrCurrent(m, k); }
    FlightMoves(m, p);
  }

  // ---- Steps keep the invariant ----

  lemma StartKeepsInv(m: Manager, id: BotId, kind: Kind)
    requires Inv(m) && (kind == Operator || kind == Watch || kind.Run?)
    requires kind.Run? ==> NoRun(m, id) && id in m.sched.inFlight && kind.generation == RS.Gen(m.sched, id)
    ensures Inv(Start(m, id, kind).0)
    ensures !Start(m, id, kind).1.Waiting? ==> Start(m, id, kind).0 == m
  {
    if id in m.bots && (kind == Operator || Auto(m, id)) {
      var i := m.bots[id];
      DisconnectKeepsInv(m, i);
      var p := Disconnect(m, i);
      if id in m.rows {
        ReplacedKeepsInv(p, id);
        NoRunStays(m, Replaced(p, id), id);
        CalledKeepsInv(Replaced(p, id), |p.insts|, kind);
      } else {
        ReconnectKeepsInv(p, id);
        CalledKeepsInv(Set(p, i, Connecting(p.insts[i])), i, NoRow);
      }
    }
  }

  /** Without a saved row the same instance connects again; no run of the scheduler can be waiting for it. */
  lemma ReconnectKeepsInv(m: Manager, id: BotId)
    requires Inv(m) && id in m.bots && id !in m.rows && m.insts[m.bots[id]].disconnectEmitted
    ensures Inv(Set(m, m.bots[id], Connecting(m.insts[m.bots[id]])))
  {
    var i := m.bots[id];
    var p := Set(m, i, Connecting(m.insts[i]));
    forall k | 0 <= k < |p.insts| ensures TornOrCurrent(p, k) {
      assert TornOrCurrent(m, k) && TornOrCurrent(m, i);
    }
    forall c | 0 <= c < |p.calls| && Flying(p, c) ensures FlightOf(p, c) { assert Flying(m, c) && FlightOf(m, c); }
    forall c, d | 0 <= c < d < |p.calls| && Flying(p, c) && Flying(p, d) ensures BotOf(p, c) != BotOf(p, d) {
      assert Flying(m, c) && Flying(m, d);
    }
  }

  lemma SucceededKeepsInv(m: Manager, i: nat, kind: Kind, persists: bool)
    requires Inv(m) && i < |m.insts| && (kind.Run? ==> NoRun(m, m.insts[i].bot))
    ensures Inv(Succeeded(m, i, kind, persists))
  {
    var id := m.insts[i].bot;
    match kind
    case Operator => RowsKeepInv(m, m.rows[id := true], m.used, m.watchdog);
    case Boot(autoStart) => RowsKeepInv(m, m.rows[id := autoStart], m.used, m.watchdog);
    case Watch =>
      DisconnectKeepsInv(m, i);
      var p := if Auto(m, id) then m else Disconnect(m, i);
      RowsKeepInv(p, p.rows, p.used, WD.GoesOn(m.watchdog));
    case Run(generation) =>
      DisconnectKeepsInv(m, i);
      var p := if Auto(m, id) then m else Disconnect(m, i);
      NoRunStays(m, p, id);
      RunEndsKeepsInv(p, id, generation, true);
    case _ =>
  }

  lemma FailedKeepsInv(m: Manager, i: nat, kind: Kind)
    requires Inv(m) && i < |m.insts| && (kind.Run? ==> NoRun(m, m.insts[i].bot))
    ensures Inv(Failed(m, i, kind))
  {
    DisconnectKeepsInv(m, i);
    var p := Disconnect(m, i);
    if kind.Watch? {
      RowsKeepInv(p, p.rows, p.used, WD.GoesOn(m.watchdog));
    } else if kind.Run? {
      NoRunStays(m, p, m.insts[i].bot);
      RunEndsKeepsInv(p, m.insts[i].bot, kind.generation, false);
    }
  }

  lemma SettledKeepsInv(m: Manager, c: nat, outcome: Outcome)
    requires Inv(m) && Enabled(m, Settle(c, outcome))
    ensures Inv(Settled(m, c, outcome))
  {
    var call := m.calls[c];
    if outcome.TimedOut? {
      CallEndsKeepsInv(m, c, call.(kind := Orphan));
      FailedKeepsInv(m.(calls := m.calls[c := call.(kind := Orphan)]), call.inst, call.kind);
    } else {
      var closed := m.(calls := m.calls[c := call.(open := false)]);
      CallEndsKeepsInv(m, c, call.(open := false));
      if outcome.Rejected? || m.insts[call.inst].disconnectEmitted {
        FailedKeepsInv(closed, call.inst, call.kind);
      } else {
        ConnectedKeepsInv(closed, call.inst);
        var up := Connected(closed, call.inst);
        NoRunStays(closed, up, m.insts[call.inst].bot);
        SucceededKeepsInv(up, call.inst, call.kind, outcome.persists);
      }
    }
  }

  lemma StoppedKeepsInv(m: Manager, id: BotId)
    requires Inv(m) && id in m.bots
    ensures Inv(Stopped(m, id))
    ensures Stopped(m, id) == Set(m, m.bots[id], Downed(m, m.bots[id])).(
      sched := RS.Cancel(m.sched, id), rows := if id in m.rows then m.rows[id := false] else m.rows)
  {
    var i, rows := m.bots[id], if id in m.rows then m.rows[id := false] else m.rows;
    DisconnectIsLocal(m.(sched := RS.Cancel(m.sched, id), rows := rows), i);
    DisconnectKeepsInv(m, i);
    var down := Set(m, i, Downed(m, i));
    AllTorn(down, id);
    CancelKeepsInv(down, id);
    RowsKeepInv(down.(sched := RS.Cancel(m.sched, id)), rows, m.used, m.watchdog);
  }

  /** With the current instance torn down, every instance of the bot is. */
  lemma AllTorn(m: Manager, id: BotId)
    requires Inv(m) && (id in m.bots ==> m.insts[m.bots[id]].disconnectEmitted)
    ensures forall i :: 0 <= i < |m.insts| && m.insts[i].bot == id ==>
      m.insts[i].disconnectEmitted && !m.insts[i].connected
  {
    forall i | 0 <= i < |m.insts| && m.insts[i].bot == id
      ensures m.insts[i].disconnectEmitted && !m.insts[i].connected
    {
      assert TornOrCurrent(m, i);
    }
  }

  lemma RemovedKeepsInv(m: Manager, id: BotId)
    requires Inv(m)
    ensures Inv(Removed(m, id))
  {
    var sched, q := RS.Cancel(m.sched, id), m;
    if id in m.bots {
      var i := m.bots[id];
      DisconnectIsLocal(m.(sched := sched), i);
      DisconnectKeepsInv(m, i);
      q := Set(m, i, Downed(m, i));
    }
    AllTorn(q, id);
    CancelKeepsInv(q, id);
    ForgetKeepsInv(q.(sched := sched), id);
  }

  lemma ForgetKeepsInv(m: Manager, id: BotId)
    requires Inv(m) && forall i :: 0 <= i < |m.insts| && m.insts[i].bot == id ==> m.insts[i].disconnectEmitted
    ensures Inv(m.(bots := m.bots - {id}, rows := m.rows - {id}))
  {
    var p := m.(bots := m.bots - {id}, rows := m.rows - {id});
    forall k | 0 <= k < |p.insts| ensures TornOrCurrent(p, k) { assert TornOrCurrent(m, k); }
    FlightMoves(m, p);
  }

  lemma FiredKeepsInv(m: Manager, id: BotId)
    requires Inv(m) && id in m.sched.timers
    ensures Inv(TimerFired(m, id))
  {
    var (sched, begun) := RS.Fired(m.sched, id);
    var p := m.(sched := sched);
    NoRunWithTimer(m, id);
    FlyKeepsInv(m, id);
    if begun {
      var generation := RS.Gen(sched, id);
      NoRunStays(m, p, id);
      StartKeepsInv(p, id, Run(generation));
      var (q, how) := Start(p, id, Run(generation));
      if !how.Waiting? { RunEndsKeepsInv(q, id, generation, how.Skipped?); }
    }
  }

  lemma NoRunWithTimer(m: Manager, id: BotId)
    requires Inv(m) && id in m.sched.timers
    ensures NoRun(m, id)
  {
    forall c | 0 <= c < |m.calls| && Flying(m, c) ensures BotOf(m, c) != id { assert FlightOf(m, c); }
  }

  lemma FlyKeepsInv(m: Manager, id: BotId)
    requires Inv(m) && id in m.sched.timers
    ensures Inv(m.(sched := RS.Fired(m.sched, id).0))
  {
    var p := m.(sched := RS.Fired(m.sched, id).0);
    forall k | 0 <= k < |p.insts| ensures TornOrCurrent(p, k) { assert TornOrCurrent(m, k); }
    forall c | 0 <= c < |p.calls| && Flying(p, c) ensures FlightOf(p, c) { assert Flying(m, c) && FlightOf(m, c); }
    forall c, d | 0 <= c < d < |p.calls| && Flying(p, c) && Flying(p, d) ensures BotOf(p, c) != BotOf(p, d) {
      assert Flying(m, c) && Flying(m, d);
    }
  }

  lemma WatchedKeepsInv(m: Manager, due: bool)
    requires Inv(m) && m.watchdog.Looping?
    ensures Inv(Watched(m, due))
  {
    var rest := m.watchdog.rest;
    if rest == [] {
      RowsKeepInv(m, m.rows, m.used, WD.Resting);
    } else {
      RowsKeepInv(m, m.rows, m.used, WD.Looping(rest[1..]));
      var p := m.(watchdog := WD.Looping(rest[1..]));
      StartKeepsInv(p, rest[0], Watch);
      var q := Start(p, rest[0], Watch).0;
      RowsKeepInv(q, q.rows, q.used, WD.Awaiting(rest[1..]));
    }
  }

  lemma CreatedKeepsInv(m: Manager, id: BotId, autoStart: bool)
    requires Inv(m) && id !in m.used
    ensures Inv(Do(m, Create(id, autoStart)))
  {
    var p := m.(rows := m.rows[id := autoStart], used := m.used + {id});
    RowsKeepInv(m, m.rows[id := autoStart], m.used + {id}, m.watchdog);
    assert id !in m.bots && id !in m.unloaded;
    ReplacedKeepsInv(p, id);
  }

  lemma LoadedKeepsInv(m: Manager, id: BotId)
    requires Inv(m) && id in m.unloaded
    ensures Inv(Loaded(m, id))
  {
    var q := m.(unloaded := m.unloaded - {id});
    forall k | 0 <= k < |q.insts| ensures TornOrCurrent(q, k) { assert TornOrCurrent(m, k); }
    FlightMoves(m, q);
    ReplacedKeepsInv(q, id);
    CalledKeepsInv(Replaced(q, id), |m.insts|, Boot(true));
  }

  /** Every step of every interleaving keeps the invariant. */
  lemma StepKeepsInv(m: Manager, step: Step)
    requires Inv(m) && Enabled(m, step)
    ensures Inv(Do(m, step))
  {
    match step
    case Create(id, autoStart) => CreatedKeepsInv(m, id, autoStart);
    case Load(id) => LoadedKeepsInv(m, id);
    case OperatorStart(id) => StartKeepsInv(m, id, Operator);
    case Stop(id) => if id in m.bots { StoppedKeepsInv(m, id); }
    case Remove(id) => RemovedKeepsInv(m, id);
    case Settle(c, outcome) => SettledKeepsInv(m, c, outcome);
    case Drop(i) => DropKeepsInv(m, i);
    case Unhealthy(i) => ScheduleKeepsInv(m, m.insts[i].bot);
    case IdleOut(i) => DisconnectKeepsInv(m, i);
    case Fire(id) => FiredKeepsInv(m, id);
    case Tick(targets) => RowsKeepInv(m, m.rows, m.used, WD.Looping(targets));
    case WatchNext(due) => WatchedKeepsInv(m, due);
  }
}
