/**
 * The bot manager and its instances as objects (bot/src/bot/manager.ts, bot/src/bot/instance.ts). A method runs up to
 * its next `await`; what is to be done after one is kept in `awaiting`. Each step does what the protocol says.
 */
module BotManager {
  import RS = ReconnectScheduler
  import WD = Watchdog
  import opened BotProtocol
  import Supervision = BotSupervision

  class BotInstance {
    const id: BotId
    /** Which instance this is, in the order they were made. */
    ghost const number: nat
    var connected: bool
    var disconnectEmitted: bool
    var localDisconnect: bool

    ghost function Value(): Instance
      reads this
    {
      Instance(id, connected, disconnectEmitted, localDisconnect)
    }

    constructor (id: BotId, ghost number: nat)
      ensures this.id == id && this.number == number && Value() == Fresh(id)
    {
      this.id := id;
      this.number := number;
      connected, disconnectEmitted, localDisconnect := false, false, false;
    }

    /** `connect` up to its await. */
    method BeginConnect()
      modifies this
      ensures Value() == Connecting(old(Value()))
    {
      disconnectEmitted := false;
      localDisconnect := false;
    }

    /** `connect` after its await; false stands for the exception. The manager is told when it is true. */
    method FinishConnect() returns (ok: bool)
      modifies this
      ensures ok == !old(disconnectEmitted)
      ensures Value() == if ok then old(Value()).(connected := true) else old(Value())
    {
      if disconnectEmitted { return false; }
      connected := true;
      return true;
    }

    method ConsumeLocalDisconnect() returns (v: bool)
      modifies this
      ensures v == old(localDisconnect) && Value() == old(Value()).(localDisconnect := false)
    {
      v := localDisconnect;
      localDisconnect := false;
    }

    /** `disconnect` up to its event, and whether there is one. */
    method Disconnect() returns (emits: bool)
      modifies this
      ensures emits == !old(disconnectEmitted)
      ensures Value() == Down(old(Value())).(localDisconnect := true)
    {
      localDisconnect := true;
      connected := false;
      emits := !disconnectEmitted;
      if emits { disconnectEmitted := true; }
    }

    /** The listener for a closed connection, up to its event. */
    method OnClosed() returns (emits: bool)
      modifies this
      ensures emits == !old(disconnectEmitted)
      ensures Value() == Down(old(Value()))
    {
      connected := false;
      if disconnectEmitted { return false; }
      disconnectEmitted := true;
      return true;
    }
  }

  /** What goes on when the connect of an instance comes to an end. */
  datatype Await = Await(bot: BotInstance, kind: Kind, open: bool)

  lemma StartIgnoresWatchdog(m: Manager, id: BotId, v: WD.Loop, w: WD.Loop)
    requires id in m.bots ==> m.bots[id] < |m.insts|
    ensures Start(m.(watchdog := v), id, Watch).0.(watchdog := w) == Start(m.(watchdog := w), id, Watch).0
    ensures Start(m.(watchdog := v), id, Watch).0.watchdog == v
    ensures Start(m.(watchdog := v), id, Watch).1 == Start(m.(watchdog := w), id, Watch).1
  {
    if id in m.bots {
      DisconnectIsLocal(m.(watchdog := v), m.bots[id]);
      DisconnectIsLocal(m.(watchdog := w), m.bots[id]);
    }
  }

  class BotManager {
    const settings: Settings
    const reconnectScheduler: RS.Scheduler
    const watchdog: WD.Watchdog
    var bots: map<BotId, BotInstance>
    var rows: map<BotId, bool>
    var awaiting: seq<Await>
    var unloaded: map<BotId, bool>
    /** Every instance ever made, and the state of the protocol that all this stands for. */
    ghost var made: seq<BotInstance>
    ghost var state: Manager

    ghost predicate Made(bot: BotInstance)
      reads this
    {
      bot.number < |made| && made[bot.number] == bot
    }

    /** Every instance but perhaps one is as the protocol has it. */
    ghost predicate HoldsBut(except: int)
      reads this, made
    {
      && |made| == |state.insts|
      && forall i :: 0 <= i < |made| ==> made[i].number == i && (i != except ==> made[i].Value() == state.insts[i])
    }

    ghost predicate Maps()
      reads this
    {
      && bots.Keys == state.bots.Keys
      && forall id :: id in bots ==> Made(bots[id]) && bots[id].number == state.bots[id]
    }

    ghost predicate Waits()
      reads this
    {
      && |awaiting| == |state.calls|
      && forall c :: 0 <= c < |awaiting| ==>
        Made(awaiting[c].bot) && state.calls[c] == Call(awaiting[c].bot.number, awaiting[c].kind, awaiting[c].open)
    }

    ghost predicate Rest()
      reads this, reconnectScheduler, watchdog
    {
      && Maps() && Waits()
      && rows == state.rows && unloaded == state.unloaded && settings == state.settings
      && reconnectScheduler.config == settings.backoff
      && reconnectScheduler.View() == state.sched && watchdog.loop == state.watchdog
    }

    ghost predicate Valid()
      reads this, reconnectScheduler, watchdog, made
    {
      HoldsBut(-1) && Rest()
    }

    constructor (rows: map<BotId, bool>, settings: Settings, cooldownMs: nat)
      ensures Valid() && state == Supervision.Boot(rows, settings)
      ensures fresh(reconnectScheduler) && fresh(watchdog)
    {
      this.settings := settings;
      reconnectScheduler := new RS.Scheduler(settings.backoff.baseMs, settings.backoff.maxMs);
      watchdog := new WD.Watchdog(cooldownMs);
      this.rows, unloaded := rows, rows;
      bots, awaiting, made := map[], [], [];
      state := Supervision.Boot(rows, settings);
    }

    /** The part shared by the listeners: recovery is wanted only for rows that auto-start. */
    method ScheduleIfWanted(id: BotId)
      requires Valid()
      modifies this`state, reconnectScheduler
      ensures Valid() && state == ScheduleFor(old(state), id)
    {
      if !settings.eventDriven { return; }
      if id !in rows || !rows[id] { return; }
      reconnectScheduler.ScheduleReconnect(id);
      state := ScheduleFor(state, id);
    }

    /** An instance has changed; the protocol's state follows. */
    ghost method Note(bot: BotInstance)
      requires Rest() && Made(bot) && HoldsBut(bot.number) && bot.id == state.insts[bot.number].bot
      modifies this`state
      ensures Valid() && state == Set(old(state), bot.number, bot.Value())
    {
      state := Set(state, bot.number, bot.Value());
    }

    lemma CurrentIff(bot: BotInstance)
      requires Valid() && Made(bot)
      ensures bot.id == state.insts[bot.number].bot
      ensures Current(state, bot.number) <==> bot.id in bots && bots[bot.id] == bot
    {
    }

    method OnInstanceDisconnected(bot: BotInstance)
      requires Valid() && Made(bot)
      modifies this`state, reconnectScheduler, bot
      ensures Valid() && state == OnDisconnected(old(state), bot.number)
    {
      CurrentIff(bot);
      if bot.id !in bots || bots[bot.id] != bot { return; }
      var local := Consume(bot);
      if !local { ScheduleIfWanted(bot.id); }
    }

    method Consume(bot: BotInstance) returns (v: bool)
      requires Valid() && Made(bot)
      modifies this`state, bot
      ensures Valid() && v == old(state).insts[bot.number].localDisconnect
      ensures v ==> state == Set(old(state), bot.number, old(state).insts[bot.number].(localDisconnect := false))
      ensures !v ==> state == old(state)
    {
      v := bot.ConsumeLocalDisconnect();
      Note(bot);
      if !v { assert bot.Value() == old(bot.Value()) && state.insts == old(state).insts; }
    }

    method OnInstanceConnected(bot: BotInstance)
      requires Valid() && Made(bot)
      modifies this`state, reconnectScheduler
      ensures Valid()
      ensures state == if Current(old(state), bot.number)
        then old(state).(sched := RS.Reset(old(state).sched, bot.id)) else old(state)
    {
      CurrentIff(bot);
      if bot.id !in bots || bots[bot.id] != bot { return; }
      reconnectScheduler.ResetBackoff(bot.id);
      state := state.(sched := RS.Reset(state.sched, bot.id));
    }

    method DisconnectBot(bot: BotInstance)
      requires Valid() && Made(bot)
      modifies this`state, reconnectScheduler, bot
      ensures Valid() && state == Disconnect(old(state), bot.number)
    {
      CurrentIff(bot);
      var emits := bot.Disconnect();
      Note(bot);
      if emits { OnInstanceDisconnected(bot); }
    }

    method CloseBot(bot: BotInstance)
      requires Valid() && Made(bot)
      modifies this`state, reconnectScheduler, bot
      ensures Valid() && state == Dropped(old(state), bot.number)
    {
      CurrentIff(bot);
      var emits := bot.OnClosed();
      Note(bot);
      if emits { OnInstanceDisconnected(bot); }
    }

    /** A new instance takes the bot's place in the map. */
    method Replace(id: BotId) returns (bot: BotInstance)
      requires Valid()
      modifies this`state, this`bots, this`made
      ensures Valid() && state == Replaced(old(state), id)
      ensures fresh(bot) && made == old(made) + [bot] && bots == old(bots)[id := bot]
      ensures Made(bot) && bot.number == |old(made)| && bot.id == id
    {
      bot := new BotInstance(id, |made|);
      made := made + [bot];
      bots := bots[id := bot];
      state := Replaced(state, id);
    }

    method Wait(bot: BotInstance, kind: Kind)
      requires Valid() && Made(bot)
      modifies this`state, this`awaiting
      ensures Valid() && state == Called(old(state), bot.number, kind)
    {
      awaiting := awaiting + [Await(bot, kind, true)];
      state := Called(state, bot.number, kind);
    }

    method Connect(bot: BotInstance, kind: Kind)
      requires Valid() && Made(bot)
      modifies this`state, this`awaiting, bot
      ensures Valid()
      ensures state == Called(Set(old(state), bot.number, Connecting(old(state).insts[bot.number])), bot.number, kind)
    {
      CurrentIff(bot);
      bot.BeginConnect();
      Note(bot);
      Wait(bot, kind);
    }

    method ConnectNew(id: BotId, kind: Kind) returns (bot: BotInstance)
      requires Valid()
      modifies this`state, this`bots, this`made, this`awaiting
      ensures Valid() && fresh(bot) && made == old(made) + [bot] && bots == old(bots)[id := bot]
      ensures state == Called(Replaced(old(state), id), |old(made)|, kind)
    {
      bot := Replace(id);
      ghost var m := state;
      assert Set(m, bot.number, Connecting(Fresh(id))).insts == m.insts;
      Connect(bot, kind);
    }

    /** Tears down the outgoing instance and connects its replacement, or itself without a row to rebuild from. */
    method Restart(id: BotId, kind: Kind)
      requires Valid() && id in bots
      modifies this`state, this`bots, this`made, this`awaiting, reconnectScheduler, bots[id]
      ensures Valid() && old(made) <= made && (forall b :: b in made && b !in old(made) ==> fresh(b))
      ensures var i := old(bots[id].number);
        i < |old(state).insts| && var p := Disconnect(old(state), i);
        state == if id in old(rows) then Called(Replaced(p, id), |p.insts|, kind)
          else Called(Set(p, i, Connecting(p.insts[i])), i, NoRow)
    {
      var outgoing := bots[id];
      DisconnectBot(outgoing);
      if id in rows { var _ := ConnectNew(id, kind); } else { Connect(outgoing, NoRow); }
    }

    /** `startBot` up to its connect. */
    method BeginStart(id: BotId, kind: Kind) returns (how: Begun)
      requires Valid()
      modifies this`state, this`bots, this`made, this`awaiting, reconnectScheduler, made
      ensures Valid() && old(made) <= made && (forall b :: b in made && b !in old(made) ==> fresh(b))
      ensures (state, how) == Start(old(state), id, kind)
    {
      if id !in bots { return Threw; }
      if kind != Operator && !(id in rows && rows[id]) { return Skipped; }
      Restart(id, kind);
      return Waiting;
    }

    // ---- When a connect comes to an end ----

    /** The scheduler's own run goes on after its reconnect. */
    method EndRun(id: BotId, generation: nat, succeeded: bool)
      requires Valid()
      modifies this`state, reconnectScheduler
      ensures Valid() && state == RunEnds(old(state), id, generation, succeeded)
    {
      reconnectScheduler.OnRunEnd(id, generation, succeeded);
      state := RunEnds(state, id, generation, succeeded);
    }

    method ResumeWatchdog()
      requires Valid()
      modifies this`state, watchdog
      ensures Valid() && state == old(state).(watchdog := WD.GoesOn(old(state).watchdog))
    {
      watchdog.Resume();
      state := state.(watchdog := WD.GoesOn(state.watchdog));
    }

    method SaveRow(id: BotId, autoStart: bool)
      requires Valid()
      modifies this`state, this`rows
      ensures Valid() && state == old(state).(rows := old(state).rows[id := autoStart])
    {
      rows := rows[id := autoStart];
      state := state.(rows := state.rows[id := autoStart]);
    }

    /** After a recovery has connected: the operator may have stopped the bot meanwhile. */
    method KeepIfWanted(bot: BotInstance)
      requires Valid() && Made(bot)
      modifies this`state, reconnectScheduler, bot
      ensures Valid() && state == if Auto(old(state), bot.id) then old(state) else Disconnect(old(state), bot.number)
    {
      if !(bot.id in rows && rows[bot.id]) { DisconnectBot(bot); }
    }

    method AfterSuccess(bot: BotInstance, kind: Kind, persists: bool)
      requires Valid() && Made(bot)
      modifies this`state, this`rows, reconnectScheduler, watchdog, bot
      ensures Valid() && state == Succeeded(old(state), bot.number, kind, persists)
    {
      CurrentIff(bot);
      match kind
      case Operator => SaveRow(bot.id, true);
      case Boot(autoStart) => if persists { SaveRow(bot.id, autoStart); }
      case Watch =>
        KeepIfWanted(bot);
        ResumeWatchdog();
      case Run(generation) =>
        KeepIfWanted(bot);
        EndRun(bot.id, generation, true);
      case _ =>
    }

    method AfterFailure(bot: BotInstance, kind: Kind)
      requires Valid() && Made(bot)
      modifies this`state, reconnectScheduler, watchdog, bot
      ensures Valid() && state == Failed(old(state), bot.number, kind)
    {
      CurrentIff(bot);
      if kind.Boot? || kind.Orphan? { return; }
      DisconnectBot(bot);
      match kind
      case Watch => ResumeWatchdog();
      case Run(generation) => EndRun(bot.id, generation, false);
      case _ =>
    }

    method Amend(c: nat, a: Await)
      requires Valid() && c < |awaiting| && a.bot == awaiting[c].bot
      modifies this`state, this`awaiting
      ensures Valid() && state == old(state).(calls := old(state).calls[c := Call(a.bot.number, a.kind, a.open)])
      ensures |awaiting| == |old(awaiting)|
    {
      awaiting := awaiting[c := a];
      state := state.(calls := state.calls[c := Call(a.bot.number, a.kind, a.open)]);
    }

    /** The connection is made, unless the instance was torn down meanwhile. */
    method Resolve(bot: BotInstance) returns (ok: bool)
      requires Valid() && Made(bot)
      modifies this`state, reconnectScheduler, bot
      ensures Valid() && ok == !old(state).insts[bot.number].disconnectEmitted
      ensures state == if ok then Connected(old(state), bot.number) else old(state)
    {
      CurrentIff(bot);
      ok := bot.FinishConnect();
      Note(bot);
      if ok { OnInstanceConnected(bot); } else { assert state.insts == old(state).insts; }
    }

    /** A connect has resolved, been refused or passed its deadline; the code that waited for it goes on. */
    method EndConnect(c: nat, outcome: Outcome)
      requires Valid() && c < |awaiting|
      modifies this`state, this`rows, this`awaiting, reconnectScheduler, watchdog, awaiting[c].bot
      ensures Valid() && state == Settled(old(state), c, outcome)
    {
      var a := awaiting[c];
      match outcome
      case TimedOut =>
        Amend(c, a.(kind := Orphan));
        AfterFailure(a.bot, a.kind);
      case Rejected =>
        Amend(c, a.(open := false));
        AfterFailure(a.bot, a.kind);
      case Resolved(persists) =>
        Amend(c, a.(open := false));
        var ok := Resolve(a.bot);
        if ok { AfterSuccess(a.bot, a.kind, persists); } else { AfterFailure(a.bot, a.kind); }
    }

    // ---- Parts of the steps ----

    method CancelReconnect(id: BotId)
      requires Valid()
      modifies this`state, reconnectScheduler
      ensures Valid() && state == old(state).(sched := RS.Cancel(old(state).sched, id))
    {
      reconnectScheduler.CancelTimers(id);
      state := state.(sched := RS.Cancel(state.sched, id));
    }

    method ClearAutoStart(id: BotId)
      requires Valid()
      modifies this`state, this`rows
      ensures Valid()
      ensures state == old(state).(rows := if id in old(rows) then old(state).rows[id := false] else old(state).rows)
    {
      if id in rows { SaveRow(id, false); }
    }

    method StopExisting(id: BotId) returns (found: bool)
      requires Valid()
      modifies this`state, this`rows, reconnectScheduler, if id in bots then {bots[id]} else {}
      ensures Valid() && found == (id in bots) == (id in old(state).bots)
      ensures found ==> old(state).bots[id] < |old(state).insts| && state == Stopped(old(state), id)
      ensures !found ==> state == old(state)
    {
      if id !in bots { return false; }
      // cancelled before the disconnect, so that its event cannot schedule again
      CancelReconnect(id);
      ClearAutoStart(id);
      DisconnectBot(bots[id]);
      return true;
    }

    method Forget(id: BotId)
      requires Valid()
      modifies this`state, this`bots, this`rows
      ensures Valid() && state == old(state).(bots := old(state).bots - {id}, rows := old(state).rows - {id})
    {
      bots := bots - {id};
      rows := rows - {id};
      state := state.(bots := state.bots - {id}, rows := state.rows - {id});
    }

    method RemoveExisting(id: BotId)
      requires Valid()
      modifies this`state, this`bots, this`rows, reconnectScheduler, if id in bots then {bots[id]} else {}
      ensures Valid() && (id in old(state).bots ==> old(state).bots[id] < |old(state).insts|)
      ensures state == Removed(old(state), id)
    {
      CancelReconnect(id);
      if id in bots { DisconnectBot(bots[id]); }
      Forget(id);
    }

    method LoadNext(id: BotId)
      requires Valid() && id in unloaded
      modifies this`state, this`bots, this`made, this`unloaded, this`awaiting
      ensures Valid() && state == Loaded(old(state), id)
      ensures id in bots && fresh(bots[id]) && made == old(made) + [bots[id]]
    {
      var saved := unloaded[id];
      unloaded := unloaded - {id};
      state := state.(unloaded := state.unloaded - {id});
      if saved {
        var bot := ConnectNew(id, Boot(true));
      } else {
        var bot := Replace(id);
      }
    }

    method AddRow(id: BotId, autoStart: bool)
      requires Valid()
      modifies this`state, this`rows
      ensures Valid()
      ensures state == old(state).(rows := old(state).rows[id := autoStart], used := old(state).used + {id})
    {
      rows := rows[id := autoStart];
      state := state.(rows := state.rows[id := autoStart], used := state.used + {id});
    }

    /** The watchdog tries a bot; when the start does not get as far as a connect, its loop goes on at once. */
    method TryReconnect(id: BotId)
      requires Valid() && watchdog.loop.Awaiting?
      modifies this`state, this`bots, this`made, this`awaiting, reconnectScheduler, watchdog, made
      ensures Valid() && old(made) <= made && (forall b :: b in made && b !in old(made) ==> fresh(b))
      ensures id in old(state).bots ==> old(state).bots[id] < |old(state).insts|
      ensures var (q, how) := Start(old(state), id, Watch);
        state == if how.Waiting? then q else q.(watchdog := WD.GoesOn(q.watchdog))
    {
      var how := BeginStart(id, Watch);
      if !how.Waiting? { ResumeWatchdog(); }
    }

    method Look() returns (attempt: bool)
      requires Valid() && watchdog.loop.Looping?
      modifies this`state, watchdog
      ensures Valid()
      ensures var rest, s := old(watchdog.loop.rest), old(watchdog.View());
        && attempt == (rest != [] && !old(IsConnectedNow(rest[0])) && !RS.Busy(old(state).sched, rest[0])
                       && WD.Due(s, rest[0], watchdog.cooldownMs))
        && state == old(state).(watchdog :=
          if rest == [] then WD.Resting else if attempt then WD.Awaiting(rest[1..]) else WD.Looping(rest[1..]))
    {
      var rest := watchdog.loop.rest;
      if rest == [] {
        attempt := watchdog.Visit(false, false);
      } else {
        attempt := watchdog.Visit(IsConnectedNow(rest[0]), reconnectScheduler.IsBusy(rest[0]));
      }
      state := state.(watchdog := watchdog.loop);
    }

    predicate IsConnectedNow(id: BotId)
      reads this, if id in bots then {bots[id]} else {}
    {
      id in bots && bots[id].connected
    }

    ghost predicate NextIsDue()
      requires watchdog.loop.Looping?
      reads watchdog
    {
      watchdog.loop.rest != [] && WD.Due(watchdog.View(), watchdog.loop.rest[0], watchdog.cooldownMs)
    }

    method VisitNext()
      requires Valid() && watchdog.loop.Looping?
      modifies this`state, this`bots, this`made, this`awaiting, reconnectScheduler, watchdog, made
      ensures Valid() && old(made) <= made && (forall b :: b in made && b !in old(made) ==> fresh(b))
      ensures (forall id :: id in old(state).bots ==> old(state).bots[id] < |old(state).insts|)
      ensures state == Watched(old(state), old(NextIsDue()))
    {
      ghost var m := state;
      var rest := watchdog.loop.rest;
      var attempt := Look();
      if attempt {
        StartIgnoresWatchdog(m, rest[0], WD.Looping(rest[1..]), WD.Awaiting(rest[1..]));
        TryReconnect(rest[0]);
      }
    }

    /** A reconnect timer and the run it begins, up to its connect. */
    method OnReconnectTimer(id: BotId)
      requires Valid() && id in reconnectScheduler.timers
      modifies this`state, this`bots, this`made, this`awaiting, reconnectScheduler, made
      ensures Valid() && old(made) <= made && (forall b :: b in made && b !in old(made) ==> fresh(b))
      ensures id in old(state).sched.timers && (id in old(state).bots ==> old(state).bots[id] < |old(state).insts|)
      ensures state == TimerFired(old(state), id)
    {
      var generation := reconnectScheduler.timers[id].generation;
      var begun := reconnectScheduler.OnTimer(id);
      state := state.(sched := RS.Fired(state.sched, id).0);
      if !begun { return; }
      var how := BeginStart(id, Run(generation));
      if !how.Waiting? { EndRun(id, generation, how.Skipped?); }
    }

    // ---- The steps ----

    /** Nothing but the current instance of a bot is connected. */
    lemma OnlyCurrentIsConnected(bot: BotInstance)
      requires Valid() && Inv(state) && Made(bot) && bot.connected
      ensures bot.id in bots && bots[bot.id] == bot
    {
      CurrentIff(bot);
      assert TornOrCurrent(state, bot.number);
    }

    method CreateBot(id: BotId, autoStart: bool)
      requires Valid() && Inv(state) && Enabled(state, Create(id, autoStart))
      modifies this
      ensures Valid() && Inv(state) && state == Do(old(state), Create(id, autoStart))
      ensures id in bots && fresh(bots[id]) && made == old(made) + [bots[id]]
    {
      StepKeepsInv(state, Create(id, autoStart));
      AddRow(id, autoStart);
      var bot := Replace(id);
    }

    /** One turn of the loop of `loadSavedBots`. */
    method LoadSavedBot(id: BotId)
      requires Valid() && Inv(state) && Enabled(state, Load(id))
      modifies this
      ensures Valid() && Inv(state) && state == Do(old(state), Load(id))
      ensures id in bots && fresh(bots[id]) && made == old(made) + [bots[id]]
    {
      StepKeepsInv(state, Load(id));
      LoadNext(id);
    }

    method StartBot(id: BotId) returns (found: bool)
      requires Valid() && Inv(state)
      modifies this, reconnectScheduler, made
      ensures Valid() && Inv(state) && state == Do(old(state), OperatorStart(id)) && found == (id in old(bots))
      ensures old(made) <= made && (forall b :: b in made && b !in old(made) ==> fresh(b))
    {
      StepKeepsInv(state, OperatorStart(id));
      var how := BeginStart(id, Operator);
      found := !how.Threw?;
    }

    method StopBot(id: BotId) returns (found: bool)
      requires Valid() && Inv(state)
      modifies this`state, this`rows, reconnectScheduler, if id in bots then {bots[id]} else {}
      ensures Valid() && Inv(state) && found == (id in bots)
      ensures state == Do(old(state), Stop(id))
    {
      ghost var m := state;
      StepKeepsInv(m, Stop(id));
      found := StopExisting(id);
      assert state == Do(m, Stop(id));
    }

    method RemoveBot(id: BotId)
      requires Valid() && Inv(state)
      modifies this, reconnectScheduler, if id in bots then {bots[id]} else {}
      ensures Valid() && Inv(state) && state == Do(old(state), Remove(id)) && made == old(made)
    {
      StepKeepsInv(state, Remove(id));
      RemoveExisting(id);
    }

    method SettleConnect(c: nat, outcome: Outcome)
      requires Valid() && Inv(state) && Enabled(state, Settle(c, outcome))
      modifies this, reconnectScheduler, watchdog, awaiting[c].bot
      ensures Valid() && Inv(state) && state == Do(old(state), Settle(c, outcome))
      ensures made == old(made) && bots == old(bots)
    {
      StepKeepsInv(state, Settle(c, outcome));
      EndConnect(c, outcome);
    }

    method RemoteDrop(bot: BotInstance)
      requires Valid() && Inv(state) && Made(bot)
      modifies this`state, reconnectScheduler, bot
      ensures Valid() && Inv(state) && state == Do(old(state), Drop(bot.number))
    {
      StepKeepsInv(state, Drop(bot.number));
      CloseBot(bot);
    }

    method IdleDisconnect(bot: BotInstance)
      requires Valid() && Inv(state) && Made(bot)
      modifies this`state, reconnectScheduler, bot
      ensures Valid() && Inv(state) && state == Do(old(state), IdleOut(bot.number))
    {
      StepKeepsInv(state, IdleOut(bot.number));
      DisconnectBot(bot);
    }

    method OnVoiceTransportUnhealthy(bot: BotInstance)
      requires Valid() && Inv(state) && Made(bot)
      modifies this`state, reconnectScheduler
      ensures Valid() && Inv(state) && state == Do(old(state), Unhealthy(bot.number))
    {
      StepKeepsInv(state, Unhealthy(bot.number));
      CurrentIff(bot);
      if bot.id !in bots || bots[bot.id] != bot { return; }
      ScheduleIfWanted(bot.id);
    }

    /** A reconnect timer goes off. */
    method FireTimer(id: BotId)
      requires Valid() && Inv(state) && Enabled(state, Fire(id))
      modifies this, reconnectScheduler, made
      ensures Valid() && Inv(state) && state == Do(old(state), Fire(id))
      ensures old(made) <= made && (forall b :: b in made && b !in old(made) ==> fresh(b))
    {
      StepKeepsInv(state, Fire(id));
      OnReconnectTimer(id);
    }

    method WatchdogTick(targets: seq<BotId>, now: int)
      requires Valid() && Inv(state) && Enabled(state, Tick(targets))
      modifies this`state, watchdog
      ensures Valid() && Inv(state) && state == Do(old(state), Tick(targets))
    {
      StepKeepsInv(state, Tick(targets));
      watchdog.Tick(targets, now);
      state := state.(watchdog := WD.Looping(targets));
    }

    /** One turn of the watchdog's loop; it tries a bot only when it is due. */
    method WatchdogVisit()
      requires Valid() && Inv(state) && watchdog.loop.Looping?
      modifies this, reconnectScheduler, watchdog, made
      ensures Valid() && Inv(state) && old(made) <= made && (forall b :: b in made && b !in old(made) ==> fresh(b))
      ensures state == Do(old(state), WatchNext(old(NextIsDue())))
    {
      StepKeepsInv(state, WatchNext(NextIsDue()));
      VisitNext();
    }
  }
}
