/** Event-driven reconnect with backoff (bot/src/bot/reconnect-scheduler.ts). */
module ReconnectScheduler {

  type BotId = string

  datatype Config = Config(baseMs: nat, maxMs: nat)

  /** A pending timeout: which attempt it is, the generation it was made in, and how long it waits. */
  datatype Timer = Timer(attempt: nat, generation: nat, delay: nat)

  datatype Sched = Sched(
    attempts: map<BotId, nat>, timers: map<BotId, Timer>, inFlight: set<BotId>, generation: map<BotId, nat>)

  const IDLE := Sched(map[], map[], {}, map[])

  // ---- Backoff ----

  function Power2(n: nat): (p: nat)
    ensures p >= 1
  {
    if n == 0 then 1 else 2 * Power2(n - 1)
  }

  function Min(a: nat, b: nat): nat { if a <= b then a else b }

  function ReconnectDelayMs(attempt: nat, c: Config): nat {
    if attempt < 1 then c.baseMs else Min(c.baseMs * Power2(attempt - 1), c.maxMs)
  }

  /** Waits never shrink from one attempt to the next and never exceed the maximum. */
  lemma {:induction false} DelaysGrow(attempt: nat, later: nat, c: Config)
    requires 1 <= attempt <= later
    ensures ReconnectDelayMs(attempt, c) <= ReconnectDelayMs(later, c) <= c.maxMs
    ensures ReconnectDelayMs(1, c) == Min(c.baseMs, c.maxMs)
    decreases later
  {
    if attempt < later {
      DelaysGrow(attempt, later - 1, c);
      Doubled(c.baseMs, Power2(later - 2));
    }
  }

  lemma Doubled(base: nat, p: nat)
    ensures base * (2 * p) == 2 * (base * p) && base * p >= 0
  {
  }

  /** Each wait is twice the one before, up to the maximum. */
  lemma WaitsDouble(attempt: nat, c: Config)
    requires attempt >= 1
    ensures ReconnectDelayMs(1, c) == Min(c.baseMs, c.maxMs)
    ensures ReconnectDelayMs(attempt + 1, c) == Min(2 * ReconnectDelayMs(attempt, c), c.maxMs)
  {
    assert Power2(attempt) == 2 * Power2(attempt - 1);
    Doubled(c.baseMs, Power2(attempt - 1));
  }

  // ---- Operations ----

  function Gen(s: Sched, id: BotId): nat {
    if id in s.generation then s.generation[id] else 0
  }

  function Attempt(s: Sched, id: BotId): nat {
    if id in s.attempts then s.attempts[id] else 0
  }

  predicate Busy(s: Sched, id: BotId) {
    id in s.timers || id in s.inFlight
  }

  function Reset(s: Sched, id: BotId): Sched {
    s.(timers := s.timers - {id}, attempts := s.attempts - {id})
  }

  function Cancel(s: Sched, id: BotId): Sched {
    Reset(s, id).(generation := s.generation[id := Gen(s, id) + 1])
  }

  function Schedule(s: Sched, id: BotId, c: Config): Sched {
    if Busy(s, id) then s
    else
      var attempt := Attempt(s, id) + 1;
      s.(attempts := s.attempts[id := attempt],
         timers := s.timers[id := Timer(attempt, Gen(s, id), ReconnectDelayMs(attempt, c))])
  }

  /** A timer goes off; it begins a run unless it was cancelled or a run is under way. */
  function Fired(s: Sched, id: BotId): (r: (Sched, bool))
    requires id in s.timers
  {
    var t := s.(timers := s.timers - {id});
    if Gen(s, id) != s.timers[id].generation || id in s.inFlight then (t, false)
    else (t.(inFlight := s.inFlight + {id}), true)
  }

  /** A run begun in `generation` ends. */
  function Finished(s: Sched, id: BotId, generation: nat, succeeded: bool, c: Config): Sched {
    var t := s.(inFlight := s.inFlight - {id});
    if Gen(s, id) != generation then t
    else if succeeded then t.(attempts := t.attempts - {id})
    else if id in t.timers then t
    else Schedule(t, id, c)
  }

  // ---- Runs of the scheduler on its own ----

  /** A reconnect that has begun and not ended: the closure of one `run` call. */
  datatype Closure = Closure(id: BotId, generation: nat, open: bool)

  datatype Event = Scheduled(id: BotId, delay: nat) | Cleared(id: BotId)

  /** The scheduler, its running closures and what it has done so far. */
  datatype World = World(sched: Sched, runs: seq<Closure>, log: seq<Event>)

  datatype Step =
    | DoSchedule(id: BotId)
    | DoFire(id: BotId)
    | DoFinish(run: nat, succeeded: bool)
    | DoCancel(id: BotId)
    | DoReset(id: BotId)

  predicate Enabled(w: World, step: Step) {
    match step
    case DoFire(id) => id in w.sched.timers
    case DoFinish(run, _) => run < |w.runs| && w.runs[run].open
    case _ => true
  }

  /** The log after a step that may have set a timer. */
  function Noted(w: World, s: Sched, id: BotId): seq<Event> {
    if id in s.timers && id !in w.sched.timers then w.log + [Scheduled(id, s.timers[id].delay)] else w.log
  }

  function Do(w: World, step: Step, c: Config): World
    requires Enabled(w, step)
  {
    match step
    case DoSchedule(id) => var s := Schedule(w.sched, id, c); World(s, w.runs, Noted(w, s, id))
    case DoFire(id) =>
      var (s, begun) := Fired(w.sched, id);
      World(s, if begun then w.runs + [Closure(id, Gen(s, id), true)] else w.runs, w.log)
    case DoFinish(run, succeeded) =>
      var (id, generation) := (w.runs[run].id, w.runs[run].generation);
      var s := Finished(w.sched, id, generation, succeeded, c);
      var success := succeeded && Gen(w.sched, id) == generation;
      World(s, w.runs[run := w.runs[run].(open := false)], if success then w.log + [Cleared(id)] else Noted(w, s, id))
    case DoCancel(id) => World(Cancel(w.sched, id), w.runs, w.log + [Cleared(id)])
    case DoReset(id) => World(Reset(w.sched, id), w.runs, w.log + [Cleared(id)])
  }

  /** Schedules of a bot since its attempts were last cleared. */
  function Streak(log: seq<Event>, id: BotId): nat {
    if log == [] then 0
    else
      var last := log[|log| - 1];
      if last == Cleared(id) then 0
      else Streak(log[..|log| - 1], id) + (if last.Scheduled? && last.id == id then 1 else 0)
  }

  /** Each wait is the delay for its place in the streak. */
  ghost predicate BackedOff(log: seq<Event>, c: Config) {
    forall i :: 0 <= i < |log| && log[i].Scheduled? ==>
      log[i].delay == ReconnectDelayMs(Streak(log[..i], log[i].id) + 1, c)
  }

  ghost predicate RunsOf(w: World, id: BotId, i: nat)
    requires i < |w.runs|
  {
    w.runs[i].open && w.runs[i].id == id
  }

  /** Single flight, and attempts that count the streak. */
  ghost predicate Sound(w: World, c: Config) {
    && (forall id :: id in w.sched.timers ==>
          id !in w.sched.inFlight && w.sched.timers[id].generation == Gen(w.sched, id))
    && (forall i :: 0 <= i < |w.runs| && w.runs[i].open ==>
          w.runs[i].id in w.sched.inFlight && w.runs[i].generation <= Gen(w.sched, w.runs[i].id))
    && (forall i, j :: 0 <= i < j < |w.runs| && w.runs[i].open && w.runs[j].open ==> w.runs[i].id != w.runs[j].id)
    && (forall id :: id in w.sched.attempts ==> w.sched.attempts[id] >= 1)
    && Counted(w, c)
  }

  ghost predicate Counted(w: World, c: Config) {
    (forall id :: Attempt(w.sched, id) == Streak(w.log, id)) && BackedOff(w.log, c)
  }

  lemma Appended(log: seq<Event>, e: Event, c: Config)
    requires BackedOff(log, c)
    requires e.Scheduled? ==> e.delay == ReconnectDelayMs(Streak(log, e.id) + 1, c)
    ensures BackedOff(log + [e], c)
    ensures forall id ::
      Streak(log + [e], id)
      == (if e == Cleared(id) then 0 else Streak(log, id) + if e.Scheduled? && e.id == id then 1 else 0)
  {
    assert (log + [e])[..|log|] == log;
    forall i | 0 <= i < |log| ensures (log + [e])[..i] == log[..i] {}
  }

  /** An effective schedule is the next of its streak and waits accordingly. */
  lemma ScheduleCounts(w: World, id: BotId, c: Config)
    requires Counted(w, c) && !Busy(w.sched, id)
    ensures var s := Schedule(w.sched, id, c);
      && id in s.timers && Noted(w, s, id) == w.log + [Scheduled(id, s.timers[id].delay)]
      && BackedOff(Noted(w, s, id), c)
      && forall other :: Attempt(s, other) == Streak(Noted(w, s, id), other)
  {
    var s := Schedule(w.sched, id, c);
    var e := Scheduled(id, ReconnectDelayMs(Attempt(w.sched, id) + 1, c));
    assert Attempt(w.sched, id) == Streak(w.log, id);
    Appended(w.log, e, c);
    assert Noted(w, s, id) == w.log + [e];
  }

  lemma ScheduleIsSound(w: World, id: BotId, c: Config)
    requires Sound(w, c)
    ensures Sound(Do(w, DoSchedule(id), c), c)
  {
    if !Busy(w.sched, id) { ScheduleCounts(w, id, c); }
  }

  /** Clearing the attempts of one bot is a `Cleared` in the log. */
  lemma ClearCounts(w: World, s: Sched, id: BotId, c: Config)
    requires Counted(w, c) && s.attempts == w.sched.attempts - {id}
    ensures BackedOff(w.log + [Cleared(id)], c)
    ensures forall other :: Attempt(s, other) == Streak(w.log + [Cleared(id)], other)
  {
    Appended(w.log, Cleared(id), c);
    assert forall other :: other != id ==> Attempt(s, other) == Attempt(w.sched, other);
  }

  lemma FinishIsSound(w: World, run: nat, succeeded: bool, c: Config)
    requires Sound(w, c) && Enabled(w, DoFinish(run, succeeded))
    ensures Sound(Do(w, DoFinish(run, succeeded), c), c)
  {
    var id := w.runs[run].id;
    var t := w.sched.(inFlight := w.sched.inFlight - {id});
    var done := World(t, w.runs[run := w.runs[run].(open := false)], w.log);
    assert Sound(done, c);
    if Gen(w.sched, id) == w.runs[run].generation {
      if succeeded {
        ClearCounts(done, t.(attempts := t.attempts - {id}), id, c);
      } else if id !in t.timers {
        ScheduleIsSound(done, id, c);
      }
    }
  }

  /** Every step keeps single flight and backoff. */
  lemma {:induction false} StepIsSound(w: World, step: Step, c: Config)
    requires Sound(w, c) && Enabled(w, step)
    ensures Sound(Do(w, step, c), c)
  {
    match step
    case DoSchedule(id) => ScheduleIsSound(w, id, c);
    case DoFire(id) =>
    case DoFinish(run, succeeded) => FinishIsSound(w, run, succeeded, c);
    case DoCancel(id) => ClearCounts(w, Cancel(w.sched, id), id, c);
    case DoReset(id) => ClearCounts(w, Reset(w.sched, id), id, c);
  }

  ghost predicate CanRun(w: World, steps: seq<Step>, c: Config)
    decreases |steps|
  {
    steps == [] || (Enabled(w, steps[0]) && CanRun(Do(w, steps[0], c), steps[1..], c))
  }

  function Run(w: World, steps: seq<Step>, c: Config): World
    requires CanRun(w, steps, c)
    decreases |steps|
  {
    if steps == [] then w else Run(Do(w, steps[0], c), steps[1..], c)
  }

  lemma {:induction false} RunIsSound(w: World, steps: seq<Step>, c: Config)
    requires Sound(w, c) && CanRun(w, steps, c)
    ensures Sound(Run(w, steps, c), c)
    decreases |steps|
  {
    if steps != [] {
      StepIsSound(w, steps[0], c);
      RunIsSound(Do(w, steps[0], c), steps[1..], c);
    }
  }

  /** Over every run: no timer beside a run, no two runs, and the k-th wait of a streak is `ReconnectDelayMs(k)`. */
  lemma SingleFlightAndBackoff(steps: seq<Step>, c: Config)
    requires CanRun(World(IDLE, [], []), steps, c)
    ensures var w := Run(World(IDLE, [], []), steps, c);
      && (forall id, i :: id in w.sched.timers && 0 <= i < |w.runs| ==> !RunsOf(w, id, i))
      && (forall id, i, j :: 0 <= i < j < |w.runs| && RunsOf(w, id, i) ==> !RunsOf(w, id, j))
      && (forall id :: Attempt(w.sched, id) == Streak(w.log, id)) && BackedOff(w.log, c)
  {
    RunIsSound(World(IDLE, [], []), steps, c);
  }

  // ---- Waits over a run ----

  /** No entry about the bot from `i` up to `j`. */
  ghost predicate Silent(log: seq<Event>, i: nat, j: nat, id: BotId)
    requires i <= j <= |log|
  {
    forall k :: i <= k < j ==> log[k].id != id
  }

  lemma {:induction false} SilentStreak(log: seq<Event>, i: nat, j: nat, id: BotId)
    requires i <= j <= |log| && Silent(log, i, j, id)
    ensures Streak(log[..j], id) == Streak(log[..i], id)
    decreases j
  {
    if i < j {
      SilentStreak(log, i, j - 1, id);
      assert log[..j][..j - 1] == log[..j - 1];
    }
  }

  /** Over every run: of two successive waits of a bot, attempts not cleared between, the second is twice the first. */
  lemma SecondWaitDoubles(steps: seq<Step>, c: Config, i: nat, j: nat)
    requires CanRun(World(IDLE, [], []), steps, c)
    ensures var log := Run(World(IDLE, [], []), steps, c).log;
      i < j < |log| && log[i].Scheduled? && log[j].Scheduled? && log[i].id == log[j].id
      && Silent(log, i + 1, j, log[i].id)
      ==> log[j].delay == Min(2 * log[i].delay, c.maxMs)
  {
    RunIsSound(World(IDLE, [], []), steps, c);
    var log := Run(World(IDLE, [], []), steps, c).log;
    if i < j < |log| && log[i].Scheduled? && log[j].Scheduled? && log[i].id == log[j].id
       && Silent(log, i + 1, j, log[i].id) {
      SilentStreak(log, i + 1, j, log[i].id);
      assert log[..i + 1][..i] == log[..i];
      WaitsDouble(Streak(log[..i], log[i].id) + 1, c);
    }
  }

  /** Over every run: the first wait of a bot, at all or since its attempts were cleared, is the base wait. */
  lemma FirstWaitIsBase(steps: seq<Step>, c: Config, i: nat, j: nat)
    requires CanRun(World(IDLE, [], []), steps, c)
    ensures var log := Run(World(IDLE, [], []), steps, c).log;
      i <= j < |log| && log[j].Scheduled? && Silent(log, i, j, log[j].id)
      && (i == 0 || log[i - 1] == Cleared(log[j].id))
      ==> log[j].delay == Min(c.baseMs, c.maxMs)
  {
    RunIsSound(World(IDLE, [], []), steps, c);
    var log := Run(World(IDLE, [], []), steps, c).log;
    if i <= j < |log| && log[j].Scheduled? && Silent(log, i, j, log[j].id)
       && (i == 0 || log[i - 1] == Cleared(log[j].id)) {
      SilentStreak(log, i, j, log[j].id);
      assert Streak(log[..i], log[j].id) == 0;
      WaitsDouble(1, c);
    }
  }

  // ---- A cancel outdates the run in flight ----

  /** Generations never go back, and runs keep their bot and the generation they began in. */
  ghost predicate Later(w: World, u: World) {
    && (forall id :: Gen(w.sched, id) <= Gen(u.sched, id))
    && |w.runs| <= |u.runs|
    && (forall i :: 0 <= i < |w.runs| ==> u.runs[i].id == w.runs[i].id && u.runs[i].generation == w.runs[i].generation)
  }

  lemma StepIsLater(w: World, step: Step, c: Config)
    requires Enabled(w, step)
    ensures Later(w, Do(w, step, c))
  {
  }

  lemma {:induction false} RunIsLater(w: World, steps: seq<Step>, c: Config)
    requires CanRun(w, steps, c)
    ensures Later(w, Run(w, steps, c))
    decreases |steps|
  {
    if steps != [] {
      StepIsLater(w, steps[0], c);
      RunIsLater(Do(w, steps[0], c), steps[1..], c);
    }
  }

  /**
   * A run begun before a cancel never clears attempts nor reschedules: whatever came before the cancel and whatever
   * comes between it and the end of the run, that end only takes the bot out of flight.
   */
  lemma CancelledRunEndsSilently(before: seq<Step>, run: nat, between: seq<Step>, succeeded: bool, c: Config)
    requires CanRun(World(IDLE, [], []), before, c)
    requires run < |Run(World(IDLE, [], []), before, c).runs| && Run(World(IDLE, [], []), before, c).runs[run].open
    requires var w := Run(World(IDLE, [], []), before, c); CanRun(Do(w, DoCancel(w.runs[run].id), c), between, c)
    ensures var w := Run(World(IDLE, [], []), before, c);
      var u := Run(Do(w, DoCancel(w.runs[run].id), c), between, c);
      run < |u.runs| && (u.runs[run].open ==>
        var s := Do(u, DoFinish(run, succeeded), c).sched;
        s == u.sched.(inFlight := u.sched.inFlight - {w.runs[run].id}))
  {
    RunIsSound(World(IDLE, [], []), before, c);
    var w := Run(World(IDLE, [], []), before, c);
    var cancelled := Do(w, DoCancel(w.runs[run].id), c);
    assert w.runs[run].generation < Gen(cancelled.sched, w.runs[run].id);
    RunIsLater(cancelled, between, c);
  }

  // ---- The scheduler itself ----

  class Scheduler {
    const config: Config
    var attempts: map<BotId, nat>
    var timers: map<BotId, Timer>
    var inFlight: set<BotId>
    var generation: map<BotId, nat>

    ghost function View(): Sched
      reads this
    {
      Sched(attempts, timers, inFlight, generation)
    }

    constructor (baseMs: nat := 2000, maxMs: nat := 60000)
      ensures View() == IDLE && config == Config(baseMs, maxMs)
    {
      config := Config(baseMs, maxMs);
      attempts, timers, inFlight, generation := map[], map[], {}, map[];
    }

    /** Single flight: busy exactly when asking for another reconnect would change nothing. */
    predicate IsBusy(id: BotId)
      reads this
      ensures IsBusy(id) <==> Schedule(View(), id, config) == View()
    {
      id in timers || id in inFlight
    }

    method CancelTimers(id: BotId)
      modifies this
      ensures View() == Cancel(old(View()), id)
    {
      if id in timers { timers := timers - {id}; }
      attempts := attempts - {id};
      var g := (if id in generation then generation[id] else 0) + 1;
      generation := generation[id := g];
    }

    method ResetBackoff(id: BotId)
      modifies this
      ensures View() == Reset(old(View()), id)
    {
      if id in timers { timers := timers - {id}; }
      attempts := attempts - {id};
    }

    method ScheduleReconnect(id: BotId)
      modifies this
      ensures View() == Schedule(old(View()), id, config)
    {
      if IsBusy(id) { return; }
      var attempt := (if id in attempts then attempts[id] else 0) + 1;
      attempts := attempts[id := attempt];
      var delay := Min(config.baseMs * Power2(attempt - 1), config.maxMs);
      assert delay == ReconnectDelayMs(attempt, config);
      var genAtSchedule := if id in generation then generation[id] else 0;
      timers := timers[id := Timer(attempt, genAtSchedule, delay)];
    }

    /** The timer callback up to the reconnect call; the closure keeps the generation it was made in. */
    method OnTimer(id: BotId) returns (begun: bool)
      requires id in timers
      modifies this
      ensures (View(), begun) == Fired(old(View()), id)
    {
      var genAtSchedule := timers[id].generation;
      timers := timers - {id};
      if (if id in generation then generation[id] else 0) != genAtSchedule { return false; }
      if id in inFlight { return false; }
      inFlight := inFlight + {id};
      return true;
    }

    /** What `run` does after its reconnect has resolved or thrown. */
    method OnRunEnd(id: BotId, genAtStart: nat, succeeded: bool)
      modifies this
      ensures View() == Finished(old(View()), id, genAtStart, succeeded, config)
    {
      var current := (if id in generation then generation[id] else 0) == genAtStart;
      if succeeded && current { attempts := attempts - {id}; }
      inFlight := inFlight - {id};
      if !succeeded && current && id !in timers { ScheduleReconnect(id); }
    }
  }
}
