/** The periodic second driver of reconnects, with a cooldown per bot (bot/src/watchdog.ts). */
module Watchdog {
  import RS = ReconnectScheduler

  type BotId = RS.BotId

  /** Where `checkConnections` is in its loop: `rest` are the targets it has yet to visit. */
  datatype Loop = Resting | Looping(rest: seq<BotId>) | Awaiting(rest: seq<BotId>)

  /** `now` is read once, when a cycle begins. */
  datatype State = State(loop: Loop, now: int, lastAttempt: map<BotId, int>)

  const ASLEEP := State(Resting, 0, map[])

  /** A cycle does not begin while another is under way. */
  function Begun(s: State, targets: seq<BotId>, now: int): State {
    if s.loop.Resting? then State(Looping(targets), now, s.lastAttempt) else s
  }

  predicate Due(s: State, id: BotId, cooldown: nat) {
    id !in s.lastAttempt || s.now - s.lastAttempt[id] >= cooldown
  }

  /** One turn of the loop, and whether it asks for a reconnect. */
  function Visited(s: State, connected: bool, busy: bool, cooldown: nat): (State, bool)
    requires s.loop.Looping?
  {
    if s.loop.rest == [] then (s.(loop := Resting), false)
    else
      var (id, rest) := (s.loop.rest[0], s.loop.rest[1..]);
      if connected then (State(Looping(rest), s.now, s.lastAttempt - {id}), false)
      else if busy || !Due(s, id, cooldown) then (s.(loop := Looping(rest)), false)
      else (State(Awaiting(rest), s.now, s.lastAttempt[id := s.now]), true)
  }

  function GoesOn(l: Loop): Loop {
    if l.Awaiting? then Looping(l.rest) else l
  }

  // ---- Runs ----

  datatype Event = Healthy(id: BotId) | Attempted(id: BotId, at: int)

  datatype World = World(state: State, log: seq<Event>)

  datatype Step = DoTick(targets: seq<BotId>, now: int) | DoVisit(connected: bool, busy: bool) | DoResume

  predicate Enabled(w: World, step: Step) {
    step.DoVisit? ==> w.state.loop.Looping?
  }

  function Do(w: World, step: Step, cooldown: nat): World
    requires Enabled(w, step)
  {
    match step
    case DoTick(targets, now) => w.(state := Begun(w.state, targets, now))
    case DoVisit(connected, busy) =>
      var (s, attempt) := Visited(w.state, connected, busy, cooldown);
      if w.state.loop.rest == [] then w.(state := s)
      else
        var id := w.state.loop.rest[0];
        var log :=
          if attempt then w.log + [Attempted(id, w.state.now)]
          else if connected then w.log + [Healthy(id)]
          else w.log;
        World(s, log)
    case DoResume => w.(state := w.state.(loop := GoesOn(w.state.loop)))
  }

  datatype Time = Never | At(ms: int)

  /** When a bot was last tried since it was last seen healthy, read off the history. */
  function LastTried(log: seq<Event>, id: BotId): Time {
    if log == [] then Never
    else
      var last := log[|log| - 1];
      if last.id != id then LastTried(log[..|log| - 1], id)
      else if last.Healthy? then Never
      else At(last.at)
  }

  ghost predicate Rested(log: seq<Event>, j: nat, cooldown: nat)
    requires j < |log|
  {
    log[j].Attempted? ==>
      var before := LastTried(log[..j], log[j].id);
      before == Never || log[j].at - before.ms >= cooldown
  }

  ghost predicate Sound(w: World, cooldown: nat) {
    && (forall id :: LastTried(w.log, id) == if id in w.state.lastAttempt then At(w.state.lastAttempt[id]) else Never)
    && (forall j :: 0 <= j < |w.log| ==> Rested(w.log, j, cooldown))
  }

  lemma Appended(log: seq<Event>, e: Event, cooldown: nat)
    requires forall j :: 0 <= j < |log| ==> Rested(log, j, cooldown)
    requires e.Attempted? ==> var before := LastTried(log, e.id); before == Never || e.at - before.ms >= cooldown
    ensures forall j :: 0 <= j < |log + [e]| ==> Rested(log + [e], j, cooldown)
    ensures forall id :: id != e.id ==> LastTried(log + [e], id) == LastTried(log, id)
    ensures LastTried(log + [e], e.id) == if e.Healthy? then Never else At(e.at)
  {
    assert (log + [e])[..|log|] == log;
    forall j | 0 <= j < |log + [e]| ensures Rested(log + [e], j, cooldown) {
      if j < |log| { assert (log + [e])[..j] == log[..j] && Rested(log, j, cooldown); }
    }
  }

  lemma StepIsSound(w: World, step: Step, cooldown: nat)
    requires Sound(w, cooldown) && Enabled(w, step)
    ensures Sound(Do(w, step, cooldown), cooldown)
  {
    if step.DoVisit? && w.state.loop.rest != [] {
      var id := w.state.loop.rest[0];
      var (_, attempt) := Visited(w.state, step.connected, step.busy, cooldown);
      if attempt {
        assert LastTried(w.log, id) == if id in w.state.lastAttempt then At(w.state.lastAttempt[id]) else Never;
        Appended(w.log, Attempted(id, w.state.now), cooldown);
      } else if step.connected {
        Appended(w.log, Healthy(id), cooldown);
      }
    }
  }

  ghost predicate CanRun(w: World, steps: seq<Step>, cooldown: nat)
    decreases |steps|
  {
    steps == [] || (Enabled(w, steps[0]) && CanRun(Do(w, steps[0], cooldown), steps[1..], cooldown))
  }

  function Run(w: World, steps: seq<Step>, cooldown: nat): World
    requires CanRun(w, steps, cooldown)
    decreases |steps|
  {
    if steps == [] then w else Run(Do(w, steps[0], cooldown), steps[1..], cooldown)
  }

  lemma {:induction false} RunIsSound(w: World, steps: seq<Step>, cooldown: nat)
    requires Sound(w, cooldown) && CanRun(w, steps, cooldown)
    ensures Sound(Run(w, steps, cooldown), cooldown)
    decreases |steps|
  {
    if steps != [] {
      StepIsSound(w, steps[0], cooldown);
      RunIsSound(Do(w, steps[0], cooldown), steps[1..], cooldown);
    }
  }

  /** Neither entry `k` nor any up to `j` saw the bot healthy. */
  ghost predicate Ill(log: seq<Event>, i: nat, j: nat, id: BotId)
    requires i <= j <= |log|
  {
    forall k :: i <= k < j ==> log[k] != Healthy(id)
  }

  /** Within a bad spell, any two attempts at a bot are a cooldown apart, however the clock moves. */
  lemma {:induction false} FarApart(log: seq<Event>, i: nat, j: nat, cooldown: nat)
    requires forall k :: 0 <= k < |log| ==> Rested(log, k, cooldown)
    requires i < j < |log| && log[i].Attempted? && log[j].Attempted? && log[i].id == log[j].id
    requires Ill(log, i, j, log[i].id)
    ensures log[j].at - log[i].at >= cooldown
    decreases j
  {
    var k := TriedAt(log, i, j, log[i].id);
    assert Rested(log, j, cooldown);
    if k > i { FarApart(log, i, k, cooldown); }
  }

  /** The attempt that `LastTried` finds. */
  lemma {:induction false} TriedAt(log: seq<Event>, i: nat, j: nat, id: BotId) returns (k: nat)
    requires i < j <= |log| && log[i].Attempted? && log[i].id == id && Ill(log, i, j, id)
    ensures i <= k < j && log[k].Attempted? && log[k].id == id && LastTried(log[..j], id) == At(log[k].at)
    decreases j
  {
    assert log[..j][..j - 1] == log[..j - 1];
    if log[j - 1].id == id { k := j - 1; } else { k := TriedAt(log, i, j - 1, id); }
  }

  /** Over every run: attempts at a bot between two healthy sightings are a cooldown apart. */
  lemma AttemptsKeepTheirDistance(steps: seq<Step>, cooldown: nat, i: nat, j: nat)
    requires CanRun(World(ASLEEP, []), steps, cooldown)
    ensures var log := Run(World(ASLEEP, []), steps, cooldown).log;
      i < j < |log| && log[i].Attempted? && log[j].Attempted? && log[i].id == log[j].id && Ill(log, i, j, log[i].id)
      ==> log[j].at - log[i].at >= cooldown
  {
    RunIsSound(World(ASLEEP, []), steps, cooldown);
    var log := Run(World(ASLEEP, []), steps, cooldown).log;
    if i < j < |log| && log[i].Attempted? && log[j].Attempted? && log[i].id == log[j].id && Ill(log, i, j, log[i].id) {
      FarApart(log, i, j, cooldown);
    }
  }

  /** Over every run: a visit tries the bot exactly when it is down, not being recovered and rested since last tried. */
  lemma TriedIff(steps: seq<Step>, cooldown: nat, connected: bool, busy: bool)
    requires CanRun(World(ASLEEP, []), steps, cooldown)
    requires var s := Run(World(ASLEEP, []), steps, cooldown).state; s.loop.Looping? && s.loop.rest != []
    ensures var w := Run(World(ASLEEP, []), steps, cooldown);
      var before := LastTried(w.log, w.state.loop.rest[0]);
      Visited(w.state, connected, busy, cooldown).1
      <==> !connected && !busy && (before == Never || w.state.now - before.ms >= cooldown)
  {
    RunIsSound(World(ASLEEP, []), steps, cooldown);
    var w := Run(World(ASLEEP, []), steps, cooldown);
    var id := w.state.loop.rest[0];
    assert LastTried(w.log, id) == if id in w.state.lastAttempt then At(w.state.lastAttempt[id]) else Never;
  }

  // ---- A cycle visits every target ----

  function VisitsIn(steps: seq<Step>): nat {
    if steps == [] then 0 else (if steps[0].DoVisit? then 1 else 0) + VisitsIn(steps[1..])
  }

  /** What a cycle has yet to visit. */
  function Remaining(l: Loop): seq<BotId> {
    match l
    case Resting => []
    case Looping(rest) => rest
    case Awaiting(rest) => rest
  }

  /**
   * From the beginning of a cycle each visit takes the next target, in order, whatever it finds; ticks meanwhile are
   * ignored, and only a visit past the last target ends the cycle.
   */
  lemma {:induction false} CycleVisitsAll(w: World, steps: seq<Step>, cooldown: nat)
    requires !w.state.loop.Resting? && CanRun(w, steps, cooldown) && VisitsIn(steps) <= |Remaining(w.state.loop)|
    ensures var p := Run(w, steps, cooldown);
      && !p.state.loop.Resting? && p.state.now == w.state.now
      && Remaining(p.state.loop) == Remaining(w.state.loop)[VisitsIn(steps)..]
      && (p.state.loop == Looping([]) ==> Do(p, DoVisit(true, true), cooldown).state.loop == Resting)
    decreases |steps|
  {
    if steps != [] { CycleVisitsAll(Do(w, steps[0], cooldown), steps[1..], cooldown); }
  }

  /** A tick at rest begins a cycle over exactly its targets, with its own clock reading. */
  lemma TickBeginsCycle(w: World, targets: seq<BotId>, now: int, cooldown: nat)
    ensures var p := Do(w, DoTick(targets, now), cooldown);
      if w.state.loop.Resting? then p == w.(state := State(Looping(targets), now, w.state.lastAttempt)) else p == w
  {
  }

  // ---- The watchdog itself ----

  class Watchdog {
    const cooldownMs: nat
    var loop: Loop
    var now: int
    var lastAttempt: map<BotId, int>

    ghost function View(): State
      reads this
    {
      State(loop, now, lastAttempt)
    }

    constructor (cooldownMs: nat := 60000)
      ensures View() == ASLEEP && this.cooldownMs == cooldownMs
    {
      this.cooldownMs := cooldownMs;
      loop, now, lastAttempt := Resting, 0, map[];
    }

    method Tick(targets: seq<BotId>, now: int)
      modifies this
      ensures View() == Begun(old(View()), targets, now)
    {
      if loop != Resting { return; }
      this.now := now;
      loop := Looping(targets);
    }

    /** A turn of the loop up to its reconnect. */
    method Visit(connected: bool, busy: bool) returns (attempt: bool)
      requires loop.Looping?
      modifies this
      ensures (View(), attempt) == Visited(old(View()), connected, busy, cooldownMs)
    {
      if loop.rest == [] {
        loop := Resting;
        return false;
      }
      var id := loop.rest[0];
      loop := Looping(loop.rest[1..]);
      if connected {
        lastAttempt := lastAttempt - {id};
        return false;
      }
      if busy { return false; }
      if id in lastAttempt && now - lastAttempt[id] < cooldownMs { return false; }
      lastAttempt := lastAttempt[id := now];
      loop := Awaiting(loop.rest);
      return true;
    }

    /** The awaited reconnect has come to an end, well or badly. */
    method Resume()
      modifies this
      ensures View() == old(View()).(loop := GoesOn(old(View()).loop))
    {
      if loop.Awaiting? { loop := Looping(loop.rest); }
    }
  }
}
