/** When a track ends, told from the history of a player instead of its counters (bot/src/audio/player.ts). */
module TrackEnds {
  import opened Octets
  import opened AudioPlayer

  /** The state a run leads to, from the start of the player. */
  function After(steps: seq<Step>): Player { Run(INITIAL, steps) }

  function Before(steps: seq<Step>): seq<Step>
    requires steps != []
  {
    steps[..|steps| - 1]
  }

  lemma {:induction false} RunOneMore(p: Player, steps: seq<Step>)
    requires steps != [] && CanRun(p, steps)
    ensures CanRun(p, Before(steps)) && Enabled(Run(p, Before(steps)), steps[|steps| - 1])
    ensures Run(p, steps) == Do(Run(p, Before(steps)), steps[|steps| - 1])
    decreases |steps|
  {
    if |steps| == 1 {
      assert Before(steps) == [] && steps[1..] == [];
    } else {
      RunOneMore(Do(p, steps[0]), steps[1..]);
      assert Before(steps)[0] == steps[0] && Before(steps)[1..] == Before(steps[1..]);
    }
  }

  /** A tick of the session that is playing. */
  predicate OwnTick(p: Player, step: Step) {
    step.Tick? && step.from == p.session && p.looping
  }

  // ---- The history ----

  /** Own ticks in a row, up to now and since `play()`, that found the decoder running and left less than a frame. */
  function Starved(steps: seq<Step>): nat
    decreases |steps|
  {
    if steps == [] then 0
    else
      var before, step := After(Before(steps)), steps[|steps| - 1];
      if step.Play? then 0
      else if !OwnTick(before, step) then Starved(Before(steps))
      else if before.decoder.alive && |Do(before, step).pcm| < PCM_FRAME_BYTES then Starved(Before(steps)) + 1
      else 0
  }

  /** Where the last `play()` began and how long its song is; a stop goes back to the beginning. */
  function LastPlayed(steps: seq<Step>): (real, real)
    decreases |steps|
  {
    if steps == [] then (0.0, 0.0)
    else
      match steps[|steps| - 1]
      case Play(seek, duration) => (seek, duration)
      case Stop => (0.0, LastPlayed(Before(steps)).1)
      case _ => LastPlayed(Before(steps))
  }

  /** Frames of a session that were encoded and sent. */
  function FramesOf(log: seq<Event>, session: nat): nat {
    if log == [] then 0
    else
      var last := log[|log| - 1];
      FramesOf(log[..|log| - 1], session) + (if last.Drained? && last.session == session && last.encoded then 1 else 0)
  }

  /** Failed starts of the decoder since a track last ended, fifty frames were sent in a row, or they were forgiven. */
  function Blamed(steps: seq<Step>): nat
    decreases |steps|
  {
    if steps == [] then 0
    else
      var before, step := After(Before(steps)), steps[|steps| - 1];
      var after := Do(before, step);
      if step.ResetFailures? then 0
      else if step.SpawnError? && step.from == before.session then Blamed(Before(steps)) + 1
      else if !OwnTick(before, step) then Blamed(Before(steps))
      else if Ends(after.log, before.session) > Ends(before.log, before.session) then 0
      else if SentFiftieth(before, after) then 0
      else Blamed(Before(steps))
  }

  predicate SentFiftieth(before: Player, after: Player) {
    var sent := FramesOf(after.log, before.session);
    sent > FramesOf(before.log, before.session) && sent % 50 == 0
  }

  lemma FramesOneMore(log: seq<Event>, e: Event, session: nat)
    ensures FramesOf(log + [e], session)
      == FramesOf(log, session) + (if e.Drained? && e.session == session && e.encoded then 1 else 0)
  {
    assert (log + [e])[..|log|] == log;
  }

  // ---- Frames ----

  /** The track's frame counts are the frames of the session in the log. */
  ghost predicate CountsFrames(p: Player) {
    && p.track.framesPlayed == FramesOf(p.log, p.session) && p.track.healthyFrames == p.track.framesPlayed % 50
    && forall s :: s > p.session ==> FramesOf(p.log, s) == 0
  }

  lemma SentFrames(p: Player, encodes: bool, s: nat)
    ensures FramesOf(Sent(p, encodes).log, s)
      == FramesOf(p.log, s) + (if |p.pcm| >= PCM_FRAME_BYTES && encodes && s == p.session then 1 else 0)
  {
    if |p.pcm| >= PCM_FRAME_BYTES {
      var e := Drained(p.session, p.pcm[..PCM_FRAME_BYTES], encodes);
      FramesOneMore(p.log, e, s);
      FramesOneMore(p.log + [e], Failed(p.session), s);
    }
  }

  lemma GuardedFrames(p: Player, wall: real, s: nat)
    ensures FramesOf(Guarded(p, wall).log, s) == FramesOf(p.log, s)
  {
    FramesOneMore(p.log, TrackEnd(p.session), s);
  }

  lemma TickFrames(p: Player, wall: real, encodes: bool, s: nat)
    requires p.looping
    ensures FramesOf(Ticked(p, p.session, wall, encodes).log, s) == FramesOf(p.log, s)
      + (if p.state == Playing && |p.pcm| >= PCM_FRAME_BYTES && encodes && s == p.session then 1 else 0)
  {
    SentFrames(p, encodes, s);
    GuardedFrames(if p.state == Playing then Sent(p, encodes) else p, wall, s);
  }

  lemma OtherFrames(p: Player, step: Step, s: nat)
    requires !OwnTick(p, step)
    ensures FramesOf(Do(p, step).log, s) == FramesOf(p.log, s)
  {
    FramesOneMore(p.log, Failed(p.session), s);
    FramesOneMore(p.log, Failed(p.session + 1), s);
    if step.Data? { FramesOneMore(p.log, Decoded(step.from, step.chunk), s); }
  }

  /** Whether a tick encodes and sends a frame. */
  predicate SendsFrame(p: Player, encodes: bool) {
    p.state == Playing && |p.pcm| >= PCM_FRAME_BYTES && encodes
  }

  lemma TickTrack(p: Player, wall: real, encodes: bool)
    requires p.looping
    ensures var q := Ticked(p, p.session, wall, encodes);
      q.session == p.session && q.track ==
        if SendsFrame(p, encodes)
        then p.track.(framesPlayed := p.track.framesPlayed + 1,
                      healthyFrames := if p.track.healthyFrames + 1 >= 50 then 0 else p.track.healthyFrames + 1)
        else p.track
  {
    GuardedTrack(if p.state == Playing then Sent(p, encodes) else p, wall);
  }

  lemma GuardedTrack(p: Player, wall: real)
    ensures var q := Guarded(p, wall); q.session == p.session && q.track == p.track && q.pcm == p.pcm
  {
  }

  lemma NextOfFifty(n: nat)
    ensures (n + 1) % 50 == if n % 50 + 1 >= 50 then 0 else n % 50 + 1
  {
  }

  lemma TickStaysCounted(p: Player, wall: real, encodes: bool)
    requires CountsFrames(p) && p.looping
    ensures CountsFrames(Ticked(p, p.session, wall, encodes))
  {
    var q := Ticked(p, p.session, wall, encodes);
    TickTrack(p, wall, encodes);
    TickFrames(p, wall, encodes, p.session);
    NextOfFifty(p.track.framesPlayed);
    forall s | s > p.session ensures FramesOf(q.log, s) == 0 { TickFrames(p, wall, encodes, s); }
  }

  lemma OtherStaysCounted(p: Player, step: Step)
    requires CountsFrames(p) && !OwnTick(p, step)
    ensures CountsFrames(Do(p, step))
  {
    var q := Do(p, step);
    OtherTrack(p, step);
    OtherFrames(p, step, q.session);
    forall s | s > q.session ensures FramesOf(q.log, s) == 0 { OtherFrames(p, step, s); }
  }

  lemma OtherTrack(p: Player, step: Step)
    requires !OwnTick(p, step)
    ensures var q := Do(p, step);
      || (q.session == p.session && q.track == p.track)
      || (q.session == p.session + 1 && q.track.framesPlayed == q.track.healthyFrames == 0)
  {
  }

  lemma FramesStayCounted(p: Player, step: Step)
    requires CountsFrames(p)
    ensures CountsFrames(Do(p, step))
  {
    if OwnTick(p, step) { TickStaysCounted(p, step.wall, step.encodes); } else { OtherStaysCounted(p, step); }
  }

  // ---- Counters and history agree ----

  ghost predicate Tracked(steps: seq<Step>) {
    var p := After(steps);
    && p.emptyAttempts == Starved(steps) && CountsFrames(p)
    && (p.track.seekOffset, p.track.duration) == LastPlayed(steps)
    && p.failures == Blamed(steps)
  }

  lemma {:induction false} EveryRunIsTracked(steps: seq<Step>)
    requires CanRun(INITIAL, steps)
    ensures Good(After(steps)) && Tracked(steps)
    decreases |steps|
  {
    EveryRunIsGood(steps);
    if steps != [] {
      RunOneMore(INITIAL, steps);
      EveryRunIsTracked(Before(steps));
      var p, step := After(Before(steps)), steps[|steps| - 1];
      FramesStayCounted(p, step);
      AttemptsStep(p, step);
      FailuresStep(p, step);
    }
  }

  lemma EveryRunIsGood(steps: seq<Step>)
    requires CanRun(INITIAL, steps)
    ensures Good(After(steps))
  {
    assert Good(INITIAL) by {
      forall s: nat ensures Chapter(0, true, [], [], s) {}
    }
    RunIsGood(INITIAL, steps);
  }

  lemma AttemptsStep(p: Player, step: Step)
    ensures var q := Do(p, step);
      && q.emptyAttempts ==
        (if step.Play? then 0
         else if !OwnTick(p, step) then p.emptyAttempts
         else if p.decoder.alive && |q.pcm| < PCM_FRAME_BYTES then p.emptyAttempts + 1
         else 0)
      && (q.track.seekOffset, q.track.duration) ==
        (if step.Play? then (step.seek, step.duration)
         else if step.Stop? then (0.0, p.track.duration)
         else (p.track.seekOffset, p.track.duration))
  {
    if OwnTick(p, step) { SentChanges(p, step.encodes); }
  }

  lemma FailuresStep(p: Player, step: Step)
    requires Good(p) && CountsFrames(p)
    ensures var q := Do(p, step);
      q.failures ==
        if step.ResetFailures? then 0
        else if step.SpawnError? && step.from == p.session then p.failures + 1
        else if !OwnTick(p, step) then p.failures
        else if Ends(q.log, p.session) > Ends(p.log, p.session) then 0
        else if SentFiftieth(p, q) then 0
        else p.failures
  {
    if OwnTick(p, step) { TickFailures(p, step.wall, step.encodes); }
  }

  lemma TickFailures(p: Player, wall: real, encodes: bool)
    requires p.looping && CountsFrames(p)
    ensures var q := Ticked(p, p.session, wall, encodes);
      q.failures ==
        if Ends(q.log, p.session) > Ends(p.log, p.session) || SentFiftieth(p, q) then 0 else p.failures
  {
    TickFrames(p, wall, encodes, p.session);
    NextOfFifty(p.track.framesPlayed);
    SentEndsNothing(p, encodes, p.session);
    SentFailures(p, encodes);
    GuardEnds(if p.state == Playing then Sent(p, encodes) else p, wall);
  }

  lemma SentFailures(p: Player, encodes: bool)
    ensures var q := Sent(p, encodes);
      && q.session == p.session
      && q.failures ==
        if |p.pcm| >= PCM_FRAME_BYTES && encodes && p.track.healthyFrames + 1 >= 50 then 0 else p.failures
  {
  }

  lemma GuardEnds(p: Player, wall: real)
    ensures var q := Guarded(p, wall);
      if Ends(q.log, p.session) > Ends(p.log, p.session) then q.failures == 0 else q.failures == p.failures
  {
    Logged(p.log, TrackEnd(p.session), p.session);
  }

  // ---- The results ----

  /** Seconds into the song: where it began, and 20 ms for each frame sent. */
  function Position(seek: real, frames: nat): real {
    seek + frames as real * 0.02
  }

  /** Within the last five seconds, or 45 seconds into a song of unknown length. */
  predicate NearTheEnd(position: real, duration: real) {
    if duration > 0.0 then duration - position <= 5.0 else position >= 45.0
  }

  /**
   * Over every run: a tick ends the track exactly when it leaves less than a frame and either the decoder has gone
   * after a proper start, or it has starved the player for 250 ticks in a row near the end of the song, or for 500
   * anywhere, two seconds or more after `play()`.
   */
  lemma TrackEndsIff(steps: seq<Step>, step: Step)
    requires CanRun(INITIAL, steps) && OwnTick(After(steps), step)
    ensures var p, q := After(steps), Do(After(steps), step);
      var starved := Starved(steps) + 1;
      var near := NearTheEnd(Position(LastPlayed(steps).0, FramesOf(q.log, p.session)), LastPlayed(steps).1);
      Ends(q.log, p.session) > Ends(p.log, p.session) <==>
        && |q.pcm| < PCM_FRAME_BYTES
        && if p.decoder.alive then (starved >= 250 && near) || (starved >= 500 && step.wall >= 2.0)
           else !p.decoder.spawnFailed
  {
    EveryRunIsTracked(steps);
    TickEndsIff(After(steps), step.wall, step.encodes);
  }

  lemma TickEndsIff(p: Player, wall: real, encodes: bool)
    requires Good(p) && CountsFrames(p) && p.looping
    ensures var q := Ticked(p, p.session, wall, encodes);
      var near := NearTheEnd(Position(p.track.seekOffset, FramesOf(q.log, p.session)), p.track.duration);
      Ends(q.log, p.session) > Ends(p.log, p.session) <==>
        && |q.pcm| < PCM_FRAME_BYTES
        && if p.decoder.alive then (p.emptyAttempts + 1 >= 250 && near) || (p.emptyAttempts + 1 >= 500 && wall >= 2.0)
           else !p.decoder.spawnFailed
  {
    var sent := if p.state == Playing then Sent(p, encodes) else p;
    SentChanges(p, encodes);
    SentEndsNothing(p, encodes, p.session);
    SentTrack(p, encodes);
    GuardedFrames(sent, wall, p.session);
    GuardedTrack(sent, wall);
    GuardEndsIff(sent, wall);
  }

  lemma SentTrack(p: Player, encodes: bool)
    requires CountsFrames(p)
    ensures var q := Sent(p, encodes);
      && q.track.framesPlayed == FramesOf(q.log, p.session)
      && q.track.seekOffset == p.track.seekOffset && q.track.duration == p.track.duration
  {
    SentFrames(p, encodes, p.session);
  }

  lemma GuardEndsIff(p: Player, wall: real)
    requires p.looping && p.state != Idle
    ensures var q := Guarded(p, wall);
      var near := NearTheEnd(Position(p.track.seekOffset, p.track.framesPlayed), p.track.duration);
      Ends(q.log, p.session) > Ends(p.log, p.session) <==>
        && |p.pcm| < PCM_FRAME_BYTES
        && if p.decoder.alive then (p.emptyAttempts + 1 >= 250 && near) || (p.emptyAttempts + 1 >= 500 && wall >= 2.0)
           else !p.decoder.spawnFailed
  {
    Logged(p.log, TrackEnd(p.session), p.session);
  }

  /** Over every run: `play()` is refused exactly after three failed starts that nothing has made up for. */
  lemma PlayRefusedIff(steps: seq<Step>, seek: real, duration: real)
    requires CanRun(INITIAL, steps)
    ensures var q := Do(After(steps), Play(seek, duration));
      && (q.looping <==> Blamed(steps) < 3) && (q.looping <==> q.decoder.alive)
      && (q.looping <==> q.state == Playing) && q.session == After(steps).session + 1 && q.pcm == []
  {
    EveryRunIsTracked(steps);
  }

  /** While the player plays, a tick sends exactly the next frame; paused, it sends none and keeps every byte. */
  lemma TickSends(p: Player, step: Step)
    requires Good(p) && OwnTick(p, step)
    ensures var q := Do(p, step);
      if p.state == Playing && |p.pcm| >= PCM_FRAME_BYTES
      then q.pcm == p.pcm[PCM_FRAME_BYTES..]
           && Heard(q.log, p.session) == Heard(p.log, p.session) + p.pcm[..PCM_FRAME_BYTES]
      else q.pcm == p.pcm && Heard(q.log, p.session) == Heard(p.log, p.session)
  {
    SentHeard(p, step.encodes);
    GuardedHeard(if p.state == Playing then Sent(p, step.encodes) else p, step.wall);
  }

  lemma SentHeard(p: Player, encodes: bool)
    ensures var q := Sent(p, encodes);
      q.session == p.session &&
      if |p.pcm| >= PCM_FRAME_BYTES
      then q.pcm == p.pcm[PCM_FRAME_BYTES..]
           && Heard(q.log, p.session) == Heard(p.log, p.session) + p.pcm[..PCM_FRAME_BYTES]
      else q == p
  {
    if |p.pcm| >= PCM_FRAME_BYTES {
      var e := Drained(p.session, p.pcm[..PCM_FRAME_BYTES], encodes);
      assert Sent(p, encodes).log == if encodes then p.log + [e] else p.log + [e] + [Failed(p.session)];
      Logged(p.log, e, p.session);
      Logged(p.log + [e], Failed(p.session), p.session);
    }
  }

  lemma GuardedHeard(p: Player, wall: real)
    ensures var q := Guarded(p, wall); q.pcm == p.pcm && Heard(q.log, p.session) == Heard(p.log, p.session)
  {
    Logged(p.log, TrackEnd(p.session), p.session);
  }

  /** Callbacks of other sessions change nothing; the session's own exit leaves it without a decoder. */
  lemma OnlyOwnCallbacksCount(p: Player, from: nat, wall: real, encodes: bool, chunk: Bytes)
    ensures from != p.session ==>
      && Do(p, Exit(from)) == Do(p, SpawnError(from)) == Do(p, Tick(from, wall, encodes)) == p
      && Do(p, Data(from, chunk)) == p.(log := p.log + [Decoded(from, chunk)])
    ensures Do(p, Exit(p.session)) == p.(decoder := p.decoder.(alive := false))
    ensures Do(p, SpawnError(p.session)).decoder.spawnFailed
    ensures Do(p, Data(p.session, chunk)).pcm == p.pcm + chunk
  {
  }

  /** Resuming undoes pausing, and neither does anything else. */
  lemma ResumeUndoesPause(p: Player)
    ensures p.state == Playing ==> Do(p, Pause).state == Paused && Do(Do(p, Pause), Resume) == p
    ensures p.state == Paused ==> Do(p, Resume).state == Playing && Do(Do(p, Resume), Pause) == p
    ensures p.state == Idle ==> Do(p, Pause) == Do(p, Resume) == p
  {
  }
}
