/** The audio player of bot/src/audio/player.ts: PCM buffer, frame loop, stall guard and back-pressure. */
module AudioPlayer {
  import opened Wrappers
  import opened Octets

  const PCM_FRAME_BYTES := 3840
  const BUFFER_HIGH_WATER := 640 * 1024
  const BUFFER_LOW_WATER := 256 * 1024
  const MAX_EMPTY_ATTEMPTS := 250
  const MAX_MIDTRACK_STALL_ATTEMPTS := 500
  const MAX_CONSECUTIVE_FAILURES := 3
  const HEALTHY_FRAME_RESET := 50
  const MIN_STALL_GRACE_SEC := 2.0

  datatype State = Idle | Playing | Paused

  /** What the outside sees. A drained frame goes to the PCM listeners, and to TeamSpeak if it could be encoded. */
  datatype Event =
    | Decoded(session: nat, chunk: Bytes)
    | Drained(session: nat, frame: Bytes, encoded: bool)
    | TrackEnd(session: nat)
    | Failed(session: nat)

  /** The ffmpeg process: running, output paused, failed to start. */
  datatype Decoder = Decoder(alive: bool, throttled: bool, spawnFailed: bool)

  /** Position in the track, in seconds and frames of 20 ms. */
  datatype Track = Track(seekOffset: real, duration: real, framesPlayed: nat, healthyFrames: nat)

  /**
   * The player's fields, with the chunk list read as one byte queue; `looping` is the running frame loop.
   * `log` records the events so far.
   */
  datatype Player = Player(
    session: nat, state: State, looping: bool, decoder: Decoder, track: Track,
    failures: nat, emptyAttempts: nat, pcm: Bytes, log: seq<Event>)

  /** Everything that can happen to a player. Callbacks carry the session they were made for. */
  datatype Step =
    | Play(seek: real, duration: real)
    | Stop
    | Pause
    | Resume
    | ResetFailures
    | Data(from: nat, chunk: Bytes)
    | Exit(from: nat)
    | SpawnError(from: nat)
    | Tick(from: nat, wall: real, encodes: bool)

  const INITIAL := Player(0, Idle, false, Decoder(false, false, false), Track(0.0, 0.0, 0, 0), 0, 0, [], [])

  /** Processes and timers belong to sessions that have begun. */
  predicate Enabled(p: Player, step: Step) {
    match step
    case Data(from, _) => from <= p.session
    case Exit(from) => from <= p.session
    case SpawnError(from) => from <= p.session
    case Tick(from, _, _) => from <= p.session
    case _ => true
  }

  function Stopped(p: Player): Player {
    p.(session := p.session + 1, looping := false, state := Idle, pcm := [],
       decoder := Decoder(false, false, false), track := Track(0.0, p.track.duration, 0, 0))
  }

  function Started(p: Player, seek: real, duration: real): Player {
    var q := Stopped(p).(track := Track(seek, duration, 0, 0), emptyAttempts := 0);
    if q.failures >= MAX_CONSECUTIVE_FAILURES then q.(log := q.log + [Failed(q.session)])
    else q.(decoder := Decoder(true, false, false), state := Playing, looping := true)
  }

  function Received(p: Player, from: nat, chunk: Bytes): Player {
    var q := p.(log := p.log + [Decoded(from, chunk)]);
    if from != p.session then q
    else
      q.(pcm := p.pcm + chunk,
         decoder := if |p.pcm + chunk| > BUFFER_HIGH_WATER && p.decoder.alive
                    then p.decoder.(throttled := true) else p.decoder)
  }

  /** One frame out of the buffer, if there is one. */
  function Sent(p: Player, encodes: bool): Player {
    if |p.pcm| < PCM_FRAME_BYTES then p
    else
      var q := p.(pcm := p.pcm[PCM_FRAME_BYTES..],
                  decoder := if |p.pcm| - PCM_FRAME_BYTES < BUFFER_LOW_WATER && p.decoder.alive
                             then p.decoder.(throttled := false) else p.decoder,
                  log := p.log + [Drained(p.session, p.pcm[..PCM_FRAME_BYTES], encodes)]);
      if !encodes then q.(log := q.log + [Failed(q.session)]) else Encoded(q)
  }

  /** Counts a frame that was sent; enough of them in a row forgive earlier failures. */
  function Encoded(p: Player): Player {
    var healthy := p.track.healthyFrames + 1;
    var played := p.track.framesPlayed + 1;
    if healthy >= HEALTHY_FRAME_RESET
    then p.(failures := 0, track := p.track.(framesPlayed := played, healthyFrames := 0))
    else p.(track := p.track.(framesPlayed := played, healthyFrames := healthy))
  }

  function Elapsed(track: Track): real {
    track.seekOffset + track.framesPlayed as real * 0.02
  }

  function NearEnd(track: Track): bool {
    if track.duration > 0.0 then track.duration - Elapsed(track) <= 5.0 else Elapsed(track) >= 45.0
  }

  datatype Verdict = Continue | NearEndStall | MidTrackStall

  function ClassifyStall(emptyAttempts: nat, nearEnd: bool, wall: real): Verdict {
    if emptyAttempts >= MAX_EMPTY_ATTEMPTS && nearEnd then NearEndStall
    else if emptyAttempts >= MAX_MIDTRACK_STALL_ATTEMPTS && wall >= MIN_STALL_GRACE_SEC then MidTrackStall
    else Continue
  }

  function Ended(p: Player): Player {
    p.(state := Idle, decoder := p.decoder.(alive := false), failures := 0, log := p.log + [TrackEnd(p.session)])
  }

  /** What the frame timer does after sending: stall guard, then end of track. */
  function Guarded(p: Player, wall: real): Player {
    if |p.pcm| >= PCM_FRAME_BYTES then p.(emptyAttempts := 0)
    else if p.decoder.alive then
      var q := p.(emptyAttempts := p.emptyAttempts + 1);
      if ClassifyStall(q.emptyAttempts, NearEnd(q.track), wall) == Continue then q
      else if q.state == Idle then q.(looping := false)
      else Ended(q.(looping := false))
    else
      var q := p.(emptyAttempts := 0, looping := false);
      if q.state == Idle then q
      else if q.decoder.spawnFailed then q.(state := Idle)
      else Ended(q)
  }

  function Ticked(p: Player, from: nat, wall: real, encodes: bool): Player {
    if from != p.session || !p.looping then p
    else Guarded(if p.state == Playing then Sent(p, encodes) else p, wall)
  }

  function Do(p: Player, step: Step): Player {
    match step
    case Play(seek, duration) => Started(p, seek, duration)
    case Stop => Stopped(p)
    case Pause => if p.state == Playing then p.(state := Paused) else p
    case Resume => if p.state == Paused then p.(state := Playing) else p
    case ResetFailures => p.(failures := 0)
    case Data(from, chunk) => Received(p, from, chunk)
    case Exit(from) => if from == p.session then p.(decoder := p.decoder.(alive := false)) else p
    case SpawnError(from) =>
      if from == p.session
      then
        p.(decoder := p.decoder.(spawnFailed := true), failures := p.failures + 1, log := p.log + [Failed(p.session)])
      else p
    case Tick(from, wall, encodes) => Ticked(p, from, wall, encodes)
  }

  ghost predicate CanRun(p: Player, steps: seq<Step>)
    decreases |steps|
  {
    steps == [] || (Enabled(p, steps[0]) && CanRun(Do(p, steps[0]), steps[1..]))
  }

  function Run(p: Player, steps: seq<Step>): Player
    decreases |steps|
  {
    if steps == [] then p else Run(Do(p, steps[0]), steps[1..])
  }

  // ---- What the log says of one session ----

  function Ends(log: seq<Event>, session: nat): nat {
    if log == [] then 0
    else Ends(log[..|log| - 1], session) + (if log[|log| - 1] == TrackEnd(session) then 1 else 0)
  }

  /** All bytes the decoder of a session put out, whether or not the player still listened. */
  function Output(log: seq<Event>, session: nat): Bytes {
    if log == [] then []
    else
      var last := log[|log| - 1];
      Output(log[..|log| - 1], session) + (if last.Decoded? && last.session == session then last.chunk else [])
  }

  /** All bytes that left as frames in a session, in order. */
  function Heard(log: seq<Event>, session: nat): Bytes {
    if log == [] then []
    else
      var last := log[|log| - 1];
      Heard(log[..|log| - 1], session) + (if last.Drained? && last.session == session then last.frame else [])
  }

  lemma Logged(log: seq<Event>, e: Event, session: nat)
    ensures Ends(log + [e], session) == Ends(log, session) + (if e == TrackEnd(session) then 1 else 0)
    ensures Output(log + [e], session)
      == Output(log, session) + (if e.Decoded? && e.session == session then e.chunk else [])
    ensures Heard(log + [e], session)
      == Heard(log, session) + (if e.Drained? && e.session == session then e.frame else [])
  {
    assert (log + [e])[..|log|] == log;
  }

  // ---- Invariant over every run ----

  ghost predicate Good(p: Player) {
    // Back-pressure: a throttled decoder has left plenty in the buffer, one that may write not too much.
    && (p.decoder.alive && p.decoder.throttled ==> |p.pcm| >= BUFFER_LOW_WATER)
    && (p.decoder.alive && |p.pcm| > BUFFER_HIGH_WATER ==> p.decoder.throttled)
    && (p.looping <==> p.state != Idle)
    && Story(p.session, !p.looping, p.pcm, p.log)
  }

  /** The log accounts for every byte of every session; `mayHaveEnded` is for the current session. */
  ghost predicate Story(session: nat, mayHaveEnded: bool, pcm: Bytes, log: seq<Event>) {
    forall s: nat :: Chapter(session, mayHaveEnded, pcm, log, s)
  }

  ghost predicate Chapter(session: nat, mayHaveEnded: bool, pcm: Bytes, log: seq<Event>, s: nat) {
    && Ends(log, s) <= (if s < session || (s == session && mayHaveEnded) then 1 else 0)
    && (s > session ==> Output(log, s) == [] == Heard(log, s))
    && (s == session ==> Heard(log, s) + pcm == Output(log, s))
    && Heard(log, s) <= Output(log, s)
  }

  lemma StoryDecoded(session: nat, ended: bool, pcm: Bytes, log: seq<Event>, from: nat, chunk: Bytes)
    requires Story(session, ended, pcm, log) && from <= session
    ensures Story(session, ended, if from == session then pcm + chunk else pcm, log + [Decoded(from, chunk)])
  {
    var after, longer := if from == session then pcm + chunk else pcm, log + [Decoded(from, chunk)];
    forall s: nat ensures Chapter(session, ended, after, longer, s) {
      assert Chapter(session, ended, pcm, log, s);
      Logged(log, Decoded(from, chunk), s);
      assert Heard(log, s) + (pcm + chunk) == Heard(log, s) + pcm + chunk;
    }
  }

  lemma StoryDrained(session: nat, ended: bool, pcm: Bytes, log: seq<Event>, n: nat, encoded: bool)
    requires Story(session, ended, pcm, log) && n <= |pcm|
    ensures Story(session, ended, pcm[n..], log + [Drained(session, pcm[..n], encoded)])
  {
    forall s: nat ensures Chapter(session, ended, pcm[n..], log + [Drained(session, pcm[..n], encoded)], s) {
      assert Chapter(session, ended, pcm, log, s);
      Logged(log, Drained(session, pcm[..n], encoded), s);
      assert Heard(log, s) + pcm[..n] + pcm[n..] == Heard(log, s) + pcm;
    }
  }

  lemma StoryFailed(session: nat, ended: bool, pcm: Bytes, log: seq<Event>, which: nat)
    requires Story(session, ended, pcm, log)
    ensures Story(session, ended, pcm, log + [Failed(which)])
  {
    forall s: nat ensures Chapter(session, ended, pcm, log + [Failed(which)], s) {
      assert Chapter(session, ended, pcm, log, s);
      Logged(log, Failed(which), s);
    }
  }

  lemma StoryEnds(session: nat, pcm: Bytes, log: seq<Event>)
    requires Story(session, false, pcm, log)
    ensures Story(session, true, pcm, log + [TrackEnd(session)])
    ensures Story(session, true, pcm, log)
  {
    var longer := log + [TrackEnd(session)];
    forall s: nat ensures Chapter(session, true, pcm, longer, s) {
      assert Chapter(session, false, pcm, log, s);
      Logged(log, TrackEnd(session), s);
    }
    forall s: nat ensures Chapter(session, true, pcm, log, s) {
      assert Chapter(session, false, pcm, log, s);
    }
  }

  lemma StoryStops(session: nat, ended: bool, pcm: Bytes, log: seq<Event>)
    requires Story(session, ended, pcm, log)
    ensures Story(session + 1, false, [], log) && Story(session + 1, true, [], log)
  {
    var next := session + 1;
    forall s: nat ensures Chapter(next, false, [], log, s) {
      assert Chapter(session, ended, pcm, log, s);
    }
    forall s: nat ensures Chapter(next, true, [], log, s) {
      assert Chapter(session, ended, pcm, log, s);
    }
  }

  lemma SentIsGood(p: Player, encodes: bool)
    requires Good(p)
    ensures Good(Sent(p, encodes))
  {
    if |p.pcm| >= PCM_FRAME_BYTES {
      StoryDrained(p.session, !p.looping, p.pcm, p.log, PCM_FRAME_BYTES, encodes);
      StoryFailed(p.session, !p.looping, p.pcm[PCM_FRAME_BYTES..],
                  p.log + [Drained(p.session, p.pcm[..PCM_FRAME_BYTES], encodes)], p.session);
    }
  }

  lemma GuardedIsGood(p: Player, wall: real)
    requires Good(p) && p.looping
    ensures Good(Guarded(p, wall))
  {
    StoryEnds(p.session, p.pcm, p.log);
  }

  /** Every step keeps the invariant. */
  lemma StepIsGood(p: Player, step: Step)
    requires Good(p) && Enabled(p, step)
    ensures Good(Do(p, step))
  {
    match step
    case Play(_, _) =>
      StoryStops(p.session, !p.looping, p.pcm, p.log);
      StoryFailed(p.session + 1, true, [], p.log, p.session + 1);
    case Stop => StoryStops(p.session, !p.looping, p.pcm, p.log);
    case Data(from, chunk) => StoryDecoded(p.session, !p.looping, p.pcm, p.log, from, chunk);
    case SpawnError(_) => StoryFailed(p.session, !p.looping, p.pcm, p.log, p.session);
    case Tick(from, wall, encodes) =>
      if from == p.session && p.looping {
        SentIsGood(p, encodes);
        GuardedIsGood(if p.state == Playing then Sent(p, encodes) else p, wall);
      }
    case _ =>
  }

  lemma {:induction false} RunIsGood(p: Player, steps: seq<Step>)
    requires Good(p) && CanRun(p, steps)
    ensures Good(Run(p, steps))
    decreases |steps|
  {
    if steps != [] {
      StepIsGood(p, steps[0]);
      RunIsGood(Do(p, steps[0]), steps[1..]);
    }
  }

  /** Over any run: one track end a session at most, and what was heard of one is a prefix of its decoder's output. */
  lemma EveryRun(steps: seq<Step>, session: nat)
    requires CanRun(INITIAL, steps)
    ensures var p := Run(INITIAL, steps);
      && Ends(p.log, session) <= 1
      && Heard(p.log, session) <= Output(p.log, session)
      && (p.decoder.alive && p.decoder.throttled ==> |p.pcm| >= BUFFER_LOW_WATER)
      && (p.decoder.alive && |p.pcm| > BUFFER_HIGH_WATER ==> p.decoder.throttled)
  {
    assert Good(INITIAL) by {
      forall s: nat ensures Chapter(0, true, [], [], s) {}
    }
    RunIsGood(INITIAL, steps);
    var p := Run(INITIAL, steps);
    assert Chapter(p.session, !p.looping, p.pcm, p.log, session);
  }

  /** In a session the decoder is paused only by PCM above the high-water mark, and resumed only below the low one. */
  lemma PausedAndResumed(p: Player, step: Step)
    requires Good(p) && Enabled(p, step)
    ensures var q := Do(p, step);
      q.session == p.session && p.decoder.alive && q.decoder.alive ==>
        && (q.decoder.throttled && !p.decoder.throttled ==>
              step.Data? && step.from == p.session && |q.pcm| > BUFFER_HIGH_WATER)
        && (!q.decoder.throttled && p.decoder.throttled ==>
              step.Tick? && step.from == p.session && |q.pcm| < BUFFER_LOW_WATER)
  {
  }

  /** Back-pressure never looks like a stall: an attempt is counted only while the decoder may write. */
  lemma OnlyStarvedTicksCount(p: Player, step: Step)
    requires Good(p) && Enabled(p, step) && Do(p, step).emptyAttempts > p.emptyAttempts
    ensures step.Tick? && step.from == p.session && p.decoder.alive
    ensures !Do(p, step).decoder.throttled && |Do(p, step).pcm| < PCM_FRAME_BYTES
  {
    if step.Tick? {
      SentChanges(p, step.encodes);
      SentIsGood(p, step.encodes);
    }
  }

  lemma SentChanges(p: Player, encodes: bool)
    ensures var q := Sent(p, encodes);
      && q.emptyAttempts == p.emptyAttempts && q.session == p.session && q.decoder.alive == p.decoder.alive
      && q.state == p.state && q.looping == p.looping && q.decoder.spawnFailed == p.decoder.spawnFailed
      && q.pcm == if |p.pcm| >= PCM_FRAME_BYTES then p.pcm[PCM_FRAME_BYTES..] else p.pcm
  {
  }

  lemma SentEndsNothing(p: Player, encodes: bool, s: nat)
    ensures Ends(Sent(p, encodes).log, s) == Ends(p.log, s)
  {
    if |p.pcm| >= PCM_FRAME_BYTES {
      var longer := p.log + [Drained(p.session, p.pcm[..PCM_FRAME_BYTES], encodes)];
      assert Sent(p, encodes).log == if encodes then longer else longer + [Failed(p.session)];
      Logged(p.log, Drained(p.session, p.pcm[..PCM_FRAME_BYTES], encodes), s);
      Logged(longer, Failed(p.session), s);
    }
  }

  /** A track is ended only by the running session's own timer, which also leaves the player idle. */
  lemma OnlyOwnTimerEnds(p: Player, step: Step, s: nat)
    requires Good(p) && Enabled(p, step) && Ends(Do(p, step).log, s) > Ends(p.log, s)
    ensures step.Tick? && step.from == s == p.session && p.looping
    ensures !Do(p, step).looping && Do(p, step).state == Idle
  {
    if step.Tick? {
      if step.from == p.session && p.looping {
        TickEnds(p, step.wall, step.encodes, s);
      }
    } else {
      OthersEndNothing(p, step, s);
    }
  }

  lemma OthersEndNothing(p: Player, step: Step, s: nat)
    requires !step.Tick?
    ensures Ends(Do(p, step).log, s) == Ends(p.log, s)
  {
    Logged(p.log, Failed(p.session), s);
    Logged(p.log, Failed(p.session + 1), s);
    if step.Data? { Logged(p.log, Decoded(step.from, step.chunk), s); }
  }

  lemma TickEnds(p: Player, wall: real, encodes: bool, s: nat)
    requires p.looping
    ensures var q := Ticked(p, p.session, wall, encodes);
      && (Ends(q.log, s) == Ends(p.log, s)
          || (Ends(q.log, s) == Ends(p.log, s) + 1 && s == p.session && !q.looping && q.state == Idle))
      && (s == p.session && !q.looping && p.state != Idle ==>
          Ends(q.log, s) == Ends(p.log, s) + if p.decoder.alive || !p.decoder.spawnFailed then 1 else 0)
  {
    var sent := if p.state == Playing then Sent(p, encodes) else p;
    SentChanges(p, encodes);
    SentEndsNothing(p, encodes, s);
    GuardedLog(sent, wall);
    Logged(sent.log, TrackEnd(p.session), s);
  }

  lemma GuardedLog(p: Player, wall: real)
    requires p.looping
    ensures var q := Guarded(p, wall);
      && (q.log == p.log || (q.log == p.log + [TrackEnd(p.session)] && !q.looping && q.state == Idle))
      && (!q.looping && p.state != Idle ==> (q.log != p.log <==> p.decoder.alive || !p.decoder.spawnFailed))
  {
  }

  // ---- A track ends soon after its decoder goes quiet ----

  /** Ticks after which the stall guard, or the end of the buffer, must have fired. */
  function Patience(p: Player): int {
    var buffered := |p.pcm| / PCM_FRAME_BYTES;
    if !p.decoder.alive then buffered + 1
    else if buffered == 0 then MAX_MIDTRACK_STALL_ATTEMPTS - p.emptyAttempts
    else buffered + MAX_MIDTRACK_STALL_ATTEMPTS
  }

  lemma TickProgress(p: Player, wall: real, encodes: bool)
    requires p.looping && p.state != Idle && (p.state == Playing || |p.pcm| < PCM_FRAME_BYTES)
    ensures var q := Ticked(p, p.session, wall, encodes);
      && q.session == p.session
      && (q.looping ==> q.decoder.alive == p.decoder.alive && q.decoder.spawnFailed == p.decoder.spawnFailed)
      && (q.looping ==> q.state == p.state)
      && (q.looping ==> Patience(q) < Patience(p) && (q.state == Playing || |q.pcm| < PCM_FRAME_BYTES))
      && (q.looping ==> Patience(p) > 1 || wall < MIN_STALL_GRACE_SEC)
      && (!q.looping ==> q.state == Idle)
  {
    SentChanges(p, encodes);
  }

  /** No more PCM reaches the session, and it is neither stopped nor replaced; anything else may happen. */
  predicate Quiet(session: nat, step: Step) {
    !step.Play? && !step.Stop? && !(step.Data? && step.from == session)
  }

  predicate AllQuiet(session: nat, steps: seq<Step>) {
    forall i :: 0 <= i < |steps| ==> Quiet(session, steps[i])
  }

  /** A tick of the running session, unless the player is paused on buffered frames. */
  predicate Counts(p: Player, step: Step) {
    step.Tick? && step.from == p.session && (p.state != Paused || |p.pcm| < PCM_FRAME_BYTES)
  }

  /** Clock readings of the ticks that count. */
  function Turns(p: Player, steps: seq<Step>): (walls: seq<real>)
    decreases |steps|
  {
    if steps == [] then []
    else (if Counts(p, steps[0]) then [steps[0].wall] else []) + Turns(Do(p, steps[0]), steps[1..])
  }

  /** A tick that counts ends the track or takes from its patience; nothing else does more than end the decoder. */
  lemma StepTowardsEnd(p: Player, step: Step)
    requires Good(p) && p.looping && Enabled(p, step) && Quiet(p.session, step)
    ensures var q := Do(p, step);
      && Good(q) && q.session == p.session && (q.looping || (Counts(p, step) && q.state == Idle))
      && (q.looping && Counts(p, step) ==>
            Patience(q) < Patience(p) && (Patience(p) > 1 || step.wall < MIN_STALL_GRACE_SEC))
      && (q.looping && !Counts(p, step) ==> Patience(q) <= Patience(p) || Patience(q) <= 1)
      && Ends(q.log, p.session) == if !q.looping && (p.decoder.alive || !p.decoder.spawnFailed) then 1 else 0
  {
    assert Chapter(p.session, !p.looping, p.pcm, p.log, p.session);
    StepIsGood(p, step);
    if Counts(p, step) {
      TickProgress(p, step.wall, step.encodes);
    }
    if step.Tick? {
      TickEnds(p, step.wall, step.encodes, p.session);
      assert Chapter(Do(p, step).session, !Do(p, step).looping, Do(p, step).pcm, Do(p, step).log, p.session);
    } else {
      OthersEndNothing(p, step, p.session);
    }
  }

  /** A track that is over stays over. */
  lemma {:induction false} StaysEnded(p: Player, steps: seq<Step>)
    requires !p.looping && p.state == Idle && AllQuiet(p.session, steps)
    ensures var q := Run(p, steps); !q.looping && q.state == Idle && Ends(q.log, p.session) == Ends(p.log, p.session)
    decreases |steps|
  {
    if steps != [] {
      if !steps[0].Tick? { OthersEndNothing(p, steps[0], p.session); }
      StaysEnded(Do(p, steps[0]), steps[1..]);
    }
  }

  /** The `k`-th step of a run ends the track. */
  ghost predicate EndsAt(p: Player, steps: seq<Step>, k: nat)
    requires k < |steps|
  {
    Run(p, steps[..k]).looping && Counts(Run(p, steps[..k]), steps[k]) && !Do(Run(p, steps[..k]), steps[k]).looping
  }

  /**
   * Once PCM has stopped, the track ends within its patience, whatever else happens: the decoder exits, fails or
   * stays silent, the player is paused and resumed, callbacks of earlier sessions arrive. It suffices that as many
   * ticks count and that the last of them is past the grace period. One track end is logged, except when the
   * decoder had both failed to start and gone by the tick that ended the track.
   */
  lemma {:induction false} QuietTrackEnds(p: Player, steps: seq<Step>) returns (k: nat)
    requires Good(p) && p.looping && CanRun(p, steps) && AllQuiet(p.session, steps)
    requires |Turns(p, steps)| >= 1 && |Turns(p, steps)| >= Patience(p)
    requires Turns(p, steps)[|Turns(p, steps)| - 1] >= MIN_STALL_GRACE_SEC
    ensures !Run(p, steps).looping && Run(p, steps).state == Idle
    ensures k < |steps| && EndsAt(p, steps, k)
    ensures var last := Run(p, steps[..k]).decoder;
      Ends(Run(p, steps).log, p.session) == if last.alive || !last.spawnFailed then 1 else 0
    decreases |steps|
  {
    var step, rest := steps[0], steps[1..];
    var q := Do(p, step);
    StepTowardsEnd(p, step);
    if q.looping {
      assert Turns(p, steps) == (if Counts(p, step) then [step.wall] else []) + Turns(q, rest);
      var j := QuietTrackEnds(q, rest);
      k := j + 1;
      assert steps[..k][0] == step && steps[..k][1..] == rest[..j];
    } else {
      k := 0;
      assert steps[..0] == [];
      StaysEnded(q, rest);
    }
  }

  // ---- The player itself ----

  function Flatten(chunks: seq<Bytes>): Bytes {
    if chunks == [] then [] else chunks[0] + Flatten(chunks[1..])
  }

  lemma {:induction false} FlattenAppend(chunks: seq<Bytes>, chunk: Bytes)
    ensures Flatten(chunks + [chunk]) == Flatten(chunks) + chunk
  {
    if chunks == [] {
      assert Flatten([chunk]) == chunk + Flatten([]);
    } else {
      assert (chunks + [chunk])[1..] == chunks[1..] + [chunk];
      FlattenAppend(chunks[1..], chunk);
    }
  }

  class PcmPlayer {
    var state: State
    var sessionId: nat
    var frameLoopRunning: bool
    var ffmpeg: Decoder
    var track: Track
    var consecutiveFailures: nat
    var emptyFrameAttempts: nat
    var pcmChunks: seq<Bytes>
    var pcmBuffered: nat
    ghost var log: seq<Event>

    /** The counter always equals the bytes in the chunks. */
    ghost predicate Valid()
      reads this
    {
      pcmBuffered == |Flatten(pcmChunks)|
    }

    ghost function View(): Player
      reads this
    {
      Player(sessionId, state, frameLoopRunning, ffmpeg, track, consecutiveFailures, emptyFrameAttempts,
             Flatten(pcmChunks), log)
    }

    constructor ()
      ensures Valid() && View() == INITIAL
    {
      state, sessionId, frameLoopRunning, ffmpeg := Idle, 0, false, Decoder(false, false, false);
      track, consecutiveFailures, emptyFrameAttempts := Track(0.0, 0.0, 0, 0), 0, 0;
      pcmChunks, pcmBuffered, log := [], 0, [];
    }

    method Play(seek: real, duration: real)
      requires Valid()
      modifies this
      ensures Valid() && View() == Started(old(View()), seek, duration)
    {
      Stop();
      track, emptyFrameAttempts := Track(seek, duration, 0, 0), 0;
      ffmpeg := ffmpeg.(throttled := false, spawnFailed := false);
      if consecutiveFailures >= MAX_CONSECUTIVE_FAILURES {
        state := Idle;
        log := log + [Failed(sessionId)];
        return;
      }
      ffmpeg := ffmpeg.(alive := true);
      state := Playing;
      if !frameLoopRunning { frameLoopRunning := true; }
    }

    method Stop()
      requires Valid()
      modifies this
      ensures Valid() && View() == Stopped(old(View()))
    {
      sessionId, frameLoopRunning := sessionId + 1, false;
      pcmChunks, pcmBuffered := [], 0;
      ffmpeg, state := Decoder(false, false, false), Idle;
      track := track.(seekOffset := 0.0, framesPlayed := 0, healthyFrames := 0);
    }

    method OnData(from: nat, chunk: Bytes)
      requires Valid()
      modifies this
      ensures Valid() && View() == Received(old(View()), from, chunk)
    {
      log := log + [Decoded(from, chunk)];
      if sessionId != from { return; }
      FlattenAppend(pcmChunks, chunk);
      pcmChunks := pcmChunks + [chunk];
      pcmBuffered := pcmBuffered + |chunk|;
      if pcmBuffered > BUFFER_HIGH_WATER && !ffmpeg.throttled && ffmpeg.alive {
        ffmpeg := ffmpeg.(throttled := true);
      }
    }

    method OnExit(from: nat)
      requires Valid()
      modifies this
      ensures Valid() && View() == Do(old(View()), Step.Exit(from))
    {
      if sessionId == from { ffmpeg := ffmpeg.(alive := false); }
    }

    method OnSpawnError(from: nat)
      requires Valid()
      modifies this
      ensures Valid() && View() == Do(old(View()), Step.SpawnError(from))
    {
      if sessionId == from {
        ffmpeg, consecutiveFailures := ffmpeg.(spawnFailed := true), consecutiveFailures + 1;
        log := log + [Failed(from)];
      }
    }

    method Pause()
      requires Valid()
      modifies this`state
      ensures Valid() && View() == Do(old(View()), Step.Pause)
    {
      if state == Playing { state := Paused; }
    }

    method Resume()
      requires Valid()
      modifies this`state
      ensures Valid() && View() == Do(old(View()), Step.Resume)
    {
      if state == Paused { state := Playing; }
    }

    method ClearFailures()
      requires Valid()
      modifies this
      ensures Valid() && View() == Do(old(View()), Step.ResetFailures)
    {
      consecutiveFailures := 0;
    }

    /** Exactly the first 3840 buffered bytes, whatever the chunk boundaries. */
    method TakePcmFrame() returns (frame: Option<Bytes>)
      requires Valid()
      modifies this`pcmChunks, this`pcmBuffered
      ensures Valid()
      ensures frame.None? <==> old(pcmBuffered) < PCM_FRAME_BYTES
      ensures frame.None? ==> pcmChunks == old(pcmChunks)
      ensures frame.Some? ==> frame.value == old(Flatten(pcmChunks))[..PCM_FRAME_BYTES]
      ensures frame.Some? ==> Flatten(pcmChunks) == old(Flatten(pcmChunks))[PCM_FRAME_BYTES..]
    {
      if pcmBuffered < PCM_FRAME_BYTES { return None; }
      ghost var all := Flatten(pcmChunks);
      var bytes: Bytes := [];
      while |bytes| < PCM_FRAME_BYTES
        invariant |bytes| <= PCM_FRAME_BYTES <= |all|
        invariant bytes + Flatten(pcmChunks) == all
        invariant pcmBuffered == old(pcmBuffered)
        decreases PCM_FRAME_BYTES - |bytes| + |pcmChunks|
      {
        if |pcmChunks| == 0 { break; }
        var head := pcmChunks[0];
        var need := PCM_FRAME_BYTES - |bytes|;
        var take := if need < |head| then need else |head|;
        Regroup(bytes, head, take, Flatten(pcmChunks[1..]));
        bytes := bytes + head[..take];
        if take == |head| {
          pcmChunks := pcmChunks[1..];
        } else {
          assert [head[take..]] + pcmChunks[1..] == pcmChunks[0 := head[take..]];
          pcmChunks := pcmChunks[0 := head[take..]];
        }
      }
      pcmBuffered := pcmBuffered - |bytes|;
      assert all[..|bytes|] == bytes && all[|bytes|..] == Flatten(pcmChunks);
      return Some(bytes);
    }

    method SendNextFrame(encodes: bool)
      requires Valid()
      modifies this
      ensures Valid() && View() == Sent(old(View()), encodes)
    {
      var frame := TakePcmFrame();
      if frame.None? { return; }
      if ffmpeg.throttled && pcmBuffered < BUFFER_LOW_WATER && ffmpeg.alive {
        ffmpeg := ffmpeg.(throttled := false);
      }
      log := log + [Drained(sessionId, frame.value, encodes)];
      if !encodes {
        log := log + [Failed(sessionId)];
        return;
      }
      track := track.(framesPlayed := track.framesPlayed + 1, healthyFrames := track.healthyFrames + 1);
      if track.healthyFrames >= HEALTHY_FRAME_RESET {
        consecutiveFailures, track := 0, track.(healthyFrames := 0);
      }
    }

    /** The frame timer's callback. `wall` is the seconds since play(); `encodes` says whether the codec succeeds. */
    method OnFrameTimer(loopSessionId: nat, wall: real, encodes: bool)
      requires Valid()
      modifies this
      ensures Valid() && View() == Ticked(old(View()), loopSessionId, wall, encodes)
    {
      if loopSessionId != sessionId || !frameLoopRunning { return; }
      if state == Playing { SendNextFrame(encodes); }
      GuardFrameLoop(wall);
    }

    /** The stall guard, then the end of the track; otherwise the loop goes on. */
    method GuardFrameLoop(wall: real)
      requires Valid()
      modifies this
      ensures Valid() && View() == Guarded(old(View()), wall)
    {
      var isNearEnd := NearEnd(track);
      if ffmpeg.alive && pcmBuffered < PCM_FRAME_BYTES {
        emptyFrameAttempts := emptyFrameAttempts + 1;
        if ClassifyStall(emptyFrameAttempts, isNearEnd, wall) != Continue {
          frameLoopRunning := false;
          if state != Idle {
            state, ffmpeg, consecutiveFailures := Idle, ffmpeg.(alive := false), 0;
            log := log + [TrackEnd(sessionId)];
          }
          return;
        }
      } else {
        emptyFrameAttempts := 0;
      }
      if !ffmpeg.alive && pcmBuffered < PCM_FRAME_BYTES {
        frameLoopRunning := false;
        if state != Idle {
          state := Idle;
          if !ffmpeg.spawnFailed {
            consecutiveFailures := 0;
            log := log + [TrackEnd(sessionId)];
          }
        }
        return;
      }
    }
  }

  lemma Regroup(a: Bytes, b: Bytes, n: nat, c: Bytes)
    requires n <= |b|
    ensures a + (b + c) == (a + b[..n]) + (b[n..] + c)
  {
  }
}
