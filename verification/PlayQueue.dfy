/** The play queue of bot/src/audio/queue.ts: a song list with a cursor, a played set and two stacks of indices. */
module PlayQueue {

  datatype PlayMode = Sequential | Loop | Random | RandomLoop

  /** Who put the track on the queue; a track without a source counts as a human's. */
  datatype Source = Unset | User | Radio | System

  datatype Song = Song(id: string, name: string, source: Source)

  const HISTORY_LIMIT := 50

  predicate IsRadioFill(song: Song) {
    song.source == Radio
  }

  datatype Queue = Queue(
    songs: seq<Song>, cursor: int, mode: PlayMode, played: set<int>, history: seq<int>, forward: seq<int>)

  const EMPTY := Queue([], -1, RandomLoop, {}, [], [])

  predicate InRange(indices: seq<int>, n: nat) {
    forall i :: 0 <= i < |indices| ==> 0 <= indices[i] < n
  }

  /** Every index points into the list, and both stacks are bounded. */
  ghost predicate Valid(q: Queue) {
    && -1 <= q.cursor < |q.songs|
    && (forall i :: i in q.played ==> 0 <= i < |q.songs|)
    && InRange(q.history, |q.songs|) && InRange(q.forward, |q.songs|)
    && |q.history| <= HISTORY_LIMIT && |q.forward| <= HISTORY_LIMIT
  }

  predicate Shuffles(mode: PlayMode) {
    mode == Random || mode == RandomLoop
  }

  // ---- Operations ----

  /** Back-stack after leaving `index`: the oldest entry goes when there are more than fifty. */
  function Pushed(history: seq<int>, index: int, n: nat): seq<int> {
    if index < 0 || index >= n then history
    else if |history| + 1 > HISTORY_LIMIT then (history + [index])[1..]
    else history + [index]
  }

  function ShiftUp(index: int, at: int): int {
    if index >= at then index + 1 else index
  }

  function Shifted(indices: seq<int>, at: int): seq<int> {
    seq(|indices|, i requires 0 <= i < |indices| => ShiftUp(indices[i], at))
  }

  function Insert<T>(list: seq<T>, at: nat, item: T): seq<T>
    requires at <= |list|
  {
    list[..at] + [item] + list[at..]
  }

  function Inserted(q: Queue, at: nat, song: Song): Queue
    requires at <= |q.songs|
  {
    q.(songs := Insert(q.songs, at, song),
       played := set i | i in q.played :: ShiftUp(i, at),
       history := Shifted(q.history, at), forward := Shifted(q.forward, at))
  }

  /** First radio track at or after `start`, or the end of the list. */
  function FirstRadio(songs: seq<Song>, start: nat): (at: nat)
    ensures start <= |songs| ==> start <= at <= |songs|
    ensures start > |songs| ==> at == start
    ensures forall i :: start <= i < at && i < |songs| ==> !IsRadioFill(songs[i])
    ensures at < |songs| ==> IsRadioFill(songs[at])
    decreases |songs| - start
  {
    if start >= |songs| || IsRadioFill(songs[start]) then start else FirstRadio(songs, start + 1)
  }

  /** Where `add` puts a song. */
  function AddSlot(songs: seq<Song>, cursor: int, song: Song): (at: nat)
    requires -1 <= cursor < |songs|
    ensures at <= |songs| && cursor < at
  {
    if IsRadioFill(song) || songs == [] then |songs| else FirstRadio(songs, cursor + 1)
  }

  function Added(q: Queue, song: Song): Queue
    requires -1 <= q.cursor < |q.songs|
  {
    Inserted(q, AddSlot(q.songs, q.cursor, song), song)
  }

  function AddedMany(q: Queue, songs: seq<Song>): Queue
    requires -1 <= q.cursor < |q.songs|
    decreases |songs|
  {
    if songs == [] then q else AddedMany(Added(q, songs[0]), songs[1..])
  }

  function WithSource(song: Song): Song {
    if song.source == Unset then song.(source := User) else song
  }

  function NextSlot(songs: seq<Song>, cursor: int): (at: nat)
    requires -1 <= cursor < |songs|
    ensures at <= |songs| && cursor < at
  {
    if cursor < 0 then |songs| else cursor + 1
  }

  function AddedNext(q: Queue, song: Song): Queue
    requires -1 <= q.cursor < |q.songs|
  {
    Inserted(q, NextSlot(q.songs, q.cursor), WithSource(song))
  }

  function ShiftDown(index: int, at: int): int {
    if index > at then index - 1 else index
  }

  /** Stack after the song at `at` left the list. */
  function Dropped(indices: seq<int>, at: int): seq<int> {
    if indices == [] then []
    else (if indices[0] == at then [] else [ShiftDown(indices[0], at)]) + Dropped(indices[1..], at)
  }

  function Removed(q: Queue, index: int): Queue {
    if index < 0 || index >= |q.songs| then q
    else
      Queue(q.songs[..index] + q.songs[index + 1..],
            if index <= q.cursor then q.cursor - 1 else q.cursor,
            q.mode,
            set i | i in q.played && i != index :: ShiftDown(i, index),
            Dropped(q.history, index), Dropped(q.forward, index))
  }

  function Cleared(q: Queue): Queue {
    q.(songs := [], cursor := -1, played := {}, history := [], forward := [])
  }

  function Played(q: Queue): Queue {
    if q.songs == [] then q else q.(cursor := 0, played := {0}, history := [], forward := [])
  }

  function PlayedAt(q: Queue, index: int): Queue {
    if index < 0 || index >= |q.songs| then q
    else q.(cursor := index, played := {index}, history := Pushed(q.history, q.cursor, |q.songs|), forward := [])
  }

  /** Forward stack without its stale top entries. */
  function Resumable(forward: seq<int>, cursor: int, n: nat): (rest: seq<int>)
    ensures |rest| <= |forward| && rest == forward[..|rest|]
    ensures rest != [] ==> 0 <= rest[|rest| - 1] < n && rest[|rest| - 1] != cursor
  {
    if forward == [] then []
    else
      var target := forward[|forward| - 1];
      if target < 0 || target >= n || target == cursor then Resumable(forward[..|forward| - 1], cursor, n) else forward
  }

  /** Indices below `n` that satisfy `keep`, in order. */
  function Select(n: nat, keep: int -> bool): (picks: seq<int>)
    ensures forall i :: i in picks <==> 0 <= i < n && keep(i)
    ensures forall i, j :: 0 <= i < j < |picks| ==> picks[i] < picks[j]
  {
    if n == 0 then []
    else
      var before := Select(n - 1, keep);
      assert forall k :: 0 <= k < |before| ==> before[k] in before;
      if keep(n - 1) then before + [n - 1] else before
  }

  function Unplayed(n: nat, played: set<int>): seq<int> {
    Select(n, i => i !in played)
  }

  function Others(n: nat, cursor: int): seq<int> {
    Select(n, i => i != cursor)
  }

  /** `Math.floor(Math.random() * n)` */
  function Draw(random: real, n: nat): (k: nat)
    requires 0.0 <= random < 1.0 && n > 0
    ensures k < n
  {
    Scaled(random, n);
    (random * n as real).Floor
  }

  lemma Scaled(random: real, n: nat)
    requires 0.0 <= random < 1.0 && n > 0
    ensures 0.0 <= random * n as real < n as real
  {
  }

  /** Move the cursor to `index`, remembering where it was. */
  function MovedTo(q: Queue, index: int): Queue {
    q.(cursor := index, history := Pushed(q.history, q.cursor, |q.songs|))
  }

  /** Next song in a shuffle mode once the forward stack has nothing to resume. */
  function Shuffled(q: Queue, random: real): (r: (Queue, bool))
    requires 0.0 <= random < 1.0 && q.songs != []
    ensures r.1 ==> 0 <= r.0.cursor < |r.0.songs|
  {
    var n := |q.songs|;
    var unplayed := Unplayed(n, q.played);
    if unplayed != [] then
      var pick := unplayed[Draw(random, |unplayed|)];
      assert pick in unplayed;
      (MovedTo(q, pick).(played := q.played + {pick}), true)
    else if q.mode == Random then (q, false)
    else if n == 1 then (MovedTo(q, 0).(played := {0}), true)
    else
      OthersExist(n, q.cursor);
      var others := Others(n, q.cursor);
      var pick := others[Draw(random, |others|)];
      assert pick in others;
      (MovedTo(q, pick).(played := {pick}), true)
  }

  lemma OthersExist(n: nat, cursor: int)
    requires n >= 2
    ensures Others(n, cursor) != []
  {
    var other := if cursor == 0 then 1 else 0;
    assert other in Others(n, cursor);
  }

  /** Next song in a shuffle mode: resume the forward stack if it has something, else ask the bag. */
  function Resumed(q: Queue, random: real): (r: (Queue, bool))
    requires 0.0 <= random < 1.0 && q.songs != []
    ensures r.1 ==> 0 <= r.0.cursor < |r.0.songs|
  {
    var rest := Resumable(q.forward, q.cursor, |q.songs|);
    if rest == [] then Shuffled(q.(forward := []), random)
    else
      var target := rest[|rest| - 1];
      (MovedTo(q, target).(played := q.played + {target}, forward := rest[..|rest| - 1]), true)
  }

  /** The queue after `next()`, and whether a song was returned; it is then the one under the cursor. */
  function Advanced(q: Queue, random: real): (r: (Queue, bool))
    requires 0.0 <= random < 1.0 && -1 <= q.cursor < |q.songs|
    ensures r.1 ==> 0 <= r.0.cursor < |r.0.songs|
  {
    if q.songs == [] then (q, false)
    else
      match q.mode
      case Sequential =>
        if q.cursor + 1 >= |q.songs| then (q, false) else (MovedTo(q, q.cursor + 1), true)
      case Loop => (MovedTo(q, (q.cursor + 1) % |q.songs|), true)
      case _ => Resumed(q, random)
  }

  /** Back-stack without stale entries on top. */
  function Returnable(history: seq<int>, n: nat): (rest: seq<int>)
    ensures |rest| <= |history| && rest == history[..|rest|]
    ensures rest != [] ==> 0 <= rest[|rest| - 1] < n
  {
    if history == [] then []
    else if 0 <= history[|history| - 1] < n then history
    else Returnable(history[..|history| - 1], n)
  }

  function Remembered(q: Queue): Queue {
    if q.cursor >= 0 && |q.forward| < HISTORY_LIMIT then q.(forward := q.forward + [q.cursor]) else q
  }

  /** Nothing to walk back through: step the index, except in the shuffle modes. */
  function FellBack(q: Queue): (r: (Queue, bool))
    requires q.songs != []
    ensures r.1 && q.cursor < |q.songs| ==> 0 <= r.0.cursor < |r.0.songs|
  {
    if Shuffles(q.mode) then (q, false)
    else if q.cursor >= 1 then (q.(cursor := q.cursor - 1, played := q.played + {q.cursor - 1}), true)
    else if q.mode == Sequential then (q, false)
    else (q.(cursor := |q.songs| - 1, played := q.played + {|q.songs| - 1}), true)
  }

  /** The queue after `prev()`, and whether a song was returned. */
  function SteppedBack(q: Queue): (r: (Queue, bool))
    ensures r.1 && q.cursor < |q.songs| ==> 0 <= r.0.cursor < |r.0.songs|
  {
    if q.songs == [] then (q, false)
    else
      var p := Remembered(q);
      var rest := Returnable(p.history, |p.songs|);
      if rest == [] then FellBack(p.(history := []))
      else
        var index := rest[|rest| - 1];
        (p.(cursor := index, played := p.played + {index}, history := rest[..|rest| - 1]), true)
  }

  function ModeSet(q: Queue, mode: PlayMode): Queue {
    q.(mode := mode, played := if q.cursor >= 0 then {q.cursor} else {}, history := [], forward := [])
  }

  // ---- Only stale entries are popped ----

  /** Resuming drops exactly the entries above the newest one that is in range and not current. */
  lemma {:induction false} ResumesNewest(forward: seq<int>, cursor: int, n: nat)
    ensures var rest := Resumable(forward, cursor, n);
      && |rest| <= |forward| && rest == forward[..|rest|]
      && (rest != [] ==> 0 <= rest[|rest| - 1] < n && rest[|rest| - 1] != cursor)
      && forall i :: |rest| <= i < |forward| ==> forward[i] < 0 || forward[i] >= n || forward[i] == cursor
  {
    if forward != [] { ResumesNewest(forward[..|forward| - 1], cursor, n); }
  }

  /** Going back drops exactly the entries above the newest one that is in range. */
  lemma {:induction false} ReturnsNewest(history: seq<int>, n: nat)
    ensures var rest := Returnable(history, n);
      && |rest| <= |history| && rest == history[..|rest|]
      && (rest != [] ==> 0 <= rest[|rest| - 1] < n)
      && forall i :: |rest| <= i < |history| ==> history[i] < 0 || history[i] >= n
  {
    if history != [] { ReturnsNewest(history[..|history| - 1], n); }
  }

  // ---- Fifty entries ----

  /** The back stack keeps the fifty latest songs, and `prev()` remembers a way forward of at most fifty. */
  lemma StacksKeepFifty(q: Queue, index: int)
    requires Valid(q)
    ensures 0 <= index < |q.songs| ==>
      var all := q.history + [index];
      Pushed(q.history, index, |q.songs|) == if |all| <= 50 then all else all[|all| - 50..]
    ensures !(0 <= index < |q.songs|) ==> Pushed(q.history, index, |q.songs|) == q.history
    ensures q.songs != [] ==>
      SteppedBack(q).0.forward == if q.cursor >= 0 && |q.forward| < 50 then q.forward + [q.cursor] else q.forward
  {
  }

  // ---- Runs ----

  datatype Step =
    | Add(song: Song)
    | AddMany(batch: seq<Song>)
    | AddNext(song: Song)
    | Remove(index: int)
    | Clear
    | Play
    | PlayAt(index: int)
    | Next(random: real)
    | Prev
    | SetMode(mode: PlayMode)

  /** `Math.random()` stays in its range. */
  predicate Proper(step: Step) {
    step.Next? ==> 0.0 <= step.random < 1.0
  }

  function Do(q: Queue, step: Step): Queue
    requires Proper(step) && -1 <= q.cursor < |q.songs|
  {
    match step
    case Add(song) => Added(q, song)
    case AddMany(batch) => AddedMany(q, batch)
    case AddNext(song) => AddedNext(q, song)
    case Remove(index) => Removed(q, index)
    case Clear => Cleared(q)
    case Play => Played(q)
    case PlayAt(index) => PlayedAt(q, index)
    case Next(random) => Advanced(q, random).0
    case Prev => SteppedBack(q).0
    case SetMode(mode) => ModeSet(q, mode)
  }

  // ---- Every step keeps every index in range ----

  lemma PushedInRange(history: seq<int>, index: int, n: nat)
    requires InRange(history, n) && |history| <= HISTORY_LIMIT
    ensures InRange(Pushed(history, index, n), n) && |Pushed(history, index, n)| <= HISTORY_LIMIT
  {
  }

  lemma InsertedIsValid(q: Queue, at: nat, song: Song)
    requires Valid(q) && q.cursor < at <= |q.songs|
    ensures Valid(Inserted(q, at, song))
  {
  }

  lemma {:induction false} DroppedInRange(indices: seq<int>, at: int, n: nat)
    requires InRange(indices, n) && 0 <= at < n
    ensures InRange(Dropped(indices, at), n - 1) && |Dropped(indices, at)| <= |indices|
  {
    if indices != [] { DroppedInRange(indices[1..], at, n); }
  }

  lemma {:induction false} AddedManyIsValid(q: Queue, batch: seq<Song>)
    requires Valid(q)
    ensures Valid(AddedMany(q, batch))
    decreases |batch|
  {
    if batch != [] {
      InsertedIsValid(q, AddSlot(q.songs, q.cursor, batch[0]), batch[0]);
      AddedManyIsValid(Added(q, batch[0]), batch[1..]);
    }
  }

  lemma MovedIsValid(q: Queue, index: int)
    requires Valid(q) && 0 <= index < |q.songs|
    ensures Valid(MovedTo(q, index))
  {
    PushedInRange(q.history, q.cursor, |q.songs|);
  }

  lemma ShuffledIsValid(q: Queue, random: real)
    requires Valid(q) && q.songs != [] && 0.0 <= random < 1.0
    ensures Valid(Shuffled(q, random).0)
  {
    var n := |q.songs|;
    var unplayed := Unplayed(n, q.played);
    if unplayed != [] {
      var pick := unplayed[Draw(random, |unplayed|)];
      assert pick in unplayed;
      MovedIsValid(q, pick);
    } else if q.mode != Random {
      if n == 1 {
        MovedIsValid(q, 0);
      } else {
        OthersExist(n, q.cursor);
        var others := Others(n, q.cursor);
        assert others[Draw(random, |others|)] in others;
        MovedIsValid(q, others[Draw(random, |others|)]);
      }
    }
  }

  lemma AdvancedIsValid(q: Queue, random: real)
    requires Valid(q) && 0.0 <= random < 1.0
    ensures Valid(Advanced(q, random).0)
  {
    if q.songs != [] {
      match q.mode
      case Sequential => if q.cursor + 1 < |q.songs| { MovedIsValid(q, q.cursor + 1); }
      case Loop => MovedIsValid(q, (q.cursor + 1) % |q.songs|);
      case _ =>
        var rest := Resumable(q.forward, q.cursor, |q.songs|);
        if rest != [] {
          MovedIsValid(q, rest[|rest| - 1]);
        } else {
          ShuffledIsValid(q.(forward := []), random);
        }
    }
  }

  lemma SteppedBackIsValid(q: Queue)
    requires Valid(q)
    ensures Valid(SteppedBack(q).0)
  {
  }

  lemma StepIsValid(q: Queue, step: Step)
    requires Valid(q) && Proper(step)
    ensures Valid(Do(q, step))
  {
    match step
    case Add(song) => InsertedIsValid(q, AddSlot(q.songs, q.cursor, song), song);
    case AddMany(batch) => AddedManyIsValid(q, batch);
    case AddNext(song) => InsertedIsValid(q, NextSlot(q.songs, q.cursor), WithSource(song));
    case Remove(index) =>
      if 0 <= index < |q.songs| {
        DroppedInRange(q.history, index, |q.songs|);
        DroppedInRange(q.forward, index, |q.songs|);
      }
    case PlayAt(index) => PushedInRange(q.history, q.cursor, |q.songs|);
    case Next(random) => AdvancedIsValid(q, random);
    case Prev => SteppedBackIsValid(q);
    case _ =>
  }

  function Run(q: Queue, steps: seq<Step>): Queue
    requires Valid(q) && forall i :: 0 <= i < |steps| ==> Proper(steps[i])
    decreases |steps|
  {
    if steps == [] then q
    else
      StepIsValid(q, steps[0]);
      Run(Do(q, steps[0]), steps[1..])
  }

  lemma {:induction false} RunIsValid(q: Queue, steps: seq<Step>)
    requires Valid(q) && forall i :: 0 <= i < |steps| ==> Proper(steps[i])
    ensures Valid(Run(q, steps))
    decreases |steps|
  {
    if steps != [] {
      StepIsValid(q, steps[0]);
      RunIsValid(Do(q, steps[0]), steps[1..]);
    }
  }
}
