/** Walking back with `prev()` and forth with `next()` in the random modes. */
module QueueRetrace {
  import opened PlayQueue
  import opened QueueShuffle

  /** Equal but for the played set, which only ever grows here. */
  ghost predicate SamePlace(a: Queue, b: Queue) {
    a.(played := b.played) == b
  }

  /** A run of `prev()` calls: the queue before the first, and after each. */
  ghost predicate Prevs(walk: seq<Queue>) {
    walk != [] && forall i :: 0 <= i < |walk| - 1 ==> PrevAt(walk, i)
  }

  ghost predicate PrevAt(walk: seq<Queue>, i: nat)
    requires i + 1 < |walk|
  {
    walk[i + 1] == SteppedBack(walk[i]).0
  }

  /** The last `steps` entries of the back-stack and the current song, no two neighbours alike. */
  ghost predicate Walkable(q: Queue, steps: nat) {
    && Valid(q) && Shuffles(q.mode) && q.cursor >= 0
    && steps <= |q.history| && |q.forward| + steps <= HISTORY_LIMIT
    && (steps >= 1 ==> q.history[|q.history| - 1] != q.cursor)
    && forall i :: |q.history| - steps <= i < |q.history| - 1 ==> Changes(q.history, i)
  }

  ghost predicate Changes(history: seq<int>, i: nat)
    requires i + 1 < |history|
  {
    history[i] != history[i + 1]
  }

  /** One step back: the song before, with the way forward remembered. */
  lemma OneBack(q: Queue)
    requires Valid(q) && q.cursor >= 0 && q.history != [] && |q.forward| < HISTORY_LIMIT
    ensures var last := |q.history| - 1;
      SamePlace(
        SteppedBack(q).0,
        q.(cursor := q.history[last], history := q.history[..last], forward := q.forward + [q.cursor]))
    ensures SteppedBack(q).1 && Valid(SteppedBack(q).0)
  {
    SteppedBackIsValid(q);
  }

  /** One step on undoes one step back, whatever the random number and whatever was marked played meanwhile. */
  lemma OneOnUndoesOneBack(q: Queue, p: Queue, random: real)
    requires Walkable(q, 1) && Valid(p) && SamePlace(p, SteppedBack(q).0) && 0.0 <= random < 1.0
    ensures SamePlace(Advanced(p, random).0, q) && Advanced(p, random).1
  {
    OneBack(q);
    assert p.forward[..|p.forward| - 1] == q.forward;
    assert Resumable(p.forward, p.cursor, |p.songs|) == p.forward;
    assert p.history + [p.cursor] == q.history;
  }

  lemma WalkableAfterOneBack(q: Queue, steps: nat)
    requires Walkable(q, steps) && steps >= 1
    ensures Walkable(SteppedBack(q).0, steps - 1)
  {
    OneBack(q);
    var last := |q.history| - 1;
    if steps >= 2 { assert Changes(q.history, last - 1); }
    forall i | last - (steps - 1) <= i < last - 1 ensures Changes(q.history[..last], i) {
      assert Changes(q.history, i);
    }
  }

  lemma WalkLess(q: Queue, steps: nat, fewer: nat)
    requires Walkable(q, steps) && fewer <= steps
    ensures Walkable(q, fewer)
  {
  }

  /** Where `taken` calls of `prev()` lead: down the back-stack from its end. */
  ghost predicate Visits(q: Queue, p: Queue, taken: nat)
    requires taken <= |q.history|
  {
    && p.history == q.history[..|q.history| - taken]
    && p.cursor == if taken == 0 then q.cursor else q.history[|q.history| - taken]
  }

  lemma VisitsOneMore(q: Queue, p: Queue, taken: nat)
    requires taken < |q.history| && Visits(q, p, taken)
    requires Valid(p) && p.cursor >= 0 && |p.forward| < HISTORY_LIMIT
    ensures Visits(q, SteppedBack(p).0, taken + 1)
  {
    OneBack(p);
  }

  lemma {:induction false} WalkGoesOn(walk: seq<Queue>, steps: nat, taken: nat)
    requires Prevs(walk) && Walkable(walk[0], steps) && taken <= steps && taken < |walk|
    ensures Walkable(walk[taken], steps - taken) && Visits(walk[0], walk[taken], taken)
    decreases taken
  {
    if taken > 0 {
      WalkGoesOn(walk, steps, taken - 1);
      assert PrevAt(walk, taken - 1);
      WalkableAfterOneBack(walk[taken - 1], steps - taken + 1);
      VisitsOneMore(walk[0], walk[taken - 1], taken - 1);
    }
  }

  /**
   * Retrace: after a run of `prev()`, every `next()` undoes the last `prev()` not yet undone and visits the same
   * songs in mirror order. With as many `next()` as `prev()` the song and both stacks are back where they were.
   */
  lemma {:induction false} Retrace(walk: seq<Queue>, forth: seq<Queue>, randoms: seq<real>, i: nat)
    requires Prevs(walk) && Walkable(walk[0], |walk| - 1)
    requires Nexts(forth, randoms) && forth[0] == walk[|walk| - 1]
    requires i < |walk| && i < |forth|
    ensures SamePlace(forth[i], walk[|walk| - 1 - i])
    ensures Visits(walk[0], forth[i], |walk| - 1 - i)
    decreases i
  {
    var steps, left := |walk| - 1, |walk| - 1 - i;
    WalkGoesOn(walk, steps, left);
    if i > 0 {
      Retrace(walk, forth, randoms, i - 1);
      assert PrevAt(walk, left) && NextAt(forth, randoms, i - 1);
      WalkLess(walk[left], steps - left, 1);
      OneOnUndoesOneBack(walk[left], forth[i - 1], randoms[i - 1]);
    }
  }

  // ---- Exactly when the walk returns ----

  /** When `steps` calls of `prev()` and as many of `next()` lead back: a queue of one song has a rule of its own. */
  ghost predicate Returns(q: Queue, steps: nat)
    requires Valid(q)
  {
    if |q.songs| == 1 then q.mode == RandomLoop && q.forward == [] && q.cursor == 0 else Walkable(q, steps)
  }

  function Least(a: int, b: int): int { if a <= b then a else b }

  /** Any walk back within the history goes down the back-stack, and fills the forward stack as far as there is room. */
  lemma {:induction false} PrevsVisit(walk: seq<Queue>, taken: nat)
    requires Prevs(walk) && Valid(walk[0]) && Shuffles(walk[0].mode) && taken < |walk| && taken <= |walk[0].history|
    ensures var q, p := walk[0], walk[taken];
      && Valid(p) && p.songs == q.songs && p.mode == q.mode && Visits(q, p, taken)
      && (taken > 0 ==> p.cursor in p.played)
      && (q.cursor >= 0 ==> |p.forward| == Least(HISTORY_LIMIT, |q.forward| + taken))
    decreases taken
  {
    if taken > 0 {
      PrevsVisit(walk, taken - 1);
      assert PrevAt(walk, taken - 1);
      PrevStep(walk[taken - 1]);
    }
  }

  /** What one `prev()` does while the back-stack lasts. */
  lemma PrevStep(p: Queue)
    requires Valid(p) && p.history != []
    ensures var q, last := SteppedBack(p).0, |p.history| - 1;
      && Valid(q) && q.songs == p.songs && q.mode == p.mode
      && q.history == p.history[..last] && q.cursor == p.history[last] && q.cursor in q.played
      && |q.forward| == |p.forward| + if p.cursor >= 0 && |p.forward| < HISTORY_LIMIT then 1 else 0
  {
    SteppedBackIsValid(p);
    assert 0 <= p.history[|p.history| - 1] < |p.songs|;
    assert Returnable(Remembered(p).history, |p.songs|) == p.history;
  }

  /** What one `next()` does from a song that is marked played: it moves on, or nothing is left to play. */
  lemma NextStep(p: Queue, random: real)
    requires Valid(p) && Shuffles(p.mode) && p.cursor >= 0 && p.cursor in p.played && 0.0 <= random < 1.0
    ensures var q := Advanced(p, random).0;
      && Valid(q) && q.songs == p.songs && q.mode == p.mode && q.cursor >= 0 && q.cursor in q.played
      && (|p.history| < HISTORY_LIMIT ==>
            (q.history == p.history && q.cursor == p.cursor)
            || (q.history == p.history + [p.cursor] && (|q.songs| >= 2 ==> q.cursor != p.cursor)))
      && |q.history| <= |p.history| + 1
      && |q.forward| <= (if p.forward == [] then 0 else |p.forward| - 1)
  {
    AdvancedIsValid(p, random);
    if Resumable(p.forward, p.cursor, |p.songs|) == [] && |p.songs| >= 2 { ShuffledMoves(p.(forward := []), random); }
  }

  /** After `i` steps on, the back-stack has grown by at most `i`, and the forward stack shrunk by at least as many. */
  lemma {:induction false} NextsBound(forth: seq<Queue>, randoms: seq<real>, i: nat)
    requires Nexts(forth, randoms) && i < |forth|
    requires Shuffles(forth[0].mode) && forth[0].cursor >= 0 && forth[0].cursor in forth[0].played
    ensures var p, q := forth[0], forth[i];
      && Valid(q) && q.songs == p.songs && q.mode == p.mode && q.cursor >= 0 && q.cursor in q.played
      && |q.history| <= |p.history| + i && |q.forward| <= if |p.forward| <= i then 0 else |p.forward| - i
    decreases i
  {
    if i > 0 {
      NextsBound(forth, randoms, i - 1);
      assert NextAt(forth, randoms, i - 1);
      NextStep(forth[i - 1], randoms[i - 1]);
    }
  }

  /** Where every step has pushed, the back-stack names the songs visited, and no two neighbours are alike. */
  lemma {:induction false} PushedAll(forth: seq<Queue>, randoms: seq<real>, i: nat)
    requires Nexts(forth, randoms)
    requires Shuffles(forth[0].mode) && forth[0].cursor >= 0 && forth[0].cursor in forth[0].played
    requires i < |forth| && |forth[|forth| - 1].history| == |forth[0].history| + |forth| - 1
    ensures var end, at := forth[|forth| - 1].history, |forth[0].history| + i;
      && forth[i].history == end[..at]
      && (i + 1 < |forth| ==>
            end[at] == forth[i].cursor && (|forth[0].songs| >= 2 ==> forth[i + 1].cursor != forth[i].cursor))
    decreases |forth| - i
  {
    NextsBound(forth, randoms, |forth| - 1);
    NextsBound(forth, randoms, i);
    if i + 1 < |forth| {
      PushedAll(forth, randoms, i + 1);
      assert NextAt(forth, randoms, i);
      NextStep(forth[i], randoms[i]);
    }
  }

  /** Coming back to the same place takes different neighbours and room ahead. */
  lemma ReturnTakes(walk: seq<Queue>, forth: seq<Queue>, randoms: seq<real>)
    requires Prevs(walk) && Nexts(forth, randoms) && forth[0] == walk[|walk| - 1] && |forth| == |walk| >= 2
    requires Valid(walk[0]) && Shuffles(walk[0].mode) && |walk| - 1 <= |walk[0].history| && |walk[0].songs| >= 2
    requires SamePlace(forth[|forth| - 1], walk[0])
    ensures Walkable(walk[0], |walk| - 1)
  {
    var q, steps := walk[0], |walk| - 1;
    PrevsVisit(walk, steps);
    NextsBound(forth, randoms, steps);
    var left := |q.history| - steps;
    forall i | 0 <= i < steps
      ensures q.history[left + i] == forth[i].cursor && forth[i + 1].cursor != forth[i].cursor
    {
      PushedAll(forth, randoms, i);
    }
    forall j | left <= j < |q.history| - 1 ensures Changes(q.history, j) {
      assert q.history[left + (j - left)] == forth[j - left].cursor;
      assert q.history[left + (j - left + 1)] == forth[j - left + 1].cursor;
    }
    assert q.history[left + (steps - 1)] == forth[steps - 1].cursor;
  }

  /**
   * Exactly when as many `next()` as `prev()` lead back to the same song and stacks, whatever the random numbers: no
   * two neighbours on the way are alike and the forward stack has room. With a single song it takes random-loop mode,
   * the song being current and nothing ahead.
   */
  lemma RetraceIff(walk: seq<Queue>, forth: seq<Queue>, randoms: seq<real>)
    requires Prevs(walk) && Nexts(forth, randoms) && forth[0] == walk[|walk| - 1] && |forth| == |walk| >= 2
    requires Valid(walk[0]) && Shuffles(walk[0].mode) && |walk| - 1 <= |walk[0].history|
    ensures SamePlace(forth[|forth| - 1], walk[0]) <==> Returns(walk[0], |walk| - 1)
  {
    assert 0 <= walk[0].history[0] < |walk[0].songs|;
    if |walk[0].songs| == 1 {
      OneSong(walk, forth, randoms);
    } else if Walkable(walk[0], |walk| - 1) {
      Retrace(walk, forth, randoms, |walk| - 1);
    } else if SamePlace(forth[|forth| - 1], walk[0]) {
      ReturnTakes(walk, forth, randoms);
    }
  }

  lemma OneSong(walk: seq<Queue>, forth: seq<Queue>, randoms: seq<real>)
    requires Prevs(walk) && Nexts(forth, randoms) && forth[0] == walk[|walk| - 1] && |forth| == |walk| >= 2
    requires Valid(walk[0]) && Shuffles(walk[0].mode) && |walk| - 1 <= |walk[0].history| && |walk[0].songs| == 1
    ensures SamePlace(forth[|forth| - 1], walk[0]) <==> Returns(walk[0], |walk| - 1)
  {
    var q, steps := walk[0], |walk| - 1;
    PrevsVisit(walk, steps);
    assert walk[steps].cursor == q.history[|q.history| - steps] == 0;
    OneSongOn(forth, randoms, steps);
    var p := forth[steps];
    if q.mode == RandomLoop {
      assert p.history == q.history;
    }
  }

  /** With one song, `next()` drops what is ahead and plays the song again in random-loop mode only. */
  lemma {:induction false} OneSongOn(forth: seq<Queue>, randoms: seq<real>, i: nat)
    requires Nexts(forth, randoms) && Valid(forth[0]) && Shuffles(forth[0].mode) && |forth[0].songs| == 1
    requires forth[0].cursor == 0 && 0 in forth[0].played && i < |forth| && |forth[0].history| + i <= HISTORY_LIMIT
    ensures var p, q := forth[0], forth[i];
      && Valid(q) && q.songs == p.songs && q.mode == p.mode && q.cursor == 0 && 0 in q.played
      && |q.history| == |p.history| + (if p.mode == RandomLoop then i else 0) && (i > 0 ==> q.forward == [])
    decreases i
  {
    if i > 0 {
      OneSongOn(forth, randoms, i - 1);
      assert NextAt(forth, randoms, i - 1);
      var p := forth[i - 1];
      AdvancedIsValid(p, randoms[i - 1]);
      assert Resumable(p.forward, p.cursor, |p.songs|) == [];
      NothingLeft(p.played);
    }
  }

  lemma NothingLeft(played: set<int>)
    requires 0 in played
    ensures Unplayed(1, played) == []
  {
  }

  /** One `prev()` and one `next()`. */
  lemma RetraceOnceIff(q: Queue, random: real)
    requires Valid(q) && Shuffles(q.mode) && q.history != [] && 0.0 <= random < 1.0
    ensures SamePlace(Advanced(SteppedBack(q).0, random).0, q) <==> Returns(q, 1)
  {
    var p := SteppedBack(q).0;
    OnePrev(q, p);
    OneNext(p, random, Advanced(p, random).0);
    RetraceIff([q, p], [p, Advanced(p, random).0], [random]);
  }

  lemma OnePrev(q: Queue, p: Queue)
    requires Valid(q) && p == SteppedBack(q).0
    ensures Prevs([q, p]) && Valid(p)
  {
    SteppedBackIsValid(q);
    assert PrevAt([q, p], 0);
  }

  lemma OneNext(p: Queue, random: real, next: Queue)
    requires Valid(p) && 0.0 <= random < 1.0 && next == Advanced(p, random).0
    ensures Nexts([p, next], [random])
  {
    AdvancedIsValid(p, random);
    assert NextIs(p, random, next) && NextAt([p, next], [random], 0);
  }

  /** It happens: a song picked twice in a row, out of two, is lost by going back and on again. */
  lemma PickedTwiceSlips(a: Song, b: Song, random: real)
    requires 0.0 <= random < 1.0
    ensures var q := Run(EMPTY, [Add(a), Add(b), PlayAt(1), PlayAt(1)]);
      Valid(q) && SteppedBack(q).1 && !SamePlace(Advanced(SteppedBack(q).0, random).0, q)
  {
    PickedTwice(a, b);
    RepeatSlips(Run(EMPTY, [Add(a), Add(b), PlayAt(1), PlayAt(1)]), random);
  }

  lemma RepeatSlips(q: Queue, random: real)
    requires Valid(q) && q.mode == RandomLoop && |q.songs| == 2 && q.history == [1] && q.cursor == 1
    requires 0.0 <= random < 1.0
    ensures SteppedBack(q).1 && !SamePlace(Advanced(SteppedBack(q).0, random).0, q)
  {
    RetraceOnceIff(q, random);
  }

  lemma PickedTwice(a: Song, b: Song)
    ensures var q := Run(EMPTY, [Add(a), Add(b), PlayAt(1), PlayAt(1)]);
      Valid(q) && q.mode == RandomLoop && |q.songs| == 2 && q.history == [1] && q.cursor == 1
  {
    TwoAdded(a, b);
    var one, two := Added(EMPTY, a), Added(Added(EMPTY, a), b);
    var steps, rest := [Add(a), Add(b), PlayAt(1), PlayAt(1)], [Add(b), PlayAt(1), PlayAt(1)];
    var picks := [PlayAt(1), PlayAt(1)];
    assert steps[1..] == rest && rest[1..] == picks;
    PickTwice(two);
    assert Run(one, rest) == Run(two, picks);
  }

  lemma TwoAdded(a: Song, b: Song)
    ensures var one := Added(EMPTY, a);
      && Valid(one) && one.cursor == -1 && Valid(Added(one, b))
      && var two := Added(one, b);
      |two.songs| == 2 && two.cursor == -1 && two.mode == RandomLoop && two.history == []
  {
    InsertedIsValid(EMPTY, 0, a);
    InsertedIsValid(Added(EMPTY, a), AddSlot([a], -1, b), b);
  }

  lemma PickTwice(q: Queue)
    requires Valid(q) && |q.songs| == 2 && q.cursor == -1 && q.history == []
    ensures var p := PlayedAt(PlayedAt(q, 1), 1);
      && Run(q, [PlayAt(1), PlayAt(1)]) == p && Valid(p)
      && p.songs == q.songs && p.mode == q.mode && p.history == [1] && p.cursor == 1
  {
    var steps, p := [PlayAt(1), PlayAt(1)], PlayedAt(q, 1);
    StepIsValid(q, PlayAt(1));
    StepIsValid(p, PlayAt(1));
    assert steps[1..] == [PlayAt(1)] && [PlayAt(1)][1..] == [];
    assert Run(p, [PlayAt(1)]) == Run(PlayedAt(p, 1), []) == PlayedAt(p, 1);
  }

  /** The bag never gives the current song again when it is marked played and there is another one. */
  lemma ShuffledMoves(q: Queue, random: real)
    requires Valid(q) && q.cursor in q.played && |q.songs| >= 2 && 0.0 <= random < 1.0
    ensures var (next, ok) := Shuffled(q, random); if ok then next.cursor != q.cursor else next == q
  {
    var n := |q.songs|;
    var unplayed := Unplayed(n, q.played);
    if unplayed != [] {
      assert unplayed[Draw(random, |unplayed|)] in unplayed;
    } else if q.mode != Random {
      OthersExist(n, q.cursor);
      var others := Others(n, q.cursor);
      assert others[Draw(random, |others|)] in others;
    }
  }
}
