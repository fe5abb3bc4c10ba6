/** Whether `next()` and `prev()` give a song, which one in the orderly modes, and how the random number picks one. */
module QueuePlay {
  import opened PlayQueue
  import opened QueueShuffle

  // ---- Whether there is a song ----

  /**
   * `next()` gives a song exactly when one is left: after the current one in Sequential mode; at all in the loop modes;
   * ahead or in the bag in Random mode.
   */
  lemma NextGivesIff(q: Queue, random: real)
    requires Valid(q) && 0.0 <= random < 1.0
    ensures Gives(q, random) <==>
      match q.mode
      case Sequential => q.cursor + 1 < |q.songs|
      case Loop => q.songs != []
      case RandomLoop => q.songs != []
      case Random => (exists i :: 0 <= i < |q.forward| && q.forward[i] != q.cursor) || Left(q) > 0
  {
    if Shuffles(q.mode) { AheadIff(q.forward, q.cursor, |q.songs|); }
    if Left(q) > 0 { assert Unplayed(|q.songs|, q.played)[0] in Unplayed(|q.songs|, q.played); }
  }

  /** Something can be resumed exactly when the forward stack names another song than the current one. */
  lemma {:induction false} AheadIff(forward: seq<int>, cursor: int, n: nat)
    requires InRange(forward, n)
    ensures Resumable(forward, cursor, n) != [] <==> exists i :: 0 <= i < |forward| && forward[i] != cursor
  {
    if forward != [] {
      var last, rest := |forward| - 1, forward[..|forward| - 1];
      if forward[last] == cursor {
        AheadIff(rest, cursor, n);
        if i :| 0 <= i < |forward| && forward[i] != cursor { assert rest[i] != cursor; }
      }
    }
  }

  /** `prev()` gives a song exactly when one was played before, or when the orderly modes have a slot to step to. */
  lemma PrevGivesIff(q: Queue)
    requires Valid(q)
    ensures SteppedBack(q).1 <==>
      q.songs != [] && (q.history != [] || q.mode == Loop || (q.mode == Sequential && q.cursor >= 1))
  {
    if q.history != [] {
      assert 0 <= q.history[|q.history| - 1] < |q.songs|;
      assert Returnable(q.history, |q.songs|) == q.history;
    }
  }

  // ---- Runs in the orderly modes ----

  function Least(a: int, b: int): int { if a <= b then a else b }

  /** A Sequential run of `next()` gives the songs after the current one in order, once each, and then nothing. */
  lemma {:induction false} SequentialPlaysOn(queues: seq<Queue>, randoms: seq<real>, i: nat)
    requires Nexts(queues, randoms) && queues[0].mode == Sequential && i < |randoms|
    ensures var first, n := queues[0].cursor + 1, |queues[0].songs|;
      && queues[i].songs == queues[0].songs && queues[i].mode == Sequential
      && queues[i].cursor == Least(first - 1 + i, n - 1)
      && (Gives(queues[i], randoms[i]) <==> first + i < n)
      && (first + i < n ==> queues[i + 1].cursor == first + i)
      && (first + i >= n ==> queues[i + 1] == queues[i])
  {
    if i > 0 { SequentialPlaysOn(queues, randoms, i - 1); }
    assert NextAt(queues, randoms, i);
  }

  /** A Loop run of `next()` goes through the list round and round. */
  lemma {:induction false} LoopGoesRound(queues: seq<Queue>, randoms: seq<real>, i: nat)
    requires Nexts(queues, randoms) && queues[0].mode == Loop && queues[0].songs != [] && i < |randoms|
    ensures queues[i].songs == queues[0].songs && queues[i].mode == Loop && Gives(queues[i], randoms[i])
    ensures queues[i + 1].cursor == (queues[0].cursor + 1 + i) % |queues[0].songs|
  {
    assert NextAt(queues, randoms, i);
    if i > 0 {
      LoopGoesRound(queues, randoms, i - 1);
      OneFurther(queues[0].cursor + i, |queues[0].songs|);
    }
  }

  lemma OneFurther(at: int, n: int)
    requires n > 0
    ensures (at % n + 1) % n == (at + 1) % n
  {
    var round, rest := at / n, at % n;
    if rest + 1 < n {
      Remainder(at + 1, round, rest + 1, n);
      Remainder(rest + 1, 0, rest + 1, n);
    } else {
      OneMoreRound(n, round);
      Remainder(at + 1, round + 1, 0, n);
      Remainder(n, 1, 0, n);
    }
  }

  lemma OneMoreRound(n: int, round: int)
    ensures n * (round + 1) == n * round + n
  {
  }

  lemma Remainder(at: int, round: int, rest: int, n: int)
    requires 0 <= rest < n && at == n * round + rest
    ensures at % n == rest
  {
    var other, over := at / n, at % n;
    var gap := other - round;
    assert n * gap == rest - over;
    Multiple(n, gap);
  }

  lemma Multiple(n: int, gap: int)
    requires n > 0
    ensures gap >= 1 ==> n * gap >= n
    ensures gap <= -1 ==> n * gap <= -n
  {
  }

  // ---- How the random number picks ----

  /** The `k`-th of `n` entries is drawn by exactly the `k`-th of `n` equal parts of the random numbers. */
  lemma DrawIff(random: real, n: nat, k: nat)
    requires 0.0 <= random < 1.0 && n > 0
    ensures Draw(random, n) == k <==> k as real <= random * n as real < k as real + 1.0
  {
  }

  /** Choices of a draw: the bag while it lasts, then in RandomLoop every song, the current one only if it is alone. */
  function Choices(q: Queue): seq<int> {
    var bag := Unplayed(|q.songs|, q.played);
    if bag != [] || q.mode == Random then bag else if |q.songs| == 1 then [0] else Others(|q.songs|, q.cursor)
  }

  /** With nothing to resume, the `i`-th choice is played exactly for its equal part of the random numbers. */
  lemma PickedIff(q: Queue, random: real, i: nat)
    requires Valid(q) && Shuffles(q.mode) && Resumable(q.forward, q.cursor, |q.songs|) == [] && 0.0 <= random < 1.0
    requires i < |Choices(q)|
    ensures Gives(q, random) && q.songs != []
    ensures Advanced(q, random).0.cursor == Choices(q)[i]
      <==> i as real <= random * |Choices(q)| as real < i as real + 1.0
  {
    var choices, n := Choices(q), |q.songs|;
    DrawIff(random, |choices|, i);
    assert choices[i] in choices;
    Drawn(q, random);
    if Draw(random, |choices|) < i { assert choices[Draw(random, |choices|)] < choices[i]; }
    if Draw(random, |choices|) > i { assert choices[i] < choices[Draw(random, |choices|)]; }
  }

  lemma Drawn(q: Queue, random: real)
    requires Valid(q) && Shuffles(q.mode) && Resumable(q.forward, q.cursor, |q.songs|) == [] && 0.0 <= random < 1.0
    requires Choices(q) != [] && q.songs != []
    ensures Gives(q, random) && Advanced(q, random).0.cursor == Choices(q)[Draw(random, |Choices(q)|)]
  {
  }

  /** Every song in the bag is played for some random number. */
  lemma EverySongCanBePicked(q: Queue, song: int) returns (random: real)
    requires Valid(q) && Shuffles(q.mode) && Resumable(q.forward, q.cursor, |q.songs|) == []
    requires song in Choices(q)
    ensures 0.0 <= random < 1.0 && Advanced(q, random).1 && Advanced(q, random).0.cursor == song
  {
    var choices := Choices(q);
    var i :| 0 <= i < |choices| && choices[i] == song;
    random := Portion(i, |choices|);
    assert q.songs != [];
    Drawn(q, random);
  }

  lemma Portion(i: nat, n: nat) returns (random: real)
    requires i < n
    ensures 0.0 <= random < 1.0 && Draw(random, n) == i
  {
    random := i as real / n as real;
    Share(i, n);
    DrawIff(random, n, i);
  }

  lemma Share(i: nat, n: nat)
    requires i < n
    ensures 0.0 <= i as real / n as real < 1.0 && (i as real / n as real) * n as real == i as real
  {
  }
}
