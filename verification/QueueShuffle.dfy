/** Whole runs of `next()` in the random modes: the shuffle bag. */
module QueueShuffle {
  import opened PlayQueue

  /** A run of `next()` calls: the queue before the first, and after each. */
  ghost predicate Nexts(queues: seq<Queue>, randoms: seq<real>) {
    && |queues| == |randoms| + 1
    && (forall i :: 0 <= i < |queues| ==> Valid(queues[i]))
    && (forall i :: 0 <= i < |randoms| ==> 0.0 <= randoms[i] < 1.0 && NextAt(queues, randoms, i))
  }

  ghost predicate NextAt(queues: seq<Queue>, randoms: seq<real>, i: nat)
    requires i < |randoms| && i + 1 < |queues|
  {
    NextIs(queues[i], randoms[i], queues[i + 1])
  }

  ghost predicate NextIs(q: Queue, random: real, next: Queue) {
    Valid(q) && 0.0 <= random < 1.0 && next == Advanced(q, random).0
  }

  /** A queue in a shuffle mode with nothing to resume. */
  ghost predicate Bagging(q: Queue) {
    Valid(q) && q.songs != [] && Shuffles(q.mode) && q.forward == []
  }

  /** Songs left in the bag. */
  function Left(q: Queue): nat {
    |Unplayed(|q.songs|, q.played)|
  }

  /** The songs played by a run, by index. */
  function Picks(queues: seq<Queue>): (picks: seq<int>)
    ensures |picks| == if queues == [] then 0 else |queues| - 1
    ensures forall i :: 0 <= i < |picks| ==> picks[i] == queues[i + 1].cursor
  {
    if queues == [] then [] else seq(|queues| - 1, i requires 0 <= i < |queues| - 1 => queues[i + 1].cursor)
  }

  ghost predicate Different(picks: seq<int>) {
    forall i, j :: 0 <= i < j < |picks| ==> picks[i] != picks[j]
  }

  /** Every index below `n`, each exactly once. */
  ghost predicate Permutation(picks: seq<int>, n: nat) {
    |picks| == n && InRange(picks, n) && Different(picks) && forall k :: 0 <= k < n ==> k in picks
  }

  // ---- One draw ----

  lemma {:induction false} OneFewerLeft(n: nat, played: set<int>, pick: int)
    requires 0 <= pick && pick !in played
    ensures |Unplayed(n, played)| == |Unplayed(n, played + {pick})| + if pick < n then 1 else 0
  {
    if n > 0 { OneFewerLeft(n - 1, played, pick); }
  }

  lemma {:induction false} AllLeft(n: nat)
    ensures |Unplayed(n, {})| == n
  {
    if n > 0 { AllLeft(n - 1); }
  }

  lemma {:induction false} SelectAtMost(n: nat, keep: int -> bool)
    ensures |Select(n, keep)| <= n
    ensures |Select(n, keep)| == n ==> forall k :: 0 <= k < n ==> keep(k)
  {
    if n > 0 { SelectAtMost(n - 1, keep); }
  }

  /** What a bag is: the cursor, the songs played from it, and how many are left of `n`. */
  datatype Bag = Bag(cursor: int, played: set<int>, left: nat)

  function BagOf(q: Queue): Bag {
    Bag(q.cursor, q.played, Left(q))
  }

  ghost predicate SoundBag(b: Bag, n: nat) {
    && (forall k :: k in b.played ==> 0 <= k < n)
    && b.left <= n && (b.left == n ==> b.played == {})
    && (b.left == 0 ==> forall k :: 0 <= k < n ==> k in b.played)
  }

  /** A draw takes a song that was still in the bag. */
  ghost predicate Taken(b: Bag, c: Bag, n: nat) {
    && 0 <= c.cursor < n && c.cursor !in b.played
    && c.played == b.played + {c.cursor} && c.left == b.left - 1
  }

  /** A draw opens a new bag with every song but the one just played. */
  ghost predicate Reopened(b: Bag, c: Bag, n: nat) {
    0 <= c.cursor < n && c.cursor != b.cursor && c.played == {c.cursor} && c.left == n - 1
  }

  lemma BagIsSound(q: Queue)
    requires Valid(q)
    ensures SoundBag(BagOf(q), |q.songs|)
  {
    var n := |q.songs|;
    var unplayed := Unplayed(n, q.played);
    assert forall k :: 0 <= k < n && k !in q.played ==> k in unplayed;
    SelectAtMost(n, i => i !in q.played);
    if |unplayed| == n {
      forall k ensures k !in q.played {
        if 0 <= k < n { assert (i => i !in q.played)(k); }
      }
    }
  }

  /** One `next()`: from the bag while it lasts; then a new bag in RandomLoop, and nothing in Random. */
  lemma OneDraw(q: Queue, random: real)
    requires Bagging(q) && 0.0 <= random < 1.0
    ensures var (next, ok) := Advanced(q, random);
      && Valid(next) && next.songs == q.songs && next.mode == q.mode && next.forward == []
      && (Left(q) > 0 ==> ok && Taken(BagOf(q), BagOf(next), |q.songs|))
      && (Left(q) == 0 && q.mode == Random ==> !ok && next == q)
      && (Left(q) == 0 && q.mode == RandomLoop && |q.songs| >= 2 ==> ok && Reopened(BagOf(q), BagOf(next), |q.songs|))
  {
    AdvancedIsValid(q, random);
    var n := |q.songs|;
    var unplayed := Unplayed(n, q.played);
    if unplayed != [] {
      var pick := unplayed[Draw(random, |unplayed|)];
      assert pick in unplayed;
      OneFewerLeft(n, q.played, pick);
    } else if q.mode == RandomLoop && n >= 2 {
      OthersExist(n, q.cursor);
      var others := Others(n, q.cursor);
      var pick := others[Draw(random, |others|)];
      assert pick in others;
      AllLeft(n);
      OneFewerLeft(n, {}, pick);
      assert {} + {pick} == {pick};
    }
  }

  // ---- Runs of draws ----

  /** Bags connected by draws. */
  ghost predicate BagRun(bags: seq<Bag>, n: nat) {
    && (forall i :: 0 <= i < |bags| ==> SoundBag(bags[i], n))
    && (forall i :: 0 <= i < |bags| - 1 ==> TurnAt(bags, i, n))
  }

  ghost predicate TurnAt(bags: seq<Bag>, i: nat, n: nat)
    requires i + 1 < |bags|
  {
    BagTurn(bags[i], bags[i + 1], n)
  }

  ghost predicate BagTurn(b: Bag, c: Bag, n: nat) {
    (b.left > 0 && Taken(b, c, n)) || (b.left == 0 && Reopened(b, c, n))
  }

  function Bags(queues: seq<Queue>): (bags: seq<Bag>)
    ensures |bags| == |queues| && forall i :: 0 <= i < |bags| ==> bags[i] == BagOf(queues[i])
  {
    seq(|queues|, i requires 0 <= i < |queues| => BagOf(queues[i]))
  }

  function Cursors(bags: seq<Bag>): (picks: seq<int>)
    ensures |picks| == if bags == [] then 0 else |bags| - 1
    ensures forall i :: 0 <= i < |picks| ==> picks[i] == bags[i + 1].cursor
  {
    if bags == [] then [] else seq(|bags| - 1, i requires 0 <= i < |bags| - 1 => bags[i + 1].cursor)
  }

  /** The next `m` draws, while the bag lasts, are different songs that were not played from it. */
  lemma {:induction false} WithinBag(bags: seq<Bag>, n: nat, from: nat, m: nat)
    requires BagRun(bags, n) && from + m < |bags| && m <= bags[from].left
    ensures bags[from + m].left == bags[from].left - m
    ensures forall k :: k in bags[from + m].played <==> k in bags[from].played || Among(bags, from, m, k)
    ensures forall i, j :: from < i < j <= from + m ==> bags[i].cursor != bags[j].cursor
    ensures forall i :: from < i <= from + m ==> bags[i].cursor !in bags[from].played
  {
    if m > 0 {
      WithinBag(bags, n, from, m - 1);
      var b, c := bags[from + m - 1], bags[from + m];
      assert TurnAt(bags, from + m - 1, n);
      forall k ensures k in c.played <==> k in bags[from].played || Among(bags, from, m, k) {
        if Among(bags, from, m - 1, k) {
          var i :| from < i <= from + m - 1 && bags[i].cursor == k;
        }
      }
      forall i | from < i < from + m ensures bags[i].cursor != c.cursor {
        assert Among(bags, from, m - 1, bags[i].cursor);
      }
    }
  }

  ghost predicate Among(bags: seq<Bag>, from: nat, m: nat, k: int)
    requires from + m < |bags|
  {
    exists i :: from < i <= from + m && bags[i].cursor == k
  }

  /** From an empty bag, the next `n` draws are a permutation and leave the bag empty. */
  lemma FullCycle(bags: seq<Bag>, n: nat, from: nat)
    requires BagRun(bags, n) && n >= 1 && from + n < |bags| && bags[from].left == 0
    ensures bags[from + n].left == 0
    ensures IsCycle(bags, n, from)
  {
    assert TurnAt(bags, from, n);
    WithinBag(bags, n, from + 1, n - 1);
    forall k | 0 <= k < n ensures Among(bags, from, n, k) {
      assert k in bags[from + n].played;
      if k in bags[from + 1].played {
        assert bags[from + 1].cursor == k;
      } else {
        assert Among(bags, from + 1, n - 1, k);
      }
    }
  }

  /** The `n` draws after `from` are all different songs, and all of them. */
  ghost predicate IsCycle(bags: seq<Bag>, n: nat, from: nat)
    requires from + n < |bags|
  {
    && (forall i, j :: from < i < j <= from + n ==> bags[i].cursor != bags[j].cursor)
    && (forall k :: 0 <= k < n ==> Among(bags, from, n, k))
  }

  lemma {:induction false} CyclesFrom(bags: seq<Bag>, n: nat, from: nat, cycle: nat)
    requires BagRun(bags, n) && n >= 1 && from + cycle * n + n < |bags| && bags[from].left == 0
    ensures bags[from + cycle * n].left == 0 && IsCycle(bags, n, from + cycle * n)
    decreases cycle
  {
    if cycle == 0 {
      FullCycle(bags, n, from);
    } else {
      assert cycle * n == (cycle - 1) * n + n && (cycle - 1) * n >= 0;
      FullCycle(bags, n, from);
      CyclesFrom(bags, n, from + n, cycle - 1);
    }
  }

  lemma CycleIsPermutation(bags: seq<Bag>, n: nat, from: nat)
    requires BagRun(bags, n) && from + n < |bags| && IsCycle(bags, n, from)
    ensures Permutation(Cursors(bags)[from..from + n], n)
  {
    var picks := Cursors(bags)[from..from + n];
    forall i | 0 <= i < n ensures 0 <= picks[i] < n && picks[i] == bags[from + 1 + i].cursor {
      assert TurnAt(bags, from + i, n);
    }
    forall k | 0 <= k < n ensures k in picks {
      assert Among(bags, from, n, k);
      var i :| from < i <= from + n && bags[i].cursor == k;
      assert picks[i - from - 1] == k;
    }
  }

  /** Wherever one starts, a whole cycle begins less than `n` draws later. */
  lemma CycleAhead(bags: seq<Bag>, n: nat, from: nat) returns (start: nat)
    requires BagRun(bags, n) && n >= 1 && from + 2 * n - 1 < |bags|
    ensures from <= start < from + n && IsCycle(bags, n, start)
  {
    var left := bags[from].left;
    WithinBag(bags, n, from, left);
    start := if left == n then from else from + left;
    if left < n {
      FullCycle(bags, n, start);
    } else {
      forall k | 0 <= k < n ensures Among(bags, from, n, k) {
        assert k in bags[from + n].played;
      }
    }
  }

  lemma WhereInWindow(bags: seq<Bag>, n: nat, from: nat, song: nat) returns (i: nat)
    requires BagRun(bags, n) && n >= 1 && from + 2 * n - 1 < |bags| && song < n
    ensures from < i <= from + 2 * n - 1 && bags[i].cursor == song
  {
    var start := CycleAhead(bags, n, from);
    assert Among(bags, start, n, song);
    i :| start < i <= start + n && bags[i].cursor == song;
  }

  lemma BagWindow(bags: seq<Bag>, n: nat, from: nat, song: nat)
    requires BagRun(bags, n) && n >= 1 && from + 2 * n - 1 < |bags| && song < n
    ensures song in Cursors(bags)[from..from + 2 * n - 1]
  {
    var i := WhereInWindow(bags, n, from, song);
    InWindow(Cursors(bags), from, from + 2 * n - 1, i - 1);
  }

  lemma InWindow(picks: seq<int>, from: nat, to: nat, i: nat)
    requires from <= i < to <= |picks|
    ensures picks[i] in picks[from..to]
  {
    assert picks[from..to][i - from] == picks[i];
  }

  // ---- Queues are bags ----

  lemma DrawIsTurn(q: Queue, random: real, next: Queue)
    requires Bagging(q) && q.mode == RandomLoop && |q.songs| >= 2 && NextIs(q, random, next)
    ensures Bagging(next) && next.mode == q.mode && next.songs == q.songs
    ensures BagTurn(BagOf(q), BagOf(next), |q.songs|)
  {
    OneDraw(q, random);
  }

  /** A run of `next()` in RandomLoop is a run of bags; its picks are the bags' cursors. */
  lemma LoopIsBagRun(queues: seq<Queue>, randoms: seq<real>)
    requires Nexts(queues, randoms) && Bagging(queues[0])
    requires queues[0].mode == RandomLoop && |queues[0].songs| >= 2
    ensures BagRun(Bags(queues), |queues[0].songs|) && Picks(queues) == Cursors(Bags(queues))
  {
    var n := |queues[0].songs|;
    var i := 0;
    while i < |randoms|
      invariant 0 <= i <= |randoms|
      invariant Bagging(queues[i]) && queues[i].mode == RandomLoop && queues[i].songs == queues[0].songs
      invariant forall k :: 0 <= k < i ==> TurnAt(Bags(queues), k, n)
      invariant forall k :: 0 <= k <= i ==> |queues[k].songs| == n
    {
      assert NextAt(queues, randoms, i);
      DrawIsTurn(queues[i], randoms[i], queues[i + 1]);
      i := i + 1;
    }
    forall k | 0 <= k < |queues| ensures SoundBag(BagOf(queues[k]), n) {
      BagIsSound(queues[k]);
    }
  }

  // ---- Main results ----

  /** RandomLoop: after the songs left in the bag, the picks split into cycles that are permutations of the queue. */
  lemma CyclesArePermutations(queues: seq<Queue>, randoms: seq<real>, cycle: nat)
    requires Nexts(queues, randoms) && Bagging(queues[0])
    requires queues[0].mode == RandomLoop && |queues[0].songs| >= 2
    requires Left(queues[0]) + cycle * |queues[0].songs| + |queues[0].songs| <= |randoms|
    ensures var n, first, picks := |queues[0].songs|, Left(queues[0]), Picks(queues);
      && Permutation(picks[first + cycle * n..first + cycle * n + n], n)
      && Different(picks[..first]) && forall i :: 0 <= i < first ==> picks[i] !in queues[0].played
  {
    LoopIsBagRun(queues, randoms);
    BagCycles(Bags(queues), |queues[0].songs|, cycle);
  }

  lemma BagCycles(bags: seq<Bag>, n: nat, cycle: nat)
    requires BagRun(bags, n) && n >= 1 && bags != [] && bags[0].left + cycle * n + n < |bags|
    ensures var first, picks := bags[0].left, Cursors(bags);
      && Permutation(picks[first + cycle * n..first + cycle * n + n], n)
      && Different(picks[..first]) && forall i :: 0 <= i < first ==> picks[i] !in bags[0].played
  {
    var first, ahead := bags[0].left, cycle * n;
    FirstBag(bags, n);
    CyclesFrom(bags, n, first, cycle);
    CycleIsPermutation(bags, n, first + ahead);
  }

  lemma FirstBag(bags: seq<Bag>, n: nat)
    requires BagRun(bags, n) && bags != [] && bags[0].left < |bags|
    ensures var first, picks := bags[0].left, Cursors(bags);
      && bags[first].left == 0
      && Different(picks[..first]) && forall i :: 0 <= i < first ==> picks[i] !in bags[0].played
  {
    WithinBag(bags, n, 0, bags[0].left);
  }

  /** RandomLoop: no song plays twice in a row, across cycle boundaries too. */
  lemma NeverTwiceInARow(queues: seq<Queue>, randoms: seq<real>, i: nat)
    requires Nexts(queues, randoms) && Bagging(queues[0]) && i + 1 < |queues|
    requires queues[0].mode == RandomLoop && |queues[0].songs| >= 2
    requires i > 0 || queues[0].cursor in queues[0].played || Left(queues[0]) == 0
    ensures queues[i + 1].cursor != queues[i].cursor
  {
    LoopIsBagRun(queues, randoms);
    BagNeverRepeats(Bags(queues), |queues[0].songs|, i);
  }

  lemma BagNeverRepeats(bags: seq<Bag>, n: nat, i: nat)
    requires BagRun(bags, n) && i + 1 < |bags|
    requires i > 0 || bags[0].cursor in bags[0].played || bags[0].left == 0
    ensures bags[i + 1].cursor != bags[i].cursor
  {
    assert TurnAt(bags, i, n);
    if i > 0 { assert TurnAt(bags, i - 1, n); }
  }

  /** RandomLoop: any 2n-1 picks in a row contain every song. */
  lemma EveryWindowHasEverySong(queues: seq<Queue>, randoms: seq<real>, from: nat, song: nat)
    requires Nexts(queues, randoms) && Bagging(queues[0])
    requires queues[0].mode == RandomLoop && |queues[0].songs| >= 2 && song < |queues[0].songs|
    requires from + 2 * |queues[0].songs| - 1 <= |randoms|
    ensures song in Picks(queues)[from..from + 2 * |queues[0].songs| - 1]
  {
    LoopIsBagRun(queues, randoms);
    BagWindow(Bags(queues), |queues[0].songs|, from, song);
  }

  /** Random: exactly the songs left in the bag are picked, each once; from then on `next()` gives nothing. */
  lemma RandomStopsAfterOneCycle(queues: seq<Queue>, randoms: seq<real>)
    requires Nexts(queues, randoms) && Bagging(queues[0]) && queues[0].mode == Random
    requires |randoms| >= Left(queues[0])
    ensures var n, m, picks := |queues[0].songs|, Left(queues[0]), Picks(queues);
      && Different(picks[..m]) && (forall k :: 0 <= k < n ==> (k in picks[..m] <==> k !in queues[0].played))
      && (forall i :: 0 <= i < |randoms| ==> (Gives(queues[i], randoms[i]) <==> i < m))
      && (forall i :: m <= i < |queues| ==> queues[i] == queues[m])
  {
    RandomRun(queues, randoms);
    var m := Left(queues[0]);
    assert Picks(queues)[..m] == Cursors(Bags(queues)[..m + 1]);
    BagEmpties(Bags(queues)[..m + 1], |queues[0].songs|);
  }

  /** Whether `next()` returns a song. */
  ghost predicate Gives(q: Queue, random: real) {
    Valid(q) && 0.0 <= random < 1.0 && Advanced(q, random).1
  }

  lemma BagEmpties(bags: seq<Bag>, n: nat)
    requires BagRun(bags, n) && bags != [] && |bags| == bags[0].left + 1
    ensures Different(Cursors(bags)) && forall k :: 0 <= k < n ==> (k in Cursors(bags) <==> k !in bags[0].played)
  {
    var m := bags[0].left;
    WithinBag(bags, n, 0, m);
    forall k | 0 <= k < n ensures k in Cursors(bags) <==> k !in bags[0].played {
      assert k in bags[m].played;
      if Among(bags, 0, m, k) {
        var i :| 0 < i <= m && bags[i].cursor == k;
        assert Cursors(bags)[i - 1] == k;
      }
    }
  }

  /** One `next()` in Random. */
  ghost predicate RandomTurn(q: Queue, random: real, next: Queue, n: nat) {
    if Left(q) > 0 then Gives(q, random) && BagTurn(BagOf(q), BagOf(next), n) else !Gives(q, random) && next == q
  }

  ghost predicate RandomAt(queues: seq<Queue>, randoms: seq<real>, i: nat, n: nat)
    requires i < |randoms| && i + 1 < |queues|
  {
    RandomTurn(queues[i], randoms[i], queues[i + 1], n)
  }

  lemma DrawInRandom(q: Queue, random: real, next: Queue)
    requires Bagging(q) && q.mode == Random && NextIs(q, random, next)
    ensures Bagging(next) && next.mode == q.mode && next.songs == q.songs
    ensures RandomTurn(q, random, next, |q.songs|)
  {
    OneDraw(q, random);
  }

  lemma RandomTurns(queues: seq<Queue>, randoms: seq<real>)
    requires Nexts(queues, randoms) && Bagging(queues[0]) && queues[0].mode == Random
    ensures forall k :: 0 <= k < |randoms| ==> RandomAt(queues, randoms, k, |queues[0].songs|)
    ensures forall k :: 0 <= k < |queues| ==> SoundBag(BagOf(queues[k]), |queues[0].songs|)
  {
    var n, i := |queues[0].songs|, 0;
    while i < |randoms|
      invariant 0 <= i <= |randoms|
      invariant Bagging(queues[i]) && queues[i].mode == Random
      invariant forall k :: 0 <= k < i ==> RandomAt(queues, randoms, k, n)
      invariant forall k :: 0 <= k <= i ==> |queues[k].songs| == n
    {
      assert NextAt(queues, randoms, i);
      DrawInRandom(queues[i], randoms[i], queues[i + 1]);
      i := i + 1;
    }
    forall k | 0 <= k < |queues| ensures SoundBag(BagOf(queues[k]), n) {
      BagIsSound(queues[k]);
    }
  }

  /** The bag runs down by one each time, and then the queue stands still. */
  lemma {:induction false} RunsDown(queues: seq<Queue>, randoms: seq<real>, n: nat, i: nat)
    requires |queues| == |randoms| + 1 && i < |queues|
    requires forall k :: 0 <= k < |randoms| ==> RandomAt(queues, randoms, k, n)
    ensures var m := Left(queues[0]);
      Left(queues[i]) == (if i <= m then m - i else 0) && (m <= i ==> queues[i] == queues[m])
  {
    if i > 0 {
      RunsDown(queues, randoms, n, i - 1);
      assert RandomAt(queues, randoms, i - 1, n);
    }
  }

  lemma RandomRun(queues: seq<Queue>, randoms: seq<real>)
    requires Nexts(queues, randoms) && Bagging(queues[0]) && queues[0].mode == Random
    requires |randoms| >= Left(queues[0])
    ensures var m := Left(queues[0]);
      && BagRun(Bags(queues)[..m + 1], |queues[0].songs|)
      && (forall i :: 0 <= i < |randoms| ==> (Gives(queues[i], randoms[i]) <==> i < m))
      && (forall i :: m <= i < |queues| ==> queues[i] == queues[m])
  {
    RandomTurns(queues, randoms);
    RandomCount(queues, randoms, |queues[0].songs|);
  }

  lemma RandomCount(queues: seq<Queue>, randoms: seq<real>, n: nat)
    requires |queues| == |randoms| + 1 && |randoms| >= Left(queues[0])
    requires forall k :: 0 <= k < |randoms| ==> RandomAt(queues, randoms, k, n)
    requires forall k :: 0 <= k < |queues| ==> SoundBag(BagOf(queues[k]), n)
    ensures var m := Left(queues[0]);
      && BagRun(Bags(queues)[..m + 1], n)
      && (forall i :: 0 <= i < |randoms| ==> (Gives(queues[i], randoms[i]) <==> i < m))
      && (forall i :: m <= i < |queues| ==> queues[i] == queues[m])
  {
    forall i | 0 <= i < |queues|
      ensures Left(queues[i]) == (if i <= Left(queues[0]) then Left(queues[0]) - i else 0)
      ensures Left(queues[0]) <= i ==> queues[i] == queues[Left(queues[0])]
    {
      RunsDown(queues, randoms, n, i);
    }
    forall i | 0 <= i < |randoms|
      ensures Gives(queues[i], randoms[i]) <==> i < Left(queues[0])
      ensures i < Left(queues[0]) ==> TurnAt(Bags(queues)[..Left(queues[0]) + 1], i, n)
    {
      assert RandomAt(queues, randoms, i, n);
    }
  }
}
