/** The queue object itself: each method changes its fields as the specification in `PlayQueue` says. */
module MusicQueue {
  import opened Wrappers
  import opened PlayQueue

  class MusicQueue {
    var songs: seq<Song>
    var currentIndex: int
    var mode: PlayMode
    var playedIndices: set<int>
    var history: seq<int>
    var forwardStack: seq<int>

    ghost function View(): Queue
      reads this
    {
      Queue(songs, currentIndex, mode, playedIndices, history, forwardStack)
    }

    constructor ()
      ensures View() == EMPTY && Valid(View())
    {
      songs, currentIndex, mode, playedIndices, history, forwardStack := [], -1, RandomLoop, {}, [], [];
    }

    method PushHistory(index: int)
      modifies this`history
      ensures history == Pushed(old(history), index, |songs|)
    {
      if index < 0 || index >= |songs| { return; }
      history := history + [index];
      if |history| > HISTORY_LIMIT {
        history := history[1..];
      }
    }

    /** Enqueue a song; a human's goes before the radio fill. Returns where it was placed. */
    method Add(song: Song) returns (at: nat)
      requires Valid(View())
      modifies this
      ensures View() == Added(old(View()), song) && Valid(View())
      ensures at == AddSlot(old(songs), old(currentIndex), song)
    {
      ghost var was := View();
      InsertedIsValid(was, AddSlot(songs, currentIndex, song), song);
      if IsRadioFill(song) || |songs| == 0 {
        AppendShiftsNothing(was, song);
        songs := songs + [song];
        return |songs| - 1;
      }
      var start := if currentIndex < 0 then 0 else currentIndex + 1;
      var insertAt := |songs|;
      for i := start to |songs|
        invariant View() == was && insertAt == |songs|
        invariant FirstRadio(songs, start) == FirstRadio(songs, i)
      {
        if IsRadioFill(songs[i]) {
          insertAt := i;
          break;
        }
      }
      assert insertAt == FirstRadio(songs, start);
      if insertAt >= |songs| {
        AppendShiftsNothing(was, song);
        songs := songs + [song];
        return |songs| - 1;
      }
      songs := songs[..insertAt] + [song] + songs[insertAt..];
      ShiftIndicesAfterInsert(insertAt);
      return insertAt;
    }

    /** Index of the first inserted song when it was inserted, or -1 for an empty batch. */
    method AddMany(batch: seq<Song>) returns (first: int)
      requires Valid(View())
      modifies this
      ensures View() == AddedMany(old(View()), batch) && Valid(View())
      ensures first == if batch == [] then -1 else AddSlot(old(songs), old(currentIndex), batch[0])
    {
      first := -1;
      for i := 0 to |batch|
        invariant Valid(View()) && AddedMany(old(View()), batch) == AddedMany(View(), batch[i..])
        invariant first == if i == 0 then -1 else AddSlot(old(songs), old(currentIndex), batch[0])
        invariant i == 0 ==> View() == old(View())
      {
        assert batch[i..][1..] == batch[i + 1..];
        var at := Add(batch[i]);
        if first < 0 { first := at; }
      }
    }

    /** Insert a song right after the current one, or at the end when nothing is current. */
    method AddNext(song: Song)
      requires Valid(View())
      modifies this
      ensures View() == AddedNext(old(View()), song) && Valid(View())
    {
      ghost var was := View();
      InsertedIsValid(was, NextSlot(songs, currentIndex), WithSource(song));
      var withSource := WithSource(song);
      if currentIndex < 0 || |songs| == 0 {
        AppendShiftsNothing(was, withSource);
        songs := songs + [withSource];
        return;
      }
      var insertAt := currentIndex + 1;
      songs := songs[..insertAt] + [withSource] + songs[insertAt..];
      ShiftIndicesAfterInsert(insertAt);
    }

    method ShiftIndicesAfterInsert(insertAt: int)
      modifies this`playedIndices, this`history, this`forwardStack
      ensures playedIndices == set i | i in old(playedIndices) :: ShiftUp(i, insertAt)
      ensures history == Shifted(old(history), insertAt) && forwardStack == Shifted(old(forwardStack), insertAt)
    {
      playedIndices := set i | i in playedIndices :: ShiftUp(i, insertAt);
      history := Shifted(history, insertAt);
      forwardStack := Shifted(forwardStack, insertAt);
    }

    method Remove(index: int) returns (song: Option<Song>)
      requires Valid(View())
      modifies this
      ensures View() == Removed(old(View()), index) && Valid(View())
      ensures song == if 0 <= index < |old(songs)| then Some(old(songs)[index]) else None
    {
      ghost var was := View();
      StepIsValid(was, Step.Remove(index));
      if index < 0 || index >= |songs| { return None; }
      song := Some(songs[index]);
      songs := songs[..index] + songs[index + 1..];
      if index <= currentIndex {
        currentIndex := currentIndex - 1;
      }
      playedIndices := set i | i in playedIndices && i != index :: ShiftDown(i, index);
      history := Dropped(history, index);
      forwardStack := Dropped(forwardStack, index);
    }

    method Clear()
      modifies this
      ensures View() == Cleared(old(View())) && Valid(View())
    {
      songs, currentIndex, playedIndices, history, forwardStack := [], -1, {}, [], [];
    }

    method Play() returns (song: Option<Song>)
      requires Valid(View())
      modifies this
      ensures View() == Played(old(View())) && Valid(View())
      ensures song == if songs == [] then None else Some(songs[0])
    {
      if |songs| == 0 { return None; }
      history, forwardStack, currentIndex, playedIndices := [], [], 0, {0};
      return Some(songs[0]);
    }

    method PlayAt(index: int) returns (song: Option<Song>)
      requires Valid(View())
      modifies this
      ensures View() == PlayedAt(old(View()), index) && Valid(View())
      ensures song == if 0 <= index < |songs| then Some(songs[index]) else None
    {
      StepIsValid(View(), Step.PlayAt(index));
      if index < 0 || index >= |songs| { return None; }
      PushHistory(currentIndex);
      playedIndices, forwardStack, currentIndex := {index}, [], index;
      return Some(songs[index]);
    }

    /** Advance. `random` is what `Math.random()` returns if the shuffle bag is asked. */
    method Next(random: real) returns (song: Option<Song>)
      requires Valid(View()) && 0.0 <= random < 1.0
      modifies this
      ensures View() == Advanced(old(View()), random).0 && Valid(View())
      ensures song == if Advanced(old(View()), random).1 then Some(songs[currentIndex]) else None
    {
      AdvancedIsValid(View(), random);
      if |songs| == 0 { return None; }
      match mode {
        case Sequential =>
          var nextIndex := currentIndex + 1;
          if nextIndex >= |songs| { return None; }
          PushHistory(currentIndex);
          currentIndex := nextIndex;
          return Some(songs[nextIndex]);
        case Loop =>
          PushHistory(currentIndex);
          currentIndex := (currentIndex + 1) % |songs|;
          return Some(songs[currentIndex]);
        case _ =>
          song := NextShuffled(random);
      }
    }

    method NextShuffled(random: real) returns (song: Option<Song>)
      requires Valid(View()) && 0.0 <= random < 1.0 && songs != [] && Shuffles(mode)
      modifies this
      ensures View() == Advanced(old(View()), random).0
      ensures song == if Advanced(old(View()), random).1 then Some(songs[currentIndex]) else None
    {
      ghost var was := View();
      while |forwardStack| > 0
        invariant View().(forward := was.forward) == was
        invariant Resumable(forwardStack, currentIndex, |songs|) == Resumable(was.forward, was.cursor, |was.songs|)
      {
        var target := forwardStack[|forwardStack| - 1];
        forwardStack := forwardStack[..|forwardStack| - 1];
        if target < 0 || target >= |songs| || target == currentIndex { continue; }
        PushHistory(currentIndex);
        currentIndex, playedIndices := target, playedIndices + {target};
        return Some(songs[target]);
      }
      assert View() == was.(forward := []);
      song := Shuffle(random);
    }

    method Shuffle(random: real) returns (song: Option<Song>)
      requires Valid(View()) && 0.0 <= random < 1.0 && songs != []
      modifies this
      ensures View() == Shuffled(old(View()), random).0
      ensures song == if Shuffled(old(View()), random).1 then Some(songs[currentIndex]) else None
    {
      ShuffledIsValid(View(), random);
      var unplayed := IndicesExcept(|songs|, playedIndices);
      if |unplayed| == 0 {
        if mode == Random { return None; }
        if |songs| == 1 {
          PushHistory(currentIndex);
          currentIndex, playedIndices := 0, {0};
          return Some(songs[0]);
        }
        OthersExist(|songs|, currentIndex);
        playedIndices := {};
        unplayed := IndicesOtherThan(|songs|, currentIndex);
      }
      var nextIndex := unplayed[Draw(random, |unplayed|)];
      assert nextIndex in unplayed;
      PushHistory(currentIndex);
      currentIndex, playedIndices := nextIndex, playedIndices + {nextIndex};
      return Some(songs[nextIndex]);
    }

    static method IndicesExcept(n: nat, skip: set<int>) returns (picks: seq<int>)
      ensures picks == Unplayed(n, skip)
    {
      picks := [];
      for i := 0 to n
        invariant picks == Unplayed(i, skip)
      {
        if i !in skip { picks := picks + [i]; }
      }
    }

    static method IndicesOtherThan(n: nat, cursor: int) returns (picks: seq<int>)
      ensures picks == Others(n, cursor)
    {
      picks := [];
      for i := 0 to n
        invariant picks == Others(i, cursor)
      {
        if i != cursor { picks := picks + [i]; }
      }
    }

    /** Pop the back-stack down to an index that still exists; nothing is assumed about its entries. */
    method PopHistory() returns (index: int)
      modifies this`history
      ensures var rest := Returnable(old(history), |songs|);
        if rest == [] then index == -1 && history == []
        else index == rest[|rest| - 1] && history == rest[..|rest| - 1]
    {
      while |history| > 0
        invariant Returnable(history, |songs|) == Returnable(old(history), |songs|)
      {
        index := history[|history| - 1];
        history := history[..|history| - 1];
        if index >= 0 && index < |songs| { return; }
      }
      index := -1;
    }

    method Prev() returns (song: Option<Song>)
      requires Valid(View())
      modifies this
      ensures View() == SteppedBack(old(View())).0 && Valid(View())
      ensures song == if SteppedBack(old(View())).1 then Some(songs[currentIndex]) else None
    {
      ghost var was := View();
      SteppedBackIsValid(was);
      if |songs| == 0 { return None; }
      if currentIndex >= 0 && |forwardStack| < HISTORY_LIMIT {
        forwardStack := forwardStack + [currentIndex];
      }
      var index := PopHistory();
      if index >= 0 {
        currentIndex, playedIndices := index, playedIndices + {index};
        return Some(songs[index]);
      }
      song := PrevSlot();
    }

    /** Nothing to walk back through: step the index, except in the shuffle modes. */
    method PrevSlot() returns (song: Option<Song>)
      requires songs != [] && -1 <= currentIndex < |songs|
      modifies this`currentIndex, this`playedIndices
      ensures song == None ==> currentIndex == old(currentIndex) && playedIndices == old(playedIndices)
      ensures song == None <==> Shuffles(mode) || (mode == Sequential && old(currentIndex) <= 0)
      ensures song != None ==>
        && currentIndex == (if old(currentIndex) <= 0 then |songs| - 1 else old(currentIndex) - 1)
        && playedIndices == old(playedIndices) + {currentIndex} && song == Some(songs[currentIndex])
    {
      if mode == Random || mode == RandomLoop { return None; }
      var prevIndex := currentIndex - 1;
      if prevIndex < 0 {
        if mode == Sequential { return None; }
        currentIndex := |songs| - 1;
      } else {
        currentIndex := prevIndex;
      }
      playedIndices := playedIndices + {currentIndex};
      return Some(songs[currentIndex]);
    }

    method SetMode(newMode: PlayMode)
      requires Valid(View())
      modifies this
      ensures View() == ModeSet(old(View()), newMode) && Valid(View())
    {
      mode := newMode;
      playedIndices, history, forwardStack := {}, [], [];
      if currentIndex >= 0 {
        playedIndices := playedIndices + {currentIndex};
      }
    }
  }

  lemma AppendShiftsNothing(q: Queue, song: Song)
    requires Valid(q)
    ensures Inserted(q, |q.songs|, song) == q.(songs := q.songs + [song])
  {
    var n := |q.songs|;
    assert Insert(q.songs, n, song) == q.songs + [song];
    var same := set i | i in q.played :: ShiftUp(i, n);
    forall i ensures i in same <==> i in q.played {
      if i in q.played { assert ShiftUp(i, n) == i; }
    }
  }
}
