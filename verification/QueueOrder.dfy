/** Human requests before radio fill: where songs land and what keeps the order. */
module QueueOrder {
  import opened PlayQueue

  /** What is still to come. */
  function Tail(q: Queue): seq<Song>
    requires -1 <= q.cursor < |q.songs|
  {
    q.songs[q.cursor + 1..]
  }

  function Fillers(songs: seq<Song>): seq<Song> {
    if songs == [] then [] else (if IsRadioFill(songs[0]) then [songs[0]] else []) + Fillers(songs[1..])
  }

  function Humans(songs: seq<Song>): seq<Song> {
    if songs == [] then [] else (if IsRadioFill(songs[0]) then [] else [songs[0]]) + Humans(songs[1..])
  }

  /** Human tracks, then radio tracks. */
  ghost predicate Arranged(songs: seq<Song>) {
    forall i, j :: 0 <= i < j < |songs| && IsRadioFill(songs[i]) ==> IsRadioFill(songs[j])
  }

  ghost predicate AllHuman(songs: seq<Song>) {
    forall i :: 0 <= i < |songs| ==> !IsRadioFill(songs[i])
  }

  ghost predicate AllRadio(songs: seq<Song>) {
    forall i :: 0 <= i < |songs| ==> IsRadioFill(songs[i])
  }

  lemma {:induction false} OnlyHumans(songs: seq<Song>)
    requires AllHuman(songs)
    ensures Humans(songs) == songs && Fillers(songs) == []
  {
    if songs != [] { OnlyHumans(songs[1..]); }
  }

  lemma {:induction false} OnlyRadio(songs: seq<Song>)
    requires AllRadio(songs)
    ensures Humans(songs) == [] && Fillers(songs) == songs
  {
    if songs != [] { OnlyRadio(songs[1..]); }
  }

  lemma {:induction false} HumansOfBoth(a: seq<Song>, b: seq<Song>)
    ensures Humans(a + b) == Humans(a) + Humans(b)
  {
    if a == [] {
      assert a + b == b;
    } else {
      assert (a + b)[0] == a[0] && (a + b)[1..] == a[1..] + b;
      HumansOfBoth(a[1..], b);
      Assoc(Humans([a[0]]), Humans(a[1..]), Humans(b));
    }
  }

  lemma {:induction false} FillersOfBoth(a: seq<Song>, b: seq<Song>)
    ensures Fillers(a + b) == Fillers(a) + Fillers(b)
  {
    if a == [] {
      assert a + b == b;
    } else {
      assert (a + b)[0] == a[0] && (a + b)[1..] == a[1..] + b;
      FillersOfBoth(a[1..], b);
      Assoc(Fillers([a[0]]), Fillers(a[1..]), Fillers(b));
    }
  }

  /** The list is these human tracks followed by these radio tracks. */
  ghost predicate IsSplit(songs: seq<Song>, humans: seq<Song>, radio: seq<Song>) {
    songs == humans + radio && AllHuman(humans) && AllRadio(radio)
  }

  lemma SplitIsArranged(songs: seq<Song>, humans: seq<Song>, radio: seq<Song>)
    requires IsSplit(songs, humans, radio)
    ensures Arranged(songs) && humans == Humans(songs) && radio == Fillers(songs)
  {
    OnlyHumans(humans);
    OnlyRadio(radio);
    HumansOfBoth(humans, radio);
    FillersOfBoth(humans, radio);
  }

  lemma ArrangedIsSplit(songs: seq<Song>)
    requires Arranged(songs)
    ensures IsSplit(songs, Humans(songs), Fillers(songs))
  {
    var at := FirstRadio(songs, 0);
    assert songs == songs[..at] + songs[at..];
    assert AllRadio(songs[at..]) by {
      forall i | 0 <= i < |songs| - at ensures IsRadioFill(songs[at..][i]) { assert IsRadioFill(songs[at + i]); }
    }
    SplitIsArranged(songs, songs[..at], songs[at..]);
  }

  /** In a split list the first radio track stands where the human tracks end. */
  lemma {:induction false} FirstRadioEndsHumans(songs: seq<Song>, start: nat, humans: seq<Song>, radio: seq<Song>)
    requires start <= |songs| && IsSplit(songs[start..], humans, radio)
    ensures FirstRadio(songs, start) == start + |humans|
    decreases |humans|
  {
    if humans == [] {
      assert radio != [] ==> songs[start..][0] == radio[0];
    } else {
      assert songs[start..][0] == humans[0];
      assert songs[start + 1..] == songs[start..][1..] == humans[1..] + radio;
      FirstRadioEndsHumans(songs, start + 1, humans[1..], radio);
    }
  }

  lemma InsertTail(songs: seq<Song>, start: nat, at: nat, song: Song)
    requires start <= at <= |songs|
    ensures Insert(songs, at, song)[..start] == songs[..start]
    ensures Insert(songs, at, song)[start..] == songs[start..][..at - start] + [song] + songs[start..][at - start..]
  {
  }

  lemma AddedKeeps(q: Queue, song: Song)
    requires Valid(q)
    ensures var p := Added(q, song);
      Valid(p) && p.cursor == q.cursor && p.songs[..p.cursor + 1] == q.songs[..q.cursor + 1]
  {
    var at := AddSlot(q.songs, q.cursor, song);
    InsertedIsValid(q, at, song);
    InsertTail(q.songs, q.cursor + 1, at, song);
  }

  /** One song lands at the end of its own kind. */
  lemma AddedSplits(q: Queue, song: Song, humans: seq<Song>, radio: seq<Song>)
    requires Valid(q) && IsSplit(Tail(q), humans, radio)
    ensures IsSplit(Tail(Added(q, song)),
                    if IsRadioFill(song) then humans else humans + [song],
                    if IsRadioFill(song) then radio + [song] else radio)
  {
    var start, at := q.cursor + 1, AddSlot(q.songs, q.cursor, song);
    FirstRadioEndsHumans(q.songs, start, humans, radio);
    InsertTail(q.songs, start, at, song);
    assert at - start == if IsRadioFill(song) then |humans + radio| else |humans|;
    InsertInSplit(humans, radio, song);
  }

  lemma InsertInSplit(humans: seq<Song>, radio: seq<Song>, song: Song)
    ensures var list := humans + radio;
      && list[..|list|] + [song] + list[|list|..] == humans + (radio + [song])
      && list[..|humans|] + [song] + list[|humans|..] == (humans + [song]) + radio
  {
  }

  lemma {:induction false} AddManyKeeps(q: Queue, batch: seq<Song>)
    requires Valid(q)
    ensures var p := AddedMany(q, batch);
      p.cursor == q.cursor && p.cursor < |p.songs| && p.songs[..p.cursor + 1] == q.songs[..q.cursor + 1]
    decreases |batch|
  {
    if batch != [] {
      AddedKeeps(q, batch[0]);
      AddManyKeeps(Added(q, batch[0]), batch[1..]);
    }
  }

  lemma {:induction false} AddManySplits(q: Queue, batch: seq<Song>, humans: seq<Song>, radio: seq<Song>)
    requires Valid(q) && IsSplit(Tail(q), humans, radio)
    ensures var p := AddedMany(q, batch);
      p.cursor == q.cursor && p.cursor < |p.songs| && IsSplit(Tail(p), humans + Humans(batch), radio + Fillers(batch))
    decreases |batch|
  {
    AddManyKeeps(q, batch);
    if batch == [] {
      assert humans + [] == humans && radio + [] == radio;
    } else {
      var song := batch[0];
      var more := if IsRadioFill(song) then humans else humans + [song];
      var less := if IsRadioFill(song) then radio + [song] else radio;
      AddedKeeps(q, song);
      AddedSplits(q, song, humans, radio);
      AddManySplits(Added(q, song), batch[1..], more, less);
      BatchKinds(batch, humans, radio);
    }
  }

  lemma BatchKinds(batch: seq<Song>, humans: seq<Song>, radio: seq<Song>)
    requires batch != []
    ensures humans + Humans(batch) ==
      (if IsRadioFill(batch[0]) then humans else humans + [batch[0]]) + Humans(batch[1..])
    ensures radio + Fillers(batch) ==
      (if IsRadioFill(batch[0]) then radio + [batch[0]] else radio) + Fillers(batch[1..])
  {
    if IsRadioFill(batch[0]) {
      Assoc(radio, [batch[0]], Fillers(batch[1..]));
      assert [] + Humans(batch[1..]) == Humans(batch[1..]);
    } else {
      Assoc(humans, [batch[0]], Humans(batch[1..]));
      assert [] + Fillers(batch[1..]) == Fillers(batch[1..]);
    }
  }

  lemma Assoc(a: seq<Song>, b: seq<Song>, c: seq<Song>)
    ensures a + (b + c) == a + b + c
  {
  }

  /**
   * `addMany` is a stable partition of what is to come: old humans, new humans, old radio, new radio. What was
   * played and what plays now stay untouched.
   */
  lemma AddManyPartitions(q: Queue, batch: seq<Song>)
    requires Valid(q) && Arranged(Tail(q))
    ensures var p := AddedMany(q, batch);
      && p.cursor == q.cursor && p.cursor < |p.songs| && p.songs[..p.cursor + 1] == q.songs[..q.cursor + 1]
      && Tail(p) == (Humans(Tail(q)) + Humans(batch)) + (Fillers(Tail(q)) + Fillers(batch))
      && Arranged(Tail(p))
  {
    ArrangedIsSplit(Tail(q));
    AddManyKeeps(q, batch);
    AddManySplits(q, batch, Humans(Tail(q)), Fillers(Tail(q)));
    SplitIsArranged(Tail(AddedMany(q, batch)), Humans(Tail(q)) + Humans(batch), Fillers(Tail(q)) + Fillers(batch));
  }

  /** In Sequential mode `next` keeps the order. */
  lemma NextKeepsOrder(q: Queue, random: real)
    requires Valid(q) && Arranged(Tail(q)) && q.mode == Sequential && 0.0 <= random < 1.0
    ensures Arranged(Tail(Advanced(q, random).0))
  {
    if q.cursor + 1 < |q.songs| {
      assert Tail(Advanced(q, random).0) == Tail(q)[1..];
    }
  }

  /** What is to come after a removal: all of it, or all but the removed song. */
  lemma RemovedTail(q: Queue, index: int)
    requires Valid(q)
    ensures var p := Removed(q, index);
      && -1 <= p.cursor < |p.songs|
      && (index <= q.cursor || index >= |q.songs| ==> Tail(p) == Tail(q))
      && (q.cursor < index < |q.songs| ==>
            var at := index - q.cursor - 1; Tail(p) == Tail(q)[..at] + Tail(q)[at + 1..])
  {
    if q.cursor < index < |q.songs| {
      var at, start := index - q.cursor - 1, q.cursor + 1;
      assert (q.songs[..index] + q.songs[index + 1..])[start..] == q.songs[start..index] + q.songs[index + 1..];
      assert Tail(q)[..at] == q.songs[start..index] && Tail(q)[at + 1..] == q.songs[index + 1..];
    }
  }

  /** Removing any song keeps the order. */
  lemma RemoveKeepsOrder(q: Queue, index: int)
    requires Valid(q) && Arranged(Tail(q))
    ensures var p := Removed(q, index); -1 <= p.cursor < |p.songs| && Arranged(Tail(p))
  {
    RemovedTail(q, index);
    if q.cursor < index < |q.songs| { ArrangedWithout(Tail(q), index - q.cursor - 1); }
  }

  lemma ArrangedWithout(list: seq<Song>, at: nat)
    requires Arranged(list) && at < |list|
    ensures Arranged(list[..at] + list[at + 1..])
  {
    var rest := list[..at] + list[at + 1..];
    forall i, j | 0 <= i < j < |rest| && IsRadioFill(rest[i]) ensures IsRadioFill(rest[j]) {
      var i', j' := if i < at then i else i + 1, if j < at then j else j + 1;
      assert rest[i] == list[i'] && rest[j] == list[j'];
    }
  }

  /**
   * A user's `addNext` keeps the order exactly when something is current or no radio track waits: with nothing
   * current the song goes to the very end, behind the radio fill.
   */
  lemma AddNextKeepsOrderIff(q: Queue, song: Song)
    requires Valid(q) && Arranged(Tail(q)) && !IsRadioFill(song)
    ensures Arranged(Tail(AddedNext(q, song))) <==>
      q.cursor >= 0 || forall i :: 0 <= i < |q.songs| ==> !IsRadioFill(q.songs[i])
  {
    var list, user := Tail(q), WithSource(song);
    AddedNextTail(q, song);
    if q.cursor < 0 {
      assert list == q.songs;
      HumanAtEnd(list, user);
    }
  }

  /** It happens: a human's `addNext` before anything plays lands behind the radio track that was there. */
  lemma AddNextBreaksOrder(radio: Song, song: Song)
    requires IsRadioFill(radio) && !IsRadioFill(song)
    ensures var q := Run(EMPTY, [Add(radio), AddNext(song)]);
      -1 <= q.cursor < |q.songs| && Tail(q) == [radio, WithSource(song)] && !Arranged(Tail(q))
  {
    var steps, one := [Add(radio), AddNext(song)], Added(EMPTY, radio);
    assert steps[1..] == [AddNext(song)] && steps[1..][1..] == [];
    assert one.songs == [radio] && one.cursor == -1;
    var q := AddedNext(one, song);
    assert Run(one, [AddNext(song)]) == Run(q, []) == q;
    assert q.songs == [radio, WithSource(song)] && Tail(q) == q.songs;
    assert IsRadioFill(Tail(q)[0]) && !IsRadioFill(Tail(q)[1]);
  }

  /** `addNext` makes the song the next one, or the last when nothing is current; a missing source becomes the user. */
  lemma AddNextLands(q: Queue, song: Song)
    requires Valid(q)
    ensures var p, at := AddedNext(q, song), if q.cursor < 0 then |q.songs| else q.cursor + 1;
      && p.cursor == q.cursor && p.songs == q.songs[..at] + [p.songs[at]] + q.songs[at..]
      && p.songs[at] == if song.source == Unset then Song(song.id, song.name, User) else song
  {
  }

  lemma AddedNextTail(q: Queue, song: Song)
    requires Valid(q)
    ensures Tail(AddedNext(q, song)) ==
      if q.cursor < 0 then Tail(q) + [WithSource(song)] else [WithSource(song)] + Tail(q)
  {
    var list, user := Tail(q), WithSource(song);
    InsertTail(q.songs, q.cursor + 1, NextSlot(q.songs, q.cursor), user);
    if q.cursor < 0 {
      assert list[..|list|] == list && list[|list|..] == [] && list + [user] + [] == list + [user];
    } else {
      assert list[..0] == [] && list[0..] == list && [] + [user] == [user];
    }
  }

  lemma HumanAtEnd(list: seq<Song>, song: Song)
    requires !IsRadioFill(song)
    ensures Arranged(list + [song]) <==> AllHuman(list)
  {
    if !AllHuman(list) {
      var i :| 0 <= i < |list| && IsRadioFill(list[i]);
      assert IsRadioFill((list + [song])[i]) && !IsRadioFill((list + [song])[|list|]);
    }
  }

  // ---- The index `addMany` returns ----

  /** Where the song now at `at` stands after a batch has been added. */
  function Follow(q: Queue, batch: seq<Song>, at: nat): nat
    requires Valid(q)
    decreases |batch|
  {
    if batch == [] then at
    else
      var slot := AddSlot(q.songs, q.cursor, batch[0]);
      InsertedIsValid(q, slot, batch[0]);
      Follow(Added(q, batch[0]), batch[1..], ShiftUp(at, slot))
  }

  lemma {:induction false} FollowFinds(q: Queue, batch: seq<Song>, at: nat)
    requires Valid(q) && at < |q.songs|
    ensures Follow(q, batch, at) < |AddedMany(q, batch).songs|
    ensures AddedMany(q, batch).songs[Follow(q, batch, at)] == q.songs[at]
    decreases |batch|
  {
    if batch != [] {
      var slot := AddSlot(q.songs, q.cursor, batch[0]);
      InsertedIsValid(q, slot, batch[0]);
      assert Added(q, batch[0]).songs[ShiftUp(at, slot)] == q.songs[at];
      FollowFinds(Added(q, batch[0]), batch[1..], ShiftUp(at, slot));
    }
  }

  /** Later songs push a human's song nowhere, and a radio track back by one for every human's song. */
  lemma {:induction false} FollowMoves(q: Queue, batch: seq<Song>, at: nat)
    requires Valid(q) && q.cursor < at < |q.songs|
    requires IsRadioFill(q.songs[at]) || FirstRadio(q.songs, q.cursor + 1) > at
    ensures Follow(q, batch, at) == at + if IsRadioFill(q.songs[at]) then |Humans(batch)| else 0
    decreases |batch|
  {
    if batch != [] {
      var p, slot := Added(q, batch[0]), AddSlot(q.songs, q.cursor, batch[0]);
      InsertedIsValid(q, slot, batch[0]);
      var at' := ShiftUp(at, slot);
      assert p.songs[at'] == q.songs[at];
      if !IsRadioFill(q.songs[at]) {
        assert forall i :: q.cursor + 1 <= i <= at ==> p.songs[i] == q.songs[i];
      }
      FollowMoves(p, batch[1..], at');
    }
  }

  /** The index that `addMany` returns is where its first song ends up exactly unless radio leads a human's song. */
  lemma FirstIndexIff(q: Queue, batch: seq<Song>)
    requires Valid(q) && batch != []
    ensures var first := AddSlot(q.songs, q.cursor, batch[0]);
      Valid(Added(q, batch[0])) &&
      (Follow(Added(q, batch[0]), batch[1..], first) == first <==> !IsRadioFill(batch[0]) || Humans(batch[1..]) == [])
  {
    var first := AddSlot(q.songs, q.cursor, batch[0]);
    InsertedIsValid(q, first, batch[0]);
    var p := Added(q, batch[0]);
    if !IsRadioFill(batch[0]) {
      assert forall i :: q.cursor + 1 <= i <= first ==> !IsRadioFill(p.songs[i]);
    }
    FollowMoves(p, batch[1..], first);
  }

  /** It happens: `addMany` of a radio and a human's track returns 0, and the radio track ends up in place 1. */
  lemma FirstIndexGoesStale(radio: Song, song: Song)
    requires IsRadioFill(radio) && !IsRadioFill(song)
    ensures AddSlot(EMPTY.songs, EMPTY.cursor, radio) == 0
    ensures Run(EMPTY, [AddMany([radio, song])]).songs == [song, radio]
  {
    var batch := [radio, song];
    var steps, one := [AddMany(batch)], Added(EMPTY, radio);
    assert one.songs == [radio] && one.cursor == -1;
    assert batch[1..] == [song] && batch[1..][1..] == [];
    var two := Added(one, song);
    assert FirstRadio(one.songs, 0) == 0;
    assert two.songs == [song, radio];
    assert AddedMany(one, [song]) == AddedMany(two, []) == two;
    assert AddedMany(EMPTY, batch) == two;
    assert steps[1..] == [] && Run(EMPTY, steps) == Run(two, []) == two;
  }

  // ---- Order over runs ----

  /** What keeps the order in Sequential mode, as seen from the queue before the step. */
  predicate Orderly(q: Queue, step: Step) {
    match step
    case AddNext(song) => q.cursor >= 0 && !IsRadioFill(song)
    case PlayAt(index) => q.cursor <= index
    case Play => q.cursor < 0
    case Prev => false
    case SetMode(mode) => mode == Sequential
    case _ => true
  }

  ghost predicate OrderlyRun(q: Queue, steps: seq<Step>)
    requires Valid(q) && forall i :: 0 <= i < |steps| ==> Proper(steps[i])
    decreases |steps|
  {
    steps == [] || (Orderly(q, steps[0]) && (StepIsValid(q, steps[0]); OrderlyRun(Do(q, steps[0]), steps[1..])))
  }

  /** Moving the cursor on never disturbs what is to come. */
  lemma OnwardKeepsOrder(q: Queue, p: Queue)
    requires Valid(q) && Valid(p) && p.songs == q.songs && q.cursor <= p.cursor && Arranged(Tail(q))
    ensures Arranged(Tail(p))
  {
    var gone := p.cursor - q.cursor;
    forall i, j | 0 <= i < j < |Tail(p)| && IsRadioFill(Tail(p)[i]) ensures IsRadioFill(Tail(p)[j]) {
      assert Tail(p)[i] == Tail(q)[i + gone] && Tail(p)[j] == Tail(q)[j + gone];
    }
  }

  lemma StepKeepsOrder(q: Queue, step: Step)
    requires Valid(q) && Arranged(Tail(q)) && q.mode == Sequential && Proper(step) && Orderly(q, step)
    ensures Valid(Do(q, step)) && Do(q, step).mode == Sequential && Arranged(Tail(Do(q, step)))
  {
    StepIsValid(q, step);
    if step.Add? || step.AddMany? || step.AddNext? || step.Remove? {
      EditKeepsOrder(q, step);
    } else if step.Clear? {
      assert Tail(Cleared(q)) == [];
    } else {
      MoveKeepsOrder(q, step, Do(q, step));
    }
  }

  lemma EditKeepsOrder(q: Queue, step: Step)
    requires Valid(q) && Arranged(Tail(q)) && Proper(step) && Orderly(q, step) && Valid(Do(q, step))
    requires step.Add? || step.AddMany? || step.AddNext? || step.Remove?
    ensures Do(q, step).mode == q.mode && Arranged(Tail(Do(q, step)))
  {
    match step
    case Add(song) => AddKeepsOrder(q, song);
    case AddMany(batch) =>
      AddManyPartitions(q, batch);
      AddManyKeepsMode(q, batch);
    case AddNext(song) => AddNextKeepsOrderIff(q, song);
    case Remove(index) => RemoveKeepsOrder(q, index);
  }

  /** The other steps drop the list or move the cursor on. */
  lemma MoveKeepsOrder(q: Queue, step: Step, p: Queue)
    requires Valid(q) && Arranged(Tail(q)) && q.mode == Sequential && Proper(step) && Orderly(q, step)
    requires step.Next? || step.Play? || step.PlayAt? || step.SetMode?
    requires p == Do(q, step) && Valid(p)
    ensures p.mode == Sequential && Arranged(Tail(p))
  {
    MovesOn(q, step, p);
    OnwardKeepsOrder(q, p);
  }

  lemma MovesOn(q: Queue, step: Step, p: Queue)
    requires Valid(q) && q.mode == Sequential && Proper(step) && Orderly(q, step) && p == Do(q, step)
    requires step.Next? || step.Play? || step.PlayAt? || step.SetMode?
    ensures p.songs == q.songs && q.cursor <= p.cursor && p.mode == Sequential
  {
  }

  lemma AddKeepsOrder(q: Queue, song: Song)
    requires Valid(q) && Arranged(Tail(q))
    ensures Valid(Added(q, song)) && Arranged(Tail(Added(q, song)))
  {
    AddManyPartitions(q, [song]);
    AddedKeeps(q, song);
    assert [song][1..] == [] && AddedMany(q, [song]) == AddedMany(Added(q, song), []) == Added(q, song);
  }

  lemma {:induction false} AddManyKeepsMode(q: Queue, batch: seq<Song>)
    requires Valid(q)
    ensures AddedMany(q, batch).mode == q.mode
    decreases |batch|
  {
    if batch != [] {
      AddedKeeps(q, batch[0]);
      AddManyKeepsMode(Added(q, batch[0]), batch[1..]);
    }
  }

  /** Over every run in Sequential mode that never goes back: what is to come stays human tracks, then radio tracks. */
  lemma {:induction false} RunKeepsOrder(q: Queue, steps: seq<Step>)
    requires Valid(q) && (forall i :: 0 <= i < |steps| ==> Proper(steps[i]))
    requires Arranged(Tail(q)) && q.mode == Sequential && OrderlyRun(q, steps)
    ensures Valid(Run(q, steps)) && Arranged(Tail(Run(q, steps)))
    decreases |steps|
  {
    if steps != [] {
      StepKeepsOrder(q, steps[0]);
      RunKeepsOrder(Do(q, steps[0]), steps[1..]);
    }
  }

  /**
   * Going back, by `prev`, `play` or `playAt`, keeps the order exactly when the songs gone back over are in order
   * themselves and, if there is radio among them, no human's song is still to come.
   */
  lemma BackwardKeepsOrderIff(q: Queue, p: Queue)
    requires Valid(q) && Valid(p) && p.songs == q.songs && p.cursor < q.cursor && Arranged(Tail(q))
    ensures var over := q.songs[p.cursor + 1..q.cursor + 1];
      Arranged(Tail(p)) <==> Arranged(over) && (AllHuman(over) || AllRadio(Tail(q)))
  {
    var over, rest := q.songs[p.cursor + 1..q.cursor + 1], Tail(q);
    assert Tail(p) == over + rest;
    ArrangedTogether(over, rest);
  }

  lemma ArrangedTogether(a: seq<Song>, b: seq<Song>)
    ensures Arranged(a + b) <==> Arranged(a) && Arranged(b) && (AllHuman(a) || AllRadio(b))
  {
    var both := a + b;
    if Arranged(both) {
      forall i, j | 0 <= i < j < |a| && IsRadioFill(a[i]) ensures IsRadioFill(a[j]) {
        assert both[i] == a[i] && both[j] == a[j];
      }
      forall i, j | 0 <= i < j < |b| && IsRadioFill(b[i]) ensures IsRadioFill(b[j]) {
        assert both[|a| + i] == b[i] && both[|a| + j] == b[j];
      }
      if !AllHuman(a) {
        var i :| 0 <= i < |a| && IsRadioFill(a[i]);
        forall j | 0 <= j < |b| ensures IsRadioFill(b[j]) {
          assert both[i] == a[i] && both[|a| + j] == b[j];
        }
      }
    }
  }
}
