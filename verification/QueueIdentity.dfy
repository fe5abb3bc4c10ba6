/** The index bookkeeping of the play queue against a queue that stores songs by identity. */
module QueueIdentity {
  import opened Wrappers
  import opened PlayQueue

  type Id = nat

  datatype Entry = Entry(id: Id, song: Song)

  /** A queue without indices: what is current, played, behind and ahead is said by name. */
  datatype Shelf = Shelf(
    order: seq<Entry>, current: Option<Id>, mode: PlayMode, played: set<Id>, history: seq<Id>, forward: seq<Id>,
    supply: Id)

  // ---- Operations on identities ----

  function Songs(order: seq<Entry>): (songs: seq<Song>)
    ensures |songs| == |order|
  {
    seq(|order|, i requires 0 <= i < |order| => order[i].song)
  }

  /** Position of an identity in the list, or -1. */
  function IndexOf(order: seq<Entry>, id: Id): (at: int)
    ensures -1 <= at < |order|
  {
    if order == [] then -1
    else if order[|order| - 1].id == id then |order| - 1
    else IndexOf(order[..|order| - 1], id)
  }

  function Position(v: Shelf): (at: int)
    ensures -1 <= at < |v.order|
  {
    if v.current.None? then -1 else IndexOf(v.order, v.current.value)
  }

  /** An insertion names the new song and touches nothing else. */
  function Put(v: Shelf, at: nat, song: Song): Shelf
    requires at <= |v.order|
  {
    v.(order := Insert(v.order, at, Entry(v.supply, song)), supply := v.supply + 1)
  }

  function PutMany(v: Shelf, batch: seq<Song>): Shelf
    decreases |batch|
  {
    if batch == [] then v
    else PutMany(Put(v, AddSlot(Songs(v.order), Position(v), batch[0]), batch[0]), batch[1..])
  }

  function Without(ids: seq<Id>, id: Id): seq<Id> {
    if ids == [] then [] else (if ids[0] == id then [] else [ids[0]]) + Without(ids[1..], id)
  }

  /** A removal forgets one identity; if it was current, its left neighbour becomes current. */
  function Taken(v: Shelf, index: int): Shelf {
    if index < 0 || index >= |v.order| then v
    else
      var id := v.order[index].id;
      Shelf(v.order[..index] + v.order[index + 1..],
            if v.current != Some(id) then v.current
            else if index == 0 then None else Some(v.order[index - 1].id),
            v.mode, v.played - {id}, Without(v.history, id), Without(v.forward, id), v.supply)
  }

  function Behind(v: Shelf): seq<Id> {
    if v.current.None? then v.history
    else if |v.history| + 1 > HISTORY_LIMIT then (v.history + [v.current.value])[1..]
    else v.history + [v.current.value]
  }

  function GoneTo(v: Shelf, id: Id): Shelf {
    v.(current := Some(id), history := Behind(v))
  }

  /** Ahead-stack without top entries that are current anyway. */
  function Ahead(forward: seq<Id>, current: Option<Id>): (rest: seq<Id>)
    ensures |rest| <= |forward| && rest == forward[..|rest|]
  {
    if forward == [] then []
    else if current == Some(forward[|forward| - 1]) then Ahead(forward[..|forward| - 1], current)
    else forward
  }

  function Pick(order: seq<Entry>, keep: Id -> bool): seq<Id> {
    if order == [] then []
    else
      var last := order[|order| - 1].id;
      Pick(order[..|order| - 1], keep) + (if keep(last) then [last] else [])
  }

  function Mixed(v: Shelf, random: real): Shelf
    requires 0.0 <= random < 1.0
  {
    var unplayed := Pick(v.order, id => id !in v.played);
    if unplayed != [] then
      var id := unplayed[Draw(random, |unplayed|)];
      GoneTo(v, id).(played := v.played + {id})
    else if v.mode == Random || v.order == [] then v
    else if |v.order| == 1 then GoneTo(v, v.order[0].id).(played := {v.order[0].id})
    else
      var others := Pick(v.order, id => Some(id) != v.current);
      if others == [] then v
      else
        var id := others[Draw(random, |others|)];
        GoneTo(v, id).(played := {id})
  }

  function Resuming(v: Shelf, random: real): Shelf
    requires 0.0 <= random < 1.0
  {
    var rest := Ahead(v.forward, v.current);
    if rest == [] then Mixed(v.(forward := []), random)
    else
      var id := rest[|rest| - 1];
      GoneTo(v, id).(played := v.played + {id}, forward := rest[..|rest| - 1])
  }

  function Following(v: Shelf, random: real): Shelf
    requires 0.0 <= random < 1.0
  {
    if v.order == [] then v
    else
      match v.mode
      case Sequential => if Position(v) + 1 >= |v.order| then v else GoneTo(v, v.order[Position(v) + 1].id)
      case Loop => GoneTo(v, v.order[(Position(v) + 1) % |v.order|].id)
      case _ => Resuming(v, random)
  }

  function Noted(v: Shelf): Shelf {
    if v.current.Some? && |v.forward| < HISTORY_LIMIT then v.(forward := v.forward + [v.current.value]) else v
  }

  function OneLeft(v: Shelf): Shelf
    requires v.order != []
  {
    if Shuffles(v.mode) || (Position(v) < 1 && v.mode == Sequential) then v
    else
      var id := v.order[if Position(v) >= 1 then Position(v) - 1 else |v.order| - 1].id;
      v.(current := Some(id), played := v.played + {id})
  }

  function Preceding(v: Shelf): Shelf {
    if v.order == [] then v
    else if v.history == [] then OneLeft(Noted(v))
    else
      var id := v.history[|v.history| - 1];
      Noted(v).(current := Some(id), played := v.played + {id}, history := v.history[..|v.history| - 1])
  }

  function ShelfDo(v: Shelf, step: Step): Shelf
    requires Proper(step)
  {
    match step
    case Add(song) => Put(v, AddSlot(Songs(v.order), Position(v), song), song)
    case AddMany(batch) => PutMany(v, batch)
    case AddNext(song) => Put(v, NextSlot(Songs(v.order), Position(v)), WithSource(song))
    case Remove(index) => Taken(v, index)
    case Clear => v.(order := [], current := None, played := {}, history := [], forward := [])
    case Play =>
      if v.order == [] then v
      else v.(current := Some(v.order[0].id), played := {v.order[0].id}, history := [], forward := [])
    case PlayAt(index) =>
      if index < 0 || index >= |v.order| then v
      else GoneTo(v, v.order[index].id).(played := {v.order[index].id}, forward := [])
    case Next(random) => Following(v, random)
    case Prev => Preceding(v)
    case SetMode(mode) =>
      v.(mode := mode, played := if v.current.None? then {} else {v.current.value}, history := [], forward := [])
  }

  function ShelfRun(v: Shelf, steps: seq<Step>): Shelf
    requires forall i :: 0 <= i < |steps| ==> Proper(steps[i])
    decreases |steps|
  {
    if steps == [] then v else ShelfRun(ShelfDo(v, steps[0]), steps[1..])
  }

  // ---- Reading a queue by names ----

  /** A name for every slot of the list, all different and older than `supply`. */
  ghost predicate Naming(q: Queue, ids: seq<Id>, supply: Id) {
    && Valid(q) && |ids| == |q.songs|
    && (forall i, j :: 0 <= i < j < |ids| ==> ids[i] != ids[j])
    && (forall i :: 0 <= i < |ids| ==> ids[i] < supply)
  }

  ghost function Names(indices: seq<int>, ids: seq<Id>): (names: seq<Id>)
    requires InRange(indices, |ids|)
    ensures |names| == |indices| && forall k :: 0 <= k < |names| ==> names[k] == ids[indices[k]]
  {
    seq(|indices|, k requires 0 <= k < |indices| => ids[indices[k]])
  }

  ghost function NameSet(indices: set<int>, ids: seq<Id>): set<Id>
    requires forall i :: i in indices ==> 0 <= i < |ids|
  {
    set i | i in indices :: ids[i]
  }

  ghost function Order(songs: seq<Song>, ids: seq<Id>): (order: seq<Entry>)
    requires |songs| == |ids|
    ensures |order| == |ids| && forall i :: 0 <= i < |ids| ==> order[i] == Entry(ids[i], songs[i])
  {
    seq(|ids|, i requires 0 <= i < |ids| => Entry(ids[i], songs[i]))
  }

  /** The queue with every index replaced by the name it points to. */
  ghost function Named(q: Queue, ids: seq<Id>, supply: Id): Shelf
    requires Naming(q, ids, supply)
  {
    Shelf(Order(q.songs, ids), if q.cursor < 0 then None else Some(ids[q.cursor]), q.mode,
          NameSet(q.played, ids), Names(q.history, ids), Names(q.forward, ids), supply)
  }

  lemma PositionIsCursor(q: Queue, ids: seq<Id>, supply: Id)
    requires Naming(q, ids, supply)
    ensures Position(Named(q, ids, supply)) == q.cursor
    ensures Songs(Order(q.songs, ids)) == q.songs
  {
    if q.cursor >= 0 { IndexOfName(q.songs, ids, q.cursor); }
  }

  lemma {:induction false} IndexOfName(songs: seq<Song>, ids: seq<Id>, at: nat)
    requires |songs| == |ids| && at < |ids| && forall i, j :: 0 <= i < j < |ids| ==> ids[i] != ids[j]
    ensures IndexOf(Order(songs, ids), ids[at]) == at
  {
    var last := |ids| - 1;
    if at < last {
      assert Order(songs, ids)[..last] == Order(songs[..last], ids[..last]);
      IndexOfName(songs[..last], ids[..last], at);
    }
  }

  // ---- Each operation commutes with naming ----

  lemma PutRefines(q: Queue, ids: seq<Id>, supply: Id, at: nat, song: Song)
    requires Naming(q, ids, supply) && q.cursor < at <= |q.songs|
    ensures Naming(Inserted(q, at, song), Insert(ids, at, supply), supply + 1)
    ensures Named(Inserted(q, at, song), Insert(ids, at, supply), supply + 1) == Put(Named(q, ids, supply), at, song)
  {
    InsertedIsValid(q, at, song);
    PutPlayed(q, ids, supply, at, song);
    var q', ids' := Inserted(q, at, song), Insert(ids, at, supply);
    assert Order(q'.songs, ids') == Insert(Order(q.songs, ids), at, Entry(supply, song));
    PutNames(q.history, ids, at, supply);
    PutNames(q.forward, ids, at, supply);
  }

  lemma PutNames(indices: seq<int>, ids: seq<Id>, at: nat, id: Id)
    requires InRange(indices, |ids|) && at <= |ids|
    ensures InRange(Shifted(indices, at), |ids| + 1)
    ensures Names(Shifted(indices, at), Insert(ids, at, id)) == Names(indices, ids)
  {
  }

  lemma PutPlayed(q: Queue, ids: seq<Id>, supply: Id, at: nat, song: Song)
    requires Naming(q, ids, supply) && q.cursor < at <= |q.songs|
    requires Valid(Inserted(q, at, song))
    ensures NameSet(Inserted(q, at, song).played, Insert(ids, at, supply)) == NameSet(q.played, ids)
  {
    var played', ids' := Inserted(q, at, song).played, Insert(ids, at, supply);
    assert forall i :: 0 <= i < |ids| ==> ids'[ShiftUp(i, at)] == ids[i];
    forall id | id in NameSet(q.played, ids) ensures id in NameSet(played', ids') {
      var i :| i in q.played && ids[i] == id;
      assert ShiftUp(i, at) in played';
    }
    forall id | id in NameSet(played', ids') ensures id in NameSet(q.played, ids) {
      var j :| j in played' && ids'[j] == id;
      var i :| i in q.played && ShiftUp(i, at) == j;
      assert ids[i] == id;
    }
  }

  lemma {:induction false} PutManyRefines(q: Queue, ids: seq<Id>, supply: Id, batch: seq<Song>)
    returns (ids': seq<Id>, supply': Id)
    requires Naming(q, ids, supply)
    ensures Naming(AddedMany(q, batch), ids', supply')
    ensures Named(AddedMany(q, batch), ids', supply') == PutMany(Named(q, ids, supply), batch)
    decreases |batch|
  {
    if batch == [] {
      ids', supply' := ids, supply;
    } else {
      var at := AddSlot(q.songs, q.cursor, batch[0]);
      PositionIsCursor(q, ids, supply);
      PutRefines(q, ids, supply, at, batch[0]);
      ids', supply' := PutManyRefines(Added(q, batch[0]), Insert(ids, at, supply), supply + 1, batch[1..]);
    }
  }

  lemma {:induction false} DroppedNames(indices: seq<int>, ids: seq<Id>, at: nat)
    requires InRange(indices, |ids|) && at < |ids| && forall i, j :: 0 <= i < j < |ids| ==> ids[i] != ids[j]
    ensures InRange(Dropped(indices, at), |ids| - 1)
    ensures Names(Dropped(indices, at), ids[..at] + ids[at + 1..]) == Without(Names(indices, ids), ids[at])
  {
    if indices != [] {
      DroppedNames(indices[1..], ids, at);
      assert Names(indices, ids)[1..] == Names(indices[1..], ids);
      assert Names(indices, ids)[0] == ids[indices[0]];
      var ids' := ids[..at] + ids[at + 1..];
      if indices[0] != at {
        assert ids'[ShiftDown(indices[0], at)] == ids[indices[0]];
        assert Names(Dropped(indices, at), ids') == [ids[indices[0]]] + Names(Dropped(indices[1..], at), ids');
      }
    }
  }

  lemma TakenNaming(q: Queue, ids: seq<Id>, supply: Id, at: nat)
    requires Naming(q, ids, supply) && at < |q.songs|
    ensures Naming(Removed(q, at), ids[..at] + ids[at + 1..], supply)
  {
    StepIsValid(q, Remove(at));
  }

  lemma TakenOrder(songs: seq<Song>, ids: seq<Id>, at: nat)
    requires |songs| == |ids| && at < |ids|
    ensures Order(songs[..at] + songs[at + 1..], ids[..at] + ids[at + 1..])
      == Order(songs, ids)[..at] + Order(songs, ids)[at + 1..]
  {
  }

  lemma TakenRefines(q: Queue, ids: seq<Id>, supply: Id, at: nat)
    requires Naming(q, ids, supply) && at < |q.songs|
    ensures Naming(Removed(q, at), ids[..at] + ids[at + 1..], supply)
    ensures Named(Removed(q, at), ids[..at] + ids[at + 1..], supply) == Taken(Named(q, ids, supply), at)
  {
    TakenNaming(q, ids, supply, at);
    TakenOrder(q.songs, ids, at);
    DroppedNames(q.history, ids, at);
    DroppedNames(q.forward, ids, at);
    TakenPlayed(q, ids, supply, at);
  }

  lemma TakenPlayed(q: Queue, ids: seq<Id>, supply: Id, at: nat)
    requires Naming(q, ids, supply) && at < |q.songs|
    requires Naming(Removed(q, at), ids[..at] + ids[at + 1..], supply)
    ensures NameSet(Removed(q, at).played, ids[..at] + ids[at + 1..]) == NameSet(q.played, ids) - {ids[at]}
  {
    var played', ids' := Removed(q, at).played, ids[..at] + ids[at + 1..];
    assert forall i :: 0 <= i < |ids| && i != at ==> ids'[ShiftDown(i, at)] == ids[i];
    forall id | id in NameSet(q.played, ids) - {ids[at]} ensures id in NameSet(played', ids') {
      var i :| i in q.played && ids[i] == id;
      assert ShiftDown(i, at) in played';
    }
    forall id | id in NameSet(played', ids') ensures id in NameSet(q.played, ids) - {ids[at]} {
      var j :| j in played' && ids'[j] == id;
      var i :| i in q.played && i != at && ShiftDown(i, at) == j;
      assert ids[i] == id;
    }
  }

  lemma NameSetPlus(indices: set<int>, ids: seq<Id>, i: int)
    requires 0 <= i < |ids| && forall j :: j in indices ==> 0 <= j < |ids|
    ensures NameSet(indices + {i}, ids) == NameSet(indices, ids) + {ids[i]}
  {
    assert NameSet({i}, ids) == {ids[i]} by { assert i in {i}; }
    forall id | id in NameSet(indices, ids) + {ids[i]} ensures id in NameSet(indices + {i}, ids) {
      if id in NameSet(indices, ids) {
        var j :| j in indices && ids[j] == id;
        assert j in indices + {i};
      } else {
        assert i in indices + {i};
      }
    }
  }

  lemma GoneRefines(q: Queue, ids: seq<Id>, supply: Id, i: int)
    requires Naming(q, ids, supply) && 0 <= i < |ids|
    ensures Naming(MovedTo(q, i), ids, supply)
    ensures Named(MovedTo(q, i), ids, supply) == GoneTo(Named(q, ids, supply), ids[i])
  {
    MovedIsValid(q, i);
    assert Names(MovedTo(q, i).history, ids) == Behind(Named(q, ids, supply));
  }

  /** Moving to a song and marking it played on top of `base`. */
  lemma ArrivesRefines(q: Queue, ids: seq<Id>, supply: Id, i: int, base: set<int>, forward: seq<int>)
    requires Naming(q, ids, supply) && 0 <= i < |ids| && forall j :: j in base ==> 0 <= j < |ids|
    requires InRange(forward, |ids|) && |forward| <= HISTORY_LIMIT
    ensures var p := MovedTo(q, i).(played := base + {i}, forward := forward);
      && Naming(p, ids, supply)
      && Named(p, ids, supply) ==
           GoneTo(Named(q, ids, supply), ids[i]).(
             played := NameSet(base, ids) + {ids[i]}, forward := Names(forward, ids))
  {
    GoneRefines(q, ids, supply, i);
    NameSetPlus(base, ids, i);
  }

  lemma {:induction false} PickRefines(songs: seq<Song>, ids: seq<Id>, keep: int -> bool, keepId: Id -> bool)
    requires |songs| == |ids| && forall i :: 0 <= i < |ids| ==> keep(i) == keepId(ids[i])
    ensures InRange(Select(|ids|, keep), |ids|)
    ensures Pick(Order(songs, ids), keepId) == Names(Select(|ids|, keep), ids)
  {
    SelectInRange(|ids|, keep);
    if ids != [] {
      var last := |ids| - 1;
      var before := Select(last, keep);
      SelectInRange(last, keep);
      PickRefines(songs[..last], ids[..last], keep, keepId);
      assert Order(songs, ids)[..last] == Order(songs[..last], ids[..last]);
      NamesGrow(before, ids, last);
    }
  }

  lemma NamesGrow(indices: seq<int>, ids: seq<Id>, last: nat)
    requires last < |ids| && InRange(indices, last)
    ensures Names(indices, ids[..last]) == Names(indices, ids)
    ensures Names(indices + [last], ids) == Names(indices, ids) + [ids[last]]
  {
  }

  lemma SelectInRange(n: nat, keep: int -> bool)
    ensures InRange(Select(n, keep), n)
  {
    var picks := Select(n, keep);
    assert forall k :: 0 <= k < |picks| ==> picks[k] in picks;
  }

  lemma {:induction false} AheadRefines(forward: seq<int>, cursor: int, ids: seq<Id>)
    requires -1 <= cursor < |ids| && InRange(forward, |ids|)
    requires forall i, j :: 0 <= i < j < |ids| ==> ids[i] != ids[j]
    ensures var current: Option<Id> := if cursor < 0 then None else Some(ids[cursor]);
      Names(Resumable(forward, cursor, |ids|), ids) == Ahead(Names(forward, ids), current)
  {
    if forward != [] {
      var last := |forward| - 1;
      assert Names(forward, ids)[..last] == Names(forward[..last], ids);
      AheadRefines(forward[..last], cursor, ids);
    }
  }

  /** The bag is the same bag, and the same draw takes the same song from it. */
  lemma {:induction false} MixedRefines(q: Queue, ids: seq<Id>, supply: Id, random: real)
    requires Naming(q, ids, supply) && q.songs != [] && 0.0 <= random < 1.0
    ensures Naming(Shuffled(q, random).0, ids, supply)
    ensures Named(Shuffled(q, random).0, ids, supply) == Mixed(Named(q, ids, supply), random)
  {
    var n, v := |q.songs|, Named(q, ids, supply);
    var unplayed := Unplayed(n, q.played);
    BagRefines(q, ids, supply);
    if unplayed != [] {
      var pick := unplayed[Draw(random, |unplayed|)];
      assert pick in unplayed;
      ArrivesRefines(q, ids, supply, pick, q.played, q.forward);
    } else if q.mode != Random {
      if n == 1 {
        ArrivesRefines(q, ids, supply, 0, {}, q.forward);
      } else {
        FreshCycleRefines(q, ids, supply, random);
      }
    }
  }

  lemma BagRefines(q: Queue, ids: seq<Id>, supply: Id)
    requires Naming(q, ids, supply)
    ensures var v := Named(q, ids, supply);
      && InRange(Unplayed(|ids|, q.played), |ids|) && InRange(Others(|ids|, q.cursor), |ids|)
      && Pick(v.order, id => id !in v.played) == Names(Unplayed(|ids|, q.played), ids)
      && Pick(v.order, id => Some(id) != v.current) == Names(Others(|ids|, q.cursor), ids)
  {
    var v := Named(q, ids, supply);
    assert forall i :: 0 <= i < |ids| ==> (i in q.played <==> ids[i] in v.played);
    PickRefines(q.songs, ids, i => i !in q.played, id => id !in v.played);
    PickRefines(q.songs, ids, i => i != q.cursor, id => Some(id) != v.current);
  }

  lemma FreshCycleRefines(q: Queue, ids: seq<Id>, supply: Id, random: real)
    requires Naming(q, ids, supply) && |q.songs| >= 2 && 0.0 <= random < 1.0
    requires Unplayed(|q.songs|, q.played) == [] && q.mode != Random
    ensures Naming(Shuffled(q, random).0, ids, supply)
    ensures Named(Shuffled(q, random).0, ids, supply) == Mixed(Named(q, ids, supply), random)
  {
    var n := |q.songs|;
    BagRefines(q, ids, supply);
    OthersExist(n, q.cursor);
    var others := Others(n, q.cursor);
    var pick := others[Draw(random, |others|)];
    assert pick in others;
    ArrivesRefines(q, ids, supply, pick, {}, q.forward);
    assert {} + {pick} == {pick} && NameSet({}, ids) == {};
  }

  lemma FollowingRefines(q: Queue, ids: seq<Id>, supply: Id, random: real)
    requires Naming(q, ids, supply) && 0.0 <= random < 1.0
    ensures Naming(Advanced(q, random).0, ids, supply)
    ensures Named(Advanced(q, random).0, ids, supply) == Following(Named(q, ids, supply), random)
  {
    if q.songs != [] {
      match q.mode
      case Sequential => OneRightRefines(q, ids, supply, random);
      case Loop => OneRightRefines(q, ids, supply, random);
      case _ => ResumingRefines(q, ids, supply, random);
    }
  }

  lemma OneRightRefines(q: Queue, ids: seq<Id>, supply: Id, random: real)
    requires Naming(q, ids, supply) && q.songs != [] && 0.0 <= random < 1.0 && !Shuffles(q.mode)
    ensures Naming(Advanced(q, random).0, ids, supply)
    ensures Named(Advanced(q, random).0, ids, supply) == Following(Named(q, ids, supply), random)
  {
    PositionIsCursor(q, ids, supply);
    var slot := if q.mode == Loop then (q.cursor + 1) % |q.songs| else q.cursor + 1;
    if slot < |q.songs| { GoneRefines(q, ids, supply, slot); }
  }

  lemma ResumingRefines(q: Queue, ids: seq<Id>, supply: Id, random: real)
    requires Naming(q, ids, supply) && q.songs != [] && 0.0 <= random < 1.0
    ensures Naming(Resumed(q, random).0, ids, supply)
    ensures Named(Resumed(q, random).0, ids, supply) == Resuming(Named(q, ids, supply), random)
  {
    var v, rest := Named(q, ids, supply), Resumable(q.forward, q.cursor, |q.songs|);
    assert Ahead(v.forward, v.current) == Names(rest, ids) by { AheadRefines(q.forward, q.cursor, ids); }
    if rest != [] {
      ArrivesRefines(q, ids, supply, rest[|rest| - 1], q.played, rest[..|rest| - 1]);
      assert Names(rest, ids)[..|rest| - 1] == Names(rest[..|rest| - 1], ids);
    } else {
      NothingAhead(q, ids, supply);
      MixedRefines(q.(forward := []), ids, supply, random);
    }
  }

  lemma NothingAhead(q: Queue, ids: seq<Id>, supply: Id)
    requires Naming(q, ids, supply)
    ensures Naming(q.(forward := []), ids, supply)
    ensures Named(q.(forward := []), ids, supply) == Named(q, ids, supply).(forward := [])
  {
  }

  lemma NotedRefines(q: Queue, ids: seq<Id>, supply: Id)
    requires Naming(q, ids, supply)
    ensures Naming(Remembered(q), ids, supply)
    ensures Named(Remembered(q), ids, supply) == Noted(Named(q, ids, supply))
  {
    assert Names(Remembered(q).forward, ids) == Noted(Named(q, ids, supply)).forward;
  }

  lemma PrecedingRefines(q: Queue, ids: seq<Id>, supply: Id)
    requires Naming(q, ids, supply)
    ensures Naming(SteppedBack(q).0, ids, supply)
    ensures Named(SteppedBack(q).0, ids, supply) == Preceding(Named(q, ids, supply))
  {
    if q.songs != [] {
      NotedRefines(q, ids, supply);
      if q.history == [] {
        OneLeftRefines(Remembered(q), ids, supply);
      } else {
        BackRefines(Remembered(q), ids, supply);
      }
    }
  }

  lemma BackRefines(q: Queue, ids: seq<Id>, supply: Id)
    requires Naming(q, ids, supply) && q.history != []
    ensures var i, rest := q.history[|q.history| - 1], q.history[..|q.history| - 1];
      var p := q.(cursor := i, played := q.played + {i}, history := rest);
      && Naming(p, ids, supply)
      && Named(p, ids, supply) == Named(q, ids, supply).(
           current := Some(ids[i]), played := NameSet(q.played, ids) + {ids[i]},
           history := Names(q.history, ids)[..|q.history| - 1])
  {
    var last := |q.history| - 1;
    NameSetPlus(q.played, ids, q.history[last]);
    assert Names(q.history, ids)[..last] == Names(q.history[..last], ids);
  }

  lemma OneLeftRefines(q: Queue, ids: seq<Id>, supply: Id)
    requires Naming(q, ids, supply) && q.songs != []
    ensures Naming(FellBack(q).0, ids, supply)
    ensures Named(FellBack(q).0, ids, supply) == OneLeft(Named(q, ids, supply))
  {
    PositionIsCursor(q, ids, supply);
    NameSetPlus(q.played, ids, if q.cursor >= 1 then q.cursor - 1 else |q.songs| - 1);
  }

  /** Every step of the queue is the same step of the queue by identities. */
  lemma StepRefines(q: Queue, ids: seq<Id>, supply: Id, step: Step) returns (ids': seq<Id>, supply': Id)
    requires Naming(q, ids, supply) && Proper(step)
    ensures Naming(Do(q, step), ids', supply')
    ensures Named(Do(q, step), ids', supply') == ShelfDo(Named(q, ids, supply), step)
  {
    ids', supply' := ids, supply;
    if step.Add? || step.AddMany? || step.AddNext? || step.Remove? {
      ids', supply' := EditRefines(q, ids, supply, step);
    } else {
      match step
      case Next(random) => FollowingRefines(q, ids, supply, random);
      case Prev => PrecedingRefines(q, ids, supply);
      case PlayAt(index) => if 0 <= index < |ids| { PlayAtRefines(q, ids, supply, index); }
      case _ => ids' := ResetRefines(q, ids, supply, step);
    }
  }

  /** The steps that change the list. */
  lemma EditRefines(q: Queue, ids: seq<Id>, supply: Id, step: Step) returns (ids': seq<Id>, supply': Id)
    requires Naming(q, ids, supply) && (step.Add? || step.AddMany? || step.AddNext? || step.Remove?)
    ensures Naming(Do(q, step), ids', supply')
    ensures Named(Do(q, step), ids', supply') == ShelfDo(Named(q, ids, supply), step)
  {
    ids', supply' := ids, supply;
    PositionIsCursor(q, ids, supply);
    match step
    case Add(song) =>
      var at := AddSlot(q.songs, q.cursor, song);
      PutRefines(q, ids, supply, at, song);
      ids', supply' := Insert(ids, at, supply), supply + 1;
    case AddMany(batch) => ids', supply' := PutManyRefines(q, ids, supply, batch);
    case AddNext(song) =>
      var at := NextSlot(q.songs, q.cursor);
      PutRefines(q, ids, supply, at, WithSource(song));
      ids', supply' := Insert(ids, at, supply), supply + 1;
    case Remove(index) =>
      if 0 <= index < |ids| {
        TakenRefines(q, ids, supply, index);
        ids' := ids[..index] + ids[index + 1..];
      }
  }

  lemma PlayAtRefines(q: Queue, ids: seq<Id>, supply: Id, index: int)
    requires Naming(q, ids, supply) && 0 <= index < |q.songs|
    ensures Naming(PlayedAt(q, index), ids, supply)
    ensures Named(PlayedAt(q, index), ids, supply) == ShelfDo(Named(q, ids, supply), PlayAt(index))
  {
    ArrivesRefines(q, ids, supply, index, {}, []);
    assert {} + {index} == {index} && NameSet({}, ids) == {};
  }

  lemma OnlyPlayed(ids: seq<Id>, i: int)
    requires 0 <= i < |ids|
    ensures NameSet({i}, ids) == {ids[i]}
  {
    assert i in {i};
  }

  lemma ResetRefines(q: Queue, ids: seq<Id>, supply: Id, step: Step) returns (ids': seq<Id>)
    requires Naming(q, ids, supply) && (step.Clear? || step.Play? || step.SetMode?)
    ensures Naming(Do(q, step), ids', supply)
    ensures Named(Do(q, step), ids', supply) == ShelfDo(Named(q, ids, supply), step)
  {
    ids' := if step.Clear? then [] else ids;
    if step.Play? && q.songs != [] {
      OnlyPlayed(ids, 0);
    } else if step.SetMode? && q.cursor >= 0 {
      OnlyPlayed(ids, q.cursor);
    }
  }

  /** Refinement: over every run, cursor, played set and both stacks change as if they held songs, not indices. */
  lemma {:induction false} RunRefines(q: Queue, ids: seq<Id>, supply: Id, steps: seq<Step>)
    returns (ids': seq<Id>, supply': Id)
    requires Naming(q, ids, supply) && forall i :: 0 <= i < |steps| ==> Proper(steps[i])
    ensures Naming(Run(q, steps), ids', supply')
    ensures Named(Run(q, steps), ids', supply') == ShelfRun(Named(q, ids, supply), steps)
    decreases |steps|
  {
    if steps == [] {
      ids', supply' := ids, supply;
    } else {
      ids', supply' := StepRefines(q, ids, supply, steps[0]);
      ids', supply' := RunRefines(Do(q, steps[0]), ids', supply', steps[1..]);
    }
  }
}
