/** Hangar rows of bot/src/data/user-ships.ts: merging one owner's ships into another's. */
module Hangar {
  import opened Wrappers

  /** The first of two optional values that is present (`??` and SQL COALESCE). */
  function Coalesce<T>(first: Option<T>, second: Option<T>): Option<T> {
    if first.Some? then first else second
  }

  datatype Key = Key(owner: string, shipId: string)
  datatype Ship = Ship(shipName: string, qty: int, notes: Option<string>, catalogMatched: bool)
  datatype Profile = Profile(uid: Option<string>, callsign: Option<string>, displayName: Option<string>)
  type Rows = map<Key, Ship>

  /** A requested quantity, floored, with anything below one read as one. */
  function AtLeastOne(qty: real): (n: int)
    ensures n >= 1 && n as real <= (if qty < 1.0 then 1.0 else qty) < n as real + 1.0
  {
    var floor := qty.Floor;
    if floor < 1 then 1 else floor
  }

  /** At most the first 200 characters. */
  function ShortName(name: string): (short: string)
    ensures short <= name && |short| <= 200 && (|name| <= 200 ==> short == name) && (|name| > 200 ==> |short| == 200)
  {
    if |name| > 200 then name[..200] else name
  }

  /** What the table promises: real quantities and bounded names. */
  ghost predicate Sound(rows: Rows) {
    forall k :: k in rows ==> rows[k].qty >= 1 && ShortName(rows[k].shipName) == rows[k].shipName
  }

  function Qty(rows: Rows, owner: string, shipId: string): int {
    if Key(owner, shipId) in rows then rows[Key(owner, shipId)].qty else 0
  }

  // ---- Merging ----

  /** The row of the receiving owner after a merge that brings `incoming`. */
  function MergedShip(incoming: Ship, existing: Option<Ship>): Ship {
    match existing
    case None => incoming
    case Some(row) =>
      Ship(incoming.shipName, row.qty + incoming.qty, Coalesce(incoming.notes, row.notes),
           incoming.catalogMatched || row.catalogMatched)
  }

  function Lookup(rows: Rows, key: Key): Option<Ship> {
    if key in rows then Some(rows[key]) else None
  }

  /** Rows after `from` has been merged into `to`. */
  ghost function Merged(rows: Rows, from: string, to: string): (merged: Rows)
    ensures from == to ==> merged == rows
  {
    if from == to then rows
    else
      map k | k in rows.Keys + (set j | j in rows && j.owner == from :: Key(to, j.shipId)) && k.owner != from ::
        if k.owner == to && Key(from, k.shipId) in rows
        then MergedShip(rows[Key(from, k.shipId)], Lookup(rows, k))
        else rows[k]
  }

  /** Quantities after a merge, owner by owner; rows of bystanders are untouched. */
  lemma MergedQuantities(rows: Rows, from: string, to: string, owner: string, shipId: string)
    requires from != to
    ensures Qty(Merged(rows, from, to), owner, shipId) ==
      if owner == from then 0
      else if owner == to then Qty(rows, to, shipId) + Qty(rows, from, shipId)
      else Qty(rows, owner, shipId)
    ensures owner != from && owner != to ==>
      Lookup(Merged(rows, from, to), Key(owner, shipId)) == Lookup(rows, Key(owner, shipId))
  {
    var merged := Merged(rows, from, to);
    if owner == to && Key(from, shipId) in rows {
      assert Key(from, shipId).owner == from;
      assert Key(to, shipId) in merged;
    }
  }

  lemma MergedStaysSound(rows: Rows, from: string, to: string)
    requires Sound(rows)
    ensures Sound(Merged(rows, from, to))
  {
  }

  /** Two owners merged into a third leave the same quantities in either order. */
  lemma {:induction false} MergeOrderIsIrrelevant(
    rows: Rows, a: string, b: string, to: string, owner: string, shipId: string)
    requires a != to && b != to
    ensures Qty(Merged(Merged(rows, a, to), b, to), owner, shipId)
      == Qty(Merged(Merged(rows, b, to), a, to), owner, shipId)
  {
    MergedQuantities(rows, a, to, owner, shipId);
    MergedQuantities(rows, a, to, b, shipId);
    MergedQuantities(Merged(rows, a, to), b, to, owner, shipId);
    MergedQuantities(rows, b, to, owner, shipId);
    MergedQuantities(rows, b, to, a, shipId);
    MergedQuantities(Merged(rows, b, to), a, to, owner, shipId);
    if a != b {
      MergedQuantities(rows, a, to, to, shipId);
      MergedQuantities(rows, b, to, to, shipId);
    }
  }

  /** How many of one ship the listed owners hold together. */
  function Held(rows: Rows, owners: seq<string>, shipId: string): int {
    if owners == [] then 0 else Qty(rows, owners[0], shipId) + Held(rows, owners[1..], shipId)
  }

  ghost predicate Distinct(owners: seq<string>) {
    forall i, j :: 0 <= i < j < |owners| ==> owners[i] != owners[j]
  }

  /** What a merge moves among the listed owners. */
  lemma {:induction false} HeldAfterMerge(rows: Rows, from: string, to: string, owners: seq<string>, shipId: string)
    requires from != to && Distinct(owners)
    ensures Held(Merged(rows, from, to), owners, shipId) == Held(rows, owners, shipId)
      + (if to in owners then Qty(rows, from, shipId) else 0)
      - (if from in owners then Qty(rows, from, shipId) else 0)
  {
    if owners != [] {
      HeldAfterMerge(rows, from, to, owners[1..], shipId);
      MergedQuantities(rows, from, to, owners[0], shipId);
      assert owners == [owners[0]] + owners[1..];
    }
  }

  /** Nothing is lost and nothing is made: the total of a ship over all owners survives a merge. */
  lemma MergeConserves(rows: Rows, from: string, to: string, owners: seq<string>, shipId: string)
    requires Distinct(owners) && from in owners && to in owners
    ensures Held(Merged(rows, from, to), owners, shipId) == Held(rows, owners, shipId)
  {
    if from != to { HeldAfterMerge(rows, from, to, owners, shipId); }
  }

  /** What a merge leaves at the target, field by field: incoming notes and name win, and either flag sets the flag. */
  lemma MergedRow(rows: Rows, from: string, to: string, shipId: string)
    requires from != to && Key(from, shipId) in rows
    ensures var merged, incoming := Merged(rows, from, to), rows[Key(from, shipId)];
      && Key(from, shipId) !in merged && Key(to, shipId) in merged
      && var row := merged[Key(to, shipId)];
      && row.shipName == incoming.shipName
      && (incoming.notes.Some? ==> row.notes == incoming.notes)
      && (incoming.notes.None? ==> row.notes == if Key(to, shipId) in rows then rows[Key(to, shipId)].notes else None)
      && (row.catalogMatched <==>
            incoming.catalogMatched || (Key(to, shipId) in rows && rows[Key(to, shipId)].catalogMatched))
  {
    assert Key(from, shipId).owner == from;
  }

  /** A ship that only the target had is left as it was. */
  lemma UnmatchedRow(rows: Rows, from: string, to: string, shipId: string)
    requires from != to && Key(from, shipId) !in rows
    ensures Lookup(Merged(rows, from, to), Key(to, shipId)) == Lookup(rows, Key(to, shipId))
  {
  }

  /** Each detail of the target's profile stays when it is there, and comes from the other profile when it is not. */
  lemma ProfileKeepsTarget(from: Profile, to: Profile)
    ensures var merged := MergedProfile(from, Some(to));
      && merged.uid == (if to.uid.Some? then to.uid else from.uid)
      && merged.callsign == (if to.callsign.Some? then to.callsign else from.callsign)
      && merged.displayName == (if to.displayName.Some? then to.displayName else from.displayName)
    ensures MergedProfile(from, None) == from
  {
  }

  // ---- The store ----

  class UserShipsStore {
    var ships: Rows
    var profiles: map<string, Profile>

    ghost predicate Valid()
      reads this
    {
      Sound(ships)
    }

    constructor ()
      ensures Valid() && ships == map[] && profiles == map[]
    {
      ships, profiles := map[], map[];
    }

    function GetShip(owner: string, shipId: string): Option<Ship>
      reads this
    {
      Lookup(ships, Key(owner, shipId))
    }

    /** Absolute quantity, at least one; notes already there outlive an update without notes. */
    method SetShip(
        owner: string, shipId: string, shipName: string, qty: real, notes: Option<string>, catalogMatched: bool)
      requires Valid()
      modifies this`ships
      ensures Valid()
      ensures ships == old(ships)[Key(owner, shipId) :=
        Ship(ShortName(shipName), AtLeastOne(qty),
             Coalesce(notes, if Key(owner, shipId) in old(ships) then old(ships)[Key(owner, shipId)].notes else None),
             catalogMatched)]
    {
      var kept := match GetShip(owner, shipId) case None => None case Some(row) => row.notes;
      var row := Ship(ShortName(shipName), AtLeastOne(qty), Coalesce(notes, kept), catalogMatched);
      ships := ships[Key(owner, shipId) := row];
    }

    /** Adds to what is there; otherwise like an update: new name and flag, old notes if none are given. */
    method AddShip(
        owner: string, shipId: string, shipName: string, qty: real, notes: Option<string>, catalogMatched: bool)
      requires Valid()
      modifies this`ships
      ensures Valid()
      ensures ships == old(ships)[Key(owner, shipId) :=
        Ship(ShortName(shipName), Qty(old(ships), owner, shipId) + AtLeastOne(qty),
             Coalesce(notes, if Key(owner, shipId) in old(ships) then old(ships)[Key(owner, shipId)].notes else None),
             catalogMatched)]
      ensures forall o, s ::
        Qty(ships, o, s) == Qty(old(ships), o, s) + (if o == owner && s == shipId then AtLeastOne(qty) else 0)
    {
      var existing := GetShip(owner, shipId);
      var total := (if existing.Some? then existing.value.qty else 0) + AtLeastOne(qty);
      WholeQty(total);
      SetShip(owner, shipId, shipName, total as real, notes, catalogMatched);
    }

    method RemoveShip(owner: string, shipId: string, qty: real) returns (outcome: Removal)
      requires Valid()
      modifies this`ships
      ensures Valid()
      ensures outcome == Missing <==> Key(owner, shipId) !in old(ships)
      ensures outcome == Removed ==> ships == old(ships) - {Key(owner, shipId)}
      ensures outcome == Decremented <==> Qty(old(ships), owner, shipId) > AtLeastOne(qty)
      ensures outcome == Decremented ==> ships == old(ships)[Key(owner, shipId) :=
        old(ships)[Key(owner, shipId)].(qty := old(ships)[Key(owner, shipId)].qty - AtLeastOne(qty))]
      ensures outcome == Missing ==> ships == old(ships)
    {
      match GetShip(owner, shipId) {
        case None => return Missing;
        case Some(existing) =>
          var next := existing.qty - AtLeastOne(qty);
          if next <= 0 {
            ships := ships - {Key(owner, shipId)};
            return Removed;
          }
          WholeQty(next);
          SetShip(owner, shipId, existing.shipName, next as real, existing.notes, existing.catalogMatched);
          return Decremented;
      }
    }

    /** Ship ids of one owner, each once; the display order does not matter here. */
    method ListShips(owner: string) returns (ids: seq<string>)
      ensures Distinct(ids) && forall id :: id in ids <==> Key(owner, id) in ships
    {
      var left := set k | k in ships && k.owner == owner;
      ids := [];
      while left != {}
        invariant left <= ships.Keys && forall k :: k in left ==> k.owner == owner && k.shipId !in ids
        invariant Distinct(ids) && forall id :: id in ids ==> Key(owner, id) in ships
        invariant forall id :: Key(owner, id) in ships ==> id in ids || Key(owner, id) in left
        decreases |left|
      {
        var key :| key in left;
        ids := ids + [key.shipId];
        left := left - {key};
      }
    }

    /** Move all ships from one owner to another, then the profile. Returns how many rows moved. */
    method RekeyOwner(from: string, to: string) returns (moved: nat)
      requires Valid()
      modifies this
      ensures Valid()
      ensures ships == Merged(old(ships), from, to)
      ensures moved == if from == to then 0 else |set k | k in old(ships) && k.owner == from|
      ensures profiles ==
        if from == to || from !in old(profiles) then old(profiles)
        else old(profiles)[to := MergedProfile(old(profiles)[from], GetProfile(old(profiles), to))] - {from}
    {
      if from == to { return 0; }
      var ids := ListShips(from);
      for i := 0 to |ids|
        invariant Valid() && profiles == old(profiles)
        invariant ships == MergedSoFar(old(ships), from, to, ids[..i])
      {
        MergeOneMore(old(ships), from, to, ids, i);
        CopyShip(from, to, ids[i]);
      }
      MergeEnds(old(ships), from, to, ids);
      ships := map k | k in ships && k.owner != from :: ships[k];
      if from in profiles {
        profiles := profiles[to := MergedProfile(profiles[from], GetProfile(profiles, to))];
        profiles := profiles - {from};
      }
      CountIds(ids, from, old(ships));
      return |ids|;
    }

    /** Add one ship of `from` to what `to` has of it. */
    method CopyShip(from: string, to: string, id: string)
      requires Valid() && Key(from, id) in ships
      modifies this`ships
      ensures Valid()
      ensures ships == old(ships)[Key(to, id) := MergedShip(old(ships)[Key(from, id)], Lookup(old(ships), Key(to, id)))]
    {
      var moving := ships[Key(from, id)];
      var existing := GetShip(to, id);
      var qty := (if existing.Some? then existing.value.qty else 0) + moving.qty;
      WholeQty(qty);
      SetShip(to, id, moving.shipName, qty as real,
              Coalesce(moving.notes, if existing.Some? then existing.value.notes else None),
              moving.catalogMatched || (existing.Some? && existing.value.catalogMatched));
    }
  }

  /** Rows once the ships in `done` have been copied over but not yet deleted. */
  ghost function MergedSoFar(rows: Rows, from: string, to: string, done: seq<string>): Rows {
    map k | k in rows.Keys + (set j | j in rows && j.owner == from && j.shipId in done :: Key(to, j.shipId)) ::
      if k.owner == to && k.shipId in done && Key(from, k.shipId) in rows
      then MergedShip(rows[Key(from, k.shipId)], Lookup(rows, k))
      else rows[k]
  }

  lemma MergeOneMore(rows: Rows, from: string, to: string, ids: seq<string>, i: nat)
    requires from != to && i < |ids| && ids[i] !in ids[..i] && Key(from, ids[i]) in rows
    ensures Lookup(MergedSoFar(rows, from, to, ids[..i]), Key(to, ids[i])) == Lookup(rows, Key(to, ids[i]))
    ensures Lookup(MergedSoFar(rows, from, to, ids[..i]), Key(from, ids[i])) == Lookup(rows, Key(from, ids[i]))
    ensures MergedSoFar(rows, from, to, ids[..i + 1]) ==
      MergedSoFar(rows, from, to, ids[..i])
        [Key(to, ids[i]) := MergedShip(rows[Key(from, ids[i])], Lookup(rows, Key(to, ids[i])))]
  {
    assert ids[..i + 1] == ids[..i] + [ids[i]];
  }

  lemma MergeEnds(rows: Rows, from: string, to: string, ids: seq<string>)
    requires from != to && forall id :: id in ids <==> Key(from, id) in rows
    ensures var all := MergedSoFar(rows, from, to, ids[..|ids|]);
      Merged(rows, from, to) == map k | k in all && k.owner != from :: all[k]
  {
    assert ids[..|ids|] == ids;
    assert forall j :: j in rows && j.owner == from ==> j == Key(from, j.shipId);
  }

  function GetProfile(profiles: map<string, Profile>, owner: string): Option<Profile> {
    if owner in profiles then Some(profiles[owner]) else None
  }

  datatype Removal = Removed | Decremented | Missing

  /** Details already on the receiving profile win. */
  function MergedProfile(from: Profile, to: Option<Profile>): Profile {
    match to
    case None => from
    case Some(kept) =>
      Profile(
        Coalesce(kept.uid, from.uid), Coalesce(kept.callsign, from.callsign),
        Coalesce(kept.displayName, from.displayName))
  }

  lemma WholeQty(qty: int)
    requires qty >= 1
    ensures AtLeastOne(qty as real) == qty
  {
  }

  lemma {:induction false} CountIds(ids: seq<string>, owner: string, rows: Rows)
    requires Distinct(ids) && forall id :: id in ids <==> Key(owner, id) in rows
    ensures |ids| == |set k | k in rows && k.owner == owner|
  {
    var keys := set k | k in rows && k.owner == owner;
    if ids == [] {
      assert keys == {} by { assert forall k :: k in keys ==> k == Key(owner, k.shipId); }
    } else {
      var last := Key(owner, ids[|ids| - 1]);
      var fewer := rows - {last};
      var rest := ids[..|ids| - 1];
      assert ids == rest + [ids[|ids| - 1]];
      CountIds(rest, owner, fewer);
      assert keys == (set k | k in fewer && k.owner == owner) + {last};
    }
  }
}
