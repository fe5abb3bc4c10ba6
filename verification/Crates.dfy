/** Standard cargo crates: the greedy breakdown of bot/src/economy/boxes.ts is optimal. */
module Crates {

  /** A JavaScript number, as far as `Number.isFinite` tells numbers apart. */
  datatype Number = NotFinite | Finite(value: real)

  /** Volumes this close above a whole number count as that number. */
  const TOLERANCE: real := 0.000000001

  /** Whole SCU to pack: the least integer not below the volume, up to the tolerance. */
  function WholeScu(scu: Number): (whole: nat)
    ensures scu.NotFinite? || scu.value <= 0.0 ==> whole == 0
    ensures scu.Finite? && scu.value > 0.0 ==>
      (whole as real) - 1.0 < scu.value - TOLERANCE <= whole as real
  {
    if scu.NotFinite? || scu.value <= 0.0 then 0 else -(TOLERANCE - scu.value).Floor
  }

  /** Largest to smallest standard freight crates. */
  const SIZES: seq<nat> := [32, 24, 16, 8, 4, 2, 1]

  predicate Standard(size: int) {
    size == 32 || size == 24 || size == 16 || size == 8 || size == 4 || size == 2 || size == 1
  }

  datatype BoxCount = BoxCount(sizeScu: nat, count: nat)

  function Volume(crates: seq<BoxCount>): nat {
    if crates == [] then 0
    else Volume(crates[..|crates| - 1]) + crates[|crates| - 1].count * crates[|crates| - 1].sizeScu
  }

  function Boxes(crates: seq<BoxCount>): nat {
    if crates == [] then 0 else Boxes(crates[..|crates| - 1]) + crates[|crates| - 1].count
  }

  /** Sizes are standard and strictly decreasing, and no entry is empty. */
  ghost predicate Breakdown(crates: seq<BoxCount>) {
    && (forall i :: 0 <= i < |crates| ==> Standard(crates[i].sizeScu) && crates[i].count >= 1)
    && (forall i, j :: 0 <= i < j < |crates| ==> crates[i].sizeScu > crates[j].sizeScu)
  }

  /** A packing lists its crates one by one, in any order. */
  ghost predicate IsPacking(packing: seq<nat>, scu: nat) {
    && (forall i :: 0 <= i < |packing| ==> Standard(packing[i]))
    && Sum(packing) == scu
  }

  function Sum(sizes: seq<nat>): nat {
    if sizes == [] then 0 else sizes[0] + Sum(sizes[1..])
  }

  /** The largest standard crate that holds no more than `scu`. */
  function Largest(scu: nat): (size: nat)
    requires scu > 0
    ensures Standard(size) && size <= scu
    ensures forall other: int :: Standard(other) && other <= scu ==> other <= size
  {
    if scu >= 32 then 32 else if scu >= 24 then 24 else if scu >= 16 then 16 else if scu >= 8 then 8
    else if scu >= 4 then 4 else if scu >= 2 then 2 else 1
  }

  /** Crates used when one keeps taking the largest that still fits. */
  function GreedyCount(scu: nat): nat {
    if scu == 0 then 0 else 1 + GreedyCount(scu - Largest(scu))
  }

  /** Greedy count below 8 and below 64 SCU, without recursion. */
  function Under8(n: nat): nat
    requires n < 8
  {
    if n == 7 then 3 else if n == 3 || n >= 5 then 2 else if n == 0 then 0 else 1
  }

  lemma GreedyUnder8(n: nat)
    requires n < 8
    ensures GreedyCount(n) == Under8(n)
  {
    if n > 0 { GreedyUnder8(n - Largest(n)); }
  }

  function Eights(n: nat): nat {
    if n == 0 then 0 else if n <= 4 then 1 else 2
  }

  lemma GreedyEights(n: nat, rest: nat)
    requires n < 8 && rest < 8
    ensures GreedyCount(8 * n + rest) == Eights(n) + Under8(rest)
  {
    if n == 0 {
      GreedyUnder8(rest);
    } else if n <= 4 {
      GreedyEights(0, rest);
    } else {
      GreedyEights(n - 4, rest);
    }
  }

  /** One more crate of any standard size costs the greedy packer at most one crate more. */
  lemma {:induction false} OneCrateMore(scu: nat, size: nat)
    requires Standard(size)
    ensures GreedyCount(scu + size) <= GreedyCount(scu) + 1
  {
    if scu >= 32 {
      OneCrateMore(scu - 32, size);
    } else if size < 32 {
      var n, rest := scu / 8, scu % 8;
      assert scu == 8 * n + rest;
      if size < 8 { SmallCrateMore(n, rest, size); } else { BigCrateMore(n, rest, size / 8); }
    }
  }

  lemma SmallCrateMore(n: nat, rest: nat, size: nat)
    requires n < 4 && rest < 8 && (size == 1 || size == 2 || size == 4)
    ensures GreedyCount(8 * n + rest + size) <= GreedyCount(8 * n + rest) + 1
  {
    GreedyEights(n, rest);
    var full, left := if rest + size < 8 then n else n + 1, if rest + size < 8 then rest + size else rest + size - 8;
    assert 8 * n + rest + size == 8 * full + left;
    GreedyEights(full, left);
  }

  lemma BigCrateMore(n: nat, rest: nat, k: nat)
    requires n < 4 && rest < 8 && 1 <= k <= 3
    ensures GreedyCount(8 * n + rest + 8 * k) <= GreedyCount(8 * n + rest) + 1
  {
    GreedyEights(n, rest);
    assert 8 * n + rest + 8 * k == 8 * (n + k) + rest;
    GreedyEights(n + k, rest);
  }

  /** Taking `count` crates of one size at once is taking the largest fit `count` times. */
  lemma {:induction false} TakeAll(remaining: nat, size: nat, count: nat)
    requires Standard(size) && count * size <= remaining
    requires forall bigger: int :: Standard(bigger) && bigger > size ==> remaining < bigger
    ensures GreedyCount(remaining) == count + GreedyCount(remaining - count * size)
  {
    if count > 0 {
      Product(count, size);
      TakeAll(remaining - size, size, count - 1);
    }
  }

  /** Fewest crates: no packing of the same volume beats the greedy count. */
  lemma {:induction false} GreedyIsFewest(packing: seq<nat>)
    requires forall i :: 0 <= i < |packing| ==> Standard(packing[i])
    ensures GreedyCount(Sum(packing)) <= |packing|
  {
    if packing == [] {
    } else {
      GreedyIsFewest(packing[1..]);
      OneCrateMore(Sum(packing[1..]), packing[0]);
    }
  }

  lemma Product(count: nat, size: nat)
    requires count > 0
    ensures count * size == (count - 1) * size + size && (count - 1) * size >= 0
  {
  }

  lemma VolumeAppend(crates: seq<BoxCount>, more: BoxCount)
    ensures Volume(crates + [more]) == Volume(crates) + more.count * more.sizeScu
    ensures Boxes(crates + [more]) == Boxes(crates) + more.count
  {
    assert (crates + [more])[..|crates|] == crates;
  }

  /** The list of sizes is every standard size, largest first, down to one SCU. */
  lemma SizesInOrder(i: nat)
    requires i < |SIZES|
    ensures Standard(SIZES[i])
    ensures i + 1 < |SIZES| ==> SIZES[i + 1] < SIZES[i]
    ensures i + 1 == |SIZES| ==> SIZES[i] == 1
    ensures forall bigger: int :: Standard(bigger) && bigger > SIZES[i] ==> i > 0 && bigger >= SIZES[i - 1]
  {
  }

  /** One round of the packer: all crates of one size that still fit. */
  method PackSize(crates: seq<BoxCount>, remaining: nat, size: nat) returns (packed: seq<BoxCount>, rest: nat)
    requires Standard(size)
    requires Breakdown(crates) && forall c :: 0 <= c < |crates| ==> crates[c].sizeScu > size
    requires forall bigger: int :: Standard(bigger) && bigger > size ==> remaining < bigger
    ensures Breakdown(packed) && forall c :: 0 <= c < |packed| ==> packed[c].sizeScu >= size
    ensures rest < size
    ensures Volume(packed) + rest == Volume(crates) + remaining
    ensures Boxes(packed) + GreedyCount(rest) == Boxes(crates) + GreedyCount(remaining)
  {
    if remaining < size { return crates, remaining; }
    var count := FloorDiv(remaining, size);
    if count > 0 {
      RoundKeeps(crates, remaining, size, count);
      packed := crates + [BoxCount(size, count)];
      rest := remaining - count * size;
    } else {
      packed, rest := crates, remaining;
    }
  }

  /** `Math.floor(n / d)` */
  function FloorDiv(n: nat, d: nat): (count: nat)
    requires d > 0
    ensures count * d <= n < count * d + d && (count == 0 <==> n < d)
  {
    n / d
  }

  lemma RoundKeeps(crates: seq<BoxCount>, remaining: nat, size: nat, count: nat)
    requires Standard(size) && count * size <= remaining && count >= 1
    requires Breakdown(crates) && forall c :: 0 <= c < |crates| ==> crates[c].sizeScu > size
    requires forall bigger: int :: Standard(bigger) && bigger > size ==> remaining < bigger
    ensures
      var packed, rest := crates + [BoxCount(size, count)], remaining - count * size;
      && Breakdown(packed) && (forall c :: 0 <= c < |packed| ==> packed[c].sizeScu >= size)
      && Volume(packed) + rest == Volume(crates) + remaining
      && Boxes(packed) + GreedyCount(rest) == Boxes(crates) + GreedyCount(remaining)
  {
    TakeAll(remaining, size, count);
    VolumeAppend(crates, BoxCount(size, count));
    BreakdownAppend(crates, size, count);
  }

  lemma BreakdownAppend(crates: seq<BoxCount>, size: nat, count: nat)
    requires Standard(size) && count >= 1
    requires Breakdown(crates) && forall c :: 0 <= c < |crates| ==> crates[c].sizeScu > size
    ensures var packed := crates + [BoxCount(size, count)];
      Breakdown(packed) && forall c :: 0 <= c < |packed| ==> packed[c].sizeScu >= size
  {
  }

  /** The breakdown of bot/src/economy/boxes.ts: exact in volume, minimal in crates. */
  method CalculateBoxes(volume: Number) returns (scu: nat, crates: seq<BoxCount>, totalBoxes: nat)
    ensures scu == WholeScu(volume)
    ensures Breakdown(crates) && Volume(crates) == scu && totalBoxes == Boxes(crates)
    ensures forall packing :: IsPacking(packing, scu) ==> totalBoxes <= |packing|
  {
    scu := WholeScu(volume);
    var remaining := scu;
    crates := [];
    for i := 0 to |SIZES|
      invariant Breakdown(crates)
      invariant forall c :: 0 <= c < |crates| && i < |SIZES| ==> crates[c].sizeScu > SIZES[i]
      invariant Volume(crates) + remaining == scu
      invariant Boxes(crates) + GreedyCount(remaining) == GreedyCount(scu)
      invariant i > 0 ==> remaining < SIZES[i - 1]
    {
      SizesInOrder(i);
      crates, remaining := PackSize(crates, remaining, SIZES[i]);
    }
    if remaining > 0 {
      assert false; // the source's safety net: one-SCU crates have already taken everything
    }
    totalBoxes := TotalBoxes(crates);
    forall packing | IsPacking(packing, scu) ensures totalBoxes <= |packing| {
      GreedyIsFewest(packing);
    }
  }

  method TotalBoxes(crates: seq<BoxCount>) returns (total: nat)
    ensures total == Boxes(crates)
  {
    total := 0;
    for i := 0 to |crates|
      invariant total == Boxes(crates[..i])
    {
      assert crates[..i + 1][..i] == crates[..i];
      total := total + crates[i].count;
    }
    assert crates[..|crates|] == crates;
  }
}
