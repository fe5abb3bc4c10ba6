/** Edit distance of bot/src/economy/fuzzy.ts: the two-row table, its meaning, and its metric laws. */
module EditDistance {

  /** What `charCodeAt` compares. */
  type CodeUnit = u: int | 0 <= u < 0x1_0000
  type Text = seq<CodeUnit>

  function Min(a: nat, b: nat): nat { if a < b then a else b }

  function Max(a: nat, b: nat): nat { if a < b then b else a }

  function Init(s: Text): Text
    requires s != []
  {
    s[..|s| - 1]
  }

  function Last(s: Text): CodeUnit
    requires s != []
  {
    s[|s| - 1]
  }

  /** The recursion that the table fills in. */
  function Distance(a: Text, b: Text): nat
    decreases |a| + |b|
  {
    if a == [] then |b| else if b == [] then |a|
    else
      Min(Min(Distance(Init(a), b) + 1, Distance(a, Init(b)) + 1),
          Distance(Init(a), Init(b)) + (if Last(a) == Last(b) then 0 else 1))
  }

  // ---- Meaning: the length of a shortest chain of single edits ----

  /** `t` is `s` with one code unit replaced, removed or added. */
  ghost predicate OneEdit(s: Text, t: Text) {
    exists i: nat, cut: Text, put: Text :: EditAt(s, t, i, cut, put)
  }

  /** `t` is `s` with the piece `cut` at position `i` replaced by `put`, each at most one unit long. */
  ghost predicate EditAt(s: Text, t: Text, i: nat, cut: Text, put: Text) {
    && i + |cut| <= |s| && |cut| <= 1 && |put| <= 1 && cut != put
    && s[i..i + |cut|] == cut
    && t == s[..i] + put + s[i + |cut|..]
  }

  /** A chain of texts from `a` to `b`, each one edit from the last. */
  ghost predicate Chain(chain: seq<Text>, a: Text, b: Text) {
    && |chain| >= 1 && chain[0] == a && chain[|chain| - 1] == b
    && forall k :: 0 <= k < |chain| - 1 ==> OneEdit(chain[k], chain[k + 1])
  }

  lemma {:induction false} DropLast(a: Text, c: Text)
    requires a != []
    ensures Distance(a, c) <= Distance(Init(a), c) + 1
    ensures Distance(Init(a), c) <= Distance(a, c) + 1
    decreases |c|
  {
    if c != [] {
      DropLast(a, Init(c));
    }
  }

  lemma {:induction false} ReplaceLast(a: Text, b: Text, c: Text)
    requires a != [] && b != [] && Init(a) == Init(b)
    ensures Distance(a, c) <= Distance(b, c) + 1
    decreases |c|
  {
    if c != [] {
      ReplaceLast(a, b, Init(c));
      DropLast(a, Init(c));
    }
  }

  /** Moving one end by one edit moves the distance by at most one. */
  lemma {:induction false} EditMovesByOne(s: Text, t: Text, i: nat, cut: Text, put: Text, c: Text)
    requires EditAt(s, t, i, cut, put)
    ensures Distance(s, c) <= Distance(t, c) + 1
    decreases |s| + |c|
  {
    if i + |cut| == |s| {
      assert s == s[..i] + cut && t == s[..i] + put;
      if cut == [] {
        assert Init(t) == s;
        DropLast(t, c);
      } else if put == [] {
        assert Init(s) == t;
        DropLast(s, c);
      } else {
        assert Init(s) == s[..i] == Init(t);
        ReplaceLast(s, t, c);
      }
    } else {
      assert Last(t) == Last(s);
      assert EditAt(Init(s), Init(t), i, cut, put) by {
        assert Init(s)[i..i + |cut|] == s[i..i + |cut|];
        assert Init(t) == Init(s)[..i] + put + Init(s)[i + |cut|..];
      }
      EditMovesByOne(Init(s), Init(t), i, cut, put, c);
      if c != [] {
        EditMovesByOne(s, t, i, cut, put, Init(c));
        EditMovesByOne(Init(s), Init(t), i, cut, put, Init(c));
      }
    }
  }

  /** No chain is shorter than the distance. */
  lemma {:induction false} DistanceIsLeast(chain: seq<Text>, a: Text, b: Text)
    requires Chain(chain, a, b)
    ensures Distance(a, b) <= |chain| - 1
  {
    if |chain| == 1 {
      SelfDistance(a);
    } else {
      DistanceIsLeast(chain[1..], chain[1], b);
      var i: nat, cut: Text, put: Text :| EditAt(chain[0], chain[1], i, cut, put);
      EditMovesByOne(chain[0], chain[1], i, cut, put, b);
    }
  }

  lemma {:induction false} SelfDistance(a: Text)
    ensures Distance(a, a) == 0
  {
    if a != [] { SelfDistance(Init(a)); }
  }

  lemma AddLast(chain: seq<Text>, a: Text, b: Text)
    requires b != [] && Chain(chain, a, Init(b))
    ensures Chain(chain + [b], a, b)
  {
    assert EditAt(Init(b), b, |b| - 1, [], [Last(b)]);
  }

  lemma RemoveLast(a: Text, chain: seq<Text>, b: Text)
    requires a != [] && Chain(chain, Init(a), b)
    ensures Chain([a] + chain, a, b)
  {
    assert EditAt(a, Init(a), |a| - 1, [Last(a)], []);
  }

  lemma ChangeLast(a: Text, chain: seq<Text>, b: Text) returns (longer: seq<Text>)
    requires a != [] && b != [] && Chain(chain, Init(a), Init(b))
    ensures Chain(longer, a, b) && |longer| == |chain| + if Last(a) == Last(b) then 0 else 1
  {
    assert Init(a) + [Last(a)] == a && Init(b) + [Last(b)] == b;
    longer := ChainUnder(chain, Init(a), Init(b), Last(a));
    if Last(a) != Last(b) {
      assert EditAt(Init(b) + [Last(a)], b, |b| - 1, [Last(a)], [Last(b)]);
      longer := longer + [b];
    }
  }

  lemma ChainUnder(chain: seq<Text>, a: Text, b: Text, x: CodeUnit) returns (longer: seq<Text>)
    requires Chain(chain, a, b)
    ensures Chain(longer, a + [x], b + [x]) && |longer| == |chain|
  {
    longer := seq(|chain|, k requires 0 <= k < |chain| => chain[k] + [x]);
    forall k | 0 <= k < |longer| - 1 ensures OneEdit(longer[k], longer[k + 1]) {
      EditUnder(chain[k], chain[k + 1], x);
    }
  }

  /** A chain of exactly that length exists. */
  lemma {:induction false} DistanceIsReached(a: Text, b: Text) returns (chain: seq<Text>)
    ensures Chain(chain, a, b) && |chain| == Distance(a, b) + 1
    decreases |a| + |b|
  {
    if a == [] && b == [] {
      chain := [a];
    } else if a == [] || (b != [] && Distance(a, b) == Distance(a, Init(b)) + 1) {
      chain := DistanceIsReached(a, Init(b));
      AddLast(chain, a, b);
      chain := chain + [b];
    } else if b == [] || Distance(a, b) == Distance(Init(a), b) + 1 {
      chain := DistanceIsReached(Init(a), b);
      RemoveLast(a, chain, b);
      chain := [a] + chain;
    } else {
      chain := DistanceIsReached(Init(a), Init(b));
      chain := ChangeLast(a, chain, b);
    }
  }

  lemma EditUnder(s: Text, t: Text, x: CodeUnit)
    requires OneEdit(s, t)
    ensures OneEdit(s + [x], t + [x])
  {
    var i: nat, cut: Text, put: Text :| EditAt(s, t, i, cut, put);
    assert (s + [x])[i..i + |cut|] == s[i..i + |cut|];
    assert t + [x] == (s + [x])[..i] + put + (s + [x])[i + |cut|..];
    assert EditAt(s + [x], t + [x], i, cut, put);
  }

  // ---- Metric laws ----

  lemma {:induction false} ZeroMeansEqual(a: Text, b: Text)
    ensures Distance(a, b) == 0 <==> a == b
  {
    SelfDistance(a);
    var chain := DistanceIsReached(a, b);
  }

  lemma {:induction false} Symmetric(a: Text, b: Text)
    ensures Distance(a, b) == Distance(b, a)
    decreases |a| + |b|
  {
    if a != [] && b != [] {
      Symmetric(Init(a), b);
      Symmetric(a, Init(b));
      Symmetric(Init(a), Init(b));
    }
  }

  lemma {:induction false} Triangle(a: Text, b: Text, c: Text)
    ensures Distance(a, c) <= Distance(a, b) + Distance(b, c)
  {
    var first := DistanceIsReached(a, b);
    var second := DistanceIsReached(b, c);
    var both := first + second[1..];
    forall k | 0 <= k < |both| - 1 ensures OneEdit(both[k], both[k + 1]) {
      if k >= |first| - 1 {
        assert both[k] == second[k - (|first| - 1)] && both[k + 1] == second[k + 1 - (|first| - 1)];
      }
    }
    DistanceIsLeast(both, a, c);
  }

  lemma {:induction false} Bounds(a: Text, b: Text)
    ensures Max(|a|, |b|) - Min(|a|, |b|) <= Distance(a, b) <= Max(|a|, |b|)
    decreases |a| + |b|
  {
    if a != [] && b != [] {
      Bounds(Init(a), b);
      Bounds(a, Init(b));
      Bounds(Init(a), Init(b));
    }
  }

  // ---- The two-row table ----

  /** `d` holds a number for each pair of prefixes, and the numbers obey the recurrence. */
  ghost predicate IsTable(d: seq<seq<nat>>, a: Text, b: Text) {
    && |d| == |a| + 1 && (forall i :: 0 <= i < |d| ==> |d[i]| == |b| + 1)
    && (forall j :: 0 <= j <= |b| ==> d[0][j] == j)
    && (forall i :: 0 <= i <= |a| ==> d[i][0] == i)
    && (forall i, j :: 1 <= i <= |a| && 1 <= j <= |b| ==> IsCell(d, a, b, i, j))
  }

  ghost predicate IsCell(d: seq<seq<nat>>, a: Text, b: Text, i: nat, j: nat)
    requires |d| == |a| + 1 && forall i :: 0 <= i < |d| ==> |d[i]| == |b| + 1
    requires 1 <= i <= |a| && 1 <= j <= |b|
  {
    d[i][j] == Min(Min(d[i - 1][j] + 1, d[i][j - 1] + 1), d[i - 1][j - 1] + (if a[i - 1] == b[j - 1] then 0 else 1))
  }

  /** The distances of all pairs of prefixes are such a table. */
  lemma {:induction false} PrefixDistances(a: Text, b: Text) returns (d: seq<seq<nat>>)
    ensures IsTable(d, a, b) && d[|a|][|b|] == Distance(a, b)
  {
    d := seq(|a| + 1, i requires 0 <= i <= |a| => DistanceRow(a[..i], b));
    forall i, j | 1 <= i <= |a| && 1 <= j <= |b| ensures IsCell(d, a, b, i, j) {
      assert Init(a[..i]) == a[..i - 1] && Init(b[..j]) == b[..j - 1];
    }
    assert a[..|a|] == a && b[..|b|] == b;
  }

  ghost function DistanceRow(a: Text, b: Text): (row: seq<nat>)
    ensures |row| == |b| + 1 && row[0] == |a|
    ensures forall j :: 0 <= j <= |b| ==> row[j] == Distance(a, b[..j])
  {
    seq(|b| + 1, j requires 0 <= j <= |b| => Distance(a, b[..j]))
  }

  /** Classic Levenshtein distance with two rows that swap roles: the length of a shortest chain. */
  method Levenshtein(a: Text, b: Text) returns (distance: nat)
    ensures distance == Distance(a, b)
    ensures forall chain :: Chain(chain, a, b) ==> distance <= |chain| - 1
    ensures exists chain :: Chain(chain, a, b) && distance == |chain| - 1
  {
    distance := LevenshteinTable(a, b);
    var shortest := DistanceIsReached(a, b);
    forall chain | Chain(chain, a, b) ensures distance <= |chain| - 1 {
      DistanceIsLeast(chain, a, b);
    }
  }

  method LevenshteinTable(a: Text, b: Text) returns (distance: nat)
    ensures distance == Distance(a, b)
  {
    if a == b { SelfDistance(a); return 0; }
    if |a| == 0 { return |b|; }
    if |b| == 0 { return |a|; }
    ghost var d := PrefixDistances(a, b);
    distance := FillRows(a, b, d);
  }

  method FillRows(a: Text, b: Text, ghost d: seq<seq<nat>>) returns (distance: nat)
    requires IsTable(d, a, b)
    ensures distance == d[|a|][|b|]
  {
    var m, n := |a|, |b|;
    var prev, cur := new nat[n + 1], new nat[n + 1];
    for j := 0 to n + 1
      invariant forall k :: 0 <= k < j ==> prev[k] == k
    {
      prev[j] := j;
    }
    for i := 1 to m + 1
      invariant prev != cur && fresh(prev) && fresh(cur) && prev.Length == cur.Length == n + 1
      invariant forall k :: 0 <= k <= n ==> prev[k] == d[i - 1][k]
    {
      cur[0] := i;
      var ca := a[i - 1];
      for j := 1 to n + 1
        invariant forall k :: 0 <= k <= n ==> prev[k] == d[i - 1][k]
        invariant forall k :: 0 <= k < j ==> cur[k] == d[i][k]
      {
        var cost := if ca == b[j - 1] then 0 else 1;
        assert IsCell(d, a, b, i, j);
        cur[j] := Min(Min(prev[j] + 1, cur[j - 1] + 1), prev[j - 1] + cost);
      }
      prev, cur := cur, prev;
    }
    return prev[n];
  }

  // ---- Similarity ----

  const SPACE: CodeUnit := 32

  /** `[a-z0-9]` */
  predicate Alnum(c: CodeUnit) {
    48 <= c <= 57 || 97 <= c <= 122
  }

  /** Every run of anything but letters and digits becomes one space. */
  function Collapsed(s: Text): Text {
    if s == [] then []
    else
      var rest := Collapsed(s[1..]);
      if Alnum(s[0]) then [s[0]] + rest
      else if rest != [] && rest[0] == SPACE then rest
      else [SPACE] + rest
  }

  function Trimmed(s: Text): Text {
    var front := if s != [] && s[0] == SPACE then s[1..] else s;
    if front != [] && Last(front) == SPACE then Init(front) else front
  }

  /** The name normaliser; `fold` stands for its first steps, confusable spellings and lower case. */
  function FuzzyNormalize(s: Text, fold: Text -> Text): Text {
    Trimmed(Collapsed(fold(s)))
  }

  /** The compact form is the normalized form without its spaces. */
  function Compact(s: Text): Text {
    if s == [] then [] else if s[0] == SPACE then Compact(s[1..]) else [s[0]] + Compact(s[1..])
  }

  /** The letters and digits of a text, in order. */
  function AlnumsOf(s: Text): Text {
    if s == [] then [] else (if Alnum(s[0]) then [s[0]] else []) + AlnumsOf(s[1..])
  }

  lemma {:induction false} CollapsedCompact(s: Text)
    ensures Compact(Collapsed(s)) == AlnumsOf(s)
    ensures forall i :: 0 <= i < |Collapsed(s)| ==> Collapsed(s)[i] == SPACE || Alnum(Collapsed(s)[i])
    ensures forall i :: 0 <= i < |Collapsed(s)| - 1 ==> Apart(Collapsed(s), i)
  {
    if s != [] {
      CollapsedCompact(s[1..]);
      var rest, all := Collapsed(s[1..]), Collapsed(s);
      if all != rest {
        assert all[1..] == rest;
        forall i | 0 <= i < |all| - 1 ensures Apart(all, i) {
          if i > 0 { assert Apart(rest, i - 1); }
        }
      }
    }
  }

  /** No two spaces in a row. */
  ghost predicate Apart(s: Text, i: nat)
    requires i + 1 < |s|
  {
    s[i] != SPACE || s[i + 1] != SPACE
  }

  lemma {:induction false} CompactDropsLast(s: Text)
    requires s != [] && Last(s) == SPACE
    ensures Compact(Init(s)) == Compact(s)
  {
    if |s| == 1 {
      assert Init(s) == [] && s[1..] == [];
    } else {
      CompactDropsLast(s[1..]);
      assert Init(s)[0] == s[0] && Init(s)[1..] == Init(s[1..]);
    }
  }

  /** The compact form of any name is exactly its letters and digits, and a name without any normalizes to nothing. */
  lemma CompactKeepsAlnums(s: Text, fold: Text -> Text)
    ensures Compact(FuzzyNormalize(s, fold)) == AlnumsOf(fold(s))
    ensures FuzzyNormalize(s, fold) == [] <==> AlnumsOf(fold(s)) == []
  {
    var all := Collapsed(fold(s));
    CollapsedCompact(fold(s));
    var front := if all != [] && all[0] == SPACE then all[1..] else all;
    if front != [] && Last(front) == SPACE { CompactDropsLast(front); }
    var trimmed := Trimmed(all);
    if trimmed != [] {
      if all[0] == SPACE { assert Apart(all, 0); }
      assert trimmed[0] != SPACE;
    }
  }

  /** One minus the share of the longer compact form that must change. */
  ghost function Score(ca: Text, cb: Text): real {
    if ca == cb then 1.0 else 1.0 - Distance(ca, cb) as real / Max(1, Max(|ca|, |cb|)) as real
  }

  lemma ScoreRange(ca: Text, cb: Text)
    ensures 0.0 <= Score(ca, cb) <= 1.0
    ensures Score(ca, cb) == 1.0 <==> ca == cb
    ensures Score(ca, cb) == Score(cb, ca)
    ensures ca == [] || cb == [] ==> Score(ca, cb) == if ca == cb then 1.0 else 0.0
  {
    Bounds(ca, cb);
    ZeroMeansEqual(ca, cb);
    Symmetric(ca, cb);
    if ca != cb { Share(Distance(ca, cb), Max(|ca|, |cb|)); }
  }

  /** A chain of that many edits leads from `a` to `b`, and no chain is shorter. */
  ghost predicate Shortest(edits: nat, a: Text, b: Text) {
    && (exists chain :: Chain(chain, a, b) && |chain| - 1 == edits)
    && forall chain :: Chain(chain, a, b) ==> edits <= |chain| - 1
  }

  lemma DistanceIsShortest(a: Text, b: Text)
    ensures Shortest(Distance(a, b), a, b)
  {
    var chain := DistanceIsReached(a, b);
    forall other | Chain(other, a, b) ensures Distance(a, b) <= |other| - 1 { DistanceIsLeast(other, a, b); }
  }

  /** What is missing from 1 is the share of the longer text that a shortest chain of edits changes. */
  ghost predicate Rates(score: real, a: Text, b: Text) {
    exists edits :: Shortest(edits, a, b) && edits as real == (1.0 - score) * Max(|a|, |b|) as real
  }

  lemma ScoreRates(ca: Text, cb: Text)
    requires ca != cb
    ensures Rates(Score(ca, cb), ca, cb)
  {
    DistanceIsShortest(ca, cb);
    ScoreShare(ca, cb);
    RatesBy(Distance(ca, cb), Score(ca, cb), ca, cb);
  }

  lemma ScoreShare(ca: Text, cb: Text)
    requires ca != cb
    ensures Max(|ca|, |cb|) > 0 && Score(ca, cb) == 1.0 - Distance(ca, cb) as real / Max(|ca|, |cb|) as real
  {
    assert Max(1, Max(|ca|, |cb|)) == Max(|ca|, |cb|);
  }

  lemma RatesBy(edits: nat, score: real, a: Text, b: Text)
    requires Shortest(edits, a, b) && Max(|a|, |b|) > 0 && score == 1.0 - edits as real / Max(|a|, |b|) as real
    ensures Rates(score, a, b)
  {
    Unshare(edits, Max(|a|, |b|), score);
  }

  lemma Unshare(part: nat, whole: nat, score: real)
    requires whole > 0 && score == 1.0 - part as real / whole as real
    ensures part as real == (1.0 - score) * whole as real
  {
    var share := part as real / whole as real;
    assert 1.0 - score == share;
    assert share * whole as real == part as real;
  }

  lemma Share(part: nat, whole: nat)
    requires part <= whole && whole > 0
    ensures 0.0 <= part as real / whole as real <= 1.0
    ensures part as real / whole as real == 0.0 <==> part == 0
    ensures part == whole ==> part as real / whole as real == 1.0
  {
  }

  /** Similarity of two names: 1 exactly when they have the same letters and digits in the same order. */
  method Similarity(a: Text, b: Text, fold: Text -> Text) returns (score: real)
    ensures score == Score(AlnumsOf(fold(a)), AlnumsOf(fold(b)))
    ensures 0.0 <= score <= 1.0
    ensures score == 1.0 <==> AlnumsOf(fold(a)) == AlnumsOf(fold(b))
    ensures AlnumsOf(fold(a)) != AlnumsOf(fold(b)) ==> Rates(score, AlnumsOf(fold(a)), AlnumsOf(fold(b)))
  {
    if AlnumsOf(fold(a)) != AlnumsOf(fold(b)) { ScoreRates(AlnumsOf(fold(a)), AlnumsOf(fold(b))); }
    CompactKeepsAlnums(a, fold);
    CompactKeepsAlnums(b, fold);
    ScoreRange(AlnumsOf(fold(a)), AlnumsOf(fold(b)));
    var na, nb := FuzzyNormalize(a, fold), FuzzyNormalize(b, fold);
    if na == [] && nb == [] { return 1.0; }
    if na == [] || nb == [] { return 0.0; }
    if na == nb { return 1.0; }
    var ca, cb := Compact(na), Compact(nb);
    if ca == cb { return 1.0; }
    var dist := Levenshtein(ca, cb);
    var maxLen := Max(|ca|, |cb|);
    if maxLen == 0 { return 1.0; }
    var ratio := 1.0 - dist as real / maxLen as real;
    return if ratio < 0.0 then 0.0 else ratio;
  }
}
