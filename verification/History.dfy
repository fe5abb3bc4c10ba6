/** Bounded chat history: the online eviction of bot/src/llm/history.ts against an offline window. */
module History {

  datatype Role = User | Assistant
  datatype Entry = Entry(role: Role, content: string)

  /** Estimated tokens of a list of turns. */
  function Total(turns: seq<Entry>, estimate: string -> nat): nat {
    if turns == [] then 0 else estimate(turns[0].content) + Total(turns[1..], estimate)
  }

  datatype Caps = Caps(maxTokens: int, maxTurns: nat, estimate: string -> nat)

  /** Within both caps. */
  predicate Fits(turns: seq<Entry>, caps: Caps) {
    |turns| <= caps.maxTurns && Total(turns, caps.estimate) <= caps.maxTokens
  }

  /** May be kept: within both caps, or a lone turn that only breaks the token budget. */
  predicate Keepable(turns: seq<Entry>, caps: Caps) {
    Fits(turns, caps) || turns == [] || (|turns| == 1 && caps.maxTurns >= 1)
  }

  /** What a reader who sees every turn at once would keep: the longest suffix that may be kept. */
  function Window(turns: seq<Entry>, caps: Caps): seq<Entry> {
    if Keepable(turns, caps) then turns else Window(turns[1..], caps)
  }

  lemma {:induction false} WindowIsSuffix(turns: seq<Entry>, caps: Caps)
    ensures Keepable(Window(turns, caps), caps)
    ensures |Window(turns, caps)| <= |turns|
    ensures Window(turns, caps) == turns[|turns| - |Window(turns, caps)|..]
  {
    if !Keepable(turns, caps) {
      WindowIsSuffix(turns[1..], caps);
    }
  }

  /** A list within the caps stays within them when turns go; one beyond them stays beyond when turns come. */
  lemma {:induction false} FitsShrinks(more: seq<Entry>, turns: seq<Entry>, after: seq<Entry>, caps: Caps)
    requires Fits(more + turns + after, caps)
    ensures Fits(turns, caps)
  {
    TotalAppend(more + turns, after, caps.estimate);
    TotalAppend(more, turns, caps.estimate);
  }

  lemma {:induction false} TotalAppend(a: seq<Entry>, b: seq<Entry>, estimate: string -> nat)
    ensures Total(a + b, estimate) == Total(a, estimate) + Total(b, estimate)
  {
    if a == [] {
      assert a + b == b;
    } else {
      assert (a + b)[1..] == a[1..] + b;
      TotalAppend(a[1..], b, estimate);
    }
  }

  /** With room for a turn, the window is the longest suffix within both caps, or just the last turn. */
  lemma {:induction false} WindowIsLongest(turns: seq<Entry>, caps: Caps, start: nat)
    requires caps.maxTurns >= 1 && start < |turns|
    ensures Fits(turns[start..], caps) ==> |turns| - start <= |Window(turns, caps)|
    ensures Window(turns, caps) != []
    ensures !Fits(Window(turns, caps), caps) ==>
      Window(turns, caps) == [turns[|turns| - 1]] && !Fits(turns[start..], caps)
  {
    if Keepable(turns, caps) {
      if Fits(turns[start..], caps) { LastFits(turns, caps, start); }
    } else {
      if start > 0 {
        assert turns[1..][start - 1..] == turns[start..];
        WindowIsLongest(turns[1..], caps, start - 1);
      } else {
        WindowIsLongest(turns[1..], caps, 0);
        assert turns[0..] == turns;
      }
    }
  }

  lemma LastFits(turns: seq<Entry>, caps: Caps, start: nat)
    requires start < |turns| && Fits(turns[start..], caps)
    ensures Fits(turns[|turns| - 1..], caps)
  {
    var last := turns[|turns| - 1..];
    assert turns[start..] == turns[start..|turns| - 1] + last + [];
    FitsShrinks(turns[start..|turns| - 1], last, [], caps);
  }

  /** Evicting early never matters: the window forgets only what a later window would forget anyway. */
  lemma {:induction false} EvictionIsOnline(turns: seq<Entry>, more: seq<Entry>, caps: Caps)
    requires more != []
    ensures Window(Window(turns, caps) + more, caps) == Window(turns + more, caps)
  {
    if !Keepable(turns, caps) {
      assert (turns + more)[1..] == turns[1..] + more;
      if Fits(turns + more, caps) {
        assert [] + turns + more == turns + more;
        FitsShrinks([], turns, more, caps);
      }
      EvictionIsOnline(turns[1..], more, caps);
    }
  }

  /** The store: one list per conversation, trimmed after every append. */
  class ConversationStore {
    const caps: Caps
    var conversations: map<string, seq<Entry>>
    /** Every turn of a conversation since it was last cleared. */
    ghost var said: map<string, seq<Entry>>

    /** What is retained is the offline window over everything said. */
    ghost predicate Valid()
      reads this
    {
      && conversations.Keys == said.Keys
      && forall key :: key in said ==> conversations[key] == Window(said[key], caps)
    }

    constructor (maxTokens: int := 1024, maxTurns: nat := 20, estimate: string -> nat := EstimateTokens)
      ensures Valid() && said == map[] && caps == Caps(maxTokens, maxTurns, estimate)
    {
      caps := Caps(maxTokens, maxTurns, estimate);
      conversations := map[];
      said := map[];
    }

    function Get(key: string): (turns: seq<Entry>)
      requires Valid()
      reads this
      ensures turns == if key in said then Window(said[key], caps) else []
    {
      if key in conversations then conversations[key] else []
    }

    method Append(key: string, entry: Entry)
      requires Valid()
      modifies this
      ensures Valid() && said == old(said)[key := old(Said(key)) + [entry]]
    {
      var list := Get(key);
      ghost var before := Said(key);
      EvictionIsOnline(before, [entry], caps);
      list := Trim(list + [entry]);
      conversations := conversations[key := list];
      said := said[key := before + [entry]];
    }

    method AppendMany(key: string, entries: seq<Entry>)
      requires Valid()
      modifies this
      ensures Valid()
      ensures said == if entries == [] then old(said) else old(said)[key := old(Said(key)) + entries]
    {
      if |entries| == 0 { return; }
      var list := Get(key);
      ghost var before := Said(key);
      EvictionIsOnline(before, entries, caps);
      list := Trim(list + entries);
      conversations := conversations[key := list];
      said := said[key := before + entries];
    }

    method Clear(key: string)
      requires Valid()
      modifies this
      ensures Valid() && said == old(said) - {key}
    {
      said := said - {key};
      conversations := conversations - {key};
    }

    ghost function Said(key: string): seq<Entry>
      reads this
    {
      if key in said then said[key] else []
    }

    /** Evict from the front: turn cap first, then the token budget with a running total. */
    method Trim(turns: seq<Entry>) returns (list: seq<Entry>)
      ensures list == Window(turns, caps)
    {
      list := turns;
      while |list| > caps.maxTurns
        invariant Window(list, caps) == Window(turns, caps)
      {
        list := list[1..];
      }
      var total := Total(list, caps.estimate);
      while |list| > 1 && total > caps.maxTokens
        invariant Window(list, caps) == Window(turns, caps)
        invariant total == Total(list, caps.estimate) && |list| <= caps.maxTurns
      {
        total := total - caps.estimate(list[0].content);
        list := list[1..];
      }
    }
  }

  /** About four characters a token, plus framing. */
  function EstimateTokens(content: string): (tokens: nat)
    ensures 4 * (tokens - 4) - 4 < |content| <= 4 * (tokens - 4)
  {
    (|content| + 3) / 4 + 4
  }
}
