/**
 The session history of identified plants (App.tsx:12-16): a list, newest
 first, that keeps at most ten entries.
 */
module History {

  /** How many entries the history keeps. */
  const Capacity: nat := 10

  function Min(a: int, b: int): int {
    if a <= b then a else b
  }

  /** The history a session starts with. */
  function Empty<T>(): (h: seq<T>)
    ensures |h| == 0
  {
    []
  }

  /** `addToHistory(entry)`: `[entry, ...prev.slice(0, 9)]`. */
  function Add<T>(history: seq<T>, entry: T): (r: seq<T>)
    ensures |r| == Min(|history| + 1, Capacity)
    ensures r[0] == entry
    ensures forall i :: 1 <= i < |r| ==> r[i] == history[i - 1]
  {
    [entry] + history[..Min(|history|, Capacity - 1)]
  }

  /** The history after adding `entries` in order, the last one most recently. */
  function AddAll<T>(history: seq<T>, entries: seq<T>): seq<T>
    decreases |entries|
  {
    if |entries| == 0 then history
    else Add(AddAll(history, entries[..|entries| - 1]), entries[|entries| - 1])
  }

  function Reverse<T>(s: seq<T>): (r: seq<T>)
    ensures |r| == |s|
    ensures forall i :: 0 <= i < |s| ==> r[i] == s[|s| - 1 - i]
  {
    seq(|s|, i requires 0 <= i < |s| => s[|s| - 1 - i])
  }

  /** Entries 1.. of the new history are the first min(n, 9) entries of the old one, in order. */
  lemma AddShiftsPrefix<T>(history: seq<T>, entry: T)
    ensures Add(history, entry)[1..] == history[..Min(|history|, Capacity - 1)]
  {
  }

  /** A full history drops exactly its oldest entry: the survivors followed by that entry are the old history. */
  lemma AddAtCapacityDropsOldest<T>(history: seq<T>, entry: T)
    requires |history| == Capacity
    ensures |Add(history, entry)| == Capacity
    ensures Add(history, entry)[1..] + [history[Capacity - 1]] == history
  {
    assert Add(history, entry)[1..] == history[..Capacity - 1];
  }

  /** Below capacity nothing is dropped: the new history is the entry followed by the whole old one. */
  lemma AddBelowCapacityKeepsAll<T>(history: seq<T>, entry: T)
    requires |history| < Capacity
    ensures Add(history, entry) == [entry] + history
  {
    assert history[..|history|] == history;
  }

  /** There is no de-duplication: the entry's count is one more than among the
      kept entries, so below capacity it is one more than in the old history. */
  lemma AddDoesNotDeduplicate<T>(history: seq<T>, entry: T)
    ensures multiset(Add(history, entry))[entry] == multiset(history[..Min(|history|, Capacity - 1)])[entry] + 1
    ensures |history| < Capacity ==> multiset(Add(history, entry))[entry] == multiset(history)[entry] + 1
  {
    assert Add(history, entry) == [entry] + history[..Min(|history|, Capacity - 1)];
    if |history| < Capacity {
      assert history[..Min(|history|, Capacity - 1)] == history;
    }
  }

  /** From the empty history, any sequence of additions leaves the newest
      min(n, 10) entries, most recent first. */
  lemma {:induction false} AddAllFromEmpty<T>(entries: seq<T>)
    ensures AddAll(Empty(), entries) == Reverse(entries)[..Min(|entries|, Capacity)]
    decreases |entries|
  {
    if |entries| > 0 {
      var n := |entries|;
      var init := entries[..n - 1];
      AddAllFromEmpty(init);
      var prev := AddAll(Empty(), init);
      var r := AddAll(Empty(), entries);
      assert r == Add(prev, entries[n - 1]);
      var expected := Reverse(entries)[..Min(n, Capacity)];
      assert |r| == |expected|;
      forall i | 0 <= i < |r|
        ensures r[i] == expected[i]
      {
        if i > 0 {
          assert r[i] == prev[i - 1];
          assert prev[i - 1] == Reverse(init)[i - 1];
        }
      }
    }
  }

  /** From the empty history, no sequence of additions makes it longer than the capacity. */
  lemma {:induction false} AddAllBounded<T>(entries: seq<T>)
    ensures |AddAll(Empty(), entries)| == Min(|entries|, Capacity)
  {
    AddAllFromEmpty(entries);
  }
}
