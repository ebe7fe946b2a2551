/**
  The BMI history log: newest entry first, at most ten entries kept.

  `calculateBMI` replaces the log by the new entry followed by the first nine
  entries of the old log (`prev.slice(0, 9)`), so the log never has more than
  ten entries after a calculation and the oldest ones fall off the end.
 */
module History {

  import opened JsNumber

  /** One past calculation, with the fields `bmi`, `date`, `weight`, `height`. */
  datatype Entry = Entry(bmi: Num, date: string, weight: Num, height: Num)

  /** The largest number of entries kept after a calculation. */
  const MaxEntries: nat := 10

  /** JavaScript's `s.slice(0, end)` for `end >= 0`: the first `end` elements, or all of them. */
  function Take<T>(s: seq<T>, end: nat): (r: seq<T>)
    ensures |r| == if end < |s| then end else |s|
    ensures r == s[..|r|]
  {
    if end < |s| then s[..end] else s
  }

  /** `[entry, ...log.slice(0, 9)]` */
  function Record(entry: Entry, log: seq<Entry>): (r: seq<Entry>)
    ensures |r| == if |log| < MaxEntries then |log| + 1 else MaxEntries
    ensures r[0] == entry
    ensures r[1..] == log[..|r| - 1]
    ensures log == r[1..] + log[|r| - 1..]
  {
    [entry] + Take(log, MaxEntries - 1)
  }

  /** `s` in reverse order. */
  function Reversed<T>(s: seq<T>): (r: seq<T>)
    ensures |r| == |s|
  {
    if s == [] then [] else [s[|s| - 1]] + Reversed(s[..|s| - 1])
  }

  lemma {:induction false} ReversedAt<T>(s: seq<T>, k: nat)
    requires k < |s|
    ensures Reversed(s)[k] == s[|s| - 1 - k]
  {
    if k > 0 {
      ReversedAt(s[..|s| - 1], k - 1);
    }
  }

  /** The log after recording `entries` one after another, `entries[0]` first. */
  function RecordAll(log: seq<Entry>, entries: seq<Entry>): seq<Entry>
  {
    if entries == [] then log
    else Record(entries[|entries| - 1], RecordAll(log, entries[..|entries| - 1]))
  }

  /**
    After one or more calculations the log holds the most recent entries,
    newest first, followed by what is left of the old log, cut at ten. (With
    no calculation the log is whatever was loaded, which may be longer.)
   */
  lemma {:induction false} RecordAllKeepsNewest(log: seq<Entry>, entries: seq<Entry>)
    requires entries != [] || |log| <= MaxEntries
    ensures RecordAll(log, entries) == Take(Reversed(entries) + log, MaxEntries)
  {
    if entries != [] {
      var last := entries[|entries| - 1];
      var earlier := entries[..|entries| - 1];
      var before := Reversed(earlier) + log;
      var previous := RecordAll(log, earlier);
      if earlier == [] {
        assert previous == log == before;
      } else {
        RecordAllKeepsNewest(log, earlier);
        assert Take(previous, MaxEntries - 1) == Take(before, MaxEntries - 1);
      }
      assert Reversed(entries) == [last] + Reversed(earlier);
      assert Reversed(entries) + log == [last] + before;
      assert RecordAll(log, entries) == [last] + Take(before, MaxEntries - 1);
      assert [last] + Take(before, MaxEntries - 1) == Take([last] + before, MaxEntries);
    }
  }

  /**
    Eleven calculations from an empty log leave exactly ten entries: the last
    ten, newest first; the first calculation is gone.
   */
  lemma ElevenCalculations(entries: seq<Entry>)
    requires |entries| == 11
    ensures |RecordAll([], entries)| == MaxEntries
    ensures forall k :: 0 <= k < MaxEntries ==> RecordAll([], entries)[k] == entries[10 - k]
  {
    RecordAllKeepsNewest([], entries);
    assert Reversed(entries) + [] == Reversed(entries);
    forall k | 0 <= k < MaxEntries
      ensures RecordAll([], entries)[k] == entries[10 - k]
    {
      ReversedAt(entries, k);
    }
  }
}
