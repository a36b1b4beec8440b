/** The slot selector (pkg/teetimes): keep the bookable slots, sort them by
    their `HH:MM` label, keep those strictly inside the time window, and pick
    one at random. */
module TeeTimes {
  import opened Wrappers
  import opened Models
  import opened Strings
  import Seqs

  const ErrNoTimeSlotsAvailable := "no time slots available"

  predicate IsBookable(ts: TimeSlot) {
    ts.canBook
  }

  /** Both bounds are exclusive: `ts.Time > startTime && ts.Time < endTime`. */
  predicate InWindow(ts: TimeSlot, start: string, end: string) {
    Less(start, ts.time) && Less(ts.time, end)
  }

  /** The slots FilterByBookable keeps, in their original order. */
  function Bookable(slots: seq<TimeSlot>): seq<TimeSlot> {
    Seqs.Filter(slots, IsBookable)
  }

  /** The slots FilterBetweenTimes keeps, in their original order. */
  function Between(slots: seq<TimeSlot>, start: string, end: string): seq<TimeSlot> {
    Seqs.Filter(slots, (ts: TimeSlot) => InWindow(ts, start, end))
  }

  /** Labels never decrease in string order (equal labels may come in any order). */
  ghost predicate SortedByTime(s: seq<TimeSlot>) {
    forall i, j :: 0 <= i < j < |s| ==> !Less(s[j].time, s[i].time)
  }

  /** The labels of a list of slots, in order. */
  function Labels(s: seq<TimeSlot>): (r: seq<string>)
    ensures |r| == |s| && forall i :: 0 <= i < |s| ==> r[i] == s[i].time
  {
    seq(|s|, i requires 0 <= i < |s| => s[i].time)
  }

  // ---------------------------------------------------------------------------
  // SortTimesAscending

  /** Sorts the slots in place by label, as `sort.Slice` with `slots[i].Time < slots[j].Time`
      does; the sort is a selection sort and, like `sort.Slice`, not stable. */
  method SortTimesAscending(slots: array<TimeSlot>)
    modifies slots
    ensures SortedByTime(slots[..])
    ensures multiset(slots[..]) == multiset(old(slots[..]))
  {
    var n := slots.Length;
    var i := 0;
    while i < n
      invariant 0 <= i <= n
      invariant SettledUpTo(slots[..], i)
      invariant multiset(slots[..]) == multiset(old(slots[..]))
    {
      var m := EarliestFrom(slots, i);
      ghost var before := slots[..];
      slots[i], slots[m] := slots[m], slots[i];
      assert slots[..] == before[i := before[m]][m := before[i]];
      SwapSettles(before, i, m);
      i := i + 1;
    }
  }

  /** The first `i` places hold the `i` earliest labels, in order. */
  ghost predicate SettledUpTo(s: seq<TimeSlot>, i: int) {
    forall a, b :: 0 <= a < i && a < b < |s| ==> !Less(s[b].time, s[a].time)
  }

  /** Swapping the earliest remaining slot into place `i` settles one more place. */
  lemma SwapSettles(before: seq<TimeSlot>, i: nat, m: nat)
    requires i <= m < |before|
    requires SettledUpTo(before, i)
    requires forall k :: i <= k < |before| ==> !Less(before[k].time, before[m].time)
    ensures SettledUpTo(before[i := before[m]][m := before[i]], i + 1)
    ensures multiset(before[i := before[m]][m := before[i]]) == multiset(before)
  {
    var after := before[i := before[m]][m := before[i]];
    forall a, b | 0 <= a < i + 1 && a < b < |after|
      ensures !Less(after[b].time, after[a].time)
    {
      if b < i {
        assert after[a] == before[a] && after[b] == before[b];
      } else {
        var x := if b == i then m else if b == m then i else b;
        assert after[b] == before[x] && i <= x;
        if a < i {
          assert after[a] == before[a] && a < x;
        }
      }
    }
  }

  /** The index of a slot with the smallest label among `slots[from..]`. */
  method EarliestFrom(slots: array<TimeSlot>, from: nat) returns (m: nat)
    requires from < slots.Length
    ensures from <= m < slots.Length
    ensures forall k :: from <= k < slots.Length ==> !Less(slots[k].time, slots[m].time)
  {
    m := from;
    LessIrreflexive(slots[from].time);
    var j := from + 1;
    while j < slots.Length
      invariant from <= m < slots.Length && from < j <= slots.Length
      invariant forall k :: from <= k < j ==> !Less(slots[k].time, slots[m].time)
    {
      if Less(slots[j].time, slots[m].time) {
        forall k | from <= k < j
          ensures !Less(slots[k].time, slots[j].time)
        {
          if Less(slots[k].time, slots[j].time) {
            LessTransitive(slots[k].time, slots[j].time, slots[m].time);
          }
        }
        LessIrreflexive(slots[j].time);
        m := j;
      }
      j := j + 1;
    }
  }

  /** Two sorted permutations of the same slots carry the same labels in the
      same order: sorting an already sorted list leaves its labels as they are. */
  lemma SortedPermutationsShareLabels(s: seq<TimeSlot>, t: seq<TimeSlot>)
    requires SortedByTime(s) && SortedByTime(t)
    requires multiset(s) == multiset(t)
    ensures Labels(s) == Labels(t)
  {
    PermutationLabels(s, t);
    assert Ascending(Labels(s)) && Ascending(Labels(t));
    SortedStringsEqual(Labels(s), Labels(t));
  }

  lemma {:induction false} PermutationLabels(s: seq<TimeSlot>, t: seq<TimeSlot>)
    requires multiset(s) == multiset(t)
    ensures multiset(Labels(s)) == multiset(Labels(t))
    decreases |s|
  {
    if s == [] {
      assert |t| == |multiset(t)| == 0;
    } else {
      var k := MatchFirst(s, t);
      PermutationLabels(s[1..], t[..k] + t[k + 1..]);
      LabelsCancel(s, t, k);
    }
  }

  /** The first slot of `s` sits at some `k` in a permutation `t`, and the rests match. */
  lemma MatchFirst(s: seq<TimeSlot>, t: seq<TimeSlot>) returns (k: nat)
    requires multiset(s) == multiset(t) && s != []
    ensures k < |t| && t[k] == s[0]
    ensures multiset(s[1..]) == multiset(t[..k] + t[k + 1..])
  {
    assert s[0] in multiset(t);
    k :| 0 <= k < |t| && t[k] == s[0];
    Seqs.MultisetRemoveAt(t, k);
    Seqs.MultisetTail(s);
  }

  /** Putting the matched first label back on both sides keeps the label multisets equal. */
  lemma LabelsCancel(s: seq<TimeSlot>, t: seq<TimeSlot>, k: nat)
    requires s != [] && k < |t| && t[k].time == s[0].time
    requires multiset(Labels(s[1..])) == multiset(Labels(t[..k] + t[k + 1..]))
    ensures multiset(Labels(s)) == multiset(Labels(t))
  {
    LabelsMultisetTail(s);
    LabelsMultisetRemoveAt(t, k);
    var ms, mt := multiset(Labels(s)), multiset(Labels(t));
    assert Labels(s)[0] in ms && Labels(t)[k] in mt;
    Seqs.MultisetCancel(ms, mt, s[0].time);
  }

  lemma LabelsMultisetTail(t: seq<TimeSlot>)
    requires t != []
    ensures multiset(Labels(t[1..])) == multiset(Labels(t)) - multiset{t[0].time}
  {
    assert Labels(t[1..]) == Labels(t)[1..];
    Seqs.MultisetTail(Labels(t));
  }

  lemma LabelsMultisetRemoveAt(t: seq<TimeSlot>, k: nat)
    requires k < |t|
    ensures multiset(Labels(t[..k] + t[k + 1..])) == multiset(Labels(t)) - multiset{t[k].time}
  {
    LabelsRemoveAt(t, k);
    Seqs.MultisetRemoveAt(Labels(t), k);
  }

  lemma LabelsRemoveAt(t: seq<TimeSlot>, k: nat)
    requires k < |t|
    ensures Labels(t[..k] + t[k + 1..]) == Labels(t)[..k] + Labels(t)[k + 1..]
  {
  }

  /** Labels that never decrease in string order. */
  ghost predicate Ascending(a: seq<string>) {
    forall i, j :: 0 <= i < j < |a| ==> !Less(a[j], a[i])
  }

  lemma {:induction false} SortedStringsEqual(a: seq<string>, b: seq<string>)
    requires Ascending(a) && Ascending(b)
    requires multiset(a) == multiset(b)
    ensures a == b
    decreases |a|
  {
    if a == [] {
      assert |b| == |multiset(b)| == 0;
    } else {
      SameHeads(a, b);
      SameTails(a, b);
      SortedStringsEqual(a[1..], b[1..]);
      assert a == [a[0]] + a[1..] && b == [b[0]] + b[1..];
    }
  }

  /** Past an equal first label, the rests are again ascending with the same elements. */
  lemma SameTails(a: seq<string>, b: seq<string>)
    requires Ascending(a) && Ascending(b)
    requires multiset(a) == multiset(b) && a != [] && b != [] && a[0] == b[0]
    ensures Ascending(a[1..]) && Ascending(b[1..])
    ensures multiset(a[1..]) == multiset(b[1..])
  {
    AscendingTail(a);
    AscendingTail(b);
    Seqs.MultisetTail(a);
    Seqs.MultisetTail(b);
  }

  lemma AscendingTail(a: seq<string>)
    requires Ascending(a) && a != []
    ensures Ascending(a[1..])
  {
    forall i, j | 0 <= i < j < |a| - 1
      ensures !Less(a[1..][j], a[1..][i])
    {
      assert a[1..][j] == a[j + 1] && a[1..][i] == a[i + 1];
    }
  }

  /** Two ascending lists with the same elements start with the same label. */
  lemma SameHeads(a: seq<string>, b: seq<string>)
    requires Ascending(a) && Ascending(b)
    requires multiset(a) == multiset(b) && a != []
    ensures b != [] && a[0] == b[0]
  {
    assert a[0] in multiset(b);
    assert b[0] in multiset(a);
    var k :| 0 <= k < |b| && b[k] == a[0];
    var m :| 0 <= m < |a| && a[m] == b[0];
    LessIrreflexive(a[0]);
    assert !Less(a[0], b[0]) by {
      if k > 0 {
        assert !Less(b[k], b[0]);
      }
    }
    assert !Less(b[0], a[0]) by {
      if m > 0 {
        assert !Less(a[m], a[0]);
      }
    }
    if a[0] != b[0] {
      LessTotal(a[0], b[0]);
    }
  }

  // ---------------------------------------------------------------------------
  // FilterByBookable

  method FilterByBookable(slots: seq<TimeSlot>) returns (results: seq<TimeSlot>)
    ensures results == Bookable(slots)
    ensures forall ts :: ts in results <==> ts in slots && ts.canBook
  {
    results := [];
    for i := 0 to |slots|
      invariant results == Bookable(slots[..i])
    {
      assert slots[..i + 1] == slots[..i] + [slots[i]];
      Seqs.FilterSnoc(slots[..i], slots[i], IsBookable);
      if slots[i].canBook {
        results := results + [slots[i]];
      }
    }
    assert slots[..|slots|] == slots;
    forall ts
      ensures ts in results <==> ts in slots && ts.canBook
    {
      Seqs.FilterMembership(slots, IsBookable, ts);
    }
  }

  /** Keeping the bookable slots twice keeps the same slots. */
  lemma {:induction false} BookableIdempotent(slots: seq<TimeSlot>)
    ensures Bookable(Bookable(slots)) == Bookable(slots)
  {
    Seqs.FilterIdempotent(slots, IsBookable);
  }

  /** The bookable slots of a concatenation are those of each part, in order. */
  lemma {:induction false} BookableKeepsOrder(a: seq<TimeSlot>, b: seq<TimeSlot>)
    ensures Bookable(a + b) == Bookable(a) + Bookable(b)
  {
    Seqs.FilterAppend(a, b, IsBookable);
  }

  // ---------------------------------------------------------------------------
  // FilterBetweenTimes

  method FilterBetweenTimes(slots: seq<TimeSlot>, start: string, end: string) returns (results: seq<TimeSlot>)
    ensures results == Between(slots, start, end)
    ensures forall ts :: ts in results <==> ts in slots && Less(start, ts.time) && Less(ts.time, end)
  {
    ghost var keep := (ts: TimeSlot) => InWindow(ts, start, end);
    results := [];
    for i := 0 to |slots|
      invariant results == Between(slots[..i], start, end)
    {
      assert slots[..i + 1] == slots[..i] + [slots[i]];
      Seqs.FilterSnoc(slots[..i], slots[i], keep);
      if Less(start, slots[i].time) && Less(slots[i].time, end) {
        results := results + [slots[i]];
      }
    }
    assert slots[..|slots|] == slots;
    forall ts
      ensures ts in results <==> ts in slots && Less(start, ts.time) && Less(ts.time, end)
    {
      Seqs.FilterMembership(slots, keep, ts);
    }
  }

  /** With `start >= end` no label lies strictly between, so nothing is kept. */
  lemma EmptyWindow(slots: seq<TimeSlot>, start: string, end: string)
    requires !Less(start, end)
    ensures Between(slots, start, end) == []
  {
    var r := Between(slots, start, end);
    if r != [] {
      Seqs.FilterMembership(slots, (ts: TimeSlot) => InWindow(ts, start, end), r[0]);
      LessTransitive(start, r[0].time, end);
    }
  }

  /** Keeping the slots inside the window twice keeps the same slots. */
  lemma {:induction false} BetweenIdempotent(slots: seq<TimeSlot>, start: string, end: string)
    ensures Between(Between(slots, start, end), start, end) == Between(slots, start, end)
  {
    Seqs.FilterIdempotent(slots, (ts: TimeSlot) => InWindow(ts, start, end));
  }

  /** The slots inside the window of a concatenation are those of each part, in order. */
  lemma {:induction false} BetweenKeepsOrder(a: seq<TimeSlot>, b: seq<TimeSlot>, start: string, end: string)
    ensures Between(a + b, start, end) == Between(a, start, end) + Between(b, start, end)
  {
    Seqs.FilterAppend(a, b, (ts: TimeSlot) => InWindow(ts, start, end));
  }

  // ---------------------------------------------------------------------------
  // PickRandomTime

  /** `draw` stands for the value of the shared random source; `rand.Intn(len(slots))`
      is `draw % |slots|`. An empty list gives the zero slot and the error. */
  function PickRandomTime(slots: seq<TimeSlot>, draw: nat): (r: (TimeSlot, Option<string>))
    ensures slots == [] <==> r.1.Some?
    ensures slots == [] ==> r == (ZeroSlot, Some(ErrNoTimeSlotsAvailable))
    ensures slots != [] ==> r.0 in slots
  {
    if |slots| == 0 then (ZeroSlot, Some(ErrNoTimeSlotsAvailable))
    else (slots[draw % |slots|], None)
  }

  /** No slot is systematically excluded: every index is picked by some draw. */
  lemma PickCanReachEverySlot(slots: seq<TimeSlot>, k: nat)
    requires k < |slots|
    ensures PickRandomTime(slots, k) == (slots[k], None)
  {
  }

  /** A single slot is always the one picked. */
  lemma PickFromSingleton(ts: TimeSlot, draw: nat)
    ensures PickRandomTime([ts], draw) == (ts, None)
  {
  }
}
