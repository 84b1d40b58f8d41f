/**
  Partitioning of the word catalog into days of WORDS_PER_DAY words, and the
  completion test the dashboard shows on every day tile. Only the size of the
  catalog matters here: a word is identified by its 0-based index.
 */
module Days {

  /** Number of words in one day's batch. */
  const WORDS_PER_DAY: nat := 20

  function Min(a: int, b: int): (m: int)
    ensures m <= a && m <= b && (m == a || m == b)
  {
    if a < b then a else b
  }

  /** The ascending indices lo, lo+1, ..., hi-1; empty when hi <= lo. */
  function Range(lo: nat, hi: nat): (r: seq<nat>)
    ensures |r| == if hi <= lo then 0 else hi - lo
    ensures forall k :: 0 <= k < |r| ==> r[k] == lo + k
  {
    if hi <= lo then [] else seq(hi - lo, k requires 0 <= k < hi - lo => lo + k)
  }

  lemma RangeSnoc(lo: nat, hi: nat)
    requires lo <= hi
    ensures Range(lo, hi) + [hi] == Range(lo, hi + 1)
  {
    var r, r' := Range(lo, hi) + [hi], Range(lo, hi + 1);
    assert |r| == |r'|;
    forall k | 0 <= k < |r| ensures r[k] == r'[k] {
      if k < hi - lo {
        assert r[k] == Range(lo, hi)[k];
      }
    }
  }

  /** Number of day tiles: the catalog size divided by WORDS_PER_DAY, rounded up. */
  function TotalDays(size: nat): (days: nat)
    ensures days * WORDS_PER_DAY >= size
    ensures days == 0 || (days - 1) * WORDS_PER_DAY < size
  {
    (size + WORDS_PER_DAY - 1) / WORDS_PER_DAY
  }

  /** First index of day `day` (days are numbered from 1). */
  function DayStart(day: nat): (start: nat)
    requires day >= 1
    ensures start % WORDS_PER_DAY == 0 && start / WORDS_PER_DAY == day - 1
  {
    (day - 1) * WORDS_PER_DAY
  }

  /** One past the last index of day `day`, clamped to the catalog size. */
  function DayEnd(day: nat, size: nat): (end: nat)
    requires day >= 1
    ensures end <= size && end <= DayStart(day) + WORDS_PER_DAY
    ensures end == size || end == DayStart(day) + WORDS_PER_DAY
  {
    Min(DayStart(day) + WORDS_PER_DAY, size)
  }

  /** The word indices of day `day`, in ascending order. */
  function DayIndices(day: nat, size: nat): (r: seq<nat>)
    requires day >= 1
    ensures |r| <= WORDS_PER_DAY
    ensures forall k :: 0 <= k < |r| ==> r[k] == DayStart(day) + k && r[k] < size
  {
    Range(DayStart(day), DayEnd(day, size))
  }

  /** Every index of `xs` occurs in `learned` (the `every`/`includes` test). */
  predicate AllIn(xs: seq<nat>, learned: seq<nat>)
    ensures AllIn(xs, learned) <==> forall x :: x in xs ==> x in learned
  {
    forall k :: 0 <= k < |xs| ==> xs[k] in learned
  }

  /**
    The dashboard's completion mark of a day. A day that starts past the end
    of the catalog has no words, so it counts as complete.
   */
  predicate IsDayCompleted(day: nat, size: nat, learned: seq<nat>)
    requires day >= 1
    ensures size <= DayStart(day) ==> IsDayCompleted(day, size, learned)
  {
    AllIn(DayIndices(day, size), learned)
  }

  /** An index lies in exactly the day whose number is its quotient by WORDS_PER_DAY plus one. */
  function DayOf(i: nat): (day: nat)
    ensures day >= 1 && DayStart(day) <= i < DayStart(day) + WORDS_PER_DAY
  {
    i / WORDS_PER_DAY + 1
  }

  /** Membership in a day's range, stated on the bounds of the range. */
  lemma {:induction false} InDayIndices(day: nat, size: nat, i: nat)
    requires day >= 1
    ensures i in DayIndices(day, size) <==> DayStart(day) <= i < DayEnd(day, size)
  {
    var r := DayIndices(day, size);
    if DayStart(day) <= i < DayEnd(day, size) {
      assert r[i - DayStart(day)] == i;
    }
  }

  /**
    The days partition the catalog: every valid index belongs to one day and
    to no other, and that day is on the dashboard.
   */
  lemma {:induction false} DaysPartitionCatalog(size: nat, i: nat, day: nat)
    requires i < size && day >= 1
    ensures 1 <= DayOf(i) <= TotalDays(size)
    ensures i in DayIndices(day, size) <==> day == DayOf(i)
  {
    InDayIndices(day, size, i);
    var d := DayOf(i);
    assert d <= TotalDays(size) by {
      assert DayStart(d) <= i < size <= TotalDays(size) * WORDS_PER_DAY;
    }
    if day < d {
      assert DayStart(day) + WORDS_PER_DAY <= DayStart(d);
    } else if day > d {
      assert DayStart(d) + WORDS_PER_DAY <= DayStart(day);
    }
  }

  /**
    Every day on the dashboard holds between 1 and WORDS_PER_DAY words, and
    every day except the last holds exactly WORDS_PER_DAY.
   */
  lemma {:induction false} DaySize(day: nat, size: nat)
    requires 1 <= day <= TotalDays(size)
    ensures 1 <= |DayIndices(day, size)| <= WORDS_PER_DAY
    ensures day < TotalDays(size) ==> |DayIndices(day, size)| == WORDS_PER_DAY
  {
    assert DayStart(day) < size by {
      assert (day - 1) * WORDS_PER_DAY <= (TotalDays(size) - 1) * WORDS_PER_DAY;
    }
    if day < TotalDays(size) {
      assert DayStart(day) + WORDS_PER_DAY <= (TotalDays(size) - 1) * WORDS_PER_DAY;
    }
  }

  /** The last day holds what is left after the full days: between 1 and WORDS_PER_DAY words. */
  lemma {:induction false} LastDaySize(size: nat)
    requires size >= 1
    ensures TotalDays(size) >= 1
    ensures |DayIndices(TotalDays(size), size)| == size - (TotalDays(size) - 1) * WORDS_PER_DAY
    ensures 1 <= |DayIndices(TotalDays(size), size)| <= WORDS_PER_DAY
  {
    DaySize(TotalDays(size), size);
  }

  /**
    Completion is judged on the clamped range: a day is complete exactly when
    every index from its start up to min(start + WORDS_PER_DAY, size) is learned.
   */
  lemma {:induction false} CompletedIff(day: nat, size: nat, learned: seq<nat>)
    requires day >= 1
    ensures IsDayCompleted(day, size, learned) <==>
            (forall i :: DayStart(day) <= i < DayEnd(day, size) ==> i in learned)
  {
    var r := DayIndices(day, size);
    if forall i :: DayStart(day) <= i < DayEnd(day, size) ==> i in learned {
      forall k | 0 <= k < |r| ensures r[k] in learned {
        assert DayStart(day) <= r[k] < DayEnd(day, size);
      }
    } else {
      var i :| DayStart(day) <= i < DayEnd(day, size) && i !in learned;
      assert r[i - DayStart(day)] == i;
    }
  }

  /** With nothing learned, no day on the dashboard is complete. */
  lemma {:induction false} NothingLearnedNoDayComplete(size: nat, day: nat)
    requires 1 <= day <= TotalDays(size)
    ensures !IsDayCompleted(day, size, [])
  {
    DaySize(day, size);
    assert DayIndices(day, size)[0] !in [];
  }

  /** Learning more words never turns a completed day back to incomplete. */
  lemma CompletedMonotone(day: nat, size: nat, learned: seq<nat>, learned': seq<nat>)
    requires day >= 1
    requires forall w :: w in learned ==> w in learned'
    ensures IsDayCompleted(day, size, learned) ==> IsDayCompleted(day, size, learned')
  {
  }

  /**
    When one index of a day is the only one not yet learned, learning it
    completes the day.
   */
  lemma {:induction false} LastMissingCompletes(day: nat, size: nat, learned: seq<nat>, w: nat)
    requires day >= 1
    requires DayStart(day) <= w < DayEnd(day, size)
    requires forall i :: DayStart(day) <= i < DayEnd(day, size) && i != w ==> i in learned
    ensures !IsDayCompleted(day, size, learned) <==> w !in learned
    ensures IsDayCompleted(day, size, learned + [w])
  {
    CompletedIff(day, size, learned);
    CompletedIff(day, size, learned + [w]);
  }

  /**
    A catalog of 25 words has two days: indices 0 to 19, then the five
    indices 20 to 24, and day 2 is complete once those five are learned.
   */
  lemma {:induction false} TwentyFiveWords(learned: seq<nat>)
    ensures TotalDays(25) == 2
    ensures DayIndices(1, 25) == Range(0, 20)
    ensures DayIndices(2, 25) == [20, 21, 22, 23, 24]
    ensures IsDayCompleted(2, 25, learned) <==>
            20 in learned && 21 in learned && 22 in learned && 23 in learned && 24 in learned
  {
    var r := DayIndices(2, 25);
    assert r == [20, 21, 22, 23, 24] by {
      assert |r| == 5;
      assert r[0] == 20 && r[1] == 21 && r[2] == 22 && r[3] == 23 && r[4] == 24;
    }
  }
}
