/**
  The learned list: the indices of the words answered correctly, kept in the
  order they were learned, and the conditional append-then-save that records a
  correct answer.
 */
module Progress {

  /** No index occurs twice. */
  predicate Distinct(s: seq<nat>)
  {
    forall i, j :: 0 <= i < j < |s| ==> s[i] != s[j]
  }

  /** Number of occurrences of `w` in `s`. */
  function Count(s: seq<nat>, w: nat): (n: nat)
    ensures n == multiset(s)[w]
  {
    if s == [] then 0
    else
      assert s == [s[0]] + s[1..];
      (if s[0] == w then 1 else 0) + Count(s[1..], w)
  }

  /** The learned list after recording `w`, and whether that record is written to storage. */
  datatype Marked = Marked(learned: seq<nat>, wrote: bool)

  /**
    Records a correct answer for `w`: the index is appended only when it is
    absent, and only then is the list written back.
   */
  function MarkLearned(learned: seq<nat>, w: nat): (m: Marked)
    ensures m.wrote <==> w !in learned
    ensures forall x :: x in m.learned <==> x in learned || x == w
    ensures learned <= m.learned
    ensures |m.learned| == |learned| + (if m.wrote then 1 else 0)
  {
    if w in learned then Marked(learned, false) else Marked(learned + [w], true)
  }

  /** Recording keeps the learned list free of duplicates. */
  lemma {:induction false} MarkLearnedKeepsDistinct(learned: seq<nat>, w: nat)
    requires Distinct(learned)
    ensures Distinct(MarkLearned(learned, w).learned)
  {
    var r := MarkLearned(learned, w).learned;
    if w !in learned {
      forall i, j | 0 <= i < j < |r| ensures r[i] != r[j] {
        if j == |learned| {
          assert r[i] == learned[i];
        } else {
          assert r[i] == learned[i] && r[j] == learned[j];
        }
      }
    }
  }

  /**
    Recording the same index twice writes once and leaves the index in the
    list exactly once.
   */
  lemma {:induction false} MarkTwiceWritesOnce(learned: seq<nat>, w: nat)
    requires Distinct(learned)
    ensures var m1 := MarkLearned(learned, w);
            var m2 := MarkLearned(m1.learned, w);
            && !m2.wrote
            && m2.learned == m1.learned
            && (if m1.wrote then 1 else 0) + (if m2.wrote then 1 else 0) == (if w in learned then 0 else 1)
            && Count(m2.learned, w) == 1
  {
    var m1 := MarkLearned(learned, w);
    MarkLearnedKeepsDistinct(learned, w);
    DistinctCount(m1.learned, w);
  }

  lemma DistinctTail(s: seq<nat>)
    requires s != [] && Distinct(s)
    ensures Distinct(s[1..])
  {
    forall i, j | 0 <= i < j < |s| - 1 ensures s[1..][i] != s[1..][j] {
      assert s[1..][i] == s[i + 1] && s[1..][j] == s[j + 1];
    }
  }

  /** In a list without duplicates a member occurs exactly once. */
  lemma {:induction false} DistinctCount(s: seq<nat>, w: nat)
    requires Distinct(s) && w in s
    ensures Count(s, w) == 1
  {
    if s[0] == w {
      assert w !in s[1..] by {
        forall k | 0 <= k < |s| - 1 ensures s[1..][k] != w {
          assert s[1..][k] == s[k + 1];
        }
      }
      assert Count(s[1..], w) == 0;
    } else {
      DistinctTail(s);
      DistinctCount(s[1..], w);
    }
  }

  /** Two equal entries at different positions make the value occur at least twice. */
  lemma RepeatedEntry(s: seq<nat>, i: nat, j: nat)
    requires i < j < |s| && s[i] == s[j]
    ensures multiset(s)[s[i]] >= 2
  {
    assert s == s[..i] + [s[i]] + s[i + 1..j] + [s[j]] + s[j + 1..];
  }

  /** Reordering a list without duplicates gives a list without duplicates. */
  lemma {:induction false} PermutationKeepsDistinct(a: seq<nat>, b: seq<nat>)
    requires multiset(a) == multiset(b) && Distinct(a)
    ensures Distinct(b)
  {
    forall i, j | 0 <= i < j < |b| ensures b[i] != b[j] {
      if b[i] == b[j] {
        RepeatedEntry(b, i, j);
        assert b[i] in multiset(a);
        DistinctCount(a, b[i]);
        assert false;
      }
    }
  }
}
