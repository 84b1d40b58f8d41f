/**
  The test session's retry queue as values: one answer moves the head of the
  queue either out (remembered) or to the back (forgotten), and a run of
  answers is the fold of those steps.
 */
module Quiz {
  import opened Progress

  /** The queue after one answer about its head. */
  function Answer(queue: seq<nat>, remembered: bool): (q: seq<nat>)
    requires queue != []
    ensures |q| == |queue| - (if remembered then 1 else 0)
    ensures remembered ==> multiset(q) + multiset{queue[0]} == multiset(queue)
    ensures !remembered ==> multiset(q) == multiset(queue) && q != [] && q[|q| - 1] == queue[0]
    ensures forall w :: w in q ==> w in queue
  {
    assert queue == [queue[0]] + queue[1..];
    if remembered then queue[1..] else queue[1..] + [queue[0]]
  }

  /**
    Accounting for one answer: the words still queued plus the words removed
    by a remembered answer stay the words the test started with, and the
    answered word is one of them.
   */
  lemma AnswerKeepsAccount(queue: seq<nat>, answered: seq<nat>, words: seq<nat>, remembered: bool)
    requires queue != []
    requires multiset(queue) + multiset(answered) == multiset(words)
    ensures queue[0] in words
    ensures multiset(Answer(queue, remembered)) +
            multiset(if remembered then answered + [queue[0]] else answered) == multiset(words)
  {
    assert queue[0] in multiset(words);
  }

  /** A forgotten word is asked again only after every other word still queued. */
  lemma {:induction false} ForgottenWaitsItsTurn(queue: seq<nat>)
    requires queue != []
    ensures Answer(queue, false)[..|queue| - 1] == queue[1..]
  {
  }

  /** What a run of answers leaves behind. */
  datatype Outcome = Outcome(
    queue: seq<nat>,    // the words still to be asked
    correct: seq<nat>,  // the words removed by a remembered answer, in order
    learned: seq<nat>,  // the learned list afterwards
    writes: nat)        // how many times the learned list was written back

  /**
    Applies the answers in `results` one by one to the queue's head; answers
    given after the queue has drained have no effect, since the session has
    ended.
   */
  function Replay(queue: seq<nat>, learned: seq<nat>, results: seq<bool>): (o: Outcome)
    ensures |o.queue| + |o.correct| == |queue|
    ensures |o.correct| <= |results| && o.writes <= |o.correct|
    decreases |results|
  {
    if queue == [] || results == [] then Outcome(queue, [], learned, 0)
    else
      var head := queue[0];
      var m := if results[0] then MarkLearned(learned, head) else Marked(learned, false);
      var rest := Replay(Answer(queue, results[0]), m.learned, results[1..]);
      Outcome(rest.queue,
              (if results[0] then [head] else []) + rest.correct,
              rest.learned,
              (if m.wrote then 1 else 0) + rest.writes)
  }

  /**
    No run of answers loses or duplicates a word: what is still queued plus
    what was answered correctly is the initial queue, and the queue never
    grows.
   */
  lemma {:induction false} ReplayConserves(queue: seq<nat>, learned: seq<nat>, results: seq<bool>)
    ensures var o := Replay(queue, learned, results);
            && multiset(o.queue) + multiset(o.correct) == multiset(queue)
            && |o.queue| <= |queue|
    decreases |results|
  {
    if queue != [] && results != [] {
      var m := if results[0] then MarkLearned(learned, queue[0]) else Marked(learned, false);
      ReplayConserves(Answer(queue, results[0]), m.learned, results[1..]);
    }
  }

  /**
    Over any run of answers every correctly answered word is learned, the
    learned list only grows, stays free of duplicates when it was, and is
    written back once per newly learned word.
   */
  lemma {:induction false} ReplayLearns(queue: seq<nat>, learned: seq<nat>, results: seq<bool>)
    ensures var o := Replay(queue, learned, results);
            && (forall w :: w in o.correct ==> w in o.learned)
            && learned <= o.learned
            && (Distinct(learned) ==> Distinct(o.learned))
            && o.writes == |o.learned| - |learned|
    decreases |results|
  {
    if queue != [] && results != [] {
      var head := queue[0];
      var m := if results[0] then MarkLearned(learned, head) else Marked(learned, false);
      var q' := Answer(queue, results[0]);
      ReplayLearns(q', m.learned, results[1..]);
      var rest := Replay(q', m.learned, results[1..]);
      if Distinct(learned) && results[0] {
        MarkLearnedKeepsDistinct(learned, head);
      }
      assert head in m.learned ==> head in rest.learned by {
        assert m.learned <= rest.learned;
      }
    }
  }

  /**
    With a queue of distinct words, the session ends exactly when every word
    of the queue has been answered correctly at least once; it has then been
    so answered exactly once, and every word is learned.
   */
  lemma {:induction false} ReplayDrainsIff(queue: seq<nat>, learned: seq<nat>, results: seq<bool>)
    requires Distinct(queue)
    ensures var o := Replay(queue, learned, results);
            && (o.queue == [] <==> forall w :: w in queue ==> w in o.correct)
            && (o.queue == [] ==> multiset(o.correct) == multiset(queue))
            && (o.queue == [] ==> forall w :: w in queue ==> w in o.learned)
  {
    var o := Replay(queue, learned, results);
    ReplayConserves(queue, learned, results);
    ReplayLearns(queue, learned, results);
    if forall w :: w in queue ==> w in o.correct {
      forall x ensures multiset(o.queue)[x] == 0 {
        if x in queue {
          DistinctCount(queue, x);
          assert x in o.correct;
        } else {
          assert x !in multiset(queue);
        }
      }
      assert multiset(o.queue) == multiset{};
      assert |o.queue| == |multiset(o.queue)|;
    }
    if o.queue == [] {
      assert multiset(o.queue) == multiset{};
      forall w | w in queue ensures w in o.correct {
        assert w in multiset(queue);
      }
    }
  }

  /**
    Answer `i` of a run, given while words are queued, is one `Answer` step
    on the queue, with the learned list recorded as by `MarkLearned` when it
    is remembered; the rest of the run then starts from there.
   */
  lemma {:induction false} ReplayStep(queue: seq<nat>, learned: seq<nat>, results: seq<bool>, i: nat)
    requires queue != [] && i < |results|
    ensures var m := if results[i] then MarkLearned(learned, queue[0]) else Marked(learned, false);
            var o, rest := Replay(queue, learned, results[i..]), Replay(Answer(queue, results[i]), m.learned, results[i + 1..]);
            && o.queue == rest.queue
            && o.learned == rest.learned
            && o.writes == (if m.wrote then 1 else 0) + rest.writes
  {
    assert results[i..][0] == results[i] && results[i..][1..] == results[i + 1..];
  }

  /** One forgotten answer, followed by the rest of the run. */
  lemma {:induction false} ReplayForgotten(queue: seq<nat>, learned: seq<nat>, results: seq<bool>)
    requires queue != [] && results != [] && !results[0]
    ensures Replay(queue, learned, results) == Replay(queue[1..] + [queue[0]], learned, results[1..])
  {
    var o := Replay(queue[1..] + [queue[0]], learned, results[1..]);
    assert [] + o.correct == o.correct;
  }

  /** `n` remembered answers in a row. */
  function AllRemembered(n: nat): (rs: seq<bool>)
    ensures |rs| == n
  {
    if n == 0 then [] else [true] + AllRemembered(n - 1)
  }

  /**
    Remembering every word at its first asking drains the queue in one pass,
    removing the words in queue order.
   */
  lemma {:induction false} ReplayAllRemembered(queue: seq<nat>, learned: seq<nat>)
    ensures var o := Replay(queue, learned, AllRemembered(|queue|));
            o.queue == [] && o.correct == queue
  {
    if queue != [] {
      var all := AllRemembered(|queue|);
      var m := MarkLearned(learned, queue[0]);
      assert all[1..] == AllRemembered(|queue| - 1);
      ReplayAllRemembered(queue[1..], m.learned);
      assert [queue[0]] + queue[1..] == queue;
    }
  }

  /**
    A session with queue [b, a, c] (for the words [5, 6, 7] shuffled to
    [6, 5, 7]: b = 6, a = 5, c = 7): forgetting b gives [a, c, b]; then
    remembering three times removes a, c and b in that order, drains the
    queue and leaves all three learned.
   */
  lemma {:induction false} ThreeWordSession(a: nat, b: nat, c: nat)
    ensures Answer([b, a, c], false) == [a, c, b]
    ensures var o := Replay([b, a, c], [], [false, true, true, true]);
            o.queue == [] && o.correct == [a, c, b] && a in o.learned && b in o.learned && c in o.learned
  {
    var rs := [false, true, true, true];
    assert [b, a, c][1..] + [[b, a, c][0]] == [a, c, b];
    assert rs[1..] == AllRemembered(3);
    ReplayForgotten([b, a, c], [], rs);
    ReplayAllRemembered([a, c, b], []);
    ReplayLearns([a, c, b], [], AllRemembered(3));
  }
}
