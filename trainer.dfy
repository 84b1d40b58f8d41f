/**
  The application object of the trainer: its state (the learned list, the
  day being studied, the study cursor, the test queue and the word on the
  test card) and the operations the user's clicks run on it. Rendering is not
  modelled; what a handler shows is returned as a flag where it matters
  (the "start test" button, the completion view).
 */
module Trainer {
  import opened Days
  import opened Progress
  import opened Quiz

  datatype Option<T> = None | Some(value: T)

  /** Every index is a valid catalog index. */
  predicate InCatalog(s: seq<nat>, size: nat)
  {
    forall w :: w in s ==> w < size
  }

  class App {
    /** Number of records in the word catalog; the catalog itself is not modelled. */
    const catalogSize: nat

    var currentViewDay: nat
    var learnedIds: seq<nat>
    var todayWords: seq<nat>
    var studyIndex: nat
    var testQueue: seq<nat>
    var currentTestWord: Option<nat>

    /** What a reload of the stored entry would give back. */
    ghost var Persisted: seq<nat>
    /** Number of writes of the learned list to storage. */
    ghost var SaveCount: nat

    ghost predicate Valid()
      reads this
    {
      && (studyIndex == 0 || studyIndex < |todayWords|)
      && InCatalog(todayWords, catalogSize)
      && InCatalog(testQueue, catalogSize)
      && Persisted == learnedIds
    }

    /**
      Start-up: the learned list is read back from storage, or is empty when
      nothing was stored; every other field takes its initial value.
     */
    constructor (size: nat, stored: Option<seq<nat>>)
      ensures Valid()
      ensures catalogSize == size
      ensures learnedIds == (if stored.Some? then stored.value else [])
      ensures currentViewDay == 1 && todayWords == [] && studyIndex == 0
      ensures testQueue == [] && currentTestWord == None
      ensures SaveCount == 0
    {
      catalogSize := size;
      currentViewDay := 1;
      learnedIds := if stored.Some? then stored.value else [];
      todayWords := [];
      studyIndex := 0;
      testQueue := [];
      currentTestWord := None;
      Persisted := learnedIds;
      SaveCount := 0;
    }

    /** Writes the learned list to storage. */
    method SaveState()
      modifies this`Persisted, this`SaveCount
      ensures Persisted == learnedIds
      ensures SaveCount == old(SaveCount) + 1
    {
      Persisted := learnedIds;
      SaveCount := SaveCount + 1;
    }

    /**
      The dashboard: the number of learned words and, for each day from 1 to
      the number of days, whether that day is complete.
     */
    method RenderDashboard() returns (totalLearned: nat, completed: seq<bool>)
      ensures totalLearned == |learnedIds|
      ensures |completed| == TotalDays(catalogSize)
      ensures forall k :: 0 <= k < |completed| ==>
                (completed[k] <==> IsDayCompleted(k + 1, catalogSize, learnedIds))
    {
      totalLearned := |learnedIds|;
      var totalDays := TotalDays(catalogSize);
      completed := [];
      var i := 1;
      while i <= totalDays
        invariant 1 <= i <= totalDays + 1
        invariant |completed| == i - 1
        invariant forall k :: 0 <= k < i - 1 ==>
                    (completed[k] <==> IsDayCompleted(k + 1, catalogSize, learnedIds))
      {
        var startIndex := (i - 1) * WORDS_PER_DAY;
        var endIndex := Min(startIndex + WORDS_PER_DAY, catalogSize);
        assert startIndex < endIndex by {
          assert (i - 1) * WORDS_PER_DAY <= (totalDays - 1) * WORDS_PER_DAY;
        }
        var dayWordIndices := [];
        var j := startIndex;
        while j < endIndex
          invariant startIndex <= j <= endIndex
          invariant dayWordIndices == Range(startIndex, j)
        {
          RangeSnoc(startIndex, j);
          dayWordIndices := dayWordIndices + [j];
          j := j + 1;
        }
        assert dayWordIndices == DayIndices(i, catalogSize);
        var isCompleted := AllIn(dayWordIndices, learnedIds);
        completed := completed + [isCompleted];
        i := i + 1;
      }
    }

    /**
      Opens day `day` for study: the day's indices, ascending, become the
      words of the session and the cursor goes to the first card.
     */
    method StartStudy(day: nat)
      requires Valid()
      requires day >= 1
      modifies this`currentViewDay, this`todayWords, this`studyIndex
      ensures Valid()
      ensures currentViewDay == day
      ensures todayWords == DayIndices(day, catalogSize)
      ensures studyIndex == 0
      ensures day <= TotalDays(catalogSize) ==> 1 <= |todayWords| <= WORDS_PER_DAY
      ensures Distinct(todayWords)
    {
      currentViewDay := day;
      var startIndex := (day - 1) * WORDS_PER_DAY;
      var endIndex := startIndex + WORDS_PER_DAY;
      todayWords := [];
      var i := startIndex;
      // A day past the last one starts beyond the catalog: the loop does not run then.
      while i < endIndex && i < catalogSize
        invariant startIndex <= i && (i <= DayEnd(day, catalogSize) || i == startIndex)
        invariant todayWords == Range(startIndex, i)
        modifies this`todayWords
      {
        RangeSnoc(startIndex, i);
        todayWords := todayWords + [i];
        i := i + 1;
      }
      studyIndex := 0;
      if day <= TotalDays(catalogSize) {
        DaySize(day, catalogSize);
      }
      DayIndicesDistinct(day, catalogSize);
    }

    /** The previous card; nothing happens on the first card. */
    method PrevStudyCard()
      requires Valid()
      modifies this`studyIndex
      ensures Valid()
      ensures old(studyIndex) == 0 ==> studyIndex == 0
      ensures old(studyIndex) > 0 ==> studyIndex == old(studyIndex) - 1
    {
      if studyIndex > 0 {
        studyIndex := studyIndex - 1;
      }
    }

    /**
      The next card. On the last card (or with no cards) the cursor stays
      and `atEnd` reports that the study is over, which offers the test.
     */
    method NextStudyCard() returns (atEnd: bool)
      requires Valid()
      modifies this`studyIndex
      ensures Valid()
      ensures atEnd <==> old(studyIndex) + 1 >= |todayWords|
      ensures atEnd ==> studyIndex == old(studyIndex)
      ensures !atEnd ==> studyIndex == old(studyIndex) + 1
      ensures todayWords != [] ==> studyIndex < |todayWords|
    {
      if studyIndex < |todayWords| - 1 {
        studyIndex := studyIndex + 1;
        atEnd := false;
      } else {
        atEnd := true;
      }
    }

    /**
      Shows the head of the queue on the test card, or reports the end of the
      session when the queue is empty (the card keeps its last word then).
     */
    method NextTestWord() returns (ended: bool)
      requires Valid()
      modifies this`currentTestWord
      ensures Valid()
      ensures ended <==> testQueue == []
      ensures !ended ==> currentTestWord == Some(testQueue[0])
      ensures ended ==> currentTestWord == old(currentTestWord)
    {
      if |testQueue| == 0 {
        return true;
      }
      currentTestWord := Some(testQueue[0]);
      ended := false;
    }

    /**
      Starts the test over the day's words. `shuffled` stands for the result
      of the random in-place sort of the copied list: any reordering of it.
     */
    method StartTest(shuffled: seq<nat>) returns (ended: bool)
      requires Valid()
      requires multiset(shuffled) == multiset(todayWords)
      modifies this`testQueue, this`currentTestWord
      ensures Valid()
      ensures testQueue == shuffled
      ensures multiset(testQueue) == multiset(todayWords) && |testQueue| == |todayWords|
      ensures Distinct(todayWords) ==> Distinct(testQueue)
      ensures ended <==> todayWords == []
      ensures !ended ==> currentTestWord == Some(testQueue[0])
      ensures ended ==> currentTestWord == old(currentTestWord)
    {
      testQueue := todayWords;  // the copy of the study list
      testQueue := shuffled;    // its random reordering in place
      if Distinct(todayWords) {
        PermutationKeepsDistinct(todayWords, testQueue);
      }
      assert |testQueue| == |multiset(testQueue)| == |multiset(todayWords)| == |todayWords|;
      forall w | w in testQueue ensures w < catalogSize {
        assert w in multiset(todayWords);
        assert w in todayWords;
      }
      ended := NextTestWord();
    }

    /**
      The learner's answer about the word on the card. Remembered: the word
      leaves the queue and, when it was not learned yet, is appended to the
      learned list, which is then written to storage. Forgotten: the word goes
      to the back of the queue. Then the next word is shown, or the session
      ends when the queue is empty.
     */
    method HandleTestResult(remembered: bool) returns (ended: bool)
      requires Valid()
      requires testQueue != []
      modifies this`testQueue, this`learnedIds, this`Persisted, this`SaveCount, this`currentTestWord
      ensures Valid()
      ensures testQueue == Answer(old(testQueue), remembered)
      ensures learnedIds == if remembered then MarkLearned(old(learnedIds), old(testQueue)[0]).learned
                            else old(learnedIds)
      ensures SaveCount == old(SaveCount) +
                           (if remembered && old(testQueue)[0] !in old(learnedIds) then 1 else 0)
      ensures Distinct(old(learnedIds)) ==> Distinct(learnedIds)
      ensures InCatalog(old(learnedIds), catalogSize) ==> InCatalog(learnedIds, catalogSize)
      ensures ended <==> testQueue == []
      ensures !ended ==> currentTestWord == Some(testQueue[0])
      ensures ended ==> currentTestWord == old(currentTestWord)
    {
      ghost var q, learned := testQueue, learnedIds;
      assert q == [q[0]] + q[1..] && q[0] in q;
      if remembered {
        var learnedWordId := testQueue[0];
        testQueue := testQueue[1..];
        if learnedWordId !in learnedIds {
          learnedIds := learnedIds + [learnedWordId];
          SaveState();
        }
        if Distinct(learned) {
          MarkLearnedKeepsDistinct(learned, learnedWordId);
        }
        MarkLearnedKeepsInCatalog(learned, learnedWordId, catalogSize);
      } else {
        var word := testQueue[0];
        testQueue := testQueue[1..];
        testQueue := testQueue + [word];
      }
      assert testQueue == Answer(q, remembered);
      ended := NextTestWord();
    }
  }

  /** A day's study list has no index twice. */
  lemma DayIndicesDistinct(day: nat, size: nat)
    requires day >= 1
    ensures Distinct(DayIndices(day, size))
  {
  }

  /** Learning a catalog word keeps the learned list within the catalog. */
  lemma MarkLearnedKeepsInCatalog(learned: seq<nat>, w: nat, size: nat)
    requires w < size
    ensures InCatalog(learned, size) ==> InCatalog(MarkLearned(learned, w).learned, size)
  {
  }

  /**
    Answer `i` of a run, about the word on the card: the `Replay` of the
    answers from `i` on is this answer followed by the `Replay` of the
    answers after it, from the new state.
   */
  method AnswerStep(app: App, results: seq<bool>, i: nat) returns (ended: bool)
    requires app.Valid() && app.testQueue != [] && i < |results|
    modifies app`testQueue, app`learnedIds, app`Persisted, app`SaveCount, app`currentTestWord
    ensures app.Valid()
    ensures var before := Replay(old(app.testQueue), old(app.learnedIds), results[i..]);
            var after := Replay(app.testQueue, app.learnedIds, results[i + 1..]);
            && before.queue == after.queue
            && before.learned == after.learned
            && before.writes + old(app.SaveCount) == app.SaveCount + after.writes
    ensures ended <==> app.testQueue == []
    ensures !ended ==> app.currentTestWord == Some(app.testQueue[0])
  {
    ghost var q, l := app.testQueue, app.learnedIds;
    ghost var m := if results[i] then MarkLearned(l, q[0]) else Marked(l, false);
    ReplayStep(q, l, results, i);
    ended := app.HandleTestResult(results[i]);
    assert app.testQueue == Answer(q, results[i]) && app.learnedIds == m.learned;
  }

  /**
    The learner answers the test card once per entry of `results` (true:
    remembered), until the answers run out or the session ends. The state
    afterwards is the one `Replay` computes for the queue and the learned
    list the answers started from.
   */
  method AnswerSession(app: App, results: seq<bool>) returns (ended: bool)
    requires app.Valid()
    modifies app`testQueue, app`learnedIds, app`Persisted, app`SaveCount, app`currentTestWord
    ensures app.Valid()
    ensures var o := Replay(old(app.testQueue), old(app.learnedIds), results);
            && app.testQueue == o.queue
            && app.learnedIds == o.learned
            && app.SaveCount == old(app.SaveCount) + o.writes
    ensures ended <==> app.testQueue == []
    ensures results != [] && !ended ==> app.currentTestWord == Some(app.testQueue[0])
    ensures results == [] ==> app.currentTestWord == old(app.currentTestWord)
  {
    if results == [] {
      return app.testQueue == [];
    }
    ghost var s0 := app.SaveCount;
    ghost var o := Replay(app.testQueue, app.learnedIds, results);
    ghost var rest := o;
    var i := 0;
    ended := app.testQueue == [];
    assert results[0..] == results;
    while i < |results| && !ended
      invariant 0 <= i <= |results|
      invariant app.Valid()
      invariant ended <==> app.testQueue == []
      invariant i > 0 && !ended ==> app.currentTestWord == Some(app.testQueue[0])
      invariant rest == Replay(app.testQueue, app.learnedIds, results[i..])
      invariant o.queue == rest.queue && o.learned == rest.learned && o.writes + s0 == app.SaveCount + rest.writes
    {
      ended := AnswerStep(app, results, i);
      i := i + 1;
      rest := Replay(app.testQueue, app.learnedIds, results[i..]);
    }
  }

  /**
    Opening day `day` for study and then starting its test, which asks the
    day's words in the order `shuffled`: the queue holds each of them once.
   */
  method StartDayTest(app: App, day: nat, shuffled: seq<nat>)
    requires app.Valid() && day >= 1
    requires multiset(shuffled) == multiset(DayIndices(day, app.catalogSize))
    modifies app`currentViewDay, app`todayWords, app`studyIndex, app`testQueue, app`currentTestWord
    ensures app.Valid()
    ensures app.currentViewDay == day && app.studyIndex == 0
    ensures app.todayWords == DayIndices(day, app.catalogSize)
    ensures app.testQueue == shuffled && Distinct(shuffled)
    ensures shuffled != [] ==> app.currentTestWord == Some(shuffled[0])
  {
    app.StartStudy(day);
    var _ := app.StartTest(shuffled);
  }

  /**
    Studying day `day` and taking its test: the test asks the day's words in
    the order `shuffled`, and the answers are `results`. The session ends
    exactly when every word of the day was answered correctly, and then the
    day shows as completed on the dashboard.
   */
  method DaySession(app: App, day: nat, shuffled: seq<nat>, results: seq<bool>) returns (ended: bool)
    requires app.Valid() && day >= 1
    requires multiset(shuffled) == multiset(DayIndices(day, app.catalogSize))
    modifies app
    ensures app.Valid()
    ensures app.currentViewDay == day && app.studyIndex == 0
    ensures app.todayWords == DayIndices(day, app.catalogSize)
    ensures var o := Replay(shuffled, old(app.learnedIds), results);
            && app.testQueue == o.queue
            && app.learnedIds == o.learned
            && app.SaveCount == old(app.SaveCount) + o.writes
            && (ended <==> forall w :: w in shuffled ==> w in o.correct)
    ensures ended ==> IsDayCompleted(day, app.catalogSize, app.learnedIds)
    ensures ended <==> app.testQueue == []
    ensures !ended ==> app.currentTestWord == Some(app.testQueue[0])
  {
    StartDayTest(app, day, shuffled);
    ended := AnswerSession(app, results);
    ReplayDrainsIff(shuffled, old(app.learnedIds), results);
    if ended {
      forall w | w in app.todayWords ensures w in app.learnedIds {
        assert w in multiset(shuffled);
      }
    }
  }

  /**
    A fresh start: with nothing stored, the dashboard of any catalog shows no
    learned word and no completed day.
   */
  method FreshStartDashboard(size: nat) returns (totalLearned: nat, completed: seq<bool>)
    ensures totalLearned == 0 && |completed| == TotalDays(size)
    ensures forall k :: 0 <= k < |completed| ==> !completed[k]
  {
    var app := new App(size, None);
    totalLearned, completed := app.RenderDashboard();
    forall k | 0 <= k < |completed| ensures !completed[k] {
      NothingLearnedNoDayComplete(size, k + 1);
    }
  }

  /**
    A learner on a catalog of 22 words opens day 2, which holds words 20 and
    21, and reads both cards; the next click after the last card offers the
    test.
   */
  method DayTwoStudy() returns (app: App)
    ensures fresh(app) && app.Valid() && app.catalogSize == 22
    ensures app.todayWords == [20, 21] && app.learnedIds == [] && app.SaveCount == 0
  {
    app := new App(22, None);
    app.StartStudy(2);
    assert app.todayWords == [20, 21] by {
      assert DayIndices(2, 22) == Range(20, 22);
    }
    var atEnd := app.NextStudyCard();
    assert !atEnd && app.studyIndex == 1;
    atEnd := app.NextStudyCard();
    assert atEnd && app.studyIndex == 1;
  }

  /**
    The test that follows, with the queue [21, 20]: 21 is shown first, and
    forgetting it sends it behind 20.
   */
  method DayTwoTestStart() returns (app: App)
    ensures fresh(app) && app.Valid() && app.catalogSize == 22
    ensures app.learnedIds == [] && app.testQueue == [20, 21] && app.SaveCount == 0
  {
    app := DayTwoStudy();
    var ended := app.StartTest([21, 20]);
    assert !ended && app.currentTestWord == Some(21);
    ended := app.HandleTestResult(false);
    assert !ended && app.currentTestWord == Some(20);
  }

  /** Remembering 20 removes it from the queue, learns it and writes once. */
  method DayTwoRememberFirst() returns (app: App)
    ensures fresh(app) && app.Valid() && app.catalogSize == 22
    ensures app.learnedIds == [20] && app.testQueue == [21] && app.SaveCount == 1
  {
    app := DayTwoTestStart();
    var ended := app.HandleTestResult(true);
    assert !ended && app.currentTestWord == Some(21);
  }

  /** Remembering 21 as well ends the test after two writes. */
  method DayTwoTest() returns (app: App)
    ensures fresh(app) && app.Valid() && app.catalogSize == 22
    ensures app.learnedIds == [20, 21] && app.testQueue == [] && app.SaveCount == 2
  {
    app := DayTwoRememberFirst();
    assert 21 !in app.learnedIds;
    var ended := app.HandleTestResult(true);
    assert ended;
  }

  /** Back on the dashboard after that test, day 2 shows as completed and day 1 does not. */
  method DayTwoDashboard() returns (totalLearned: nat, completed: seq<bool>)
    ensures totalLearned == 2 && completed == [false, true]
  {
    var app := DayTwoTest();
    totalLearned, completed := app.RenderDashboard();
    assert TotalDays(22) == 2;
    assert totalLearned == 2 && |completed| == 2;
    CompletedIff(2, 22, app.learnedIds);
    assert completed[1];
    assert DayIndices(1, 22)[0] == 0 && 0 !in app.learnedIds;
    assert !completed[0];
  }
}
