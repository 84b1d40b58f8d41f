# Word trainer core in Dafny

The trainer is one `app` object. It splits a word catalog into days of 20
words, shows a day's words as study cards, and then runs a test over them.
In the test, every word the learner forgets goes to the back of a retry
queue. A word the learner remembers leaves the queue and joins the learned
list, which is written to storage when it grows. The dashboard marks a day
complete when every word of the day is in the learned list.

Words are identified by their 0-based index into the catalog. Only the
catalog's size matters, so the word records are not modelled.

The project has four modules:

- `Days` (days.dfy): the day count, the index range of each day, and the
  completion test, all as pure functions. Lemmas show that the days
  partition the catalog, give the size of every day, and characterise
  completion.
- `Progress` (progress.dfy): one correct answer's effect on the learned list
  (`MarkLearned`). It appends only an absent index and reports whether the
  list is written back.
- `Quiz` (quiz.dfy): the retry queue as values. `Answer` is one answer about
  the head of the queue. `Replay` folds a whole run of answers. Its lemmas
  show that no word is lost or duplicated. They also show that a session over
  distinct words ends exactly when every word has been answered correctly.
- `Trainer` (trainer.dfy): the class `App`. Its fields are the source's state
  fields. Its methods are the click handlers, updating those fields in place.
  The contracts of `RenderDashboard`, `StartStudy`, `StartTest` and
  `HandleTestResult` tie the new state to the functions above; the cursor,
  storage and start-up methods state it directly.
  - Storage is a ghost field `Persisted`, the list a reload would read back,
    plus a ghost counter `SaveCount` of writes.
  - Client methods drive the handlers the way the learner's clicks do.
    `AnswerStep` and `AnswerSession` give answers to the test card and are
    proved to reach the state `Replay` computes. `StartDayTest` and
    `DaySession` open a day, test it and answer. Five more methods
    (`DayTwoStudy`, `DayTwoTestStart`, `DayTwoRememberFirst`, `DayTwoTest`,
    `DayTwoDashboard`) replay one concrete session on a catalog of 22 words.

## Model

| member | source | states |
|---|---|---|
| Days.TotalDays | app.js:63 | the number of days is the catalog size divided by 20, rounded up: the least count of days whose 20-word pages cover the catalog |
| Days.DayStart | app.js:72 | a day starts on a 20-word page boundary: its first index is 20 times the day number less one |
| Days.DayEnd | app.js:73 | a day ends 20 indices after its start, or at the end of the catalog when that comes first |
| Days.DayIndices | app.js:72-75 | the day's list holds at most 20 indices, ascending by one from the day's start, each a valid catalog index |
| Days.AllIn | app.js:77 | the `every`/`includes` test holds exactly when every element of the list occurs in the learned list |
| Days.IsDayCompleted | app.js:72-77 | a day that starts past the end of the catalog has no words and counts as complete |
| Days.DaysPartitionCatalog | app.js:63-75 | every catalog index lies in the range of exactly one day, and that day is between 1 and the number of days |
| Days.InDayIndices | app.js:72-75 | an index is in a day's list exactly when it lies between the day's start and its end clamped to the catalog size |
| Days.DaySize | app.js:63-75 | every day on the dashboard holds 1 to 20 words; every day before the last holds exactly 20 |
| Days.LastDaySize | app.js:63-75 | for a non-empty catalog, the last day holds what the full days leave over, between 1 and 20 words |
| Days.CompletedIff | app.js:72-77 | a day is complete exactly when every index of its clamped range is in the learned list |
| Days.NothingLearnedNoDayComplete | app.js:72-77 | with an empty learned list, no day on the dashboard is complete |
| Days.CompletedMonotone | app.js:77 | learning more words never turns a completed day back to incomplete |
| Days.LastMissingCompletes | app.js:72-77 | when only one index of a day is unlearned, the day is incomplete exactly while that index is missing, and appending it completes the day |
| Days.TwentyFiveWords | app.js:63-77 | a 25-word catalog has two days, indices 0-19 and 20-24; day 2 is complete exactly when 20 to 24 are learned |
| Progress.Count | app.js:275-276 | the measure behind "occurs exactly once" for the learned list that the guarded push maintains: the number of occurrences of an index equals its multiplicity in the list's multiset |
| Progress.MarkLearned | app.js:274-278 | the list is written back exactly when the index was absent; afterwards the list holds exactly the old elements plus the index, extends the old list, and grows by one only on a write |
| Progress.MarkLearnedKeepsDistinct | app.js:274-277 | recording an answer keeps the learned list free of duplicates |
| Progress.MarkTwiceWritesOnce | app.js:274-278 | recording the same index twice writes at most once, the second record changes nothing, and the index then occurs exactly once |
| Progress.DistinctCount | app.js:275 | in a duplicate-free list, a member occurs exactly once |
| Progress.PermutationKeepsDistinct | app.js:228-230 | any reordering of a duplicate-free list is duplicate-free, so the shuffled test queue asks each word once |
| Quiz.Answer | app.js:271-283 | remembered: the queue loses exactly its head; forgotten: the queue keeps its words and length and ends with the old head; in both cases no new word appears |
| Quiz.AnswerKeepsAccount | app.js:271-283 | the words still queued plus the words answered correctly stay the words the test started with, across one answer |
| Quiz.ForgottenWaitsItsTurn | app.js:279-283 | a forgotten word comes back only after every other queued word |
| Quiz.Replay | app.js:270-286 | a run of answers: the words still queued and the words answered correctly together number the initial queue; there are no more correct answers than answers, and no more writes than correct answers |
| Quiz.ReplayStep | app.js:270-285 | answer i of a run, given while words are queued, is one queue step and one learned-list record, followed by the run of the answers after it |
| Quiz.ReplayConserves | app.js:270-286 | over any run of answers, queued plus correctly answered words are the initial queue, and the queue never grows |
| Quiz.ReplayLearns | app.js:271-278 | over any run of answers, every correctly answered word is learned; the learned list only grows, stays duplicate-free, and is written once per newly learned word |
| Quiz.ReplayDrainsIff | app.js:236-286 | with distinct words the session ends exactly when every word has been answered correctly; each has then been answered correctly once, and all are learned |
| Quiz.ReplayForgotten | app.js:279-285 | a run whose first answer is "forgotten" is the rest of the run on the rotated queue |
| Quiz.ReplayAllRemembered | app.js:271-285 | remembering every word at its first asking drains the queue in one pass, removing the words in queue order |
| Quiz.ThreeWordSession | app.js:270-286 | queue [b, a, c]: forgetting b gives [a, c, b]; three remembered answers then drain the queue in the order a, c, b and learn all three |
| Trainer.App.constructor | app.js:3-10 | initial state: day 1, empty study and test lists, cursor 0, no test word, and the learned list read back from storage (empty when nothing is stored) |
| Trainer.App.SaveState | app.js:26-28 | after a write, storage holds the current learned list, and the write count grows by one |
| Trainer.App.RenderDashboard | app.js:60-89 | returns the learned count and one completion flag per day, for days 1 to the number of days; each flag is that day's completion test |
| Trainer.App.StartStudy | app.js:93-105 | the study list becomes the day's indices in ascending order, clamped to the catalog, with no index twice; the cursor is 0; a dashboard day yields 1 to 20 words |
| Trainer.App.PrevStudyCard | app.js:188-194 | on the first card nothing changes; otherwise the cursor moves back by exactly one |
| Trainer.App.NextStudyCard | app.js:196-206 | on the last card (or with no cards) the cursor stays and the end of study is reported; otherwise it moves forward by one; the cursor stays inside the study list |
| Trainer.App.NextTestWord | app.js:236-244 | the session ends exactly when the queue is empty; otherwise the card shows the queue's head |
| Trainer.App.StartTest | app.js:226-234 | the queue becomes the given reordering of the study list, with the same words and length, and without duplicates when the study list has none; the study list is untouched; the session ends at once exactly when there were no words; otherwise the card shows the queue's head |
| Trainer.App.HandleTestResult | app.js:270-286 | the queue becomes the answer's queue; a remembered word is recorded as by MarkLearned, and storage is written exactly when it was new; a forgotten word leaves the learned list and the write count alone; the list stays duplicate-free and within the catalog; the next word is shown or the session ends |
| Trainer.DayIndicesDistinct | app.js:100-103 | the list built for a day has no index twice |
| Trainer.AnswerStep | app.js:270-286 | one click on the test card takes the state one answer along its `Replay`: what the answers from i on would leave equals what the answers after i leave from the new state, and the writes add up |
| Trainer.AnswerSession | app.js:270-286 | a sequence of clicks, until the answers run out or the session ends, leaves the queue, the learned list and the write count that `Replay` computes; after at least one answer, an unfinished session shows the queue's head, and with no answers the card is unchanged |
| Trainer.StartDayTest | app.js:226-232 | opening a day and starting its test: the viewed day is that day and the cursor 0; the queue is the given reordering of the day's indices, with each word once, and its head is on the card |
| Trainer.DaySession | app.js:226-286 | studying a day, testing it and answering: the viewed day is that day and the cursor 0; the state is the `Replay` of the answers; the session ends exactly when every word of the day was answered correctly; the day then shows as completed; otherwise the queue's head is on the card |
| Trainer.MarkLearnedKeepsInCatalog | app.js:274-276 | recording a catalog index keeps the learned list within the catalog |
| Trainer.FreshStartDashboard | app.js:15-24 | with nothing stored, the dashboard of any catalog shows zero learned words and no completed day |
| Trainer.DayTwoStudy | app.js:93-105 | on a 22-word catalog, day 2 is [20, 21]; stepping past the second card reports the end of study |
| Trainer.DayTwoTestStart | app.js:226-283 | the test over the queue [21, 20] shows 21 first; forgetting it gives the queue [20, 21] and no write |
| Trainer.DayTwoRememberFirst | app.js:270-278 | remembering 20 then leaves [21] and learns 20 with one write |
| Trainer.DayTwoTest | app.js:236-286 | remembering 21 as well ends the session with [20, 21] learned and two writes |
| Trainer.DayTwoDashboard | app.js:60-89 | the dashboard then shows two learned words, day 1 not completed and day 2 completed |

## Left out

- The DOM work is not modelled. This covers `showView`, `renderStudyCard`,
  `updateStudyControls`, `showAnswer`, `setupEventListeners`, `init`,
  `goHome`, `completeDay` and the tiles built in `renderDashboard`. It only
  toggles visibility and fills in text. Where a handler's choice of view
  matters, the model returns it as a flag: `atEnd` of `NextStudyCard` and
  `ended` of `NextTestWord`.
- `generateCardContent` is not modelled. It only builds an HTML string from
  the opaque word records.
- The word records (`wordsData`) are not modelled: only their number,
  `catalogSize`, is used.
- `loadState` becomes the constructor's `stored` argument. `None` stands for
  a missing entry, which gives an empty list. `JSON.parse` throwing on a
  malformed entry is not modelled.
- `saveState`'s use of `localStorage` and `JSON.stringify` becomes the ghost
  fields `Persisted` and `SaveCount`.
- The `Math.random` comparator sort in `startTest` becomes the `shuffled`
  argument. It may be any reordering of the study list, so the model says
  nothing about the distribution.
- Trainer.App.HandleTestResult: requires a non-empty queue. On an empty queue
  the source would record `undefined` as a learned index, and the buttons
  that call it are only visible while a word is on the card.
- Trainer.App.StartStudy: requires `day >= 1`, where the source takes any
  number. Day 0 or below would push negative indices, which the dashboard
  never offers. A day past the last is allowed and gives an empty study list,
  as the source's loop does. The model does not capture what the source does
  next on such a day: rendering the first card reads a missing word record
  and throws (app.js:116-120), so the study view never appears.
- Trainer.App.StartTest: on an empty study list the model's `ended` is true,
  because `nextTestWord` finds the queue empty and shows the completion view
  (app.js:237-238). The source then switches to the test view (app.js:233),
  so the learner is left on an empty test view and does not see the session
  end. The model does not capture which view is finally shown. A dashboard
  day always has 1 to 20 words (`Days.DaySize`), so this only happens for a
  day that no tile offers.
- Trainer.App.NextTestWord: when the queue drains, the model follows the code
  and leaves `currentTestWord` at the last word shown. It does not clear it.
- Trainer.App.RenderDashboard: `Math.ceil` on a float quotient is modelled as
  exact integer rounding up. It is exact for every catalog smaller than 2^53.
- Integers are unbounded. Indices in the source are JavaScript numbers, which
  stay exact at any realistic catalog size.
