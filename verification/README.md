# AI to-do list: task logic in Dafny

This project models the task logic of the Streamlit "AI-Powered To-Do List"
app. That logic lives in the `AIToDoApp` class of `app.py`. It has four parts:

- **Priority scorer** (`calculate_priority_score`). A task's score is its priority weight
  (High 10, Medium 6, Low 3) times its category multiplier (Work 1.2, Health 1.1,
  Personal 1.0, Learning 0.9, Finance 1.15, Other 0.8) times an urgency step
  taken from the days until the due date (2.0, 1.5, 1.2, 1.0).
- **Guidance composer** (`generate_ai_guidance`). It fills in a template from a
  per-priority pool of three, then adds a blank line and a fixed tip for the
  category.
- **Productivity insights** (`get_productivity_insights`). These are the task counts,
  the completion percentage, the category and priority histograms, and the
  number of overdue active tasks.
- **Task store transitions** on the task manager page. These are add (from the form),
  complete, delete, and the display order of the active list (by score,
  highest first).

Modules, one per component:

| file | module | contents |
|---|---|---|
| tasks.dfy | `Tasks` | task record, the two-list store, the add-task form, `Option`/`Result` |
| scoring.dfy | `Scoring` | weight tables, urgency step, score, bounds and monotonicity |
| guidance.dfy | `Guidance` | templates as f-string pieces, tips, the composer |
| histogram.dfy | `Histogram` | insertion-ordered counting dictionaries |
| insights.dfy | `Insights` | the insights report and its overdue count |
| ordering.dfy | `Ordering` | stable sort by score, descending |
| store.dfy | `TaskStore` | `list.remove`, add / complete / delete, how they move the insights |

How the model represents the source:

- Dates are day numbers and timestamps are integers. The caller passes in
  "today" and "now".
- The random template choice is the index `pick`.
- Scores are exact `real`s.
- Priorities and categories are strings, as in the source, so the
  dictionary-default fallbacks are part of the model.
- The analytics read a task's category, priority and due date with a default.
  Those fields are therefore `Option`s in the task record.
- A Python dict keeps keys in insertion order. So a histogram is a list of
  (key, count) bins in the order the keys were first seen.
- Python's `sorted(..., reverse=True)` is stable. So the display order is a
  stable insertion sort. It is proved to be a permutation, to be descending,
  and to keep tasks with equal real-valued scores in their list order. Which
  scores count as equal can differ from the program's floats; see
  "## Left out".

Facts about the code that the model states as they are:

- Ids are not unique. The code assigns
  `len(tasks) + len(completed_tasks) + 1` (app.py:174). After a delete, this
  formula can hand out an id that an active task already holds.
  `TaskStore.IdRepeatsAfterDelete` proves this: after an add, delete any
  other active task and add again, and two active tasks share an id.
  `TaskStore.IdRepeatsFromEmptyStore` shows the same thing starting from the
  empty store. The model states the formula and never claims the ids are
  unique.
- A task due today is not overdue. The code compares `due_date < today`
  (app.py:114). `Insights.IsOverdue` and `Insights.DueTodayIsNotOverdue`
  state this.
- `app.py` has no points or achievement logic. The constants at
  config.py:19-29 are read by no code shown, so nothing of that kind is
  modelled.

## Model

| member | source | states |
|---|---|---|
| `Scoring.PriorityWeight` | app.py:72-75 | the base weight is one of 10, 6, 3, and any priority other than High/Medium/Low weighs 6 |
| `Scoring.CategoryMultiplier` | app.py:73-76 | the multiplier lies in [0.8, 1.2], and a category outside the six-entry table gets 1.0 |
| `Scoring.UrgencyMultiplier` | app.py:78-86 | urgency lies in [1.0, 2.0]; it is 2.0 exactly when days ≤ 1 (overdue included) and 1.0 exactly when days > 7 |
| `Scoring.PriorityScore` | app.py:70-88 | every score, for any priority, category and day count, lies in [2.4, 24] |
| `Scoring.UrgencyNonIncreasing` | app.py:79-86 | a later due date never gets a higher urgency step |
| `Scoring.ScoreNonIncreasingInDays` | app.py:79-88 | for fixed priority and category, the score never rises as days-until-due grows |
| `Scoring.OverdueScoresAsDueTomorrow` | app.py:79-80 | any task due in ≤ 1 day, overdue ones included, scores the same as one due in exactly one day |
| `Scoring.UnknownInputsUseDefaults` | app.py:75-76 | an unknown priority and an unknown category score like Medium with a neutral 1.0 category |
| `Scoring.HighWorkDueTodayScores24` | app.py:70-88 | High + Work due today scores 24, the upper bound |
| `Scoring.LowOtherFarOffScores2point4` | app.py:70-88 | Low + Other due in more than a week scores 2.4, the lower bound |
| `Guidance.Lower` | app.py:46 | lower-casing keeps the length, maps each character, and leaves no upper-case ASCII letter |
| `Guidance.TemplatePool` | app.py:38-54 | every pool holds three templates, each with a title slot; an unknown priority gets the Medium pool |
| `Guidance.CategoryTip` | app.py:56-66 | the tip is always one of the six fixed tips; an unknown category gets the "Other" tip |
| `Guidance.GenerateGuidance` | app.py:36-68 | the text contains the title, ends with a blank line plus the category tip ("Other" tip for unknown categories), and what precedes is the chosen template filled in |
| `Guidance.Render` | app.py:40-52 | filling a template puts the whole title somewhere in the text whenever the template has a title slot, and the whole lower-cased category somewhere in it whenever the template has a category slot |
| `Guidance.UnknownPriorityUsesMediumPool` | app.py:65 | an unknown priority yields exactly the guidance a Medium task would get |
| `Histogram.Get` | app.py:104 | a key with no bin reads as 0; in a histogram with distinct keys, a key reads as the count in its bin |
| `Histogram.Bump` | app.py:104-105 | one more count for the key and no change for any other key; the total grows by one; existing bins keep their positions |
| `Histogram.BumpKeys` | app.py:104-105 | a count update adds exactly that key to the set of keys |
| `Histogram.BumpDistinct` | app.py:104-105 | a count update never gives a key a second bin |
| `Histogram.Tally` | app.py:97-105 | the counting loop yields, for every key, its number of occurrences; the counts sum to the number of tasks; the keys are exactly those seen, each once, none with count 0 |
| `Histogram.OccurrencesConcat` | app.py:100-105 | counts over a concatenation are the sum of the counts over the parts |
| `Insights.KeysByConcat` | app.py:96-102 | the keys of the joined list `tasks + completed_tasks` are the keys of the active tasks followed by those of the completed ones |
| `Insights.OverdueStaysOverdue` | app.py:112-114 | a task overdue on one day is overdue on every later day |
| `Insights.OverdueCountGrows` | app.py:108-115 | as the days pass, the overdue count of a fixed list never falls |
| `Insights.OverdueCount` | app.py:108-115 | overdue means `Insights.IsOverdue` (app.py:112-114): a due date strictly before today. The overdue count is at most the number of tasks; it is 0 exactly when none is due before today, and equals the number of tasks exactly when all are |
| `Insights.OverdueCountConcat` | app.py:111-115 | the overdue count over two lists joined is the sum of their counts |
| `Insights.CompletionRate` | app.py:93 | the rate lies in [0, 100], is 0 when there are no tasks, and is 100 when every task is completed |
| `Insights.ProductivityInsights` | app.py:90-124 | total = active + completed; the rate is completed / total × 100, or 0 for no tasks, and lies in [0, 100]; each histogram counts every task once (sums to total), with each task keyed by `Insights.CategoryKey` (app.py:101, a missing category counts as "Other") and `Insights.PriorityKey` (app.py:102, a missing priority counts as "Medium"); the overdue figure is exactly the `Insights.OverdueCount` of the active list (app.py:111-115), so it is at most the active count |
| `Insights.CompletedNeverOverdue` | app.py:111-115 | the overdue count does not depend on the completed list at all |
| `Insights.DueTodayIsNotOverdue` | app.py:114 | a task due today is not overdue, and one due yesterday is |
| `Insights.EmptyInsights` | app.py:92-124 | with no tasks, every figure is 0 and both histograms are empty |
| `Ordering.InsertByScore` | app.py:196 | inserting adds exactly the one task and keeps a descending list descending |
| `Ordering.SortByScoreDesc` | app.py:196 | the displayed list is a permutation of the active list, in descending score order |
| `Ordering.InsertKeepsTies` | app.py:196 | an inserted task goes ahead of every task with the same score |
| `Ordering.SortIsStable` | app.py:196 | for every score, the tasks with that score appear in their active-list order |
| `Ordering.SortedInputUnchanged` | app.py:196 | a list already in descending order is displayed unchanged |
| `TaskStore.IndexOf` | app.py:219 | the position found holds the task, and no earlier position does |
| `TaskStore.RemoveFirst` | app.py:219 | `list.remove` cuts out the first element equal to the task and keeps every other element in its order |
| `TaskStore.FirstRemovalIsUnique` | app.py:219 | that removal contract fixes the resulting list completely |
| `TaskStore.NextId` | app.py:174 | the next id is positive and larger than the number of stored tasks |
| `TaskStore.NewTask` | app.py:170-183 | the new task gets the next id (positive). It stores the form's title, description, category, priority and due date, and `now` as its creation stamp. Its score is the scorer applied to the days from today to the due date, so it lies in [2.4, 24]. Its guidance is the composer's text for the form, so it contains the title. It has no completion time. It is overdue exactly when its due date is before today |
| `TaskStore.AddTask` | app.py:168-189 | an empty title is refused and the store is left as it was; otherwise the record `TaskStore.NewTask` builds from the form is appended, with id = active + completed + 1, the completed list is unchanged, and the next id grows by one |
| `TaskStore.AddUpdatesInsights` | app.py:185 | after an add, the total and the active count each grow by one; the bins of the form's category and priority each grow by one and every other bin is unchanged; the overdue count grows by one exactly when the due date is before today |
| `TaskStore.AddKeepsOtherCounts` | app.py:96-105 | appending a task adds one to the count of its key and to no other key |
| `TaskStore.CompleteTask` | app.py:215-219 | the task, stamped with its completion time, is appended to the completed list; its first copy leaves the active list and the other active tasks keep their order; the number of tasks is unchanged |
| `TaskStore.DeleteTask` | app.py:224-225 | the task's first copy leaves the active list, the other active tasks keep their order, and the completed list is untouched |
| `TaskStore.RemoveFirstOverdue` | app.py:219 | removing a task lowers the overdue count by one exactly when that task was overdue |
| `TaskStore.CompleteUpdatesInsights` | app.py:215-219 | completing keeps the total, lowers the active count by one, and takes an overdue task out of the overdue count |
| `TaskStore.CompleteKeepsDistributions` | app.py:215-219 | completing leaves every category and priority count unchanged |
| `TaskStore.MoveKeepsCounts` | app.py:216-219 | moving a task between the lists, with its key kept, leaves each key's count unchanged |
| `TaskStore.DeleteUpdatesInsights` | app.py:224-225 | deleting lowers the total and the active count by one; lowers the bins of the task's category and priority by one, leaving every other bin unchanged; and takes an overdue task out of the overdue count |
| `TaskStore.RemoveDropsOneCount` | app.py:96-105 | taking a task out of the active list removes one from the count of its key and from no other key |
| `TaskStore.IdRepeatsAfterDelete` | app.py:174 | after an add, deleting another active task and adding again gives two active tasks the same id |
| `TaskStore.IdRepeatsFromEmptyStore` | app.py:174 | from the empty store, add two tasks, delete the first, and add a third: both active tasks then have id 2 |
| `TaskStore.AddGivesNewestLastId` | app.py:174-185 | after an add, the newest active task's id is NextId − 1, that is, the new store's active count plus its completed count; it need not be the largest active id once tasks have been deleted |

## Left out

- Streamlit rendering, navigation, widgets, messages, `st.rerun` and session-state setup (app.py:10-14, 126-166, and the `st.*` calls): these are presentation only.
- The random motivation quote, productivity tip and suggested-task feature (app.py:236-304): these pick at random from string tables. A suggested task is stored with a fixed score of 6.0 instead of a computed one; this is not modelled.
- The completion-rate messages and the "most active category" (app.py:247-271): these are display only, and `max` tie-breaking depends on dictionary order.
- Charts, the random 30-day timeline and the CSV export (app.py:306-407): these are presentation code and library calls.
- `datetime.now`, `strptime` and date formatting: these become day numbers and integer stamps passed in. A malformed due-date string, which `strptime` would reject, is not modelled.
- `random.choice`: this becomes the index `pick`.
- Python float arithmetic: scores and the completion rate are exact reals, and the program's double rounding is not modelled.
- Insights.CompletionRate: an exact real quotient, not the program's double. So `rate × total == done × 100` holds in the model but not always in Python: with 1 of 3 tasks done, `1/3*100*3` is 99.99999999999999 as a double. The displayed percentage can also differ in its last digit.
- Scoring.PriorityScore: an exact real product, not the program's double. Rounding can make two scores that are equal over the reals differ as doubles. For example, High/Health due in 5 days is 10 × 1.1 × 1.2 = 13.2, and Medium/Health due tomorrow is 6 × 1.1 × 2.0 = 13.200000000000001.
- Ordering.SortByScoreDesc: because of the rounding above, ties are decided over the reals. In that example the program always shows the Medium task first. The model treats the two scores as a tie and shows them in active-list order.
- Guidance.Lower: models `str.lower()` on ASCII letters only. Non-ASCII case mapping needs Unicode tables, and the category selector only offers ASCII names.
- TaskStore.RemoveFirst: requires the task to be in the list. `list.remove` raises for a missing task, but the page only passes tasks taken from the active list.
- TaskStore.NewTask: accepts any due day. The date picker's minimum of today (app.py:163) is a widget constraint, so a task added through the form never has a negative day count; the scorer's first step still covers negative counts for any other caller.
- The points and achievement system: there is none in `app.py`. The constants in `config.py` (config.py:19-29) are read by no code shown.
