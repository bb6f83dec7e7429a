/**
 The task store's transitions, as the task manager page performs them:
 adding a task from the form, completing a task, deleting a task.
 */
module TaskStore {
  import opened Tasks
  import Scoring
  import Guidance
  import Histogram
  import Insights

  /** Position of the first element equal to `x`. */
  function IndexOf(xs: seq<Task>, x: Task): (i: nat)
    requires x in xs
    ensures i < |xs| && xs[i] == x
    ensures forall j :: 0 <= j < i ==> xs[j] != x
  {
    if xs[0] == x then 0 else 1 + IndexOf(xs[1..], x)
  }

  /**
   `r` is `xs` with its first element equal to `x` cut out, every other
   element kept in order.
   */
  predicate IsFirstRemoval(xs: seq<Task>, x: Task, r: seq<Task>) {
    exists i | 0 <= i < |xs| :: xs[i] == x && x !in xs[..i] && r == xs[..i] + xs[i + 1..]
  }

  /** `list.remove(x)`: drops the first element equal to `x` and keeps the rest in order. */
  function RemoveFirst(xs: seq<Task>, x: Task): (r: seq<Task>)
    requires x in xs
    ensures IsFirstRemoval(xs, x, r)
    ensures |r| == |xs| - 1
    ensures multiset(r) == multiset(xs) - multiset{x}
  {
    var i := IndexOf(xs, x);
    SliceOutMultiset(xs, i);
    assert x !in xs[..i];
    xs[..i] + xs[i + 1..]
  }

  lemma SliceOutMultiset(xs: seq<Task>, i: nat)
    requires i < |xs|
    ensures multiset(xs[..i] + xs[i + 1..]) == multiset(xs) - multiset{xs[i]}
  {
    assert xs == xs[..i] + [xs[i]] + xs[i + 1..];
  }

  /** The removal contract leaves no freedom: it fixes the resulting list. */
  lemma FirstRemovalIsUnique(xs: seq<Task>, x: Task, r1: seq<Task>, r2: seq<Task>)
    requires IsFirstRemoval(xs, x, r1) && IsFirstRemoval(xs, x, r2)
    ensures r1 == r2
  {
    var i :| 0 <= i < |xs| && xs[i] == x && x !in xs[..i] && r1 == xs[..i] + xs[i + 1..];
    var j :| 0 <= j < |xs| && xs[j] == x && x !in xs[..j] && r2 == xs[..j] + xs[j + 1..];
    assert i == j;
  }

  /** The id the next added task receives. */
  function NextId(s: Store): (id: int)
    ensures id > 0
    ensures id > |s.active| + |s.completed|
  {
    |s.active| + |s.completed| + 1
  }

  datatype AddError = EmptyTitle

  /**
   The task built from the form: scored by days until due and given guidance
   with template `pick`.
   */
  function NewTask(s: Store, form: TaskForm, today: Day, now: Stamp, pick: nat): (t: Task)
    requires pick < |Guidance.TemplatePool(form.priority)|
    ensures t.id == NextId(s) && t.id > 0
    ensures t.title == form.title && t.description == form.description && t.created == now
    ensures t.category == Some(form.category) && t.priority == Some(form.priority) && t.due == Some(form.due)
    ensures t.score == Scoring.PriorityScore(form.priority, form.due - today, form.category)
    ensures 2.4 <= t.score <= 24.0
    ensures t.guidance == Guidance.GenerateGuidance(form.title, form.priority, form.category, pick)
    ensures Guidance.Mentions(t.guidance, form.title)
    ensures t.completedAt == None
    ensures Insights.CategoryKey(t) == form.category && Insights.PriorityKey(t) == form.priority
    ensures Insights.IsOverdue(t, today) <==> form.due < today
  {
    Task(
      NextId(s),
      form.title,
      form.description,
      Some(form.category),
      Some(form.priority),
      Some(form.due),
      now,
      Scoring.PriorityScore(form.priority, form.due - today, form.category),
      Guidance.GenerateGuidance(form.title, form.priority, form.category, pick),
      None)
  }

  /** "Add task": refused for an empty title, otherwise appended to the active list. */
  function AddTask(s: Store, form: TaskForm, today: Day, now: Stamp, pick: nat): (r: Result<Store, AddError>)
    requires pick < |Guidance.TemplatePool(form.priority)|
    ensures r.Failure? <==> form.title == []
    ensures r.Failure? ==> r.error == EmptyTitle
    ensures r.Success? ==> r.value.completed == s.completed
    ensures r.Success? ==> |r.value.active| == |s.active| + 1 && r.value.active[..|s.active|] == s.active
    ensures r.Success? ==> r.value.active[|s.active|].id == |s.active| + |s.completed| + 1
    ensures r.Success? ==> r.value.active[|s.active|].title == form.title
    ensures r.Success? ==> r.value.active[|s.active|] == NewTask(s, form, today, now, pick)
    ensures r.Success? ==> NextId(r.value) == NextId(s) + 1
  {
    if form.title == [] then Failure(EmptyTitle)
    else Success(Store(s.active + [NewTask(s, form, today, now, pick)], s.completed))
  }

  /**
   Adding a task puts one more task in every count: the total, the active
   count, and the histogram bins of the form's category and priority, while
   every other bin keeps its count. The overdue count grows only for a due
   day before today, which the date picker does not offer.
   */
  lemma AddUpdatesInsights(s: Store, form: TaskForm, today: Day, now: Stamp, pick: nat, key: string)
    requires pick < |Guidance.TemplatePool(form.priority)| && form.title != []
    ensures var before := Insights.ProductivityInsights(s.active, s.completed, today);
            var s' := AddTask(s, form, today, now, pick).value;
            var after := Insights.ProductivityInsights(s'.active, s'.completed, today);
            && after.totalTasks == before.totalTasks + 1
            && after.activeTasks == before.activeTasks + 1
            && after.overdueCount == before.overdueCount + (if form.due < today then 1 else 0)
            && Histogram.Get(after.categoryDistribution, key)
               == Histogram.Get(before.categoryDistribution, key) + (if key == form.category then 1 else 0)
            && Histogram.Get(after.priorityDistribution, key)
               == Histogram.Get(before.priorityDistribution, key) + (if key == form.priority then 1 else 0)
  {
    var t := NewTask(s, form, today, now, pick);
    assert AddTask(s, form, today, now, pick).value.active == s.active + [t];
    Insights.OverdueCountConcat(s.active, [t], today);
    AddKeepsOtherCounts(s.active, s.completed, t, Insights.CategoryKey, key);
    AddKeepsOtherCounts(s.active, s.completed, t, Insights.PriorityKey, key);
  }

  /** Appending `t` to the active list adds one to the count of `t`'s key and to no other. */
  lemma AddKeepsOtherCounts(xs: seq<Task>, ys: seq<Task>, t: Task, f: Task -> string, key: string)
    ensures Histogram.Occurrences(Insights.KeysBy(xs + [t] + ys, f), key)
            == Histogram.Occurrences(Insights.KeysBy(xs + ys, f), key) + (if f(t) == key then 1 else 0)
  {
    CountSplit(xs + [t], ys, f, key);
    CountSplit(xs, [t], f, key);
    CountSplit(xs, ys, f, key);
    assert Insights.KeysBy([t], f) == [f(t)];
    assert [f(t)] == [] + [f(t)];
  }

  /** "Complete": the task moves from the active list to the end of the completed list, stamped. */
  function CompleteTask(s: Store, t: Task, now: Stamp): (r: Store)
    requires t in s.active
    ensures r.completed == s.completed + [t.(completedAt := Some(now))]
    ensures IsFirstRemoval(s.active, t, r.active)
    ensures multiset(r.active) + multiset{t} == multiset(s.active)
    ensures |r.active| + |r.completed| == |s.active| + |s.completed|
    ensures NextId(r) == NextId(s)
  {
    Store(RemoveFirst(s.active, t), s.completed + [t.(completedAt := Some(now))])
  }

  /** "Delete": the task leaves the active list and no trace is kept. */
  function DeleteTask(s: Store, t: Task): (r: Store)
    requires t in s.active
    ensures r.completed == s.completed
    ensures IsFirstRemoval(s.active, t, r.active)
    ensures multiset(r.active) + multiset{t} == multiset(s.active)
    ensures |r.active| == |s.active| - 1
    ensures NextId(r) == NextId(s) - 1
  {
    Store(RemoveFirst(s.active, t), s.completed)
  }

  /** Dropping one task lowers the overdue count by one exactly when that task was overdue. */
  lemma RemoveFirstOverdue(xs: seq<Task>, t: Task, today: Day)
    requires t in xs
    ensures Insights.OverdueCount(RemoveFirst(xs, t), today)
            == Insights.OverdueCount(xs, today) - (if Insights.IsOverdue(t, today) then 1 else 0)
  {
    var i := IndexOf(xs, t);
    assert xs == xs[..i] + ([xs[i]] + xs[i + 1..]);
    Insights.OverdueCountConcat(xs[..i], [xs[i]] + xs[i + 1..], today);
    Insights.OverdueCountConcat([xs[i]], xs[i + 1..], today);
    Insights.OverdueCountConcat(xs[..i], xs[i + 1..], today);
  }

  /**
   Completing a task keeps the total, adds one to the completed count, and
   takes the task out of the overdue count if it was overdue.
   */
  lemma CompleteUpdatesInsights(s: Store, t: Task, now: Stamp, today: Day)
    requires t in s.active
    ensures var before := Insights.ProductivityInsights(s.active, s.completed, today);
            var after := Insights.ProductivityInsights(CompleteTask(s, t, now).active, CompleteTask(s, t, now).completed, today);
            && after.totalTasks == before.totalTasks
            && after.activeTasks == before.activeTasks - 1
            && after.overdueCount == before.overdueCount - (if Insights.IsOverdue(t, today) then 1 else 0)
  {
    RemoveFirstOverdue(s.active, t, today);
  }

  /** Completing a task leaves both histograms' counts as they were. */
  lemma CompleteKeepsDistributions(s: Store, t: Task, now: Stamp, today: Day, key: string)
    requires t in s.active
    ensures var before := Insights.ProductivityInsights(s.active, s.completed, today);
            var after := Insights.ProductivityInsights(CompleteTask(s, t, now).active, CompleteTask(s, t, now).completed, today);
            && Histogram.Get(after.categoryDistribution, key) == Histogram.Get(before.categoryDistribution, key)
            && Histogram.Get(after.priorityDistribution, key) == Histogram.Get(before.priorityDistribution, key)
  {
    var done := t.(completedAt := Some(now));
    MoveKeepsCounts(s.active, s.completed, t, done, Insights.CategoryKey, key);
    MoveKeepsCounts(s.active, s.completed, t, done, Insights.PriorityKey, key);
  }

  /**
   Taking `t` out of `xs` and appending `done` (same key) to `ys` leaves the
   number of tasks counted under each key unchanged.
   */
  lemma MoveKeepsCounts(xs: seq<Task>, ys: seq<Task>, t: Task, done: Task, f: Task -> string, key: string)
    requires t in xs && f(done) == f(t)
    ensures Histogram.Occurrences(Insights.KeysBy(RemoveFirst(xs, t) + (ys + [done]), f), key)
            == Histogram.Occurrences(Insights.KeysBy(xs + ys, f), key)
  {
    var i := IndexOf(xs, t);
    var a := xs[..i];
    var b := xs[i + 1..];
    assert RemoveFirst(xs, t) + (ys + [done]) == a + b + ys + [done];
    assert xs + ys == a + [t] + b + ys by {
      assert xs == a + [t] + b;
    }
    CountSplit4(a, b, ys, [done], f, key);
    CountSplit4(a, [t], b, ys, f, key);
    assert Insights.KeysBy([done], f) == Insights.KeysBy([t], f);
  }

  lemma CountSplit4(a: seq<Task>, b: seq<Task>, c: seq<Task>, d: seq<Task>, f: Task -> string, key: string)
    ensures Histogram.Occurrences(Insights.KeysBy(a + b + c + d, f), key)
            == Histogram.Occurrences(Insights.KeysBy(a, f), key) + Histogram.Occurrences(Insights.KeysBy(b, f), key)
               + Histogram.Occurrences(Insights.KeysBy(c, f), key) + Histogram.Occurrences(Insights.KeysBy(d, f), key)
  {
    CountSplit(a, b, f, key);
    CountSplit(a + b, c, f, key);
    CountSplit(a + b + c, d, f, key);
  }

  lemma CountSplit(a: seq<Task>, b: seq<Task>, f: Task -> string, key: string)
    ensures Histogram.Occurrences(Insights.KeysBy(a + b, f), key)
            == Histogram.Occurrences(Insights.KeysBy(a, f), key) + Histogram.Occurrences(Insights.KeysBy(b, f), key)
  {
    Insights.KeysByConcat(a, b, f);
    Histogram.OccurrencesConcat(Insights.KeysBy(a, f), Insights.KeysBy(b, f), key);
  }

  /**
   Deleting a task removes it from every later count: one fewer active, one
   fewer in total, one fewer in its category and priority bins (and no change
   in any other bin), and one fewer overdue if it was overdue.
   */
  lemma DeleteUpdatesInsights(s: Store, t: Task, today: Day, key: string)
    requires t in s.active
    ensures var before := Insights.ProductivityInsights(s.active, s.completed, today);
            var after := Insights.ProductivityInsights(DeleteTask(s, t).active, DeleteTask(s, t).completed, today);
            && after.totalTasks == before.totalTasks - 1
            && after.activeTasks == before.activeTasks - 1
            && after.overdueCount == before.overdueCount - (if Insights.IsOverdue(t, today) then 1 else 0)
            && Histogram.Get(after.categoryDistribution, key) + (if Insights.CategoryKey(t) == key then 1 else 0)
               == Histogram.Get(before.categoryDistribution, key)
            && Histogram.Get(after.priorityDistribution, key) + (if Insights.PriorityKey(t) == key then 1 else 0)
               == Histogram.Get(before.priorityDistribution, key)
  {
    RemoveFirstOverdue(s.active, t, today);
    RemoveDropsOneCount(s.active, s.completed, t, Insights.CategoryKey, key);
    RemoveDropsOneCount(s.active, s.completed, t, Insights.PriorityKey, key);
  }

  /** Taking `t` out of `xs` removes one from the count of `t`'s key and from no other. */
  lemma RemoveDropsOneCount(xs: seq<Task>, ys: seq<Task>, t: Task, f: Task -> string, key: string)
    requires t in xs
    ensures Histogram.Occurrences(Insights.KeysBy(RemoveFirst(xs, t) + ys, f), key) + (if f(t) == key then 1 else 0)
            == Histogram.Occurrences(Insights.KeysBy(xs + ys, f), key)
  {
    var i := IndexOf(xs, t);
    var a := xs[..i];
    var b := xs[i + 1..];
    assert RemoveFirst(xs, t) + ys == a + b + ys + [];
    assert xs + ys == a + [t] + b + ys by {
      assert xs == a + [t] + b;
    }
    CountSplit4(a, b, ys, [], f, key);
    CountSplit4(a, [t], b, ys, f, key);
    assert Insights.KeysBy([t], f) == [] + [f(t)];
  }

  /**
   Ids are not unique. Right after an add, the newest active task holds the
   id |active| + |completed| of the new store; delete any other active task and add again, and the new task gets
   that same id, so two active tasks share it.
   */
  lemma IdRepeatsAfterDelete(s: Store, victim: Task, form: TaskForm, today: Day, now: Stamp, pick: nat)
    requires pick < |Guidance.TemplatePool(form.priority)| && form.title != []
    requires |s.active| >= 1 && s.active[|s.active| - 1].id == NextId(s) - 1
    requires victim in s.active && victim != s.active[|s.active| - 1]
    ensures var after := AddTask(DeleteTask(s, victim), form, today, now, pick);
            && after.Success?
            && |after.value.active| == |s.active|
            && s.active[|s.active| - 1] == after.value.active[|s.active| - 2]
            && after.value.active[|s.active| - 1].id == s.active[|s.active| - 1].id
  {
  }

  /**
   After an add, the newest active task's id is one below the next id, that is
   |active| + |completed| of the new store, as the lemma above assumes. It need
   not be the largest id among the active tasks once some have been deleted.
   */
  lemma AddGivesNewestLastId(s: Store, form: TaskForm, today: Day, now: Stamp, pick: nat)
    requires pick < |Guidance.TemplatePool(form.priority)| && form.title != []
    ensures var after := AddTask(s, form, today, now, pick).value;
            after.active[|after.active| - 1].id == NextId(after) - 1
  {
  }

  /**
   The collision is reachable from the empty store: add two tasks, delete the
   first, add a third, and the two active tasks both have id 2.
   */
  lemma IdRepeatsFromEmptyStore(f1: TaskForm, f2: TaskForm, f3: TaskForm, today: Day, now: Stamp, pick: nat)
    requires f1.title != [] && f2.title != [] && f3.title != []
    requires pick < 3
    ensures var s1 := AddTask(EmptyStore, f1, today, now, pick).value;
            var s2 := AddTask(s1, f2, today, now, pick).value;
            var s3 := AddTask(DeleteTask(s2, s2.active[0]), f3, today, now, pick).value;
            && |s3.active| == 2
            && s3.active[0].id == 2 && s3.active[1].id == 2
  {
    var s1 := AddTask(EmptyStore, f1, today, now, pick).value;
    var s2 := AddTask(s1, f2, today, now, pick).value;
    assert s2.active[0].id == 1 && s2.active[1].id == 2;
    IdRepeatsAfterDelete(s2, s2.active[0], f3, today, now, pick);
  }
}
