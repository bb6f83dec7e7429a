/**
 The productivity insights: counts, completion percentage, the category and
 priority histograms over all tasks, and the number of overdue active tasks.
 A pure read of the two task lists; `today` is passed in.
 */
module Insights {
  import opened Tasks
  import opened Histogram

  datatype Insights = Insights(
    totalTasks: nat,
    completionRate: real,
    overdueCount: nat,
    categoryDistribution: Histogram,
    priorityDistribution: Histogram,
    activeTasks: nat)

  /** A task without a category is counted under "Other". */
  function CategoryKey(t: Task): (key: string)
    ensures t.category.Some? ==> key == t.category.value
    ensures t.category.None? ==> key == "Other"
  {
    t.category.GetOr("Other")
  }

  /** A task without a priority is counted under "Medium". */
  function PriorityKey(t: Task): (key: string)
    ensures t.priority.Some? ==> key == t.priority.value
    ensures t.priority.None? ==> key == "Medium"
  {
    t.priority.GetOr("Medium")
  }

  /** The key each task is counted under, in list order. */
  function KeysBy(tasks: seq<Task>, key: Task -> string): (keys: seq<string>)
    ensures |keys| == |tasks|
    ensures forall i :: 0 <= i < |tasks| ==> keys[i] == key(tasks[i])
  {
    seq(|tasks|, i requires 0 <= i < |tasks| => key(tasks[i]))
  }

  /** Keying a joined list is keying each part and joining the results. */
  lemma KeysByConcat(a: seq<Task>, b: seq<Task>, key: Task -> string)
    ensures KeysBy(a + b, key) == KeysBy(a, key) + KeysBy(b, key)
  {
  }

  function CategoryKeys(tasks: seq<Task>): seq<string> {
    KeysBy(tasks, CategoryKey)
  }

  function PriorityKeys(tasks: seq<Task>): seq<string> {
    KeysBy(tasks, PriorityKey)
  }

  /** Due strictly before today; a task with no due date is never overdue. */
  predicate IsOverdue(t: Task, today: Day)
    ensures t.due.None? ==> !IsOverdue(t, today)
    ensures t.due.Some? && t.due.value >= today ==> !IsOverdue(t, today)
    ensures t.due.Some? && t.due.value < today ==> IsOverdue(t, today)
  {
    t.due.Some? && t.due.value < today
  }

  /** The overdue-counting loop. */
  function OverdueCount(tasks: seq<Task>, today: Day): (n: nat)
    ensures n <= |tasks|
    ensures n == 0 <==> forall i :: 0 <= i < |tasks| ==> !IsOverdue(tasks[i], today)
    ensures n == |tasks| <==> forall i :: 0 <= i < |tasks| ==> IsOverdue(tasks[i], today)
  {
    if tasks == [] then 0
    else
      var rest := OverdueCount(tasks[1..], today);
      assert forall i :: 0 < i < |tasks| ==> tasks[i] == tasks[1..][i - 1];
      (if IsOverdue(tasks[0], today) then 1 else 0) + rest
  }

  /** A task overdue on one day stays overdue on every later day. */
  lemma OverdueStaysOverdue(t: Task, day: Day, later: Day)
    requires day <= later
    ensures IsOverdue(t, day) ==> IsOverdue(t, later)
  {
  }

  /** As the days pass the overdue count never falls. */
  lemma {:induction false} OverdueCountGrows(tasks: seq<Task>, day: Day, later: Day)
    requires day <= later
    ensures OverdueCount(tasks, day) <= OverdueCount(tasks, later)
  {
    if tasks != [] {
      OverdueStaysOverdue(tasks[0], day, later);
      OverdueCountGrows(tasks[1..], day, later);
    }
  }

  /** The count splits over a concatenation. */
  lemma {:induction false} OverdueCountConcat(a: seq<Task>, b: seq<Task>, today: Day)
    ensures OverdueCount(a + b, today) == OverdueCount(a, today) + OverdueCount(b, today)
  {
    if a != [] {
      assert (a + b)[1..] == a[1..] + b;
      OverdueCountConcat(a[1..], b, today);
    } else {
      assert a + b == b;
    }
  }

  /**
   Completed tasks as a percentage of all tasks, and 0 when there are no
   tasks at all (the division by zero is avoided).
   */
  function CompletionRate(done: nat, total: nat): (rate: real)
    requires done <= total
    ensures 0.0 <= rate <= 100.0
    ensures total == 0 ==> rate == 0.0
    ensures total > 0 ==> rate * (total as real) == (done as real) * 100.0
    ensures done == total && total > 0 ==> rate == 100.0
  {
    if total > 0 then
      var fraction := (done as real) / (total as real);
      assert fraction <= 1.0 by {
        assert (done as real) <= (total as real);
      }
      fraction * 100.0
    else 0.0
  }

  function ProductivityInsights(active: seq<Task>, completed: seq<Task>, today: Day): (r: Insights)
    ensures r.totalTasks == |active| + |completed|
    ensures r.activeTasks == |active|
    ensures 0.0 <= r.completionRate <= 100.0
    ensures r.totalTasks == 0 ==> r.completionRate == 0.0
    ensures r.totalTasks > 0 ==> r.completionRate == (|completed| as real) / (r.totalTasks as real) * 100.0
    ensures Total(r.categoryDistribution) == r.totalTasks
    ensures Total(r.priorityDistribution) == r.totalTasks
    ensures DistinctKeys(r.categoryDistribution) && DistinctKeys(r.priorityDistribution)
    ensures forall k :: Get(r.categoryDistribution, k) == Occurrences(CategoryKeys(active + completed), k)
    ensures forall k :: Get(r.priorityDistribution, k) == Occurrences(PriorityKeys(active + completed), k)
    ensures r.overdueCount == OverdueCount(active, today)
    ensures r.overdueCount <= r.activeTasks
    ensures r.overdueCount == 0 <==> forall i :: 0 <= i < |active| ==> !IsOverdue(active[i], today)
  {
    var all := active + completed;
    Insights(
      |all|,
      CompletionRate(|completed|, |all|),
      OverdueCount(active, today),
      Tally(CategoryKeys(all)),
      Tally(PriorityKeys(all)),
      |active|)
  }

  /** Completed tasks never count as overdue, whatever their due dates. */
  lemma CompletedNeverOverdue(active: seq<Task>, completed: seq<Task>, other: seq<Task>, today: Day)
    ensures ProductivityInsights(active, completed, today).overdueCount
            == ProductivityInsights(active, other, today).overdueCount
  {
  }

  /** A task due today is not overdue; one due yesterday is. */
  lemma DueTodayIsNotOverdue(t: Task, today: Day)
    ensures t.due == Some(today) ==> !IsOverdue(t, today)
    ensures t.due == Some(today - 1) ==> IsOverdue(t, today)
  {
  }

  /** With no tasks at all every figure is zero and both histograms are empty. */
  lemma EmptyInsights(today: Day)
    ensures ProductivityInsights([], [], today) == Insights(0, 0.0, 0, [], [], 0)
  {
  }
}
