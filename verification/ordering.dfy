/**
 The display order of the active list: sorted by score, highest first.
 Python's `sorted(..., reverse=True)` is stable, so tasks with equal scores
 keep their list order; the model sorts by stable insertion.
 */
module Ordering {
  import opened Tasks

  /** Highest score first. */
  predicate SortedByScoreDesc(s: seq<Task>) {
    forall i, j :: 0 <= i < j < |s| ==> s[i].score >= s[j].score
  }

  /** The tasks of `s` whose score is exactly `v`, in list order. */
  function WithScore(s: seq<Task>, v: real): seq<Task> {
    if s == [] then []
    else (if s[0].score == v then [s[0]] else []) + WithScore(s[1..], v)
  }

  /** Puts `t` in front of the first task that does not outscore it. */
  function InsertByScore(sorted: seq<Task>, t: Task): (r: seq<Task>)
    ensures multiset(r) == multiset(sorted) + multiset{t}
    ensures SortedByScoreDesc(sorted) ==> SortedByScoreDesc(r)
  {
    if sorted == [] || t.score >= sorted[0].score then [t] + sorted
    else
      var rest := InsertByScore(sorted[1..], t);
      InsertStep(sorted, t, rest);
      [sorted[0]] + rest
  }

  /** The recursive case of insertion: the head stays in front of the tail with `t` inserted. */
  lemma InsertStep(sorted: seq<Task>, t: Task, rest: seq<Task>)
    requires sorted != [] && t.score < sorted[0].score
    requires multiset(rest) == multiset(sorted[1..]) + multiset{t}
    requires SortedByScoreDesc(sorted[1..]) ==> SortedByScoreDesc(rest)
    ensures multiset([sorted[0]] + rest) == multiset(sorted) + multiset{t}
    ensures SortedByScoreDesc(sorted) ==> SortedByScoreDesc([sorted[0]] + rest)
  {
    assert sorted == [sorted[0]] + sorted[1..];
    if SortedByScoreDesc(sorted) {
      forall x | x in rest ensures x.score <= sorted[0].score {
        assert x in multiset(rest);
        if x != t {
          assert x in sorted[1..];
        }
      }
      ConsSorted(sorted[0], rest);
    }
  }

  /** A head that outscores nothing in a descending tail keeps the list descending. */
  lemma ConsSorted(head: Task, rest: seq<Task>)
    requires SortedByScoreDesc(rest)
    requires forall x :: x in rest ==> x.score <= head.score
    ensures SortedByScoreDesc([head] + rest)
  {
  }

  /** The display order of `tasks`. */
  function SortByScoreDesc(tasks: seq<Task>): (r: seq<Task>)
    ensures multiset(r) == multiset(tasks)
    ensures SortedByScoreDesc(r)
  {
    if tasks == [] then []
    else
      assert tasks == [tasks[0]] + tasks[1..];
      InsertByScore(SortByScoreDesc(tasks[1..]), tasks[0])
  }

  /** Insertion puts `t` ahead of every task with the same score. */
  lemma {:induction false} InsertKeepsTies(sorted: seq<Task>, t: Task, v: real)
    ensures WithScore(InsertByScore(sorted, t), v)
            == (if t.score == v then [t] else []) + WithScore(sorted, v)
  {
    if sorted == [] || t.score >= sorted[0].score {
      assert ([t] + sorted)[1..] == sorted;
    } else {
      var rest := InsertByScore(sorted[1..], t);
      assert ([sorted[0]] + rest)[1..] == rest;
      InsertKeepsTies(sorted[1..], t, v);
    }
  }

  /** Sorting is stable: the tasks of any one score keep their list order. */
  lemma {:induction false} SortIsStable(tasks: seq<Task>, v: real)
    ensures WithScore(SortByScoreDesc(tasks), v) == WithScore(tasks, v)
  {
    if tasks != [] {
      SortIsStable(tasks[1..], v);
      InsertKeepsTies(SortByScoreDesc(tasks[1..]), tasks[0], v);
    }
  }

  /** A list already in display order is shown as it is. */
  lemma {:induction false} SortedInputUnchanged(tasks: seq<Task>)
    requires SortedByScoreDesc(tasks)
    ensures SortByScoreDesc(tasks) == tasks
  {
    if tasks != [] {
      SortedInputUnchanged(tasks[1..]);
      assert tasks == [tasks[0]] + tasks[1..];
    }
  }
}
