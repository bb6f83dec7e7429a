/**
 The priority scorer: a task's score is its priority weight times its
 category multiplier times an urgency multiplier that steps up as the due
 date approaches. Scores are exact reals here.
 */
module Scoring {

  const KnownPriorities: set<string> := {"High", "Medium", "Low"}
  const KnownCategories: set<string> := {"Work", "Health", "Personal", "Learning", "Finance", "Other"}

  /** Weight per priority; any other priority weighs as much as "Medium". */
  function PriorityWeight(priority: string): (w: real)
    ensures w in {10.0, 6.0, 3.0}
    ensures priority !in KnownPriorities ==> w == 6.0
  {
    if priority == "High" then 10.0
    else if priority == "Medium" then 6.0
    else if priority == "Low" then 3.0
    else 6.0
  }

  /** Multiplier per category; any other category gets the neutral 1.0. */
  function CategoryMultiplier(category: string): (m: real)
    ensures 0.8 <= m <= 1.2
    ensures category !in KnownCategories ==> m == 1.0
  {
    if category == "Work" then 1.2
    else if category == "Health" then 1.1
    else if category == "Personal" then 1.0
    else if category == "Learning" then 0.9
    else if category == "Finance" then 1.15
    else if category == "Other" then 0.8
    else 1.0
  }

  /**
   Urgency step by days until due. An overdue task (negative days) lands in
   the first step, so it is scored as maximally urgent.
   */
  function UrgencyMultiplier(daysUntilDue: int): (u: real)
    ensures 1.0 <= u <= 2.0
    ensures daysUntilDue <= 1 <==> u == 2.0
    ensures daysUntilDue > 7 <==> u == 1.0
  {
    if daysUntilDue <= 1 then 2.0
    else if daysUntilDue <= 3 then 1.5
    else if daysUntilDue <= 7 then 1.2
    else 1.0
  }

  /** The score stored on a new task. */
  function PriorityScore(priority: string, daysUntilDue: int, category: string): (score: real)
    ensures 2.4 <= score <= 24.0
  {
    PriorityWeight(priority) * CategoryMultiplier(category) * UrgencyMultiplier(daysUntilDue)
  }

  /** The urgency step never rises as the due date moves further away. */
  lemma UrgencyNonIncreasing(d1: int, d2: int)
    requires d1 <= d2
    ensures UrgencyMultiplier(d2) <= UrgencyMultiplier(d1)
  {
  }

  /** For fixed priority and category, a later due date never scores higher. */
  lemma ScoreNonIncreasingInDays(priority: string, category: string, d1: int, d2: int)
    requires d1 <= d2
    ensures PriorityScore(priority, d2, category) <= PriorityScore(priority, d1, category)
  {
  }

  /** Every overdue or due-tomorrow task scores exactly like one due in one day. */
  lemma OverdueScoresAsDueTomorrow(priority: string, category: string, days: int)
    requires days <= 1
    ensures PriorityScore(priority, days, category) == PriorityScore(priority, 1, category)
  {
  }

  /** Unknown priorities and categories score like "Medium" and a neutral category. */
  lemma UnknownInputsUseDefaults(priority: string, category: string, days: int)
    requires priority !in KnownPriorities && category !in KnownCategories
    ensures PriorityScore(priority, days, category) == PriorityScore("Medium", days, "Personal")
  {
  }

  /** The highest-scoring case: a High, Work task due today scores 10 * 1.2 * 2 = 24. */
  lemma HighWorkDueTodayScores24()
    ensures PriorityScore("High", 0, "Work") == 24.0
  {
  }

  /** The bounds are attained: Low, Other, more than a week out scores 3 * 0.8 * 1 = 2.4. */
  lemma LowOtherFarOffScores2point4()
    ensures PriorityScore("Low", 30, "Other") == 2.4
  {
  }
}
