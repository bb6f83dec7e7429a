/**
 The guidance composer: a template picked from a per-priority pool, with the
 task title (and sometimes the lower-cased category) interpolated, followed
 by a blank line and a fixed tip for the category. The random pick is a
 parameter, so the composer is deterministic here.
 */
module Guidance {

  /** One fragment of an f-string template. */
  datatype Piece =
    | Lit(text: string)
    | TitleSlot        // `{task_title}`
    | CategorySlot     // `{category.lower()}`

  type Template = seq<Piece>

  /** ASCII lower-casing of one character. */
  function LowerChar(c: char): char {
    if 'A' <= c <= 'Z' then (c as int + 32) as char else c
  }

  /** `str.lower()` on the ASCII range. */
  function Lower(s: string): (r: string)
    ensures |r| == |s|
    ensures forall i :: 0 <= i < |s| ==> r[i] == LowerChar(s[i])
    ensures forall i :: 0 <= i < |r| ==> !('A' <= r[i] <= 'Z')
  {
    if s == [] then [] else [LowerChar(s[0])] + Lower(s[1..])
  }

  /** The text one piece contributes. */
  function PieceText(p: Piece, title: string, category: string): string {
    match p
    case Lit(text) => text
    case TitleSlot => title
    case CategorySlot => Lower(category)
  }

  /**
   Fills a template's slots. A title slot puts the whole title into the text,
   and a category slot the whole lower-cased category.
   */
  function Render(t: Template, title: string, category: string): (text: string)
    ensures TitleSlot in t ==> Mentions(text, title)
    ensures CategorySlot in t ==> Mentions(text, Lower(category))
  {
    if t == [] then []
    else
      var head := PieceText(t[0], title, category);
      var rest := Render(t[1..], title, category);
      assert t == [t[0]] + t[1..];
      SlotShows(t, TitleSlot, title, head, rest);
      SlotShows(t, CategorySlot, Lower(category), head, rest);
      head + rest
  }

  /** One step of `Render`: a slot in the head or in the tail shows up in their join. */
  lemma SlotShows(t: Template, slot: Piece, filled: string, head: string, rest: string)
    requires t != [] && (t[0] == slot ==> head == filled)
    requires slot in t[1..] ==> Mentions(rest, filled)
    ensures slot in t ==> Mentions(head + rest, filled)
  {
    if t[0] == slot {
      assert MentionsAt(filled, filled, 0);
      MentionsPrefix(filled, rest, filled);
    } else if slot in t {
      assert t == [t[0]] + t[1..];
      MentionsSuffix(head, rest, filled);
    }
  }

  /** `needle` occurs as a contiguous piece of `hay`. */
  predicate Mentions(hay: string, needle: string) {
    exists i | 0 <= i <= |hay| - |needle| :: MentionsAt(hay, needle, i)
  }

  /** `needle` occurs in `hay` starting at index `i`. */
  predicate MentionsAt(hay: string, needle: string, i: int) {
    0 <= i <= |hay| - |needle| && hay[i..i + |needle|] == needle
  }

  /** `hay` ends with `suffix`. */
  predicate EndsWith(hay: string, suffix: string) {
    |suffix| <= |hay| && hay[|hay| - |suffix|..] == suffix
  }

  const HighPool: seq<Template> := [
    [Lit("\U{1F3AF} **High Priority Alert**: '"), TitleSlot,
     Lit("' requires immediate attention. Consider dedicating your peak energy hours to this task.")],
    [Lit("\U{26A1} **Focus Strategy**: For '"), TitleSlot,
     Lit("', eliminate distractions and use time-blocking. Set a specific deadline and break it into 25-minute focus sessions.")],
    [Lit("\U{1F525} **Urgent Task**: '"), TitleSlot,
     Lit("' should be your top priority today. Consider what you can delegate or postpone to focus on this.")]
  ]

  const MediumPool: seq<Template> := [
    [Lit("\U{1F4CB} **Balanced Approach**: '"), TitleSlot,
     Lit("' is important but manageable. Schedule it during your moderately productive hours.")],
    [Lit("\U{23F0} **Time Management**: For '"), TitleSlot,
     Lit("', set a realistic timeline and consider batching it with similar tasks in your "), CategorySlot,
     Lit(" category.")],
    [Lit("\U{1F4CA} **Strategic Planning**: '"), TitleSlot,
     Lit("' contributes to your goals. Plan specific steps and allocate adequate time.")]
  ]

  const LowPool: seq<Template> := [
    [Lit("\U{1F331} **When Time Permits**: '"), TitleSlot,
     Lit("' can be done during low-energy periods or as a break from more intensive tasks.")],
    [Lit("\U{1F504} **Batch Processing**: Consider grouping '"), TitleSlot,
     Lit("' with other "), CategorySlot, Lit(" tasks for efficiency.")],
    [Lit("\U{1F4DD} **Quick Wins**: '"), TitleSlot,
     Lit("' might be a good warm-up task to build momentum for your day.")]
  ]

  /** The template pools, keyed by priority. */
  const GuidanceTemplates: map<string, seq<Template>> :=
    map["High" := HighPool, "Medium" := MediumPool, "Low" := LowPool]

  /** The fixed tip per category. */
  const CategoryTips: map<string, string> := map[
    "Work" := "\U{1F4BC} Consider your work environment, deadlines, and team dependencies.",
    "Personal" := "\U{1F3E0} Think about your personal energy levels and home environment.",
    "Health" := "\U{1F4AA} Remember that consistency is key for health-related goals.",
    "Learning" := "\U{1F4DA} Use active learning techniques and spaced repetition.",
    "Finance" := "\U{1F4B0} Consider long-term impact and set measurable milestones.",
    "Other" := "\U{1F3AF} Define clear success criteria and next steps."
  ]

  const Separator := "\n\n"

  /** The pool for a priority; an unknown priority falls back to the "Medium" pool. */
  function TemplatePool(priority: string): (pool: seq<Template>)
    ensures |pool| == 3
    ensures priority !in GuidanceTemplates ==> pool == MediumPool
    ensures forall i :: 0 <= i < |pool| ==> TitleSlot in pool[i]
  {
    if priority in GuidanceTemplates then GuidanceTemplates[priority] else GuidanceTemplates["Medium"]
  }

  /** The tip for a category; an unknown category falls back to the "Other" tip. */
  function CategoryTip(category: string): (tip: string)
    ensures tip in CategoryTips.Values
    ensures category !in CategoryTips ==> tip == CategoryTips["Other"]
  {
    if category in CategoryTips then CategoryTips[category] else CategoryTips["Other"]
  }

  /**
   The guidance text for a new task; `pick` is the index the random choice
   would have drawn from the pool.
   */
  function GenerateGuidance(title: string, priority: string, category: string, pick: nat): (text: string)
    requires pick < |TemplatePool(priority)|
    ensures Mentions(text, title)
    ensures EndsWith(text, Separator + CategoryTip(category))
    ensures category !in CategoryTips ==> EndsWith(text, Separator + CategoryTips["Other"])
    ensures text[..|text| - |Separator + CategoryTip(category)|]
              == Render(TemplatePool(priority)[pick], title, category)
  {
    var base := Render(TemplatePool(priority)[pick], title, category);
    var tail := Separator + CategoryTip(category);
    MentionsPrefix(base, tail, title);
    base + tail
  }

  lemma MentionsSuffix(a: string, b: string, needle: string)
    requires Mentions(b, needle)
    ensures Mentions(a + b, needle)
  {
    var i :| 0 <= i <= |b| - |needle| && MentionsAt(b, needle, i);
    assert (a + b)[|a| + i..|a| + i + |needle|] == b[i..i + |needle|];
    assert MentionsAt(a + b, needle, |a| + i);
  }

  lemma MentionsPrefix(a: string, b: string, needle: string)
    requires Mentions(a, needle)
    ensures Mentions(a + b, needle)
  {
    var i :| 0 <= i <= |a| - |needle| && MentionsAt(a, needle, i);
    assert (a + b)[i..i + |needle|] == a[i..i + |needle|];
    assert MentionsAt(a + b, needle, i);
  }

  /** An unknown priority gives exactly the guidance a "Medium" task would get. */
  lemma UnknownPriorityUsesMediumPool(title: string, priority: string, category: string, pick: nat)
    requires priority !in GuidanceTemplates && pick < 3
    ensures GenerateGuidance(title, priority, category, pick) == GenerateGuidance(title, "Medium", category, pick)
  {
  }
}
