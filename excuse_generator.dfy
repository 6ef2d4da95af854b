/**
 * The excuse generator: a template of the selected category chosen by a random
 * draw, rewritten according to the urgency and believability sliders and the
 * custom context, recorded at the head of the capped history, counted in the
 * statistics record; and the "save to favourites" action on the newest entry.
 */
module ExcuseGenerator {
  import opened Wrappers
  import opened Text
  import opened ExcuseRecord

  /** The history keeps at most this many entries, newest first. */
  const HistoryLimit: nat := 50

  /** From this urgency on, the text is made to sound urgent. */
  const UrgentFrom: int := 8

  /** Up to this believability, the text admits that the situation is unusual. */
  const UnusualUpTo: int := 3

  const UnusualNote: string := " This situation is quite unusual but unfortunately unavoidable."
  const ContextLabel: string := " Additional context: "

  /** The statistics record stored under 'excuse-stats'. */
  datatype Stats = Stats(totalExcuses: int, successRate: int, favoriteCategory: string)

  /** The statistics used when none are stored. */
  const DefaultStats: Stats := Stats(0, 85, "work")

  /** The excuse templates of each of the four categories. */
  const WorkTemplates: seq<string> := [
    "I'm experiencing unexpected technical difficulties with my internet connection that's preventing me from accessing our systems effectively.",
    "I have a family emergency that requires my immediate attention and I need to handle some urgent arrangements.",
    "I'm feeling quite unwell with symptoms that could be contagious, so I want to avoid spreading anything to the team.",
    "There's been a transportation issue that's significantly delayed my commute this morning.",
    "I have an important medical appointment that was rescheduled last minute and I couldn't find an alternative time."]

  const SchoolTemplates: seq<string> := [
    "I'm dealing with a family situation that requires my presence at home today.",
    "I'm experiencing severe technical issues with my computer that's preventing me from completing assignments.",
    "I have a medical appointment that couldn't be scheduled outside of school hours.",
    "There's been a transportation problem that's making it impossible for me to get to campus today.",
    "I'm feeling quite unwell and don't want to risk getting other students sick."]

  const SocialTemplates: seq<string> := [
    "Something unexpected came up with work that I need to handle urgently.",
    "I'm not feeling well and think it's best if I stay home and rest.",
    "I have a family commitment that I forgot about and can't reschedule.",
    "I'm having car trouble and can't find reliable transportation.",
    "I have to help a friend with an emergency situation."]

  const FamilyTemplates: seq<string> := [
    "I have an important work commitment that came up unexpectedly.",
    "I'm not feeling well and don't want to risk getting anyone else sick.",
    "I have a prior engagement that I completely forgot about and can't cancel.",
    "I'm having transportation issues that are preventing me from coming over.",
    "Something urgent has come up that I need to take care of immediately."]

  /** The templates of a category; the four category buttons are the only ones that have any. */
  function Templates(category: string): (r: Option<seq<string>>)
    ensures r.Some? <==> category == "work" || category == "school" || category == "social" || category == "family"
    ensures r.Some? ==> |r.value| == 5
  {
    if category == "work" then Some(WorkTemplates)
    else if category == "school" then Some(SchoolTemplates)
    else if category == "social" then Some(SocialTemplates)
    else if category == "family" then Some(FamilyTemplates)
    else None
  }

  /** `Math.floor(roll * count)` for a draw `roll` of `Math.random()`: a valid index. */
  function TemplateIndex(count: nat, roll: real): (i: nat)
    requires count > 0 && 0.0 <= roll < 1.0
    ensures i < count
  {
    var scaled := roll * count as real;
    assert 0.0 <= scaled < count as real by {
      var gap := 1.0 - roll;
      assert gap > 0.0 && count as real >= 1.0;
      assert gap * count as real >= gap;
      assert scaled == count as real - gap * count as real;
    }
    scaled.Floor
  }

  /** The urgency rewrite: from `UrgentFrom` on, the first "I'm" and then the first "There's" are emphasised. */
  function Emphasised(template: string, urgency: int): (r: string)
    ensures urgency < UrgentFrom ==> r == template
    ensures urgency >= UrgentFrom && IndexOf(template, "I'm").None? && IndexOf(template, "There's").None? ==> r == template
  {
    if urgency >= UrgentFrom then
      ReplaceFirst(ReplaceFirst(template, "I'm", "I'm urgently"), "There's", "There's an extremely urgent")
    else template
  }

  /** A template that starts with `pattern` has exactly that leading occurrence replaced. */
  lemma LeadingOccurrenceReplaced(s: string, pattern: string, replacement: string)
    requires |pattern| <= |s| && s[..|pattern|] == pattern
    ensures ReplaceFirst(s, pattern, replacement) == replacement + s[|pattern|..]
  {
    ReplaceFirstAt(s, pattern, replacement, 0);
  }

  /**
   * The text the generator shows: the rewritten template, then the unusual-note
   * sentence when believability is low, then the custom context when one is given.
   */
  function Composed(template: string, urgency: int, believability: int, context: string): (r: string)
    ensures urgency < UrgentFrom ==> template <= r
    ensures believability > UnusualUpTo && context == "" ==> r == Emphasised(template, urgency)
    ensures believability <= UnusualUpTo && context == "" ==> r == Emphasised(template, urgency) + UnusualNote
    ensures context != "" ==> |r| >= |ContextLabel + context| && r[|r| - |ContextLabel + context|..] == ContextLabel + context
  {
    Emphasised(template, urgency)
      + (if believability <= UnusualUpTo then UnusualNote else "")
      + (if context != "" then ContextLabel + context else "")
  }

  /**
   * The custom context comes last: the text with a context is the text without
   * one (rewritten template, then the unusual note when it applies) followed by
   * the context label and the context.
   */
  lemma ContextComesLast(template: string, urgency: int, believability: int, context: string)
    ensures Composed(template, urgency, believability, context)
      == Composed(template, urgency, believability, "") + (if context != "" then ContextLabel + context else "")
  {
    var base := Emphasised(template, urgency) + (if believability <= UnusualUpTo then UnusualNote else "");
    assert Composed(template, urgency, believability, "") == base + "";
    assert base + "" == base;
  }

  /** The rewriting steps of `generateExcuse`, by successive reassignment of the text. */
  method ComposeExcuse(template: string, urgency: int, believability: int, context: string)
    returns (excuse: string)
    ensures excuse == Composed(template, urgency, believability, context)
  {
    excuse := template;
    if urgency >= UrgentFrom {
      excuse := ReplaceFirst(excuse, "I'm", "I'm urgently");
      excuse := ReplaceFirst(excuse, "There's", "There's an extremely urgent");
    }
    if believability <= UnusualUpTo {
      excuse := excuse + UnusualNote;
    }
    if context != "" {
      excuse := excuse + ContextLabel + context;
    }
  }

  /** `history.unshift(entry)` followed by `history.slice(0, 50)`. */
  function CappedPrepend(history: seq<StoredExcuse>, entry: StoredExcuse): (r: seq<StoredExcuse>)
    ensures |r| == if |history| + 1 < HistoryLimit then |history| + 1 else HistoryLimit
    ensures r[0] == entry
    ensures forall i :: 1 <= i < |r| ==> r[i] == history[i - 1]
  {
    var grown := [entry] + history;
    grown[..if |grown| < HistoryLimit then |grown| else HistoryLimit]
  }

  /** The stored history after generating `entries`, oldest generation first. */
  function AfterGenerations(history: seq<StoredExcuse>, entries: seq<StoredExcuse>): seq<StoredExcuse>
    decreases |entries|
  {
    if entries == [] then history
    else CappedPrepend(AfterGenerations(history, entries[..|entries| - 1]), entries[|entries| - 1])
  }

  /** However many excuses are generated, the history holds at most 50 entries. */
  lemma {:induction false} GenerationsStayBounded(history: seq<StoredExcuse>, entries: seq<StoredExcuse>)
    requires entries != []
    decreases |entries|
    ensures |AfterGenerations(history, entries)| == if |history| + |entries| < HistoryLimit then |history| + |entries| else HistoryLimit
  {
    if |entries| > 1 {
      GenerationsStayBounded(history, entries[..|entries| - 1]);
    }
  }

  /**
   * The history after generations: the newest generations first, newest at the
   * head, followed by the entries that were there before, in their original
   * order.
   */
  lemma {:induction false} GenerationsNewestFirst(history: seq<StoredExcuse>, entries: seq<StoredExcuse>)
    requires entries != []
    decreases |entries|
    ensures var r := AfterGenerations(history, entries);
      && |r| <= |history| + |entries|
      && (forall i :: 0 <= i < |r| && i < |entries| ==> r[i] == entries[|entries| - 1 - i])
      && (forall i :: |entries| <= i < |r| ==> r[i] == history[i - |entries|])
  {
    var n := |entries|;
    var r := AfterGenerations(history, entries);
    var prev := AfterGenerations(history, entries[..n - 1]);
    assert r == CappedPrepend(prev, entries[n - 1]);
    if n == 1 {
      assert prev == history;
    } else {
      GenerationsNewestFirst(history, entries[..n - 1]);
      forall i | 1 <= i < |r| && i < n ensures r[i] == entries[n - 1 - i] {
        assert r[i] == prev[i - 1];
      }
      forall i | n <= i < |r| ensures r[i] == history[i - n] {
        assert r[i] == prev[i - 1];
      }
    }
  }

  /** The statistics update: one more excuse, the category just used, the rate kept. */
  method CountGeneration(stored: Option<Stats>, category: string) returns (stats: Stats)
    ensures var base := stored.GetOr(DefaultStats);
      && stats.totalExcuses == base.totalExcuses + 1
      && stats.successRate == base.successRate
      && stats.favoriteCategory == category
    ensures stored.None? ==> stats == Stats(1, 85, category)
  {
    stats := stored.GetOr(DefaultStats);
    stats := stats.(totalExcuses := stats.totalExcuses + 1);
    stats := stats.(favoriteCategory := category);
  }

  /**
   * `saveToFavorites`: marks the newest stored entry as a favourite; with no
   * entries nothing is written.
   */
  method SaveToFavorites(stored: Option<seq<StoredExcuse>>) returns (after: Option<seq<StoredExcuse>>, saved: bool)
    ensures saved <==> stored.Some? && |stored.value| > 0
    ensures !saved ==> after == stored
    ensures saved ==>
      && after.Some? && |after.value| == |stored.value|
      && after.value[0] == stored.value[0].(isFavorite := true)
      && after.value[1..] == stored.value[1..]
  {
    var history := stored.GetOr([]);
    after, saved := stored, false;
    if |history| > 0 {
      history := history[0 := history[0].(isFavorite := true)];
      after, saved := Some(history), true;
    }
  }

  /** The generator's state: the form controls and the shown result. */
  class GeneratorView {
    var selectedCategory: string
    var urgencyLevel: int
    var believabilityLevel: int
    var customContext: string
    var generatedExcuse: string
    var isGenerating: bool

    constructor ()
      ensures selectedCategory == "work" && urgencyLevel == 3 && believabilityLevel == 7
      ensures customContext == "" && generatedExcuse == "" && !isGenerating
    {
      selectedCategory, urgencyLevel, believabilityLevel := "work", 3, 7;
      customContext, generatedExcuse, isGenerating := "", "", false;
    }

    /**
     * `generateExcuse`. `roll` is the draw of `Math.random()`, `idClock` and
     * `isoClock` the two clock readings; the stored history and statistics come
     * in and their new values go out, together with the statistics handed to the
     * page. A category without templates makes the handler fail before anything
     * is shown or stored.
     */
    method GenerateExcuse(roll: real, idClock: int, isoClock: int,
                          storedHistory: Option<seq<StoredExcuse>>, storedStats: Option<Stats>)
      returns (history: Option<seq<StoredExcuse>>, stats: Option<Stats>, published: Option<Stats>)
      requires 0.0 <= roll < 1.0
      modifies this
      ensures !isGenerating
      ensures selectedCategory == old(selectedCategory) && urgencyLevel == old(urgencyLevel)
      ensures believabilityLevel == old(believabilityLevel) && customContext == old(customContext)
      ensures Templates(selectedCategory).None? ==>
        generatedExcuse == old(generatedExcuse) && history == storedHistory && stats == storedStats && published == None
      ensures Templates(selectedCategory).Some? ==>
        var templates := Templates(selectedCategory).value;
        var template := templates[TemplateIndex(|templates|, roll)];
        var entry := StoredExcuse(idClock, generatedExcuse, selectedCategory, urgencyLevel, believabilityLevel, isoClock, false);
        var base := storedStats.GetOr(DefaultStats);
        && generatedExcuse == Composed(template, urgencyLevel, believabilityLevel, customContext)
        && history == Some(CappedPrepend(storedHistory.GetOr([]), entry))
        && stats == Some(Stats(base.totalExcuses + 1, base.successRate, selectedCategory))
        && published == stats
    {
      isGenerating := true;
      var templates := Templates(selectedCategory);
      if templates.None? {
        history, stats, published := storedHistory, storedStats, None;
      } else {
        var ts := templates.value;
        var excuse := ComposeExcuse(ts[TemplateIndex(|ts|, roll)], urgencyLevel, believabilityLevel, customContext);
        generatedExcuse := excuse;
        var entry := StoredExcuse(idClock, excuse, selectedCategory, urgencyLevel, believabilityLevel, isoClock, false);
        var list := storedHistory.GetOr([]);
        list := [entry] + list;
        history := Some(list[..if |list| < HistoryLimit then |list| else HistoryLimit]);
        var current := CountGeneration(storedStats, selectedCategory);
        stats, published := Some(current), Some(current);
      }
      isGenerating := false;
    }
  }
}
