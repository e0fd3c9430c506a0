/** The preferences screen: three single-choice groups drawn from fixed option
    tables, and a submit button that hands the choice to the page. */
module PreferenceSelection {

  import opened Wrappers
  import opened Session

  /** The `id`s of the learning-style options, in display order. */
  const StyleIds: seq<string> := ["podcast", "quiz", "mood"]

  /** The `minutes` of the duration options, in display order. */
  const DurationMinutes: seq<int> := [5, 15, 30]

  /** The `id`s of the mood options, in display order. */
  const MoodIds: seq<string> := ["energetic", "calm", "focused"]

  /** Every option table has three entries; a click names one of them. */
  type Choice = i: int | 0 <= i < 3

  /** The three selections, kept as a `Preferences` record: `""` and `0` mean
      nothing is selected yet. */
  function Init(): (sel: Preferences)
    ensures sel.style == "" && sel.duration == 0 && sel.mood == ""
  {
    Preferences("", 0, "")
  }

  /** Clicking a style option selects its id; the other two groups keep theirs. */
  function SelectStyle(sel: Preferences, i: Choice): (r: Preferences)
    ensures r.style in StyleIds && r.style == StyleIds[i]
    ensures r.duration == sel.duration && r.mood == sel.mood
  {
    sel.(style := StyleIds[i])
  }

  /** Clicking a duration option selects its minutes; the others keep theirs. */
  function SelectDuration(sel: Preferences, i: Choice): (r: Preferences)
    ensures r.duration in DurationMinutes && r.duration == DurationMinutes[i]
    ensures r.style == sel.style && r.mood == sel.mood
  {
    sel.(duration := DurationMinutes[i])
  }

  /** Clicking a mood option selects its id; the others keep theirs. */
  function SelectMood(sel: Preferences, i: Choice): (r: Preferences)
    ensures r.mood in MoodIds && r.mood == MoodIds[i]
    ensures r.style == sel.style && r.duration == sel.duration
  {
    sel.(mood := MoodIds[i])
  }

  /** Every group has a selection (JavaScript truthiness of the three values). */
  predicate AllSelected(sel: Preferences) {
    sel.style != "" && sel.duration != 0 && sel.mood != ""
  }

  /** Submit: emit exactly the current selection when all three groups have
      one; otherwise do nothing. */
  function HandleSubmit(sel: Preferences): (r: Option<Preferences>)
    ensures r.Some? <==> sel.style != "" && sel.duration != 0 && sel.mood != ""
    ensures r.Some? ==> r.value == sel
  {
    if AllSelected(sel) then Some(sel) else None
  }

  /** The submit button's `disabled` attribute. */
  predicate SubmitDisabled(sel: Preferences) {
    sel.style == "" || sel.duration == 0 || sel.mood == ""
  }

  /** The button is disabled exactly when the submit handler would do nothing. */
  lemma SubmitDisabledIffRejected(sel: Preferences)
    ensures SubmitDisabled(sel) <==> HandleSubmit(sel).None?
  {
  }

  /** What the user can do on this screen. */
  datatype Event =
    | ClickStyle(style: Choice)
    | ClickDuration(duration: Choice)
    | ClickMood(mood: Choice)
    | Submit

  /** The selection after an event, and the preferences emitted, if any. */
  datatype Outcome = Outcome(selection: Preferences, emitted: Option<Preferences>)

  /** Handle one event on the screen. */
  function Next(sel: Preferences, ev: Event): (o: Outcome)
    ensures ev != Submit ==> o.emitted == None
    ensures ev == Submit ==> o.selection == sel && o.emitted == HandleSubmit(sel)
  {
    match ev
    case ClickStyle(i) => Outcome(SelectStyle(sel, i), None)
    case ClickDuration(i) => Outcome(SelectDuration(sel, i), None)
    case ClickMood(i) => Outcome(SelectMood(sel, i), None)
    case Submit => Outcome(sel, HandleSubmit(sel))
  }

  /** Each group holds either nothing or one of its own options. */
  predicate FromOptions(sel: Preferences) {
    && (sel.style == "" || sel.style in StyleIds)
    && (sel.duration == 0 || sel.duration in DurationMinutes)
    && (sel.mood == "" || sel.mood in MoodIds)
  }

  /** A complete selection made from the option tables. */
  predicate Offered(p: Preferences) {
    p.style in StyleIds && p.duration in DurationMinutes && p.mood in MoodIds
  }

  /** Closed world: events keep the selection within the option tables, and
      whatever the screen emits is one of the offered combinations. */
  lemma NextStaysInOptions(sel: Preferences, ev: Event)
    requires FromOptions(sel)
    ensures FromOptions(Next(sel, ev).selection)
    ensures Next(sel, ev).emitted.Some? ==> Offered(Next(sel, ev).emitted.value)
  {
  }

  /** Every offered duration is positive, and the session it sets up lasts
      300, 900 or 1800 seconds. */
  lemma OfferedDurationSeconds(p: Preferences)
    requires Offered(p)
    ensures p.duration > 0
    ensures p.duration * 60 in {300, 900, 1800}
  {
  }

  /** Conversely, every offered combination can be emitted: one click in each
      group followed by Submit produces exactly that combination. */
  lemma EveryCombinationReachable(sel: Preferences, i: Choice, j: Choice, k: Choice)
    ensures var s := SelectMood(SelectDuration(SelectStyle(sel, i), j), k);
      Next(s, Submit).emitted == Some(Preferences(StyleIds[i], DurationMinutes[j], MoodIds[k]))
  {
  }
}
