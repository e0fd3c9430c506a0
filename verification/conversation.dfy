/** The identity/topic screen: a two-step form that asks for a username, then
    for a learning topic, and hands both to the page. */
module Conversation {

  import opened Wrappers
  import opened JsText
  import opened Session

  datatype Step = UsernameStep | TopicStep

  /** The screen's local state: which card is shown, the two text inputs, and
      whether the voice button reports that it is listening. */
  datatype State = State(step: Step, username: string, topic: string, listening: bool)

  /** A freshly mounted screen. */
  function Init(): (st: State)
    ensures st.step == UsernameStep && !st.listening
    ensures st.username == "" && st.topic == ""
  {
    State(UsernameStep, "", "", false)
  }

  /** Continue: move on to the topic card when the username has text once
      trimmed; otherwise nothing happens. */
  function HandleUsernameSubmit(st: State): (r: State)
    ensures r.step == TopicStep <==> st.step == TopicStep || !IsBlank(st.username)
    ensures r.username == st.username && r.topic == st.topic && r.listening == st.listening
  {
    if HasText(st.username) then st.(step := TopicStep) else st
  }

  /** Let's Learn: hand the raw, untrimmed username and topic to the page when
      the topic has text once trimmed; otherwise emit nothing. */
  function HandleTopicSubmit(st: State): (r: Option<UserData>)
    ensures r.Some? <==> !IsBlank(st.topic)
    ensures r.Some? ==> r.value.username == st.username && r.value.topic == st.topic
  {
    if HasText(st.topic) then Some(UserData(st.username, st.topic)) else None
  }

  /** A finished voice transcript replaces the topic and ends listening, but
      only on the topic card; on the username card it is ignored. */
  function HandleVoiceTranscript(st: State, transcript: string): (r: State)
    ensures st.step == UsernameStep ==> r == st
    ensures st.step == TopicStep ==>
      && r.step == TopicStep && r.topic == transcript && !r.listening
      && r.username == st.username
  {
    if st.step == TopicStep then st.(topic := transcript, listening := false) else st
  }

  /** The Continue button's `disabled` attribute. */
  predicate ContinueDisabled(st: State) {
    !HasText(st.username)
  }

  /** The Let's Learn button's `disabled` attribute. */
  predicate LearnDisabled(st: State) {
    !HasText(st.topic)
  }

  /** Each button is disabled exactly when its handler would refuse to act. */
  lemma ButtonsDisabledIffRejected(st: State)
    ensures st.step == UsernameStep ==>
      (ContinueDisabled(st) <==> HandleUsernameSubmit(st) == st)
    ensures LearnDisabled(st) <==> HandleTopicSubmit(st).None?
  {
  }

  /** What the user can do on this screen. Typing replaces an input's value;
      the voice events come from the voice button's callbacks. */
  datatype Event =
    | TypeUsername(text: string)
    | SubmitUsername
    | TypeTopic(text: string)
    | SubmitTopic
    | VoiceStarted
    | VoiceStopped
    | VoiceTranscript(transcript: string)

  /** Whether the widget an event comes from is on the card being shown. The
      username input and Continue exist only on the username card; the topic
      input, the voice button and Let's Learn only on the topic card. A
      transcript is handed to its handler whatever the card, and the handler's
      own guard decides. */
  predicate Rendered(step: Step, ev: Event) {
    match ev
    case TypeUsername(_) => step == UsernameStep
    case SubmitUsername => step == UsernameStep
    case VoiceTranscript(_) => true
    case _ => step == TopicStep
  }

  /** The state after an event, and the data emitted to the page, if any. */
  datatype Outcome = Outcome(state: State, emitted: Option<UserData>)

  /** Handle one event on the screen. */
  function Next(st: State, ev: Event): (o: Outcome)
    ensures !Rendered(st.step, ev) ==> o == Outcome(st, None)
    ensures o.emitted.Some? ==>
      && ev == SubmitTopic && st.step == TopicStep && !IsBlank(st.topic)
      && o.emitted.value == UserData(st.username, st.topic)
    ensures st.step == TopicStep ==> o.state.step == TopicStep && o.state.username == st.username
  {
    if !Rendered(st.step, ev) then Outcome(st, None)
    else match ev
      case TypeUsername(text) => Outcome(st.(username := text), None)
      case SubmitUsername => Outcome(HandleUsernameSubmit(st), None)
      case TypeTopic(text) => Outcome(st.(topic := text), None)
      case SubmitTopic => Outcome(st, HandleTopicSubmit(st))
      case VoiceStarted => Outcome(st.(listening := true), None)
      case VoiceStopped => Outcome(st.(listening := false), None)
      case VoiceTranscript(t) => Outcome(HandleVoiceTranscript(st, t), None)
  }

  /** The topic card is shown only once a username with text was accepted. */
  predicate Valid(st: State) {
    st.step == TopicStep ==> !IsBlank(st.username)
  }

  /** Every event keeps the screen valid, and whatever a valid screen emits has
      text in both fields. */
  lemma NextPreservesValid(st: State, ev: Event)
    requires Valid(st)
    ensures Valid(Next(st, ev).state)
    ensures Next(st, ev).emitted.Some? ==>
      !IsBlank(Next(st, ev).emitted.value.username) && !IsBlank(Next(st, ev).emitted.value.topic)
  {
  }
}
