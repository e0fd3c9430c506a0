/** The client tools the hosted voice agent calls to fill in a session record:
    one per field group, with a completion gate on the preferences tool. */
module AgentTools {

  import opened Wrappers
  import opened JsText

  /** Everything the agent collects; `duration` is in minutes. */
  datatype Collected = Collected(
    username: string,
    topic: string,
    style: string,
    duration: int,
    mood: string)

  /** Nothing collected yet. */
  function Empty(): (d: Collected)
    ensures d.username == "" && d.topic == "" && d.style == "" && d.mood == ""
    ensures d.duration == 0
  {
    Collected("", "", "", 0, "")
  }

  /** Every field is set, by JavaScript truthiness: the strings are not empty
      (they are not trimmed) and the duration is not zero (it may be negative). */
  predicate Complete(d: Collected) {
    d.username != "" && d.topic != "" && d.style != "" && d.duration != 0 && d.mood != ""
  }

  /** What a tool call leaves behind: the updated record, the text returned to
      the agent, and the record handed to the completion callback, if any. */
  datatype Reply = Reply(data: Collected, message: string, completed: Option<Collected>)

  /** `setUsername`: replace the username only, and never complete. */
  function SetUsername(d: Collected, username: string): (r: Reply)
    ensures r.data.username == username
    ensures r.data.topic == d.topic && r.data.style == d.style
    ensures r.data.duration == d.duration && r.data.mood == d.mood
    ensures r.message == "Username set to " + username
    ensures r.completed == None
  {
    Reply(d.(username := username), "Username set to " + username, None)
  }

  /** `setLearningTopic`: replace the topic only, and never complete. */
  function SetLearningTopic(d: Collected, topic: string): (r: Reply)
    ensures r.data.topic == topic
    ensures r.data.username == d.username && r.data.style == d.style
    ensures r.data.duration == d.duration && r.data.mood == d.mood
    ensures r.message == "Learning topic set to " + topic
    ensures r.completed == None
  {
    Reply(d.(topic := topic), "Learning topic set to " + topic, None)
  }

  /** `setPreferences`: overwrite the three preference fields, keep the
      username and topic, and hand the updated record on exactly when it is
      complete. */
  function SetPreferences(d: Collected, style: string, duration: int, mood: string): (r: Reply)
    ensures r.data.username == d.username && r.data.topic == d.topic
    ensures r.data.style == style && r.data.duration == duration && r.data.mood == mood
    ensures r.completed.Some? <==>
      d.username != "" && d.topic != "" && style != "" && duration != 0 && mood != ""
    ensures r.completed.Some? ==> r.completed.value == r.data
    ensures r.message == "Preferences set - Style: " + style + ", Duration: "
      + IntToString(duration) + " minutes, Mood: " + mood
  {
    var updated := d.(style := style, duration := duration, mood := mood);
    var message := "Preferences set - Style: " + style + ", Duration: "
      + IntToString(duration) + " minutes, Mood: " + mood;
    if Complete(updated) then Reply(updated, message, Some(updated))
    else Reply(updated, message, None)
  }

  /** One invocation of a tool by the agent. */
  datatype Call =
    | CallSetUsername(username: string)
    | CallSetLearningTopic(topic: string)
    | CallSetPreferences(style: string, duration: int, mood: string)

  function Invoke(d: Collected, c: Call): Reply {
    match c
    case CallSetUsername(u) => SetUsername(d, u)
    case CallSetLearningTopic(t) => SetLearningTopic(d, t)
    case CallSetPreferences(s, n, m) => SetPreferences(d, s, n, m)
  }

  /** The record after a series of calls, and every record handed to the
      completion callback along the way, in order. */
  datatype Trace = Trace(data: Collected, fired: seq<Collected>)

  function Run(d: Collected, calls: seq<Call>): Trace
    decreases |calls|
  {
    if calls == [] then Trace(d, [])
    else
      var r := Invoke(d, calls[0]);
      var rest := Run(r.data, calls[1..]);
      Trace(rest.data, (if r.completed.Some? then [r.completed.value] else []) + rest.fired)
  }

  /** Whatever reaches the completion callback is complete. */
  lemma {:induction false} FiredAreComplete(d: Collected, calls: seq<Call>)
    ensures forall i | 0 <= i < |Run(d, calls).fired| :: Complete(Run(d, calls).fired[i])
    decreases |calls|
  {
    if calls != [] {
      FiredAreComplete(Invoke(d, calls[0]).data, calls[1..]);
    }
  }

  /** Only `setPreferences` can complete: a series of calls without it fires
      nothing, however complete the record becomes. */
  lemma {:induction false} OnlyPreferencesComplete(d: Collected, calls: seq<Call>)
    requires forall i | 0 <= i < |calls| :: !calls[i].CallSetPreferences?
    ensures Run(d, calls).fired == []
    decreases |calls|
  {
    if calls != [] {
      OnlyPreferencesComplete(Invoke(d, calls[0]).data, calls[1..]);
    }
  }

  /** Preferences that arrive before the username and topic are never followed
      by a completion, even though the record ends up complete. */
  lemma PreferencesFirstNeverComplete(
    style: string, duration: int, mood: string, username: string, topic: string)
    requires style != "" && duration != 0 && mood != "" && username != "" && topic != ""
    ensures var t := Run(Empty(), [CallSetPreferences(style, duration, mood),
                                   CallSetUsername(username), CallSetLearningTopic(topic)]);
      t.fired == [] && Complete(t.data)
  {
    var calls := [CallSetPreferences(style, duration, mood),
                  CallSetUsername(username), CallSetLearningTopic(topic)];
    var d1 := Invoke(Empty(), calls[0]).data;
    var d2 := Invoke(d1, calls[1]).data;
    var d3 := Invoke(d2, calls[2]).data;
    assert calls[1..][1..][1..] == [];
    assert Run(d3, []) == Trace(d3, []);
    assert Run(d2, calls[1..][1..]) == Trace(d3, []);
    assert Run(d1, calls[1..]) == Trace(d3, []);
    assert Complete(d3);
  }

  /** Completion is not idempotent: repeating a `setPreferences` call that
      passes the gate fires a second time with the same record. */
  lemma RepeatedPreferencesFireTwice(d: Collected, style: string, duration: int, mood: string)
    requires Complete(d.(style := style, duration := duration, mood := mood))
    ensures var c := CallSetPreferences(style, duration, mood);
      Run(d, [c, c]).fired == [d.(style := style, duration := duration, mood := mood)] +
                              [d.(style := style, duration := duration, mood := mood)]
  {
    var c := CallSetPreferences(style, duration, mood);
    var u := d.(style := style, duration := duration, mood := mood);
    assert Invoke(d, c) == SetPreferences(d, style, duration, mood);
    assert Invoke(d, c).completed == Some(u);
    assert Invoke(u, c).completed == Some(u);
    assert [c, c][1..][1..] == [];
    assert Run(u, [c]) == Trace(u, [u]);
  }

  /** The gate is looser than the screens' guards: a blank username and topic,
      a style and mood from neither vocabulary, and a negative duration all pass. */
  lemma GateAcceptsOutsideValues()
    ensures SetPreferences(Collected(" ", " ", "", 0, ""), "story", -5, "fun").completed.Some?
  {
  }
}
