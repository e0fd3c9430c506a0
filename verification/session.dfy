/** The two records the page threads from screen to screen: who is learning
    what, and how they want to learn it. */
module Session {

  /** What the identity/topic screen hands to the page. */
  datatype UserData = UserData(username: string, topic: string)

  /** What the preferences screen hands to the page. `duration` is in minutes;
      `style` and `mood` are plain strings because the agent's vocabulary is not
      the screen's. */
  datatype Preferences = Preferences(style: string, duration: int, mood: string)
}
