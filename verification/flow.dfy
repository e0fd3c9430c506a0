/** The whole flow: the page together with the one screen it has mounted,
    driven by the events the user and the playback timer produce. */
module Flow {

  import opened Wrappers
  import opened JsText
  import opened Session
  import opened IndexPage
  import Conversation
  import PreferenceSelection
  import Playback

  /** The screen component currently mounted, with its local state. A screen
      is mounted afresh, in its initial state, when the page switches to it. */
  datatype Mounted =
    | ConversationMounted(conversation: Conversation.State)
    | PreferencesMounted(selection: Preferences)
    | PodcastMounted(playback: Playback.State)

  datatype App = App(page: Page, child: Mounted)

  /** An event, addressed to the screen whose widget (or timer) produced it. */
  datatype Event =
    | ConversationEvent(c: Conversation.Event)
    | PreferencesEvent(p: PreferenceSelection.Event)
    | PlaybackEvent(b: Playback.Event)

  /** Exactly the screen the page shows is mounted. */
  predicate Mounts(screen: Screen, child: Mounted) {
    match child
    case ConversationMounted(_) => screen == OnConversation
    case PreferencesMounted(_) => screen == OnPreferences
    case PodcastMounted(_) => screen == OnPodcast
  }

  /** The app as first rendered. */
  function Init(): (app: App)
    ensures app.page == IndexPage.Init()
    ensures app.child == ConversationMounted(Conversation.Init())
  {
    App(IndexPage.Init(), ConversationMounted(Conversation.Init()))
  }

  /** Deliver one event. An event for a screen that is not mounted has no
      widget to come from and changes nothing. A screen's emission is passed
      to the page's handler, which switches screens. */
  function Step(app: App, ev: Event): (r: App)
    ensures Mounts(app.page.screen, app.child) ==> Mounts(r.page.screen, r.child)
    ensures Mounts(app.page.screen, app.child) && r.page.screen == app.page.screen ==> r.page == app.page
  {
    match (app.child, ev)
    case (ConversationMounted(c), ConversationEvent(e)) =>
      var o := Conversation.Next(c, e);
      if o.emitted.Some? then
        App(HandleConversationComplete(app.page, o.emitted.value),
            PreferencesMounted(PreferenceSelection.Init()))
      else App(app.page, ConversationMounted(o.state))
    case (PreferencesMounted(sel), PreferencesEvent(e)) =>
      var o := PreferenceSelection.Next(sel, e);
      if o.emitted.Some? then
        App(HandlePreferencesComplete(app.page, o.emitted.value),
            PodcastMounted(Playback.Init()))
      else App(app.page, PreferencesMounted(o.selection))
    case (PodcastMounted(st), PlaybackEvent(e)) =>
      App(app.page, PodcastMounted(Playback.Next(Playback.TotalSeconds(app.page.preferences), st, e)))
    case _ => app
  }

  /** Deliver a series of events in order. */
  function Run(app: App, evs: seq<Event>): App
    decreases |evs|
  {
    if evs == [] then app else Run(Step(app, evs[0]), evs[1..])
  }

  /** What holds of every app the user can reach. */
  predicate Good(app: App) {
    && Mounts(app.page.screen, app.child)
    && (app.page.screen != OnConversation ==>
          !IsBlank(app.page.userData.username) && !IsBlank(app.page.userData.topic))
    && (app.page.screen == OnPodcast ==> PreferenceSelection.Offered(app.page.preferences))
    && match app.child
       case ConversationMounted(c) => Conversation.Valid(c)
       case PreferencesMounted(sel) => PreferenceSelection.FromOptions(sel)
       case PodcastMounted(st) => Playback.InRange(Playback.TotalSeconds(app.page.preferences), st)
  }

  /** The first render is good. */
  lemma InitGood()
    ensures Good(Init())
  {
  }

  /** Every step keeps the app good. The screen only moves forward, by one
      place, and only through its own screen's emission: the identity/topic
      screen leads to preferences, preferences to playback. */
  lemma StepInvariants(app: App, ev: Event)
    requires Good(app)
    ensures Good(Step(app, ev))
    ensures var s, s' := app.page.screen, Step(app, ev).page.screen;
      && Rank(s) <= Rank(s') <= Rank(s) + 1
      && (s' != s ==>
            || (s == OnConversation && s' == OnPreferences && ev.ConversationEvent?)
            || (s == OnPreferences && s' == OnPodcast && ev.PreferencesEvent?))
    ensures app.page.screen != OnConversation ==>
      Step(app, ev).page.userData == app.page.userData
    ensures app.page.screen == OnPodcast ==> Step(app, ev).page == app.page
  {
    match (app.child, ev)
    case (ConversationMounted(c), ConversationEvent(e)) =>
      Conversation.NextPreservesValid(c, e);
    case (PreferencesMounted(sel), PreferencesEvent(e)) =>
      PreferenceSelection.NextStaysInOptions(sel, e);
    case (PodcastMounted(st), PlaybackEvent(e)) =>
      PreferenceSelection.OfferedDurationSeconds(app.page.preferences);
      Playback.NextInvariants(Playback.TotalSeconds(app.page.preferences), st, e);
    case _ =>
  }

  /** Over any series of events the app stays good, the screen never goes back,
      the identity and topic are frozen once the first screen is left, and
      nothing on the page changes once playback is reached. */
  lemma {:induction false} RunInvariants(app: App, evs: seq<Event>)
    requires Good(app)
    ensures Good(Run(app, evs))
    ensures Rank(app.page.screen) <= Rank(Run(app, evs).page.screen)
    ensures app.page.screen != OnConversation ==>
      Run(app, evs).page.userData == app.page.userData
    ensures app.page.screen == OnPodcast ==> Run(app, evs).page == app.page
    decreases |evs|
  {
    if evs != [] {
      StepInvariants(app, evs[0]);
      RunInvariants(Step(app, evs[0]), evs[1..]);
    }
  }

  /** Reaching playback implies complete data: the username and topic have
      text once trimmed, the preferences are one of the offered combinations
      (so style and mood are set and the duration is positive), the session
      lasts 300, 900 or 1800 seconds, and the counter lies within it. */
  lemma PodcastImpliesCompleteData(evs: seq<Event>)
    ensures var app := Run(Init(), evs);
      app.page.screen == OnPodcast ==>
        && HasText(app.page.userData.username) && HasText(app.page.userData.topic)
        && PreferenceSelection.Offered(app.page.preferences)
        && app.page.preferences.duration > 0
        && Playback.TotalSeconds(app.page.preferences) in {300, 900, 1800}
        && app.child.PodcastMounted?
        && 0 <= app.child.playback.progress <= Playback.TotalSeconds(app.page.preferences)
  {
    var app := Run(Init(), evs);
    InitGood();
    RunInvariants(Init(), evs);
    if app.page.screen == OnPodcast {
      GoodPodcast(app);
    }
  }

  /** What the invariant says about an app showing the playback screen. */
  lemma GoodPodcast(app: App)
    requires Good(app) && app.page.screen == OnPodcast
    ensures HasText(app.page.userData.username) && HasText(app.page.userData.topic)
    ensures PreferenceSelection.Offered(app.page.preferences)
    ensures app.page.preferences.duration > 0
    ensures Playback.TotalSeconds(app.page.preferences) in {300, 900, 1800}
    ensures app.child.PodcastMounted?
    ensures 0 <= app.child.playback.progress <= Playback.TotalSeconds(app.page.preferences)
  {
    PreferenceSelection.OfferedDurationSeconds(app.page.preferences);
  }

  /** Running two series of events one after the other. */
  lemma {:induction false} RunAppend(app: App, a: seq<Event>, b: seq<Event>)
    ensures Run(app, a + b) == Run(Run(app, a), b)
    decreases |a|
  {
    if a != [] {
      assert (a + b)[0] == a[0] && (a + b)[1..] == a[1..] + b;
      RunAppend(Step(app, a[0]), a[1..], b);
    } else {
      assert a + b == b;
    }
  }

  /** Typing a username, continuing, typing a topic and asking to learn. */
  function IdentityEvents(username: string, topic: string): seq<Event> {
    [ConversationEvent(Conversation.TypeUsername(username)),
     ConversationEvent(Conversation.SubmitUsername),
     ConversationEvent(Conversation.TypeTopic(topic)),
     ConversationEvent(Conversation.SubmitTopic)]
  }

  /** One click in each preference group, then submit. */
  function PreferenceEvents(i: PreferenceSelection.Choice, j: PreferenceSelection.Choice,
                            k: PreferenceSelection.Choice): seq<Event> {
    [PreferencesEvent(PreferenceSelection.ClickStyle(i)),
     PreferencesEvent(PreferenceSelection.ClickDuration(j)),
     PreferencesEvent(PreferenceSelection.ClickMood(k)),
     PreferencesEvent(PreferenceSelection.Submit)]
  }

  lemma IdentityStep(username: string, topic: string)
    requires !IsBlank(username) && !IsBlank(topic)
    ensures Run(Init(), IdentityEvents(username, topic)) ==
      App(Page(OnPreferences, UserData(username, topic), Preferences("", 0, "")),
          PreferencesMounted(PreferenceSelection.Init()))
  {
    var evs := IdentityEvents(username, topic);
    var c2 := Conversation.State(Conversation.TopicStep, username, "", false);
    assert evs == evs[..2] + evs[2..];
    RunAppend(Init(), evs[..2], evs[2..]);
    UsernameCard(username);
    TopicCard(username, topic, c2);
  }

  /** Typing a non-blank username and continuing shows the topic card. */
  lemma UsernameCard(username: string)
    requires !IsBlank(username)
    ensures Run(Init(), IdentityEvents(username, "")[..2]) ==
      App(IndexPage.Init(),
          ConversationMounted(Conversation.State(Conversation.TopicStep, username, "", false)))
  {
    var evs := IdentityEvents(username, "")[..2];
    var c1 := Conversation.Init().(username := username);
    var a1 := App(IndexPage.Init(), ConversationMounted(c1));
    var a2 := App(IndexPage.Init(), ConversationMounted(c1.(step := Conversation.TopicStep)));
    assert Conversation.Next(Conversation.Init(), Conversation.TypeUsername(username)).state == c1;
    assert Step(Init(), evs[0]) == a1;
    assert Conversation.Next(c1, Conversation.SubmitUsername) ==
      Conversation.Outcome(c1.(step := Conversation.TopicStep), None);
    assert Step(a1, evs[1]) == a2;
    assert evs[1..][1..] == [];
    assert Run(a2, []) == a2;
    assert Run(a1, evs[1..]) == a2;
  }

  /** On the topic card, typing a non-blank topic and submitting moves the page
      to preferences with the username and topic stored. */
  lemma TopicCard(username: string, topic: string, c: Conversation.State)
    requires !IsBlank(topic)
    requires c == Conversation.State(Conversation.TopicStep, username, "", false)
    ensures Run(App(IndexPage.Init(), ConversationMounted(c)), IdentityEvents(username, topic)[2..]) ==
      App(Page(OnPreferences, UserData(username, topic), Preferences("", 0, "")),
          PreferencesMounted(PreferenceSelection.Init()))
  {
    var evs := IdentityEvents(username, topic)[2..];
    var a2 := App(IndexPage.Init(), ConversationMounted(c));
    var c3 := c.(topic := topic);
    var a3 := App(IndexPage.Init(), ConversationMounted(c3));
    var a4 := App(Page(OnPreferences, UserData(username, topic), Preferences("", 0, "")),
                  PreferencesMounted(PreferenceSelection.Init()));
    TopicTyped(c, topic);
    TopicSubmitted(c3);
    assert evs[1..][1..] == [];
    assert Run(a4, []) == a4;
    assert Run(a3, evs[1..]) == a4;
  }

  /** Typing on the topic card only fills in the topic. */
  lemma TopicTyped(c: Conversation.State, topic: string)
    requires c.step == Conversation.TopicStep
    ensures Step(App(IndexPage.Init(), ConversationMounted(c)),
                 ConversationEvent(Conversation.TypeTopic(topic))) ==
      App(IndexPage.Init(), ConversationMounted(c.(topic := topic)))
  {
  }

  /** Let's Learn with a non-blank topic hands the inputs to the page, which
      mounts a fresh preferences screen. */
  lemma TopicSubmitted(c: Conversation.State)
    requires c.step == Conversation.TopicStep && !IsBlank(c.topic) && !c.listening
    ensures Step(App(IndexPage.Init(), ConversationMounted(c)), ConversationEvent(Conversation.SubmitTopic)) ==
      App(Page(OnPreferences, UserData(c.username, c.topic), Preferences("", 0, "")),
          PreferencesMounted(PreferenceSelection.Init()))
  {
    assert Conversation.Next(c, Conversation.SubmitTopic).emitted == Some(UserData(c.username, c.topic));
  }

  lemma PreferencesStep(p: Page, i: PreferenceSelection.Choice, j: PreferenceSelection.Choice,
                        k: PreferenceSelection.Choice)
    requires p.screen == OnPreferences
    ensures Run(App(p, PreferencesMounted(PreferenceSelection.Init())), PreferenceEvents(i, j, k)) ==
      App(p.(screen := OnPodcast,
             preferences := Preferences(PreferenceSelection.StyleIds[i],
                                        PreferenceSelection.DurationMinutes[j],
                                        PreferenceSelection.MoodIds[k])),
          PodcastMounted(Playback.Init()))
  {
    var evs := PreferenceEvents(i, j, k);
    var s1 := PreferenceSelection.SelectStyle(PreferenceSelection.Init(), i);
    var s2 := PreferenceSelection.SelectDuration(s1, j);
    var s3 := PreferenceSelection.SelectMood(s2, k);
    var a0 := App(p, PreferencesMounted(PreferenceSelection.Init()));
    var a1 := App(p, PreferencesMounted(s1));
    var a2 := App(p, PreferencesMounted(s2));
    var a3 := App(p, PreferencesMounted(s3));
    var a4 := App(HandlePreferencesComplete(p, s3), PodcastMounted(Playback.Init()));
    assert Step(a0, evs[0]) == a1;
    assert Step(a1, evs[1]) == a2;
    assert Step(a2, evs[2]) == a3;
    assert PreferenceSelection.Next(s3, PreferenceSelection.Submit).emitted == Some(s3);
    assert Step(a3, evs[3]) == a4;
    assert evs[1..][1..][1..][1..] == [];
    assert Run(a4, []) == a4;
    assert Run(a3, evs[1..][1..][1..]) == a4;
    assert Run(a2, evs[1..][1..]) == a4;
    assert Run(a1, evs[1..]) == a4;
  }

  /** The step-by-step path: for any username and topic with text and any
      offered choice, typing and submitting, then choosing and submitting,
      reaches a freshly started playback screen holding exactly those strings
      and that choice. */
  lemma HappyPath(username: string, topic: string, i: PreferenceSelection.Choice,
                  j: PreferenceSelection.Choice, k: PreferenceSelection.Choice)
    requires HasText(username) && HasText(topic)
    ensures var app := Run(Init(), IdentityEvents(username, topic) + PreferenceEvents(i, j, k));
      && app.page.screen == OnPodcast
      && app.page.userData == UserData(username, topic)
      && app.page.preferences == Preferences(PreferenceSelection.StyleIds[i],
                                             PreferenceSelection.DurationMinutes[j],
                                             PreferenceSelection.MoodIds[k])
      && app.child == PodcastMounted(Playback.Init())
  {
    IdentityStep(username, topic);
    RunAppend(Init(), IdentityEvents(username, topic), PreferenceEvents(i, j, k));
    PreferencesStep(Page(OnPreferences, UserData(username, topic), Preferences("", 0, "")), i, j, k);
  }
}
