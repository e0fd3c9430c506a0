/** The page that owns the flow: it shows exactly one of three screens, keeps
    what the first two collect, and hands it to the third. */
module IndexPage {

  import opened Session

  /** `AppState`: the screen being shown. */
  datatype Screen = OnConversation | OnPreferences | OnPodcast

  /** The page's state: the live screen and the data collected so far. */
  datatype Page = Page(screen: Screen, userData: UserData, preferences: Preferences)

  /** The page as first rendered: the identity/topic screen, nothing collected. */
  function Init(): (p: Page)
    ensures p.screen == OnConversation
    ensures p.userData.username == "" && p.userData.topic == ""
    ensures p.preferences.style == "" && p.preferences.duration == 0 && p.preferences.mood == ""
  {
    Page(OnConversation, UserData("", ""), Preferences("", 0, ""))
  }

  /** Store exactly the identity and topic received and show the preferences
      screen; the stored preferences are untouched. */
  function HandleConversationComplete(p: Page, data: UserData): (r: Page)
    ensures r.screen == OnPreferences
    ensures r.userData == data && r.preferences == p.preferences
  {
    p.(userData := data, screen := OnPreferences)
  }

  /** Store exactly the preferences received and show the playback screen; the
      stored identity and topic are untouched. */
  function HandlePreferencesComplete(p: Page, prefs: Preferences): (r: Page)
    ensures r.screen == OnPodcast
    ensures r.preferences == prefs && r.userData == p.userData
  {
    p.(preferences := prefs, screen := OnPodcast)
  }

  /** The position of a screen in the flow. */
  function Rank(s: Screen): nat {
    match s
    case OnConversation => 0
    case OnPreferences => 1
    case OnPodcast => 2
  }

  /** The properties the playback screen is given. */
  datatype PodcastProps = PodcastProps(topic: string, preferences: Preferences)

  /** The playback screen receives the stored topic and preferences. */
  function PodcastPropsOf(p: Page): (props: PodcastProps)
    ensures props.topic == p.userData.topic && props.preferences == p.preferences
  {
    PodcastProps(p.userData.topic, p.preferences)
  }

  /** The username is collected but never forwarded: pages that differ only in
      the username give the playback screen the same props. */
  lemma UsernameNotForwarded(p: Page, q: Page)
    requires p.preferences == q.preferences
    requires p.userData.topic == q.userData.topic
    ensures PodcastPropsOf(p) == PodcastPropsOf(q)
  {
  }
}
