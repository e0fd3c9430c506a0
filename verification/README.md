# Clarity.ai learning-companion flow, modelled in Dafny

Clarity.ai is a small front end for a "learning companion". The page walks the
user through three screens:

1. the identity/topic screen asks for an X username and then a learning topic;
2. the preferences screen offers a learning style, a duration and a mood;
3. the playback screen runs a simulated session. A counter counts up the
   elapsed seconds. The user can play, pause or restart it, and can log
   questions.

A separate component lets a hosted voice agent fill in the same data through
three "client tools". The page never renders that component.

The model lifts every piece of this logic into pure functions over immutable
records. Each screen's handlers are functions from its local state to a new
state, plus the record it hands to the page, if any. The page switches screens
on those emissions. One timer firing is an explicit `Tick` event.

Modules, one per component:

- `JsText` covers the JavaScript behaviour the handlers depend on. That is
  `String.prototype.trim` (with the ECMAScript whitespace set) and the
  truthiness of its result, `Number.prototype.toString` on integers,
  `padStart`, and the truncating `%`.
- `Session` holds the `UserData` and `Preferences` records the page threads
  through the flow.
- `Conversation` is the identity/topic screen.
- `PreferenceSelection` is the preferences screen and its option tables.
- `Playback` is the playback screen: the timer tick, play/pause, restart, the
  question log, `formatTime` and the status line.
- `AgentTools` covers the voice agent's `setUsername`, `setLearningTopic` and
  `setPreferences` tools and their completion gate.
- `IndexPage` is the page's own state and its two completion handlers.
- `Flow` is the page together with the one screen it has mounted, driven by
  event sequences. It holds the end-to-end lemmas.

Two points about the code that shape the model:

- The agent component's `onDataCollected` is not connected to the page
  (`src/pages/Index.tsx` renders only the three screens). So `Flow` has no
  one-step submission that jumps to playback, and the agent's completion gate
  is modelled on its own in `AgentTools`.
- The guards on the duration test JavaScript truthiness, i.e. duration ≠ 0,
  not duration > 0. On the preferences screen this makes no difference,
  because only 5, 15 and 30 are offered. The agent, however, accepts any
  non-zero duration, negative ones included
  (`AgentTools.GateAcceptsOutsideValues`).

How events reach the screens: an event for a widget that is not rendered is
ignored, because in the page it cannot happen. On the identity/topic screen,
the username input and Continue exist only on the username card. The topic
input, the voice button and Let's Learn exist only on the topic card. The
question input, Ask and Cancel exist only while the question box is open. A
voice transcript is always handed to its handler, and the handler's own step
guard decides. A screen is mounted in its initial state when the page switches
to it.

## Model

| member | source | states |
|---|---|---|
| `JsText.Trim` | src/components/ConversationScreen.tsx:19 | `trim` returns the slice of the input between its first and last non-whitespace code point: everything cut off on either side is ECMAScript whitespace, and a non-empty result neither starts nor ends with whitespace |
| `JsText.TrimEmptyIffBlank` | src/components/ConversationScreen.tsx:19 | `s.trim()` is empty exactly when every code point of `s` is whitespace |
| `JsText.HasText` | src/components/ConversationScreen.tsx:19 | the truthiness guard `s.trim()` holds exactly when `s` is not blank |
| `JsText.TrimIdempotent` | src/components/ConversationScreen.tsx:19 | trimming an already trimmed string changes nothing |
| `JsText.NatToDecimal` | src/components/PodcastScreen.tsx:70 | an integer's `toString` is a non-empty string of decimal digits with no leading zero, one digit long exactly for values below ten |
| `JsText.IntToString` | src/components/PodcastScreen.tsx:70 | an integer's `toString` is non-empty and starts with a minus sign exactly when the integer is negative, and reading it back as a signed decimal (`ParseInt`) gives the integer again, so no value, negative or not, is rendered ambiguously |
| `JsText.DecimalRoundTrip` | src/components/PodcastScreen.tsx:70 | reading the decimal rendering back yields the original number, so the rendering loses nothing |
| `JsText.PadStart` | src/components/PodcastScreen.tsx:70 | `padStart(2, '0')` puts fill characters only in front and keeps the original as a suffix; the result has the target length, or is the input unchanged when that is already long enough |
| `JsText.JsRem` | src/components/PodcastScreen.tsx:69 | JavaScript `%` differs from the dividend by a multiple of the divisor, lies in [0, b) for a non-negative dividend and in (-b, 0] for a negative one; these fix the value (e.g. -61 % 60 is -1) |
| `Conversation.Init` | src/components/ConversationScreen.tsx:13-16 | the screen opens on the username card with both inputs empty and not listening |
| `Conversation.HandleUsernameSubmit` | src/components/ConversationScreen.tsx:18-22 | Continue reaches the topic card iff the username is not blank (or the topic card is already shown), and changes no input |
| `Conversation.HandleTopicSubmit` | src/components/ConversationScreen.tsx:24-28 | Let's Learn emits iff the topic is not blank, and then emits the raw, untrimmed username and topic |
| `Conversation.HandleVoiceTranscript` | src/components/ConversationScreen.tsx:30-35 | on the username card a transcript changes nothing; on the topic card it becomes the topic and ends listening, with the username untouched |
| `Conversation.ButtonsDisabledIffRejected` | src/components/ConversationScreen.tsx:71-115 | the Continue and Let's Learn buttons are disabled exactly when their handlers would refuse |
| `Conversation.Next` | src/components/ConversationScreen.tsx:48-122 | events from widgets not on the shown card do nothing; the only emission is Let's Learn on the topic card with a non-blank topic, carrying the current inputs; once on the topic card, no event returns to the username card or changes the username |
| `Conversation.NextPreservesValid` | src/components/ConversationScreen.tsx:13-35 | the topic card is only ever shown with a non-blank username, so every emission has text in both fields |
| `PreferenceSelection.Init` | src/components/PreferencesScreen.tsx:21-23 | nothing is selected at first: style `''`, duration `0`, mood `''` |
| `PreferenceSelection.SelectStyle` | src/components/PreferencesScreen.tsx:70 | a style click selects that option's id, which comes from the style table; duration and mood keep their values |
| `PreferenceSelection.SelectDuration` | src/components/PreferencesScreen.tsx:100 | a duration click selects that option's minutes, which come from the duration table; style and mood keep their values |
| `PreferenceSelection.SelectMood` | src/components/PreferencesScreen.tsx:122 | a mood click selects that option's id, which comes from the mood table; style and duration keep their values |
| `PreferenceSelection.HandleSubmit` | src/components/PreferencesScreen.tsx:43-51 | submit emits iff style ≠ `''`, duration ≠ 0 and mood ≠ `''`, and then emits exactly the current selection |
| `PreferenceSelection.SubmitDisabledIffRejected` | src/components/PreferencesScreen.tsx:139 | the submit button is disabled exactly when the submit handler would do nothing |
| `PreferenceSelection.Next` | src/components/PreferencesScreen.tsx:43-122 | only Submit emits, and Submit leaves the selection as it is |
| `PreferenceSelection.NextStaysInOptions` | src/components/PreferencesScreen.tsx:25-51 | closed world: each group holds nothing or one of its own options, and every emitted record has style in {podcast, quiz, mood}, duration in {5, 15, 30} and mood in {energetic, calm, focused} |
| `PreferenceSelection.OfferedDurationSeconds` | src/components/PreferencesScreen.tsx:31-35 | every offered duration is positive, and its length in seconds is 300, 900 or 1800 |
| `PreferenceSelection.EveryCombinationReachable` | src/components/PreferencesScreen.tsx:25-51 | every combination of one option per table can be emitted, by one click per group followed by Submit |
| `Playback.TotalSeconds` | src/components/PodcastScreen.tsx:31 | the session length in seconds is a whole number of minutes that gives back the chosen duration, and is positive exactly when the duration is |
| `Playback.Init` | src/components/PodcastScreen.tsx:23-27 | playback starts paused at 0 seconds, with the question box closed and empty and an empty log |
| `Playback.Tick` | src/components/PodcastScreen.tsx:34-56 | a tick does nothing while paused; while playing it never leaves the counter past the end; below the end it adds one second, and at or past the end it stops and pins the counter to the end; the question state is untouched |
| `Playback.TogglePlayPause` | src/components/PodcastScreen.tsx:58-60 | play/pause flips only the playing flag |
| `Playback.Restart` | src/components/PodcastScreen.tsx:62-65 | restart yields 0 seconds and playing, whatever the prior state; the question state is untouched |
| `Playback.HandleQuestion` | src/components/PodcastScreen.tsx:73-81 | a blank question changes nothing; any other is appended untrimmed to the log, and the box is cleared and closed, playback pauses and the counter stays |
| `Playback.HandleVoiceQuestion` | src/components/PodcastScreen.tsx:83-86 | a transcript becomes the pending question and opens the box, without touching playback or the log |
| `Playback.StatusOf` | src/components/PodcastScreen.tsx:209-218 | "Session Complete!" shows iff not playing and the counter is at or past the end; "Playing..." iff playing |
| `Playback.RecentQuestions` | src/components/PodcastScreen.tsx:199 | the displayed questions are the last three of the log, or all of it when shorter |
| `Playback.FormatTime` | src/components/PodcastScreen.tsx:67-71 | for a non-negative count the clock is `m:ss`: digits, a colon third from the end, then two digits; for a negative count it starts with a minus sign (its exact fields are stated by `FormatTimeFields` and `ClockRoundTrip`) |
| `Playback.FormatTimeFields` | src/components/PodcastScreen.tsx:67-71 | for s ≥ 0 the clock shows the decimal of the minutes s div 60, a colon, and the two decimal digits of the seconds s mod 60 |
| `Playback.ClockRoundTrip` | src/components/PodcastScreen.tsx:67-71 | the `m:ss` clock of a non-negative count reads back as that count, so distinct counts never show the same clock |
| `Playback.Next` | src/components/PodcastScreen.tsx:139-192 | events from the question box's input and buttons do nothing while the box is closed; opening the box changes nothing else; Cancel hides it but keeps the typed question; typing and Cancel leave the player and the log alone |
| `Playback.CancelKeepsDraft` | src/components/PodcastScreen.tsx:142-188 | typing into the open box, cancelling and reopening shows the typed text again, with the player and the log as they were |
| `Playback.NextInvariants` | src/components/PodcastScreen.tsx:37-81 | with total ≥ 0, every event keeps 0 ≤ progress ≤ total; only a tick or a restart moves the counter; the question log only grows at its end |
| `Playback.TicksAdvance` | src/components/PodcastScreen.tsx:37-43 | playing from p, each of the next k ≤ total − p ticks adds exactly one second and playback goes on |
| `Playback.AutoStop` | src/components/PodcastScreen.tsx:37-43 | playing from p ≤ total, exactly total − p ticks reach the end still playing; one more tick stops playback at the end, and the status becomes "Session Complete!" |
| `Playback.RestartRunsFullSession` | src/components/PodcastScreen.tsx:37-65 | after a restart from any state, exactly total ticks reach the end still playing, and the next tick completes the session |
| `Playback.PausedTicksIdle` | src/components/PodcastScreen.tsx:34-49 | while paused, no number of ticks changes anything |
| `Playback.PauseResume` | src/components/PodcastScreen.tsx:58-60 | pausing freezes the counter for any number of ticks, and resuming restores exactly the state that was paused |
| `AgentTools.Empty` | src/components/ElevenLabsConversation.tsx:22-28 | the collected record starts with every string `''` and duration `0` |
| `AgentTools.SetUsername` | src/components/ElevenLabsConversation.tsx:32-35 | `setUsername` changes only the username, replies "Username set to " followed by the name, and never completes |
| `AgentTools.SetLearningTopic` | src/components/ElevenLabsConversation.tsx:37-40 | `setLearningTopic` changes only the topic, replies "Learning topic set to " followed by the topic, and never completes |
| `AgentTools.SetPreferences` | src/components/ElevenLabsConversation.tsx:42-62 | `setPreferences` overwrites style, duration and mood and keeps username and topic; it completes, with the updated record, iff username, topic, style and mood are non-empty and duration ≠ 0; the reply spells out the three values |
| `AgentTools.FiredAreComplete` | src/components/ElevenLabsConversation.tsx:55-59 | over any series of tool calls, every record handed to the completion callback is complete |
| `AgentTools.OnlyPreferencesComplete` | src/components/ElevenLabsConversation.tsx:32-59 | a series of calls without `setPreferences` never fires completion |
| `AgentTools.PreferencesFirstNeverComplete` | src/components/ElevenLabsConversation.tsx:32-59 | preferences sent before the username and topic never fire, even though the record ends up complete |
| `AgentTools.RepeatedPreferencesFireTwice` | src/components/ElevenLabsConversation.tsx:51-59 | completion is not idempotent: repeating a passing `setPreferences` fires twice with the same record |
| `AgentTools.GateAcceptsOutsideValues` | src/components/ElevenLabsConversation.tsx:55 | the agent's gate does not trim and tests non-zero rather than positive: blank names, values outside the screens' vocabularies and a negative duration pass |
| `IndexPage.Init` | src/pages/Index.tsx:20-26 | the page opens on the identity/topic screen with username and topic `''`, style and mood `''` and duration `0` |
| `IndexPage.HandleConversationComplete` | src/pages/Index.tsx:28-31 | stores exactly the received username and topic and moves to preferences; the stored preferences are unchanged |
| `IndexPage.HandlePreferencesComplete` | src/pages/Index.tsx:33-36 | stores exactly the received preferences and moves to playback; the stored username and topic are unchanged |
| `IndexPage.PodcastPropsOf` | src/pages/Index.tsx:49-53 | the playback screen receives the stored topic and preferences |
| `IndexPage.UsernameNotForwarded` | src/pages/Index.tsx:43-53 | pages that differ only in the username give the playback screen the same props |
| `Flow.Init` | src/pages/Index.tsx:19-41 | the app starts with the page's initial state and a freshly mounted identity/topic screen |
| `Flow.Step` | src/pages/Index.tsx:38-54 | the mounted screen stays the one the page shows, and the page's data changes only when the screen does |
| `Flow.InitGood` | src/pages/Index.tsx:20-41 | the first render satisfies the flow invariant |
| `Flow.StepInvariants` | src/pages/Index.tsx:28-54 | each event keeps the flow invariant; the screen moves forward by at most one place, only conversation → preferences on an identity/topic event or preferences → playback on a preferences event; identity and topic are frozen after the first screen, and the page is frozen on playback |
| `Flow.RunInvariants` | src/pages/Index.tsx:28-54 | over any event sequence the invariant holds, the screen never returns to an earlier one, identity and topic stay frozen once the first screen is left, and the page is frozen once playback is reached |
| `Flow.PodcastImpliesCompleteData` | src/pages/Index.tsx:28-36 | from the first render, reaching playback implies a username and topic with text after trimming, preferences that are one of the offered style/duration/mood combinations, a positive duration, a session of 300, 900 or 1800 seconds, and a counter within it |
| `Flow.IdentityStep` | src/components/ConversationScreen.tsx:18-28 | typing a non-blank username, continuing, typing a non-blank topic and submitting moves the page to preferences holding exactly those strings |
| `Flow.PreferencesStep` | src/components/PreferencesScreen.tsx:43-51 | one click per group and Submit moves the page to a fresh playback screen holding exactly the chosen options, with identity and topic kept |
| `Flow.HappyPath` | src/pages/Index.tsx:28-36 | for any username and topic with text and any offered choice, the step-by-step path reaches a fresh playback screen holding exactly those strings and that choice |

## Left out

- `src/components/VoiceButton.tsx` (speech recognition start/stop/result/error) is not part of this model. Its callbacks appear only as the `VoiceStarted`, `VoiceStopped`, `VoiceTranscript` and `VoiceQuestion` events.
- `src/components/VoiceConversationDemo.tsx` is not part of this model. It emits one hard-coded record after a delay, and the page never renders it.
- The hosted agent session is left out: the SDK hook, the prompt text, `startSession`/`endSession`, the microphone request, the connection callbacks and the error alert (`src/components/ElevenLabsConversation.tsx:65-129`). All of it is plumbing to an external service.
- Real time is left out. The one-second interval becomes one `TimerTick` event per firing. The one-second delay before the agent's completion callback is treated as an immediate emission.
- `progressPercentage` (`src/components/PodcastScreen.tsx:88`) is left out. It is display-only floating point, and it divides by zero when the duration is 0.
- Rendering is left out: styling, the playback title text and the badges.
- React's batching and stale closures are left out. In particular, `setPreferences` reads `collectedData` from the render's closure (`src/components/ElevenLabsConversation.tsx:51`), so a username set in the same render could be lost. The model applies tool calls one after another to the current record.
- `AgentTools.SetPreferences`: durations are integers. JavaScript `NaN`, `Infinity` and fractional minutes are not modelled. `IntToString` does not model the exponent notation JavaScript uses from 10^21 up.
- The flow has no combined-submission transition, because the page does not connect the agent component.
- Dafny strings are sequences of Unicode scalar values, while JavaScript strings are sequences of UTF-16 code units. Lone surrogates therefore cannot be represented, and lengths count code points rather than code units. `trim` is unaffected, because every ECMAScript whitespace character lies in the Basic Multilingual Plane.
