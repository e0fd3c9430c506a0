/** The playback screen: a simulated session whose elapsed-seconds counter
    advances once per timer tick while playing, with play/pause, restart, and
    a log of the questions asked along the way. */
module Playback {

  import opened Wrappers
  import opened JsText
  import opened Session

  /** The screen's local state. `progress` is elapsed seconds. */
  datatype State = State(
    playing: bool,
    progress: int,
    showQuestionInput: bool,
    question: string,
    questions: seq<string>)

  /** The session length in seconds: the chosen minutes times sixty, so a
      whole number of minutes that gives back the duration, and positive
      exactly when the duration is. */
  function TotalSeconds(prefs: Preferences): (r: int)
    ensures r % 60 == 0 && r / 60 == prefs.duration
    ensures r > 0 <==> prefs.duration > 0
  {
    prefs.duration * 60
  }

  /** A freshly mounted screen: paused at the start, with an empty log. */
  function Init(): (st: State)
    ensures !st.playing && st.progress == 0
    ensures !st.showQuestionInput && st.question == "" && st.questions == []
  {
    State(false, 0, false, "", [])
  }

  /** One firing of the one-second interval. The interval exists only while
      playing. A tick that finds the counter at or past the end stops playback
      and pins the counter to the end; any other tick adds one second. */
  function Tick(total: int, st: State): (r: State)
    ensures !st.playing ==> r == st
    ensures st.playing ==> r.progress <= total
    ensures st.playing && st.progress < total ==> r.playing && r.progress == st.progress + 1
    ensures st.playing && st.progress >= total ==> !r.playing && r.progress == total
    ensures r.questions == st.questions && r.question == st.question
    ensures r.showQuestionInput == st.showQuestionInput
  {
    if !st.playing then st
    else if st.progress >= total then st.(playing := false, progress := total)
    else st.(progress := st.progress + 1)
  }

  /** `n` consecutive ticks. */
  function Ticks(total: int, st: State, n: nat): State {
    if n == 0 then st else Tick(total, Ticks(total, st, n - 1))
  }

  /** The play/pause button flips only the playing flag. */
  function TogglePlayPause(st: State): (r: State)
    ensures r.playing != st.playing
    ensures r.progress == st.progress && r.questions == st.questions
    ensures r.question == st.question && r.showQuestionInput == st.showQuestionInput
  {
    st.(playing := !st.playing)
  }

  /** Restart goes back to the start and plays, whatever the state was. */
  function Restart(st: State): (r: State)
    ensures r.progress == 0 && r.playing
    ensures r.questions == st.questions && r.question == st.question
    ensures r.showQuestionInput == st.showQuestionInput
  {
    st.(progress := 0, playing := true)
  }

  /** Asking a question that has text once trimmed appends it, untrimmed, to
      the log, clears and hides the input, and pauses; the counter stays where
      it was. A blank question changes nothing. */
  function HandleQuestion(st: State): (r: State)
    ensures IsBlank(st.question) ==> r == st
    ensures !IsBlank(st.question) ==>
      && r.questions == st.questions + [st.question]
      && r.question == "" && !r.showQuestionInput
      && !r.playing && r.progress == st.progress
  {
    if HasText(st.question) then
      st.(questions := st.questions + [st.question], question := "",
          showQuestionInput := false, playing := false)
    else st
  }

  /** A voice transcript becomes the pending question and opens the input;
      nothing else changes. */
  function HandleVoiceQuestion(st: State, transcript: string): (r: State)
    ensures r.question == transcript && r.showQuestionInput
    ensures r.playing == st.playing && r.progress == st.progress && r.questions == st.questions
  {
    st.(question := transcript, showQuestionInput := true)
  }

  /** The status line under the player. */
  datatype Status = Playing | Paused | Complete

  /** "Playing..." while playing; once stopped, "Session Complete!" when the
      counter is at or past the end and "Paused" otherwise. */
  function StatusOf(total: int, st: State): (s: Status)
    ensures s == Complete <==> !st.playing && st.progress >= total
    ensures s == Playing <==> st.playing
  {
    if st.playing then Playing else if st.progress >= total then Complete else Paused
  }

  /** `questions.slice(-3)`: the last three questions, or all of them when
      there are fewer. */
  function RecentQuestions(qs: seq<string>): (r: seq<string>)
    ensures |r| == (if |qs| < 3 then |qs| else 3)
    ensures r == qs[|qs| - |r|..]
  {
    if |qs| > 3 then qs[|qs| - 3..] else qs
  }

  /** An `m:ss` clock: at least one minute digit, a colon, two second digits. */
  predicate DigitClock(t: string) {
    && |t| >= 4 && t[|t| - 3] == ':'
    && AllDigits(t[..|t| - 3]) && AllDigits(t[|t| - 2..])
  }

  /** `formatTime`: whole minutes (rounded down), a colon, and the seconds
      remainder padded to two characters. JavaScript's `%` keeps the sign of
      a negative dividend. */
  function FormatTime(seconds: int): (r: string)
    ensures seconds >= 0 ==> DigitClock(r)
    ensures seconds < 0 ==> |r| >= 4 && r[0] == '-'
  {
    if seconds >= 0 then
      DigitClockOf(seconds / 60, JsRem(seconds, 60));
      ClockText(seconds / 60, JsRem(seconds, 60))
    else
      SignedClockOf(seconds / 60, JsRem(seconds, 60));
      ClockText(seconds / 60, JsRem(seconds, 60))
  }

  /** The clock text for a minutes and a seconds field. */
  function ClockText(mins: int, secs: int): string {
    IntToString(mins) + ":" + PadStart(IntToString(secs), 2, '0')
  }

  /** Non-negative fields, seconds below sixty, give an `m:ss` digit clock. */
  lemma DigitClockOf(q: nat, x: nat)
    requires x < 60
    ensures DigitClock(ClockText(q, x))
  {
    var m, ss := IntToString(q), PadStart(IntToString(x), 2, '0');
    assert m == NatToDecimal(q);
    assert |ss| == 2 && AllDigits(ss) by {
      TwoDigitSeconds(x);
      var d1, d2 := DigitChar(x / 10), DigitChar(x % 10);
      assert ss == [d1, d2];
      assert IsDigit(ss[0]) && IsDigit(ss[1]);
    }
    DigitClockParts(m, ss);
    assert ClockText(q, x) == m + ":" + ss;
  }

  /** Digits, a colon and two digits make an `m:ss` digit clock. */
  lemma DigitClockParts(m: string, ss: string)
    requires |m| >= 1 && AllDigits(m) && |ss| == 2 && AllDigits(ss)
    ensures DigitClock(m + ":" + ss)
  {
    var t := m + ":" + ss;
    assert t[..|t| - 3] == m;
    assert t[|t| - 2..] == ss;
  }

  /** A negative minutes field shows as a clock that starts with a minus sign. */
  lemma SignedClockOf(q: int, x: int)
    requires q < 0
    ensures |ClockText(q, x)| >= 4 && ClockText(q, x)[0] == '-'
  {
    var m := IntToString(q);
    assert m == "-" + NatToDecimal(-q);
  }

  /** For a non-negative count, `formatTime` shows the minutes `s / 60` in
      decimal and the seconds `s % 60`, which is below sixty and always written
      as exactly two digits. */
  lemma FormatTimeFields(s: nat)
    ensures FormatTime(s) ==
      NatToDecimal(s / 60) + ":" + [DigitChar(s % 60 / 10), DigitChar(s % 60 % 10)]
  {
    var q, x := s / 60, s % 60;
    assert JsRem(s, 60) == x;
    assert IntToString(q) == NatToDecimal(q);
    TwoDigitSeconds(x);
  }

  /** A seconds value below sixty, padded, is its two decimal digits. */
  lemma TwoDigitSeconds(x: nat)
    requires x < 60
    ensures PadStart(IntToString(x), 2, '0') == [DigitChar(x / 10), DigitChar(x % 10)]
  {
    if x < 10 {
      assert NatToDecimal(x) == [DigitChar(x)];
      assert PadStart([DigitChar(x)], 2, '0') == ['0'] + PadStart([DigitChar(x)], 1, '0');
      assert DigitChar(0) == '0';
    } else {
      assert NatToDecimal(x) == NatToDecimal(x / 10) + [DigitChar(x % 10)];
      assert NatToDecimal(x / 10) == [DigitChar(x / 10)];
    }
  }

  /** The seconds in `mins` minutes and `secs` seconds. */
  function ClockSeconds(mins: int, secs: int): int {
    mins * 60 + secs
  }

  /** Reads an `m:ss` clock back into seconds. */
  function ParseClock(t: string): Option<int> {
    if |t| >= 4 && t[|t| - 3] == ':' then
      Some(ClockSeconds(ParseDecimal(t[..|t| - 3]), ParseDecimal(t[|t| - 2..])))
    else None
  }

  /** Reading a two-digit field. */
  lemma ParseTwoDigits(a: nat, b: nat)
    requires a < 10 && b < 10
    ensures ParseDecimal([DigitChar(a), DigitChar(b)]) == a * 10 + b
  {
    var t := [DigitChar(a), DigitChar(b)];
    assert t[..1] == [DigitChar(a)];
    assert [DigitChar(a)][..0] == [];
    assert ParseDecimal([DigitChar(a)]) == a;
  }

  /** Reading a clock splits it at the third character from the end. */
  lemma ParseClockSplit(m: string, ss: string)
    requires |m| >= 1 && |ss| == 2
    ensures ParseClock(m + ":" + ss) == Some(ClockSeconds(ParseDecimal(m), ParseDecimal(ss)))
  {
    var t := m + ":" + ss;
    assert |t| >= 4 && t[|t| - 3] == ':';
    assert t[..|t| - 3] == m;
    assert t[|t| - 2..] == ss;
    assert ParseClock(t) == Some(ClockSeconds(ParseDecimal(t[..|t| - 3]), ParseDecimal(t[|t| - 2..])));
  }

  /** The clock `formatTime` shows for a non-negative count reads back as that
      count, so no two counts share a display. */
  lemma ClockRoundTrip(s: nat)
    ensures ParseClock(FormatTime(s)) == Some(s)
  {
    FormatTimeFields(s);
    assert (s / 60) * 60 + s % 60 == s;
    ParseClockOfFields(s, s / 60, s % 60);
  }

  /** The clock built from `q` minutes and `x < 60` seconds reads back as
      the `s == q * 60 + x` seconds it stands for. */
  lemma ParseClockOfFields(s: nat, q: nat, x: nat)
    requires x < 60 && q * 60 + x == s
    ensures ParseClock(NatToDecimal(q) + ":" + [DigitChar(x / 10), DigitChar(x % 10)]) == Some(s)
  {
    var m, ss := NatToDecimal(q), [DigitChar(x / 10), DigitChar(x % 10)];
    ParseClockSplit(m, ss);
    ParseTwoDigits(x / 10, x % 10);
    DecimalRoundTrip(q);
  }

  /** What the user (and the timer) can do on this screen. */
  datatype Event =
    | TimerTick
    | TogglePlay
    | RestartSession
    | OpenQuestion
    | CancelQuestion
    | TypeQuestion(text: string)
    | AskQuestion
    | VoiceQuestion(transcript: string)

  /** The question input and its two buttons exist only while the input is shown. */
  predicate Rendered(st: State, ev: Event) {
    match ev
    case CancelQuestion => st.showQuestionInput
    case TypeQuestion(_) => st.showQuestionInput
    case AskQuestion => st.showQuestionInput
    case _ => true
  }

  /** Handle one event on a screen whose session lasts `total` seconds. */
  function Next(total: int, st: State, ev: Event): (r: State)
    ensures !Rendered(st, ev) ==> r == st
    ensures ev == OpenQuestion ==> r == st.(showQuestionInput := true)
    ensures ev == CancelQuestion ==> !r.showQuestionInput && r.question == st.question
    ensures ev == CancelQuestion || ev.TypeQuestion? ==>
      r.playing == st.playing && r.progress == st.progress && r.questions == st.questions
    ensures ev.TypeQuestion? && st.showQuestionInput ==> r.question == ev.text && r.showQuestionInput
  {
    if !Rendered(st, ev) then st
    else match ev
      case TimerTick => Tick(total, st)
      case TogglePlay => TogglePlayPause(st)
      case RestartSession => Restart(st)
      case OpenQuestion => st.(showQuestionInput := true)
      case CancelQuestion => st.(showQuestionInput := false)
      case TypeQuestion(text) => st.(question := text)
      case AskQuestion => HandleQuestion(st)
      case VoiceQuestion(t) => HandleVoiceQuestion(st, t)
  }

  /** Cancel hides the question input without discarding what was typed:
      typing, cancelling and reopening shows the typed text again, with the
      player and the log as they were. */
  lemma CancelKeepsDraft(total: int, st: State, text: string)
    requires st.showQuestionInput
    ensures var reopened := Next(total, Next(total, Next(total, st, TypeQuestion(text)), CancelQuestion), OpenQuestion);
      reopened == st.(question := text)
  {
  }

  /** The counter lies between the start and the end of the session. */
  predicate InRange(total: int, st: State) {
    0 <= st.progress <= total
  }

  /** Every event keeps the counter in range, only a tick or a restart moves
      it, and the question log only grows at its end. */
  lemma NextInvariants(total: int, st: State, ev: Event)
    requires 0 <= total && InRange(total, st)
    ensures InRange(total, Next(total, st, ev))
    ensures ev != TimerTick && ev != RestartSession ==> Next(total, st, ev).progress == st.progress
    ensures st.questions <= Next(total, st, ev).questions
  {
  }

  /** Playing from `p` at or below the end, each of the next `k <= total - p`
      ticks adds exactly one second and playback goes on. */
  lemma {:induction false} TicksAdvance(total: int, st: State, k: nat)
    requires st.playing && st.progress + k <= total
    ensures Ticks(total, st, k) == st.(progress := st.progress + k)
  {
    if k > 0 {
      TicksAdvance(total, st, k - 1);
    }
  }

  /** Auto-stop: from `p <= total`, playing, exactly `total - p` ticks reach the
      end while still playing, and the tick after that stops playback, leaving
      the counter at the end and the status "Session Complete!". */
  lemma AutoStop(total: int, st: State)
    requires st.playing && st.progress <= total
    ensures Ticks(total, st, total - st.progress) == st.(progress := total)
    ensures Ticks(total, st, total - st.progress + 1) == st.(progress := total, playing := false)
    ensures StatusOf(total, Ticks(total, st, total - st.progress + 1)) == Complete
  {
    TicksAdvance(total, st, total - st.progress);
  }

  /** Restart runs a full session from any state: with `total >= 0`, exactly
      `total` ticks after a restart reach the end still playing, and the next
      tick completes the session. */
  lemma RestartRunsFullSession(total: int, st: State)
    requires total >= 0
    ensures Ticks(total, Restart(st), total) == Restart(st).(progress := total)
    ensures StatusOf(total, Ticks(total, Restart(st), total + 1)) == Complete
  {
    AutoStop(total, Restart(st));
  }

  /** While paused no tick changes anything. */
  lemma {:induction false} PausedTicksIdle(total: int, st: State, n: nat)
    requires !st.playing
    ensures Ticks(total, st, n) == st
  {
    if n > 0 {
      PausedTicksIdle(total, st, n - 1);
    }
  }

  /** Pausing freezes the counter for any number of ticks, and resuming gives
      back exactly the state that was paused. */
  lemma PauseResume(total: int, st: State, n: nat)
    requires st.playing
    ensures Ticks(total, TogglePlayPause(st), n).progress == st.progress
    ensures TogglePlayPause(Ticks(total, TogglePlayPause(st), n)) == st
  {
    PausedTicksIdle(total, TogglePlayPause(st), n);
  }
}
