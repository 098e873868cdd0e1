/**
 * Model of components/ChatMessage.tsx: the mount effect that reveals a bot
 * message one character per timer firing and then hides the cursor, shows a
 * user message at once, asks for speech at the start when sound is on and
 * stops speech on teardown; and the play/stop button.
 * Timer firings are steps (the 500 ms and 20 ms delays are not modelled); the
 * callbacks `onSpeak` and `onStop` are recorded as events, in call order.
 */
module ChatMessage {

  /** A call the bubble makes to its parent. */
  datatype Callback = Speak | Stop

  /** The reveal as `typeText` sees it: the closure's `currentIndex`, the state values
      `displayText` and `showTyping`, and whether a `typeText` timer is still scheduled. */
  datatype Reveal = Reveal(index: nat, display: string, cursor: bool, pending: bool)

  /** A bot message right after the effect ran: nothing shown, cursor on, first timer set. */
  const Start: Reveal := Reveal(0, "", true, true)

  /** One firing of the scheduled `typeText`; with no timer pending nothing fires. */
  function TypeText(text: string, r: Reveal): (next: Reveal)
    // a display that is the prefix of length index stays one
    ensures r.index <= |text| && r.display == text[..r.index] ==>
      next.index <= |text| && next.display == text[..next.index]
    // every firing of a pending timer does one unit of the remaining work
    ensures r.pending && r.index <= |text| ==> Remaining(text, next) == Remaining(text, r) - 1
    // the last firing only hides the cursor
    ensures r.pending && !next.pending ==> !next.cursor && next.display == r.display
  {
    if !r.pending then r
    else if r.index < |text| then Reveal(r.index + 1, text[..r.index + 1], r.cursor, true)
    else Reveal(r.index, r.display, false, false)
  }

  /** The reveal of `text` after n timer firings. */
  function AfterFirings(text: string, n: nat): (r: Reveal)
    // the display is always the prefix of the text whose length is the index
    ensures r.index <= |text| && r.display == text[..r.index]
    // the cursor is shown exactly while a timer is pending
    ensures r.cursor <==> r.pending
  {
    if n == 0 then Start else TypeText(text, AfterFirings(text, n - 1))
  }

  /** How many firings the reveal still needs: one per hidden character and one to hide the cursor. */
  function Remaining(text: string, r: Reveal): int
  {
    if r.pending then |text| - r.index + 1 else 0
  }

  /** The as-written teardown test: `isSpeaking` is the value captured when the effect last
      ran, because the effect depends only on the text and on isUser. `speakingNow` is not
      read; it is there so that the call lines up with TeardownStops on the same inputs. */
  function TeardownStopsAsWritten(isUser: bool, speakingWhenEffectRan: bool, speakingNow: bool): bool
  {
    !isUser && speakingWhenEffectRan
  }

  /** The intended teardown test: stop the speech of a bot message that is speaking now. */
  function TeardownStops(isUser: bool, speakingNow: bool): bool
  {
    !isUser && speakingNow
  }

  /** One mounted `ChatMessage`. `isSpeaking` is the prop as the parent currently passes it
      (`currentSpeakingId === message.id`); `events` are the calls made to onSpeak and onStop. */
  class MessageBubble {
    const text: string
    const isUser: bool
    var sound: bool
    var displayText: string
    var showTyping: bool
    var currentIndex: nat
    var timerPending: bool
    var isSpeaking: bool
    var events: seq<Callback>
    /** Timer firings so far. */
    ghost var firings: nat

    function State(): Reveal
      reads this
    {
      Reveal(currentIndex, displayText, showTyping, timerPending)
    }

    /** A user message is shown whole with no cursor; a bot message is where n firings put it. */
    ghost predicate Valid()
      reads this
    {
      if isUser then displayText == text && !showTyping && !timerPending
      else State() == AfterFirings(text, firings)
    }

    /** First render followed by the mount effect. */
    constructor (text: string, isUser: bool, sound: bool, isSpeaking: bool)
      ensures Valid()
      ensures this.text == text && this.isUser == isUser && this.sound == sound && this.isSpeaking == isSpeaking
      // a user message appears whole, without cursor, and asks for no speech
      ensures isUser ==> displayText == text && !showTyping && !timerPending && events == []
      // a bot message starts empty with the cursor, and asks for speech once, before any character
      ensures !isUser ==> State() == Start && events == (if sound then [Speak] else [])
    {
      this.text := text;
      this.isUser := isUser;
      this.sound := sound;
      this.isSpeaking := isSpeaking;
      displayText := "";
      showTyping := !isUser;
      currentIndex := 0;
      events := [];
      firings := 0;
      if !isUser {
        if sound {
          events := [Speak];
        }
        timerPending := true;
      } else {
        displayText := text;
        showTyping := false;
        timerPending := false;
      }
    }

    /** One timer firing. */
    method Step()
      requires Valid()
      modifies this`displayText, this`showTyping, this`currentIndex, this`timerPending, this`firings
      ensures Valid()
      ensures State() == TypeText(text, old(State()))
    {
      if !timerPending {
        if !isUser {
          firings := firings + 1;
        }
        return;
      }
      if currentIndex < |text| {
        displayText := text[..currentIndex + 1];
        currentIndex := currentIndex + 1;
      } else {
        showTyping := false;
        timerPending := false;
      }
      firings := firings + 1;
    }

    /** Lets the timers fire until none is left. */
    method RevealAll()
      requires Valid()
      modifies this`displayText, this`showTyping, this`currentIndex, this`timerPending, this`firings
      ensures Valid()
      ensures displayText == text && !showTyping && !timerPending
    {
      if !isUser {
        RevealShape(text, firings);
      }
      while timerPending
        invariant Valid()
        invariant !isUser ==> currentIndex <= |text|
        decreases Remaining(text, State())
      {
        Step();
        RevealShape(text, firings);
      }
      if !isUser {
        AfterFiringsClosedForm(text, firings);
      }
    }

    /** A re-render in which the parent passes a new `isSpeaking`. The effect does not run
        again, so the reveal goes on where it was and no callback is made. */
    method SetSpeaking(speaking: bool)
      requires Valid()
      modifies this`isSpeaking
      ensures isSpeaking == speaking
      ensures Valid() && State() == old(State()) && events == old(events)
    {
      isSpeaking := speaking;
    }

    /** A re-render in which the parent passes a new `sound`. The effect does not run again, so
        a bot bubble that asked for speech at mount can lose its button, or gain one without
        having asked; the reveal and the calls made so far are kept. */
    method SetSound(on: bool)
      requires Valid()
      modifies this`sound
      ensures sound == on
      ensures Valid() && State() == old(State()) && events == old(events)
    {
      sound := on;
    }

    /** Whether the play/stop button is rendered. */
    function HasSpeechButton(): bool
      reads this
    {
      !isUser && sound
    }

    /** A press on the play/stop button, when it is rendered. */
    method PressSpeech()
      modifies this`events
      ensures events == old(events) + (if HasSpeechButton() then [if isSpeaking then Stop else Speak] else [])
      // a press does something exactly on a bot message with sound on
      ensures events == old(events) <==> isUser || !sound
    {
      if HasSpeechButton() {
        events := events + [if isSpeaking then Stop else Speak];
      }
    }

    /** Unmount: the effect's cleanup, with the intended (current) speaking test. */
    method Teardown()
      modifies this`events
      ensures events == old(events) + (if TeardownStops(isUser, isSpeaking) then [Stop] else [])
    {
      if TeardownStops(isUser, isSpeaking) {
        events := events + [Stop];
      }
    }
  }

  // ---------------------------------------------------------------------------
  // Lemmas

  /** Closed form of the reveal: after n <= |text| firings the first n characters are shown with
      the cursor and a timer pending; from firing |text| + 1 on, the whole text without cursor. */
  lemma {:induction false} AfterFiringsClosedForm(text: string, n: nat)
    ensures AfterFirings(text, n) ==
      if n <= |text| then Reveal(n, text[..n], true, true) else Reveal(|text|, text, false, false)
  {
    if n > 0 {
      AfterFiringsClosedForm(text, n - 1);
      if n - 1 == |text| {
        assert text[..n - 1] == text;
      }
    }
  }

  /** A timer is pending during the first |text| + 1 firings, and once none is left the whole
      text is shown. */
  lemma RevealShape(text: string, n: nat)
    ensures var r := AfterFirings(text, n);
      && (r.pending <==> n <= |text|)
      && (!r.pending ==> r.display == text)
  {
    AfterFiringsClosedForm(text, n);
  }

  /** Each firing extends the display by exactly the next character, or ends the reveal. */
  lemma {:induction false} FiringExtendsDisplay(text: string, n: nat)
    ensures var r := AfterFirings(text, n); var r' := AfterFirings(text, n + 1);
      && r'.display[..|r.display|] == r.display
      && (r.pending && r.index < |text| ==> r'.display == r.display + [text[r.index]])
      && (!r'.pending ==> r'.display == text)
  {
    AfterFiringsClosedForm(text, n);
    AfterFiringsClosedForm(text, n + 1);
    var r := AfterFirings(text, n);
    if n < |text| {
      assert text[..n + 1] == text[..n] + [text[n]];
    }
  }

  /** The reveal ends: after |text| + 1 firings the whole text is shown, the cursor is gone and
      no timer is left. */
  lemma RevealTerminates(text: string)
    ensures AfterFirings(text, |text| + 1) == Reveal(|text|, text, false, false)
  {
    AfterFiringsClosedForm(text, |text| + 1);
  }

  /** An empty bot message: the first firing hides the cursor and the display stays "". */
  lemma EmptyBotText()
    ensures AfterFirings("", 1) == Reveal(0, "", false, false)
  {
  }

  /** The stale test misses a stop: a bot bubble with sound asks for speech at mount, the parent
      then marks it as speaking, and on unmount the captured `false` keeps onStop from being
      called, while the intended test calls it. */
  lemma StaleSpeakingMissesStop()
    ensures !TeardownStopsAsWritten(false, false, true)
    ensures TeardownStops(false, true)
  {
  }

  /** The two tests differ only when the speaking state changed after the effect ran. */
  lemma AsWrittenAgreesWhileSpeakingUnchanged(isUser: bool, speakingWhenEffectRan: bool, speakingNow: bool)
    ensures speakingWhenEffectRan == speakingNow ==>
      TeardownStopsAsWritten(isUser, speakingWhenEffectRan, speakingNow) == TeardownStops(isUser, speakingNow)
  {
  }
}
