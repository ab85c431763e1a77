/**
  * What the recorder's handlers promise, proved about the state machine in
  * module Turn: the effect of each event, the invariant every event keeps,
  * the append-only conversation and the silence monitor's at-most-once cut.
  */
module TurnProperties {
  import opened Wrappers
  import opened Text
  import opened Transcript
  import opened Turn

  // ------------------------------------------------------------ invariant

  lemma PlaybackEffectKeepsValid(s: State)
    requires Valid(s)
    ensures Valid(PlaybackEffect(s))
  {
  }

  /** Every event the environment can deliver keeps the invariant. */
  lemma StepPreservesValid(s: State, e: Event)
    requires Valid(s)
    ensures Valid(Step(s, e))
  {
    if Enabled(s, e) {
      match e
      case StopClicked =>
        StopRecordingSpec(s);
      case Tick(now) =>
        SilenceTickSpec(s, now);
      case Submitted =>
        SubmitSpec(s);
      case Replied(k, reply) =>
        var answered := s.(pending := Remove(s.pending, k), messages := s.messages + [Message(Assistant, reply)]);
        var handled := if !answered.playback.isMuted then SpeakResponse(answered.playback, reply) else answered.playback;
        PlaybackEffectKeepsValid(answered.(playback := handled, capture := RestartAfterTurn(answered.capture)));
      case MuteSet(m) =>
        if m != s.playback.isMuted {
          PlaybackEffectKeepsValid(s.(playback := MuteEffect(s.playback.(isMuted := m))));
        }
      case _ =>
    }
  }

  /** The invariant holds after any sequence of events. */
  lemma {:induction false} RunPreservesValid(s: State, events: seq<Event>)
    requires Valid(s)
    ensures Valid(Run(s, events))
    decreases |events|
  {
    if events != [] {
      StepPreservesValid(s, events[0]);
      RunPreservesValid(Step(s, events[0]), events[1..]);
    }
  }

  /**
    * The state right after mount satisfies the invariant and has recorded nothing;
    * a synthesizer is in use only when a recognizer was found as well.
    */
  lemma MountValid(hasRecognizer: bool, synthAvailable: bool, isMuted: bool, persona: Option<int>, messages: seq<Message>)
    ensures var s := Mount(hasRecognizer, synthAvailable, isMuted, persona, messages);
      && Valid(s)
      && s.capture == Capture(hasRecognizer, false, "", 0, false, false, 0)
      && s.playback.hasSynth == (hasRecognizer && synthAvailable)
      && s.playback.isMuted == isMuted && !s.playback.isSpeaking
      && s.messages == messages && s.pending == [] && s.textInput == ""
  {
    PlaybackEffectKeepsValid(State(Capture(hasRecognizer, false, "", 0, false, false, 0),
                                   Playback(hasRecognizer && synthAvailable, isMuted, false, None, 0),
                                   messages, [], persona, ""));
  }

  // ---------------------------------------------------------- append-only

  /** Any reply adds exactly one assistant message and retires exactly the answered request. */
  lemma ReplySpec(s: State, k: nat, reply: string)
    requires k < |s.pending|
    ensures ReplyArrived(s, k, reply).messages == s.messages + [Message(Assistant, reply)]
    ensures ReplyArrived(s, k, reply).pending == s.pending[..k] + s.pending[k + 1..]
    ensures ReplyFailed(s, k).messages == s.messages
    ensures ReplyFailed(s, k).pending == s.pending[..k] + s.pending[k + 1..]
  {
  }

  /** No event removes or changes a message already in the conversation; at most one is added. */
  lemma StepAppendsOnly(s: State, e: Event)
    ensures s.messages <= Step(s, e).messages
    ensures |Step(s, e).messages| <= |s.messages| + 1
  {
    if Enabled(s, e) {
      match e
      case StopClicked =>
        StopRecordingSpec(s);
      case Tick(now) =>
        SilenceTickSpec(s, now);
      case Submitted =>
        SubmitSpec(s);
      case Replied(k, reply) =>
        ReplySpec(s, k, reply);
      case _ =>
    }
  }

  /** Over any sequence of events the conversation only grows at its end. */
  lemma {:induction false} RunAppendsOnly(s: State, events: seq<Event>)
    ensures s.messages <= Run(s, events).messages
    decreases |events|
  {
    if events != [] {
      StepAppendsOnly(s, events[0]);
      RunAppendsOnly(Step(s, events[0]), events[1..]);
    }
  }

  // -------------------------------------------------------------- capture

  /**
    * A `result` event replaces the transcript, whatever it held, by the first
    * alternative of entry `resultIndex` followed by those of all later entries
    * ("" when `resultIndex` is past the end), and stamps the event's time.
    */
  lemma ResultReplacesTranscript(c: Capture, resultIndex: nat, results: seq<RecognitionResult>, now: int)
    ensures var t := OnResult(c, resultIndex, results, now);
      && t.lastResultTime == now
      && (resultIndex >= |results| ==> t.partialTranscript == "")
      && (resultIndex < |results| ==>
            t.partialTranscript == results[resultIndex].first.transcript + FromIndex(resultIndex + 1, results))
      && t == c.(lastResultTime := now, partialTranscript := t.partialTranscript)
  {
    AccumulatedMatchesReference(resultIndex, results);
  }

  /** The recording effect touches nothing but the silence interval, and only when the flag changed. */
  lemma RecordingEffectSpec(wasRecording: bool, c: Capture)
    ensures RecordingEffect(wasRecording, c) ==
      if c.isRecording == wasRecording then c else c.(silenceTimerActive := c.isRecording)
  {
  }

  /**
    * Without a recognizer starting changes nothing; otherwise the transcript is
    * cleared, the silence clock restarts at `now`, recording and the interval are on.
    */
  lemma StartRecordingSpec(c: Capture, now: int)
    requires CaptureValid(c)
    ensures var t := StartRecording(c, now);
      && (!c.hasRecognizer ==> t == c)
      && (c.hasRecognizer ==>
            t == c.(partialTranscript := "", lastResultTime := now, recognizerRunning := true,
                    isRecording := true, silenceTimerActive := true))
  {
  }

  /**
    * Without a recognizer stopping changes nothing. Otherwise it stops the session
    * and turns recording off (and with it the interval, which exists exactly while
    * recording); a transcript with content is finalized once, as its trimmed
    * text, and then cleared; a blank one is left alone.
    */
  lemma StopRecordingSpec(s: State)
    ensures var t := StopRecording(s); var chunk := Trim(s.capture.partialTranscript);
      var off := s.capture.(recognizerRunning := false, isRecording := false,
                            silenceTimerActive := s.capture.silenceTimerActive && !s.capture.isRecording);
      && (!s.capture.hasRecognizer ==> t == s)
      && (s.capture.hasRecognizer && chunk != "" ==>
            t == s.(capture := off.(partialTranscript := ""),
                    messages := s.messages + [Message(User, chunk)],
                    pending := s.pending + [Request(chunk, s.persona)]))
      && (s.capture.hasRecognizer && chunk == "" ==> t == s.(capture := off))
    ensures Valid(s) ==> Valid(StopRecording(s)) && !StopRecording(s).capture.silenceTimerActive
  {
    if s.capture.hasRecognizer {
      var stopped := s.(capture := s.capture.(recognizerRunning := false, isRecording := false));
      var chunk := Trim(s.capture.partialTranscript);
      if chunk != "" {
        FinalizeSpec(stopped, chunk);
        var after := ClearTranscript(FinalizeChunk(stopped, chunk));
        assert after.capture == stopped.capture.(partialTranscript := "");
        RecordingEffectSpec(s.capture.isRecording, after.capture);
      } else {
        RecordingEffectSpec(s.capture.isRecording, stopped.capture);
      }
    }
  }

  /** `stopRecording` as its three steps: stop the session, finalize a transcript with content, run the effect. */
  lemma StopRecordingSteps(s: State, stopped: State, after: State)
    requires s.capture.hasRecognizer
    requires stopped == s.(capture := s.capture.(recognizerRunning := false, isRecording := false))
    requires var chunk := Trim(s.capture.partialTranscript);
      after == if chunk != "" then ClearTranscript(FinalizeChunk(stopped, chunk)) else stopped
    ensures StopRecording(s) == after.(capture := RecordingEffect(s.capture.isRecording, after.capture))
  {
  }

  /**
    * Stopping with a whitespace-only transcript finalizes nothing and leaves that
    * transcript in place while recording is off.
    */
  lemma BlankTranscriptSurvivesStop(s: State)
    requires s.capture.hasRecognizer && AllSpace(s.capture.partialTranscript)
    ensures var t := StopRecording(s);
      && !t.capture.isRecording
      && t.capture.partialTranscript == s.capture.partialTranscript
      && t.messages == s.messages && t.pending == s.pending
  {
    StopRecordingSpec(s);
  }

  /** Starting the interval when it exists changes nothing; stopping it leaves none. */
  lemma SilenceTimerLifecycle(c: Capture)
    ensures c.silenceTimerActive ==> StartCheckSilence(c) == c
    ensures StartCheckSilence(c) == c.(silenceTimerActive := true)
    ensures StopCheckSilence(c) == c.(silenceTimerActive := false)
  {
  }

  // -------------------------------------------------------- silence monitor

  /** The transcript is cut at this tick: it is 2000 ms old and has content. */
  predicate CutsAt(c: Capture, now: int) {
    now - c.lastResultTime >= SilenceThresholdMs && Trim(c.partialTranscript) != ""
  }

  /**
    * A tick at which the transcript is old enough and has content clears it
    * and finalizes its trimmed text once; any other tick changes nothing.
    */
  lemma SilenceTickSpec(s: State, now: int)
    requires s.capture.silenceTimerActive
    ensures var t := SilenceTick(s, now); var chunk := Trim(s.capture.partialTranscript);
      && (CutsAt(s.capture, now) ==>
            t == s.(capture := s.capture.(partialTranscript := ""),
                    messages := s.messages + [Message(User, chunk)],
                    pending := s.pending + [Request(chunk, s.persona)]))
      && (!CutsAt(s.capture, now) ==> t == s)
  {
  }

  /** After a tick has cut the transcript, the next tick (no result in between) does nothing. */
  lemma SecondTickIsIdle(s: State, first: int, second: int)
    requires s.capture.silenceTimerActive && CutsAt(s.capture, first)
    ensures SilenceTick(SilenceTick(s, first), second) == SilenceTick(s, first)
  {
    TrimEmpty();
  }

  lemma TrimEmpty()
    ensures Trim("") == ""
  {
    assert AllSpace("");
  }

  predicate AllTicks(events: seq<Event>) {
    forall i :: 0 <= i < |events| ==> events[i].Tick?
  }

  /** Ticks over a transcript with no content change nothing. */
  lemma {:induction false} TicksOnBlankAreIdle(s: State, events: seq<Event>)
    requires AllTicks(events) && Trim(s.capture.partialTranscript) == ""
    ensures Run(s, events) == s
    decreases |events|
  {
    if events != [] {
      var now := events[0].now;
      assert events[0] == Tick(now);
      assert Step(s, events[0]) == s;
      assert AllTicks(events[1..]) by {
        forall i | 0 <= i < |events[1..]| ensures events[1..][i].Tick? { assert events[1..][i] == events[i + 1]; }
      }
      TicksOnBlankAreIdle(s, events[1..]);
    }
  }

  /**
    * However many ticks arrive with no result in between, the transcript is
    * finalized at most once: the conversation is unchanged or has exactly one
    * more user message, the trimmed transcript.
    */
  lemma {:induction false} TicksFinalizeAtMostOnce(s: State, events: seq<Event>)
    requires AllTicks(events)
    ensures var t := Run(s, events);
      t.messages == s.messages || t.messages == s.messages + [Message(User, Trim(s.capture.partialTranscript))]
    decreases |events|
  {
    if events != [] {
      var now := events[0].now;
      assert events[0] == Tick(now);
      var next := Step(s, events[0]);
      assert AllTicks(events[1..]) by {
        forall i | 0 <= i < |events[1..]| ensures events[1..][i].Tick? { assert events[1..][i] == events[i + 1]; }
      }
      if s.capture.silenceTimerActive && CutsAt(s.capture, now) {
        SilenceTickSpec(s, now);
        assert next == SilenceTick(s, now);
        TrimEmpty();
        TicksOnBlankAreIdle(next, events[1..]);
      } else {
        if s.capture.silenceTimerActive { SilenceTickSpec(s, now); }
        assert next == s;
        TicksFinalizeAtMostOnce(s, events[1..]);
      }
    }
  }

  // ------------------------------------------------------------------ turn

  /** Manual submission: blank input changes nothing; otherwise the input is cleared and its trimmed text finalized. */
  lemma SubmitSpec(s: State)
    ensures var t := HandleSubmit(s); var message := Trim(s.textInput);
      && (message == "" ==> t == s)
      && (message != "" ==>
            t == s.(textInput := "",
                    messages := s.messages + [Message(User, message)],
                    pending := s.pending + [Request(message, s.persona)]))
  {
  }

  /** Finalizing appends exactly one user message and issues exactly one request carrying the chunk and the persona. */
  lemma FinalizeSpec(s: State, chunk: string)
    ensures FinalizeChunk(s, chunk) ==
      s.(messages := s.messages + [Message(User, chunk)], pending := s.pending + [Request(chunk, s.persona)])
  {
  }

  /**
    * A successful turn adds two messages, the user's then the assistant's, and
    * leaves no request behind; while unmuted the reply is what is spoken.
    */
  lemma SuccessfulTurn(s: State, chunk: string, reply: string)
    ensures var issued := FinalizeChunk(s, chunk);
      var t := ReplyArrived(issued, |s.pending|, reply);
      && t.messages == s.messages + [Message(User, chunk), Message(Assistant, reply)]
      && t.pending == s.pending
      && (Valid(s) && !s.playback.isMuted && s.playback.hasSynth ==>
            t.playback.activeUtterance == Some(Utterance(s.playback.nextUtteranceId + 1, reply)))
  {
    FinalizeSpec(s, chunk);
    var issued := FinalizeChunk(s, chunk);
    assert Remove(issued.pending, |s.pending|) == s.pending;
    ReplySpec(issued, |s.pending|, reply);
    if Valid(s) {
      ReplyIsSpoken(issued, |s.pending|, reply);
    }
  }

  /** A failed turn keeps the user message and adds nothing more. */
  lemma FailedTurn(s: State, chunk: string)
    ensures var t := ReplyFailed(FinalizeChunk(s, chunk), |s.pending|);
      t.messages == s.messages + [Message(User, chunk)] && t.pending == s.pending
  {
    FinalizeSpec(s, chunk);
    var issued := FinalizeChunk(s, chunk);
    assert Remove(issued.pending, |s.pending|) == s.pending;
  }

  /**
    * After a reply or a failure, if recording is on the session is stopped and
    * one restart is scheduled; otherwise capture is untouched.
    */
  lemma RestartScheduledAfterTurn(s: State, k: nat, reply: string)
    requires Valid(s) && k < |s.pending|
    ensures var ok := ReplyArrived(s, k, reply).capture; var failed := ReplyFailed(s, k).capture;
      && ok == failed
      && (s.capture.isRecording ==>
            ok == s.capture.(recognizerRunning := false, pendingRestarts := s.capture.pendingRestarts + 1))
      && (!s.capture.isRecording ==> ok == s.capture)
  {
  }

  /** A restart that fires while recording starts the recognizer; one that fires after stopping changes nothing else. */
  lemma RestartFiredSpec(c: Capture)
    requires CaptureValid(c) && c.pendingRestarts > 0
    ensures var t := RestartFired(c);
      && CaptureValid(t)
      && (c.isRecording ==> t == c.(pendingRestarts := c.pendingRestarts - 1, recognizerRunning := true))
      && (!c.isRecording ==> t == c.(pendingRestarts := c.pendingRestarts - 1))
  {
  }

  // -------------------------------------------------------------- playback

  /** Muting cancels whatever is being spoken and clears `isSpeaking`; the conversation is untouched. */
  lemma MuteCancelsPlayback(s: State)
    requires Valid(s)
    ensures var t := SetMuted(s, true);
      && t.playback.isMuted && t.playback.activeUtterance.None? && !t.playback.isSpeaking
      && t.messages == s.messages && t.pending == s.pending && t.capture == s.capture
  {
  }

  /** Speaking while muted never starts an utterance. */
  lemma MutedSpeakStartsNothing(p: Playback, text: string)
    requires PlaybackValid(p) && p.isMuted
    ensures SpeakResponse(p, text).activeUtterance.None? && !SpeakResponse(p, text).isSpeaking
  {
  }

  /**
    * Speaking while unmuted cancels the prior utterance before starting the new
    * one: the new utterance is the only active one and the prior one is gone.
    */
  lemma SpeakReplacesPrior(p: Playback, text: string)
    requires PlaybackValid(p) && !p.isMuted && p.hasSynth
    ensures var t := SpeakResponse(p, text);
      && PlaybackValid(t)
      && t.activeUtterance == Some(Utterance(p.nextUtteranceId, text))
      && (p.activeUtterance.Some? ==> t.activeUtterance != p.activeUtterance)
      && t.isSpeaking == p.isSpeaking
  {
  }

  /** The utterance callbacks: `start` sets `isSpeaking`, `end` and `error` clear it. */
  lemma UtteranceCallbacks(s: State, id: nat)
    requires Valid(s) && id < s.playback.nextUtteranceId
    ensures !Step(s, Ended(id)).playback.isSpeaking
    ensures !Step(s, Errored(id)).playback.isSpeaking
    ensures s.playback.activeUtterance.Some? && s.playback.activeUtterance.value.id == id ==>
      Step(s, Started(id)).playback.isSpeaking && Step(s, Ended(id)).playback.activeUtterance.None?
    ensures s.playback.activeUtterance.Some? && s.playback.activeUtterance.value.id != id ==>
      Step(s, Ended(id)).playback.activeUtterance == s.playback.activeUtterance
  {
  }

  /**
    * A reply that arrives while unmuted is what the synthesizer speaks next:
    * it is handed to playback twice (by the reply handler and by the effect on
    * the conversation) and the second request cancels the first. While muted
    * nothing is spoken.
    */
  lemma ReplyIsSpoken(s: State, k: nat, reply: string)
    requires Valid(s) && k < |s.pending|
    ensures var t := ReplyArrived(s, k, reply).playback;
      && (!s.playback.isMuted && s.playback.hasSynth ==>
            t.activeUtterance == Some(Utterance(s.playback.nextUtteranceId + 1, reply))
            && t.nextUtteranceId == s.playback.nextUtteranceId + 2)
      && (s.playback.isMuted ==> t.activeUtterance.None? && !t.isSpeaking)
  {
    var answered := s.(pending := Remove(s.pending, k), messages := s.messages + [Message(Assistant, reply)]);
    var handled := if !answered.playback.isMuted then SpeakResponse(answered.playback, reply) else answered.playback;
    var restarted := answered.(playback := handled, capture := RestartAfterTurn(answered.capture));
    assert |restarted.messages| > 0 && LastMessage(restarted) == Message(Assistant, reply);
  }

  /**
    * The effect on the conversation: while unmuted, a conversation ending in an
    * assistant message has that message spoken (or, without a synthesizer,
    * `isSpeaking` cleared); anything else leaves the state alone.
    */
  lemma PlaybackEffectSpec(s: State)
    requires Valid(s)
    ensures var t := PlaybackEffect(s);
      && t.capture == s.capture && t.messages == s.messages && t.pending == s.pending
      && (!s.playback.isMuted && s.playback.hasSynth && |s.messages| > 0 && LastMessage(s).role == Assistant ==>
            t.playback.activeUtterance == Some(Utterance(s.playback.nextUtteranceId, LastMessage(s).content))
            && t.playback.nextUtteranceId == s.playback.nextUtteranceId + 1)
      && (!s.playback.isMuted && !s.playback.hasSynth && |s.messages| > 0 && LastMessage(s).role == Assistant ==>
            t.playback == s.playback.(isSpeaking := false))
      && (s.playback.isMuted || |s.messages| == 0 || LastMessage(s).role == User ==> t == s)
  {
  }

  /** Unmuting while the conversation ends with an assistant message speaks that message again. */
  lemma UnmuteReplaysLastReply(s: State)
    requires Valid(s) && s.playback.isMuted && s.playback.hasSynth && |s.messages| > 0 && LastMessage(s).role == Assistant
    ensures var t := SetMuted(s, false).playback;
      !t.isMuted && t.activeUtterance == Some(Utterance(s.playback.nextUtteranceId, LastMessage(s).content))
  {
  }
}
