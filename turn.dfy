/**
  * The speech recorder's turn state machine as values: one `State` holding
  * every cell and ref the recorder's handlers read or write, and one function
  * per event that yields the state after the handler, and the effects that
  * react to the cells it changed, have run to completion.
  *
  * Browser capabilities become events and flags: the recognizer's `result`
  * callback, the silence interval's tick, the restart timeout's firing, the
  * chat endpoint's reply or failure, and the speech synthesizer's utterance
  * start, end and error callbacks. Times are integer milliseconds passed in.
  */
module Turn {
  import opened Wrappers
  import opened Text
  import opened Transcript

  /** Age of the last recognition result at which a tick cuts the transcript into a chunk. */
  const SilenceThresholdMs: int := 2000
  /** Period of the silence interval. */
  const SilencePollMs: int := 500

  datatype Role = User | Assistant

  /** One entry of the conversation the recorder appends to. */
  datatype Message = Message(role: Role, content: string)

  /** A request to the chat endpoint that has been issued and has not yet completed. */
  datatype Request = Request(message: string, persona: Option<int>)

  /** An utterance handed to the speech synthesizer; `id` tells utterances with the same text apart. */
  datatype Utterance = Utterance(id: nat, text: string)

  /** The capture session and the silence monitor. */
  datatype Capture = Capture(
    // whether a recognizer could be constructed when the component mounted
    hasRecognizer: bool,
    isRecording: bool,
    partialTranscript: string,
    lastResultTime: int,
    // the silence interval exists
    silenceTimerActive: bool,
    // the current recognizer session has been started and not stopped
    recognizerRunning: bool,
    // restart timeouts scheduled and not yet fired
    pendingRestarts: nat
  )

  /** The playback session. */
  datatype Playback = Playback(
    // whether the page has a speech synthesizer
    hasSynth: bool,
    isMuted: bool,
    isSpeaking: bool,
    // the utterance the synthesizer is speaking or about to speak
    activeUtterance: Option<Utterance>,
    nextUtteranceId: nat
  )

  datatype State = State(
    capture: Capture,
    playback: Playback,
    messages: seq<Message>,
    // chat requests issued and not yet answered, in the order they were issued
    pending: seq<Request>,
    persona: Option<int>,
    textInput: string
  )

  /** Capture needs a recognizer, and the silence interval exists exactly while recording. */
  predicate CaptureValid(c: Capture) {
    && (c.isRecording ==> c.hasRecognizer)
    && (c.recognizerRunning ==> c.hasRecognizer)
    && (c.pendingRestarts > 0 ==> c.hasRecognizer)
    && c.silenceTimerActive == c.isRecording
  }

  /** While muted, or without a synthesizer, nothing is being spoken; at most one utterance is active. */
  predicate PlaybackValid(p: Playback) {
    && (p.isSpeaking ==> p.activeUtterance.Some?)
    && ((p.isMuted || !p.hasSynth) ==> p.activeUtterance.None?)
    && (p.activeUtterance.Some? ==> p.activeUtterance.value.id < p.nextUtteranceId)
  }

  /**
    * The invariant every reachable state keeps. The synthesizer is only picked up
    * by the mount effect after a recognizer was found, so there is none without one.
    */
  predicate Valid(s: State) {
    && CaptureValid(s.capture) && PlaybackValid(s.playback)
    && (s.playback.hasSynth ==> s.capture.hasRecognizer)
  }

  function LastMessage(s: State): Message
    requires |s.messages| > 0
  {
    s.messages[|s.messages| - 1]
  }

  // ---------------------------------------------------------------- playback

  /** `speakResponse`: muted or no synthesizer cancels; otherwise cancel the active utterance and queue a new one. */
  function SpeakResponse(p: Playback, text: string): Playback {
    if !p.hasSynth || p.isMuted then
      p.(isSpeaking := false, activeUtterance := if p.hasSynth then None else p.activeUtterance)
    else
      p.(activeUtterance := Some(Utterance(p.nextUtteranceId, text)), nextUtteranceId := p.nextUtteranceId + 1)
  }

  /** The effect on `[isMuted, messages]`: while unmuted, a conversation ending in an assistant message is spoken. */
  function PlaybackEffect(s: State): State {
    if !s.playback.isMuted && |s.messages| > 0 && LastMessage(s).role == Assistant then
      s.(playback := SpeakResponse(s.playback, LastMessage(s).content))
    else
      s
  }

  /** The effect on `isMuted`: becoming muted cancels the synthesizer and clears `isSpeaking`. */
  function MuteEffect(p: Playback): Playback {
    if p.isMuted && p.hasSynth then p.(activeUtterance := None, isSpeaking := false) else p
  }

  /** The mute flag changes; effects run only when it really changed, the mute effect before the playback effect. */
  function SetMuted(s: State, muted: bool): State {
    if muted == s.playback.isMuted then s
    else PlaybackEffect(s.(playback := MuteEffect(s.playback.(isMuted := muted))))
  }

  /** The utterance's `start` callback. */
  function UtteranceStarted(p: Playback, id: nat): Playback
    requires p.activeUtterance.Some? && p.activeUtterance.value.id == id
  {
    p.(isSpeaking := true)
  }

  /**
    * An utterance's `end` or `error` callback: `isSpeaking` becomes false whichever
    * utterance it was; only the active one leaves the synthesizer.
    */
  function UtteranceFinished(p: Playback, id: nat): Playback
    requires id < p.nextUtteranceId
  {
    p.(isSpeaking := false,
       activeUtterance := if p.activeUtterance.Some? && p.activeUtterance.value.id == id then None else p.activeUtterance)
  }

  // ----------------------------------------------------------------- capture

  /** `startCheckSilence`: creates the interval unless it already exists. */
  function StartCheckSilence(c: Capture): Capture {
    if c.silenceTimerActive then c else c.(silenceTimerActive := true)
  }

  /** `stopCheckSilence`: clears the interval if there is one. */
  function StopCheckSilence(c: Capture): Capture {
    c.(silenceTimerActive := false)
  }

  /** The effect on `isRecording`: runs only when the flag changed from `wasRecording`. */
  function RecordingEffect(wasRecording: bool, c: Capture): Capture {
    if c.isRecording == wasRecording then c
    else if c.isRecording then StartCheckSilence(c)
    else StopCheckSilence(c)
  }

  /** The recognizer's `result` callback: the transcript is replaced by the event's text. */
  function OnResult(c: Capture, resultIndex: nat, results: seq<RecognitionResult>, now: int): Capture {
    c.(lastResultTime := now, partialTranscript := Accumulated(resultIndex, results))
  }

  /** `startRecording`: without a recognizer nothing happens; otherwise a fresh session starts listening. */
  function StartRecording(c: Capture, now: int): Capture {
    if !c.hasRecognizer then c
    else RecordingEffect(c.isRecording,
           c.(partialTranscript := "", lastResultTime := now, recognizerRunning := true, isRecording := true))
  }

  /** `stopRecording`: the session stops and a transcript with content is finalized, then cleared. */
  function StopRecording(s: State): State {
    if !s.capture.hasRecognizer then s
    else
      var stopped := s.(capture := s.capture.(recognizerRunning := false, isRecording := false));
      var chunk := Trim(s.capture.partialTranscript);
      var after := if chunk != "" then ClearTranscript(FinalizeChunk(stopped, chunk)) else stopped;
      after.(capture := RecordingEffect(s.capture.isRecording, after.capture))
  }

  function ClearTranscript(s: State): State {
    s.(capture := s.capture.(partialTranscript := ""))
  }

  /** One firing of the silence interval at time `now`. */
  function SilenceTick(s: State, now: int): State
    requires s.capture.silenceTimerActive
  {
    var chunk := Trim(s.capture.partialTranscript);
    if now - s.capture.lastResultTime >= SilenceThresholdMs && chunk != "" then
      FinalizeChunk(ClearTranscript(s), chunk)
    else
      s
  }

  // -------------------------------------------------------------------- turn

  /** The synchronous half of `finalizeChunk`: append the user message and issue the chat request. */
  function FinalizeChunk(s: State, chunk: string): State {
    PlaybackEffect(s.(messages := s.messages + [Message(User, chunk)],
                      pending := s.pending + [Request(chunk, s.persona)]))
  }

  function Remove(rs: seq<Request>, k: nat): seq<Request>
    requires k < |rs|
  {
    rs[..k] + rs[k + 1..]
  }

  /** The end of `finalizeChunk`: while recording, stop the session and schedule its restart. */
  function RestartAfterTurn(c: Capture): Capture {
    if c.hasRecognizer && c.isRecording then
      c.(recognizerRunning := false, pendingRestarts := c.pendingRestarts + 1)
    else
      c
  }

  /** Request `k` is answered with `reply`: append it, hand it to playback, then the restart logic and the effects. */
  function ReplyArrived(s: State, k: nat, reply: string): State
    requires k < |s.pending|
  {
    var answered := s.(pending := Remove(s.pending, k), messages := s.messages + [Message(Assistant, reply)]);
    var handled := if !answered.playback.isMuted then SpeakResponse(answered.playback, reply) else answered.playback;
    PlaybackEffect(answered.(playback := handled, capture := RestartAfterTurn(answered.capture)))
  }

  /** Request `k` fails (transport error or a body that is not JSON): nothing is appended. */
  function ReplyFailed(s: State, k: nat): State
    requires k < |s.pending|
  {
    s.(pending := Remove(s.pending, k), capture := RestartAfterTurn(s.capture))
  }

  /**
    * A restart timeout fires: the recognizer is started only if recording is still
    * on (starting a session that is already running throws and leaves it running).
    */
  function RestartFired(c: Capture): Capture
    requires c.pendingRestarts > 0
  {
    var fired := c.(pendingRestarts := c.pendingRestarts - 1);
    if c.isRecording && c.hasRecognizer then fired.(recognizerRunning := true) else fired
  }

  /** `handleSubmit`: a blank input is ignored; otherwise the input is cleared and its trimmed text finalized. */
  function HandleSubmit(s: State): State {
    var message := Trim(s.textInput);
    if message == "" then s else FinalizeChunk(s.(textInput := ""), message)
  }

  /**
    * The state right after mount: nothing recorded yet; the playback effect runs once
    * on the initial conversation. Without a recognizer the mount effect returns before
    * it picks up the synthesizer, so the page then has none.
    */
  function Mount(hasRecognizer: bool, synthAvailable: bool, isMuted: bool, persona: Option<int>, messages: seq<Message>): State {
    PlaybackEffect(State(Capture(hasRecognizer, false, "", 0, false, false, 0),
                         Playback(hasRecognizer && synthAvailable, isMuted, false, None, 0),
                         messages, [], persona, ""))
  }

  // ------------------------------------------------------------------ events

  datatype Event =
    | Heard(resultIndex: nat, results: seq<RecognitionResult>, now: int)
    | StartClicked(now: int)
    | StopClicked
    | Tick(now: int)
    | Typed(text: string)
    | Submitted
    | Replied(request: nat, reply: string)
    | RequestFailed(request: nat)
    | RestartTimeout
    | MuteSet(muted: bool)
    | PersonaSet(persona: Option<int>)
    | Started(utterance: nat)
    | Ended(utterance: nat)
    | Errored(utterance: nat)

  /** Which events the environment can deliver in a state. */
  predicate Enabled(s: State, e: Event) {
    match e
    case Heard(_, _, _) => s.capture.hasRecognizer
    case Tick(_) => s.capture.silenceTimerActive
    case Replied(k, _) => k < |s.pending|
    case RequestFailed(k) => k < |s.pending|
    case RestartTimeout => s.capture.pendingRestarts > 0
    case Started(id) => s.playback.activeUtterance.Some? && s.playback.activeUtterance.value.id == id
    case Ended(id) => id < s.playback.nextUtteranceId
    case Errored(id) => id < s.playback.nextUtteranceId
    case _ => true
  }

  /** The state after event `e`; an event that cannot occur leaves the state as it is. */
  function Step(s: State, e: Event): State {
    if !Enabled(s, e) then s
    else
      match e
      case Heard(k, results, now) => s.(capture := OnResult(s.capture, k, results, now))
      case StartClicked(now) => s.(capture := StartRecording(s.capture, now))
      case StopClicked => StopRecording(s)
      case Tick(now) => SilenceTick(s, now)
      case Typed(text) => s.(textInput := text)
      case Submitted => HandleSubmit(s)
      case Replied(k, reply) => ReplyArrived(s, k, reply)
      case RequestFailed(k) => ReplyFailed(s, k)
      case RestartTimeout => s.(capture := RestartFired(s.capture))
      case MuteSet(m) => SetMuted(s, m)
      case PersonaSet(p) => s.(persona := p)
      case Started(id) => s.(playback := UtteranceStarted(s.playback, id))
      case Ended(id) => s.(playback := UtteranceFinished(s.playback, id))
      case Errored(id) => s.(playback := UtteranceFinished(s.playback, id))
  }

  /** The state after a sequence of events, in order. */
  function Run(s: State, events: seq<Event>): State
    decreases |events|
  {
    if events == [] then s else Run(Step(s, events[0]), events[1..])
  }
}
