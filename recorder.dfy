/**
  * The speech recorder component as an object: its state cells and refs are
  * fields, and every handler, effect and callback is a method that updates
  * them in place. Each event method leaves the object in the state the
  * matching function of module Turn gives, and keeps Turn.Valid.
  */
module Recorder {
  import opened Wrappers
  import Text
  import Transcript
  import Turn
  import TurnProperties

  class SpeechRecorder {
    /** `recognitionRef.current` is set: the browser offers speech recognition. */
    const hasRecognizer: bool
    /** `synth.current` is set: the browser offers speech synthesis and the mount effect got that far. */
    const hasSynth: bool

    var isRecording: bool
    var partialTranscript: string
    var lastResultTime: int
    var silenceTimerActive: bool
    var recognizerRunning: bool
    var pendingRestarts: nat
    var isSpeaking: bool
    var activeUtterance: Option<Turn.Utterance>
    var nextUtteranceId: nat
    var isMuted: bool
    var persona: Option<int>
    var messages: seq<Turn.Message>
    var pending: seq<Turn.Request>
    var textInput: string

    /** The object's state as a value of the state machine. */
    function Snapshot(): Turn.State
      reads this
    {
      Turn.State(
        Turn.Capture(hasRecognizer, isRecording, partialTranscript, lastResultTime, silenceTimerActive,
                     recognizerRunning, pendingRestarts),
        Turn.Playback(hasSynth, isMuted, isSpeaking, activeUtterance, nextUtteranceId),
        messages, pending, persona, textInput)
    }

    predicate Valid()
      reads this
    {
      Turn.Valid(Snapshot())
    }

    /** Mounting the component: the initialisation effect, then the playback effect on the initial conversation. */
    constructor (hasRecognizer: bool, synthAvailable: bool, isMuted: bool, persona: Option<int>, messages: seq<Turn.Message>)
      ensures Snapshot() == Turn.Mount(hasRecognizer, synthAvailable, isMuted, persona, messages)
      ensures Valid()
    {
      this.hasRecognizer := hasRecognizer;
      this.hasSynth := hasRecognizer && synthAvailable;
      isRecording := false;
      partialTranscript := "";
      lastResultTime := 0;
      silenceTimerActive := false;
      recognizerRunning := false;
      pendingRestarts := 0;
      isSpeaking := false;
      activeUtterance := None;
      nextUtteranceId := 0;
      this.isMuted := isMuted;
      this.persona := persona;
      this.messages := messages;
      pending := [];
      textInput := "";
      new;
      PlaybackEffect();
      TurnProperties.MountValid(hasRecognizer, synthAvailable, isMuted, persona, messages);
    }

    // -------------------------------------------------------------- playback

    method SpeakResponse(text: string)
      modifies this
      ensures Snapshot() == old(Snapshot()).(playback := Turn.SpeakResponse(old(Snapshot()).playback, text))
    {
      if !hasSynth || isMuted {
        isSpeaking := false;
        if hasSynth { activeUtterance := None; }
        return;
      }
      activeUtterance := Some(Turn.Utterance(nextUtteranceId, text));
      nextUtteranceId := nextUtteranceId + 1;
    }

    method PlaybackEffect()
      modifies this
      ensures Snapshot() == Turn.PlaybackEffect(old(Snapshot()))
    {
      if !isMuted && |messages| > 0 {
        var lastMessage := messages[|messages| - 1];
        if lastMessage.role == Turn.Assistant {
          SpeakResponse(lastMessage.content);
        }
      }
    }

    method SetMuted(muted: bool)
      requires Valid()
      modifies this
      ensures Snapshot() == Turn.SetMuted(old(Snapshot()), muted)
      ensures Valid()
    {
      ghost var before := Snapshot();
      if muted == isMuted { return; }
      isMuted := muted;
      if isMuted && hasSynth {
        activeUtterance := None;
        isSpeaking := false;
      }
      PlaybackEffect();
      TurnProperties.StepPreservesValid(before, Turn.MuteSet(muted));
    }

    method UtteranceStarted(id: nat)
      requires Valid() && activeUtterance.Some? && activeUtterance.value.id == id
      modifies this
      ensures Snapshot() == old(Snapshot()).(playback := Turn.UtteranceStarted(old(Snapshot()).playback, id))
      ensures Valid()
    {
      isSpeaking := true;
    }

    method UtteranceEnded(id: nat)
      requires Valid() && id < nextUtteranceId
      modifies this
      ensures Snapshot() == old(Snapshot()).(playback := Turn.UtteranceFinished(old(Snapshot()).playback, id))
      ensures Valid()
    {
      FinishUtterance(id);
    }

    method UtteranceErrored(id: nat)
      requires Valid() && id < nextUtteranceId
      modifies this
      ensures Snapshot() == old(Snapshot()).(playback := Turn.UtteranceFinished(old(Snapshot()).playback, id))
      ensures Valid()
    {
      FinishUtterance(id);
    }

    method FinishUtterance(id: nat)
      requires Valid() && id < nextUtteranceId
      modifies this
      ensures Snapshot() == old(Snapshot()).(playback := Turn.UtteranceFinished(old(Snapshot()).playback, id))
      ensures Valid()
    {
      isSpeaking := false;
      if activeUtterance.Some? && activeUtterance.value.id == id {
        activeUtterance := None;
      }
    }

    // --------------------------------------------------------------- capture

    method StartCheckSilence()
      modifies this
      ensures Snapshot() == old(Snapshot()).(capture := Turn.StartCheckSilence(old(Snapshot()).capture))
    {
      if silenceTimerActive { return; }
      silenceTimerActive := true;
    }

    method StopCheckSilence()
      modifies this
      ensures Snapshot() == old(Snapshot()).(capture := Turn.StopCheckSilence(old(Snapshot()).capture))
    {
      if silenceTimerActive {
        silenceTimerActive := false;
      }
    }

    method RecordingEffect(wasRecording: bool)
      modifies this
      ensures Snapshot() == old(Snapshot()).(capture := Turn.RecordingEffect(wasRecording, old(Snapshot()).capture))
    {
      if isRecording != wasRecording {
        if isRecording { StartCheckSilence(); } else { StopCheckSilence(); }
      }
    }

    method OnResult(resultIndex: nat, results: seq<Transcript.RecognitionResult>, now: int)
      requires Valid()
      modifies this
      ensures Snapshot() == old(Snapshot()).(capture := Turn.OnResult(old(Snapshot()).capture, resultIndex, results, now))
      ensures Valid()
    {
      lastResultTime := now;
      var transcript := Transcript.Accumulate(resultIndex, results);
      partialTranscript := transcript;
    }

    method StartRecording(now: int)
      requires Valid()
      modifies this
      ensures Snapshot() == old(Snapshot()).(capture := Turn.StartRecording(old(Snapshot()).capture, now))
      ensures Valid()
    {
      if !hasRecognizer { return; }
      var wasRecording := isRecording;
      partialTranscript := "";
      lastResultTime := now;
      recognizerRunning := true;
      isRecording := true;
      RecordingEffect(wasRecording);
    }

    method StopRecording()
      requires Valid()
      modifies this
      ensures Snapshot() == Turn.StopRecording(old(Snapshot()))
      ensures Valid()
    {
      ghost var before := Snapshot();
      if !hasRecognizer { return; }
      var wasRecording := isRecording;
      var chunk := Text.Trim(partialTranscript);
      recognizerRunning := false;
      isRecording := false;
      ghost var stopped := Snapshot();
      FinalizeTranscript(chunk);
      ghost var after := Snapshot();
      RecordingEffect(wasRecording);
      TurnProperties.StopRecordingSteps(before, stopped, after);
      TurnProperties.StopRecordingSpec(before);
    }

    method SilenceTick(now: int)
      requires Valid() && silenceTimerActive
      modifies this
      ensures Snapshot() == Turn.SilenceTick(old(Snapshot()), now)
      ensures Valid()
    {
      ghost var before := Snapshot();
      var diff := now - lastResultTime;
      var chunk := Text.Trim(partialTranscript);
      if diff >= Turn.SilenceThresholdMs && chunk != "" {
        partialTranscript := "";
        FinalizeChunk(chunk);
      }
      TurnProperties.SilenceTickSpec(before, now);
    }

    // ------------------------------------------------------------------ turn

    /** The part of `finalizeChunk` before its `await`: the user message, then the request. */
    method FinalizeChunk(chunk: string)
      modifies this
      ensures Snapshot() == Turn.FinalizeChunk(old(Snapshot()), chunk)
    {
      messages := messages + [Turn.Message(Turn.User, chunk)];
      pending := pending + [Turn.Request(chunk, persona)];
      PlaybackEffect();
    }

    /** The stop handler's finalization: a chunk with content is finalized, then the transcript is cleared. */
    method FinalizeTranscript(chunk: string)
      modifies this
      ensures Snapshot() == if chunk != "" then Turn.ClearTranscript(Turn.FinalizeChunk(old(Snapshot()), chunk)) else old(Snapshot())
    {
      if chunk != "" {
        FinalizeChunk(chunk);
        partialTranscript := "";
      }
    }

    method RestartAfterTurn()
      modifies this
      ensures Snapshot() == old(Snapshot()).(capture := Turn.RestartAfterTurn(old(Snapshot()).capture))
    {
      if hasRecognizer && isRecording {
        recognizerRunning := false;
        pendingRestarts := pendingRestarts + 1;
      }
    }

    method ReplyArrived(k: nat, reply: string)
      requires Valid() && k < |pending|
      modifies this
      ensures Snapshot() == Turn.ReplyArrived(old(Snapshot()), k, reply)
      ensures Valid()
    {
      ghost var before := Snapshot();
      pending := pending[..k] + pending[k + 1..];
      messages := messages + [Turn.Message(Turn.Assistant, reply)];
      ghost var answered := Snapshot();
      assert answered == before.(pending := Turn.Remove(before.pending, k),
                                 messages := before.messages + [Turn.Message(Turn.Assistant, reply)]);
      if !isMuted {
        SpeakResponse(reply);
      }
      RestartAfterTurn();
      ghost var restarted := Snapshot();
      assert restarted.playback == if !answered.playback.isMuted then Turn.SpeakResponse(answered.playback, reply) else answered.playback;
      PlaybackEffect();
      TurnProperties.StepPreservesValid(before, Turn.Replied(k, reply));
    }

    method ReplyFailed(k: nat)
      requires Valid() && k < |pending|
      modifies this
      ensures Snapshot() == Turn.ReplyFailed(old(Snapshot()), k)
      ensures Valid()
    {
      pending := pending[..k] + pending[k + 1..];
      RestartAfterTurn();
    }

    method RestartFired()
      requires Valid() && pendingRestarts > 0
      modifies this
      ensures Snapshot() == old(Snapshot()).(capture := Turn.RestartFired(old(Snapshot()).capture))
      ensures Valid()
    {
      pendingRestarts := pendingRestarts - 1;
      if isRecording && hasRecognizer {
        recognizerRunning := true;
      }
    }

    method SetTextInput(text: string)
      requires Valid()
      modifies this
      ensures Snapshot() == old(Snapshot()).(textInput := text)
      ensures Valid()
    {
      textInput := text;
    }

    method HandleSubmit()
      requires Valid()
      modifies this
      ensures Snapshot() == Turn.HandleSubmit(old(Snapshot()))
      ensures Valid()
    {
      ghost var before := Snapshot();
      var message := Text.Trim(textInput);
      if message == "" { return; }
      textInput := "";
      ghost var cleared := Snapshot();
      FinalizeChunk(message);
      TurnProperties.FinalizeSpec(cleared, message);
    }

    method SetPersona(p: Option<int>)
      requires Valid()
      modifies this
      ensures Snapshot() == old(Snapshot()).(persona := p)
      ensures Valid()
    {
      persona := p;
    }
  }
}
