/**
  * Worked scenarios of the recorder, proved on the state machine: a quiet
  * period after "hello world", a typed message answered by the chat endpoint,
  * and the same message when the endpoint fails.
  */
module Scenarios {
  import opened Wrappers
  import opened Text
  import opened Turn
  import opened TurnProperties

  lemma TrimHelloWorld()
    ensures Trim("hello world") == "hello world"
  {
    var e: string := "";
    assert e + "hello world" + e == "hello world";
    TrimOfPadded(e, "hello world", e);
  }

  lemma TrimTestMessage()
    ensures Trim(" test message ") == "test message"
  {
    assert AllSpace(" ");
    assert " " + "test message" + " " == " test message ";
    TrimOfPadded(" ", "test message", " ");
  }

  /**
    * "hello world" heard at t = 0, then the interval ticks every 500 ms: the
    * ticks at 500, 1000 and 1500 do nothing, the tick at 2000 finalizes
    * "hello world", and the tick at 2500 finds nothing left.
    */
  lemma SilenceCutsOnceAtThreshold(s: State)
    requires Valid(s) && s.capture.isRecording
    requires s.capture.partialTranscript == "hello world" && s.capture.lastResultTime == 0
    ensures Run(s, [Tick(500), Tick(1000), Tick(1500)]) == s
    ensures var t := Run(s, [Tick(500), Tick(1000), Tick(1500), Tick(2000)]);
      && t.messages == s.messages + [Message(User, "hello world")]
      && t.pending == s.pending + [Request("hello world", s.persona)]
      && t.capture.partialTranscript == ""
    ensures Run(s, [Tick(500), Tick(1000), Tick(1500), Tick(2000), Tick(2500)]) ==
            Run(s, [Tick(500), Tick(1000), Tick(1500), Tick(2000)])
  {
    TrimHelloWorld();
    TrimEmpty();
    assert Step(s, Tick(500)) == s;
    assert Step(s, Tick(1000)) == s;
    assert Step(s, Tick(1500)) == s;
    var cut := Step(s, Tick(2000));
    SilenceTickSpec(s, 2000);
    assert cut == SilenceTick(s, 2000);
    assert Step(cut, Tick(2500)) == cut;
    assert Run(cut, [Tick(2500)]) == cut by {
      assert [Tick(2500)][1..] == [];
    }
    assert Run(s, [Tick(2000)]) == cut by {
      assert [Tick(2000)][1..] == [];
    }
    assert Run(s, [Tick(2000), Tick(2500)]) == cut by {
      assert [Tick(2000), Tick(2500)][1..] == [Tick(2500)];
    }
    assert [Tick(500), Tick(1000), Tick(1500)][1..] == [Tick(1000), Tick(1500)];
    assert [Tick(1000), Tick(1500)][1..] == [Tick(1500)];
    assert [Tick(1500)][1..] == [];
    assert [Tick(500), Tick(1000), Tick(1500), Tick(2000)][1..] == [Tick(1000), Tick(1500), Tick(2000)];
    assert [Tick(1000), Tick(1500), Tick(2000)][1..] == [Tick(1500), Tick(2000)];
    assert [Tick(1500), Tick(2000)][1..] == [Tick(2000)];
    assert [Tick(500), Tick(1000), Tick(1500), Tick(2000), Tick(2500)][1..]
        == [Tick(1000), Tick(1500), Tick(2000), Tick(2500)];
    assert [Tick(1000), Tick(1500), Tick(2000), Tick(2500)][1..] == [Tick(1500), Tick(2000), Tick(2500)];
    assert [Tick(1500), Tick(2000), Tick(2500)][1..] == [Tick(2000), Tick(2500)];
  }

  /**
    * " test message " typed and submitted, answered with "reply" while unmuted:
    * the conversation gains the trimmed user message and then the reply, and
    * the synthesizer's active utterance speaks "reply". The reply is handed to
    * playback twice (directly and by the effect on the conversation); the
    * second request cancels the first, so one utterance remains.
    */
  lemma TypedMessageSubmitted(s: State)
    requires Valid(s) && s.textInput == " test message "
    ensures HandleSubmit(s) == s.(textInput := "",
                                  messages := s.messages + [Message(User, "test message")],
                                  pending := s.pending + [Request("test message", s.persona)])
    ensures Valid(HandleSubmit(s))
  {
    TrimTestMessage();
    SubmitSpec(s);
  }

  lemma TypedMessageAnswered(s: State)
    requires Valid(s) && !s.playback.isMuted && s.playback.hasSynth && s.textInput == " test message "
    ensures |HandleSubmit(s).pending| == |s.pending| + 1
    ensures var answered := ReplyArrived(HandleSubmit(s), |s.pending|, "reply");
      && answered.messages == s.messages + [Message(User, "test message"), Message(Assistant, "reply")]
      && answered.pending == s.pending
      && answered.playback.activeUtterance == Some(Utterance(s.playback.nextUtteranceId + 1, "reply"))
  {
    TrimTestMessage();
    SubmittedAndAnswered(s, "test message", "reply");
  }

  /** Submitting input whose trimmed text is `message`, then receiving `reply` for it. */
  lemma SubmittedAndAnswered(s: State, message: string, reply: string)
    requires Valid(s) && !s.playback.isMuted && s.playback.hasSynth
    requires Trim(s.textInput) == message && message != ""
    ensures |HandleSubmit(s).pending| == |s.pending| + 1
    ensures var answered := ReplyArrived(HandleSubmit(s), |s.pending|, reply);
      && answered.messages == s.messages + [Message(User, message), Message(Assistant, reply)]
      && answered.pending == s.pending
      && answered.playback.activeUtterance == Some(Utterance(s.playback.nextUtteranceId + 1, reply))
  {
    var cleared := s.(textInput := "");
    assert HandleSubmit(s) == FinalizeChunk(cleared, message);
    FinalizeSpec(cleared, message);
    SuccessfulTurn(cleared, message, reply);
  }

  /**
    * The same message when the endpoint fails: only the user message is kept,
    * no request is left outstanding and nothing is spoken; the next submission
    * is accepted at once.
    */
  lemma TypedMessageFails(s: State, next: string)
    requires Valid(s) && s.textInput == " test message "
    requires Trim(next) != ""
    ensures |HandleSubmit(s).pending| == |s.pending| + 1
    ensures var failed := ReplyFailed(HandleSubmit(s), |s.pending|);
      && failed.messages == s.messages + [Message(User, "test message")]
      && failed.pending == s.pending
      && failed.playback == s.playback
      && HandleSubmit(failed.(textInput := next)).messages == failed.messages + [Message(User, Trim(next))]
  {
    TrimTestMessage();
    SubmitSpec(s);
    var submitted := HandleSubmit(s);
    ReplySpec(submitted, |s.pending|, "");
    FailedTurn(s.(textInput := ""), "test message");
    FinalizeSpec(s.(textInput := ""), "test message");
    assert submitted == FinalizeChunk(s.(textInput := ""), "test message");
    SubmitSpec(ReplyFailed(submitted, |s.pending|).(textInput := next));
  }
}
