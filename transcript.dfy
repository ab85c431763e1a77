/**
  * The speech recognizer's `result` event and the running transcript the
  * recorder builds from it: the first alternative of every result from the
  * event's `resultIndex` to the end of its result list, joined in order.
  */
module Transcript {

  /** One recognition hypothesis for a stretch of audio. */
  datatype Alternative = Alternative(transcript: string, confidence: real)

  /**
    * One entry of the event's result list. The recognizer always gives at least
    * one alternative, so the first one is a field of its own.
    */
  datatype RecognitionResult = RecognitionResult(isFinal: bool, first: Alternative, others: seq<Alternative>)

  /** `results[i][0].transcript` for every entry, in order. */
  function FirstTranscripts(results: seq<RecognitionResult>): (ts: seq<string>)
    ensures |ts| == |results|
    ensures forall i :: 0 <= i < |results| ==> ts[i] == results[i].first.transcript
  {
    seq(|results|, i requires 0 <= i < |results| => results[i].first.transcript)
  }

  /** Left-to-right concatenation, the way `transcript += piece` builds it. */
  function Joined(pieces: seq<string>): string {
    if pieces == [] then "" else Joined(pieces[..|pieces| - 1]) + pieces[|pieces| - 1]
  }

  /** The text the `result` handler computes for an event: empty when `resultIndex` is past the end. */
  function Accumulated(resultIndex: nat, results: seq<RecognitionResult>): string {
    if resultIndex < |results| then Joined(FirstTranscripts(results[resultIndex..])) else ""
  }

  /**
    * The handler's loop (`for (i = resultIndex; i < results.length; i++) transcript += results[i][0].transcript`).
    */
  method Accumulate(resultIndex: nat, results: seq<RecognitionResult>) returns (transcript: string)
    ensures transcript == Accumulated(resultIndex, results)
  {
    transcript := "";
    var i := resultIndex;
    while i < |results|
      invariant resultIndex <= i
      invariant resultIndex < |results| ==> i <= |results|
      invariant |results| <= resultIndex ==> i == resultIndex
      invariant i == resultIndex ==> transcript == ""
      invariant resultIndex < |results| ==> transcript == Joined(FirstTranscripts(results[resultIndex..i]))
    {
      ghost var done := FirstTranscripts(results[resultIndex..i]);
      ghost var next := FirstTranscripts(results[resultIndex..i + 1]);
      assert next[..|next| - 1] == done;
      transcript := transcript + results[i].first.transcript;
      i := i + 1;
    }
    if resultIndex < |results| {
      assert results[resultIndex..i] == results[resultIndex..];
    }
  }

  /** An independent, right-to-left reading of the same text: piece `k`, then the rest. */
  function FromIndex(resultIndex: nat, results: seq<RecognitionResult>): string
    decreases |results| - resultIndex
  {
    if resultIndex < |results| then results[resultIndex].first.transcript + FromIndex(resultIndex + 1, results) else ""
  }

  lemma {:induction false} JoinedCons(head: string, tail: seq<string>)
    ensures Joined([head] + tail) == head + Joined(tail)
    decreases |tail|
  {
    if tail != [] {
      var all := [head] + tail;
      assert all[..|all| - 1] == [head] + tail[..|tail| - 1];
      JoinedCons(head, tail[..|tail| - 1]);
    } else {
      assert [head] + tail == [head];
      assert [head][..0] == [];
    }
  }

  /**
    * The loop's result equals the reference reading: it starts with the first
    * alternative of entry `resultIndex` and goes on with the following entries.
    */
  lemma {:induction false} AccumulatedMatchesReference(resultIndex: nat, results: seq<RecognitionResult>)
    ensures Accumulated(resultIndex, results) == FromIndex(resultIndex, results)
    decreases |results| - resultIndex
  {
    if resultIndex < |results| {
      AccumulatedMatchesReference(resultIndex + 1, results);
      var pieces := FirstTranscripts(results[resultIndex..]);
      assert pieces == [results[resultIndex].first.transcript] + pieces[1..];
      if resultIndex + 1 < |results| {
        assert pieces[1..] == FirstTranscripts(results[resultIndex + 1..]);
      } else {
        assert pieces[1..] == [];
      }
      JoinedCons(results[resultIndex].first.transcript, pieces[1..]);
    }
  }
}
