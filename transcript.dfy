/**
 * The state logic of the meeting transcript component
 * (app/components/dashboard/meeting/MeetingTranscript.tsx): the local
 * transcript, the recording flag, the error text and the lazily created
 * transcription service. Each `updateMeetingData` call is recorded in
 * `writes`; whether it succeeds is an input.
 */
module Transcript {
  import opened Wrappers
  import Ai
  import opened Capture

  /** One `updateMeetingData(eventId, { transcript })` call. */
  datatype Write = Write(eventId: string, transcript: seq<Segment>)

  const ClearFailedMessage := "Failed to clear transcript"
  const ToggleFailedMessage := "Failed to toggle recording"

  /** The updater of `handleTranscriptionUpdate`: `[...prev, ...newSegments]`. */
  function Appended(prev: seq<Segment>, newSegments: seq<Segment>): (r: seq<Segment>)
    ensures |r| == |prev| + |newSegments|
    ensures r[..|prev|] == prev && r[|prev|..] == newSegments
  {
    prev + newSegments
  }

  /** The segments of a run of callback calls, in order. */
  function Flatten(batches: seq<seq<Segment>>): seq<Segment>
  {
    if batches == [] then [] else batches[0] + Flatten(batches[1..])
  }

  /** The transcript after the callback has been called with each batch in turn. */
  function ApplyUpdates(transcript: seq<Segment>, batches: seq<seq<Segment>>): seq<Segment>
    decreases |batches|
  {
    if batches == [] then transcript else ApplyUpdates(Appended(transcript, batches[0]), batches[1..])
  }

  /**
   * Any run of updates keeps the earlier transcript as an unchanged prefix and
   * adds every new segment after it, in arrival order, with nothing dropped,
   * merged or reordered.
   */
  lemma {:induction false} ApplyUpdatesAppends(transcript: seq<Segment>, batches: seq<seq<Segment>>)
    ensures ApplyUpdates(transcript, batches) == transcript + Flatten(batches)
    decreases |batches|
  {
    if batches != [] {
      ApplyUpdatesAppends(transcript + batches[0], batches[1..]);
      assert transcript + batches[0] + Flatten(batches[1..]) == transcript + (batches[0] + Flatten(batches[1..]));
    }
  }

  /** The batches the service has handed to its update callback, in order. */
  function UpdatesIn(trace: seq<Effect>): (r: seq<seq<Segment>>)
    ensures |r| <= |trace|
  {
    if trace == [] then []
    else if trace[0].Update? then [trace[0].segments] + UpdatesIn(trace[1..])
    else UpdatesIn(trace[1..])
  }

  /** Updates collect across a trace that grows at its end. */
  lemma {:induction false} UpdatesInAppend(a: seq<Effect>, b: seq<Effect>)
    ensures UpdatesIn(a + b) == UpdatesIn(a) + UpdatesIn(b)
  {
    if a == [] {
      assert a + b == b;
    } else {
      var ab := a + b;
      assert ab[0] == a[0] && ab[1..] == a[1..] + b;
      UpdatesInAppend(a[1..], b);
      if a[0].Update? {
        assert UpdatesIn(ab) == [a[0].segments] + UpdatesIn(a[1..] + b);
        assert UpdatesIn(a) == [a[0].segments] + UpdatesIn(a[1..]);
      } else {
        assert UpdatesIn(ab) == UpdatesIn(a[1..] + b);
        assert UpdatesIn(a) == UpdatesIn(a[1..]);
      }
    }
  }

  /** Starting the next chunk hands the callback nothing. */
  lemma NextChunkHasNoBatches(mime: string, timer: nat)
    ensures UpdatesIn(NextChunk(mime, timer)) == []
  {
    var e := NextChunk(mime, timer);
    assert e[1..][1..] == [];
  }

  /**
   * The batches one chunk's effects hand the callback: with the buffer empty,
   * a single batch of one segment holding the transcription when the chunk is
   * sent and a transcription is emitted, and none otherwise.
   */
  lemma ChunkBatches(size: nat, transcription: Ai.Outcome<string>, now: string)
    ensures UpdatesIn(ChunkEffects([], size, transcription, now)) ==
      if size >= SilenceBytes && Emitted(transcription).Some? then [[Segment(Emitted(transcription).value, now)]] else []
  {
    var emitted := Emitted(transcription);
    if size >= SilenceBytes {
      var e := ChunkEffects([], size, transcription, now);
      assert e[0] == Transcribe(size) && e[1..] == UpdatesFor([], emitted, now);
      if emitted.Some? {
        EmptyBufferEmitsTranscription(emitted.value, now);
        assert e[1..][1..] == [];
      }
    }
  }

  /**
   * Across one stop handler, whatever follows the chunk's effects (a next
   * recorder and timer, or nothing), the callback's batches grow by exactly
   * the chunk's batch.
   */
  lemma HandlerBatches(before: seq<Effect>, size: nat, transcription: Ai.Outcome<string>, now: string, next: seq<Effect>)
    requires UpdatesIn(next) == []
    ensures UpdatesIn(before + ChunkEffects([], size, transcription, now) + next) ==
      UpdatesIn(before) + UpdatesIn(ChunkEffects([], size, transcription, now))
  {
    var chunk := ChunkEffects([], size, transcription, now);
    UpdatesInAppend(before + chunk, next);
    UpdatesInAppend(before, chunk);
  }

  /** The displayed error for a value `toggleRecording` caught. */
  function ToggleErrorText(thrown: Thrown): (r: string)
    ensures thrown.ErrorObject? ==> r == thrown.message
    ensures thrown.NonError? ==> r == ToggleFailedMessage
  {
    match thrown
    case ErrorObject(message) => message
    case NonError => ToggleFailedMessage
  }

  class MeetingTranscript {
    const eventId: string
    /** The browser's `MediaRecorder.isTypeSupported`, handed to the service it creates. */
    const isTypeSupported: string -> bool
    var localTranscript: seq<Segment>
    var isRecording: bool
    var error: Option<string>
    /** `transcriptionService.current`. */
    var transcriptionService: AudioTranscriptionService?
    /** Every `updateMeetingData` call made so far. */
    var writes: seq<Write>

    /** The objects the component's handlers may change. */
    function Repr(): set<object?>
      reads this, transcriptionService
    {
      {this, transcriptionService} + (if transcriptionService != null then {transcriptionService.mediaRecorder} else {})
    }

    /**
     * The service, once created, belongs to this component's browser, and the
     * component's recording flag agrees with the service's.
     */
    ghost predicate Valid()
      reads this, transcriptionService
    {
      && (isRecording ==> transcriptionService != null)
      && (transcriptionService != null ==>
            && transcriptionService.Valid()
            && (forall t :: transcriptionService.isTypeSupported(t) == isTypeSupported(t))
            && transcriptionService.isRecording == isRecording)
    }

    constructor(eventId: string, transcript: seq<Segment>, isTypeSupported: string -> bool)
      ensures this.eventId == eventId && this.isTypeSupported == isTypeSupported
      ensures localTranscript == transcript && !isRecording && error == None
      ensures transcriptionService == null && writes == []
      ensures Valid()
    {
      this.eventId := eventId;
      this.isTypeSupported := isTypeSupported;
      localTranscript := transcript;
      isRecording := false;
      error := None;
      transcriptionService := null;
      writes := [];
    }

    /** `handleTranscriptionUpdate`: the new segments go after the existing ones. */
    method HandleTranscriptionUpdate(newSegments: seq<Segment>)
      modifies this`localTranscript
      ensures localTranscript == Appended(old(localTranscript), newSegments)
    {
      localTranscript := Appended(localTranscript, newSegments);
    }

    /**
     * `saveTranscriptUpdate`: the write is attempted; `saved` says whether it
     * succeeded. A failure is only logged, so the outcome is deliberately
     * ignored and touches nothing.
     */
    method SaveTranscriptUpdate(newTranscript: seq<Segment>, saved: bool)
      modifies this`writes
      ensures writes == old(writes) + [Write(eventId, newTranscript)]
    {
      writes := writes + [Write(eventId, newTranscript)];
    }

    /**
     * `clearTranscript`: the local transcript becomes [] and [] is written for
     * the event. When the write succeeds a running recording is stopped; when
     * it fails the error is set and the recording is left alone.
     */
    method ClearTranscript(saved: bool)
      requires Valid()
      modifies Repr()
      ensures Valid()
      ensures localTranscript == [] && writes == old(writes) + [Write(eventId, [])]
      ensures transcriptionService == old(transcriptionService)
      ensures saved ==> !isRecording && error == old(error)
      ensures saved && old(isRecording) ==> transcriptionService.Stopped()
      ensures !saved ==> error == Some(ClearFailedMessage) && isRecording == old(isRecording)
      ensures !saved || !old(isRecording) ==> transcriptionService != null ==> unchanged(transcriptionService)
    {
      localTranscript := [];
      writes := writes + [Write(eventId, [])];
      if !saved {
        error := Some(ClearFailedMessage);
        return;
      }
      if isRecording && transcriptionService != null {
        transcriptionService.StopRecording();
        isRecording := false;
      }
    }

    /**
     * `toggleRecording`: the error is cleared first. When not recording, the
     * service is created if there is none yet (and reused otherwise) and
     * started: success sets the flag, a thrown value clears it and shows its
     * message, or "Failed to toggle recording" for a non-`Error`. When
     * recording, the service is stopped and the flag cleared.
     */
    method ToggleRecording(p: Platform)
      requires Valid()
      modifies Repr()
      ensures Valid()
      ensures old(transcriptionService) != null ==> transcriptionService == old(transcriptionService)
      ensures old(transcriptionService) == null ==> transcriptionService != null && fresh(transcriptionService)
      ensures old(localTranscript) == localTranscript && writes == old(writes)
      ensures !old(isRecording) ==>
        var failure := StartFailure(p, transcriptionService.isTypeSupported);
        && (isRecording <==> failure.None?)
        && error == (if failure.Some? then Some(ToggleErrorText(failure.value)) else None)
        && (failure.Some? ==> transcriptionService.Stopped())
      ensures old(isRecording) ==> !isRecording && error == None && transcriptionService.Stopped()
    {
      error := None;
      if !isRecording {
        if transcriptionService == null {
          transcriptionService := new AudioTranscriptionService(isTypeSupported);
        }
        var thrown := transcriptionService.StartRecording(p);
        if thrown.None? {
          isRecording := true;
        } else {
          error := Some(ToggleErrorText(thrown.value));
          isRecording := false;
        }
      } else {
        if transcriptionService != null {
          transcriptionService.StopRecording();
        }
        isRecording := false;
      }
    }
  }
}
