/**
 * The chunked audio capture of app/utils/audioTranscription.ts. Media
 * streams, recorders and timers are opaque handles; what the service asks of
 * the browser and of the application (start or stop a recorder, set or clear
 * a timer, stop a stream's tracks, send a chunk for transcription, hand
 * segments to the update callback) is appended to a `trace` of effects.
 * Browser events (a data fragment, a recorder's stop event, the 6 s timer)
 * are methods the environment calls.
 */
module Capture {
  import opened Wrappers
  import opened Strings
  import Ai

  /** A `MediaStream`. */
  datatype Stream = Stream(id: nat)

  /** A `setTimeout` handle. */
  datatype Timer = Timer(id: nat)

  /** A `TranscriptionSegment`; the timestamp is supplied by the caller. */
  datatype Segment = Segment(text: string, timestamp: string)

  /** A thrown value: an `Error` with its message, or something that is not an `Error`. */
  datatype Thrown = ErrorObject(message: string) | NonError

  /** How a `getDisplayMedia` or `getUserMedia` promise settled. */
  datatype Acquire = Granted(stream: Stream) | Denied(reason: Thrown)

  /**
   * What the browser offers to one `startRecording` call: the two feature
   * checks, the two media requests, and the stream the audio graph mixes them into.
   */
  datatype Platform = Platform(hasGetUserMedia: bool, hasMediaRecorder: bool,
                               display: Acquire, mic: Acquire, mixed: Stream)

  /** `MediaRecorder.state`, as far as the service looks at it. */
  datatype RecorderState = Recording | Inactive

  /** One request to the outside world, in the order the service makes it. */
  datatype Effect =
    | StartRecorder(mimeType: string, audioBitsPerSecond: nat)
    | SetTimer(timer: Timer, delayMillis: nat)
    | StopRecorder
    | ClearTimer(cleared: Timer)
    | StopTracks(of: Stream)
    | Transcribe(blobSize: nat)
    | Update(segments: seq<Segment>)

  /** The recording formats in order of preference. */
  const MimeTypes: seq<string> := ["audio/webm;codecs=opus", "audio/webm", "audio/ogg;codecs=opus",
                                   "audio/mp4", "audio/aac", "audio/wav"]

  const NoFormatMessage := "No supported audio format found."
  const NoGetUserMediaMessage := "Browser doesn't support getUserMedia."
  const NoMediaRecorderMessage := "MediaRecorder API not supported."

  /** The length of one chunk, after which the timer stops the recorder. */
  const ChunkMillis: nat := 6000
  const BitsPerSecond: nat := 128000
  /** Chunks below this many bytes are taken for silence. */
  const SilenceBytes: nat := 8000

  /** `types[k]` is the first supported entry of `types`. */
  predicate FirstSupportedAt(types: seq<string>, supported: string -> bool, k: int)
  {
    0 <= k < |types| && supported(types[k]) && forall i :: 0 <= i < k ==> !supported(types[i])
  }

  /** The first entry of `types` that `supported` accepts, or None when there is none. */
  function FirstSupported(types: seq<string>, supported: string -> bool): Option<string>
  {
    if types == [] then None
    else if supported(types[0]) then Some(types[0])
    else FirstSupported(types[1..], supported)
  }

  /** The lookup fails exactly when no entry is supported, and otherwise finds a supported entry. */
  lemma {:induction false} FirstSupportedFound(types: seq<string>, supported: string -> bool)
    ensures var r := FirstSupported(types, supported);
            && (r.None? <==> forall i :: 0 <= i < |types| ==> !supported(types[i]))
            && (r.Some? ==> r.value in types && supported(r.value))
  {
    if types != [] && !supported(types[0]) {
      FirstSupportedFound(types[1..], supported);
      assert forall i :: 1 <= i < |types| ==> types[i] == types[1..][i - 1];
    }
  }

  /** The lookup picks the supported entry with no supported entry before it. */
  lemma {:induction false} FirstSupportedIsFirst(types: seq<string>, supported: string -> bool, k: int)
    requires FirstSupportedAt(types, supported, k)
    ensures FirstSupported(types, supported) == Some(types[k])
  {
    if k > 0 {
      assert !supported(types[0]);
      assert FirstSupportedAt(types[1..], supported, k - 1);
      FirstSupportedIsFirst(types[1..], supported, k - 1);
    }
  }

  /** `checkBrowserSupport`: the first missing API, as the error it throws. */
  function CheckBrowserSupport(p: Platform): (r: Option<Thrown>)
    ensures r.None? <==> p.hasGetUserMedia && p.hasMediaRecorder
    ensures !p.hasGetUserMedia ==> r == Some(ErrorObject(NoGetUserMediaMessage))
    ensures p.hasGetUserMedia && !p.hasMediaRecorder ==> r == Some(ErrorObject(NoMediaRecorderMessage))
  {
    if !p.hasGetUserMedia then Some(ErrorObject(NoGetUserMediaMessage))
    else if !p.hasMediaRecorder then Some(ErrorObject(NoMediaRecorderMessage))
    else None
  }

  /** The display stream is requested and granted. */
  predicate DisplayGranted(p: Platform)
  {
    CheckBrowserSupport(p).None? && p.display.Granted?
  }

  /** Both streams are requested and granted, so the mixed stream is built. */
  predicate BothGranted(p: Platform)
  {
    DisplayGranted(p) && p.mic.Granted?
  }

  /** What `startRecording` rethrows on `p`; None when it returns normally. */
  function StartFailure(p: Platform, supported: string -> bool): (r: Option<Thrown>)
    ensures r.None? <==> BothGranted(p) && FirstSupported(MimeTypes, supported).Some?
    ensures CheckBrowserSupport(p).Some? ==> r == CheckBrowserSupport(p)
    ensures CheckBrowserSupport(p).None? && p.display.Denied? ==> r == Some(p.display.reason)
    ensures DisplayGranted(p) && p.mic.Denied? ==> r == Some(p.mic.reason)
    ensures BothGranted(p) && FirstSupported(MimeTypes, supported).None? ==> r == Some(ErrorObject(NoFormatMessage))
  {
    if CheckBrowserSupport(p).Some? then CheckBrowserSupport(p)
    else if p.display.Denied? then Some(p.display.reason)
    else if p.mic.Denied? then Some(p.mic.reason)
    else if FirstSupported(MimeTypes, supported).None? then Some(ErrorObject(NoFormatMessage))
    else None
  }

  /** The display stream held after the requests of `p`: the granted one, or whatever was held before. */
  function DisplayAfter(p: Platform, held: Option<Stream>): Option<Stream>
  {
    if DisplayGranted(p) then Some(p.display.stream) else held
  }

  function MicAfter(p: Platform, held: Option<Stream>): Option<Stream>
  {
    if BothGranted(p) then Some(p.mic.stream) else held
  }

  function MixedAfter(p: Platform, held: Option<Stream>): Option<Stream>
  {
    if BothGranted(p) then Some(p.mixed) else held
  }

  function TracksOf(held: Option<Stream>): seq<Effect>
  {
    if held.Some? then [StopTracks(held.value)] else []
  }

  /**
   * The effects of `stopRecording`, in its order: stop a live recorder, clear
   * the timer, then stop the tracks of the display, the microphone and the
   * mixed stream, each of them only when held.
   */
  function Released(recorderLive: bool, timer: Option<Timer>, display: Option<Stream>,
                    mic: Option<Stream>, mixed: Option<Stream>): (r: seq<Effect>)
    ensures r == [] <==> !recorderLive && timer.None? && display.None? && mic.None? && mixed.None?
    ensures |r| <= 5
  {
    (if recorderLive then [StopRecorder] else [])
    + (if timer.Some? then [ClearTimer(timer.value)] else [])
    + TracksOf(display) + TracksOf(mic) + TracksOf(mixed)
  }

  function Count(held: Option<Stream>, s: Stream): nat
  {
    if held == Some(s) then 1 else 0
  }

  /** How many entries of `effects` are `e`. */
  function Occurrences(effects: seq<Effect>, e: Effect): (n: nat)
    ensures n <= |effects|
  {
    if effects == [] then 0 else (if effects[0] == e then 1 else 0) + Occurrences(effects[1..], e)
  }

  /** The count is zero exactly when the effect is absent. */
  lemma {:induction false} OccurrencesZeroIffAbsent(effects: seq<Effect>, e: Effect)
    ensures Occurrences(effects, e) == 0 <==> e !in effects
  {
    if effects != [] {
      OccurrencesZeroIffAbsent(effects[1..], e);
      assert effects == [effects[0]] + effects[1..];
    }
  }

  /** Counting distributes over concatenation. */
  lemma {:induction false} OccurrencesAppend(a: seq<Effect>, b: seq<Effect>, e: Effect)
    ensures Occurrences(a + b, e) == Occurrences(a, e) + Occurrences(b, e)
  {
    if a != [] {
      OccurrencesAppend(a[1..], b, e);
      var ab := a + b;
      assert ab[0] == a[0] && ab[1..] == a[1..] + b;
      assert Occurrences(ab, e) == (if a[0] == e then 1 else 0) + Occurrences(a[1..] + b, e);
    } else {
      assert a + b == b;
    }
  }

  lemma OccurrencesOne(x: Effect, e: Effect)
    ensures Occurrences([x], e) == if x == e then 1 else 0
  {
    assert [x][1..] == [];
  }

  /** Counting over five concatenated pieces. */
  lemma OccurrencesFive(p: seq<Effect>, q: seq<Effect>, r: seq<Effect>, s: seq<Effect>, t: seq<Effect>, e: Effect)
    ensures Occurrences(p + q + r + s + t, e)
            == Occurrences(p, e) + Occurrences(q, e) + Occurrences(r, e) + Occurrences(s, e) + Occurrences(t, e)
  {
    OccurrencesAppend(p + q + r + s, t, e);
    OccurrencesAppend(p + q + r, s, e);
    OccurrencesAppend(p + q, r, e);
    OccurrencesAppend(p, q, e);
  }

  /** The tracks of a held stream are stopped once; nothing else is among them. */
  lemma OccurrencesInTracks(held: Option<Stream>, e: Effect)
    ensures Occurrences(TracksOf(held), e) == if held.Some? && e == StopTracks(held.value) then 1 else 0
  {
    if held.Some? {
      OccurrencesOne(StopTracks(held.value), e);
    }
  }

  /** The count of `e` among released effects, piece by piece. */
  lemma ReleasedSplits(recorderLive: bool, timer: Option<Timer>, display: Option<Stream>,
                       mic: Option<Stream>, mixed: Option<Stream>, e: Effect)
    ensures Occurrences(Released(recorderLive, timer, display, mic, mixed), e)
            == (if recorderLive && e == StopRecorder then 1 else 0)
               + (if timer.Some? && e == ClearTimer(timer.value) then 1 else 0)
               + (if display.Some? && e == StopTracks(display.value) then 1 else 0)
               + (if mic.Some? && e == StopTracks(mic.value) then 1 else 0)
               + (if mixed.Some? && e == StopTracks(mixed.value) then 1 else 0)
  {
    var a: seq<Effect> := if recorderLive then [StopRecorder] else [];
    var b: seq<Effect> := if timer.Some? then [ClearTimer(timer.value)] else [];
    OccurrencesFive(a, b, TracksOf(display), TracksOf(mic), TracksOf(mixed), e);
    OccurrencesOne(StopRecorder, e);
    if timer.Some? {
      OccurrencesOne(ClearTimer(timer.value), e);
    }
    OccurrencesInTracks(display, e);
    OccurrencesInTracks(mic, e);
    OccurrencesInTracks(mixed, e);
  }

  /**
   * Releasing stops a live recorder once, clears the timer once, and stops the
   * tracks of a stream once for every field that holds it.
   */
  lemma ReleasedStopsEachHeldOnce(recorderLive: bool, timer: Option<Timer>, display: Option<Stream>,
                                  mic: Option<Stream>, mixed: Option<Stream>, s: Stream)
    ensures var r := Released(recorderLive, timer, display, mic, mixed);
            && Occurrences(r, StopTracks(s)) == Count(display, s) + Count(mic, s) + Count(mixed, s)
            && Occurrences(r, StopRecorder) == (if recorderLive then 1 else 0)
            && (timer.Some? ==> Occurrences(r, ClearTimer(timer.value)) == 1)
  {
    ReleasedSplits(recorderLive, timer, display, mic, mixed, StopTracks(s));
    ReleasedSplits(recorderLive, timer, display, mic, mixed, StopRecorder);
    if timer.Some? {
      ReleasedSplits(recorderLive, timer, display, mic, mixed, ClearTimer(timer.value));
    }
  }

  /** The size of the `Blob` built from the collected fragments. */
  function Sum(sizes: seq<nat>): nat
  {
    if sizes == [] then 0 else sizes[0] + Sum(sizes[1..])
  }

  /**
   * The text the stop handler buffers for what `transcribeAudio` gave it:
   * only a returned string that is truthy and not blank after `trim`; a
   * thrown error is swallowed.
   */
  function Emitted(outcome: Ai.Outcome<string>): (r: Option<string>)
    ensures r.Some? <==> outcome.Returned? && !Blank(outcome.value)
    ensures r.Some? ==> r.value == outcome.value
  {
    if outcome.Returned? && outcome.value != [] && Trim(outcome.value) != [] then Some(outcome.value) else None
  }

  /**
   * For the outcomes `transcribeAudio` can produce, the second `trim` check
   * adds nothing: a transcription is emitted iff one was returned and it is
   * not "", and what is emitted is trimmed and free of "unable to transcribe".
   */
  lemma EmittedTranscription(aiEnabled: bool, reply: Ai.ModelReply)
    ensures var t := Ai.TranscribeAudio(aiEnabled, reply);
            var r := Emitted(t);
            && (r.Some? <==> t.Returned? && t.value != [])
            && (r.Some? ==> Trim(r.value) == r.value && !Contains(Lower(r.value), Ai.UnableMarker))
            && (!aiEnabled ==> r.None?)
  {
    var t := Ai.TranscribeAudio(aiEnabled, reply);
    if t.Returned? && t.value != [] {
      assert Trim(t.value) == t.value;
    }
  }

  /** The update callback's call when a transcription is emitted: one segment holding the joined buffer. */
  function UpdatesFor(buffer: seq<string>, emitted: Option<string>, now: string): seq<Effect>
  {
    if emitted.Some? then [Update([Segment(Join(buffer + [emitted.value], " "), now)])] else []
  }

  /** With an empty buffer the one emitted segment holds exactly the new transcription. */
  lemma EmptyBufferEmitsTranscription(text: string, now: string)
    ensures UpdatesFor([], Some(text), now) == [Update([Segment(text, now)])]
  {
    assert [] + [text] == [text];
  }

  /**
   * What the stop handler asks for a chunk of `size` bytes that got past the
   * format lookup: nothing for a silent chunk, else the transcription call
   * and the update it leads to.
   */
  function ChunkEffects(buffer: seq<string>, size: nat, transcription: Ai.Outcome<string>, now: string): seq<Effect>
  {
    if size >= SilenceBytes then [Transcribe(size)] + UpdatesFor(buffer, Emitted(transcription), now) else []
  }

  /** What starting the next chunk asks for: a recorder in `mime`, and the 6 s timer numbered `timer`. */
  function NextChunk(mime: string, timer: nat): seq<Effect>
  {
    [StartRecorder(mime, BitsPerSecond), SetTimer(Timer(timer), ChunkMillis)]
  }

  /** A `MediaRecorder` together with the `chunks` array its `ondataavailable` handler fills. */
  class ChunkRecorder {
    const mimeType: string
    var state: RecorderState
    /** The sizes of the collected fragments. */
    var chunks: seq<nat>

    /** Only non-empty fragments are ever collected. */
    predicate Valid()
      reads this
    {
      forall i :: 0 <= i < |chunks| ==> chunks[i] > 0
    }

    constructor(mimeType: string)
      ensures this.mimeType == mimeType && state == Inactive && chunks == [] && Valid()
    {
      this.mimeType := mimeType;
      state := Inactive;
      chunks := [];
    }

    /** `start()`. */
    method Start()
      modifies this`state
      ensures state == Recording
    {
      state := Recording;
    }

    /** `stop()`: a recording recorder becomes inactive; an inactive one stays so. */
    method Stop()
      modifies this`state
      ensures state == Inactive
    {
      if state == Recording {
        state := Inactive;
      }
    }

    /** `ondataavailable`: the fragment is kept iff its size is positive. */
    method OnDataAvailable(size: nat)
      requires Valid()
      modifies this`chunks
      ensures Valid()
      ensures chunks == old(chunks) + (if size > 0 then [size] else [])
    {
      if size > 0 {
        chunks := chunks + [size];
      }
    }
  }

  class AudioTranscriptionService {
    /** `MediaRecorder.isTypeSupported`. */
    const isTypeSupported: string -> bool
    var mediaRecorder: ChunkRecorder?
    var stream: Option<Stream>
    var displayStream: Option<Stream>
    var micStream: Option<Stream>
    var isRecording: bool
    var recordingTimer: Option<Timer>
    var transcriptBuffer: seq<string>
    /** Everything asked of the outside world so far. */
    var trace: seq<Effect>
    /** How many timers have been set; the next one gets this number. */
    var timersIssued: nat

    /**
     * The buffer is empty between handlers, recording implies a mixed stream,
     * and a pending timer belongs to a recorder.
     */
    predicate Valid()
      reads this
    {
      && transcriptBuffer == []
      && (isRecording ==> stream.Some?)
      && (recordingTimer.Some? ==> mediaRecorder != null)
    }

    /** The state `stopRecording` leaves: nothing held, not recording. */
    predicate Stopped()
      reads this
    {
      && !isRecording && mediaRecorder == null && recordingTimer.None?
      && displayStream.None? && micStream.None? && stream.None?
    }

    /** Whether the current recorder is recording. */
    predicate RecorderLive()
      reads this, mediaRecorder
    {
      mediaRecorder != null && mediaRecorder.state == Recording
    }

    /**
     * A recorder has just been started in format `mime` with timer number
     * `issued`, after the effects `before`: it is recording, holds no
     * fragment yet, its 6 s timer is pending and both were asked for.
     */
    predicate Launched(mime: string, issued: nat, before: seq<Effect>)
      reads this, mediaRecorder
    {
      && mediaRecorder != null
      && mediaRecorder.mimeType == mime && mediaRecorder.state == Recording && mediaRecorder.chunks == []
      && recordingTimer == Some(Timer(issued)) && timersIssued == issued + 1
      && trace == before + NextChunk(mime, issued)
    }

    constructor(isTypeSupported: string -> bool)
      ensures this.isTypeSupported == isTypeSupported
      ensures Stopped() && Valid() && trace == [] && timersIssued == 0
    {
      this.isTypeSupported := isTypeSupported;
      mediaRecorder := null;
      stream := None;
      displayStream := None;
      micStream := None;
      isRecording := false;
      recordingTimer := None;
      transcriptBuffer := [];
      trace := [];
      timersIssued := 0;
    }

    /** `getSupportedMimeType`; None where it throws "No supported audio format found.". */
    method GetSupportedMimeType() returns (mime: Option<string>)
      ensures mime == FirstSupported(MimeTypes, isTypeSupported)
    {
      for i := 0 to |MimeTypes|
        invariant FirstSupported(MimeTypes[i..], isTypeSupported) == FirstSupported(MimeTypes, isTypeSupported)
      {
        assert MimeTypes[i..][0] == MimeTypes[i] && MimeTypes[i..][1..] == MimeTypes[i + 1..];
        if isTypeSupported(MimeTypes[i]) {
          return Some(MimeTypes[i]);
        }
      }
      assert MimeTypes[|MimeTypes|..] == [];
      return None;
    }

    /** A fresh recorder in format `mime` is started and its 6 s timer set. */
    method Launch(mime: string)
      modifies this`mediaRecorder, this`recordingTimer, this`timersIssued, this`trace
      ensures mediaRecorder != null && fresh(mediaRecorder) && Launched(mime, old(timersIssued), old(trace))
    {
      var rec := new ChunkRecorder(mime);
      rec.Start();
      mediaRecorder := rec;
      var timer := Timer(timersIssued);
      timersIssued := timersIssued + 1;
      recordingTimer := Some(timer);
      trace := trace + [StartRecorder(mime, BitsPerSecond), SetTimer(timer, ChunkMillis)];
    }

    /**
     * `startNewRecorder`: with a mixed stream and a supported format, a fresh
     * recorder is started and a 6 s timer is set; with no stream nothing
     * happens; with no format it throws before creating anything.
     */
    method StartNewRecorder() returns (thrown: Option<Thrown>)
      requires Valid()
      modifies this`mediaRecorder, this`recordingTimer, this`timersIssued, this`trace
      ensures Valid()
      ensures old(stream).None? || FirstSupported(MimeTypes, isTypeSupported).None? ==> unchanged(this)
      ensures thrown.Some? <==> old(stream).Some? && FirstSupported(MimeTypes, isTypeSupported).None?
      ensures thrown.Some? ==> thrown == Some(ErrorObject(NoFormatMessage))
      ensures old(stream).Some? && FirstSupported(MimeTypes, isTypeSupported).Some? ==>
        var mime := FirstSupported(MimeTypes, isTypeSupported).value;
        && mediaRecorder != null && fresh(mediaRecorder) && Launched(mime, old(timersIssued), old(trace))
    {
      thrown := None;
      if stream.None? {
        return;
      }
      var mime := GetSupportedMimeType();
      if mime.None? {
        thrown := Some(ErrorObject(NoFormatMessage));
        return;
      }
      Launch(mime.value);
    }

    /** The 6 s timer fires: the current recorder, if any, is stopped. */
    method OnTimer()
      modifies this`trace, mediaRecorder
      ensures old(mediaRecorder) == null ==> trace == old(trace)
      ensures old(mediaRecorder) != null ==>
        && mediaRecorder.state == Inactive && mediaRecorder.chunks == old(mediaRecorder.chunks)
        && trace == old(trace) + [StopRecorder]
    {
      if mediaRecorder != null {
        mediaRecorder.Stop();
        trace := trace + [StopRecorder];
      }
    }

    /**
     * The chunk of `size` bytes is sent to `transcribeAudio`, then the `try`
     * block after the awaited call runs: a usable transcription is pushed to
     * the buffer, the joined buffer is handed to the update callback as one
     * segment, and the buffer is reset.
     */
    method Deliver(size: nat, transcription: Ai.Outcome<string>, now: string)
      requires size >= SilenceBytes
      modifies this`transcriptBuffer, this`trace
      ensures transcriptBuffer == (if Emitted(transcription).Some? then [] else old(transcriptBuffer))
      ensures trace == old(trace) + ChunkEffects(old(transcriptBuffer), size, transcription, now)
    {
      var effects := [Transcribe(size)];
      var emitted := Emitted(transcription);
      if emitted.Some? {
        transcriptBuffer := transcriptBuffer + [emitted.value];
        effects := effects + [Update([Segment(Join(transcriptBuffer, " "), now)])];
        transcriptBuffer := [];
      }
      trace := trace + effects;
    }

    /** The last step of the stop handler: while the service is recording, the next recorder starts. */
    method ContinueChain()
      requires Valid() && FirstSupported(MimeTypes, isTypeSupported).Some?
      modifies this`mediaRecorder, this`recordingTimer, this`timersIssued, this`trace
      ensures Valid()
      ensures !old(isRecording) ==> unchanged(this)
      ensures old(isRecording) ==>
        && mediaRecorder != null && fresh(mediaRecorder)
        && Launched(FirstSupported(MimeTypes, isTypeSupported).value, old(timersIssued), old(trace))
    {
      if isRecording {
        var _ := StartNewRecorder();
      }
    }

    /**
     * The `onstop` handler of the recorder `rec`, given what the awaited
     * `transcribeAudio` call produced (`Ai.TranscribeAudio` of the client and
     * the model's reply) and the clock as `now`. A format lookup that throws,
     * or a chunk under 8000 bytes, ends the handler at once: no transcription
     * and no next recorder. Otherwise the chunk is sent; a usable
     * transcription is buffered, emitted as one segment and the buffer reset;
     * a failure is swallowed; and the next recorder starts iff the service is
     * still recording.
     */
    method OnStop(rec: ChunkRecorder, transcription: Ai.Outcome<string>, now: string)
      requires Valid()
      modifies this`mediaRecorder, this`recordingTimer, this`timersIssued, this`trace, this`transcriptBuffer
      ensures Valid()
      ensures !Sent(rec) ==> unchanged(this)
      ensures Sent(rec) ==>
        var sent := old(trace) + ChunkEffects(old(transcriptBuffer), Sum(rec.chunks), transcription, now);
        && (old(isRecording) ==>
              && mediaRecorder != null && fresh(mediaRecorder)
              && Launched(FirstSupported(MimeTypes, isTypeSupported).value, old(timersIssued), sent))
        && (!old(isRecording) ==>
              && trace == sent && mediaRecorder == old(mediaRecorder)
              && recordingTimer == old(recordingTimer) && timersIssued == old(timersIssued))
      ensures unchanged(this`stream, this`displayStream, this`micStream, this`isRecording)
    {
      var mime := GetSupportedMimeType();
      if mime.None? {
        return;
      }
      var size := Sum(rec.chunks);
      if size < SilenceBytes {
        return;
      }
      Deliver(size, transcription, now);
      ContinueChain();
    }

    /**
     * `stopRecording`: releases everything it holds, in order, and leaves the
     * stopped state; on a stopped service it asks nothing of the outside world.
     */
    method StopRecording()
      modifies this, mediaRecorder
      ensures Stopped()
      ensures trace == old(trace) + Released(old(RecorderLive()), old(recordingTimer), old(displayStream),
                                             old(micStream), old(stream))
      ensures old(Stopped()) ==> trace == old(trace)
      ensures old(mediaRecorder) != null ==>
        && old(mediaRecorder).chunks == old(mediaRecorder.chunks)
        && old(mediaRecorder).state == (if old(RecorderLive()) then Inactive else old(mediaRecorder.state))
      ensures unchanged(this`transcriptBuffer, this`timersIssued)
      ensures old(Valid()) ==> Valid()
    {
      ghost var live := RecorderLive();
      var stopped: seq<Effect> := [];
      isRecording := false;
      if mediaRecorder != null && mediaRecorder.state == Recording {
        mediaRecorder.Stop();
        stopped := [StopRecorder];
      }
      var cleared: seq<Effect> := [];
      if recordingTimer.Some? {
        cleared := [ClearTimer(recordingTimer.value)];
        recordingTimer := None;
      }
      var released := stopped + cleared + TracksOf(displayStream) + TracksOf(micStream) + TracksOf(stream);
      assert released == Released(live, old(recordingTimer), displayStream, micStream, stream);
      trace := trace + released;
      displayStream := None;
      micStream := None;
      stream := None;
      mediaRecorder := null;
    }

    /**
     * The first steps of `startRecording`'s `try` block: the support check,
     * the display request, the microphone request and the mixed stream, each
     * only when the one before it succeeded. It returns the first error; the
     * streams granted before it are still held.
     */
    method RequestStreams(p: Platform) returns (thrown: Option<Thrown>)
      requires Valid()
      modifies this`displayStream, this`micStream, this`stream, this`isRecording
      ensures Valid()
      ensures thrown.None? <==> BothGranted(p)
      ensures thrown.Some? ==> thrown == StartFailure(p, isTypeSupported)
      ensures displayStream == DisplayAfter(p, old(displayStream))
      ensures micStream == MicAfter(p, old(micStream)) && stream == MixedAfter(p, old(stream))
      ensures isRecording == (BothGranted(p) || old(isRecording))
    {
      thrown := CheckBrowserSupport(p);
      if thrown.Some? {
        return;
      }
      if p.display.Denied? {
        thrown := Some(p.display.reason);
        return;
      }
      displayStream := Some(p.display.stream);
      if p.mic.Denied? {
        thrown := Some(p.mic.reason);
        return;
      }
      micStream := Some(p.mic.stream);
      stream := Some(p.mixed);
      isRecording := true;
    }

    /** The whole `try` block of `startRecording`: the streams, then the first recorder. */
    method AcquireAndStart(p: Platform) returns (thrown: Option<Thrown>)
      requires Valid()
      modifies this
      ensures Valid()
      ensures thrown == StartFailure(p, isTypeSupported)
      ensures displayStream == DisplayAfter(p, old(displayStream))
      ensures micStream == MicAfter(p, old(micStream)) && stream == MixedAfter(p, old(stream))
      ensures thrown.Some? ==>
        && mediaRecorder == old(mediaRecorder) && recordingTimer == old(recordingTimer)
        && trace == old(trace) && timersIssued == old(timersIssued)
      ensures thrown.None? ==>
        var mime := FirstSupported(MimeTypes, isTypeSupported).value;
        && isRecording
        && mediaRecorder != null && fresh(mediaRecorder) && Launched(mime, old(timersIssued), old(trace))
    {
      thrown := RequestStreams(p);
      if thrown.None? {
        thrown := StartNewRecorder();
      }
    }

    /**
     * `startRecording`: it succeeds exactly when `StartFailure` says so, holding
     * both granted streams, the mixed stream and a fresh recording recorder;
     * every failure, a microphone refused after the display was granted
     * included, ends in the stopped state after releasing what was held and
     * rethrows the error.
     */
    method StartRecording(p: Platform) returns (thrown: Option<Thrown>)
      requires Valid()
      modifies this, mediaRecorder
      ensures Valid()
      ensures thrown == StartFailure(p, isTypeSupported)
      ensures thrown.Some? ==>
        && Stopped()
        && trace == old(trace) + Released(old(RecorderLive()), old(recordingTimer), DisplayAfter(p, old(displayStream)),
                                          MicAfter(p, old(micStream)), MixedAfter(p, old(stream)))
        && timersIssued == old(timersIssued)
      ensures thrown.None? ==>
        var mime := FirstSupported(MimeTypes, isTypeSupported).value;
        && isRecording && stream == Some(p.mixed)
        && displayStream == Some(p.display.stream) && micStream == Some(p.mic.stream)
        && mediaRecorder != null && fresh(mediaRecorder) && Launched(mime, old(timersIssued), old(trace))
    {
      ghost var live := RecorderLive();
      thrown := AcquireAndStart(p);
      if thrown.Some? {
        assert RecorderLive() == live;
        StopRecording();
      }
    }

    /**
     * The stop handler as evidently intended: a silent chunk is still not
     * transcribed, but the next recorder starts on every path while the
     * service is recording, so one quiet chunk does not end the capture.
     */
    method OnStopKeepingChain(rec: ChunkRecorder, transcription: Ai.Outcome<string>, now: string)
      requires Valid()
      modifies this`mediaRecorder, this`recordingTimer, this`timersIssued, this`trace, this`transcriptBuffer
      ensures Valid()
      ensures FirstSupported(MimeTypes, isTypeSupported).None? ==> unchanged(this)
      ensures FirstSupported(MimeTypes, isTypeSupported).Some? && old(isRecording) ==>
        && mediaRecorder != null && fresh(mediaRecorder)
        && Launched(FirstSupported(MimeTypes, isTypeSupported).value, old(timersIssued),
                    old(trace) + ChunkEffects(old(transcriptBuffer), Sum(rec.chunks), transcription, now))
      ensures FirstSupported(MimeTypes, isTypeSupported).Some? && !old(isRecording) ==>
        && trace == old(trace) + ChunkEffects(old(transcriptBuffer), Sum(rec.chunks), transcription, now)
        && mediaRecorder == old(mediaRecorder) && recordingTimer == old(recordingTimer) && timersIssued == old(timersIssued)
      ensures unchanged(this`stream, this`displayStream, this`micStream, this`isRecording)
    {
      var mime := GetSupportedMimeType();
      if mime.None? {
        return;
      }
      var size := Sum(rec.chunks);
      if size >= SilenceBytes {
        Deliver(size, transcription, now);
        ContinueChain();
      } else {
        ContinueChain();
      }
    }

    /** The stop handler gets past the format lookup and the silence check for `rec`'s chunk. */
    predicate Sent(rec: ChunkRecorder)
      reads rec
    {
      FirstSupported(MimeTypes, isTypeSupported).Some? && Sum(rec.chunks) >= SilenceBytes
    }

    /** `isCurrentlyRecording`: while it answers true the service holds a mixed stream. */
    function IsCurrentlyRecording(): (r: bool)
      requires Valid()
      reads this
      ensures r == isRecording
      ensures r ==> stream.Some?
    {
      isRecording
    }
  }

  /**
   * One silent chunk while recording, as written: the service is started,
   * the timer stops the first recorder before any fragment arrives, and its
   * stop handler sees an empty chunk. The service still says it is recording,
   * yet no recorder is live and no timer will stop one, so capture has ended.
   */
  method SilentChunkEndsCapture(supported: string -> bool, p: Platform, transcription: Ai.Outcome<string>)
    returns (stillRecording: bool, recorderLive: bool)
    requires StartFailure(p, supported).None?
    ensures stillRecording && !recorderLive
  {
    var service := new AudioTranscriptionService(supported);
    var thrown := service.StartRecording(p);
    var rec := service.mediaRecorder;
    service.OnTimer();
    service.OnStop(rec, transcription, "");
    stillRecording := service.IsCurrentlyRecording();
    recorderLive := service.mediaRecorder != null && service.mediaRecorder.state == Recording;
  }

  /** The same run with the intended handler: a new recorder is live again. */
  method SilentChunkKeepsCapture(supported: string -> bool, p: Platform, transcription: Ai.Outcome<string>)
    returns (stillRecording: bool, recorderLive: bool)
    requires StartFailure(p, supported).None?
    ensures stillRecording && recorderLive
  {
    var service := new AudioTranscriptionService(supported);
    var thrown := service.StartRecording(p);
    var rec := service.mediaRecorder;
    service.OnTimer();
    service.OnStopKeepingChain(rec, transcription, "");
    stillRecording := service.IsCurrentlyRecording();
    recorderLive := service.mediaRecorder != null && service.mediaRecorder.state == Recording;
  }
}
