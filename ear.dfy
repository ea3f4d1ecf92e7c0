/**
 * Listening (ear.py): capture from the microphone queue, the too-quiet
 * check, the "every write or recogniser failure is an empty transcript" policy, language
 * detection with its fallback, the chat-history file, and the wake-word loop.
 * The audio device, the speech recogniser, langdetect and the disk are
 * oracles whose outcomes arrive as parameters.
 */
module Ear {
  import opened Text
  import opened Wrappers

  /** A sample of the `int16` stream. */
  newtype Int16 = x: int | -32768 <= x < 32768

  /** numpy's `abs` on `int16`: -32768 has no positive counterpart and stays -32768. */
  function Abs16(x: Int16): int {
    if x == -32768 then -32768 else if x < 0 then -(x as int) else x as int
  }

  /** The sum of `np.abs(audio_data)`, which numpy's `mean` accumulates without overflow. */
  function SumAbs(data: seq<Int16>): int {
    if data == [] then 0 else Abs16(data[0]) + SumAbs(data[1..])
  }

  /**
   * `mean_amplitude < 50`, stated without division. The mean of an empty
   * array is NaN, and NaN is not below 50.
   */
  predicate TooQuiet(data: seq<Int16>) {
    |data| > 0 && SumAbs(data) < 50 * |data|
  }

  /** `np.concatenate(audio_frames, axis=0)` on one-channel blocks. */
  function Flatten(blocks: seq<seq<Int16>>): seq<Int16> {
    if blocks == [] then [] else blocks[0] + Flatten(blocks[1..])
  }

  /** `int(sample_rate / 1024 * duration)` for whole seconds (sample_rate / 1024 is exact in binary). */
  function BlockCount(sampleRate: nat, duration: nat): nat {
    sampleRate * duration / 1024
  }

  /** `record_audio()` with its defaults: 44100 Hz for 5 s. */
  const DefaultRate := 44100
  const DefaultDuration := 5
  /** `listen_for_wake_word` records 3 s. */
  const WakeDuration := 3

  /** A clip the too-quiet check let through: `(sample_rate, audio_data)`. */
  datatype Recording = Recording(sampleRate: nat, data: seq<Int16>)

  /**
   * Whether `record_audio` returns a clip: the stream opened, at least one
   * block was taken (`np.concatenate` rejects an empty list) and the clip is
   * not too quiet.
   */
  predicate Captures(deviceOk: bool, blocks: nat, queue: seq<seq<Int16>>)
    requires deviceOk ==> blocks <= |queue|
  {
    deviceOk && blocks > 0 && !TooQuiet(Flatten(queue[..blocks]))
  }

  /**
   * `record_audio`. `queue` holds the blocks the stream callback puts on the
   * queue, in arrival order; `deviceOk` is false when opening the stream raised.
   */
  method RecordAudio(sampleRate: nat, duration: nat, queue: seq<seq<Int16>>, deviceOk: bool)
    returns (r: Option<Recording>)
    requires deviceOk ==> BlockCount(sampleRate, duration) <= |queue|
    ensures r.Some? <==> Captures(deviceOk, BlockCount(sampleRate, duration), queue)
    ensures r.Some? ==> r.value == Recording(sampleRate, Flatten(queue[..BlockCount(sampleRate, duration)]))
  {
    if !deviceOk {
      return None;
    }
    var audioFrames: seq<seq<Int16>> := [];
    for i := 0 to BlockCount(sampleRate, duration)
      invariant audioFrames == queue[..i]
    {
      audioFrames := audioFrames + [queue[i]];
    }
    if audioFrames == [] {
      return None;
    }
    var audioData := Flatten(audioFrames);
    if TooQuiet(audioData) {
      return None;
    }
    return Some(Recording(sampleRate, audioData));
  }

  /** numpy's int16 `abs` quirk: a clip saturated at -32768 has a negative mean and reads as too quiet. */
  lemma {:induction false} SaturatedClipReadsAsQuiet(data: seq<Int16>)
    requires data != [] && forall i :: 0 <= i < |data| ==> data[i] == -32768
    ensures TooQuiet(data)
  {
    SaturatedSum(data);
  }

  lemma {:induction false} SaturatedSum(data: seq<Int16>)
    requires forall i :: 0 <= i < |data| ==> data[i] == -32768
    ensures SumAbs(data) == -32768 * |data|
  {
    if data != [] {
      SaturatedSum(data[1..]);
    }
  }

  /** A clip whose every sample has magnitude at least 50 (and is not -32768) is never too quiet. */
  lemma {:induction false} LoudClipIsNotQuiet(data: seq<Int16>)
    requires forall i :: 0 <= i < |data| ==> data[i] != -32768 && (data[i] >= 50 || data[i] <= -50)
    ensures !TooQuiet(data)
    ensures SumAbs(data) >= 50 * |data|
  {
    if data != [] {
      LoudClipIsNotQuiet(data[1..]);
    }
  }

  /** A silent clip of at least one sample is too quiet. */
  lemma {:induction false} SilenceIsQuiet(data: seq<Int16>)
    requires data != [] && forall i :: 0 <= i < |data| ==> data[i] == 0
    ensures TooQuiet(data)
  {
    SilentSum(data);
  }

  lemma {:induction false} SilentSum(data: seq<Int16>)
    requires forall i :: 0 <= i < |data| ==> data[i] == 0
    ensures SumAbs(data) == 0
  {
    if data != [] {
      SilentSum(data[1..]);
    }
  }

  // ---------------------------------------------------------------- transcription

  /** What `recognize_google` (and reading the temporary file) did. */
  datatype Recognition = Recognized(text: string) | Unintelligible | RequestFailed(message: string)
                       | OtherFailure(message: string)

  /** The transcript and whether the temporary WAV file stayed on disk. */
  datatype Transcription = Transcription(text: string, tempFileLeft: bool)

  /**
   * `transcribe_audio`. `fileCreated`: `NamedTemporaryFile` succeeded;
   * `wavWritten`: `wav.write` succeeded, after which `temp_file_path` is set.
   * The `os.remove` of the `finally` clause is taken to succeed.
   */
  function TranscribeAudio(fileCreated: bool, wavWritten: bool, outcome: Recognition): (t: Transcription)
    // Every failure of the write or the recogniser becomes the empty transcript.
    ensures !(fileCreated && wavWritten && outcome.Recognized?) ==> t.text == ""
    ensures fileCreated && wavWritten && outcome.Recognized? ==> t.text == outcome.text
    // Once the path is known the file is removed on every path; a failed write leaves it behind.
    ensures t.tempFileLeft <==> fileCreated && !wavWritten
  {
    if !fileCreated then Transcription("", false)
    else if !wavWritten then Transcription("", true)
    else
      match outcome
      case Recognized(text) => Transcription(text, false)
      case Unintelligible => Transcription("", false)
      case RequestFailed(_) => Transcription("", false)
      case OtherFailure(_) => Transcription("", false)
  }

  /** `detect_language`: langdetect's answer, or "unknown" when it raised (`detected == None`). */
  function DetectLanguage(text: string, detected: Option<string>): (lang: string)
    ensures detected.None? ==> lang == "unknown"
    ensures detected.Some? ==> lang == detected.value
  {
    match detected
    case None => "unknown"
    case Some(code) => code
  }

  // ---------------------------------------------------------------- history

  /** One record of `chat_history.json`. */
  datatype HistoryEntry = HistoryEntry(timestamp: string, text: string, language: string)

  /** `chat_history.json` as `save_to_history` finds it. */
  datatype HistoryFile = Missing | Undecodable | Stored(entries: seq<HistoryEntry>)

  /** What `save_to_history` reads: a missing or undecodable file counts as an empty list. */
  function Loaded(f: HistoryFile): seq<HistoryEntry> {
    if f.Stored? then f.entries else []
  }

  /** `listen_for_wake_word`'s test: the lower-cased, stripped transcript starts with "hey kalp". */
  const WakeWord := "hey kalp"

  predicate WakeWordHeard(transcript: string) {
    StartsWith(Strip(Lower(transcript)), WakeWord)
  }

  /** The wake word may be said in any case. */
  lemma WakeWordIgnoresCase(transcript: string)
    ensures WakeWordHeard(Lower(transcript)) == WakeWordHeard(transcript)
  {
    LowerIdempotent(transcript);
  }

  /** An empty transcript, which every write or recogniser failure produces, never wakes the assistant. */
  lemma EmptyTranscriptNeverWakes()
    ensures !WakeWordHeard("")
  {
    assert Lower("") == "";
    StripOfStripped("");
  }

  /** One pass of the wake-word loop: a 3-second recording, then its transcription. */
  datatype Attempt = Attempt(deviceOk: bool, queue: seq<seq<Int16>>, fileCreated: bool, wavWritten: bool,
                             outcome: Recognition)

  /** The stream delivers at least the blocks the recording waits for. */
  predicate Delivers(a: Attempt) {
    a.deviceOk ==> BlockCount(DefaultRate, WakeDuration) <= |a.queue|
  }

  /** The attempt records a clip and its transcript carries the wake word. */
  predicate Wakes(a: Attempt)
    requires Delivers(a)
  {
    Captures(a.deviceOk, BlockCount(DefaultRate, WakeDuration), a.queue)
    && WakeWordHeard(TranscribeAudio(a.fileCreated, a.wavWritten, a.outcome).text)
  }

  /**
   * The module-level state of ear.py: the `chat_history.json` file.
   */
  class Listener {
    var history: HistoryFile

    constructor (existing: HistoryFile)
      ensures history == existing
    {
      history := existing;
    }

    /** `save_to_history`: read (missing or undecodable reads as []), append one entry, write back. */
    method SaveToHistory(text: string, lang: string, now: string)
      modifies this
      ensures history == Stored(Loaded(old(history)) + [HistoryEntry(now, text, lang)])
    {
      var entry := HistoryEntry(now, text, lang);
      var entries: seq<HistoryEntry> := [];
      if history.Stored? {
        entries := history.entries;
      }
      entries := entries + [entry];
      history := Stored(entries);
    }

    /**
     * `speech_to_text`: record with the defaults, transcribe, and only for a
     * non-empty transcript detect the language and save one history entry.
     */
    method SpeechToText(queue: seq<seq<Int16>>, deviceOk: bool, fileCreated: bool, wavWritten: bool,
                        outcome: Recognition, detected: Option<string>, now: string)
      returns (text: string, lang: string)
      requires deviceOk ==> BlockCount(DefaultRate, DefaultDuration) <= |queue|
      modifies this
      ensures (!Captures(deviceOk, BlockCount(DefaultRate, DefaultDuration), queue)
               || TranscribeAudio(fileCreated, wavWritten, outcome).text == "") ==>
        text == "" && lang == "" && history == old(history)
      ensures (Captures(deviceOk, BlockCount(DefaultRate, DefaultDuration), queue)
               && TranscribeAudio(fileCreated, wavWritten, outcome).text != "") ==>
        text == TranscribeAudio(fileCreated, wavWritten, outcome).text
        && lang == DetectLanguage(text, detected)
        && history == Stored(Loaded(old(history)) + [HistoryEntry(now, text, lang)])
    {
      var result := RecordAudio(DefaultRate, DefaultDuration, queue, deviceOk);
      if result.None? {
        return "", "";
      }
      var transcription := TranscribeAudio(fileCreated, wavWritten, outcome);
      text := transcription.text;
      if text == "" {
        return "", "";
      }
      lang := DetectLanguage(text, detected);
      SaveToHistory(text, lang, now);
    }
  }

  /** None of the first `n` attempts wakes the assistant. */
  ghost predicate NoneWakes(attempts: seq<Attempt>, n: nat)
    requires n <= |attempts| && forall j :: 0 <= j < |attempts| ==> Delivers(attempts[j])
  {
    forall j :: 0 <= j < n ==> !Wakes(attempts[j])
  }

  /** One more attempt that does not wake keeps the prefix free of wake-ups. */
  lemma NoneWakesExtend(attempts: seq<Attempt>, n: nat)
    requires n < |attempts| && forall j :: 0 <= j < |attempts| ==> Delivers(attempts[j])
    requires NoneWakes(attempts, n) && !Wakes(attempts[n])
    ensures NoneWakes(attempts, n + 1)
  {
  }

  /**
   * `listen_for_wake_word`, run over the attempts the environment supplies:
   * the index of the first attempt that wakes the assistant. A failed
   * recording or a transcript without the wake word only leads to another
   * attempt; None means the loop is still listening when the attempts run out.
   */
  method ListenForWakeWord(attempts: seq<Attempt>) returns (wokenAt: Option<nat>)
    requires forall j :: 0 <= j < |attempts| ==> Delivers(attempts[j])
    ensures wokenAt.Some? ==> wokenAt.value < |attempts| && Wakes(attempts[wokenAt.value])
    ensures wokenAt.Some? ==> NoneWakes(attempts, wokenAt.value)
    ensures wokenAt.None? ==> NoneWakes(attempts, |attempts|)
  {
    var i := 0;
    while i < |attempts|
      invariant 0 <= i <= |attempts|
      invariant NoneWakes(attempts, i)
    {
      var a := attempts[i];
      var result := RecordAudio(DefaultRate, WakeDuration, a.queue, a.deviceOk);
      if result.Some? {
        var transcript := TranscribeAudio(a.fileCreated, a.wavWritten, a.outcome).text;
        if WakeWordHeard(transcript) {
          return Some(i);
        }
      }
      NoneWakesExtend(attempts, i);
      i := i + 1;
    }
    return None;
  }
}
