# KalpAI turn logic in Dafny

KalpAI is a voice companion for emotional support. Each turn it records speech, transcribes it, screens it, asks a language model for a reply, speaks the reply and logs the exchange. This project models the decisions the program takes along the way and proves what they guarantee. The microphone, camera, speech recogniser, language model, speech synthesiser, language detector and disk are not modelled. Their outcomes arrive as parameters.

Modules:

- `Text` (`text.dfy`): the parts of Python's `str` the program relies on. These are ASCII `lower`, `strip` with `isspace` on ASCII, `startswith`, the substring test `in`, and `replace` with its left-to-right, non-overlapping semantics.
- `Wrappers` (`wrappers.dfy`): an `Option` type.
- `App` (`app.dfy`): the two phrase classifiers of `app.py` and its `process_input`. The turn runs on class `Companion`, whose fields are the module-level state:
  - `chat_history`;
  - the session file `save_chat_history` writes;
  - `temp_audio.wav`;
  - ghost logs of what was spoken and what was sent to the model.

  Streamlit runs `app.py` from the top on every button press (`app.py:195-198`), which resets `chat_history` and `session_start` (`app.py:20-21`). In the running program a `Companion` therefore lives for a single turn, and a saved session file holds only that turn's entry. The class's longer histories describe the module-level state in general; they are not something the running program builds.
- `Eye` (`eye.dfy`): the three emotion selection rules.
  - The text argmax uses Python's "first maximal element" `max`.
  - The facial loop collects lower-cased frame labels and picks the most frequent one.
  - The severity-weighted `max` combines the candidates.
- `Mouth` (`mouth.dfy`): the `safe_text` clean-up chain of `speak`, the preferred-voice loop and `speak`'s backend routing. The routing tracks which AIFF files stay in `/tmp`.
- `Ear` (`ear.dfy`):
  - block capture and the "too quiet" check, including numpy's `int16` `abs` quirk;
  - the policy that turns every write or recogniser failure into an empty transcript, and the temporary file it leaves behind when the WAV write fails;
  - language detection with its fallback;
  - the read-append-write history file;
  - `speech_to_text`;
  - the wake-word loop.

## Model

| member | source | states |
|---|---|---|
| Text.Lower | app.py:32 | lower-casing keeps the length and maps each character to its ASCII lower case |
| Text.Strip | mouth.py:24 | the result starts and ends with non-whitespace, is a slice of the input, and only whitespace is cut off on either side |
| Text.Contains | app.py:32 | `p in s` holds exactly when `p` occurs in `s` at some index |
| Text.StripOfStripped | mouth.py:24 | `strip` leaves a string without surrounding whitespace unchanged |
| Text.ReplaceAllRemovesChar | mouth.py:19-21 | `ReplaceAll` models `str.replace`, scanning left to right over non-overlapping occurrences; replacing a character by text that lacks it leaves no occurrence of it |
| Text.ReplaceAllCharLength | mouth.py:21 | each occurrence of the replaced character is traded for the whole replacement, which fixes the result's length |
| App.AnyPhraseIn | app.py:32 | `any(phrase in s ...)` holds exactly when some phrase of the set is a substring of `s` |
| App.ShouldEndSession | app.py:23-32 | true exactly when some exit phrase is a substring of the lower-cased text |
| App.IsOffTopic | app.py:26-35 | true exactly when some off-topic phrase is a substring of the lower-cased text |
| App.ClassifiersIgnoreCase | app.py:31-35 | lower-casing the text first changes neither classification |
| App.ThanksEndsSession | app.py:23-32 | "Thanks a lot!" ends the session |
| App.SadnessDoesNotEndSession | app.py:23-32 | "I feel sad" does not end the session |
| App.OffTopicAndExitOverlap | app.py:91-123 | one transcript can be both off topic and an exit request, so the order of the two checks decides the turn |
| App.ServiceErrorIsRejected | app.py:64-89 | `Transcript` models `transcribe_uploaded_audio`: "" when unintelligible, the text when recognised, "❌ Error: ..." on any other failure. That error string is never empty and, after `strip`, starts with "❌", so `Rejected` (app.py:88) hands it straight back |
| App.AllLoggedAppend | app.py:115-121 | appending a screened turn, labelled "neutral" and "english", keeps every history entry screened |
| App.Companion.constructor | app.py:20-21 | a session starts with an empty history, nothing saved and nothing spoken |
| App.Companion.RecordAudio | app.py:47-55 | a successful capture overwrites `temp_audio.wav`; a failed one reports no file, and when it failed before scipy opened the file the old clip stays as it was |
| App.Companion.Speak | app.py:96 | the spoken log grows by exactly the given text |
| App.Companion.SaveChatHistory | app.py:37-45 | a failing `os.makedirs` escapes as `raised` and leaves the file alone; an `open` that fails keeps the old contents; a failing `json.dump` leaves the file truncated (`open(..., "w")` emptied it first); otherwise the file holds the whole current history. `AfterSave` (app.py:40-42) names that resulting file, and `ProcessInput` and `Answer` state the file after an exit turn through it |
| App.Companion.ProcessInput | app.py:77-135 | covers each path, using `Transcript`, `Rejected` and `ReplyText` (`"❌ LLM error: ..."` for a failing model, app.py:107-111); details below the table |
| App.Companion.Answer | app.py:99-132 | one model query, `Query` (app.py:104-105): the system prompt, then "\nUser: " and the transcript; its reply (or `"❌ LLM error: ..."`) is spoken and logged as one entry labelled "neutral" and "english"; on an exit phrase the goodbye is spoken, the history including the new entry is saved, and the goodbye is returned unless `os.makedirs` raised |
| Eye.FirstMaxIndex | eye.py:25 | the index has a maximal key and every earlier element has a strictly smaller key, as Python's `max(..., key=...)` picks |
| Eye.TextEmotion | eye.py:13-31 | "neutral" when NRCLex raised or found nothing; otherwise the first key of maximal score in map order |
| Eye.Collected | eye.py:49-65 | the frame loop keeps at most one label per frame, all of them lower-case; unread frames and classifier errors are skipped |
| Eye.Mode | eye.py:72 | the result is one of the labels and no label occurs more often |
| Eye.FacialEmotion | eye.py:37-74 | "neutral" when the camera is closed or no frame gave a label; otherwise the most frequent collected label |
| Eye.Severity | eye.py:97-110 | the weight table looked up lower-cased, always between 0 and 5, with unknown labels weighing 0 |
| Eye.SeverityIgnoresCase | eye.py:110 | a label's weight does not depend on its case |
| Eye.MostSevere | eye.py:110 | the result is a candidate of maximal weight, and on a tie the earliest one |
| Eye.AngerOutweighsHappiness | eye.py:97-110 | "anger" beats "happy" whichever comes first |
| Eye.AnalyzeEmotion | eye.py:80-112 | the candidates are `Candidates` (eye.py:85-91): the text emotion when there is text, then the facial one; without text and camera the result is "neutral"; with text only it is the text emotion; with the camera it is the most severe of [text emotion if text, facial emotion] |
| Mouth.Sanitize | mouth.py:18-25 | the cleaned text has no `"`, no `'` and no `&`, and no surrounding whitespace |
| Mouth.ContractionsAreNoOps | mouth.py:22-23 | on apostrophe-free text both contraction replacements change nothing |
| Mouth.ContractionExpansionNeverFires | mouth.py:20-23 | the chain equals the same chain without the two contraction steps |
| Mouth.ApostropheDroppedFromIm | mouth.py:20 | "I'm" loses its apostrophe and becomes "Im" |
| Mouth.ImIsNotExpanded | mouth.py:18-25 | "I'm" reaches the speech engine as "Im", never as "I am" |
| Mouth.EveryAmpersandBecomesAnd | mouth.py:21 | no `&` is left, and the text grows by two characters per ampersand |
| Mouth.SanitizeIdempotent | mouth.py:18-25 | cleaning already cleaned text changes nothing |
| Mouth.TextToSpeech.constructor | mouth.py:7-9 | stores the preferred voice; the macOS flag is set exactly when the platform is "Darwin" |
| Mouth.TextToSpeech.FindVoice | mouth.py:42-51 | `VoiceMatches` is the test of mouth.py:45; returns the first voice whose lower-cased name contains the lower-cased preferred name, or none when no voice matches |
| Mouth.TextToSpeech.Speak | mouth.py:11-57 | covers each backend path; details below the table |
| Ear.RecordAudio | ear.py:15-43 | covers the loop bound `BlockCount` (ear.py:28), the concatenation `Flatten` (ear.py:30), the quiet check `TooQuiet` (with `SumAbs` and `Abs16`, ear.py:33-35) and the return decision `Captures` (ear.py:26-39); details below the table |
| Ear.SaturatedClipReadsAsQuiet | ear.py:33-37 | a clip saturated at -32768 has a negative mean under numpy's `int16` `abs` and is rejected as too quiet |
| Ear.LoudClipIsNotQuiet | ear.py:33-39 | a clip whose every sample has magnitude at least 50 (and is not -32768) passes the check |
| Ear.SilenceIsQuiet | ear.py:33-37 | a non-empty silent clip is too quiet |
| Ear.TranscribeAudio | ear.py:75-101 | every failure of the write or the recogniser yields ""; a recognised transcript is returned as is; the temporary file is left behind exactly when it was created but the WAV write failed |
| Ear.DetectLanguage | ear.py:45-50 | langdetect's answer, or "unknown" when it raised |
| Ear.WakeWordIgnoresCase | ear.py:112-115 | the wake-word test gives the same answer on the lower-cased transcript |
| Ear.EmptyTranscriptNeverWakes | ear.py:108-115 | the empty transcript, which every write or recogniser failure produces, never wakes the assistant |
| Ear.Listener.SaveToHistory | ear.py:52-73 | `Loaded` is what ear.py:60-66 reads; the file afterwards holds the old entries in order plus exactly one new entry; a missing or undecodable file counts as empty |
| Ear.Listener.SpeechToText | ear.py:121-137 | a failed recording or an empty transcript gives ("", "") and leaves the history alone; otherwise it returns the transcript and its language and logs exactly that entry |
| Ear.ListenForWakeWord | ear.py:103-119 | `Wakes` is one pass of the loop (ear.py:107-115): `record_audio(duration=3)` returns a clip and `WakeWordHeard`, the test of ear.py:112-115, holds of its transcript; returns the first attempt that records a clip whose lower-cased, stripped transcript starts with "hey kalp"; no earlier attempt would have woken; none when no attempt wakes |

`App.Companion.ProcessInput` paths:

- A missing file, an invalid WAV or a failing removal of the clip changes nothing and returns the matching "❌ Error" string. The invalid WAV stays on disk.
- Otherwise the clip is consumed.
- A transcript that is empty or starts with "❌" is returned (the empty one replaced by the fallback). It is not spoken, not sent to the model and not logged.
- An off-topic transcript speaks the warning once and returns it. The model is not asked and nothing is logged.
- Otherwise the model is asked once and its reply (or "❌ LLM error: ...") is spoken. The reply is logged as one entry with the fixed labels "neutral" and "english".
- When an exit phrase occurs, the goodbye is then spoken and the history saved. The save is made after the append, so a complete save includes the new entry. The goodbye is returned, unless `os.makedirs` raised: that call sits outside the `try` of `save_chat_history` (app.py:38), so the outer handler returns "❌ Error: ..." after the goodbye was already spoken and the turn logged (app.py:128-135).
- The history stays screened throughout.

`Mouth.TextToSpeech.Speak` paths:

- On macOS the cleaned text is played in the preferred voice only when `say` and `afplay` both succeed. The AIFF file stays in `/tmp` exactly when `say` succeeded and then `afplay` or the `os.remove` of mouth.py:33 failed.
- Elsewhere nothing is left on disk. The cleaned text is played when the engine starts and speaks. The voice is the first matching one, or the default voice exactly when none matches.
- No failure escapes.

`Ear.RecordAudio`:

- A clip is returned exactly when the stream opened, at least one block was taken and the clip is not too quiet.
- The clip is the first `sample_rate * duration / 1024` blocks of the queue concatenated in order.
- "Too quiet" means a mean absolute sample below 50. An empty clip has a NaN mean and is not too quiet.

## Left out

- `groq_agent.py`, the Streamlit page (`app.py:138-199`), `list_voices` and the background emotion thread (`app.py:101-102`): presentation, client construction and a result that is never read. The model logs the emotion as "neutral", as the code does.
- Devices and services (sounddevice, wave/scipy file I/O, speech_recognition, langdetect, NRCLex, DeepFace, OpenCV, `say`/`afplay`/pyttsx3, the LLM client) become parameters. `time.sleep`, `cap.release`, printing and `st.success`/`st.error` messages are not modelled.
- Timestamps (`datetime.now`) are parameters. JSON formatting and file names are not modelled; a saved file is the list it holds.
- Ear.RecordAudio: the mean amplitude is compared as `sum |x| < 50 * n` over integers instead of in floating point. The block count `int(sample_rate / 1024 * duration)` is taken as `sample_rate * duration / 1024` over integers, which agrees for the whole-second durations the program uses.
- Text.Lower, Text.Strip: only ASCII letters are lower-cased and only ASCII whitespace is stripped. Python's Unicode tables are not modelled, and every fixed phrase is lower-case ASCII.
- Eye.Mode: `max(set(emotions), key=emotions.count)` breaks ties by set iteration order. The model takes the first most frequent label in list order, and its contract promises only what the source promises: a label of maximal count.
- Eye.AnalyzeEmotion: `text=None` is represented by the empty text, which the code treats the same way.
- Ear.ListenForWakeWord: the `while True` loop is run over a finite sequence of attempts supplied by the environment. Running out of attempts means the program would still be listening.
- Ear.Listener.SaveToHistory: a history file holding valid JSON that is not a list, and read errors other than a missing file or a `JSONDecodeError`, are not modelled. The write itself is assumed to succeed, as the code does not guard it.
- App.Companion.ProcessInput: the outer handler is modelled for a failing `os.remove` (app.py:86) and a failing `os.makedirs` (app.py:38). Other exceptions it could catch are not modelled, among them a failing `Thread(...).start()` (app.py:102) and a failing `system_prompt("neutral")` (app.py:104). The `language` argument of `speak` is ignored by `speak` and is not modelled.
- Ear.TranscribeAudio: the `os.remove` in the `finally` clause (ear.py:99-101) is taken to succeed. If it raised, its exception would replace the return value and escape `transcribe_audio`, `speech_to_text` and `listen_for_wake_word`, since only `KeyboardInterrupt` is caught above them (ear.py:148). The model does not represent that escape.
- App.Companion.RecordAudio: scipy's `write` opens `temp_audio.wav` for writing before it writes (app.py:51). A write that fails after that point has already truncated the old clip, and the model does not represent that damaged file: a failed capture keeps the old clip.
- Ear.RecordAudio: the model requires the stream to deliver at least the blocks the recording waits for (also `Ear.Delivers` and `Ear.Listener.SpeechToText`). With fewer blocks, `q.get()` has no timeout, so the source blocks forever (ear.py:28-29). The model does not represent that hang.
