/**
 * The turn orchestrator of the Streamlit front end (app.py): the two
 * phrase classifiers and `process_input`, which turns one recorded clip
 * into one returned (and usually spoken and logged) reply.
 *
 * The speech recogniser, the language model, the speech synthesiser and the
 * disk are collaborators whose outcomes arrive as parameters; what the
 * orchestrator does with them is recorded in the fields of `Companion`.
 */
module App {
  import opened Text
  import opened Wrappers

  /** `EXIT_PHRASES` (a Python set; only membership matters to `any`). */
  const ExitPhrases: seq<string> :=
    ["thank you", "thanks", "you solved my problem", "problem solved", "appreciate it", "that helped"]

  /** `OFF_TOPIC_PHRASES` (a Python set; only membership matters to `any`). */
  const OffTopicPhrases: seq<string> :=
    ["who is", "tell me about", "what is", "prime minister", "actor", "movie",
     "president", "cricketer", "capital of", "current news", "weather", "joke"]

  /** `any(phrase in s for phrase in phrases)`. */
  function AnyPhraseIn(phrases: seq<string>, s: string): (b: bool)
    ensures b <==> exists p :: p in phrases && Contains(s, p)
  {
    if phrases == [] then false
    else
      var rest := AnyPhraseIn(phrases[1..], s);
      assert forall p :: p in phrases <==> p == phrases[0] || p in phrases[1..];
      Contains(s, phrases[0]) || rest
  }

  /** `should_end_session`: some exit phrase occurs in the lower-cased text. */
  function ShouldEndSession(text: string): (b: bool)
    ensures b <==> exists p :: p in ExitPhrases && Contains(Lower(text), p)
  {
    AnyPhraseIn(ExitPhrases, Lower(text))
  }

  /** `is_off_topic`: some off-topic phrase occurs in the lower-cased text. */
  function IsOffTopic(text: string): (b: bool)
    ensures b <==> exists p :: p in OffTopicPhrases && Contains(Lower(text), p)
  {
    AnyPhraseIn(OffTopicPhrases, Lower(text))
  }

  /** The case of the text never changes either classification. */
  lemma ClassifiersIgnoreCase(text: string)
    ensures ShouldEndSession(Lower(text)) == ShouldEndSession(text)
    ensures IsOffTopic(Lower(text)) == IsOffTopic(text)
  {
    LowerIdempotent(text);
  }

  /** A text that lacks one of a phrase's characters does not contain it. */
  lemma NotContainedWithoutChar(s: string, p: string, k: nat)
    requires k < |p| && p[k] !in s
    ensures !Contains(s, p)
  {
  }

  /** "Thanks a lot!" ends the session. */
  lemma ThanksEndsSession(t: string)
    requires t == "Thanks a lot!"
    ensures ShouldEndSession(t)
  {
    var l := Lower(t);
    assert l[0..6] == "thanks";
    ContainsWithin(l, "thanks", 0);
    assert "thanks" in ExitPhrases;
  }

  /** "I feel sad" does not end the session. */
  lemma SadnessDoesNotEndSession(t: string)
    requires t == "I feel sad"
    ensures !ShouldEndSession(t)
  {
    var l := Lower(t);
    assert 't' !in l && 'y' !in l && 'p' !in l;
    forall p | p in ExitPhrases ensures !Contains(l, p) {
      var k := if p == "appreciate it" then 1 else 0;
      NotContainedWithoutChar(l, p, k);
    }
  }

  /** A transcript can be both off topic and an exit request: the order of the checks decides. */
  lemma OffTopicAndExitOverlap(t: string)
    requires t == "Thanks, what is the weather?"
    ensures IsOffTopic(t) && ShouldEndSession(t)
  {
    var l := Lower(t);
    assert l[0..6] == "thanks";
    ContainsWithin(l, "thanks", 0);
    assert "thanks" in ExitPhrases;
    assert l[8..15] == "what is";
    ContainsWithin(l, "what is", 8);
    assert "what is" in OffTopicPhrases;
  }

  /** One logged exchange: a dictionary of `chat_history` (app.py:115-121). */
  datatype Turn = Turn(user: string, assistant: string, emotion: string, language: string, timestamp: string)

  /** The recorded `temp_audio.wav` as the disk holds it; `validWav` is what `is_valid_wav` reports. */
  datatype Clip = Clip(validWav: bool)

  /** What `transcribe_uploaded_audio`'s recogniser did. */
  datatype Heard = Recognized(text: string) | Unintelligible | ServiceError(message: string)

  /** What `llm.invoke` did: the reply's content, or the message of the exception it raised. */
  datatype LlmOutcome = Reply(content: string) | LlmFailure(message: string)

  const NotRecordedError := "❌ Error: Audio file was not recorded properly."
  const InvalidWavError := "❌ Error: Recorded file is not a valid WAV format."
  const NotUnderstood := "❌ Sorry, I couldn't understand. Try speaking louder or clearly."
  const OffTopicWarning :=
    "I'm here to support your mental and emotional well-being. "
    + "Let’s stay focused on what you’re feeling. I can’t answer non-mental health questions."
  const Goodbye :=
    "I'm really glad I could help. Remember, I’m always here when you need someone to talk to. "
    + "Take care of yourself!"

  /** `transcribe_uploaded_audio`: unintelligible speech is "", any other failure an error string. */
  function Transcript(heard: Heard): string {
    match heard
    case Recognized(t) => t
    case Unintelligible => ""
    case ServiceError(e) => "❌ Error: " + e
  }

  /** A transcript that `process_input` hands straight back: empty, or an error marker after `strip`. */
  predicate Rejected(u: string) {
    u == "" || StartsWith(Strip(u), "❌")
  }

  /** A recogniser failure comes back as an error string, which is always handed straight back. */
  lemma ServiceErrorIsRejected(e: string)
    ensures Transcript(ServiceError(e)) != ""
    ensures Rejected(Transcript(ServiceError(e)))
  {
    var u := Transcript(ServiceError(e));
    assert u[0] == '❌';
    var r := Strip(u);
    assert SkipSpace(u, 0) == 0;
    assert r == u[0..BackSpace(u, 0, |u|)];
    assert r[..1] == "❌";
  }

  /** The reply text of a turn that reached the language model. */
  function ReplyText(llm: LlmOutcome): string {
    match llm
    case Reply(c) => c
    case LlmFailure(e) => "❌ LLM error: " + e
  }

  /** The query sent to the model: the system prompt for "neutral", then the user's words. */
  function Query(context: string, u: string): string {
    context + "\nUser: " + u
  }

  /** What every logged turn satisfies: it passed the filters and carries the fixed labels. */
  predicate Logged(t: Turn) {
    t.user != "" && !Rejected(t.user) && !IsOffTopic(t.user)
    && t.emotion == "neutral" && t.language == "english"
  }

  /** Appending a well-formed turn keeps every turn of the history well formed. */
  lemma AllLoggedAppend(h: seq<Turn>, t: Turn)
    requires forall i :: 0 <= i < |h| ==> Logged(h[i])
    requires Logged(t)
    ensures forall i :: 0 <= i < |h + [t]| ==> Logged((h + [t])[i])
  {
  }

  /** What `save_chat_history` ran into: `os.makedirs` raised (outside its `try`), `open` failed, `json.dump` failed, or all went well. */
  datatype SaveOutcome = DirFailed(message: string) | OpenFailed | DumpFailed | SaveDone

  /**
   * The session file on disk: not written yet, a complete JSON list of turns,
   * or the empty or partial file that `open(..., "w")` truncated before
   * `json.dump` failed.
   */
  datatype SessionFile = NoFile | Complete(turns: seq<Turn>) | Truncated

  /** The session file after a save of `history` that ended in `outcome`. */
  function AfterSave(outcome: SaveOutcome, history: seq<Turn>, before: SessionFile): SessionFile {
    match outcome
    case SaveDone => Complete(history)
    case DumpFailed => Truncated
    case _ => before
  }

  /**
   * The module-level state of app.py: `chat_history`, the session file that
   * `save_chat_history` writes, and `temp_audio.wav`; with ghost logs of what
   * was spoken and what was sent to the language model.
   */
  class Companion {
    var chatHistory: seq<Turn>
    var sessionFile: SessionFile
    var audioFile: Option<Clip>
    ghost var spoken: seq<string>
    ghost var llmQueries: seq<string>

    /** Every logged turn is well formed, and the saved file is an earlier state of the history. */
    ghost predicate Valid()
      reads this
    {
      (forall i :: 0 <= i < |chatHistory| ==> Logged(chatHistory[i]))
      && (sessionFile.Complete? ==> sessionFile.turns <= chatHistory)
    }

    /** Session start: an empty history, nothing saved; an audio file may remain from before. */
    constructor (leftover: Option<Clip>)
      ensures Valid()
      ensures chatHistory == [] && sessionFile == NoFile && audioFile == leftover
      ensures spoken == [] && llmQueries == []
    {
      chatHistory := [];
      sessionFile := NoFile;
      audioFile := leftover;
      spoken := [];
      llmQueries := [];
    }

    /**
     * `record_audio`: a capture that succeeds overwrites `temp_audio.wav`; one
     * that fails before scipy opens the file leaves it alone.
     */
    method RecordAudio(captured: Option<Clip>) returns (recorded: bool)
      modifies this`audioFile
      ensures recorded == captured.Some?
      ensures audioFile == if captured.Some? then captured else old(audioFile)
    {
      if captured.Some? {
        audioFile := captured;
        recorded := true;
      } else {
        recorded := false;
      }
    }

    /** `tts.speak`: the text handed to the synthesiser (its sanitising lives in module Mouth). */
    method Speak(text: string)
      modifies this`spoken
      ensures spoken == old(spoken) + [text]
    {
      spoken := spoken + [text];
    }

    /**
     * `save_chat_history`: the whole history is written; a file that could not
     * be opened keeps its old contents; a failing `json.dump` leaves the file
     * truncated. Only the `os.makedirs` failure escapes, as `raised`.
     */
    method SaveChatHistory(outcome: SaveOutcome) returns (raised: Option<string>)
      requires Valid()
      modifies this`sessionFile
      ensures Valid()
      ensures raised == if outcome.DirFailed? then Some(outcome.message) else None
      ensures outcome.SaveDone? ==> sessionFile == Complete(chatHistory)
      ensures outcome.DumpFailed? ==> sessionFile == Truncated
      ensures outcome.DirFailed? || outcome.OpenFailed? ==> sessionFile == old(sessionFile)
    {
      match outcome
      case DirFailed(message) =>
        return Some(message);
      case OpenFailed =>
        return None;
      case DumpFailed =>
        sessionFile := Truncated;
        return None;
      case SaveDone =>
        sessionFile := Complete(chatHistory);
        return None;
    }

    /**
     * `process_input`, with `recorded` standing for a non-empty `audio_file`.
     * The paths, in the order the code tries them: no audio file, invalid WAV,
     * a failing `os.remove` (caught by the outer handler), a rejected
     * transcript, an off-topic transcript, and the answered turn, which may
     * end the session.
     */
    method ProcessInput(recorded: bool, heard: Heard, context: string, llm: LlmOutcome,
                        removeError: Option<string>, save: SaveOutcome, now: string)
      returns (reply: string)
      requires Valid()
      modifies this
      ensures Valid()
      // No audio file: nothing happens.
      ensures !recorded || old(audioFile).None? ==>
        reply == NotRecordedError && unchanged(this)
      // An invalid WAV: nothing happens, and the file stays on disk.
      ensures recorded && old(audioFile) == Some(Clip(false)) ==>
        reply == InvalidWavError && unchanged(this)
      // The transcribed clip could not be removed: the outer handler answers.
      ensures recorded && old(audioFile) == Some(Clip(true)) && removeError.Some? ==>
        reply == "❌ Error: " + removeError.value && unchanged(this)
      // Otherwise the clip is consumed, whatever follows.
      ensures recorded && old(audioFile) == Some(Clip(true)) && removeError.None? ==>
        audioFile == None
      // A rejected transcript is returned as it is, or replaced by the fallback when empty.
      ensures (recorded && old(audioFile) == Some(Clip(true)) && removeError.None?
               && Rejected(Transcript(heard))) ==>
        reply == (if Transcript(heard) == "" then NotUnderstood else Transcript(heard))
        && spoken == old(spoken) && llmQueries == old(llmQueries)
        && chatHistory == old(chatHistory) && sessionFile == old(sessionFile)
      // Off topic: the warning is spoken once and returned, the model is not asked, nothing is logged.
      ensures (recorded && old(audioFile) == Some(Clip(true)) && removeError.None?
               && !Rejected(Transcript(heard)) && IsOffTopic(Transcript(heard))) ==>
        reply == OffTopicWarning && spoken == old(spoken) + [OffTopicWarning]
        && llmQueries == old(llmQueries)
        && chatHistory == old(chatHistory) && sessionFile == old(sessionFile)
      // Answered: one query, the reply spoken and logged, then goodbye and a save on an exit phrase.
      ensures (recorded && old(audioFile) == Some(Clip(true)) && removeError.None?
               && !Rejected(Transcript(heard)) && !IsOffTopic(Transcript(heard))) ==>
        var u := Transcript(heard);
        var answer := ReplyText(llm);
        && llmQueries == old(llmQueries) + [Query(context, u)]
        && chatHistory == old(chatHistory) + [Turn(u, answer, "neutral", "english", now)]
        && spoken == old(spoken) + [answer] + (if ShouldEndSession(u) then [Goodbye] else [])
        && sessionFile == (if ShouldEndSession(u) then AfterSave(save, chatHistory, old(sessionFile))
                           else old(sessionFile))
        && reply == (if !ShouldEndSession(u) then answer
                     else if save.DirFailed? then "❌ Error: " + save.message
                     else Goodbye)
    {
      if !recorded || audioFile.None? {
        return NotRecordedError;
      }
      if !audioFile.value.validWav {
        return InvalidWavError;
      }
      var userInput := Transcript(heard);
      if removeError.Some? {
        return "❌ Error: " + removeError.value;
      }
      audioFile := None;

      if Rejected(userInput) {
        return if userInput == "" then NotUnderstood else userInput;
      }

      if IsOffTopic(userInput) {
        Speak(OffTopicWarning);
        return OffTopicWarning;
      }

      reply := Answer(userInput, context, llm, save, now);
    }

    /**
     * The answered turn of `process_input` (app.py:99-132): ask the model,
     * speak and log its reply, then on an exit phrase say goodbye and save.
     */
    method Answer(u: string, context: string, llm: LlmOutcome, save: SaveOutcome, now: string)
      returns (reply: string)
      requires Valid()
      requires !Rejected(u) && !IsOffTopic(u)
      modifies this`chatHistory, this`sessionFile, this`spoken, this`llmQueries
      ensures Valid()
      ensures llmQueries == old(llmQueries) + [Query(context, u)]
      ensures chatHistory == old(chatHistory) + [Turn(u, ReplyText(llm), "neutral", "english", now)]
      ensures spoken == old(spoken) + [ReplyText(llm)] + (if ShouldEndSession(u) then [Goodbye] else [])
      ensures sessionFile == (if ShouldEndSession(u) then AfterSave(save, chatHistory, old(sessionFile))
                              else old(sessionFile))
      // A failing `os.makedirs` escapes `save_chat_history`: the outer handler replaces the goodbye.
      ensures reply == (if !ShouldEndSession(u) then ReplyText(llm)
                        else if save.DirFailed? then "❌ Error: " + save.message
                        else Goodbye)
    {
      // The emotion thread's result is never read: the turn is logged as "neutral".
      var emotion := "neutral";
      llmQueries := llmQueries + [Query(context, u)];
      var responseText := ReplyText(llm);

      Speak(responseText);

      var turn := Turn(u, responseText, emotion, "english", now);
      assert Logged(turn);
      AllLoggedAppend(chatHistory, turn);
      chatHistory := chatHistory + [turn];

      if ShouldEndSession(u) {
        Speak(Goodbye);
        var raised := SaveChatHistory(save);
        if raised.Some? {
          return "❌ Error: " + raised.value;
        }
        return Goodbye;
      }
      return responseText;
    }
  }
}
