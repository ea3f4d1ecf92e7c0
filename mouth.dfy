/**
 * Speech synthesis (mouth.py): the text clean-up that `speak` performs before
 * handing text to a speech backend, and the preferred-voice search. The
 * backends themselves (`say`/`afplay` on macOS, pyttsx3 elsewhere) are
 * oracles: whether each step succeeded arrives as a parameter.
 */
module Mouth {
  import opened Text
  import opened Wrappers

  /**
   * The `safe_text` chain of `speak`, in its order: drop double quotes, drop
   * apostrophes, spell out ampersands, the two contraction expansions, `strip`.
   */
  function Sanitize(text: string): (r: string)
    ensures '"' !in r && '\'' !in r && '&' !in r
    ensures Stripped(r)
  {
    var noDouble := ReplaceAll(text, "\"", "");
    var noQuotes := ReplaceAll(noDouble, "'", "");
    var noAmp := ReplaceAll(noQuotes, "&", "and");
    var expandedIm := ReplaceAll(noAmp, "I'm", "I am");
    var expanded := ReplaceAll(expandedIm, "don't", "do not");
    var r := Strip(expanded);
    ReplaceAllRemovesChar(text, '"', "");
    ReplaceAllKeepsAbsent(noDouble, "'", "", '"');
    ReplaceAllRemovesChar(noDouble, '\'', "");
    ReplaceAllKeepsAbsent(noQuotes, "&", "and", '"');
    ReplaceAllKeepsAbsent(noQuotes, "&", "and", '\'');
    ReplaceAllRemovesChar(noQuotes, '&', "and");
    ContractionsAreNoOps(noAmp);
    StripKeepsAbsent(expanded, '"');
    StripKeepsAbsent(expanded, '\'');
    StripKeepsAbsent(expanded, '&');
    r
  }

  /** Both contraction patterns contain an apostrophe, so on apostrophe-free text they change nothing. */
  lemma ContractionsAreNoOps(s: string)
    requires '\'' !in s
    ensures ReplaceAll(s, "I'm", "I am") == s
    ensures ReplaceAll(ReplaceAll(s, "I'm", "I am"), "don't", "do not") == s
  {
    ReplaceAllWithoutMatch(s, "I'm", "I am", 1);
    ReplaceAllWithoutMatch(s, "don't", "do not", 3);
  }

  /** As written, the chain never expands a contraction: it equals the chain without those two steps. */
  lemma ContractionExpansionNeverFires(text: string)
    ensures Sanitize(text) == Strip(ReplaceAll(ReplaceAll(ReplaceAll(text, "\"", ""), "'", ""), "&", "and"))
  {
    var noDouble := ReplaceAll(text, "\"", "");
    var noQuotes := ReplaceAll(noDouble, "'", "");
    ReplaceAllRemovesChar(noDouble, '\'', "");
    ReplaceAllKeepsAbsent(noQuotes, "&", "and", '\'');
    ContractionsAreNoOps(ReplaceAll(noQuotes, "&", "and"));
  }

  /** Dropping the apostrophe from "I'm" leaves "Im". */
  lemma ApostropheDroppedFromIm(t: string)
    requires t == "I'm"
    ensures ReplaceAll(t, "'", "") == "Im"
  {
    assert t[0] == 'I' && t[1] == '\'' && t[2] == 'm';
    assert t[..1][0] != "'"[0];
    assert t[1..][..1] == "'";
    assert t[1..][1..] == "m";
    assert "m"[..1][0] != "'"[0];
    assert "m"[1..] == [];
    assert ReplaceAll("m", "'", "") == "m";
  }

  /** "I'm" reaches the speech engine as "Im", not as "I am". */
  lemma ImIsNotExpanded(t: string)
    requires t == "I'm"
    ensures Sanitize(t) == "Im"
  {
    assert '"' !in t;
    ReplaceAllWithoutMatch(t, "\"", "", 0);
    var noQuotes := ReplaceAll(ReplaceAll(t, "\"", ""), "'", "");
    ApostropheDroppedFromIm(t);
    assert noQuotes == "Im";
    assert '&' !in noQuotes;
    ReplaceAllWithoutMatch(noQuotes, "&", "and", 0);
    StripOfStripped(noQuotes);
    ContractionExpansionNeverFires(t);
  }

  /** Every ampersand is replaced by the three letters of "and", and none is left. */
  lemma EveryAmpersandBecomesAnd(s: string)
    ensures '&' !in ReplaceAll(s, "&", "and")
    ensures |ReplaceAll(s, "&", "and")| == |s| + 2 * Count(s, '&')
  {
    ReplaceAllRemovesChar(s, '&', "and");
    ReplaceAllCharLength(s, '&', "and");
  }

  /** Cleaning text that is already clean changes nothing. */
  lemma SanitizeIdempotent(text: string)
    ensures Sanitize(Sanitize(text)) == Sanitize(text)
  {
    var s := Sanitize(text);
    ReplaceAllWithoutMatch(s, "\"", "", 0);
    ReplaceAllWithoutMatch(s, "'", "", 0);
    ReplaceAllWithoutMatch(s, "&", "and", 0);
    ContractionsAreNoOps(s);
    StripOfStripped(s);
  }

  /** One entry of pyttsx3's `voices` property. */
  datatype Voice = Voice(id: string, name: string)

  /** The voice test of the search loop: the preferred name occurs in the voice's name, ignoring case. */
  predicate VoiceMatches(preferred: string, v: Voice) {
    Contains(Lower(v.name), Lower(preferred))
  }

  /** Which voice a backend was told to use. */
  datatype VoiceChoice = Named(name: string) | ById(id: string) | DefaultVoice

  /** What reached the loudspeaker: the cleaned text, in which voice. */
  datatype Utterance = Utterance(text: string, voice: VoiceChoice)

  /**
   * The observable result of one `speak` call: what was played (None when a
   * backend step failed and the exception was caught) and whether a rendered
   * AIFF file was left in /tmp.
   */
  datatype SpeakReport = SpeakReport(played: Option<Utterance>, leftoverFile: bool)

  class TextToSpeech {
    var voice: string
    var isMac: bool

    /** `__init__`: remember the preferred voice and whether `platform.system()` is "Darwin". */
    constructor (preferredVoiceName: string, platformSystem: string)
      ensures voice == preferredVoiceName && isMac == (platformSystem == "Darwin")
    {
      voice := preferredVoiceName;
      isMac := platformSystem == "Darwin";
    }

    /** The preferred-voice loop: the first voice whose name matches, or None when none does. */
    method FindVoice(voices: seq<Voice>) returns (found: Option<nat>)
      ensures found.Some? ==> found.value < |voices| && VoiceMatches(voice, voices[found.value])
      ensures found.Some? ==> forall j :: 0 <= j < found.value ==> !VoiceMatches(voice, voices[j])
      ensures found.None? ==> forall j :: 0 <= j < |voices| ==> !VoiceMatches(voice, voices[j])
    {
      var matched := false;
      found := None;
      var i := 0;
      while i < |voices|
        invariant 0 <= i <= |voices|
        invariant !matched && found == None
        invariant forall j :: 0 <= j < i ==> !VoiceMatches(voice, voices[j])
      {
        if Contains(Lower(voices[i].name), Lower(voice)) {
          found := Some(i);
          matched := true;
          break;
        }
        i := i + 1;
      }
    }

    /**
     * `speak`. On macOS `say` renders an AIFF file (`sayOk`), `afplay` plays
     * it (`playOk`) and only then is it removed (`removeOk`); once `say` has
     * rendered the file, a failure of `afplay` or of the removal leaves it in
     * /tmp. Elsewhere pyttsx3 starts (`engineOk`), the preferred voice is
     * searched among `voices`, and the engine speaks (`playOk`). Every failure
     * is caught; none escapes.
     */
    method Speak(text: string, sayOk: bool, engineOk: bool, voices: seq<Voice>, playOk: bool, removeOk: bool)
      returns (report: SpeakReport)
      ensures isMac ==> report.leftoverFile == (sayOk && (!playOk || !removeOk))
      ensures isMac ==>
        report.played == if sayOk && playOk then Some(Utterance(Sanitize(text), Named(voice))) else None
      ensures !isMac ==> !report.leftoverFile
      ensures !isMac ==> (report.played.Some? <==> engineOk && playOk)
      ensures !isMac && report.played.Some? ==> report.played.value.text == Sanitize(text)
      ensures !isMac && report.played.Some? ==>
        (report.played.value.voice == DefaultVoice <==> forall j :: 0 <= j < |voices| ==> !VoiceMatches(voice, voices[j]))
      ensures !isMac && report.played.Some? && report.played.value.voice != DefaultVoice ==>
        exists k :: 0 <= k < |voices| && report.played.value.voice == ById(voices[k].id)
          && VoiceMatches(voice, voices[k]) && forall j :: 0 <= j < k ==> !VoiceMatches(voice, voices[j])
    {
      var safeText := Sanitize(text);
      if isMac {
        if !sayOk {
          return SpeakReport(None, false);
        }
        if !playOk {
          return SpeakReport(None, true);
        }
        // The clip has been played by now; only its clean-up can still fail.
        return SpeakReport(Some(Utterance(safeText, Named(voice))), !removeOk);
      }
      if !engineOk {
        return SpeakReport(None, false);
      }
      var found := FindVoice(voices);
      var choice := if found.Some? then ById(voices[found.value].id) else DefaultVoice;
      assert found.Some? ==>
        choice == ById(voices[found.value].id) && VoiceMatches(voice, voices[found.value]);
      if !playOk {
        return SpeakReport(None, false);
      }
      return SpeakReport(Some(Utterance(safeText, choice)), false);
    }
  }
}
