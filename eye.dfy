/**
 * Emotion selection (eye.py). NRCLex, DeepFace and the webcam are oracles:
 * their outputs arrive as parameters. What remains are three selection
 * rules: an argmax over text scores, the most frequent label over camera
 * frames, and the most severe of the collected candidates.
 */
module Eye {
  import opened Text
  import opened Wrappers

  /** `k` is the position Python's `max(xs, key=key)` picks: maximal key, and the first such. */
  ghost predicate IsFirstMax<T>(xs: seq<T>, key: T -> int, k: int) {
    0 <= k < |xs|
    && (forall j :: 0 <= j < |xs| ==> key(xs[j]) <= key(xs[k]))
    && (forall j :: 0 <= j < k ==> key(xs[j]) < key(xs[k]))
  }

  /** Python's `max` with a key: scan left to right, replacing the best only on a strictly larger key. */
  function FirstMaxIndex<T>(xs: seq<T>, key: T -> int): (k: nat)
    requires xs != []
    ensures IsFirstMax(xs, key, k)
    decreases |xs|
  {
    if |xs| == 1 then 0
    else
      var init := xs[..|xs| - 1];
      var k := FirstMaxIndex(init, key);
      assert forall j :: 0 <= j < |init| ==> init[j] == xs[j];
      if key(xs[|xs| - 1]) > key(xs[k]) then |xs| - 1 else k
  }

  // ---------------------------------------------------------------- text

  function Score(entry: (string, int)): int { entry.1 }

  /**
   * `analyze_text_emotion`. `scores` is NRCLex's `raw_emotion_scores` in
   * dictionary order, or None when NRCLex raised.
   */
  function TextEmotion(scores: Option<seq<(string, int)>>): (e: string)
    ensures scores.None? || scores.value == [] ==> e == "neutral"
    ensures scores.Some? && scores.value != [] ==>
      exists k :: IsFirstMax(scores.value, Score, k) && e == scores.value[k].0
  {
    if scores.None? || scores.value == [] then "neutral"
    else scores.value[FirstMaxIndex(scores.value, Score)].0
  }

  // ---------------------------------------------------------------- face

  /** One iteration of the frame loop: `cap.read` failed, DeepFace raised, or a dominant emotion. */
  datatype Frame = Unread | ClassifierError | Detected(dominant: string)

  /** The lower-cased labels the frame loop appends to `emotions`, in frame order. */
  function Collected(frames: seq<Frame>): (labels: seq<string>)
    ensures |labels| <= |frames|
    ensures forall l :: l in labels ==> Lower(l) == l
  {
    if frames == [] then []
    else
      var init := Collected(frames[..|frames| - 1]);
      match frames[|frames| - 1]
      case Detected(d) =>
        LowerIdempotent(d);
        init + [Lower(d)]
      case _ => init
  }

  /** The most frequent label (the program leaves ties to set order; this takes the first in list order). */
  function Mode(labels: seq<string>): (m: string)
    requires labels != []
    ensures m in labels
    ensures forall l :: l in labels ==> Count(labels, l) <= Count(labels, m)
  {
    var k := FirstMaxIndex(labels, l => Count(labels, l));
    labels[k]
  }

  /**
   * `analyze_facial_emotion`: the camera may fail to open; otherwise each of
   * the `framesToCapture` reads is one element of `frames`.
   */
  method FacialEmotion(cameraOpened: bool, framesToCapture: nat, frames: seq<Frame>) returns (e: string)
    requires |frames| == framesToCapture
    ensures !cameraOpened || Collected(frames) == [] ==> e == "neutral"
    ensures cameraOpened && Collected(frames) != [] ==> e == Mode(Collected(frames))
  {
    if !cameraOpened {
      return "neutral";
    }
    var emotions: seq<string> := [];
    for i := 0 to framesToCapture
      invariant emotions == Collected(frames[..i])
    {
      assert frames[..i + 1][..i] == frames[..i];
      match frames[i]
      case Unread =>
      case ClassifierError =>
      case Detected(d) =>
        emotions := emotions + [Lower(d)];
    }
    assert frames[..framesToCapture] == frames;
    if emotions == [] {
      return "neutral";
    }
    return Mode(emotions);
  }

  // ---------------------------------------------------------------- combined

  /** The `emotion_weights` table of `analyze_emotion`, looked up lower-cased; unknown labels weigh 0. */
  function Severity(name: string): (w: int)
    ensures 0 <= w <= 5
  {
    var l := Lower(name);
    if l == "anger" then 5
    else if l == "fear" || l == "sadness" || l == "disgust" then 4
    else if l == "neutral" then 3
    else if l == "trust" || l == "content" || l == "surprise" then 2
    else if l == "happy" || l == "joy" then 1
    else 0
  }

  /** The weight lookup does not depend on the label's case. */
  lemma SeverityIgnoresCase(name: string)
    ensures Severity(Lower(name)) == Severity(name)
  {
    LowerIdempotent(name);
  }

  /** `max(emotions, key=weight)`: the first candidate of greatest severity. */
  function MostSevere(candidates: seq<string>): (e: string)
    requires candidates != []
    ensures e in candidates
    ensures forall c :: c in candidates ==> Severity(c) <= Severity(e)
    ensures exists k :: IsFirstMax(candidates, Severity, k) && e == candidates[k]
  {
    candidates[FirstMaxIndex(candidates, Severity)]
  }

  /** "anger" (5) outweighs "happy" (1) in either order. */
  lemma AngerOutweighsHappiness(c: seq<string>)
    requires c == ["happy", "anger"] || c == ["anger", "happy"]
    ensures MostSevere(c) == "anger"
  {
    assert Lower("happy") == "happy";
    assert Lower("anger") == "anger";
    assert Severity("happy") == 1 && Severity("anger") == 5;
  }

  /** The candidates `analyze_emotion` collects: the text label first, then the facial one. */
  function Candidates(text: string, textLabel: string, useFacial: bool, facialLabel: string): seq<string> {
    (if text != "" then [textLabel] else []) + (if useFacial then [facialLabel] else [])
  }

  /**
   * `analyze_emotion`, where `text == ""` also stands for `text=None`, and
   * the facial analysis runs with its default of five frames.
   */
  method AnalyzeEmotion(text: string, useFacial: bool, scores: Option<seq<(string, int)>>,
                        cameraOpened: bool, frames: seq<Frame>)
    returns (e: string)
    requires |frames| == 5
    ensures text == "" && !useFacial ==> e == "neutral"
    ensures text != "" && !useFacial ==> e == TextEmotion(scores)
    ensures useFacial ==>
      var facial := if cameraOpened && Collected(frames) != [] then Mode(Collected(frames)) else "neutral";
      e == MostSevere(Candidates(text, TextEmotion(scores), true, facial))
  {
    var emotions: seq<string> := [];
    if text != "" {
      emotions := emotions + [TextEmotion(scores)];
    }
    if useFacial {
      var facial := FacialEmotion(cameraOpened, 5, frames);
      emotions := emotions + [facial];
    }
    if emotions == [] {
      return "neutral";
    }
    e := MostSevere(emotions);
    if text != "" && !useFacial {
      assert emotions == [TextEmotion(scores)];
    }
  }
}
