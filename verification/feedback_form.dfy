/**
 * The pure rules of the input form: the word counter and its label, the
 * submit-enabled predicate, and the two option tables with their
 * single-selection rule.
 */
module FeedbackForm {
  import opened Types
  import opened JsText

  // ---------------------------------------------------------------- word count

  /**
   * The word counter under the text area: 0 for empty or whitespace-only
   * text, otherwise the number of pieces a split of the trimmed text at
   * whitespace runs yields.
   */
  function WordCount(text: string): nat
  {
    var t := Trim(text);
    if t == [] then 0 else |SplitWs(t)|
  }

  /** The counter is the number of maximal non-whitespace runs of the text. */
  lemma WordCountIsRuns(text: string)
    ensures WordCount(text) == Runs(text)
  {
    var lead, trail := TrimParts(text);
    var t := Trim(text);
    RunsPadding(lead, t, trail);
    if t == [] {
      assert t + trail == trail;
      RunsAllSpace(trail, true);
    } else {
      SplitWsCount(t);
    }
  }

  /** The count is 0 exactly for empty or whitespace-only text. */
  lemma WordCountZero(text: string)
    ensures WordCount(text) == 0 <==> AllSpace(text)
  {
    var t := Trim(text);
    if t != [] {
      SplitWsCount(t);
      assert !IsSpace(t[0]);
      assert Runs(t) >= 1;
    }
  }

  /** Leading and trailing whitespace do not change the count. */
  lemma WordCountPadding(lead: string, text: string, trail: string)
    requires AllSpace(lead) && AllSpace(trail)
    ensures WordCount(lead + text + trail) == WordCount(text)
  {
    WordCountIsRuns(lead + text + trail);
    WordCountIsRuns(text);
    RunsPadding(lead, text, trail);
  }

  /** The counter computed in one pass over the text. */
  method CountWords(text: string) returns (n: nat)
    ensures n == WordCount(text)
  {
    n := 0;
    var afterSpace := true;
    var i := 0;
    while i < |text|
      invariant 0 <= i <= |text|
      invariant n + RunsFrom(text[i..], afterSpace) == Runs(text)
    {
      assert text[i..][1..] == text[i + 1..];
      if afterSpace && !IsSpace(text[i]) {
        n := n + 1;
      }
      afterSpace := IsSpace(text[i]);
      i := i + 1;
    }
    WordCountIsRuns(text);
  }

  /** The noun after the count: plural only above one. */
  function WordLabel(count: nat): (noun: string)
    ensures count <= 1 ==> noun == "mot"
    ensures count > 1 ==> noun == "mots"
  {
    "mot" + (if count > 1 then "s" else "")
  }

  // ---------------------------------------------------------------- submit button

  /** The submit button is disabled while loading or when the text is the empty string. */
  predicate SubmitDisabled(isLoading: bool, text: string)
  {
    isLoading || text == []
  }

  /** Whitespace-only text enables the button although its word count is 0. */
  lemma BlankTextEnablesSubmit(text: string)
    requires text != [] && AllSpace(text)
    ensures !SubmitDisabled(false, text) && WordCount(text) == 0
  {
    WordCountZero(text);
  }

  // ---------------------------------------------------------------- option tables

  datatype LevelOption = LevelOption(value: LearnerLevel, caption: string)
  datatype ToneOption = ToneOption(value: FeedbackTone, caption: string, description: string)

  const LevelOptions: seq<LevelOption> := [
    LevelOption(Beginner, "Débutant"),
    LevelOption(Intermediate, "Intermédiaire"),
    LevelOption(Advanced, "Avancé")
  ]

  const ToneOptions: seq<ToneOption> := [
    ToneOption(Neutral, "Neutre", "Professionnel et direct."),
    ToneOption(Benevolent, "Bienveillant", "Constructif et positif."),
    ToneOption(Encouraging, "Encourageant", "Très positif et motivant.")
  ]

  /**
   * The level radio group: the one option shown as checked for `current`.
   * Every level has exactly one option, so exactly one option is checked.
   */
  function CheckedLevelOption(current: LearnerLevel): (i: nat)
    ensures i < |LevelOptions| && LevelOptions[i].value == current
    ensures forall j :: 0 <= j < |LevelOptions| && LevelOptions[j].value == current ==> j == i
  {
    match current
    case Beginner => 0
    case Intermediate => 1
    case Advanced => 2
  }

  /** The tone radio group: exactly one option is checked, the one whose value is `current`. */
  function CheckedToneOption(current: FeedbackTone): (i: nat)
    ensures i < |ToneOptions| && ToneOptions[i].value == current
    ensures forall j :: 0 <= j < |ToneOptions| && ToneOptions[j].value == current ==> j == i
  {
    match current
    case Neutral => 0
    case Benevolent => 1
    case Encouraging => 2
  }

  /** Both tables list three options with distinct values, in enumeration order, with the values' strings. */
  lemma OptionTables()
    ensures |LevelOptions| == 3 && |ToneOptions| == 3
    ensures forall i, j :: 0 <= i < j < 3 ==> LevelOptions[i].value != LevelOptions[j].value
    ensures forall i, j :: 0 <= i < j < 3 ==> ToneOptions[i].value != ToneOptions[j].value
    ensures [LevelValue(LevelOptions[0].value), LevelValue(LevelOptions[1].value), LevelValue(LevelOptions[2].value)]
         == ["débutant", "intermédiaire", "avancé"]
    ensures [ToneValue(ToneOptions[0].value), ToneValue(ToneOptions[1].value), ToneValue(ToneOptions[2].value)]
         == ["1", "2", "3"]
  {
  }

  /** Clicking an option makes it, and only it, the checked one. */
  lemma ClickChecksOnlyThatOption(i: nat, j: nat)
    requires i < |LevelOptions| && j < |ToneOptions|
    ensures CheckedLevelOption(LevelOptions[i].value) == i
    ensures CheckedToneOption(ToneOptions[j].value) == j
  {
  }
}
