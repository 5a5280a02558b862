/**
 * The value types of the feedback assistant: the learner level, the
 * requested tone, the request parameters and the structured feedback.
 * The two enumerations are string enums in the application; their string
 * values are given by `LevelValue` and `ToneValue`.
 */
module Types {
  import opened Wrappers

  /** The proficiency level the feedback is addressed to. */
  datatype LearnerLevel = Beginner | Intermediate | Advanced

  /** The tone the feedback is written in. */
  datatype FeedbackTone = Neutral | Benevolent | Encouraging

  /** The three fields of one feedback request. */
  datatype FeedbackParams = FeedbackParams(level: LearnerLevel, tone: FeedbackTone, text: string)

  /** The structured feedback: three lists of remarks and a closing message. */
  datatype Feedback = Feedback(
    strengths: seq<string>,
    areasForImprovement: seq<string>,
    suggestions: seq<string>,
    finalMessage: string)

  /** The string value of each level member. */
  function LevelValue(l: LearnerLevel): string
  {
    match l
    case Beginner => "débutant"
    case Intermediate => "intermédiaire"
    case Advanced => "avancé"
  }

  /** The string value of each tone member. */
  function ToneValue(t: FeedbackTone): string
  {
    match t
    case Neutral => "1"
    case Benevolent => "2"
    case Encouraging => "3"
  }

  /** Reads a level back from its string value; any other string is no level. */
  function LevelFromValue(s: string): (r: Option<LearnerLevel>)
    ensures r.Some? <==> s in {"débutant", "intermédiaire", "avancé"}
    ensures r.Some? ==> LevelValue(r.value) == s
  {
    if s == "débutant" then Some(Beginner)
    else if s == "intermédiaire" then Some(Intermediate)
    else if s == "avancé" then Some(Advanced)
    else None
  }

  /** Reads a tone back from its string value; any other string is no tone. */
  function ToneFromValue(s: string): (r: Option<FeedbackTone>)
    ensures r.Some? <==> s in {"1", "2", "3"}
    ensures r.Some? ==> ToneValue(r.value) == s
  {
    if s == "1" then Some(Neutral)
    else if s == "2" then Some(Benevolent)
    else if s == "3" then Some(Encouraging)
    else None
  }

  /** Every level is recovered from its string value, so distinct levels have distinct values. */
  lemma LevelValueRoundTrip(l: LearnerLevel)
    ensures LevelFromValue(LevelValue(l)) == Some(l)
    ensures forall m: LearnerLevel :: LevelValue(m) == LevelValue(l) ==> m == l
  {
    forall m: LearnerLevel | LevelValue(m) == LevelValue(l)
      ensures m == l
    {
      assert LevelValue(m)[0] == LevelValue(l)[0];
    }
  }

  /** Every tone is recovered from its string value, so distinct tones have distinct values. */
  lemma ToneValueRoundTrip(t: FeedbackTone)
    ensures ToneFromValue(ToneValue(t)) == Some(t)
    ensures forall u: FeedbackTone :: ToneValue(u) == ToneValue(t) ==> u == t
  {
  }
}
