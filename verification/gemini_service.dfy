/**
 * The feedback generation client: the tone phrases, the user-prompt
 * template, the declared response schema and the error-rewrapping rule
 * around the single call to the hosted generation service.
 */
module GeminiService {
  import opened Wrappers
  import opened Types
  import opened JsText

  /** A thrown JavaScript value: an `Error` object with its message, or any other value. */
  datatype Thrown = ErrorObject(message: string) | NonError

  /** What the remote generation call yields for one prompt: the response text, or a thrown value. */
  datatype ServiceReply = Responded(text: string) | Threw(thrown: Thrown)

  // ---------------------------------------------------------------- tone phrases

  /** The phrase describing each tone inside the prompt. */
  function ToneMapping(t: FeedbackTone): (phrase: string)
    ensures phrase != []
  {
    match t
    case Neutral => "neutre professionnel"
    case Benevolent => "bienveillant"
    case Encouraging => "très bienveillant et encourageant"
  }

  /** The tone whose phrase starts `s`, if any. */
  function TonePhrasePrefix(s: string): (r: Option<FeedbackTone>)
    ensures r.Some? ==> IsPrefix(ToneMapping(r.value), s)
  {
    if IsPrefix(ToneMapping(Neutral), s) then Some(Neutral)
    else if IsPrefix(ToneMapping(Benevolent), s) then Some(Benevolent)
    else if IsPrefix(ToneMapping(Encouraging), s) then Some(Encouraging)
    else None
  }

  /** The level whose string value starts `s`, if any. */
  function LevelValuePrefix(s: string): (r: Option<LearnerLevel>)
    ensures r.Some? ==> IsPrefix(LevelValue(r.value), s)
  {
    if IsPrefix(LevelValue(Beginner), s) then Some(Beginner)
    else if IsPrefix(LevelValue(Intermediate), s) then Some(Intermediate)
    else if IsPrefix(LevelValue(Advanced), s) then Some(Advanced)
    else None
  }

  /**
   * The tone lookup is total and no phrase is a prefix of another, so the
   * phrase alone identifies the tone even when more text follows it.
   */
  lemma {:induction false} ToneMappingPrefixFree(t: FeedbackTone, rest: string)
    ensures TonePhrasePrefix(ToneMapping(t) + rest) == Some(t)
    ensures forall u: FeedbackTone :: ToneMapping(u) == ToneMapping(t) ==> u == t
  {
    var s := ToneMapping(t) + rest;
    assert s[..|ToneMapping(t)|] == ToneMapping(t);
    forall u: FeedbackTone | u != t
      ensures !IsPrefix(ToneMapping(u), s)
    {
      assert ToneMapping(u)[0] != ToneMapping(t)[0];
      assert s[0] == ToneMapping(t)[0];
    }
    forall u: FeedbackTone | ToneMapping(u) == ToneMapping(t)
      ensures u == t
    {
      assert ToneMapping(u)[0] == ToneMapping(t)[0];
    }
  }

  /** No level value is a prefix of another. */
  lemma {:induction false} LevelValuePrefixFree(l: LearnerLevel, rest: string)
    ensures LevelValuePrefix(LevelValue(l) + rest) == Some(l)
  {
    var s := LevelValue(l) + rest;
    assert s[..|LevelValue(l)|] == LevelValue(l);
    forall m: LearnerLevel | m != l
      ensures !IsPrefix(LevelValue(m), s)
    {
      assert LevelValue(m)[0] != LevelValue(l)[0];
      assert s[0] == LevelValue(l)[0];
    }
  }

  // ---------------------------------------------------------------- user prompt

  /** The fixed text of the prompt up to the level value. */
  const LevelLineOpen: string := "\n      Paramètres d’entrée :\n      Niveau de l’apprenant : "
  /** The fixed text between the level value and the tone phrase. */
  const ToneLineOpen: string := "\n      Ton souhaité : "
  /** The line break and indentation before the opening `---` line, the line and the indentation after it. */
  const OpenDelimiter: string := "\n      ---\n      "
  /** The line break before the closing `---` line, and the line itself. */
  const CloseDelimiter: string := "\n      ---"
  /** The line announcing the learner text; it ends in a space. */
  const TextCaption: string := "\n      Texte à évaluer : "
  /** The fixed text between the tone phrase and the learner text. */
  const TextOpen: string := TextCaption + OpenDelimiter
  /** The fixed text after the learner text. */
  const TextClose: string := CloseDelimiter + "\n    "

  /** The position of the learner text in the prompt. */
  function TextStart(level: LearnerLevel, tone: FeedbackTone): nat
  {
    |LevelLineOpen| + |LevelValue(level)| + |ToneLineOpen| + |ToneMapping(tone)| + |TextOpen|
  }

  /** The user prompt sent to the generation service for one request. */
  function UserPrompt(p: FeedbackParams): string
  {
    LevelLineOpen + (LevelValue(p.level) + (ToneLineOpen + (ToneMapping(p.tone) + (TextOpen + (p.text + TextClose)))))
  }

  /**
   * The prompt holds the level value, then the tone phrase, then the
   * learner text verbatim between the opening and the closing `---` lines.
   */
  lemma PromptContents(p: FeedbackParams)
    ensures var prompt := UserPrompt(p);
      && OccursAt(LevelValue(p.level), prompt, |LevelLineOpen|)
      && OccursAt(ToneMapping(p.tone), prompt, |LevelLineOpen| + |LevelValue(p.level)| + |ToneLineOpen|)
      && OccursAt(OpenDelimiter, prompt, TextStart(p.level, p.tone) - |OpenDelimiter|)
      && OccursAt(p.text, prompt, TextStart(p.level, p.tone))
      && OccursAt(CloseDelimiter, prompt, TextStart(p.level, p.tone) + |p.text|)
      && |prompt| == TextStart(p.level, p.tone) + |p.text| + |TextClose|
  {
    PromptLayout(LevelLineOpen, LevelValue(p.level), ToneLineOpen, ToneMapping(p.tone), TextCaption, OpenDelimiter,
                 TextOpen, p.text, CloseDelimiter, "\n    ", TextClose);
  }

  /** Where each part lies in a concatenation shaped like the prompt. */
  lemma PromptLayout(a: string, lv: string, b: string, tp: string, caption: string, od: string, open: string,
                     text: string, cd: string, tail: string, close: string)
    requires open == caption + od && close == cd + tail
    ensures var s := a + (lv + (b + (tp + (open + (text + close)))));
      && OccursAt(lv, s, |a|)
      && OccursAt(tp, s, |a| + |lv| + |b|)
      && OccursAt(od, s, |a| + |lv| + |b| + |tp| + |open| - |od|)
      && OccursAt(text, s, |a| + |lv| + |b| + |tp| + |open|)
      && OccursAt(cd, s, |a| + |lv| + |b| + |tp| + |open| + |text|)
      && |s| == |a| + |lv| + |b| + |tp| + |open| + |text| + |close|
  {
    var rest := text + close;
    var s4 := open + rest;
    var s2 := b + (tp + s4);
    OccursConcat(a, lv, s2);
    OccursConcat(b, tp, s4);
    OccursShift(tp, s2, |b|, lv);
    OccursShift(tp, lv + s2, |lv| + |b|, a);
    assert s4 == caption + (od + rest);
    OccursConcat(caption, od, rest);
    OccursConcat(open, text, close);
    assert rest == text + (cd + tail);
    OccursConcat(text, cd, tail);
    OccursShift(cd, rest, |text|, open);
    ShiftFour(od, s4, |caption|, tp, b, lv, a);
    ShiftFour(text, s4, |open|, tp, b, lv, a);
    ShiftFour(cd, s4, |open| + |text|, tp, b, lv, a);
  }

  /** An occurrence keeps its place, shifted, when four texts are put in front. */
  lemma ShiftFour(n: string, h: string, at: nat, a3: string, a2: string, a1: string, a0: string)
    requires OccursAt(n, h, at)
    ensures OccursAt(n, a0 + (a1 + (a2 + (a3 + h))), |a0| + |a1| + |a2| + |a3| + at)
  {
    OccursShift(n, h, at, a3);
    OccursShift(n, a3 + h, |a3| + at, a2);
    OccursShift(n, a2 + (a3 + h), |a2| + |a3| + at, a1);
    OccursShift(n, a1 + (a2 + (a3 + h)), |a1| + |a2| + |a3| + at, a0);
  }

  /**
   * Reads the request back out of a prompt: the fixed texts must match, the
   * level value and the tone phrase are recognised by prefix, and the learner
   * text is whatever lies between the opening and the closing delimiter.
   * Each stage below reads one part of the template.
   */
  function DecodePrompt(s: string): Option<FeedbackParams>
  {
    if !IsPrefix(LevelLineOpen, s) then None
    else DecodeLevel(s[|LevelLineOpen|..])
  }

  function DecodeLevel(s1: string): Option<FeedbackParams>
  {
    match LevelValuePrefix(s1)
    case None => None
    case Some(level) => DecodeToneLine(level, s1[|LevelValue(level)|..])
  }

  function DecodeToneLine(level: LearnerLevel, s2: string): Option<FeedbackParams>
  {
    if !IsPrefix(ToneLineOpen, s2) then None
    else DecodeTone(level, s2[|ToneLineOpen|..])
  }

  function DecodeTone(level: LearnerLevel, s3: string): Option<FeedbackParams>
  {
    match TonePhrasePrefix(s3)
    case None => None
    case Some(tone) => DecodeText(level, tone, s3[|ToneMapping(tone)|..])
  }

  function DecodeText(level: LearnerLevel, tone: FeedbackTone, s4: string): Option<FeedbackParams>
  {
    if !IsPrefix(TextOpen, s4) then None
    else
      var s5 := s4[|TextOpen|..];
      if |s5| < |TextClose| || s5[|s5| - |TextClose|..] != TextClose then None
      else Some(FeedbackParams(level, tone, s5[..|s5| - |TextClose|]))
  }

  /** The prompt carries the level, the tone and the learner text so that all three can be read back. */
  lemma {:induction false} PromptRoundTrip(p: FeedbackParams)
    ensures DecodePrompt(UserPrompt(p)) == Some(p)
  {
    var lv, tp := LevelValue(p.level), ToneMapping(p.tone);
    var s5 := p.text + TextClose;
    var s4 := TextOpen + s5;
    var s3 := tp + s4;
    var s2 := ToneLineOpen + s3;
    var s1 := lv + s2;
    var s := LevelLineOpen + s1;
    assert s == UserPrompt(p);
    PrefixConcat(LevelLineOpen, s1);
    LevelValuePrefixFree(p.level, s2);
    PrefixConcat(lv, s2);
    PrefixConcat(ToneLineOpen, s3);
    ToneMappingPrefixFree(p.tone, s4);
    PrefixConcat(tp, s4);
    PrefixConcat(TextOpen, s5);
    assert s5[|s5| - |TextClose|..] == TextClose;
    assert s5[..|s5| - |TextClose|] == p.text;
  }

  /** Whatever the decoder accepts is exactly the prompt of the request it returns. */
  lemma {:induction false} DecodePromptSound(s: string)
    requires DecodePrompt(s).Some?
    ensures UserPrompt(DecodePrompt(s).value) == s
  {
    var s1 := s[|LevelLineOpen|..];
    DecodeLevelSound(s1);
    PrefixSplit(LevelLineOpen, s);
  }

  lemma DecodeLevelSound(s1: string)
    requires DecodeLevel(s1).Some?
    ensures var p := DecodeLevel(s1).value;
      s1 == LevelValue(p.level) + (ToneLineOpen + (ToneMapping(p.tone) + (TextOpen + (p.text + TextClose))))
  {
    var level := LevelValuePrefix(s1).value;
    var s2 := s1[|LevelValue(level)|..];
    DecodeToneLineSound(level, s2);
    PrefixSplit(LevelValue(level), s1);
  }

  lemma DecodeToneLineSound(level: LearnerLevel, s2: string)
    requires DecodeToneLine(level, s2).Some?
    ensures var p := DecodeToneLine(level, s2).value;
      p.level == level && s2 == ToneLineOpen + (ToneMapping(p.tone) + (TextOpen + (p.text + TextClose)))
  {
    var s3 := s2[|ToneLineOpen|..];
    DecodeToneSound(level, s3);
    PrefixSplit(ToneLineOpen, s2);
  }

  lemma DecodeToneSound(level: LearnerLevel, s3: string)
    requires DecodeTone(level, s3).Some?
    ensures var p := DecodeTone(level, s3).value;
      p.level == level && s3 == ToneMapping(p.tone) + (TextOpen + (p.text + TextClose))
  {
    var tone := TonePhrasePrefix(s3).value;
    var s4 := s3[|ToneMapping(tone)|..];
    DecodeTextSound(level, tone, s4);
    PrefixSplit(ToneMapping(tone), s3);
  }

  lemma DecodeTextSound(level: LearnerLevel, tone: FeedbackTone, s4: string)
    requires DecodeText(level, tone, s4).Some?
    ensures var p := DecodeText(level, tone, s4).value;
      p.level == level && p.tone == tone && s4 == TextOpen + (p.text + TextClose)
  {
    var s5 := s4[|TextOpen|..];
    assert s5 == s5[..|s5| - |TextClose|] + s5[|s5| - |TextClose|..];
    PrefixSplit(TextOpen, s4);
  }

  /** Distinct requests give distinct prompts: the template loses nothing, even when the text itself holds `---` lines. */
  lemma PromptInjective(p: FeedbackParams, q: FeedbackParams)
    requires UserPrompt(p) == UserPrompt(q)
    ensures p == q
  {
    PromptRoundTrip(p);
    PromptRoundTrip(q);
  }

  // ---------------------------------------------------------------- response schema

  /** The subset of the service's schema language the application uses. */
  datatype SchemaType =
    | StringType
    | ArrayOf(items: SchemaType)
    | ObjectType(properties: seq<(string, SchemaType)>, required: seq<string>)

  /** A parsed JSON value. */
  datatype Json =
    | JNull
    | JBool(b: bool)
    | JNumber(n: int)
    | JString(s: string)
    | JArray(elems: seq<Json>)
    | JObject(fields: map<string, Json>)

  /** JavaScript truthiness of a parsed value: `null`, `false`, `0` and `""` are falsy. */
  predicate Truthy(j: Json)
  {
    match j
    case JNull => false
    case JBool(b) => b
    case JNumber(n) => n != 0
    case JString(s) => s != []
    case _ => true
  }

  const StringArray: SchemaType := ArrayOf(StringType)

  /** The declared shape of the service's answer. */
  const FeedbackSchema: SchemaType := ObjectType(
    [ ("strengths", StringArray),
      ("areasForImprovement", StringArray),
      ("suggestions", StringArray),
      ("finalMessage", StringType) ],
    ["strengths", "areasForImprovement", "suggestions", "finalMessage"])

  /**
   * Whether `j` has the shape `t` declares: required properties present,
   * and every declared property that is present of its declared type.
   */
  predicate Conforms(j: Json, t: SchemaType)
    decreases t
  {
    match t
    case StringType => j.JString?
    case ArrayOf(it) =>
      j.JArray? && forall k :: 0 <= k < |j.elems| ==> Conforms(j.elems[k], it)
    case ObjectType(props, req) =>
      && j.JObject?
      && (forall name :: name in req ==> name in j.fields)
      && (forall i :: 0 <= i < |props| && props[i].0 in j.fields ==> Conforms(j.fields[props[i].0], props[i].1))
  }

  function StringsToJson(xs: seq<string>): (j: Json)
    ensures j.JArray? && |j.elems| == |xs|
  {
    JArray(seq(|xs|, k requires 0 <= k < |xs| => JString(xs[k])))
  }

  /** The JSON object a feedback value stands for. */
  function FeedbackToJson(f: Feedback): Json
  {
    JObject(map[
      "strengths" := StringsToJson(f.strengths),
      "areasForImprovement" := StringsToJson(f.areasForImprovement),
      "suggestions" := StringsToJson(f.suggestions),
      "finalMessage" := JString(f.finalMessage)])
  }

  function JsonStrings(j: Json): seq<string>
    requires Conforms(j, StringArray)
  {
    seq(|j.elems|, k requires 0 <= k < |j.elems| => j.elems[k].s)
  }

  /** A string array is the JSON of the strings it holds. */
  lemma JsonStringsBack(j: Json)
    requires Conforms(j, StringArray)
    ensures StringsToJson(JsonStrings(j)) == j
  {
    var a := StringsToJson(JsonStrings(j));
    forall k | 0 <= k < |j.elems| ensures a.elems[k] == j.elems[k] {
      assert Conforms(j.elems[k], StringType);
    }
  }

  /**
   * The feedback value a conforming JSON object stands for, or `None` when
   * it does not conform; the object holds exactly that feedback's four
   * fields, and possibly others.
   */
  function ReadFeedback(j: Json): (r: Option<Feedback>)
    ensures r.Some? <==> Conforms(j, FeedbackSchema)
    ensures r.Some? ==> var own := FeedbackToJson(r.value).fields;
      forall name :: name in own ==> name in j.fields && j.fields[name] == own[name]
  {
    if !Conforms(j, FeedbackSchema) then None
    else
      var props := FeedbackSchema.properties;
      assert Conforms(j.fields[props[0].0], props[0].1);
      assert Conforms(j.fields[props[1].0], props[1].1);
      assert Conforms(j.fields[props[2].0], props[2].1);
      assert Conforms(j.fields[props[3].0], props[3].1);
      JsonStringsBack(j.fields["strengths"]);
      JsonStringsBack(j.fields["areasForImprovement"]);
      JsonStringsBack(j.fields["suggestions"]);
      Some(Feedback(
        JsonStrings(j.fields["strengths"]),
        JsonStrings(j.fields["areasForImprovement"]),
        JsonStrings(j.fields["suggestions"]),
        j.fields["finalMessage"].s))
  }

  /**
   * The schema describes exactly the feedback type: it requires exactly
   * the four fields, every feedback value conforms to it, and reading a
   * feedback's JSON gives that feedback back.
   */
  lemma FeedbackSchemaExact(f: Feedback)
    ensures FeedbackSchema.required == ["strengths", "areasForImprovement", "suggestions", "finalMessage"]
    ensures forall i :: 0 <= i < |FeedbackSchema.properties| ==> FeedbackSchema.properties[i].0 == FeedbackSchema.required[i]
    ensures Conforms(FeedbackToJson(f), FeedbackSchema)
    ensures ReadFeedback(FeedbackToJson(f)) == Some(f)
  {
    var j := FeedbackToJson(f);
    forall xs: seq<string> ensures Conforms(StringsToJson(xs), StringArray) {
      var a := StringsToJson(xs);
      forall k | 0 <= k < |a.elems| ensures Conforms(a.elems[k], StringType) {
      }
    }
    assert Conforms(j, FeedbackSchema);
    var r := ReadFeedback(j).value;
    assert r.strengths == f.strengths;
    assert r.areasForImprovement == f.areasForImprovement;
    assert r.suggestions == f.suggestions;
  }

  // ---------------------------------------------------------------- generation and errors

  const ErrorOpening: string := "Une erreur "
  const ErrorClosing: string := "survenue lors de la génération du feedback"
  /** The prefix of the message of every rethrown `Error`. */
  const ErrorPrefix: string := ErrorOpening + "est " + ErrorClosing + ": "
  /** The message rethrown for a thrown value that is not an `Error`. */
  const UnknownErrorMessage: string := ErrorOpening + "inconnue est " + ErrorClosing + "."

  /** The `catch` block: every failure is rethrown as an `Error` with a French message. */
  function Rewrap(e: Thrown): (r: Thrown)
    ensures r.ErrorObject? && r.message != []
    ensures e.ErrorObject? ==> IsPrefix(ErrorPrefix, r.message) && r.message[|ErrorPrefix|..] == e.message
    ensures e.NonError? ==> r.message == UnknownErrorMessage
  {
    match e
    case ErrorObject(m) =>
      var msg := ErrorPrefix + m;
      assert msg[..|ErrorPrefix|] == ErrorPrefix;
      ErrorObject(msg)
    case NonError => ErrorObject(UnknownErrorMessage)
  }

  /** Recovers the original message from a rewrapped one; `None` for the unknown-error message. */
  function UnwrapMessage(msg: string): Option<string>
  {
    if IsPrefix(ErrorPrefix, msg) then Some(msg[|ErrorPrefix|..]) else None
  }

  /** The rewrapping keeps the original message and tells an `Error` apart from any other thrown value. */
  lemma RewrapRecoverable(e: Thrown)
    ensures UnwrapMessage(Rewrap(e).message) == (if e.ErrorObject? then Some(e.message) else None)
  {
    if e.NonError? {
      assert ErrorPrefix[|ErrorOpening|] == 'e';
      assert UnknownErrorMessage[|ErrorOpening|] == 'i';
    }
  }

  /**
   * `generateFeedback`: one call of `service` on the user prompt, then
   * `parse` on the response text. `parse` stands for `JSON.parse` followed by
   * the unchecked cast to the feedback type; the payload type `P` is opaque
   * here, so whatever `parse` yields is returned untouched, with no local
   * check against the schema.
   */
  function GenerateFeedback<P>(p: FeedbackParams, service: string -> ServiceReply, parse: string -> Result<P, Thrown>)
    : (r: Result<P, Thrown>)
    ensures r.Failure? ==> r.error.ErrorObject? && r.error.message != []
    ensures r.Failure? ==> IsPrefix(ErrorPrefix, r.error.message) || r.error.message == UnknownErrorMessage
    ensures service(UserPrompt(p)).Threw? ==> r == Failure(Rewrap(service(UserPrompt(p)).thrown))
    ensures service(UserPrompt(p)).Responded? && parse(service(UserPrompt(p)).text).Success?
            ==> r == parse(service(UserPrompt(p)).text)
    ensures service(UserPrompt(p)).Responded? && parse(service(UserPrompt(p)).text).Failure?
            ==> r == Failure(Rewrap(parse(service(UserPrompt(p)).text).error))
  {
    match service(UserPrompt(p))
    case Threw(e) => Failure(Rewrap(e))
    case Responded(text) =>
      match parse(text)
      case Success(payload) => Success(payload)
      case Failure(e) => Failure(Rewrap(e))
  }
}
