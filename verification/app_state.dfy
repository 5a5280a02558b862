/**
 * The application's session state and its submission controller: the
 * submit handler, and the two ways the generation call it starts can
 * complete.
 */
module AppState {
  import opened Wrappers
  import opened Types
  import opened GeminiService
  import opened FeedbackForm
  import opened JsText
  import opened FeedbackDisplay

  /**
   * The session state: the three form fields, the last result, the
   * in-flight flag and the last error. The result is whatever value the
   * generation call resolved with, `JNull` when there is none: the cast in
   * the generation client checks nothing, so it need not be a feedback.
   */
  datatype State = State(
    level: LearnerLevel,
    tone: FeedbackTone,
    text: string,
    feedback: Json,
    isLoading: bool,
    error: Option<string>)

  /** The state a session starts in. */
  const Initial: State := State(Intermediate, Benevolent, "", JNull, false, None)

  /** What the user or the pending call can do. */
  datatype Event =
    | ChooseLevel(level: LearnerLevel)
    | ChooseTone(tone: FeedbackTone)
    | EditText(text: string)
    | Submit
    | Resolve(payload: Json)
    | Reject(thrown: Thrown)

  /** The state after the submit handler's synchronous part, and the request it starts, if any. */
  datatype Submission = Submission(state: State, request: Option<FeedbackParams>)

  /** The message shown for a rejected call. */
  const UnknownRejectMessage: string := "An unknown error occurred."

  /** The submit handler up to the call: an empty text does nothing; otherwise clear and start loading. */
  function HandleSubmit(s: State): (r: Submission)
    ensures s.text == [] ==> r.state == s && r.request.None?
    ensures s.text != [] ==> r.request == Some(FeedbackParams(s.level, s.tone, s.text))
    ensures s.text != [] ==> r.state.isLoading && r.state.error.None? && r.state.feedback == JNull
    ensures (r.state.level, r.state.tone, r.state.text) == (s.level, s.tone, s.text)
  {
    if s.text == [] then Submission(s, None)
    else Submission(s.(isLoading := true, error := None, feedback := JNull),
                    Some(FeedbackParams(s.level, s.tone, s.text)))
  }

  /** The message stored for a thrown value: its message if it is an `Error`, a fixed text otherwise. */
  function RejectMessage(e: Thrown): (msg: string)
    ensures e.ErrorObject? ==> msg == e.message
    ensures e.NonError? ==> msg == UnknownRejectMessage
  {
    match e
    case ErrorObject(m) => m
    case NonError => UnknownRejectMessage
  }

  /** The call resolved: store its value, whatever it is, and stop loading; the error is left as it was. */
  function OnResolve(s: State, payload: Json): (r: State)
    ensures r.feedback == payload && !r.isLoading && r.error == s.error
    ensures (r.level, r.tone, r.text) == (s.level, s.tone, s.text)
  {
    s.(feedback := payload, isLoading := false)
  }

  /** The call rejected: store the message, drop any result and stop loading. */
  function OnReject(s: State, e: Thrown): (r: State)
    ensures r.error == Some(RejectMessage(e)) && r.feedback == JNull && !r.isLoading
    ensures (r.level, r.tone, r.text) == (s.level, s.tone, s.text)
  {
    s.(error := Some(RejectMessage(e)), feedback := JNull, isLoading := false)
  }

  /** One event applied to the state. */
  function Next(s: State, ev: Event): State
  {
    match ev
    case ChooseLevel(l) => s.(level := l)
    case ChooseTone(t) => s.(tone := t)
    case EditText(t) => s.(text := t)
    case Submit => HandleSubmit(s).state
    case Resolve(payload) => OnResolve(s, payload)
    case Reject(e) => OnReject(s, e)
  }

  /**
   * The events the interface lets happen: submitting only through an
   * enabled button, and a completion only for the one call in flight.
   */
  predicate Permitted(s: State, ev: Event)
  {
    match ev
    case Submit => !SubmitDisabled(s.isLoading, s.text)
    case Resolve(_) => s.isLoading
    case Reject(_) => s.isLoading
    case _ => true
  }

  /** Result and error are never both set, and nothing is kept while a call is in flight. */
  predicate Consistent(s: State)
  {
    && !(s.feedback != JNull && s.error.Some?)
    && (s.isLoading ==> s.feedback == JNull && s.error.None?)
  }

  /** The state after a sequence of events. */
  function Run(s: State, evs: seq<Event>): State
    decreases |evs|
  {
    if evs == [] then s else Run(Next(s, evs[0]), evs[1..])
  }

  /** Every event of the sequence is one the interface allows at that point. */
  predicate PermittedRun(s: State, evs: seq<Event>)
    decreases |evs|
  {
    evs == [] || (Permitted(s, evs[0]) && PermittedRun(Next(s, evs[0]), evs[1..]))
  }

  /** Each permitted event keeps the state consistent. */
  lemma NextKeepsConsistent(s: State, ev: Event)
    requires Consistent(s) && Permitted(s, ev)
    ensures Consistent(Next(s, ev))
  {
  }

  /** From any consistent state, a sequence of permitted events leads to a consistent state. */
  lemma {:induction false} RunKeepsConsistent(s: State, evs: seq<Event>)
    requires Consistent(s) && PermittedRun(s, evs)
    ensures Consistent(Run(s, evs))
    decreases |evs|
  {
    if evs != [] {
      NextKeepsConsistent(s, evs[0]);
      RunKeepsConsistent(Next(s, evs[0]), evs[1..]);
    }
  }

  lemma InitialConsistent()
    ensures Consistent(Initial)
    ensures Initial.text == [] && Initial.feedback == JNull && Initial.error.None? && !Initial.isLoading
    ensures Initial.level == Intermediate && Initial.tone == Benevolent
  {
  }

  /**
   * The submit handler itself does not check the in-flight flag: two
   * overlapping calls, the first rejected and the second resolved, leave a
   * result and an error both set. Only the disabled button prevents it.
   */
  lemma OverlappingSubmissionsBreakExclusion(payload: Json, e: Thrown)
    requires payload != JNull
    ensures var s := Run(Initial, [EditText("x"), Submit, Submit, Reject(e), Resolve(payload)]);
            s.feedback == payload && s.error == Some(RejectMessage(e)) && !Consistent(s)
    ensures !PermittedRun(Initial, [EditText("x"), Submit, Submit, Reject(e), Resolve(payload)])
  {
    var evs := [EditText("x"), Submit, Submit, Reject(e), Resolve(payload)];
    var s1 := Next(Initial, evs[0]);
    var s2 := Next(s1, evs[1]);
    var s3 := Next(s2, evs[2]);
    var s4 := Next(s3, evs[3]);
    var s5 := Next(s4, evs[4]);
    assert Run(s5, evs[5..]) == s5;
    assert Run(s4, evs[4..]) == s5;
    assert Run(s3, evs[3..]) == s5;
    assert Run(s2, evs[2..]) == s5;
    assert Run(s1, evs[1..]) == s5;
    assert s2.isLoading && !Permitted(s2, evs[2]);
    assert !PermittedRun(s2, evs[2..]);
    assert !PermittedRun(s1, evs[1..]);
  }

  /**
   * One whole submission: the handler, the generation call on the request
   * it builds, and the completion that call leads to. `service` and `parse`
   * stand for the remote call and `JSON.parse`; the cast that follows the
   * parse checks nothing, so the parsed value reaches the state as it is.
   * Result and error are never both set; exactly one is set when the call
   * fails or its value has the declared shape, while a `null` value leaves
   * neither.
   */
  function SubmitAndComplete(s: State, service: string -> ServiceReply, parse: string -> Result<Json, Thrown>)
    : (r: State)
    ensures s.text == [] ==> r == s
    ensures s.text != [] ==> !r.isLoading && !(r.feedback != JNull && r.error.Some?)
    ensures s.text != [] ==> var g := GenerateFeedback(FeedbackParams(s.level, s.tone, s.text), service, parse);
      (g.Success? ==> r.feedback == g.value && r.error.None?) &&
      (g.Failure? ==> r.feedback == JNull && r.error == Some(g.error.message))
    ensures s.text != [] ==> var g := GenerateFeedback(FeedbackParams(s.level, s.tone, s.text), service, parse);
      (g.Failure? || Conforms(g.value, FeedbackSchema)) ==> (r.feedback != JNull) != r.error.Some?
    ensures (r.level, r.tone, r.text) == (s.level, s.tone, s.text)
  {
    var sub := HandleSubmit(s);
    match sub.request
    case None => sub.state
    case Some(p) =>
      match GenerateFeedback(p, service, parse)
      case Success(payload) => OnResolve(sub.state, payload)
      case Failure(e) => OnReject(sub.state, e)
  }

  /**
   * The messages that reach the state from a failed generation are always
   * the French ones; the English fallback is never used, because the
   * generation client only ever throws `Error` objects.
   */
  lemma RejectedGenerationMessage(p: FeedbackParams, service: string -> ServiceReply, parse: string -> Result<Json, Thrown>)
    requires GenerateFeedback(p, service, parse).Failure?
    ensures var msg := RejectMessage(GenerateFeedback(p, service, parse).error);
      (IsPrefix(ErrorPrefix, msg) || msg == UnknownErrorMessage) && msg != UnknownRejectMessage
  {
  }

  /**
   * The feedback the result area works with: `Some(None)` for a falsy
   * value, `Some(Some(f))` for a value of the declared shape, and `None`
   * for any other value. The model does not describe what such a value
   * shows; a missing list makes the copy text's computation throw.
   */
  function ViewedFeedback(j: Json): Option<Option<Feedback>>
  {
    if !Truthy(j) then Some(None) else
    match ReadFeedback(j)
    case Some(f) => Some(Some(f))
    case None => None
  }

  /** The panel the result area shows for a state, when the model describes it. */
  function PanelOf(s: State): Option<Panel>
  {
    match ViewedFeedback(s.feedback)
    case Some(viewed) => Some(SelectPanel(viewed, s.isLoading, s.error))
    case None => None
  }

  /**
   * What a submission shows: the loading panel while the call is in flight;
   * then the error message if the generation failed, the detailed feedback
   * if its value has the declared shape, and the waiting panel if the value
   * is falsy, `null` included. Any other value is not described.
   */
  lemma SubmissionPanels(s: State, service: string -> ServiceReply, parse: string -> Result<Json, Thrown>)
    requires s.text != []
    ensures PanelOf(HandleSubmit(s).state) == Some(LoadingPanel)
    ensures var g := GenerateFeedback(FeedbackParams(s.level, s.tone, s.text), service, parse);
      var panel := PanelOf(SubmitAndComplete(s, service, parse));
      (g.Failure? ==> panel == Some(ErrorPanel(g.error.message))) &&
      (g.Success? && Conforms(g.value, FeedbackSchema) ==>
         var f := ReadFeedback(g.value).value;
         panel == Some(FeedbackPanel(FeedbackSections(f), FinalMessageBlock(f)))) &&
      (g.Success? && !Truthy(g.value) ==> panel == Some(EmptyPanel)) &&
      (g.Success? && Truthy(g.value) && !Conforms(g.value, FeedbackSchema) ==> panel.None?)
  {
  }
}
