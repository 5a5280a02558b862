# Pedagogical feedback assistant — Dafny model

The application is a single-page form. A teacher pastes a learner's text, picks a learner level
(`débutant`, `intermédiaire`, `avancé`) and a tone (`1` neutral, `2` benevolent, `3` encouraging),
and submits. The application builds a French prompt and makes one call to a hosted generation
service that is asked for a four-field JSON answer. The feedback that comes back (strengths, areas
for improvement, suggestions, a final message) is shown in sections and can be copied as plain text.

This project models the deterministic parts of that application as pure Dafny functions over
immutable datatypes:

- `types.dfy` (module `Types`): the two enumerations with their string values, the request
  parameters (exactly a level, a tone and a text) and the feedback (three string sequences and
  `finalMessage`).
- `gemini_service.dfy` (module `GeminiService`): the tone phrases, the user-prompt template and a
  decoder that reads a prompt back. It also holds the declared response schema with a JSON
  conformance predicate, the `catch` block that rewraps errors, and `generateFeedback`. In that
  function the remote call and `JSON.parse` are parameters.
- `app_state.dfy` (module `AppState`): the session state `(level, tone, text, feedback, isLoading,
  error)` and the submit handler as events `Submit`, `Resolve`, `Reject` (plus the three form
  edits). It has a consistency invariant over runs of events, and one function for a whole
  submission: submit, the call, then the completion.
- `feedback_display.dfy` (module `FeedbackDisplay`): section omission, the final-message block,
  panel priority, the plain-text copy formatter and the copy guard.
- `feedback_form.dfy` (module `FeedbackForm`): the word counter with a one-pass method, its plural
  label, the submit-disabled predicate, and the two option tables with their single-selection rule.
- `js_text.dfy` (module `JsText`): the JavaScript primitives these rely on, modelled as the language
  defines them. These are `trim`, `split(/\s+/)`, `split` on one character and `join`. Whitespace
  is the ECMAScript WhiteSpace and LineTerminator set, which both `trim` and `\s` use.
- `wrappers.dfy` (module `Wrappers`): `Option` (JavaScript `null`) and `Result` (a value or a throw).

Behaviour of the code worth noting:

- The code returns the parsed payload with an unchecked cast; it never checks for a missing field.
  `GenerateFeedback` is generic in the payload type, so it cannot inspect the payload either. The
  session state therefore holds the parsed JSON value as it is. `Conforms` and `ReadFeedback` say
  which values have the declared shape and which feedback such a value carries; the application
  itself never checks. A `null` payload leaves neither a result nor an error set, and the result
  area then shows the waiting panel. A payload of another shape is not described: a missing list
  makes the computation of the copy text throw.
- The copy text always contains all four headers, including those of empty lists.
- The submit handler checks only for empty text. It does not check whether a call is already in
  flight: the disabled button is the only guard. `OverlappingSubmissionsBreakExclusion` shows that
  two overlapping calls could leave both a result and an error set. `RunKeepsConsistent` proves that
  this cannot happen when events go through the enabled button only.
- Submission is allowed for any non-empty text, including whitespace only (word count 0).
- The error panel uses JavaScript truthiness, so an empty error message shows no error panel.
- The prompt does not escape the `---` delimiters. The prompt is still injective, because the
  closing delimiter sits at a fixed distance from the end.

## Model

| member | source | states |
|---|---|---|
| Types.LevelFromValue | types.ts:1-5 | a string names a level exactly when it is one of 'débutant', 'intermédiaire', 'avancé', and then that level's value is the string |
| Types.ToneFromValue | types.ts:7-11 | a string names a tone exactly when it is '1', '2' or '3', and then that tone's value is the string |
| Types.LevelValueRoundTrip | types.ts:1-5 | each level is read back from its value, and no two levels share a value |
| Types.ToneValueRoundTrip | types.ts:7-11 | each tone is read back from its value, and no two tones share a value |
| GeminiService.ToneMapping | services/geminiService.ts:28-32 | the tone lookup is total and every phrase is non-empty |
| GeminiService.ToneMappingPrefixFree | services/geminiService.ts:28-32 | the three phrases are distinct, and even none is a prefix of another, so the phrase identifies the tone inside the prompt |
| GeminiService.UserPrompt | services/geminiService.ts:62-70 | the user prompt for one request; `PromptContents`, `PromptRoundTrip` and `DecodePromptSound` show it places the level value, the tone phrase and the verbatim text so that all three are read back, and nothing else is |
| GeminiService.PromptContents | services/geminiService.ts:62-70 | the prompt holds the level's value, then the tone phrase, then the opening `---` line, the learner text verbatim and the closing `---` line, at fixed positions |
| GeminiService.PromptRoundTrip | services/geminiService.ts:62-70 | level, tone and text can all be read back from the prompt |
| GeminiService.DecodePromptSound | services/geminiService.ts:62-70 | any string the decoder accepts is exactly the prompt of the request it returns |
| GeminiService.PromptInjective | services/geminiService.ts:62-70 | two requests with the same prompt are the same request, even when the text contains `---` lines |
| GeminiService.ReadFeedback | services/geminiService.ts:34-58 | a JSON value yields a feedback exactly when it conforms to the declared schema, and then its four declared fields are exactly that feedback's JSON |
| GeminiService.FeedbackSchemaExact | services/geminiService.ts:34-58 | the schema requires exactly strengths, areasForImprovement, suggestions, finalMessage, every feedback conforms, and reading its JSON gives it back |
| GeminiService.Rewrap | services/geminiService.ts:85-91 | every failure is rethrown as an Error; an Error's message gets the fixed French prefix, and anything else becomes the unknown-error message |
| GeminiService.RewrapRecoverable | services/geminiService.ts:87-90 | the original message can be recovered from the rewrapped one, and a rewrapped Error is never mistaken for a non-Error |
| GeminiService.GenerateFeedback | services/geminiService.ts:60-92 | one service call on the user prompt; a parsed payload is returned as-is with no check, and every failure comes back as a non-empty French Error message |
| AppState.InitialConsistent | App.tsx:10-15 | the session starts at level Intermediate, tone Benevolent, empty text, no feedback, not loading, no error |
| AppState.HandleSubmit | App.tsx:17-24 | empty text changes nothing and starts no request; otherwise loading is set, error and feedback are cleared, and the request is exactly the current level, tone and text |
| AppState.OnResolve | App.tsx:26-38 | a resolved call stores the resolved value as it is, `null` included, and clears loading, leaving the error as the submit cleared it |
| AppState.RejectMessage | App.tsx:29-34 | the stored message is the Error's message, or 'An unknown error occurred.' for any other thrown value |
| AppState.OnReject | App.tsx:29-38 | a rejected call stores the message, clears the feedback and clears loading |
| AppState.Next | App.tsx:17-38 | one event applied to the session: a form edit changes only its field, and submit, resolve and reject are the handler's steps; `NextKeepsConsistent` and `RunKeepsConsistent` show it keeps result and error exclusive under the permitted events |
| AppState.Permitted | components/FeedbackForm.tsx:121-124 | submit is possible only through the enabled button, and a completion only for the call in flight; `OverlappingSubmissionsBreakExclusion` shows the button is what keeps result and error exclusive |
| AppState.NextKeepsConsistent | App.tsx:17-38 | each event the interface permits keeps result and error exclusive, and keeps both empty while loading |
| AppState.RunKeepsConsistent | App.tsx:17-38 | every run of permitted events keeps result and error mutually exclusive |
| AppState.OverlappingSubmissionsBreakExclusion | App.tsx:17-38 | the handler alone does not prevent both being set: a second submit while loading, then a reject and a resolve, leaves both |
| AppState.SubmitAndComplete | App.tsx:17-39 | after a completed submission loading is off and result and error are never both set, whatever the payload; a failure stores its message, a success stores the payload as it is; exactly one is set when the call fails or the payload has the declared shape |
| AppState.RejectedGenerationMessage | App.tsx:29-34 | a failed generation always reaches the state as a French message, never the English fallback |
| AppState.SubmissionPanels | components/FeedbackDisplay.tsx:28-90 | while a call is in flight the loading panel shows; afterwards a failure shows its error message, a payload of the declared shape shows its detailed feedback, and a falsy payload such as `null` shows the waiting panel; other payloads are not described |
| FeedbackDisplay.RenderSection | components/FeedbackDisplay.tsx:11-26 | a section with no items renders nothing; otherwise one list item per element, in order, under the title |
| FeedbackDisplay.FeedbackSections | components/FeedbackDisplay.tsx:114-116 | the three titled sections in fixed order, each kept only when its list is non-empty, as `FeedbackSectionsAreNonEmpty` proves against an independent filter |
| FeedbackDisplay.FeedbackSectionsAreNonEmpty | components/FeedbackDisplay.tsx:114-116 | the rendered sections are exactly the non-empty ones among the three, in fixed order |
| FeedbackDisplay.FinalMessageBlock | components/FeedbackDisplay.tsx:118-126 | the final-message block is shown if and only if the message is non-empty |
| FeedbackDisplay.SelectPanel | components/FeedbackDisplay.tsx:56-88 | loading wins over error, an error over the empty state, the empty state over feedback; each panel's condition in both directions |
| FeedbackDisplay.ExampleFeedbackPanel | components/FeedbackDisplay.tsx:90-127 | one-item strengths, empty areas, two suggestions and a message render as two sections plus the message |
| FeedbackDisplay.FormattedFeedbackText | components/FeedbackDisplay.tsx:31-46 | the copy text is empty without feedback; otherwise it is the four headers in fixed order with their bullet lines, then the message, with no leading or trailing whitespace |
| FeedbackDisplay.CopyTextShape | components/FeedbackDisplay.tsx:33-45 | trimming removes only the leading line break and the whitespace after the final message |
| FeedbackDisplay.CopyTextLines | components/FeedbackDisplay.tsx:33-44 | when no item contains a line break, each item is on its own line as `- item` under its header, and an empty list leaves an empty line |
| FeedbackDisplay.HandleCopy | components/FeedbackDisplay.tsx:48-54 | copying does nothing without feedback; otherwise it copies the non-empty copy text |
| JsText.Trim | components/FeedbackForm.tsx:43 | the trimmed text has no whitespace at either end, and it is empty exactly for whitespace-only input |
| JsText.SplitWsCount | components/FeedbackForm.tsx:43 | splitting a non-empty trimmed text on whitespace runs yields one piece per word |
| FeedbackForm.WordCount | components/FeedbackForm.tsx:43 | the word counter; `WordCountIsRuns`, `WordCountZero` and `WordCountPadding` show it counts maximal non-whitespace runs, is 0 exactly for blank text and ignores surrounding whitespace |
| FeedbackForm.WordCountIsRuns | components/FeedbackForm.tsx:43 | the counter equals the number of maximal non-whitespace runs |
| FeedbackForm.WordCountZero | components/FeedbackForm.tsx:43 | the counter is 0 exactly for empty or whitespace-only text |
| FeedbackForm.WordCountPadding | components/FeedbackForm.tsx:43 | leading and trailing whitespace do not change the counter |
| FeedbackForm.CountWords | components/FeedbackForm.tsx:43 | a one-pass count over the text agrees with the trim-and-split counter |
| FeedbackForm.WordLabel | components/FeedbackForm.tsx:107 | the noun is 'mot' for counts 0 and 1 and 'mots' above 1 |
| FeedbackForm.SubmitDisabled | components/FeedbackForm.tsx:123 | the button is disabled while a call is in flight or the text is empty; `BlankTextEnablesSubmit` shows whitespace-only text still enables it |
| FeedbackForm.BlankTextEnablesSubmit | components/FeedbackForm.tsx:123 | non-empty whitespace-only text leaves the button enabled even though its word count is 0 |
| FeedbackForm.OptionTables | components/FeedbackForm.tsx:16-26 | each table lists three options with distinct values, one per enumeration member, carrying the members' strings |
| FeedbackForm.CheckedLevelOption | components/FeedbackForm.tsx:50-56 | exactly one level option is checked: the one whose value is the current level |
| FeedbackForm.CheckedToneOption | components/FeedbackForm.tsx:72-88 | exactly one tone option is checked: the one whose value is the current tone |
| FeedbackForm.ClickChecksOnlyThatOption | components/FeedbackForm.tsx:56 | clicking an option makes it the only checked one |

`AppState.Permitted` uses `FeedbackForm.SubmitDisabled` as the interface's discipline.
Building a prompt is deterministic by construction: every Dafny function gives equal results for
equal arguments, so no separate lemma states it.

## Left out

- The remote generation call and the model identifier (services/geminiService.ts:72-80): a call to
  a hosted service. It is the parameter `service`, which maps the prompt to a response text or a
  thrown value.
- `JSON.parse` (services/geminiService.ts:82): a library call. It is the parameter `parse`, which
  maps the response text to a JSON value or a thrown value. The cast after it checks nothing and is
  modelled as passing the value on unchanged. JSON numbers are modelled as integers: only whether a
  number is zero matters here.
- AppState.SubmissionPanels: says nothing about a truthy payload without the declared shape, because
  what it shows depends on JavaScript property access on values of the wrong type (a missing list
  throws while the copy text is computed); `AppState.PanelOf` returns `None` for such a state.
- The API-key check at module load (services/geminiService.ts:4-8): environment configuration.
- The wording of the system instruction (services/geminiService.ts:12-26) and the schema's
  `description` strings: natural-language guidance to the service, enforced by no code.
- The `responseMimeType` and `systemInstruction` configuration fields of the call: these are
  arguments of the remote call, which is not modelled.
- React rendering, CSS classes, icons, `key` props, the textarea's `required` attribute and the
  number printed before the word label: markup only.
- The clipboard write and the 2500 ms "copied" indicator (components/FeedbackDisplay.tsx:50-53):
  side effects and timing. `HandleCopy` returns the text that would be written.
- `async`/`await` and `console.error`: the flow is modelled as sequential submit, resolve and reject
  events. State updates after the component is torn down are not modelled.
