/**
 * The pure rules of the result panel: which panel shows, which sections
 * of a feedback are rendered, and the plain text offered for copying.
 */
module FeedbackDisplay {
  import opened Wrappers
  import opened Types
  import opened JsText

  // ---------------------------------------------------------------- sections and panels

  /** A rendered section: its title and its list items, one per remark. */
  datatype Section = Section(title: string, items: seq<string>)

  /** What the result area shows. */
  datatype Panel =
    | LoadingPanel
    | ErrorPanel(message: string)
    | EmptyPanel
    | FeedbackPanel(sections: seq<Section>, finalMessage: Option<string>)

  const StrengthsTitle: string := "Points Forts"
  const AreasTitle: string := "Points à Améliorer"
  const SuggestionsTitle: string := "Pistes d'Amélioration"

  /** A section with no remarks renders nothing; otherwise one list item per remark, in order. */
  function RenderSection(title: string, items: seq<string>): (r: Option<Section>)
    ensures r.None? <==> items == []
    ensures r.Some? ==> r.value.title == title && |r.value.items| == |items|
    ensures r.Some? ==> forall k :: 0 <= k < |items| ==> r.value.items[k] == items[k]
  {
    if |items| == 0 then None else Some(Section(title, items))
  }

  function Present(r: Option<Section>): seq<Section>
  {
    match r
    case None => []
    case Some(sec) => [sec]
  }

  /** The sections of the detailed feedback, in their fixed order. */
  function FeedbackSections(f: Feedback): seq<Section>
  {
    Present(RenderSection(StrengthsTitle, f.strengths))
    + Present(RenderSection(AreasTitle, f.areasForImprovement))
    + Present(RenderSection(SuggestionsTitle, f.suggestions))
  }

  /** The final-message block: shown exactly when the message is not the empty string. */
  function FinalMessageBlock(f: Feedback): (r: Option<string>)
    ensures r.Some? <==> f.finalMessage != []
    ensures r.Some? ==> r.value == f.finalMessage
  {
    if f.finalMessage != [] then Some(f.finalMessage) else None
  }

  /** Keeps the sections that have at least one remark, in order. */
  function NonEmpty(all: seq<Section>): (r: seq<Section>)
  {
    if all == [] then []
    else if all[0].items == [] then NonEmpty(all[1..])
    else [all[0]] + NonEmpty(all[1..])
  }

  /** The three possible sections of a feedback, empty or not. */
  function AllSections(f: Feedback): seq<Section>
  {
    [Section(StrengthsTitle, f.strengths),
     Section(AreasTitle, f.areasForImprovement),
     Section(SuggestionsTitle, f.suggestions)]
  }

  /** The rendered sections are exactly the non-empty ones among the three, in the fixed order. */
  lemma FeedbackSectionsAreNonEmpty(f: Feedback)
    ensures FeedbackSections(f) == NonEmpty(AllSections(f))
    ensures forall k :: 0 <= k < |FeedbackSections(f)| ==> FeedbackSections(f)[k].items != []
  {
    var all := AllSections(f);
    assert all[1..][1..][1..] == [];
    assert NonEmpty(all[1..][1..]) == Present(RenderSection(SuggestionsTitle, f.suggestions));
    assert NonEmpty(all[1..]) == Present(RenderSection(AreasTitle, f.areasForImprovement))
      + Present(RenderSection(SuggestionsTitle, f.suggestions));
  }

  /**
   * The panel for the current state: loading wins over an error, an error
   * over the empty state, and the empty state over a feedback. An error is
   * shown only when its message is not the empty string.
   */
  function SelectPanel(feedback: Option<Feedback>, isLoading: bool, error: Option<string>): (r: Panel)
    ensures r.LoadingPanel? <==> isLoading
    ensures r.ErrorPanel? <==> !isLoading && error.Some? && error.value != []
    ensures r.ErrorPanel? ==> r.message == error.value
    ensures r.EmptyPanel? <==> !isLoading && (error.None? || error.value == []) && feedback.None?
    ensures r.FeedbackPanel? <==> !isLoading && (error.None? || error.value == []) && feedback.Some?
    ensures r.FeedbackPanel? ==> r.sections == FeedbackSections(feedback.value)
    ensures r.FeedbackPanel? ==> r.finalMessage == FinalMessageBlock(feedback.value)
  {
    if isLoading then LoadingPanel
    else if error.Some? && error.value != [] then ErrorPanel(error.value)
    else if feedback.None? then EmptyPanel
    else FeedbackPanel(FeedbackSections(feedback.value), FinalMessageBlock(feedback.value))
  }

  /** The example of a well-formed answer with one empty list. */
  lemma ExampleFeedbackPanel()
    ensures var f := Feedback(["a"], [], ["b", "c"], "Good job");
      SelectPanel(Some(f), false, None)
      == FeedbackPanel([Section(StrengthsTitle, ["a"]), Section(SuggestionsTitle, ["b", "c"])], Some("Good job"))
  {
  }

  // ---------------------------------------------------------------- copy text

  const StrengthsHeader: string := "POINTS FORTS :"
  const AreasHeader: string := "POINTS À AMÉLIORER :"
  const SuggestionsHeader: string := "PISTES D’AMÉLIORATION :"
  const FinalHeader: string := "MESSAGE FINAL :"

  /** One `- item` line per remark. */
  function BulletLines(items: seq<string>): (lines: seq<string>)
    ensures |lines| == |items|
  {
    seq(|items|, k requires 0 <= k < |items| => "- " + items[k])
  }

  /** The remarks, each prefixed with `- `, joined by line breaks. */
  function Bullets(items: seq<string>): string
  {
    Join(BulletLines(items), "\n")
  }

  /** The text of the copy template before trimming. */
  function RawCopyText(f: Feedback): string
  {
    "\n" + (StrengthsHeader + "\n" + Bullets(f.strengths)
    + "\n\n" + AreasHeader + "\n" + Bullets(f.areasForImprovement)
    + "\n\n" + SuggestionsHeader + "\n" + Bullets(f.suggestions)
    + "\n\n" + FinalHeader) + "\n" + f.finalMessage + "\n        "
  }

  /** The lines of a section's list in the copy text: the bullets, or one empty line when there are none. */
  function ItemLines(items: seq<string>): seq<string>
  {
    if items == [] then [""] else BulletLines(items)
  }

  /** The lines of the copy text up to and including the final header, all four headers in fixed order. */
  function CopyLines(f: Feedback): seq<string>
  {
    [StrengthsHeader] + ItemLines(f.strengths)
    + ["", AreasHeader] + ItemLines(f.areasForImprovement)
    + ["", SuggestionsHeader] + ItemLines(f.suggestions)
    + ["", FinalHeader]
  }

  /**
   * The copy text: empty without a feedback; otherwise the lines of
   * `CopyLines` joined by line breaks, then the final message, with the
   * surrounding whitespace trimmed away.
   */
  function FormattedFeedbackText(feedback: Option<Feedback>): (r: string)
    ensures feedback.None? ==> r == []
    ensures feedback.Some? ==> r == Join(CopyLines(feedback.value), "\n") + TrimEnd("\n" + feedback.value.finalMessage)
    ensures Trimmed(r)
  {
    match feedback
    case None => []
    case Some(f) =>
      CopyTextShape(f);
      Trim(RawCopyText(f))
  }

  lemma JoinItemLines(items: seq<string>)
    ensures Join(ItemLines(items), "\n") == Bullets(items)
  {
  }

  lemma JoinCopyLines(f: Feedback)
    ensures Join(CopyLines(f), "\n") ==
      StrengthsHeader + "\n" + Bullets(f.strengths)
      + "\n\n" + AreasHeader + "\n" + Bullets(f.areasForImprovement)
      + "\n\n" + SuggestionsHeader + "\n" + Bullets(f.suggestions)
      + "\n\n" + FinalHeader
  {
    var il1, il2, il3 := ItemLines(f.strengths), ItemLines(f.areasForImprovement), ItemLines(f.suggestions);
    JoinItemLines(f.strengths);
    JoinItemLines(f.areasForImprovement);
    JoinItemLines(f.suggestions);
    var l1 := [StrengthsHeader] + il1;
    JoinAppend([StrengthsHeader], il1, "\n");
    var l2 := l1 + ["", AreasHeader];
    JoinGap(l1, AreasHeader);
    var l3 := l2 + il2;
    JoinAppend(l2, il2, "\n");
    var l4 := l3 + ["", SuggestionsHeader];
    JoinGap(l3, SuggestionsHeader);
    var l5 := l4 + il3;
    JoinAppend(l4, il3, "\n");
    JoinGap(l5, FinalHeader);
  }

  /** Appending an empty line and a header to joined lines. */
  lemma JoinGap(a: seq<string>, h: string)
    requires a != []
    ensures Join(a + ["", h], "\n") == Join(a, "\n") + "\n\n" + h
  {
    JoinAppend(a, ["", h], "\n");
    assert ["", h][1..] == [h];
    assert Join(["", h], "\n") == "" + "\n" + h;
    assert Join(a, "\n") + "\n" + ("" + "\n" + h) == Join(a, "\n") + "\n\n" + h;
  }

  /** Trimming the template removes the leading line break and the whitespace after the final message. */
  lemma CopyTextShape(f: Feedback)
    ensures Trim(RawCopyText(f)) == Join(CopyLines(f), "\n") + TrimEnd("\n" + f.finalMessage)
  {
    var body := Join(CopyLines(f), "\n");
    JoinCopyLines(f);
    var tail := "\n" + f.finalMessage;
    var pad := "\n        ";
    Assoc5("\n", body, "\n", f.finalMessage, pad);
    assert body[0] == 'P';
    TrimStartSpacePrefix("\n", body + (tail + pad));
    assert body[|body| - 1] == ':';
    TrimEndAfter(body, tail + pad);
    TrimEndSpaceSuffix(tail, pad);
  }

  /**
   * Each remark is on its own line as `- remark`, under its header, when
   * no remark itself contains a line break.
   */
  lemma CopyTextLines(f: Feedback)
    requires forall k :: 0 <= k < |f.strengths| ==> '\n' !in f.strengths[k]
    requires forall k :: 0 <= k < |f.areasForImprovement| ==> '\n' !in f.areasForImprovement[k]
    requires forall k :: 0 <= k < |f.suggestions| ==> '\n' !in f.suggestions[k]
    ensures SplitOn(Join(CopyLines(f), "\n"), '\n') == CopyLines(f)
  {
    var lines := CopyLines(f);
    forall k | 0 <= k < |lines| ensures '\n' !in lines[k] {
    }
    SplitOnJoin(lines, '\n');
  }

  /** `handleCopy`: nothing to copy without a feedback; otherwise the copy text goes to the clipboard. */
  function HandleCopy(feedback: Option<Feedback>): (clipboard: Option<string>)
    ensures clipboard.None? <==> feedback.None?
    ensures clipboard.Some? ==> clipboard.value == FormattedFeedbackText(feedback) && clipboard.value != []
  {
    if feedback.None? then None
    else Some(FormattedFeedbackText(feedback))
  }

  lemma Assoc5(a: string, x: string, b: string, c: string, d: string)
    ensures a + x + b + c + d == a + (x + ((b + c) + d))
  {
  }
}
