/** The deterministic part of report generation: rendering the entities
    into the prompt, the bounded retry loop around the generative model,
    and the layout of the PDF document built from the report text. The
    model's `generate_content` and the PDF renderer are parameters. */
module ReportGeneration {
  import opened Strings
  import opened Results

  // ---------------------------------------------------------------------------
  // Entities and prompts
  // ---------------------------------------------------------------------------

  /** One entity as the generator reads it: `e['term']` and `e['type']`. */
  datatype EntityItem = EntityItem(term: string, entityType: string)

  /** The `entities` argument: a list of entities, or any other value, of
      which only `str(value)` matters. */
  datatype EntitiesArg = EntityList(items: seq<EntityItem>) | OtherValue(str: string)

  /** "term (type)". */
  function RenderEntity(e: EntityItem): string {
    e.term + " (" + e.entityType + ")"
  }

  function RenderedItems(items: seq<EntityItem>): seq<string> {
    seq(|items|, i requires 0 <= i < |items| => RenderEntity(items[i]))
  }

  /** `entities_text`: list items rendered and joined by ", ", anything
      else through `str`. */
  function EntitiesText(entities: EntitiesArg): string {
    match entities
    case EntityList(items) => Join(", ", RenderedItems(items))
    case OtherValue(s) => s
  }

  /** Every entity of a list is rendered as "term (type)", in input order,
      separated from the next one by ", ", and the text ends with the last
      one. */
  lemma EntitiesTextLayout(items: seq<EntityItem>, i: nat)
    requires i < |items|
    ensures var text := EntitiesText(EntityList(items));
      var off := JoinOffset(", ", RenderedItems(items), i);
      var item := RenderEntity(items[i]);
      && off + |item| <= |text|
      && text[off..off + |item|] == item
      && (i + 1 < |items| ==> off + |item| + 2 <= |text| && text[off + |item|..off + |item| + 2] == ", ")
      && (i + 1 == |items| ==> off + |item| == |text|)
  {
    var rendered := RenderedItems(items);
    assert |rendered| == |items|;
    assert rendered[i] == RenderEntity(items[i]);
    JoinPartAt(", ", rendered, i, Join(", ", rendered), RenderEntity(items[i]), JoinOffset(", ", rendered, i));
  }

  /** The prompt of `generate_report`, around `{entities_text}` and `{summary}`. */
  const ReportPromptHead: string :=
    "\n"
    + "        You are an expert medical assistant tasked with generating a detailed and structured clinical report. Based on the extracted medical entities and summarized findings from a doctor-patient conversation, provide a well-formatted report. Follow this structure:\n"
    + "        \n"
    + "        ### **Patient Clinical Report**  \n"
    + "        **Patient Information:**  \n"
    + "        - Name: [If available]  \n"
    + "        - Age: [If available]  \n"
    + "        - Gender: [If available]  \n"
    + "        - Date of Visit: [Today's Date]  \n"
    + "        - Physician: [If available]  \n"
    + "        \n"
    + "        ### **Chief Complaint & History:**  \n"
    + "        - **Primary Symptoms:** "

  const ReportPromptMiddle: string :=
    "  \n"
    + "        - **Medical History:** [Include relevant history if mentioned]  \n"
    + "        - **Medications:** [Any current medications]  \n"
    + "        - **Allergies:** [List allergies if specified]  \n"
    + "        \n"
    + "        ### **Examination Findings & Observations:**  \n"
    + "        - **Vital Signs:** [If available, include BP, HR, Temperature, etc.]  \n"
    + "        - **Physical Examination Findings:** [Summarized key observations]  \n"
    + "        - **Lab & Imaging Results:** [If applicable, summarize any relevant findings]  \n"
    + "        \n"
    + "        ### **Assessment & Diagnosis:**  \n"
    + "        - **Provisional Diagnosis:** [Provide likely diagnosis based on the data]  \n"
    + "        - **Differential Diagnosis:** [Mention other possible conditions]  \n"
    + "        - **Clinical Justification:** "

  const ReportPromptTail: string :=
    "  \n"
    + "        \n"
    + "        ### **Treatment Plan & Recommendations:**  \n"
    + "        - **Medications Prescribed:** [List medicines with dosage]  \n"
    + "        - **Diagnostic Tests Advised:** [Any further tests recommended]  \n"
    + "        - **Lifestyle & Dietary Recommendations:** [If applicable]  \n"
    + "        - **Follow-up Instructions:** [Next steps and monitoring plan]  \n"
    + "        \n"
    + "        ### **Additional Notes & Explanations:**  \n"
    + "        - Provide **simple explanations** for complex medical terms in the report.  \n"
    + "        "

  const ExplainPromptHead: string :=
    "\n"
    + "        Explain the following medical terms in a simple and easy-to-understand way: \""

  const ExplainPromptTail: string :=
    "\".\n"
    + "        \n"
    + "        **Requirements:**\n"
    + "        - Provide a concise yet informative definition.\n"
    + "        - Explain in layman's terms (avoid medical jargon).\n"
    + "        - If applicable, include causes, symptoms, and common treatments.\n"
    + "        - If multiple terms exist, list explanations separately.\n"
    + "        - Keep it structured and formatted properly.\n"
    + "\n"
    + "        Example:\n"
    + "        **Term:** Hypertension  \n"
    + "        **Explanation:** Hypertension (high blood pressure) occurs when the force of blood against artery walls is too high. It can be caused by stress, poor diet, or genetics. It increases the risk of heart disease and stroke. Treatments include lifestyle changes and medication.\n"
    + "        "

  /** An f-string with one field: the field appears verbatim right after
      the text before it. */
  function Interpolate1(head: string, x: string, tail: string): (r: string)
    ensures |r| == |head| + |x| + |tail|
    ensures r[|head|..|head| + |x|] == x
  {
    assert head + x + tail == head + (x + tail);
    head + x + tail
  }

  /** An f-string with two fields: each field appears verbatim right after
      the text before it. */
  function Interpolate2(head: string, x: string, middle: string, y: string, tail: string): (r: string)
    ensures |r| == |head| + |x| + |middle| + |y| + |tail|
    ensures r[|head|..|head| + |x|] == x
    ensures r[|head| + |x| + |middle|..|head| + |x| + |middle| + |y|] == y
  {
    assert head + x + middle + y + tail == head + (x + (middle + (y + tail)));
    head + x + middle + y + tail
  }

  /** The prompt sent for a report: the entity text after the template's
      head and the summary after its middle piece. */
  function ReportPrompt(entitiesText: string, summary: string): string {
    Interpolate2(ReportPromptHead, entitiesText, ReportPromptMiddle, summary, ReportPromptTail)
  }

  /** The prompt sent to explain medical terms: the text between quotes. */
  function ExplainPrompt(text: string): string {
    Interpolate1(ExplainPromptHead, text, ExplainPromptTail)
  }

  // ---------------------------------------------------------------------------
  // The retry loop
  // ---------------------------------------------------------------------------

  const DefaultModelName: string := "gemini-1.5-flash-8b"
  const DefaultRetries: int := 3
  const DefaultPdfFilename: string := "clinical_report.pdf"
  const NotInitializedMessage: string := "Error: Gemini model not initialized. Check API key."
  const UnavailableMessage: string := "Service is temporarily unavailable. Please try again later."

  /** The configured `genai.GenerativeModel`. */
  datatype GeminiModel = GeminiModel(name: string)

  /** `generate(prompt, j)` is what the j-th `generate_content(prompt)` call
      (counting from 0) gives: `Some(text)` for a response whose `.text`
      could be read, `None` when the call raised. */
  type Generator = (string, nat) -> Option<string>

  /** What a call with `retries` attempts returns after `calls` calls of the
      model: with no attempts the fallback message; with attempts but no
      model the error message and no call; otherwise the text of the first
      call that did not raise, after as many calls as that took, or the
      fallback message after `retries` calls that all raised. */
  predicate RetryOutcome(modelReady: bool, prompt: string, retries: int, generate: Generator, text: string, calls: nat) {
    && (retries <= 0 ==> text == UnavailableMessage && calls == 0)
    && (retries > 0 && !modelReady ==> text == NotInitializedMessage && calls == 0)
    && (retries > 0 && modelReady ==>
          && calls <= retries
          && (forall j :: 0 <= j < calls - 1 ==> generate(prompt, j).None?)
          && (if exists j :: 0 <= j < retries && generate(prompt, j).Some?
              then 1 <= calls && generate(prompt, calls - 1) == Some(text)
              else calls == retries && text == UnavailableMessage))
  }

  /** The outcome is determined by the inputs: one answer and one number of
      calls satisfy it, so the loop's contract fixes what it returns. */
  lemma RetryOutcomeDeterministic(modelReady: bool, prompt: string, retries: int, generate: Generator,
                                  text1: string, calls1: nat, text2: string, calls2: nat)
    requires RetryOutcome(modelReady, prompt, retries, generate, text1, calls1)
    requires RetryOutcome(modelReady, prompt, retries, generate, text2, calls2)
    ensures text1 == text2 && calls1 == calls2
  {
  }

  // ---------------------------------------------------------------------------
  // The PDF document
  // ---------------------------------------------------------------------------

  datatype ParagraphStyle = Title | Heading1 | Heading2 | Normal

  /** The reportlab flowables the document is built from. */
  datatype Flowable = Paragraph(text: string, style: ParagraphStyle) | Spacer(width: int, height: int)

  const TitleParagraph: Flowable := Paragraph("<b>Patient Clinical Report</b>", Title)
  const TitleSpacer: Flowable := Spacer(1, 12)
  const LineSpacer: Flowable := Spacer(1, 6)

  /** The paragraph for a non-blank line, decided on the raw line. */
  function LineParagraph(line: string): Flowable {
    if StartsWith(line, "###") then Paragraph(RemoveAll(line, "###"), Heading1)
    else if StartsWith(line, "**") && EndsWith(line, "**") then Paragraph(line, Heading2)
    else Paragraph(line, Normal)
  }

  /** "###" lines become first-level headings with every "###" gone; other
      lines that start and end with "**" become second-level headings;
      everything else is normal text; only headings of the first level
      change the line's text. */
  lemma LineParagraphStyle(line: string)
    ensures LineParagraph(line).Paragraph?
    ensures LineParagraph(line).style == Heading1 <==> StartsWith(line, "###")
    ensures LineParagraph(line).style == Heading2 <==>
      !StartsWith(line, "###") && StartsWith(line, "**") && EndsWith(line, "**")
    ensures LineParagraph(line).style != Title
    ensures LineParagraph(line).style == Heading1 ==> Free(LineParagraph(line).text, "###")
    ensures LineParagraph(line).style != Heading1 ==> LineParagraph(line).text == line
  {
    RemoveHeadingMarks(line);
  }

  /** The flowables added for the lines: one paragraph and one spacer per
      non-blank line, nothing for a blank one. */
  function LineElements(lines: seq<string>): seq<Flowable>
    decreases |lines|
  {
    if |lines| == 0 then []
    else
      var last := lines[|lines| - 1];
      LineElements(lines[..|lines| - 1]) + (if IsBlank(last) then [] else [LineParagraph(last), LineSpacer])
  }

  /** The lines that are not blank, in order. */
  function NonBlankLines(lines: seq<string>): seq<string>
    decreases |lines|
  {
    if |lines| == 0 then []
    else
      var last := lines[|lines| - 1];
      NonBlankLines(lines[..|lines| - 1]) + (if IsBlank(last) then [] else [last])
  }

  /** The element list of `save_report_as_pdf`. */
  function PdfElements(reportText: string): seq<Flowable> {
    [TitleParagraph, TitleSpacer] + LineElements(Split(reportText, '\n'))
  }

  lemma {:induction false} LineElementsLayout(lines: seq<string>)
    ensures |LineElements(lines)| == 2 * |NonBlankLines(lines)|
    ensures forall k :: 0 <= k < |NonBlankLines(lines)| ==>
      && LineElements(lines)[2 * k] == LineParagraph(NonBlankLines(lines)[k])
      && LineElements(lines)[2 * k + 1] == LineSpacer
    decreases |lines|
  {
    if |lines| > 0 {
      LineElementsLayout(lines[..|lines| - 1]);
    }
  }

  /** The positions of the lines that are not blank. */
  function NonBlankIndices(lines: seq<string>): seq<nat>
    decreases |lines|
  {
    if |lines| == 0 then []
    else
      var n := |lines| - 1;
      NonBlankIndices(lines[..n]) + (if IsBlank(lines[n]) then [] else [n])
  }

  /** The k-th non-blank line is the line at the k-th non-blank position,
      and that line is not blank. */
  lemma {:induction false} NonBlankIndicesSound(lines: seq<string>)
    ensures |NonBlankIndices(lines)| == |NonBlankLines(lines)|
    ensures forall k :: 0 <= k < |NonBlankIndices(lines)| ==>
      && NonBlankIndices(lines)[k] < |lines|
      && !IsBlank(lines[NonBlankIndices(lines)[k]])
      && NonBlankLines(lines)[k] == lines[NonBlankIndices(lines)[k]]
    decreases |lines|
  {
    if |lines| > 0 {
      var n := |lines| - 1;
      var init := lines[..n];
      NonBlankIndicesSound(init);
      var prev := NonBlankIndices(init);
      assert forall k :: 0 <= k < |prev| ==> prev[k] < n && lines[prev[k]] == init[prev[k]];
    }
  }

  /** The non-blank positions increase, so the lines keep their order and
      none is taken twice. */
  lemma {:induction false} NonBlankIndicesIncreasing(lines: seq<string>)
    ensures forall k :: 0 <= k < |NonBlankIndices(lines)| ==> NonBlankIndices(lines)[k] < |lines|
    ensures forall k, l :: 0 <= k < l < |NonBlankIndices(lines)| ==>
      NonBlankIndices(lines)[k] < NonBlankIndices(lines)[l]
    decreases |lines|
  {
    if |lines| > 0 {
      NonBlankIndicesIncreasing(lines[..|lines| - 1]);
    }
  }

  /** Every line that is not blank has its position among them. */
  lemma {:induction false} NonBlankIndicesComplete(lines: seq<string>)
    ensures forall j :: 0 <= j < |lines| && !IsBlank(lines[j]) ==> j in NonBlankIndices(lines)
    decreases |lines|
  {
    if |lines| > 0 {
      var n := |lines| - 1;
      var init := lines[..n];
      NonBlankIndicesComplete(init);
      forall j | 0 <= j < |lines| && !IsBlank(lines[j])
        ensures j in NonBlankIndices(lines)
      {
        if j < n {
          assert init[j] == lines[j];
        }
      }
    }
  }

  /** The lines that get elements are exactly the lines whose `strip()` is
      not empty, each once, in their order: the k-th comes from position
      `NonBlankIndices[k]`, these positions increase, and every non-blank
      position is among them. */
  lemma NonBlankLinesSpec(lines: seq<string>)
    ensures |NonBlankIndices(lines)| == |NonBlankLines(lines)|
    ensures forall k :: 0 <= k < |NonBlankIndices(lines)| ==>
      && NonBlankIndices(lines)[k] < |lines|
      && !IsBlank(lines[NonBlankIndices(lines)[k]])
      && NonBlankLines(lines)[k] == lines[NonBlankIndices(lines)[k]]
    ensures forall k, l :: 0 <= k < l < |NonBlankIndices(lines)| ==>
      NonBlankIndices(lines)[k] < NonBlankIndices(lines)[l]
    ensures forall j :: 0 <= j < |lines| && !IsBlank(lines[j]) ==> j in NonBlankIndices(lines)
  {
    NonBlankIndicesSound(lines);
    NonBlankIndicesIncreasing(lines);
    NonBlankIndicesComplete(lines);
  }

  /** The document starts with the title and a spacer, then gives the k-th
      non-blank line of the report its paragraph followed by a spacer. */
  lemma PdfElementsLayout(reportText: string)
    ensures var nb := NonBlankLines(Split(reportText, '\n'));
      var elements := PdfElements(reportText);
      && |elements| == 2 + 2 * |nb|
      && elements[0] == TitleParagraph
      && elements[1] == TitleSpacer
      && forall k :: 0 <= k < |nb| ==>
           elements[2 + 2 * k] == LineParagraph(nb[k]) && elements[3 + 2 * k] == LineSpacer
  {
    LineElementsLayout(Split(reportText, '\n'));
  }

  /** `save_report_as_pdf`'s loop: the title, then the lines of the report. */
  method BuildPdfElements(reportText: string) returns (elements: seq<Flowable>)
    ensures elements == PdfElements(reportText)
  {
    elements := [TitleParagraph, TitleSpacer];
    var lines := Split(reportText, '\n');
    var i := 0;
    while i < |lines|
      invariant 0 <= i <= |lines|
      invariant elements == [TitleParagraph, TitleSpacer] + LineElements(lines[..i])
    {
      var line := lines[i];
      assert lines[..i + 1][..i] == lines[..i];
      if !IsBlank(line) {
        if StartsWith(line, "###") {
          elements := elements + [Paragraph(RemoveAll(line, "###"), Heading1)];
        } else if StartsWith(line, "**") && EndsWith(line, "**") {
          elements := elements + [Paragraph(line, Heading2)];
        } else {
          elements := elements + [Paragraph(line, Normal)];
        }
        elements := elements + [LineSpacer];
      }
      i := i + 1;
    }
    assert lines[..|lines|] == lines;
  }

  // ---------------------------------------------------------------------------
  // ReportGenerator
  // ---------------------------------------------------------------------------

  /** `ReportGenerator`: holds the generative model once the API is
      configured. */
  class ReportGenerator {
    const modelName: string
    var model: Option<GeminiModel>

    /** `configure(key)` stands for `genai.configure(api_key=key)` followed
        by `genai.GenerativeModel(name)`: true when neither raised.
        `apiKey` is the `GOOGLE_API_KEY` environment variable. */
    constructor (apiKey: Option<string>, configure: string -> bool, modelName: string := DefaultModelName)
      ensures this.modelName == modelName
      ensures model == if apiKey.Some? && apiKey.value != "" && configure(apiKey.value)
                       then Some(GeminiModel(modelName)) else None
    {
      this.modelName := modelName;
      model := None;
      new;
      if apiKey.Some? && apiKey.value != "" {
        var _ := ConfigureApi(apiKey.value, configure);
      }
    }

    /** `configure_api`: true exactly when the model was set. */
    method ConfigureApi(apiKey: string, configure: string -> bool) returns (ok: bool)
      modifies this`model
      ensures ok == configure(apiKey)
      ensures model == if ok then Some(GeminiModel(modelName)) else old(model)
    {
      if configure(apiKey) {
        model := Some(GeminiModel(modelName));
        return true;
      }
      return false;
    }

    /** The loop `for i in range(retries)` shared by `generate_report` and
        `explain_medical_terms`; `calls` counts the `generate_content` calls.
        The sleep between attempts is not modelled. */
    method GenerateWithRetries(prompt: string, retries: int, generate: Generator) returns (text: string, calls: nat)
      ensures RetryOutcome(model.Some?, prompt, retries, generate, text, calls)
    {
      calls := 0;
      var i := 0;
      while i < retries
        invariant 0 <= i <= if retries > 0 then retries else 0
        invariant calls == i
        invariant i > 0 ==> model.Some?
        invariant forall j :: 0 <= j < i ==> generate(prompt, j).None?
      {
        if model.None? {
          return NotInitializedMessage, calls;
        }
        calls := calls + 1;
        var response := generate(prompt, i);
        if response.Some? {
          return response.value, calls;
        }
        i := i + 1;
      }
      return UnavailableMessage, calls;
    }

    /** `generate_report`: the report prompt through the retry loop. */
    method GenerateReport(entities: EntitiesArg, summary: string, generate: Generator, retries: int := DefaultRetries)
      returns (report: string, calls: nat)
      ensures RetryOutcome(model.Some?, ReportPrompt(EntitiesText(entities), summary), retries, generate, report, calls)
    {
      var entitiesText := EntitiesText(entities);
      var prompt := ReportPrompt(entitiesText, summary);
      report, calls := GenerateWithRetries(prompt, retries, generate);
    }

    /** `explain_medical_terms`: the explanation prompt through the same loop. */
    method ExplainMedicalTerms(text: string, generate: Generator, retries: int := DefaultRetries)
      returns (explanation: string, calls: nat)
      ensures RetryOutcome(model.Some?, ExplainPrompt(text), retries, generate, explanation, calls)
    {
      explanation, calls := GenerateWithRetries(ExplainPrompt(text), retries, generate);
    }

    /** `save_report_as_pdf`: `build(filename, elements)` stands for creating
        the document and building it; false when anything raised. */
    method SaveReportAsPdf(reportText: string, build: (string, seq<Flowable>) -> bool, filename: string := DefaultPdfFilename)
      returns (ok: bool)
      ensures ok == build(filename, PdfElements(reportText))
    {
      var elements := BuildPdfElements(reportText);
      ok := build(filename, elements);
    }
  }
}
