/**
 * The prompt that the payslip parser sends to the language model, and the
 * shortened copy of the OCR text that it prints for debugging.
 *
 * The prompt is one fixed template with two holes: the example JSON goes
 * between the EXAMPLE marker lines, the document text between the DOCUMENT
 * TEXT START/END marker lines. The text around the holes is modelled as the
 * constants below, character for character.
 */
module PayslipPrompt {
  import opened Wrappers

  /** The instructions that open every prompt (the template starts with a line break). */
  const Instructions: string :=
    "\n" +
    "You are an expert-level data extraction agent specializing in payslips. Your task is to analyze the raw text from a multi-page PDF document and convert it into a structured JSON object.\n" +
    "\n" +
    "Follow these rules precisely:\n" +
    "1.  The document may contain multiple payslips. Identify each distinct payslip.\n" +
    "2.  A single payslip can span more than one page. You MUST merge all related information into a single JSON object for that payslip.\n" +
    "3.  A new payslip often starts immediately after the previous one ends, sometimes on the same page. A change in key dates (like `pay_date` or `end_date`), or a new employee/employer name is a strong indicator of a new payslip.\n" +
    "4.  For financial fields like `gross_earnings` and `net_pay`, if a value appears multiple times for the same payslip (e.g., on page 1 and page 2), the final and correct value is usually the one mentioned on the LAST page for that payslip section.\n" +
    "5.  Your output MUST be a single, valid JSON object. It should have one root key called \"payslips\", which contains a list of payslip objects. Do not include any other text or explanations in your response outside of the JSON object itself.\n" +
    "6.  The `payslip_number` field is crucial. If not explicitly present in the text, you must infer it or create a logical, sequential number (e.g., \"00500356\", \"00500357\") based on the order of payslips you identify. Ensure payslip numbers are unique and sequential.\n" +
    "7.  Ensure all fields from the example below are present in each payslip object, even if their value is null or 0.0 if not found in the document.\n" +
    "\n"

  /** The marker line right before the example. */
  const ExampleStart: string := "--- EXAMPLE OF DESIRED JSON OUTPUT STRUCTURE AND VALUES ---\n"
  /** The marker line right after the example. */
  const ExampleEnd: string := "\n--- END OF EXAMPLE ---\n"
  /** The sentence between the example and the document section. */
  const Transition: string := "\nNow, analyze the following document text and generate the final JSON object.\n\n"
  /** The marker line right before the document text. */
  const DocumentStart: string := "--- DOCUMENT TEXT START ---\n"
  /** The marker line right after the document text, which ends the prompt. */
  const DocumentEnd: string := "\n--- DOCUMENT TEXT END ---\n"

  /**
   * A prompt template: fixed text with two holes, the example between the
   * EXAMPLE marker lines and the document text between the DOCUMENT TEXT
   * START/END marker lines. The facts below hold for every template; the
   * payslip prompt is the one instance the parser uses.
   */
  datatype Template = Template(
    instructions: string,
    exampleStart: string,
    exampleEnd: string,
    transition: string,
    documentStart: string,
    documentEnd: string)
  {
    /** The template with both holes filled. */
    function Fill(fullDocumentText: string, desiredJsonExample: string): string {
      Front(desiredJsonExample) + fullDocumentText + documentEnd
    }

    /** Where the example starts in a filled template. */
    function ExampleOffset(): nat {
      |instructions| + |exampleStart|
    }

    /** Where the document text starts in a filled template whose example is `desiredJsonExample`. */
    function DocumentOffset(desiredJsonExample: string): nat {
      ExampleOffset() + |desiredJsonExample| + |exampleEnd| + |transition| + |documentStart|
    }

    /** The fixed text before the document hole, for a given example. */
    function Front(desiredJsonExample: string): string {
      instructions + exampleStart + desiredJsonExample + exampleEnd + transition + documentStart
    }

    /**
     * Reads the document text back out of a filled template whose example is
     * `desiredJsonExample`; `None` when `p` is no such filled template.
     */
    function DocumentOf(p: string, desiredJsonExample: string): (r: Option<string>)
      ensures r.Some? ==> Fill(r.value, desiredJsonExample) == p
    {
      var front := Front(desiredJsonExample);
      if |front| + |documentEnd| <= |p|
         && p[..|front|] == front
         && p[|p| - |documentEnd|..] == documentEnd
      then
        FrontMiddleBack(p, front, documentEnd);
        Some(p[|front|..|p| - |documentEnd|])
      else
        None
    }
  }

  /** The template of the payslip prompt. */
  const PayslipTemplate: Template :=
    Template(Instructions, ExampleStart, ExampleEnd, Transition, DocumentStart, DocumentEnd)

  /** `part` occurs in `p` starting at index `at`. */
  predicate OccursAt(p: string, at: int, part: string) {
    0 <= at && at + |part| <= |p| && p[at..at + |part|] == part
  }

  /** An occurrence of `b + c` is an occurrence of `b` followed by one of `c`. */
  lemma OccursSplit(p: string, at: int, b: string, c: string)
    requires OccursAt(p, at, b + c)
    ensures OccursAt(p, at, b) && OccursAt(p, at + |b|, c)
  {
    assert p[at..at + |b|] == (b + c)[..|b|];
    assert p[at + |b|..at + |b| + |c|] == (b + c)[|b|..];
  }

  /** A string that starts with `front` and ends with `back` is `front`, what lies between, and `back`. */
  lemma FrontMiddleBack(p: string, front: string, back: string)
    requires |front| + |back| <= |p|
    requires p[..|front|] == front && p[|p| - |back|..] == back
    ensures p == front + p[|front|..|p| - |back|] + back
  {
  }

  /**
   * In every filled template, each marker and each argument sits at its
   * place: the example right between the two EXAMPLE markers, the document
   * text right between the two DOCUMENT TEXT markers, the example first.
   */
  lemma FillLayout(t: Template, fullDocumentText: string, desiredJsonExample: string)
    ensures var p := t.Fill(fullDocumentText, desiredJsonExample);
      var e := t.ExampleOffset();
      var d := t.DocumentOffset(desiredJsonExample);
      && |p| == d + |fullDocumentText| + |t.documentEnd|
      && OccursAt(p, 0, t.instructions)
      && OccursAt(p, e - |t.exampleStart|, t.exampleStart)
      && OccursAt(p, e, desiredJsonExample)
      && OccursAt(p, e + |desiredJsonExample|, t.exampleEnd)
      && OccursAt(p, e + |desiredJsonExample| + |t.exampleEnd|, t.transition)
      && OccursAt(p, d - |t.documentStart|, t.documentStart)
      && OccursAt(p, d, fullDocumentText)
      && OccursAt(p, d + |fullDocumentText|, t.documentEnd)
      && e + |desiredJsonExample| <= d
  {
    var p := t.Fill(fullDocumentText, desiredJsonExample);
    var h := t.instructions + t.exampleStart;
    var he := h + desiredJsonExample;
    var hee := he + t.exampleEnd;
    var heet := hee + t.transition;
    var front := heet + t.documentStart;
    var withDoc := front + fullDocumentText;
    assert p == withDoc + t.documentEnd;
    assert OccursAt(p, 0, p);
    OccursSplit(p, 0, withDoc, t.documentEnd);
    OccursSplit(p, 0, front, fullDocumentText);
    OccursSplit(p, 0, heet, t.documentStart);
    OccursSplit(p, 0, hee, t.transition);
    OccursSplit(p, 0, he, t.exampleEnd);
    OccursSplit(p, 0, h, desiredJsonExample);
    OccursSplit(p, 0, t.instructions, t.exampleStart);
  }

  /** The document text is recovered exactly from every filled template. */
  lemma {:induction false} FillRoundTrip(t: Template, fullDocumentText: string, desiredJsonExample: string)
    ensures t.DocumentOf(t.Fill(fullDocumentText, desiredJsonExample), desiredJsonExample) == Some(fullDocumentText)
  {
    var p := t.Fill(fullDocumentText, desiredJsonExample);
    var front := t.Front(desiredJsonExample);
    assert p == front + fullDocumentText + t.documentEnd;
    assert p[..|front|] == front;
    assert p[|front|..|p| - |t.documentEnd|] == fullDocumentText;
  }

  /**
   * The prompt of the payslip parser: the payslip template with the example
   * JSON in the example hole and the OCR text in the document hole.
   */
  function CreateLlmPrompt(fullDocumentText: string, desiredJsonExample: string): (r: string)
    ensures var e := PayslipTemplate.ExampleOffset();
      var d := PayslipTemplate.DocumentOffset(desiredJsonExample);
      && |r| == d + |fullDocumentText| + |DocumentEnd|
      && OccursAt(r, e, desiredJsonExample)
      && OccursAt(r, d, fullDocumentText)
      && e + |desiredJsonExample| <= d
  {
    FillLayout(PayslipTemplate, fullDocumentText, desiredJsonExample);
    PayslipTemplate.Fill(fullDocumentText, desiredJsonExample)
  }

  /**
   * The prompt is the payslip parser's own fixed text with the two arguments
   * in their places: the instructions, the EXAMPLE marker line, the example,
   * the END OF EXAMPLE line, the transition sentence, the DOCUMENT TEXT START
   * line, the OCR text and the DOCUMENT TEXT END line, in that order.
   */
  lemma PromptFixedText(fullDocumentText: string, desiredJsonExample: string)
    ensures CreateLlmPrompt(fullDocumentText, desiredJsonExample)
         == Instructions + ExampleStart + desiredJsonExample + ExampleEnd + Transition + DocumentStart
            + fullDocumentText + DocumentEnd
  {
  }

  /** The OCR text is recovered exactly from the prompt built around it. */
  lemma PromptRoundTrip(fullDocumentText: string, desiredJsonExample: string)
    ensures PayslipTemplate.DocumentOf(CreateLlmPrompt(fullDocumentText, desiredJsonExample), desiredJsonExample)
         == Some(fullDocumentText)
  {
    FillRoundTrip(PayslipTemplate, fullDocumentText, desiredJsonExample);
  }

  /** With the example fixed, different OCR texts give different prompts. */
  lemma PromptInjective(doc1: string, doc2: string, desiredJsonExample: string)
    requires CreateLlmPrompt(doc1, desiredJsonExample) == CreateLlmPrompt(doc2, desiredJsonExample)
    ensures doc1 == doc2
  {
    PromptRoundTrip(doc1, desiredJsonExample);
    PromptRoundTrip(doc2, desiredJsonExample);
  }

  /** Texts longer than this many characters are cut in the debug preview. */
  const PreviewLimit: nat := 4000
  /** What the debug preview appends after a cut. */
  const Ellipsis: string := "..."

  /**
   * The debug preview of the OCR text: the text itself when it has at most
   * PreviewLimit characters, otherwise its first PreviewLimit characters
   * followed by the ellipsis.
   */
  function DebugPreview(text: string): (r: string)
    ensures |r| <= PreviewLimit + |Ellipsis|
    ensures |text| <= PreviewLimit ==> r == text
    ensures |text| > PreviewLimit ==>
      |r| == PreviewLimit + |Ellipsis| && r[..PreviewLimit] == text[..PreviewLimit] && r[PreviewLimit..] == Ellipsis
  {
    if |text| > PreviewLimit then text[..PreviewLimit] + Ellipsis else text
  }

  /**
   * The preview leaves the text unchanged exactly when the text is short, or
   * when it already is a PreviewLimit-character prefix followed by the ellipsis.
   */
  lemma PreviewUnchangedIff(text: string)
    ensures DebugPreview(text) == text
        <==> |text| <= PreviewLimit || (|text| == PreviewLimit + |Ellipsis| && text[PreviewLimit..] == Ellipsis)
  {
    if |text| == PreviewLimit + |Ellipsis| && text[PreviewLimit..] == Ellipsis {
      assert text == text[..PreviewLimit] + text[PreviewLimit..];
    }
  }

  /** Previewing a preview changes nothing. */
  lemma PreviewIdempotent(text: string)
    ensures DebugPreview(DebugPreview(text)) == DebugPreview(text)
  {
    PreviewUnchangedIff(DebugPreview(text));
  }
}
