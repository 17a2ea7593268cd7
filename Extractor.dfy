/**
 * `process_invoice_file`: one PDF turned into flat rows. The embedded text is read first,
 * the OCR pass replaces it when it is too short, an empty text is rejected, the text goes
 * to Gemini behind the fixed prompt, and the decoded reply is flattened.
 */
module Extractor {
  import opened Wrappers
  import opened Errors
  import opened Json
  import opened TextAcquisition
  import opened Gemini
  import opened RowFlattener

  /**
   * What the outside world holds for one PDF: its text layer as PyMuPDF reads it, its pages
   * as Tesseract reads them after rendering, and the answer the Gemini endpoint gives.
   */
  datatype PdfFile = PdfFile(textLayer: Scan, rendered: Scan, reply: Reply)

  /** The observable course of one file: whether OCR ran, the prompt sent (if any), and the outcome. */
  datatype InvoiceRun = InvoiceRun(ocrRan: bool, prompt: Option<Prompt>, result: Result<seq<Row>, Failure>)

  /** The text handed to Gemini for a file: the embedded text, or the OCR text when that is too short. */
  function ChosenText(pdf: PdfFile): TextChoice {
    ChooseText(EmbeddedText(pdf.textLayer), pdf.rendered)
  }

  /** The course of `process_invoice_file` for one file and key. */
  function InvoiceRunOf(pdf: PdfFile, apiKey: string): InvoiceRun {
    RunFrom(ChosenText(pdf), pdf.reply, apiKey)
  }

  /** What follows the choice of text: the empty-text check, the call and the flattening. */
  function RunFrom(choice: TextChoice, reply: Reply, apiKey: string): InvoiceRun {
    if choice.text == "" then InvoiceRun(choice.ocrRan, None, Failure(NoText))
    else
      var call := CallGemini(apiKey, choice.text, reply);
      InvoiceRun(choice.ocrRan, call.prompt,
        match call.result
        case Success(data) => Flattened(data)
        case Failure(e) => Failure(e))
  }

  /** The rows of one file, or the exception that ended it. */
  function InvoiceRows(pdf: PdfFile, apiKey: string): Result<seq<Row>, Failure> {
    InvoiceRunOf(pdf, apiKey).result
  }

  /** Runs the two extractors, the threshold test, the empty-text check, the call and the flattener in turn. */
  method ProcessInvoiceFile(pdf: PdfFile, apiKey: string) returns (run: InvoiceRun)
    ensures run == InvoiceRunOf(pdf, apiKey)
  {
    var text := ExtractTextFromPdf(pdf.textLayer);
    var ocrRan := false;
    if |Strip(text)| < OcrThreshold {
      text := ExtractTextWithOcr(pdf.rendered);
      ocrRan := true;
    }
    if text == "" {
      return InvoiceRun(ocrRan, None, Failure(NoText));
    }
    assert text == ChosenText(pdf).text && ocrRan == ChosenText(pdf).ocrRan;
    var call := CallGemini(apiKey, text, pdf.reply);
    if call.result.Failure? {
      return InvoiceRun(ocrRan, call.prompt, Failure(call.result.error));
    }
    var rows := Flatten(call.result.value);
    run := InvoiceRun(ocrRan, call.prompt, rows);
  }

  // ---------------------------------------------------------------------------
  // Properties of one file

  /**
   * OCR runs exactly when the stripped embedded text is shorter than 150 characters; a long
   * enough embedded text is passed on unchanged and the OCR result is never looked at.
   */
  lemma OcrOnlyWhenShort(pdf: PdfFile, apiKey: string)
    ensures InvoiceRunOf(pdf, apiKey).ocrRan <==> |Strip(EmbeddedText(pdf.textLayer))| < OcrThreshold
    ensures !InvoiceRunOf(pdf, apiKey).ocrRan && apiKey != "" ==>
      InvoiceRunOf(pdf, apiKey).prompt == Some(Prompt(EmbeddedText(pdf.textLayer)))
    ensures !InvoiceRunOf(pdf, apiKey).ocrRan ==>
      forall other: Scan :: InvoiceRunOf(PdfFile(pdf.textLayer, other, pdf.reply), apiKey) == InvoiceRunOf(pdf, apiKey)
  {
    var choice := ChosenText(pdf);
    if !choice.ocrRan {
      forall other: Scan
        ensures InvoiceRunOf(PdfFile(pdf.textLayer, other, pdf.reply), apiKey) == InvoiceRunOf(pdf, apiKey)
      {
        assert ChosenText(PdfFile(pdf.textLayer, other, pdf.reply)) == choice;
      }
      if apiKey != "" {
        assert InvoiceRunOf(pdf, apiKey).prompt == CallGemini(apiKey, choice.text, pdf.reply).prompt;
      }
    }
  }

  /** When OCR runs, exactly its text is passed on: the embedded text is discarded, not merged. */
  lemma OcrReplacesEmbedded(pdf: PdfFile, apiKey: string)
    requires |Strip(EmbeddedText(pdf.textLayer))| < OcrThreshold
    ensures InvoiceRunOf(pdf, apiKey).ocrRan
    ensures OcrText(pdf.rendered) != "" && apiKey != "" ==>
      InvoiceRunOf(pdf, apiKey).prompt == Some(Prompt(OcrText(pdf.rendered)))
    ensures forall other: Scan :: |Strip(EmbeddedText(other))| < OcrThreshold ==>
      InvoiceRunOf(PdfFile(other, pdf.rendered, pdf.reply), apiKey) == InvoiceRunOf(pdf, apiKey)
  {
    var choice := ChosenText(pdf);
    forall other: Scan | |Strip(EmbeddedText(other))| < OcrThreshold
      ensures InvoiceRunOf(PdfFile(other, pdf.rendered, pdf.reply), apiKey) == InvoiceRunOf(pdf, apiKey)
    {
      assert ChosenText(PdfFile(other, pdf.rendered, pdf.reply)) == choice;
    }
    if OcrText(pdf.rendered) != "" && apiKey != "" {
      assert InvoiceRunOf(pdf, apiKey).prompt == CallGemini(apiKey, choice.text, pdf.reply).prompt;
    }
  }

  /**
   * The "no text" error is raised exactly when the embedded text is too short and the OCR
   * pass gives the empty string (no pages, or a failure), and then no prompt is sent.
   */
  lemma {:induction false} NoTextIff(pdf: PdfFile, apiKey: string)
    ensures InvoiceRows(pdf, apiKey) == Failure(NoText) <==>
      |Strip(EmbeddedText(pdf.textLayer))| < OcrThreshold && OcrText(pdf.rendered) == ""
    ensures InvoiceRows(pdf, apiKey) == Failure(NoText) ==> InvoiceRunOf(pdf, apiKey).prompt == None
  {
    var choice := ChosenText(pdf);
    if choice.text != "" && apiKey != "" {
      var call := CallGemini(apiKey, choice.text, pdf.reply);
      if call.result.Success? {
        FlattenedSucceedsIff(call.result.value);
      }
    }
  }

  /**
   * The empty-text check looks at the unstripped text: an OCR text made only of whitespace
   * (one blank page reads as "\n") is sent to Gemini.
   */
  lemma BlankOcrPageIsSent(textLayer: Scan, reply: Reply, apiKey: string)
    requires |Strip(EmbeddedText(textLayer))| < OcrThreshold && apiKey != ""
    ensures Strip(OcrText(Pages([Some("")]))) == ""
    ensures InvoiceRunOf(PdfFile(textLayer, Pages([Some("")]), reply), apiKey).prompt == Some(Prompt("\n"))
  {
    BlankPageText();
    var pdf := PdfFile(textLayer, Pages([Some("")]), reply);
    assert ChosenText(pdf).text == "\n";
    assert InvoiceRunOf(pdf, apiKey).prompt == CallGemini(apiKey, "\n", reply).prompt;
  }

  /**
   * An empty text is rejected before the key is looked at; with text, an empty key raises
   * before any prompt is built; otherwise the prompt is exactly the template and the text.
   */
  lemma ErrorsBeforeRequest(pdf: PdfFile, apiKey: string)
    ensures ChosenText(pdf).text == "" ==> InvoiceRunOf(pdf, apiKey) == InvoiceRun(ChosenText(pdf).ocrRan, None, Failure(NoText))
    ensures ChosenText(pdf).text != "" && apiKey == "" ==>
      InvoiceRunOf(pdf, apiKey) == InvoiceRun(ChosenText(pdf).ocrRan, None, Failure(MissingApiKey))
    ensures InvoiceRunOf(pdf, apiKey).prompt.Some? <==> ChosenText(pdf).text != "" && apiKey != ""
    ensures InvoiceRunOf(pdf, apiKey).prompt.Some? ==>
      InvoiceRunOf(pdf, apiKey).prompt.value == Prompt(ChosenText(pdf).text)
  {
    var choice := ChosenText(pdf);
    if choice.text != "" {
      assert InvoiceRunOf(pdf, apiKey).prompt == CallGemini(apiKey, choice.text, pdf.reply).prompt;
    }
  }

  /**
   * As written, a file whose request handler itself raises (a POST that never answered, an
   * error body that is not a JSON object) ends in that handler's own exception, never in a
   * ConnectionError; a failed POST ends in the unbound-`response` error.
   */
  lemma HandlerRaisesEndsFile(pdf: PdfFile, apiKey: string)
    requires ChosenText(pdf).text != "" && apiKey != "" && HandlerRaises(pdf.reply)
    ensures InvoiceRows(pdf, apiKey) == Failure(ReplyAsWritten(pdf.reply).error)
    ensures !InvoiceRows(pdf, apiKey).error.Connectivity?
    ensures pdf.reply.NoResponse? ==> InvoiceRows(pdf, apiKey) == Failure(UnboundResponse)
  {
    AsWrittenDiffersIff(pdf.reply);
  }

  /**
   * A file succeeds exactly when there is text, a key, a decoded reply and that reply flattens;
   * its rows are then the flattened reply, and there is at least one.
   */
  lemma {:induction false} InvoiceRowsSpec(pdf: PdfFile, apiKey: string)
    ensures InvoiceRows(pdf, apiKey).Success? <==>
      ChosenText(pdf).text != "" && apiKey != "" && pdf.reply.Delivered? && pdf.reply.content.Some?
      && Flattened(pdf.reply.content.value).Success?
    ensures InvoiceRows(pdf, apiKey).Success? ==>
      InvoiceRows(pdf, apiKey) == Flattened(pdf.reply.content.value) && |InvoiceRows(pdf, apiKey).value| >= 1
  {
    if InvoiceRows(pdf, apiKey).Success? {
      FlattenedNonEmpty(pdf.reply.content.value);
    }
  }
}
