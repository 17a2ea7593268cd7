/**
 * The request side of the Gemini call: the fixed instruction prompt, the API-key check,
 * the prompt concatenation, and how the outcome of the HTTP exchange is turned into a
 * decoded reply or an exception. The HTTP exchange itself is an input (`Reply`).
 */
module Gemini {
  import opened Wrappers
  import opened Errors
  import opened Json

  /**
   * The instruction block, with the target schema rendered by `json.dumps(schema, indent=2)`
   * and the leading indentation of the triple-quoted literal, ending with the separator
   * after which the invoice text is appended. It is written as short pieces, one source line
   * of the prompt per line here, which keeps the verifier's work on the literal small.
   */
  const PromptTemplate: string :=
    "\n"
    + "    " + "You " + "are " + "an " + "expert " + "AI " + "data " + "extractor " + "for " + "invoices. " + "Your " + "task " + "is " + "to " + "analyze " + "the " + "raw " + "text " + "from " + "an " + "Indian " + "invoice " + "and " + "extract " + "all " + "specified " + "information " + "into " + "a " + "structured " + "JSON " + "format.\n"
    + "\n"
    + "    " + "Instructions:\n"
    + "    " + "1.  " + "Thoroughly " + "analyze " + "the " + "provided " + "invoice " + "text.\n"
    + "    " + "2.  " + "Populate " + "all " + "fields " + "in " + "the " + "JSON " + "schema " + "below.\n"
    + "    " + "3.  " + "If " + "information " + "for " + "a " + "field " + "is " + "not " + "found, " + "you " + "MUST " + "use " + "the " + "default " + "value " + "(\"NA\" " + "for " + "text, " + "0 " + "for " + "numbers). " + "Do " + "not " + "leave " + "any " + "field " + "blank.\n"
    + "    " + "4.  " + "'lineItems' " + "must " + "be " + "a " + "JSON " + "array. " + "Create " + "one " + "object " + "in " + "the " + "array " + "for " + "each " + "distinct " + "product " + "or " + "service " + "line " + "item " + "found " + "in " + "the " + "invoice " + "table.\n"
    + "    " + "5.  " + "The " + "final " + "output " + "must " + "be " + "ONLY " + "the " + "valid " + "JSON " + "object, " + "with " + "no " + "additional " + "text, " + "explanations, " + "or " + "formatting.\n"
    + "\n"
    + "    " + "JSON " + "Schema " + "to " + "populate:\n"
    + "    " + "{\n"
    + "  " + "\"invoiceHeader\": " + "{\n"
    + "    " + "\"invoiceDate\": " + "\"NA\",\n"
    + "    " + "\"invoiceNo\": " + "\"NA\",\n"
    + "    " + "\"supplierInvoiceNo\": " + "\"NA\",\n"
    + "    " + "\"supplierInvoiceDate\": " + "\"NA\",\n"
    + "    " + "\"voucherType\": " + "\"Purchase\",\n"
    + "    " + "\"orderNo\": " + "\"NA\",\n"
    + "    " + "\"orderDate\": " + "\"NA\",\n"
    + "    " + "\"orderDueDate\": " + "\"NA\",\n"
    + "    " + "\"documentType\": " + "\"Invoice\",\n"
    + "    " + "\"subType\": " + "\"NA\",\n"
    + "    " + "\"receiptNoteNo\": " + "\"NA\",\n"
    + "    " + "\"receiptNoteDate\": " + "\"NA\"\n"
    + "  " + "},\n"
    + "  " + "\"supplierDetails\": " + "{\n"
    + "    " + "\"name\": " + "\"NA\",\n"
    + "    " + "\"address1\": " + "\"NA\",\n"
    + "    " + "\"address2\": " + "\"NA\",\n"
    + "    " + "\"address3\": " + "\"NA\",\n"
    + "    " + "\"pincode\": " + "\"NA\",\n"
    + "    " + "\"state\": " + "\"NA\",\n"
    + "    " + "\"placeOfSupply\": " + "\"NA\",\n"
    + "    " + "\"country\": " + "\"INDIA\",\n"
    + "    " + "\"gstin\": " + "\"NA\",\n"
    + "    " + "\"gstRegistrationType\": " + "\"Regular\"\n"
    + "  " + "},\n"
    + "  " + "\"buyerDetails\": " + "{\n"
    + "    " + "\"name\": " + "\"NA\",\n"
    + "    " + "\"address1\": " + "\"NA\",\n"
    + "    " + "\"address2\": " + "\"NA\",\n"
    + "    " + "\"address3\": " + "\"NA\",\n"
    + "    " + "\"pincode\": " + "\"NA\",\n"
    + "    " + "\"state\": " + "\"NA\",\n"
    + "    " + "\"place\": " + "\"NA\",\n"
    + "    " + "\"gstin\": " + "\"NA\"\n"
    + "  " + "},\n"
    + "  " + "\"logisticsDetails\": " + "{\n"
    + "    " + "\"lrNo\": " + "\"NA\",\n"
    + "    " + "\"despatchThrough\": " + "\"NA\",\n"
    + "    " + "\"destination\": " + "\"NA\",\n"
    + "    " + "\"transportMode\": " + "\"NA\",\n"
    + "    " + "\"distance\": " + "\"NA\",\n"
    + "    " + "\"transporterName\": " + "\"NA\",\n"
    + "    " + "\"vehicleNumber\": " + "\"NA\",\n"
    + "    " + "\"vehicleType\": " + "\"NA\",\n"
    + "    " + "\"docAirWayBillNo\": " + "\"NA\",\n"
    + "    " + "\"docDate\": " + "\"NA\",\n"
    + "    " + "\"transporterID\": " + "\"NA\"\n"
    + "  " + "},\n"
    + "  " + "\"eWayBillDetails\": " + "{\n"
    + "    " + "\"eWayBillNo\": " + "\"NA\",\n"
    + "    " + "\"eWayBillDate\": " + "\"NA\",\n"
    + "    " + "\"consolidatedEWayBillNo\": " + "\"NA\",\n"
    + "    " + "\"consolidatedEWayDate\": " + "\"NA\",\n"
    + "    " + "\"statusOfEWayBill\": " + "\"NA\"\n"
    + "  " + "},\n"
    + "  " + "\"lineItems\": " + "[\n"
    + "    " + "{\n"
    + "      " + "\"itemName\": " + "\"NA\",\n"
    + "      " + "\"hsnCode\": " + "\"NA\",\n"
    + "      " + "\"itemDescription\": " + "\"NA\",\n"
    + "      " + "\"taxRate\": " + "0.0,\n"
    + "      " + "\"batchNo\": " + "\"NA\",\n"
    + "      " + "\"mfgDate\": " + "\"NA\",\n"
    + "      " + "\"expDate\": " + "\"NA\",\n"
    + "      " + "\"qty\": " + "0,\n"
    + "      " + "\"uom\": " + "\"NA\",\n"
    + "      " + "\"rate\": " + "0.0,\n"
    + "      " + "\"discount\": " + "0.0,\n"
    + "      " + "\"amount\": " + "0.0\n"
    + "    " + "}\n"
    + "  " + "],\n"
    + "  " + "\"summary\": " + "{\n"
    + "    " + "\"totalAmount\": " + "0.0,\n"
    + "    " + "\"cgstLedger\": " + "\"CGST\",\n"
    + "    " + "\"cgstAmount\": " + "0.0,\n"
    + "    " + "\"sgstLedger\": " + "\"SGST\",\n"
    + "    " + "\"sgstAmount\": " + "0.0,\n"
    + "    " + "\"igstLedger\": " + "\"IGST\",\n"
    + "    " + "\"igstAmount\": " + "0.0,\n"
    + "    " + "\"cessLedger\": " + "\"Cess\",\n"
    + "    " + "\"cessAmount\": " + "0.0,\n"
    + "    " + "\"roundOffLedger\": " + "\"Round-Off\",\n"
    + "    " + "\"roundOffAmount\": " + "0.0,\n"
    + "    " + "\"narration\": " + "\"NA\",\n"
    + "    " + "\"termsOfPayment\": " + "\"NA\",\n"
    + "    " + "\"otherReference\": " + "\"NA\",\n"
    + "    " + "\"termsOfDelivery\": " + "\"NA\",\n"
    + "    " + "\"purchaseLedger\": " + "\"Purchase " + "Account\",\n"
    + "    " + "\"costCenterGodown\": " + "\"Main " + "Location\"\n"
    + "  " + "}\n"
    + "}\n"
    + "\n"
    + "    " + "Now, " + "here " + "is " + "the " + "invoice " + "text:\n"
    + "    " + "---\n"
    + "    "

  /** The message of the ConnectionError raised when the error body carries no message of its own. */
  const GenericConnectionMessage: string := "Failed to connect to Gemini API."

  /**
   * The prompt of one request: the template followed by `invoiceText`. Requests are kept in
   * this form; `PromptText` is the string actually posted.
   */
  datatype Prompt = Prompt(invoiceText: string)

  /** The posted string: the template, then the invoice text verbatim. */
  function PromptText(p: Prompt): string {
    PromptTemplate + p.invoiceText
  }

  /** The posted string starts with the whole template and continues with exactly the invoice text. */
  lemma PromptTextSplits(p: Prompt)
    ensures |PromptText(p)| == |PromptTemplate| + |p.invoiceText|
    ensures PromptText(p)[..|PromptTemplate|] == PromptTemplate
    ensures PromptText(p)[|PromptTemplate|..] == p.invoiceText
  {
  }

  lemma {:induction false} PrefixCancels(a: string, b1: string, b2: string)
    requires a + b1 == a + b2
    ensures b1 == b2
  {
    assert b1 == (a + b1)[|a|..];
  }

  /** Different invoice texts give different posted strings. */
  lemma PromptTextInjective(p1: Prompt, p2: Prompt)
    requires PromptText(p1) == PromptText(p2)
    ensures p1 == p2
  {
    PrefixCancels(PromptTemplate, p1.invoiceText, p2.invoiceText);
  }

  /**
   * The check on the API key and the prompt concatenation: an empty key raises before
   * anything is built; otherwise the prompt carries the invoice text unchanged.
   */
  function BuildPrompt(apiKey: string, invoiceText: string): (r: Result<Prompt, Failure>)
    ensures r.Failure? <==> apiKey == ""
    ensures r.Failure? ==> r.error == MissingApiKey
    ensures r.Success? ==> r.value.invoiceText == invoiceText
  {
    if apiKey == "" then Failure(MissingApiKey) else Success(Prompt(invoiceText))
  }

  /**
   * The body of a non-2xx answer, as the request handler reads it.
   * - BodyNotJson: `response.json()` cannot decode it (an HTML error page, say).
   * - BodyMalformed: the body, or its `error` member, is not an object, so `.get` fails.
   * - ErrorInfo: `error` is an object (or missing, read as `{}`); `message` is its `message`
   *   member as the f-string renders it, or None when it has none.
   */
  datatype ErrorBody =
    | BodyNotJson
    | BodyMalformed
    | ErrorInfo(message: Option<string>)

  /**
   * What the HTTP exchange produced.
   * - NoResponse: `requests.post` itself raised, so no response object exists.
   * - HttpError: the status was not 2xx, with the body the handler then reads.
   * - Delivered: a 2xx answer; `content` is the decoded inner JSON, or None when the candidate
   *   path is missing or its text is not valid JSON.
   */
  datatype Reply =
    | NoResponse
    | HttpError(body: ErrorBody)
    | Delivered(content: Option<Json>)

  /**
   * The replies on which the request handler itself raises: a POST that never produced a
   * response, and an error body the handler cannot read.
   */
  predicate HandlerRaises(reply: Reply) {
    reply.NoResponse? || (reply.HttpError? && !reply.body.ErrorInfo?)
  }

  /**
   * The handlers exactly as written: the RequestException handler calls `response.json()`,
   * and when `post` raised, `response` was never assigned, so that handler itself raises;
   * it raises too when the error body it decodes is not JSON or not an object.
   */
  function ReplyAsWritten(reply: Reply): (r: Result<Json, Failure>)
    ensures reply.NoResponse? ==> r == Failure(UnboundResponse)
    ensures reply == HttpError(BodyNotJson) ==> r == Failure(ErrorBodyNotJson)
    ensures reply == HttpError(BodyMalformed) ==> r == Failure(ErrorBodyMalformed)
    ensures !HandlerRaises(reply) ==> r == ReplyOutcome(reply)
  {
    match reply
    case NoResponse => Failure(UnboundResponse)
    case HttpError(BodyNotJson) => Failure(ErrorBodyNotJson)
    case HttpError(BodyMalformed) => Failure(ErrorBodyMalformed)
    case _ => ReplyOutcome(reply)
  }

  /**
   * Where the handler raises, the program fails without a ConnectionError although one is
   * intended; on every other reply the two handlers agree.
   */
  lemma AsWrittenDiffersIff(reply: Reply)
    ensures ReplyAsWritten(reply) != ReplyOutcome(reply) <==> HandlerRaises(reply)
    ensures HandlerRaises(reply) ==>
      ReplyAsWritten(reply).Failure? && !ReplyAsWritten(reply).error.Connectivity?
      && ReplyOutcome(reply) == Failure(Connectivity(None))
  {
  }

  /**
   * The handlers as evidently intended: every transport failure is a ConnectionError,
   * carrying the API's message when there is one; a 2xx answer that cannot be decoded is
   * the distinct parse error.
   */
  function ReplyOutcome(reply: Reply): (r: Result<Json, Failure>)
    ensures r.Success? <==> reply.Delivered? && reply.content.Some?
    ensures r.Success? ==> r.value == reply.content.value
    ensures reply.Delivered? && reply.content.None? ==> r == Failure(ResponseParse)
    ensures reply.NoResponse? ==> r == Failure(Connectivity(None))
    ensures reply.HttpError? ==>
      r == Failure(Connectivity(if reply.body.ErrorInfo? then reply.body.message else None))
  {
    match reply
    case NoResponse => Failure(Connectivity(None))
    case HttpError(body) => Failure(Connectivity(if body.ErrorInfo? then body.message else None))
    case Delivered(c) =>
      match c
      case Some(j) => Success(j)
      case None => Failure(ResponseParse)
  }

  /** The text of a ConnectionError: "API Error: " and the API's message or the generic one. */
  function ConnectionErrorText(apiMessage: Option<string>): string {
    "API Error: " + apiMessage.GetOr(GenericConnectionMessage)
  }

  /** Every ConnectionError text starts with "API Error: "; the rest is the API's message when it has one. */
  lemma ConnectionErrorTextShape(apiMessage: Option<string>)
    ensures "API Error: " <= ConnectionErrorText(apiMessage)
    ensures apiMessage.Some? ==> ConnectionErrorText(apiMessage)[11..] == apiMessage.value
  {
  }

  /** Without a message of the API's own, the text is the generic one. */
  lemma GenericConnectionErrorText()
    ensures ConnectionErrorText(None) == "API Error: Failed to connect to Gemini API."
  {
  }

  /** Transport failures and unusable answers are never conflated. */
  lemma FailureKindsDistinct(transport: Reply, answer: Reply)
    requires transport.NoResponse? || transport.HttpError?
    requires answer.Delivered? && answer.content.None?
    ensures ReplyOutcome(transport).error.Connectivity?
    ensures ReplyOutcome(answer).error == ResponseParse
    ensures ReplyOutcome(transport) != ReplyOutcome(answer)
  {
  }

  /** The outcome of `extract_data_with_gemini`: the prompt sent, if any, and the decoded reply. */
  datatype GeminiCall = GeminiCall(prompt: Option<Prompt>, result: Result<Json, Failure>)

  /**
   * An empty API key raises before any request is built; otherwise exactly the template
   * followed by the invoice text is sent, and the reply is classified by the handlers as
   * written.
   */
  function CallGemini(apiKey: string, invoiceText: string, reply: Reply): (c: GeminiCall)
    ensures apiKey == "" ==> c == GeminiCall(None, Failure(MissingApiKey))
    ensures apiKey != "" ==> c.prompt == Some(Prompt(invoiceText)) && c.result == ReplyAsWritten(reply)
  {
    match BuildPrompt(apiKey, invoiceText)
    case Failure(e) => GeminiCall(None, Failure(e))
    case Success(p) => GeminiCall(Some(p), ReplyAsWritten(reply))
  }
}
