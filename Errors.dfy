/** The exceptions that can end the processing of one invoice file. */
module Errors {
  import opened Wrappers

  datatype Failure =
    /** "Could not extract any text from the PDF." (a ValueError) */
    | NoText
    /** "Gemini API Key is required." (a ValueError) */
    | MissingApiKey
    /**
     * A ConnectionError carrying the message of the API's error body, or None when the body
     * has none and the generic message is used (its text is built by Gemini.ConnectionErrorText).
     */
    | Connectivity(apiMessage: Option<string>)
    /** "Could not parse a valid JSON response from Gemini." (a ValueError) */
    | ResponseParse
    /** The UnboundLocalError raised when the request handler reads a response that was never assigned. */
    | UnboundResponse
    /** The JSONDecodeError raised inside the request handler when a non-2xx body is not JSON. */
    | ErrorBodyNotJson
    /** The AttributeError raised inside the request handler when a non-2xx body, or its `error`, is not an object. */
    | ErrorBodyMalformed
    /** An AttributeError or TypeError raised while flattening a reply of the wrong shape. */
    | MalformedReply
}
