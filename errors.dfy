/**
 * The two error middlewares of the API: `api/errors/methodNotAllowed.js`,
 * which turns a request with an unsupported method into a 405 error, and
 * `api/errors/errorHandler.js`, which turns any error into a JSON response.
 */
module Errors {
  import opened Wrappers
  import opened Seqs
  import opened JsText
  import opened Express

  const DefaultStatus := 500
  const DefaultMessage := "Something went wrong!"

  /**
   * The error value the handler receives: `status` and `message` may be
   * missing (a thrown `Error` has a message but no status).
   */
  datatype ErrorValue = ErrorValue(status: Option<int>, message: Option<string>)

  /** The `{ status, message }` object the middlewares of this code base pass to `next`. */
  function FromHttpError(err: HttpError): (v: ErrorValue)
    ensures v.status == Some(err.status) && v.message == Some(err.message)
  {
    ErrorValue(Some(err.status), Some(err.message))
  }

  /**
   * `errorHandler`: destructuring with defaults (500, "Something went
   * wrong!"), then `res.status(status).json({ data: message })`. A failure
   * while responding is caught and logged, so the handler ends the chain:
   * it neither calls `next` nor passes an error on.
   */
  function ErrorHandler(err: ErrorValue): (actions: seq<Action>)
    ensures |actions| == 1 && actions[0].Json?
    ensures actions[0].status == err.status.GetOr(DefaultStatus)
    ensures actions[0].data == err.message.GetOr(DefaultMessage)
    ensures err.status.None? ==> actions[0].status == 500
    ensures err.message.None? ==> actions[0].data == "Something went wrong!"
    ensures Next !in actions && !Rejects(actions)
  {
    [Json(err.status.GetOr(DefaultStatus), err.message.GetOr(DefaultMessage))]
  }

  /** The message `methodNotAllowed` builds from `req.method` and `req.originalUrl`. */
  function NotAllowedMessage(verb: string, originalUrl: string): (msg: string)
    ensures StartsWith(msg, "Method ") && EndsWith(msg, " not allowed")
  {
    var tail := " for path " + originalUrl + " not allowed";
    var msg := "Method " + verb + tail;
    assert msg[|msg| - |" not allowed"|..] == " not allowed";
    msg
  }

  /** The method can be read back from the message: it is the second word. */
  lemma NotAllowedNamesTheMethod(verb: string, originalUrl: string)
    requires ' ' !in verb
    ensures var words := Split(NotAllowedMessage(verb, originalUrl), ' ');
      |words| >= 2 && words[0] == "Method" && words[1] == verb
  {
    var rest := "for path " + originalUrl + " not allowed";
    assert NotAllowedMessage(verb, originalUrl) == "Method" + [' '] + (verb + [' '] + rest);
    SplitFirstField("Method", ' ', verb + [' '] + rest);
    SplitFirstField(verb, ' ', rest);
  }

  /** `methodNotAllowed`: a single `next` with a 405 error; it never responds itself. */
  function MethodNotAllowed(verb: string, originalUrl: string): (actions: seq<Action>)
    ensures |actions| == 1 && actions[0].NextError?
    ensures actions[0].err == HttpError(405, NotAllowedMessage(verb, originalUrl))
    ensures !Responds(actions) && Next !in actions
  {
    [NextError(HttpError(405, NotAllowedMessage(verb, originalUrl)))]
  }

  /**
   * The two together: a request with an unsupported method is answered
   * with status 405 and the message as the JSON `data`, and nothing else.
   */
  lemma NotAllowedResponse(verb: string, originalUrl: string)
    ensures var err := MethodNotAllowed(verb, originalUrl)[0].err;
      ErrorHandler(FromHttpError(err)) == [Json(405, NotAllowedMessage(verb, originalUrl))]
  {
  }
}
