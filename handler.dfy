/**
 * `lambda_handler` and `http_error_from_exception`: the HTTP entry point.
 *
 * JSON decoding is a parameter (`parse`) that yields either a decoded value or
 * a decode error with its message. Only the shape of the decoded value matters
 * here: whether it is an object, and which of its fields are strings.
 */
module Handler {
  import opened Wrappers
  import opened Dispatch

  const DefaultVoice: string := "Salli"
  const DecodeErrorType: string := "<class 'json.decoder.JSONDecodeError'>"
  const KeyErrorType: string := "<class 'KeyError'>"

  /** A decoded JSON value; numbers, arrays, booleans and null are all `JOther`. */
  datatype Json = JString(s: string) | JObject(fields: map<string, Json>) | JOther

  /** What `json.loads` does with the body. */
  datatype Parsed = Decoded(value: Json) | DecodeError(msg: string)

  /** The value under the event's `"body"` key: a string, or `null` for a request without a body. */
  datatype BodyValue = Text(s: string) | Null

  /**
   * The event as the handler sees it: the value under `"body"`, if that key
   * is present. Events without it (the `"Records"` mail trigger and unknown
   * events) are treated alike: both only print.
   */
  datatype Event = Event(body: Option<BodyValue>)

  /** The only keys the handler indexes the request with. */
  datatype RequestKey = Target | Message

  function KeyName(k: RequestKey): string
  {
    match k
    case Target => "target"
    case Message => "message"
  }

  /** The two exceptions the handler catches. */
  datatype Exception = JSONDecodeError(msg: string) | KeyError(key: RequestKey)

  datatype ResponseBody = Sent(response: Response) | ErrorBody(message: string, excType: string)

  datatype HttpResponse = HttpResponse(statusCode: int, body: ResponseBody)

  /**
   * How one invocation ends: a returned response, a bare `return None`, an
   * exception the handler does not catch, or a request whose field values are
   * not strings (outside this model).
   */
  datatype Outcome = Returned(response: HttpResponse) | ReturnedNone | Raised(excType: string) | OutsideModel

  /** What the handler decides before any side effect: call `send_message`, or finish. */
  datatype Decision = Send(arn: string, text: string, voiceId: string) | Finish(outcome: Outcome)

  /** `str(exc)`: a `KeyError` shows its key quoted (neither key contains a quote, so no escaping arises). */
  function ExceptionMessage(e: Exception): string
  {
    match e
    case JSONDecodeError(msg) => msg
    case KeyError(key) => "'" + KeyName(key) + "'"
  }

  /** `str(type(exc))`. */
  function ExceptionType(e: Exception): string
  {
    match e
    case JSONDecodeError(_) => DecodeErrorType
    case KeyError(_) => KeyErrorType
  }

  /** lambda_function.py lines 34-36: a client error carrying the exception's message and type. */
  function HttpErrorFromException(e: Exception): (r: HttpResponse)
    ensures r.statusCode == 400 && r.body.ErrorBody?
    ensures e.KeyError? ==> r.body.excType == "<class 'KeyError'>" && r.body.message == "'" + KeyName(e.key) + "'"
    ensures e.JSONDecodeError? ==>
              r.body.excType == "<class 'json.decoder.JSONDecodeError'>" && r.body.message == e.msg
  {
    HttpResponse(400, ErrorBody(ExceptionMessage(e), ExceptionType(e)))
  }

  /** The error response loses nothing: different exceptions give different responses. */
  lemma HttpErrorInjective(e1: Exception, e2: Exception)
    requires HttpErrorFromException(e1) == HttpErrorFromException(e2)
    ensures e1 == e2
  {
    if e1.KeyError? && e2.KeyError? {
      var m1, m2 := ExceptionMessage(e1), ExceptionMessage(e2);
      assert KeyName(e1.key) == m1[1..|m1| - 1];
      assert KeyName(e2.key) == m2[1..|m2| - 1];
    }
  }

  /** The request fields `send_message` needs are present and are strings. */
  predicate WellFormed(fields: map<string, Json>)
  {
    && "target" in fields && fields["target"].JString?
    && "message" in fields && fields["message"].JString?
    && ("voice_id" in fields ==> fields["voice_id"].JString?)
  }

  /** lambda_function.py lines 45-64, up to the call of `send_message`. */
  function Route(event: Event, parse: string -> Parsed): (d: Decision)
    ensures d.Send? <==> event.body.Some? && event.body.value.Text? &&
                         parse(event.body.value.s).Decoded? &&
                         parse(event.body.value.s).value.JObject? &&
                         WellFormed(parse(event.body.value.s).value.fields)
    ensures d == Finish(ReturnedNone) <==> event.body.None?
    ensures d.Finish? && d.outcome.Returned? ==> d.outcome.response.statusCode == 400
  {
    match event.body
    case None => Finish(ReturnedNone)
    case Some(Null) => Finish(Raised("<class 'TypeError'>"))
    case Some(Text(body)) =>
      match parse(body)
      case DecodeError(msg) => Finish(Returned(HttpErrorFromException(JSONDecodeError(msg))))
      case Decoded(value) =>
        if !value.JObject? then Finish(Raised("<class 'TypeError'>"))
        else if "target" !in value.fields then Finish(Returned(HttpErrorFromException(KeyError(Target))))
        else if "message" !in value.fields then Finish(Returned(HttpErrorFromException(KeyError(Message))))
        else
          var target := value.fields["target"];
          var message := value.fields["message"];
          var voice := if "voice_id" in value.fields then value.fields["voice_id"] else JString(DefaultVoice);
          if target.JString? && message.JString? && voice.JString? then Send(target.s, message.s, voice.s)
          else Finish(OutsideModel)
  }

  /** lambda_function.py lines 47, 56-57: a body that is not valid JSON yields 400 with the decoder's message. */
  lemma RouteDecodeError(event: Event, parse: string -> Parsed)
    requires event.body.Some? && event.body.value.Text? && parse(event.body.value.s).DecodeError?
    ensures Route(event, parse) == Finish(Returned(HttpResponse(400,
              ErrorBody(parse(event.body.value.s).msg, "<class 'json.decoder.JSONDecodeError'>"))))
  {
  }

  /** lambda_function.py lines 45-47: a `"body"` key holding `null` makes `json.loads` raise an uncaught `TypeError`. */
  lemma RouteNullBody(event: Event, parse: string -> Parsed)
    requires event.body == Some(Null)
    ensures Route(event, parse) == Finish(Raised("<class 'TypeError'>"))
  {
  }

  /** lambda_function.py lines 47-48: JSON that is not an object cannot be indexed by key; the `TypeError` is not caught. */
  lemma RouteNonObject(event: Event, parse: string -> Parsed)
    requires event.body.Some? && event.body.value.Text?
    requires parse(event.body.value.s).Decoded? && !parse(event.body.value.s).value.JObject?
    ensures Route(event, parse) == Finish(Raised("<class 'TypeError'>"))
  {
  }

  /** lambda_function.py lines 48-49, 58-59: a missing `target` (checked first) or `message` yields 400 naming that key. */
  lemma RouteMissingKey(event: Event, parse: string -> Parsed, fields: map<string, Json>)
    requires event.body.Some? && event.body.value.Text? && parse(event.body.value.s) == Decoded(JObject(fields))
    requires "target" !in fields || "message" !in fields
    ensures var missing := if "target" !in fields then "target" else "message";
            Route(event, parse) == Finish(Returned(HttpResponse(400,
              ErrorBody("'" + missing + "'", "<class 'KeyError'>"))))
  {
  }

  /** lambda_function.py lines 48-54: a well-formed request is sent, with `voice_id` defaulting to "Salli". */
  lemma RouteSend(event: Event, parse: string -> Parsed, fields: map<string, Json>)
    requires event.body.Some? && event.body.value.Text? && parse(event.body.value.s) == Decoded(JObject(fields))
    requires WellFormed(fields)
    ensures Route(event, parse) == Send(fields["target"].s, fields["message"].s,
              if "voice_id" in fields then fields["voice_id"].s else "Salli")
  {
  }

  /**
   * lambda_function.py lines 44-64. A well-formed request calls `send_message` and returns 200
   * with its result; every other event returns or raises without touching
   * the store or the message bus.
   */
  method LambdaHandler(dispatcher: Dispatcher, event: Event, parse: string -> Parsed,
                       synthesize: SpeechRequest -> Option<Bytes>, uuid: string,
                       presign: PresignRequest -> string)
    returns (out: Outcome)
    modifies dispatcher
    ensures match Route(event, parse)
            case Send(arn, text, voiceId) =>
              && out == Returned(HttpResponse(200, Sent(
                   SendResponse(dispatcher.directory, dispatcher.bucketName, arn, text, uuid, presign))))
              && dispatcher.trace == old(dispatcher.trace) + SendEffects(dispatcher.directory,
                   dispatcher.bucketName, arn, text, voiceId, synthesize, uuid, presign)
            case Finish(outcome) =>
              && out == outcome
              && dispatcher.trace == old(dispatcher.trace)
  {
    var decision := Route(event, parse);
    match decision
    case Send(arn, text, voiceId) =>
      var response := dispatcher.SendMessage(arn, text, voiceId, synthesize, uuid, presign);
      out := Returned(HttpResponse(200, Sent(response)));
    case Finish(outcome) =>
      out := outcome;
  }
}
