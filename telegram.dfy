/**
 * TelegramForwarder.sendMessage: one call of the Telegram Bot API method
 * `sendMessage`. The HTTP exchange itself is not modelled; what it produced is
 * an input (`HttpOutcome`), and the model builds the request and classifies
 * that outcome into the call's result.
 */
module Telegram {
  import opened Wrappers
  import opened Text

  /** Longest text sent; longer messages are cut, silently. */
  const MAX_MESSAGE_LENGTH: nat := 3900

  const API_BASE := "https://api.telegram.org/bot"
  const METHOD_PATH := "/sendMessage"
  const API_ERROR_PREFIX := "Telegram API error "

  datatype FormField = FormField(name: string, value: string)

  /** An HTTP POST with a form-encoded body, fields in order. */
  datatype Request = Post(url: string, form: seq<FormField>)

  /** What the single HTTP exchange produced. */
  datatype HttpOutcome =
    | Response(code: int)                  // a response arrived with this status code
    | IoException(message: Option<string>) // the call threw an IOException (timeout, DNS, reset, ...)
    | OtherException                       // some other exception escaped the call

  /** Kotlin's `Result<Unit>`: success, or a failure carrying the exception's
      localized message, which may be null. */
  datatype SendResult = Success | Failure(message: Option<string>)

  /** How a call of `sendMessage` ends: it returns a result, or an exception that
      is not an IOException propagates out of it. */
  datatype Completion = Returned(result: SendResult) | Raised

  /** One call: the one request it builds and how it ends. */
  datatype Call = Call(request: Request, completion: Completion)

  /** `message.take(MAX_MESSAGE_LENGTH)` */
  function SafeMessage(message: string): (text: string)
    ensures |text| <= MAX_MESSAGE_LENGTH
    ensures |text| <= |message| && text == message[..|text|]
    ensures |message| <= MAX_MESSAGE_LENGTH ==> text == message
    ensures |message| > MAX_MESSAGE_LENGTH ==> |text| == MAX_MESSAGE_LENGTH
  {
    if |message| <= MAX_MESSAGE_LENGTH then message else message[..MAX_MESSAGE_LENGTH]
  }

  /** The request: the token goes into the URL path, the chat id and the cut text
      into the form. */
  function BuildRequest(token: string, chatId: string, message: string): Request {
    Post(API_BASE + token + METHOD_PATH,
         [FormField("chat_id", chatId), FormField("text", SafeMessage(message))])
  }

  /** The request names the bot by its token, between the fixed API prefix and the
      method path, from which it can be read back; its form holds exactly `chat_id`
      and then `text`, and the text is the message itself when it fits, or else
      its first 3900 characters. */
  lemma RequestShape(token: string, chatId: string, message: string)
    ensures var r := BuildRequest(token, chatId, message);
      && |r.url| == |API_BASE| + |token| + |METHOD_PATH|
      && r.url[..|API_BASE|] == API_BASE
      && r.url[|API_BASE|..|r.url| - |METHOD_PATH|] == token
      && r.url[|r.url| - |METHOD_PATH|..] == METHOD_PATH
      && |r.form| == 2
      && r.form[0] == FormField("chat_id", chatId)
      && r.form[1].name == "text"
      && |r.form[1].value| <= MAX_MESSAGE_LENGTH
      && r.form[1].value == message[..|r.form[1].value|]
      && (|message| <= MAX_MESSAGE_LENGTH ==> r.form[1].value == message)
  {
    var url := API_BASE + token + METHOD_PATH;
    assert url[..|API_BASE|] == API_BASE;
    assert url[|API_BASE|..|url| - |METHOD_PATH|] == token;
    assert url[|url| - |METHOD_PATH|..] == METHOD_PATH;
  }

  /** OkHttp's `Response.isSuccessful`: a 2xx status. */
  predicate IsSuccessful(code: int) {
    200 <= code < 300
  }

  /** The result of the call for what the exchange produced: success exactly for a
      2xx response; any other response is a failure naming the status code; an
      IOException is a failure carrying that exception's message; any other
      exception is not caught. */
  function Classify(outcome: HttpOutcome): (c: Completion)
    ensures c == Returned(Success) <==> outcome.Response? && IsSuccessful(outcome.code)
    ensures outcome.Response? && !IsSuccessful(outcome.code) ==>
      c == Returned(Failure(Some(API_ERROR_PREFIX + IntToString(outcome.code))))
    ensures outcome.IoException? ==> c == Returned(Failure(outcome.message))
    ensures c == Raised <==> outcome.OtherException?
  {
    match outcome
    case Response(code) =>
      if IsSuccessful(code) then Returned(Success)
      else Returned(Failure(Some(API_ERROR_PREFIX + IntToString(code))))
    case IoException(message) => Returned(Failure(message))
    case OtherException => Raised
  }

  /** The status code can be read back from the failure message of a non-2xx
      response. */
  lemma {:induction false} ApiErrorNamesCode(code: int)
    requires !IsSuccessful(code)
    ensures var m := Classify(Response(code)).result.message.value;
      && m[..|API_ERROR_PREFIX|] == API_ERROR_PREFIX
      && |m| > |API_ERROR_PREFIX|
      && IntValue(m[|API_ERROR_PREFIX|..]) == code
  {
    var digits := IntToString(code);
    IntToStringRoundTrip(code);
    var m := API_ERROR_PREFIX + digits;
    assert m[..|API_ERROR_PREFIX|] == API_ERROR_PREFIX;
    assert m[|API_ERROR_PREFIX|..] == digits;
  }

  /** `sendMessage(token, chatId, message)`: one request, sent once, no retry. */
  function SendMessage(token: string, chatId: string, message: string, outcome: HttpOutcome): Call {
    Call(BuildRequest(token, chatId, message), Classify(outcome))
  }
}
