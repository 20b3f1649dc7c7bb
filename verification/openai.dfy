/**
 * The decisions of the OpenAI client (internal/openai/api.go) once the HTTP
 * exchange is done: key validity from the status code, the scan of the
 * status page's components, the request the chat call sends and the guard
 * of the transcription call. The exchanges themselves are parameters.
 */
module OpenAI {
  import opened Wrappers
  import opened OpenAIModel

  const BaseURL: string := "https://api.openai.com/v1"
  const StatusURL: string := "https://status.openai.com/api/v2"
  const ChatModel: string := "gpt-4o-mini-2024-07-18"
  const TranscriptModel: string := "whisper-1"
  const TranscriptLanguage: string := "en"
  const TTSModel: string := "tts-1"
  const TTSVoice: string := "nova"
  const StatusOK: int := 200
  /** The name of the status-page component the app reports on. */
  const ApiComponentName: string := "API"

  /** How an HTTP exchange ended: no response, or a status code and the decoded body. */
  datatype HttpReply<T> = TransportError(error: string) | Answered(statusCode: int, body: Result<T, string>)

  /** IsKeyValid (api.go:17-40): any answer but 200 means the key is not valid, without an error. */
  function IsKeyValid<T>(probe: HttpReply<T>): (r: Result<bool, string>)
    ensures probe.TransportError? <==> r.Err?
    ensures probe.TransportError? ==> r.error == probe.error
    ensures probe.Answered? ==> (r == Ok(true) <==> probe.statusCode == StatusOK)
  {
    match probe
    case TransportError(e) => Err(e)
    case Answered(code, _) => Ok(code == StatusOK)
  }

  /** A component the scan stops at: named "API" with one of the four recognised statuses. */
  predicate Reportable(c: Component)
  {
    c.name == ApiComponentName && RecognisedStatus(c.status).Some?
  }

  /** Index `i` holds the first reportable component. */
  predicate FirstReportable(components: seq<Component>, i: nat)
  {
    i < |components| && Reportable(components[i]) &&
    forall j :: 0 <= j < i ==> !Reportable(components[j])
  }

  /**
   * The component scan (api.go:68-83): the status of the first component
   * named "API" whose status is recognised; Unknown when there is none.
   */
  function FindApiStatus(components: seq<Component>): (s: Status)
    ensures s == Unknown <==> forall i :: 0 <= i < |components| ==> !Reportable(components[i])
    ensures s != Unknown ==> exists i: nat :: FirstReportable(components, i) && RecognisedStatus(components[i].status) == Some(s)
    decreases |components|
  {
    if components == [] then Unknown
    else if Reportable(components[0]) then
      assert FirstReportable(components, 0);
      RecognisedStatus(components[0].status).value
    else
      var s := FindApiStatus(components[1..]);
      assert forall i :: 1 <= i < |components| ==> components[i] == components[1..][i - 1];
      assert s != Unknown ==> exists i: nat :: FirstReportable(components, i) && RecognisedStatus(components[i].status) == Some(s) by {
        if s != Unknown {
          var k: nat :| FirstReportable(components[1..], k) && RecognisedStatus(components[1..][k].status) == Some(s);
          assert FirstReportable(components, k + 1);
        }
      }
      s
  }

  /** A component named "API" whose status is not recognised is passed over. */
  lemma UnrecognisedApiSkipped(status: string, rest: seq<Component>)
    requires RecognisedStatus(status).None?
    ensures FindApiStatus([Component(ApiComponentName, status)] + rest) == FindApiStatus(rest)
  {
    assert ([Component(ApiComponentName, status)] + rest)[1..] == rest;
  }

  /** Components before the first reportable one do not change the result. */
  lemma {:induction false} ScanIgnoresPrefix(prefix: seq<Component>, rest: seq<Component>)
    requires forall i :: 0 <= i < |prefix| ==> !Reportable(prefix[i])
    ensures FindApiStatus(prefix + rest) == FindApiStatus(rest)
    decreases |prefix|
  {
    if prefix != [] {
      assert (prefix + rest)[1..] == prefix[1..] + rest;
      ScanIgnoresPrefix(prefix[1..], rest);
    } else {
      assert prefix + rest == rest;
    }
  }

  /**
   * Status (api.go:42-84): no response or an undecodable body is an error;
   * an answer other than 200 is Unknown without an error; otherwise the
   * component scan decides.
   */
  function StatusOf(page: HttpReply<seq<Component>>): (r: Result<Status, string>)
    ensures page.TransportError? ==> r == Err(page.error)
    ensures page.Answered? && page.statusCode != StatusOK ==> r == Ok(Unknown)
    ensures page.Answered? && page.statusCode == StatusOK && page.body.Err? ==> r == Err(page.body.error)
    ensures page.Answered? && page.statusCode == StatusOK && page.body.Ok? ==> r == Ok(FindApiStatus(page.body.value))
  {
    match page
    case TransportError(e) => Err(e)
    case Answered(code, body) =>
      if code != StatusOK then Ok(Unknown)
      else match body
        case Err(e) => Err(e)
        case Ok(components) => Ok(FindApiStatus(components))
  }

  /** The request Chat (api.go:86-132) sends: the given messages under the fixed model. */
  function ChatRequestFor(messages: seq<ChatMessage>): (req: ChatRequest)
    ensures req.messages == messages && req.model == ChatModel
  {
    ChatRequest(messages, ChatModel)
  }

  /**
   * Chat, with `complete` the completion endpoint: the key and the messages
   * go out unchanged under the fixed model, and the endpoint's answer or
   * error comes back as it is.
   */
  function Chat(complete: (string, ChatRequest) -> Result<ChatResponse, string>, apiKey: string, messages: seq<ChatMessage>): (r: Result<ChatResponse, string>)
    ensures r == complete(apiKey, ChatRequest(messages, ChatModel))
  {
    complete(apiKey, ChatRequestFor(messages))
  }

  /** The multipart form Transcribe uploads. */
  datatype TranscriptionRequest = TranscriptionRequest(file: seq<byte>, filename: string, model: string, language: string)

  /**
   * Transcribe (api.go:134-218), with `send` the transcription endpoint: a
   * nil reader fails before any request exists; otherwise the file goes out
   * with the fixed model and language.
   */
  function Transcribe(send: (string, TranscriptionRequest) -> Result<TranscriptResponse, string>,
                      apiKey: string, file: Option<seq<byte>>, filename: string): (r: Result<TranscriptResponse, string>)
    ensures file.None? ==> r == Err("audio is nil")
    ensures file.Some? ==> r == send(apiKey, TranscriptionRequest(file.value, filename, TranscriptModel, TranscriptLanguage))
  {
    match file
    case None => Err("audio is nil")
    case Some(audio) => send(apiKey, TranscriptionRequest(audio, filename, TranscriptModel, TranscriptLanguage))
  }
}
