/**
 * The wire types of the OpenAI client (internal/openai/model): roles,
 * component statuses of the status page, chat and transcription messages.
 */
module OpenAIModel {
  import opened Wrappers

  /** A byte of audio data. */
  newtype byte = b: int | 0 <= b < 256

  /** Roles are plain strings on the wire; these are the three the app writes. */
  const RoleSystem: string := "system"
  const RoleAssistant: string := "assistant"
  const RoleUser: string := "user"

  /** The five values of `model.Status`. */
  datatype Status = Operational | DegradedPerformance | PartialOutage | MajorOutage | Unknown

  /** The string each status stands for (`string(status)`). */
  function StatusText(s: Status): string
  {
    match s
    case Operational => "operational"
    case DegradedPerformance => "degraded_performance"
    case PartialOutage => "partial_outage"
    case MajorOutage => "major_outage"
    case Unknown => "unknown"
  }

  /**
   * The switch inside the component scan: only the four concrete statuses
   * are recognised; "unknown" and every other string are not.
   */
  function RecognisedStatus(text: string): (r: Option<Status>)
    ensures r.Some? ==> r.value != Unknown && StatusText(r.value) == text
  {
    if text == "operational" then Some(Operational)
    else if text == "degraded_performance" then Some(DegradedPerformance)
    else if text == "partial_outage" then Some(PartialOutage)
    else if text == "major_outage" then Some(MajorOutage)
    else None
  }

  /** Recognition inverts StatusText on every status but Unknown. */
  lemma RecognisedStatusText(s: Status)
    ensures RecognisedStatus(StatusText(s)) == if s == Unknown then None else Some(s)
  {
    match s
    case Operational =>
    case DegradedPerformance =>
      assert StatusText(s) != "operational";
    case PartialOutage =>
      assert StatusText(s) != "operational";
      assert StatusText(s) != "degraded_performance";
    case MajorOutage =>
      assert StatusText(s) != "operational";
      assert StatusText(s) != "degraded_performance";
      assert StatusText(s) != "partial_outage";
    case Unknown =>
      assert StatusText(s) != "operational";
      assert StatusText(s) != "degraded_performance";
      assert StatusText(s) != "partial_outage";
      assert StatusText(s) != "major_outage";
  }

  /** One entry of the status page's component list. */
  datatype Component = Component(name: string, status: string)

  datatype ChatMessage = ChatMessage(content: string, role: string)

  datatype ChatRequest = ChatRequest(messages: seq<ChatMessage>, model: string)

  datatype Choice = Choice(index: int, message: ChatMessage, finishReason: string)

  datatype ChatResponse = ChatResponse(choices: seq<Choice>)

  datatype TranscriptResponse = TranscriptResponse(text: string)
}
