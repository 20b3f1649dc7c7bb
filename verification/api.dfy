/**
 * The methods the UI calls (api.go): the health status, and the three steps
 * of an interview session -- start, answer, end -- over the store of
 * DataModel. Every outside service (the OpenAI and ElevenLabs endpoints,
 * bcrypt, base64, prompts and language tables) is a field of Services.
 */
module Api {
  import opened Wrappers
  import opened OpenAIModel
  import opened DataModel
  import OpenAI
  import Markdown
  import Util

  /** What a speech endpoint hands back: no reader at all, or a reader and what reading it gives. */
  datatype Speech = Silent | Stream(contents: Result<seq<byte>, string>)

  /** The services the app talks to, as functions of their inputs. */
  datatype Services = Services(
    /** GET /models with the given key. */
    modelsProbe: string -> OpenAI.HttpReply<()>,
    /** GET components.json of the status page. */
    statusPage: OpenAI.HttpReply<seq<Component>>,
    /** The chat-completion endpoint. */
    complete: (string, ChatRequest) -> Result<ChatResponse, string>,
    /** The transcription endpoint. */
    transcribe: (string, OpenAI.TranscriptionRequest) -> Result<TranscriptResponse, string>,
    /** OpenAI and ElevenLabs Speechify: (key, text) to speech. */
    openAISpeech: (string, string) -> Result<Speech, string>,
    elevenLabsSpeech: (string, string) -> Result<Speech, string>,
    /** IsSpeechAvailable: whether OpenAI speaks the language. */
    speechAvailable: string -> bool,
    /** GetDefaultTranscriptLanguage, language.GetLanguage and language.GetCode. */
    defaultLanguage: string,
    languageOf: string -> string,
    codeOf: string -> string,
    /** GetSystemPrompt(role, skills, language) and GetInitialChat(role, language). */
    systemPrompt: (string, seq<string>, string) -> Result<string, string>,
    initialChat: (string, string) -> Result<string, string>,
    /** bcrypt: createHash and compareHash (util.go:44-55). */
    hash: string -> Result<string, string>,
    matches: (string, string) -> bool,
    /** base64.StdEncoding.EncodeToString. */
    base64: seq<byte> -> string)

  const InvalidSecret: string := "invalid user secret"
  const NoTranscript: string := "cannot complete audio transcription: no transcript"
  const NoCompletion: string := "cannot complete chat completion: no chat completion"
  /** The name the recorded answer is uploaded under. */
  const AudioFilename: string := "audio.wav"
  /** The closing request EndChat sends as the candidate's last message (api.go:256). */
  const FeedbackRequest: string := "That is the end of the mock interview, thank you, please provide your feedbacks on my strength and which area to improve, and whether you are confident that I fits the role."

  /**
   * The `API` field of the status response (api.go:38-47): true when
   * operational, false for the three kinds of outage, nil when unknown.
   */
  function ApiState(status: Status): (api: Option<bool>)
    ensures api == Some(true) <==> status == Operational
    ensures api == Some(false) <==> status in {DegradedPerformance, PartialOutage, MajorOutage}
    ensures api == None <==> status == Unknown
  {
    match status
    case Operational => Some(true)
    case DegradedPerformance => Some(false)
    case PartialOutage => Some(false)
    case MajorOutage => Some(false)
    case Unknown => None
  }

  /** The language a new session speaks (api.go:64-67): the default unless the UI chose one. */
  function ChatLanguage(svc: Services, lang: string): (language: string)
    ensures lang == "" ==> language == svc.defaultLanguage
    ensures lang != "" ==> language == svc.languageOf(lang)
  {
    if lang == "" then svc.defaultLanguage else svc.languageOf(lang)
  }

  /** The speech request: OpenAI when it speaks the language, ElevenLabs otherwise, on the sanitised text. */
  function SpeechFor(svc: Services, language: string, keys: KeyPair, text: string): (r: Result<Speech, string>)
    ensures svc.speechAvailable(language) ==> r == svc.openAISpeech(keys.openAIKey, Markdown.Sanitize(text))
    ensures !svc.speechAvailable(language) ==> r == svc.elevenLabsSpeech(keys.elevenLabsKey, Markdown.Sanitize(text))
  {
    var spoken := Markdown.Sanitize(text);
    if svc.speechAvailable(language) then svc.openAISpeech(keys.openAIKey, spoken)
    else svc.elevenLabsSpeech(keys.elevenLabsKey, spoken)
  }

  /**
   * The base64 audio of a speech reply (api.go:80-105, 192-213): the
   * request's failure under `failure`, a reading failure, no reader as the
   * empty string, or the encoded bytes.
   */
  function AudioOf(svc: Services, speech: Result<Speech, string>, failure: string): (r: Result<string, string>)
    ensures speech.Err? ==> r == Err(failure + speech.error)
    ensures speech == Ok(Silent) ==> r == Ok("")
    ensures speech.Ok? && speech.value.Stream? && speech.value.contents.Err? ==>
      r == Err("failed to read speech: " + speech.value.contents.error)
    ensures speech.Ok? && speech.value.Stream? && speech.value.contents.Ok? ==>
      r == Ok(svc.base64(speech.value.contents.value))
  {
    match speech
    case Err(e) => Err(failure + e)
    case Ok(Silent) => Ok("")
    case Ok(Stream(Err(e))) => Err("failed to read speech: " + e)
    case Ok(Stream(Ok(bytes))) => Ok(svc.base64(bytes))
  }

  /**
   * The interviewer's reply shared by AnswerChat and EndChat
   * (api.go:181-213, 261-293): the first choice of the completion for
   * `messages`, spoken in `language`.
   */
  function Reply(svc: Services, keys: KeyPair, language: string, messages: seq<ChatMessage>): (r: Result<Chat, string>)
    ensures var completion := OpenAI.Chat(svc.complete, keys.openAIKey, messages);
      && (completion.Err? ==> r == Err("failed to get chat completion: " + completion.error))
      && (completion.Ok? && |completion.value.choices| == 0 ==> r == Err(NoCompletion))
      && (r.Ok? ==>
            && completion.Ok? && |completion.value.choices| > 0
            && r.value.text == completion.value.choices[0].message.content
            && AudioOf(svc, SpeechFor(svc, language, keys, r.value.text), "failed to create speech: ") == Ok(r.value.audio))
    ensures var completion := OpenAI.Chat(svc.complete, keys.openAIKey, messages);
      completion.Ok? && |completion.value.choices| > 0 ==>
        var text := completion.value.choices[0].message.content;
        var audio := AudioOf(svc, SpeechFor(svc, language, keys, text), "failed to create speech: ");
        && (audio.Err? ==> r == Err(audio.error))
        && (audio.Ok? ==> r == Ok(Chat(text, audio.value)))
  {
    var completion := OpenAI.Chat(svc.complete, keys.openAIKey, messages);
    if completion.Err? then Err("failed to get chat completion: " + completion.error)
    else if |completion.value.choices| == 0 then Err(NoCompletion)
    else
      var text := completion.value.choices[0].message.content;
      var audio := AudioOf(svc, SpeechFor(svc, language, keys, text), "failed to create speech: ");
      if audio.Err? then Err(audio.error) else Ok(Chat(text, audio.value))
  }

  /** What StartChat has prepared before it draws the secret. */
  datatype Opening = Opening(language: string, prompt: string, greeting: string, audio: string)

  /**
   * The steps of StartChat between the key read and the secret
   * (api.go:64-105), in this order: the system prompt, the greeting, its
   * speech in the session's language. The first failing step decides the
   * error.
   */
  function OpeningOf(svc: Services, role: string, skills: seq<string>, lang: string, keys: KeyPair): (r: Result<Opening, string>)
    ensures var language := ChatLanguage(svc, lang);
      var prompt := svc.systemPrompt(role, skills, language);
      var greeting := svc.initialChat(role, language);
      && (prompt.Err? ==> r == Err("failed to get system prompt: " + prompt.error))
      && (prompt.Ok? && greeting.Err? ==> r == Err("failed to get initial text: " + greeting.error))
      && (prompt.Ok? && greeting.Ok? ==>
            var audio := AudioOf(svc, SpeechFor(svc, language, keys, greeting.value), "failed to create initial audio: ");
            && (audio.Err? ==> r == Err(audio.error))
            && (audio.Ok? ==> r == Ok(Opening(language, prompt.value, greeting.value, audio.value))))
  {
    var language := ChatLanguage(svc, lang);
    var prompt := svc.systemPrompt(role, skills, language);
    if prompt.Err? then Err("failed to get system prompt: " + prompt.error)
    else
      var greeting := svc.initialChat(role, language);
      if greeting.Err? then Err("failed to get initial text: " + greeting.error)
      else
        var audio := AudioOf(svc, SpeechFor(svc, language, keys, greeting.value), "failed to create initial audio: ");
        if audio.Err? then Err(audio.error)
        else Ok(Opening(language, prompt.value, greeting.value, audio.value))
  }

  /** What a session that passed the checks has: the keys, the user and its log. */
  datatype Session = Session(keys: KeyPair, user: ChatUser, history: seq<Entry>)

  /** The application object; `model` is the store it owns. */
  class App {
    const model: Model

    constructor (model: Model)
      ensures this.model == model
    {
      this.model := model;
    }

    /**
     * The checks AnswerChat and EndChat make before anything else
     * (api.go:140-157, 234-251), in this order: the keys can be read, the
     * user exists, the secret matches its hash, its log can be read.
     */
    function Admit(svc: Services, userID: string, userSecret: string): (r: Result<Session, string>)
      reads model
      ensures model.GetAPIKey().Err? ==> r == Err("failed to get api key: " + model.GetAPIKey().error.Text())
      ensures model.GetAPIKey().Ok? && model.GetChatUser(userID).Err? ==>
        r == Err("failed to get chat: " + model.GetChatUser(userID).error.Text())
      ensures model.GetAPIKey().Ok? && model.GetChatUser(userID).Ok? && !svc.matches(userSecret, model.GetChatUser(userID).value.secret) ==>
        r == Err(InvalidSecret)
      ensures model.GetAPIKey().Ok? && model.GetChatUser(userID).Ok? && svc.matches(userSecret, model.GetChatUser(userID).value.secret) &&
              model.GetChatsByChatUserID(userID).Err? ==>
        r == Err("failed to get chat: " + model.GetChatsByChatUserID(userID).error.Text())
      ensures model.GetAPIKey().Ok? && model.GetChatUser(userID).Ok? && svc.matches(userSecret, model.GetChatUser(userID).value.secret) &&
              model.GetChatsByChatUserID(userID).Ok? ==>
        r.Ok?
      ensures r.Ok? ==> userID in model.users && svc.matches(userSecret, model.users[userID].secret)
      ensures r.Ok? ==> r.value == Session(model.GetAPIKey().value, ChatUser(userID, model.users[userID].secret, model.users[userID].language), model.Log(userID))
    {
      var keys := model.GetAPIKey();
      if keys.Err? then Err("failed to get api key: " + keys.error.Text())
      else
        var user := model.GetChatUser(userID);
        if user.Err? then Err("failed to get chat: " + user.error.Text())
        else if !svc.matches(userSecret, user.value.secret) then Err(InvalidSecret)
        else
          var entries := model.GetChatsByChatUserID(userID);
          if entries.Err? then Err("failed to get chat: " + entries.error.Text())
          else Ok(Session(keys.value, user.value, entries.value))
    }

    /**
     * Status (api.go:22-57): the first failing step among key read, key
     * check and status fetch decides the error; otherwise the server is up,
     * Key is the key's validity, API the tri-state of the status and
     * ApiStatus its raw string.
     */
    method Status(svc: Services) returns (r: Result<StatusResponse, string>)
      ensures var keys := model.GetAPIKey();
        keys.Err? ==> r == Err("failed to get api key: " + keys.error.Text())
      ensures var keys := model.GetAPIKey();
        keys.Ok? && OpenAI.IsKeyValid(svc.modelsProbe(keys.value.openAIKey)).Err? ==>
          r == Err("failed to check api key: " + OpenAI.IsKeyValid(svc.modelsProbe(keys.value.openAIKey)).error)
      ensures var keys := model.GetAPIKey();
        keys.Ok? && OpenAI.IsKeyValid(svc.modelsProbe(keys.value.openAIKey)).Ok? && OpenAI.StatusOf(svc.statusPage).Err? ==>
          r == Err("failed to get api status: " + OpenAI.StatusOf(svc.statusPage).error)
      ensures r.Ok? ==> model.GetAPIKey().Ok? && OpenAI.StatusOf(svc.statusPage).Ok?
      ensures r.Ok? ==>
        var status := OpenAI.StatusOf(svc.statusPage).value;
        && r.value.server
        && OpenAI.IsKeyValid(svc.modelsProbe(model.GetAPIKey().value.openAIKey)) == Ok(r.value.key)
        && r.value.api == ApiState(status)
        && r.value.apiStatus == StatusText(status)
      ensures var keys := model.GetAPIKey();
        keys.Ok? && OpenAI.IsKeyValid(svc.modelsProbe(keys.value.openAIKey)).Ok? && OpenAI.StatusOf(svc.statusPage).Ok? ==>
          var status := OpenAI.StatusOf(svc.statusPage).value;
          r == Ok(StatusResponse(true, OpenAI.IsKeyValid(svc.modelsProbe(keys.value.openAIKey)).value, ApiState(status), StatusText(status)))
    {
      var keys := model.GetAPIKey();
      if keys.Err? {
        return Err("failed to get api key: " + keys.error.Text());
      }
      var isKeyValid := OpenAI.IsKeyValid(svc.modelsProbe(keys.value.openAIKey));
      if isKeyValid.Err? {
        return Err("failed to check api key: " + isKeyValid.error);
      }
      var status := OpenAI.StatusOf(svc.statusPage);
      if status.Err? {
        return Err("failed to get api status: " + status.error);
      }
      r := Ok(StatusResponse(true, isKeyValid.value, ApiState(status.value), StatusText(status.value)));
    }

    /**
     * StartChat (api.go:59-137), with `draws` the random indices of the
     * secret and `id` the identifier uuid.New returns: on success a new
     * user holding the hash of the secret and exactly two entries, the
     * system prompt and the greeting, both with the greeting's audio.
     */
    method StartChat(svc: Services, role: string, skills: seq<string>, lang: string, draws: seq<nat>, id: string)
      returns (r: Result<StartChatResponse, string>)
      requires model.Valid()
      requires Util.ValidDraws(draws)
      modifies model
      ensures model.Valid()
      ensures model.settings == old(model.settings)
      ensures forall u :: u != id ==> model.Log(u) == old(model.Log(u))
      ensures forall u :: u in old(model.users) ==> u in model.users && model.users[u] == old(model.users)[u]
      ensures forall u :: u in model.users ==> u in old(model.users) || u == id
      ensures model.GetAPIKey().Err? ==>
        r == Err("failed to get api key: " + model.GetAPIKey().error.Text()) && model.users == old(model.users) && model.chats == old(model.chats)
      ensures model.users == old(model.users) ==> model.chats == old(model.chats)
      ensures var keys := model.GetAPIKey();
        keys.Ok? ==>
          var opening := OpeningOf(svc, role, skills, lang, keys.value);
          var hashed := svc.hash(Util.SecretOf(draws));
          && (opening.Err? ==> r == Err(opening.error) && model.users == old(model.users))
          && (opening.Ok? && hashed.Err? ==> r == Err("failed to create hash: " + hashed.error) && model.users == old(model.users))
          && (opening.Ok? && hashed.Ok? ==> (r.Ok? <==> old(Accepts(id))))
      ensures var keys := model.GetAPIKey();
        keys.Ok? ==>
          var opening := OpeningOf(svc, role, skills, lang, keys.value);
          var hashed := svc.hash(Util.SecretOf(draws));
          opening.Ok? && hashed.Ok? ==>
            var o := opening.value;
            var userInsert := model.conn(InsertChatUser(id));
            var system, assistant := model.conn(InsertChat(id, RoleSystem)), model.conn(InsertChat(id, RoleAssistant));
            && (userInsert.Some? ==>
                  r == Err("failed to create new chat: " + userInsert.value) && model.users == old(model.users))
            && (userInsert.None? && id in old(model.users) ==>
                  r == Err("failed to create new chat: " + UniqueViolation) && model.users == old(model.users))
            && (userInsert.None? && id !in old(model.users) ==>
                  && model.users == old(model.users)[id := UserRecord(hashed.value, o.language)]
                  && (system.Some? ==> r == Err("failed to create chat: " + system.value) && model.Log(id) == [])
                  && (system.None? && assistant.Some? ==>
                        r == Err("failed to create chat: " + assistant.value) && model.Log(id) == [Entry(id, RoleSystem, o.prompt, o.audio)])
                  && (system.None? && assistant.None? ==>
                        r.Ok? && model.Log(id) == [Entry(id, RoleSystem, o.prompt, o.audio), Entry(id, RoleAssistant, o.greeting, o.audio)]))
      ensures r.Ok? ==> r.value.id == id && r.value.language == lang && id !in old(model.users)
      ensures r.Ok? ==> id in model.users && model.users[id].language == (if lang == "" then svc.defaultLanguage else svc.languageOf(lang))
      ensures r.Ok? ==> |r.value.secret| == Util.SecretLength && forall i :: 0 <= i < Util.SecretLength ==> r.value.secret[i] == Util.Charset[draws[i]]
      ensures r.Ok? ==> svc.hash(r.value.secret) == Ok(model.users[id].secret)
      ensures r.Ok? ==>
        var language := model.users[id].language;
        && model.GetAPIKey().Ok?
        && svc.initialChat(role, language) == Ok(r.value.chat.text)
        && AudioOf(svc, SpeechFor(svc, language, model.GetAPIKey().value, r.value.chat.text), "failed to create initial audio: ") == Ok(r.value.chat.audio)
        && svc.systemPrompt(role, skills, language).Ok?
        && model.Log(id) == [Entry(id, RoleSystem, svc.systemPrompt(role, skills, language).value, r.value.chat.audio),
                             Entry(id, RoleAssistant, r.value.chat.text, r.value.chat.audio)]
    {
      var keys := model.GetAPIKey();
      if keys.Err? {
        return Err("failed to get api key: " + keys.error.Text());
      }
      var chatLanguage := ChatLanguage(svc, lang);
      var systemPrompt := svc.systemPrompt(role, skills, chatLanguage);
      if systemPrompt.Err? {
        return Err("failed to get system prompt: " + systemPrompt.error);
      }
      var initialText := svc.initialChat(role, chatLanguage);
      if initialText.Err? {
        return Err("failed to get initial text: " + initialText.error);
      }
      var audio := AudioOf(svc, SpeechFor(svc, chatLanguage, keys.value, initialText.value), "failed to create initial audio: ");
      if audio.Err? {
        return Err(audio.error);
      }
      var plainSecret := Util.GenerateRandom(draws);
      var hashed := svc.hash(plainSecret);
      if hashed.Err? {
        return Err("failed to create hash: " + hashed.error);
      }
      var newUser := Enrol(id, hashed.value, chatLanguage, systemPrompt.value, initialText.value, audio.value);
      if newUser.Err? {
        return Err(newUser.error);
      }
      r := Ok(StartChatResponse(newUser.value.id, plainSecret, lang, Chat(initialText.value, audio.value)));
    }

    /** The store takes a new user under `id` and its first two entries. */
    predicate Accepts(id: string)
      reads model
    {
      && model.conn(InsertChatUser(id)).None? && id !in model.users
      && model.conn(InsertChat(id, RoleSystem)).None? && model.conn(InsertChat(id, RoleAssistant)).None?
    }

    /**
     * The inserts of StartChat (api.go:113-124): the user under `id`, then
     * the system prompt and the greeting as its first two entries. A failed
     * insert stops the sequence, keeping what was stored before it.
     */
    method Enrol(id: string, secret: string, language: string, prompt: string, greeting: string, audio: string)
      returns (r: Result<ChatUser, string>)
      requires model.Valid()
      modifies model
      ensures model.Valid()
      ensures model.settings == old(model.settings)
      ensures forall u :: u != id ==> model.Log(u) == old(model.Log(u))
      ensures forall u :: u in old(model.users) ==> u in model.users && model.users[u] == old(model.users)[u]
      ensures forall u :: u in model.users ==> u in old(model.users) || u == id
      ensures model.users == old(model.users) ==> model.chats == old(model.chats)
      ensures model.conn(InsertChatUser(id)).Some? ==>
        r == Err("failed to create new chat: " + model.conn(InsertChatUser(id)).value) && model.users == old(model.users)
      ensures model.conn(InsertChatUser(id)).None? && id in old(model.users) ==>
        r == Err("failed to create new chat: " + UniqueViolation) && model.users == old(model.users)
      ensures model.conn(InsertChatUser(id)).None? && id !in old(model.users) ==>
        && model.users == old(model.users)[id := UserRecord(secret, language)]
        && var system, assistant := model.conn(InsertChat(id, RoleSystem)), model.conn(InsertChat(id, RoleAssistant));
        && (system.Some? ==> r == Err("failed to create chat: " + system.value) && model.Log(id) == [])
        && (system.None? && assistant.Some? ==>
              r == Err("failed to create chat: " + assistant.value) && model.Log(id) == [Entry(id, RoleSystem, prompt, audio)])
        && (system.None? && assistant.None? ==>
              r == Ok(ChatUser(id, secret, "")) && model.Log(id) == [Entry(id, RoleSystem, prompt, audio), Entry(id, RoleAssistant, greeting, audio)])
      ensures r.Ok? <==> old(Accepts(id))
    {
      var newUser := model.CreateChatUser(secret, language, id);
      if newUser.Err? {
        return Err("failed to create new chat: " + newUser.error.Text());
      }
      assert model.Log(id) == [];
      var stored := model.CreateChat(newUser.value.id, RoleSystem, prompt, audio);
      if stored.Err? {
        return Err("failed to create chat: " + stored.error.Text());
      }
      stored := model.CreateChat(newUser.value.id, RoleAssistant, greeting, audio);
      if stored.Err? {
        return Err("failed to create chat: " + stored.error.Text());
      }
      r := Ok(newUser.value);
    }

    /**
     * AnswerChat (api.go:139-231): after the checks of Admit, the recorded
     * answer is transcribed; an empty transcript fails with nothing stored.
     * Otherwise the transcript is stored as the user's entry, the stored
     * log plus the transcript goes to the completion, and the reply is
     * stored as the assistant's entry.
     */
    method AnswerChat(svc: Services, userID: string, userSecret: string, audioData: seq<byte>)
      returns (r: Result<AnswerChatResponse, string>)
      requires model.Valid()
      modifies model
      ensures model.Valid()
      ensures model.settings == old(model.settings) && model.users == old(model.users)
      ensures forall u :: u != userID ==> model.Log(u) == old(model.Log(u))
      ensures var s := old(Admit(svc, userID, userSecret));
        s.Err? ==> r == Err(s.error) && model.chats == old(model.chats)
      ensures var s := old(Admit(svc, userID, userSecret));
        s.Ok? ==>
          var t := OpenAI.Transcribe(svc.transcribe, s.value.keys.openAIKey, Some(audioData), AudioFilename);
          && (t.Err? ==> r == Err("failed to transcribe audio: " + t.error) && model.chats == old(model.chats))
          && (t.Ok? && t.value.text == "" ==> r == Err(NoTranscript) && model.chats == old(model.chats))
          && (t.Ok? && t.value.text != "" ==>
                var userEntry := Entry(userID, RoleUser, t.value.text, svc.base64(audioData));
                var reply := Reply(svc, s.value.keys, s.value.user.language,
                                   Util.ChatHistory(s.value.history + [Entry(userID, RoleUser, t.value.text, "")]));
                var userInsert, answerInsert := model.conn(InsertChat(userID, RoleUser)), model.conn(InsertChat(userID, RoleAssistant));
                && (userInsert.Some? ==>
                      r == Err("failed to create chat: " + userInsert.value) && model.chats == old(model.chats))
                && (userInsert.None? && reply.Err? ==>
                      r == Err(reply.error) && model.Log(userID) == s.value.history + [userEntry])
                && (userInsert.None? && reply.Ok? && answerInsert.Some? ==>
                      r == Err("failed to create chat: " + answerInsert.value) && model.Log(userID) == s.value.history + [userEntry])
                && (userInsert.None? && reply.Ok? && answerInsert.None? ==>
                      && r == Ok(AnswerChatResponse(svc.codeOf(s.value.user.language), Chat(t.value.text, ""), reply.value))
                      && model.Log(userID) == s.value.history + [userEntry, Entry(userID, RoleAssistant, reply.value.text, reply.value.audio)]))
    {
      var session := Admit(svc, userID, userSecret);
      if session.Err? {
        return Err(session.error);
      }
      var keys, user, entries := session.value.keys, session.value.user, session.value.history;
      var transcript := OpenAI.Transcribe(svc.transcribe, keys.openAIKey, Some(audioData), AudioFilename);
      if transcript.Err? {
        return Err("failed to transcribe audio: " + transcript.error);
      }
      if transcript.value.text == "" {
        return Err(NoTranscript);
      }
      var stored := model.CreateChat(userID, RoleUser, transcript.value.text, svc.base64(audioData));
      if stored.Err? {
        return Err("failed to create chat: " + stored.error.Text());
      }
      var chatHistory := entries + [Entry(userID, RoleUser, transcript.value.text, "")];
      var chatMessages := Util.EntryToChatMessage(chatHistory);
      var answer := Reply(svc, keys, user.language, chatMessages);
      if answer.Err? {
        return Err(answer.error);
      }
      stored := model.CreateChat(userID, RoleAssistant, answer.value.text, answer.value.audio);
      if stored.Err? {
        return Err("failed to create chat: " + stored.error.Text());
      }
      r := Ok(AnswerChatResponse(svc.codeOf(user.language), Chat(transcript.value.text, ""), answer.value));
    }

    /**
     * EndChat (api.go:233-308): after the checks of Admit, the stored log
     * plus the fixed feedback request goes to the completion; the request
     * is never stored, only the reply, as the assistant's entry.
     */
    method EndChat(svc: Services, userID: string, userSecret: string) returns (r: Result<AnswerChatResponse, string>)
      requires model.Valid()
      modifies model
      ensures model.Valid()
      ensures model.settings == old(model.settings) && model.users == old(model.users)
      ensures forall u :: u != userID ==> model.Log(u) == old(model.Log(u))
      ensures var s := old(Admit(svc, userID, userSecret));
        s.Err? ==> r == Err(s.error) && model.chats == old(model.chats)
      ensures var s := old(Admit(svc, userID, userSecret));
        s.Ok? ==>
          var reply := Reply(svc, s.value.keys, s.value.user.language,
                             Util.ChatHistory(s.value.history + [Entry(userID, RoleUser, FeedbackRequest, "")]));
          && (reply.Err? ==> r == Err(reply.error) && model.chats == old(model.chats))
          && (reply.Ok? && model.conn(InsertChat(userID, RoleAssistant)).Some? ==>
                && r == Err("failed to create chat: " + model.conn(InsertChat(userID, RoleAssistant)).value)
                && model.chats == old(model.chats))
          && (reply.Ok? && model.conn(InsertChat(userID, RoleAssistant)).None? ==>
                && r == Ok(AnswerChatResponse(svc.codeOf(s.value.user.language), Chat("", ""), reply.value))
                && model.Log(userID) == s.value.history + [Entry(userID, RoleAssistant, reply.value.text, reply.value.audio)])
      ensures r.Err? ==> model.chats == old(model.chats)
    {
      var session := Admit(svc, userID, userSecret);
      if session.Err? {
        return Err(session.error);
      }
      var keys, user, entries := session.value.keys, session.value.user, session.value.history;
      var chatHistory := entries + [Entry(userID, RoleUser, FeedbackRequest, "")];
      var chatMessages := Util.EntryToChatMessage(chatHistory);
      var answer := Reply(svc, keys, user.language, chatMessages);
      if answer.Err? {
        return Err(answer.error);
      }
      var stored := model.CreateChat(userID, RoleAssistant, answer.value.text, answer.value.audio);
      if stored.Err? {
        return Err("failed to create chat: " + stored.error.Text());
      }
      r := Ok(AnswerChatResponse(svc.codeOf(user.language), Chat("", ""), answer.value));
    }
  }
}
