/**
 * The persistence layer (internal/model): the settings row holding the two
 * API keys, the chat users and each user's chat log, behind one database
 * connection. The SQL engine is not modelled; the tables are maps and the
 * connection is an oracle saying which statements it rejects.
 */
module DataModel {
  import opened Wrappers

  /** The two outcomes of database/sql that the code tells apart. */
  datatype DbError = ErrNoRows | Failure(message: string)
  {
    /** The text `%v` prints for the error. */
    function Text(): string
    {
      match this
      case ErrNoRows => "sql: no rows in result set"
      case Failure(m) => m
    }
  }

  /** The statements the model sends, so that the connection can reject any of them. */
  datatype Stmt =
    | SelectKeys
    | UpdateKeys
    | InsertChatUser(id: string)
    | SelectChatUser(id: string)
    | InsertChat(chatUserId: string, role: string)
    | SelectChats(chatUserId: string)

  /** The settings row with id 1 (internal/database/database.go:60-66). */
  datatype SettingsRow = SettingsRow(openAIKey: string, elevenLabsKey: string)

  /** What GetAPIKey reads: (openai_key, elevenlabs_key). */
  datatype KeyPair = KeyPair(openAIKey: string, elevenLabsKey: string)

  /** A row of chat_users without its key. */
  datatype UserRecord = UserRecord(secret: string, language: string)

  datatype ChatUser = ChatUser(id: string, secret: string, language: string)

  /** A row of chats: one message of an interview. */
  datatype Entry = Entry(chatUserId: string, role: string, text: string, audio: string)

  /** The response types of internal/model/response.go. */
  datatype Chat = Chat(text: string, audio: string)
  datatype StartChatResponse = StartChatResponse(id: string, secret: string, language: string, chat: Chat)
  datatype AnswerChatResponse = AnswerChatResponse(language: string, prompt: Chat, answer: Chat)
  /** `API` is a `*bool`: None is nil. */
  datatype StatusResponse = StatusResponse(server: bool, key: bool, api: Option<bool>, apiStatus: string)

  /**
   * AreKeyExist (setting.go:15-26) as a rule over what GetAPIKey read: a
   * missing row means "no keys", any other error is passed on.
   */
  function KeysExist(read: Result<KeyPair, DbError>): (r: Result<bool, DbError>)
    ensures read == Err(ErrNoRows) ==> r == Ok(false)
    ensures read.Err? && read.error != ErrNoRows ==> r == Err(read.error)
    ensures read.Ok? ==> r.Ok?
    ensures read.Ok? ==> (r.value <==> read.value.openAIKey != "" || read.value.elevenLabsKey != "")
  {
    match read
    case Err(ErrNoRows) => Ok(false)
    case Err(e) => Err(e)
    case Ok(keys) => Ok(keys.openAIKey != "" || keys.elevenLabsKey != "")
  }

  const OpenAIColumn: string := "openai_key"
  const ElevenLabsColumn: string := "elevenlabs_key"
  const UpdateHead: string := "UPDATE settings SET "
  const WhereClause: string := " WHERE id = 1"
  /** The statement UpdateAPIKeys sends when both keys are empty. */
  const TruncatedUpdate: string := "UPDATE settings SE WHERE id = 1"
  /** The error a statement that does not parse comes back with. */
  const SyntaxError: string := "syntax error"
  /** The error an insert under an existing primary key comes back with. */
  const UniqueViolation: string := "UNIQUE constraint failed: chat_users.id"

  /** The assignments `c1 = ?, c2 = ?, ...` of an UPDATE, without a trailing separator. */
  function SetList(columns: seq<string>): string
  {
    if |columns| == 0 then ""
    else if |columns| == 1 then columns[0] + Placeholder
    else columns[0] + Placeholder + Separator + SetList(columns[1..])
  }

  /** The well-formed UPDATE of the settings row for these columns. */
  function UpdateStatement(columns: seq<string>): string
  {
    UpdateHead + SetList(columns) + WhereClause
  }

  /** The columns UpdateAPIKeys assigns: one per non-empty key, openai_key first. */
  function GivenColumns(openAIKey: string, elevenLabsKey: string): seq<string>
  {
    (if openAIKey != "" then [OpenAIColumn] else []) + (if elevenLabsKey != "" then [ElevenLabsColumn] else [])
  }

  /** The values bound to the placeholders, in the same order as GivenColumns. */
  function GivenValues(openAIKey: string, elevenLabsKey: string): seq<string>
  {
    (if openAIKey != "" then [openAIKey] else []) + (if elevenLabsKey != "" then [elevenLabsKey] else [])
  }

  /** The record update "an empty key keeps the stored one". */
  function KeepUnlessEmpty(row: Option<SettingsRow>, openAIKey: string, elevenLabsKey: string): (r: Option<SettingsRow>)
  {
    match row
    case None => None
    case Some(s) => Some(SettingsRow(
      if openAIKey != "" then openAIKey else s.openAIKey,
      if elevenLabsKey != "" then elevenLabsKey else s.elevenLabsKey))
  }

  /**
   * The database executing an UPDATE of the settings table: it knows the
   * statements that assign openai_key, elevenlabs_key or both (in that
   * order) and stores each bound value as given, the empty string
   * included; any other text is a syntax error. With no settings row the
   * UPDATE matches nothing.
   */
  function ExecUpdate(row: Option<SettingsRow>, query: string, args: seq<string>): Result<Option<SettingsRow>, DbError>
  {
    if query == UpdateStatement([OpenAIColumn]) && |args| == 1 then
      Ok(if row.None? then None else Some(SettingsRow(args[0], row.value.elevenLabsKey)))
    else if query == UpdateStatement([ElevenLabsColumn]) && |args| == 1 then
      Ok(if row.None? then None else Some(SettingsRow(row.value.openAIKey, args[0])))
    else if query == UpdateStatement([OpenAIColumn, ElevenLabsColumn]) && |args| == 2 then
      Ok(if row.None? then None else Some(SettingsRow(args[0], args[1])))
    else Err(Failure(SyntaxError))
  }

  const Placeholder: string := " = ?"
  const Separator: string := ", "

  /** The assignments of a non-empty UPDATE end in a placeholder, never in a dangling ", ". */
  lemma {:induction false} SetListEndsInPlaceholder(columns: seq<string>)
    requires |columns| > 0
    ensures |SetList(columns)| >= 4
    ensures SetList(columns)[|SetList(columns)| - 4..] == Placeholder
    decreases |columns|
  {
    if |columns| > 1 {
      SetListEndsInPlaceholder(columns[1..]);
      var tail := SetList(columns[1..]);
      var s := columns[0] + " = ?, " + tail;
      assert s == (columns[0] + Placeholder + Separator) + tail;
      assert s[|s| - 4..] == tail[|tail| - 4..];
    }
  }

  /**
   * UpdateAPIKeys as a record update (setting.go:28-50): the statement it
   * builds, executed on any settings row, gives KeepUnlessEmpty; with both
   * keys empty the database rejects the statement.
   */
  lemma UpdateExecutesAsRecordUpdate(row: Option<SettingsRow>, openAIKey: string, elevenLabsKey: string)
    ensures openAIKey == "" && elevenLabsKey == "" ==> ExecUpdate(row, TruncatedUpdate, []) == Err(Failure(SyntaxError))
    ensures openAIKey != "" || elevenLabsKey != "" ==>
      ExecUpdate(row, UpdateStatement(GivenColumns(openAIKey, elevenLabsKey)), GivenValues(openAIKey, elevenLabsKey))
        == Ok(KeepUnlessEmpty(row, openAIKey, elevenLabsKey))
  {
    var one := UpdateStatement([OpenAIColumn]);
    var two := UpdateStatement([ElevenLabsColumn]);
    var both := UpdateStatement([OpenAIColumn, ElevenLabsColumn]);
    assert |TruncatedUpdate| == 31 && |one| == 47 && |two| == 51 && |both| == 67;
    assert one[20] == 'o' && two[20] == 'e';
  }

  /** The text BuildUpdate accumulates, before and after it cuts the last two characters. */
  lemma BuiltUpdate(openAIKey: string, elevenLabsKey: string, built: string, query: string)
    requires built == UpdateHead
      + (if openAIKey != "" then OpenAIColumn + Placeholder + Separator else "")
      + (if elevenLabsKey != "" then ElevenLabsColumn + Placeholder + Separator else "")
    requires query == built[..|built| - 2] + WhereClause
    ensures openAIKey != "" || elevenLabsKey != "" ==> query == UpdateStatement(GivenColumns(openAIKey, elevenLabsKey))
    ensures openAIKey == "" && elevenLabsKey == "" ==> query == TruncatedUpdate
  {
    var columns := GivenColumns(openAIKey, elevenLabsKey);
    if openAIKey != "" || elevenLabsKey != "" {
      var list := SetList(columns);
      if openAIKey != "" && elevenLabsKey != "" {
        assert columns == [OpenAIColumn, ElevenLabsColumn];
        assert columns[1..] == [ElevenLabsColumn];
        assert SetList(columns[1..]) == ElevenLabsColumn + Placeholder;
        assert list == OpenAIColumn + Placeholder + Separator + (ElevenLabsColumn + Placeholder);
        assert built == UpdateHead + list + Separator;
      } else if openAIKey != "" {
        assert built == UpdateHead + list + Separator;
      } else {
        assert built == UpdateHead + list + Separator;
      }
      assert built[..|built| - 2] == UpdateHead + list;
    }
  }

  /** The database behind internal/model.Model. */
  class Model {
    /** The statements this connection rejects, with the error each comes back with. */
    const conn: Stmt -> Option<string>
    var settings: Option<SettingsRow>
    var users: map<string, UserRecord>
    var chats: map<string, seq<Entry>>

    constructor (conn: Stmt -> Option<string>, settings: Option<SettingsRow>)
      ensures this.conn == conn && this.settings == settings
      ensures users == map[] && chats == map[]
      ensures Valid()
    {
      this.conn := conn;
      this.settings := settings;
      users := map[];
      chats := map[];
    }

    /** Every logged message belongs to a known user. */
    ghost predicate Valid()
      reads this
    {
      chats.Keys <= users.Keys
    }

    /** A user's log; a user without messages has an empty one. */
    function Log(chatUserId: string): seq<Entry>
      reads this
    {
      if chatUserId in chats then chats[chatUserId] else []
    }

    /** GetAPIKey (setting.go:8-13): the keys of the first settings row. */
    function GetAPIKey(): (r: Result<KeyPair, DbError>)
      reads this
      ensures r.Ok? <==> conn(SelectKeys).None? && settings.Some?
      ensures r.Ok? ==> r.value == KeyPair(settings.value.openAIKey, settings.value.elevenLabsKey)
      ensures conn(SelectKeys).Some? ==> r == Err(Failure(conn(SelectKeys).value))
      ensures conn(SelectKeys).None? && settings.None? ==> r == Err(ErrNoRows)
    {
      if conn(SelectKeys).Some? then Err(Failure(conn(SelectKeys).value))
      else if settings.None? then Err(ErrNoRows)
      else Ok(KeyPair(settings.value.openAIKey, settings.value.elevenLabsKey))
    }

    /** AreKeyExist (setting.go:15-26). */
    function AreKeyExist(): (r: Result<bool, DbError>)
      reads this
      ensures conn(SelectKeys).None? && settings.None? ==> r == Ok(false)
      ensures conn(SelectKeys).Some? ==> r == Err(Failure(conn(SelectKeys).value))
      ensures conn(SelectKeys).None? && settings.Some? ==>
        r == Ok(settings.value.openAIKey != "" || settings.value.elevenLabsKey != "")
    {
      KeysExist(GetAPIKey())
    }

    /**
     * The statement and arguments UpdateAPIKeys builds (setting.go:28-46):
     * one `?` and one argument per non-empty key, openai_key first, and the
     * last ", " cut off before the WHERE clause.
     */
    static method BuildUpdate(openAIKey: string, elevenLabsKey: string) returns (query: string, args: seq<string>)
      ensures args == GivenValues(openAIKey, elevenLabsKey)
      ensures |args| == |GivenColumns(openAIKey, elevenLabsKey)|
      ensures openAIKey != "" || elevenLabsKey != "" ==> query == UpdateStatement(GivenColumns(openAIKey, elevenLabsKey))
      ensures openAIKey == "" && elevenLabsKey == "" ==> query == TruncatedUpdate
      ensures openAIKey != "" || elevenLabsKey != "" ==>
        |query| >= |Placeholder| + |WhereClause| &&
        query[|query| - |WhereClause| - |Placeholder|..|query| - |WhereClause|] == Placeholder
    {
      query := UpdateHead;
      args := [];
      if openAIKey != "" {
        query := query + OpenAIColumn + Placeholder + Separator;
        args := args + [openAIKey];
      }
      if elevenLabsKey != "" {
        query := query + ElevenLabsColumn + Placeholder + Separator;
        args := args + [elevenLabsKey];
      }
      ghost var built := query;
      query := query[..|query| - 2];
      query := query + WhereClause;
      BuiltUpdate(openAIKey, elevenLabsKey, built, query);
      if openAIKey != "" || elevenLabsKey != "" {
        var list := SetList(GivenColumns(openAIKey, elevenLabsKey));
        SetListEndsInPlaceholder(GivenColumns(openAIKey, elevenLabsKey));
        assert query == (UpdateHead + list) + WhereClause;
        assert query[|query| - |WhereClause| - |Placeholder|..|query| - |WhereClause|] == list[|list| - 4..];
      }
    }

    /**
     * UpdateAPIKeys (setting.go:28-50): the keys given non-empty replace the
     * stored ones and nothing else changes; with both empty, or when the
     * connection rejects the statement, the row stays as it was.
     */
    method UpdateAPIKeys(openAIKey: string, elevenLabsKey: string) returns (err: Option<DbError>)
      modifies this
      ensures users == old(users) && chats == old(chats)
      ensures conn(UpdateKeys).Some? ==> err == Some(Failure(conn(UpdateKeys).value)) && settings == old(settings)
      ensures conn(UpdateKeys).None? && openAIKey == "" && elevenLabsKey == "" ==>
        err == Some(Failure(SyntaxError)) && settings == old(settings)
      ensures conn(UpdateKeys).None? && (openAIKey != "" || elevenLabsKey != "") ==>
        err == None && settings == KeepUnlessEmpty(old(settings), openAIKey, elevenLabsKey)
    {
      var query, args := BuildUpdate(openAIKey, elevenLabsKey);
      if conn(UpdateKeys).Some? {
        return Some(Failure(conn(UpdateKeys).value));
      }
      UpdateExecutesAsRecordUpdate(settings, openAIKey, elevenLabsKey);
      var outcome := ExecUpdate(settings, query, args);
      if outcome.Err? {
        return Some(outcome.error);
      }
      settings := outcome.value;
      err := None;
    }

    /**
     * CreateChatUser (chat_user.go:13-21), with `id` the fresh identifier
     * uuid.New produced: the row is inserted unless the connection rejects
     * it or the id is taken, and the returned user leaves Language empty.
     */
    method CreateChatUser(secret: string, language: string, id: string) returns (r: Result<ChatUser, DbError>)
      modifies this
      ensures settings == old(settings) && chats == old(chats)
      ensures r.Ok? <==> conn(InsertChatUser(id)).None? && id !in old(users)
      ensures conn(InsertChatUser(id)).Some? ==> r == Err(Failure(conn(InsertChatUser(id)).value))
      ensures conn(InsertChatUser(id)).None? && id in old(users) ==> r == Err(Failure(UniqueViolation))
      ensures r.Err? ==> users == old(users)
      ensures r.Ok? ==> r.value == ChatUser(id, secret, "")
      ensures r.Ok? ==> users == old(users)[id := UserRecord(secret, language)]
      ensures r.Ok? && conn(SelectChatUser(id)).None? ==> GetChatUser(id) == Ok(ChatUser(id, secret, language))
      ensures old(Valid()) ==> Valid()
    {
      if conn(InsertChatUser(id)).Some? {
        return Err(Failure(conn(InsertChatUser(id)).value));
      }
      if id in users {
        return Err(Failure(UniqueViolation));
      }
      users := users[id := UserRecord(secret, language)];
      r := Ok(ChatUser(id, secret, ""));
    }

    /** GetChatUser (chat_user.go:23-31): the stored user, or no row. */
    function GetChatUser(id: string): (r: Result<ChatUser, DbError>)
      reads this
      ensures conn(SelectChatUser(id)).Some? ==> r == Err(Failure(conn(SelectChatUser(id)).value))
      ensures conn(SelectChatUser(id)).None? && id !in users ==> r == Err(ErrNoRows)
      ensures r.Ok? <==> conn(SelectChatUser(id)).None? && id in users
      ensures r.Ok? ==> r.value == ChatUser(id, users[id].secret, users[id].language)
    {
      if conn(SelectChatUser(id)).Some? then Err(Failure(conn(SelectChatUser(id)).value))
      else if id !in users then Err(ErrNoRows)
      else Ok(ChatUser(id, users[id].secret, users[id].language))
    }

    /** CreateChat (not part of this model's sources): appends one message to a user's log. */
    method CreateChat(chatUserId: string, role: string, text: string, audio: string) returns (r: Result<Entry, DbError>)
      modifies this
      ensures settings == old(settings) && users == old(users)
      ensures conn(InsertChat(chatUserId, role)).Some? ==>
        r == Err(Failure(conn(InsertChat(chatUserId, role)).value)) && chats == old(chats)
      ensures conn(InsertChat(chatUserId, role)).None? ==>
        r == Ok(Entry(chatUserId, role, text, audio)) && chats == old(chats)[chatUserId := old(Log(chatUserId)) + [r.value]]
      ensures forall u :: u != chatUserId ==> Log(u) == old(Log(u))
      ensures old(Valid()) && chatUserId in users ==> Valid()
    {
      if conn(InsertChat(chatUserId, role)).Some? {
        return Err(Failure(conn(InsertChat(chatUserId, role)).value));
      }
      var entry := Entry(chatUserId, role, text, audio);
      chats := chats[chatUserId := Log(chatUserId) + [entry]];
      r := Ok(entry);
    }

    /** GetChatsByChatUserID (not part of this model's sources): a user's log in order. */
    function GetChatsByChatUserID(chatUserId: string): (r: Result<seq<Entry>, DbError>)
      reads this
      ensures conn(SelectChats(chatUserId)).Some? ==> r == Err(Failure(conn(SelectChats(chatUserId)).value))
      ensures conn(SelectChats(chatUserId)).None? ==> r == Ok(Log(chatUserId))
    {
      if conn(SelectChats(chatUserId)).Some? then Err(Failure(conn(SelectChats(chatUserId)).value))
      else Ok(Log(chatUserId))
    }
  }
}
