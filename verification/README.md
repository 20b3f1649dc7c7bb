# interview-app, modelled in Dafny

interview-app is a desktop mock-interview application. A Go backend serves it, and a React window drives it. The backend stores the OpenAI and ElevenLabs keys in a settings row. It starts an interview for a role and a list of skills, and creates a chat user whose random secret is kept only as a bcrypt hash. Each recorded answer is transcribed, the whole log is sent to the chat completion, and the reply comes back as text plus speech. At the end it asks the model for feedback. It also reports the health of the database, the key and the OpenAI API, and the navigation bar shows that health as a coloured dot.

This project models that core and proves what each step promises:

- `DataModel` is the SQLite store as a `Model` class.
  - It holds a settings row, the chat users and each user's log of entries.
  - The connection is a function that says which statements fail and with what error.
  - `UpdateAPIKeys` builds its UPDATE text exactly as the Go code does, including the malformed statement it sends when both keys are empty.
- `OpenAI` covers the decisions of the OpenAI client once an HTTP exchange is over:
  - the key check from the status code;
  - the scan of the status page's components;
  - the chat request and the transcription guard.
- `Markdown` is `sanitizeString`: the four regular-expression replacements and the newline replacement, written as scanners over the text.
- `Util` holds the other helpers:
  - the random secret, filled into an array in a loop;
  - the conversion of log entries to chat messages, in a loop.
- `Api` is the `App` class with `Status`, `StartChat`, `AnswerChat` and `EndChat`.
  - It is written over the `Model`.
  - External services (OpenAI, ElevenLabs, bcrypt, base64, the language table and the prompts) are fields of a `Services` value.
- `Navbar` and `StartScreen` are the two React pages in the core:
  - the status dot and its tooltip;
  - the guarded callbacks;
  - the skills parser (`split(',')` and then `trim`);
  - the interview store's updates on submit.

What is said aloud is `Markdown.Sanitize` of the reply. `Sanitize` is proved to leave no newline in the text, never to lengthen it, and to leave plain text unchanged.

## Model

| member | source | states |
|---|---|---|
| OpenAIModel.RecognisedStatus | internal/openai/api.go:68-81 | only the four concrete status strings are recognised, each as the status whose text it is; "unknown" is not |
| OpenAIModel.RecognisedStatusText | internal/openai/model/status.go:5-11 | recognition inverts the status text on every status except Unknown |
| DataModel.KeysExist | internal/model/setting.go:15-26 | a missing row means no keys (false, no error); any other read error is passed on; a row answers true exactly when one of its keys is non-empty |
| DataModel.SetListEndsInPlaceholder | internal/model/setting.go:29-46 | the assignment list for one or more columns ends in " = ?", so no separator dangles before WHERE |
| DataModel.UpdateExecutesAsRecordUpdate | internal/model/setting.go:28-50 | the statement built for at least one key, run with its arguments by a database that stores every bound value as given, replaces exactly the non-empty keys and keeps the others, because the builder leaves empty keys out; the statement built for no key is rejected |
| DataModel.Model.GetAPIKey | internal/model/setting.go:8-13 | the keys of the settings row; a missing row is "no rows"; a failing query returns its error |
| DataModel.Model.AreKeyExist | internal/model/setting.go:15-26 | no row gives false; a failing query gives its error; otherwise true exactly when one of the stored keys is non-empty |
| DataModel.Model.BuildUpdate | internal/model/setting.go:29-46 | one placeholder and one argument per non-empty key, openai_key first; the query is the well-formed UPDATE of those columns, or "UPDATE settings SE WHERE id = 1" when both keys are empty; when a key is given, the text before the WHERE clause ends in " = ?", with no dangling ", " |
| DataModel.Model.UpdateAPIKeys | internal/model/setting.go:28-50 | on success the non-empty keys replace the stored ones and nothing else changes; when the connection fails or both keys are empty it returns an error and leaves the row unchanged |
| DataModel.Model.CreateChatUser | internal/model/chat_user.go:13-21 | succeeds exactly when the insert is accepted and the id is new; it then stores secret and language under the id but returns the user with an empty language; on failure no user is added |
| DataModel.Model.GetChatUser | internal/model/chat_user.go:23-31 | the stored user with its secret and language; "no rows" for an unknown id; a failing query returns its error |
| Markdown.StripStrong | util.go:15-16 | the bold pass never lengthens the text |
| Markdown.StripItalic | util.go:18-19 | the italic pass never lengthens the text |
| Markdown.NonStarRun | util.go:15 | the length of the run of non-'*' characters at a position, maximal |
| Markdown.EmphasisAt | util.go:15-19 | finds a '*'-delimited span with a non-empty star-free body exactly when one exists at the position |
| Markdown.ReplaceEmphasis | util.go:15-19 | never lengthens the text |
| Markdown.CloseParen | util.go:21 | the first ')' after a position on the same line, or none when a newline comes first |
| Markdown.LinkFrom | util.go:21 | the leftmost "](" with a closing ")" on the line, at or after a position; none exactly when no link match starts there |
| Markdown.LinkAt | util.go:21 | a link match at the start of the text when one exists, the one with the leftmost "]("; none otherwise |
| Markdown.StripLinks | util.go:21-22 | never lengthens the text |
| Markdown.JoinBullets | util.go:24-25 | never lengthens the text |
| Markdown.NewlinesToSpaces | util.go:27 | same length; every newline becomes a space and every other character is kept |
| Markdown.Sanitize | util.go:14-30 | the result has no newline and is no longer than the input |
| Markdown.StarFreeUnchanged | util.go:15-19 | text without '*' passes the bold and italic passes unchanged |
| Markdown.LinkFreeUnchanged | util.go:21-22 | text without '[' passes the link pass unchanged |
| Markdown.NewlineFreeUnchanged | util.go:24-27 | text without a newline passes the bullet and newline passes unchanged |
| Markdown.SanitizePlain | util.go:14-30 | text without '*', '[' or newline is spoken exactly as written |
| Markdown.EmphasisSkipsStarFree | util.go:15-19 | a star-free prefix passes through the emphasis replacement unchanged |
| Markdown.StrongReplaced | util.go:15-16 | "**x**" becomes x for a non-empty star-free x |
| Markdown.ItalicReplaced | util.go:18-19 | "*x*" becomes x for a non-empty star-free x |
| Markdown.StrongKeepsItalic | util.go:15-16 | the bold pass leaves "*x*" alone |
| Markdown.LinksSkipPlain | util.go:21-22 | a prefix without '[' passes through the link replacement unchanged |
| Markdown.LinkReplaced | util.go:21-22 | "[text](url)" becomes text |
| Markdown.LinkStopsAtNewline | util.go:21 | a newline before the "]" means no link match, since `.` does not match a newline |
| Markdown.BulletsSkipPlain | util.go:24-25 | a prefix without a newline passes through the bullet replacement unchanged |
| Markdown.BulletJoined | util.go:24-27 | "x\n- y" is spoken as "x, y" |
| Markdown.SanitizeStrong | util.go:14-30 | the whole sanitiser turns "**x**" into x |
| Markdown.SanitizeItalic | util.go:14-30 | the whole sanitiser turns "*x*" into x |
| Markdown.SanitizeLink | util.go:14-30 | the whole sanitiser turns "[text](url)" into text |
| Util.AlphanumericConcat | util.go:33 | joining two alphanumeric strings gives an alphanumeric string |
| Util.CharsetIsAlphanumeric | util.go:33 | the secret alphabet has 62 characters, each an ASCII letter or digit |
| Util.SecretOf | util.go:32-42 | the secret selected by the draws: 10 characters, the i-th being the alphabet character at the i-th draw |
| Util.GenerateRandom | util.go:32-42 | the array filled in the loop holds 10 characters, the i-th being the alphabet character at the i-th draw, so the secret is SecretOf the draws |
| Util.SecretIsAlphanumeric | util.go:32-42 | every secret drawn that way is made of ASCII letters and digits |
| Util.EntryToChatMessage | util.go:57-67 | one message per entry, in order, carrying the entry's role and text |
| OpenAI.IsKeyValid | internal/openai/api.go:17-40 | a transport failure is the only error; otherwise the key is valid exactly when the answer is 200 |
| OpenAI.FindApiStatus | internal/openai/api.go:68-83 | Unknown exactly when no component named "API" has a recognised status; otherwise the status of the first such component |
| OpenAI.UnrecognisedApiSkipped | internal/openai/api.go:68-81 | an "API" component with an unrecognised status is passed over |
| OpenAI.ScanIgnoresPrefix | internal/openai/api.go:68-83 | components before the first reportable one do not change the result |
| OpenAI.StatusOf | internal/openai/api.go:42-84 | a transport or decoding failure is an error; a non-200 answer is Unknown without an error; otherwise the component scan decides |
| OpenAI.Chat | internal/openai/api.go:86-132 | the key and the messages are sent unchanged under the fixed chat model, and the endpoint's answer or error is returned as it is |
| OpenAI.ChatRequestFor | internal/openai/api.go:94-97 | the chat request carries the given messages and the fixed model gpt-4o-mini-2024-07-18 |
| OpenAI.Transcribe | internal/openai/api.go:134-218 | a nil file fails with "audio is nil" before any request; otherwise the file is sent with whisper-1 and language "en" |
| Api.ApiState | api.go:38-47 | API is true exactly when operational, false exactly for the three outages, nil exactly when unknown |
| Api.ChatLanguage | api.go:65-68 | the default transcript language when no language is chosen, otherwise the language named by the chosen code |
| Api.SpeechFor | api.go:81-95 | OpenAI speech with the OpenAI key exactly when OpenAI speaks the language, ElevenLabs speech with the ElevenLabs key otherwise; both are given the sanitised text |
| Api.OpeningOf | api.go:65-105 | the first failing step among system prompt, greeting and its speech decides the error, with that step's message; otherwise the language, the prompt, the greeting and the greeting's audio |
| Api.AudioOf | api.go:80-105 | a failed speech request or read is an error; no reader gives empty audio; otherwise the base64 of the bytes |
| Api.Reply | api.go:181-213 | a completion error or no choices is an error; otherwise a failed speech request or read gives that error, and a successful one gives the text of the first choice with the audio of its sanitised speech |
| Api.App.Admit | api.go:140-157 | checks in order: the keys can be read, the user exists, the secret matches its hash, the log can be read; each failure has its own message; a request that passes all four is admitted, with the keys, the user and its log |
| Api.App.Status | api.go:22-57 | the first failing step among key read, key check and status fetch decides the error; when all three succeed the call succeeds, with server up, key is the key's validity, api the tri-state and apiStatus the raw status text |
| Api.App.Enrol | api.go:113-124 | succeeds exactly when the store takes the user under a new id and both entries; a rejected or duplicate user insert stores nothing; a failed system insert leaves the new user with an empty log, a failed greeting insert with the system entry alone; on success the log is the system prompt followed by the greeting; no other user or log changes |
| Api.App.StartChat | api.go:59-137 | the key read, then the opening steps, then the hash of the drawn secret: the first of them to fail decides the error and nothing is stored; once they succeed, the call succeeds exactly when the store accepts the new user and both entries; a rejected or duplicate user insert fails with "failed to create new chat: " and stores nothing; a failed chat insert fails with "failed to create chat: " and leaves the new user in place with an empty log, or with the system entry alone when only the greeting insert fails; no other user or log changes; on success the new user's language is the chosen or default one, its secret is the hash of the returned 10-character secret, and its log is exactly the system prompt followed by the greeting; the response echoes the requested language |
| Api.App.AnswerChat | api.go:139-231 | after the checks, an empty or failed transcript stores nothing; otherwise the transcript is stored as the user entry, and the stored log plus the transcript goes to the completion; on success the reply is stored as the assistant entry and the response carries the transcript and the reply |
| Api.App.EndChat | api.go:233-308 | after the checks, the stored log plus the fixed feedback request goes to the completion; the request itself is never stored, only the reply as the assistant entry; on any error the log is unchanged |
| Navbar.StatusColor | interface/src/pages/Navbar.tsx:52-57 | green exactly when server, API and key are all up; orange exactly when the API reports an outage; red otherwise, including when there is no status |
| Navbar.Capitalize | interface/src/pages/Navbar.tsx:59-61 | the first character upper-cased, the rest unchanged, same length |
| Navbar.CapitalizeIdempotent | interface/src/pages/Navbar.tsx:59-61 | capitalising twice is capitalising once |
| Navbar.ApiText | interface/src/pages/Navbar.tsx:127 | "Unknown" only for a reported nil, "Up" for true, "Down" for false or for no status at all |
| Navbar.TooltipOf | interface/src/pages/Navbar.tsx:126-129 | the four tooltip lines: database up, API text, the capitalised status or "Unknown", authorised yes or no |
| Navbar.StatusPipeline | interface/src/pages/Navbar.tsx:52-57 | for a status response built by Status, the dot is green exactly when operational with a valid key, orange exactly during an outage, and the API line says Unknown exactly when the status is unknown |
| Navbar.NavbarView.HandleBack | interface/src/pages/Navbar.tsx:67-71 | onBack runs exactly when it is given and back is not disabled |
| Navbar.NavbarView.HandleForward | interface/src/pages/Navbar.tsx:73-77 | onForward runs exactly when it is given and forward is not disabled |
| Navbar.NavbarView.HandleStartOver | interface/src/pages/Navbar.tsx:79-86 | the confirmation dialog is shown exactly when onStartOver is given, and onStartOver then runs exactly when the dialog answers "Yes", "Ok" or "Continue"; without the callback nothing happens |
| Navbar.NavbarView.HandleSettings | interface/src/pages/Navbar.tsx:88-94 | onSetting runs if given, and the settings page opens in every case |
| StartScreen.LanguageChoices | interface/src/pages/StartScreen.tsx:16-19 | exactly two languages are offered, with the distinct codes "en-US" and "id-ID" |
| StartScreen.LeadingSpace | interface/src/pages/StartScreen.tsx:28 | the maximal run of white space that starts the string |
| StartScreen.TrailingSpace | interface/src/pages/StartScreen.tsx:28 | the maximal run of white space that ends the string |
| StartScreen.Trim | interface/src/pages/StartScreen.tsx:28 | a slice of the input between two all-space runs, with no white space at either end |
| StartScreen.TrimIdempotent | interface/src/pages/StartScreen.tsx:28 | trimming twice is trimming once |
| StartScreen.Split | interface/src/pages/StartScreen.tsx:28 | at least one piece, even for the empty string |
| StartScreen.SplitCount | interface/src/pages/StartScreen.tsx:28 | one piece more than there are separators |
| StartScreen.SplitPieces | interface/src/pages/StartScreen.tsx:28 | no piece contains the separator |
| StartScreen.SplitJoin | interface/src/pages/StartScreen.tsx:28 | joining the pieces with the separator gives back the string |
| StartScreen.JoinSplit | interface/src/pages/StartScreen.tsx:28 | splitting a join of separator-free pieces gives back the pieces |
| StartScreen.ParseSkills | interface/src/pages/StartScreen.tsx:28 | one skill per comma-separated piece, in order, each trimmed |
| StartScreen.SplitNoSeparator | interface/src/pages/StartScreen.tsx:28 | a string without the separator is its only piece |
| StartScreen.ParseSkillsShape | interface/src/pages/StartScreen.tsx:28 | one skill per comma plus one; without a comma the result is just the trimmed field, so an empty field gives one empty skill |
| StartScreen.ParseSkillsTrimmed | interface/src/pages/StartScreen.tsx:28 | no parsed skill starts or ends with white space |
| StartScreen.InterviewStore.BeginSubmit | interface/src/pages/StartScreen.tsx:29-31 | the log is emptied and the processing page opens; every other field is unchanged |
| StartScreen.InterviewStore.HandleSubmit | interface/src/pages/StartScreen.tsx:26-55 | when StartChat is called the log is already empty and the processing page is the last one opened (recorded in the ghost field atCall); on success the session fields are set, the log holds just the animated greeting and the chat page opens; on failure the error is set, the log stays empty, the session is kept and the start page opens |
| StartScreen.InterviewStore.ShowStarted | interface/src/pages/StartScreen.tsx:37-48 | the id, secret, audio, text and language of the response are stored, the log is the animated greeting alone, both flags are cleared and the chat page opens |
| StartScreen.InterviewStore.ShowFailure | interface/src/pages/StartScreen.tsx:49-53 | the error message is set and the start page opens; nothing else changes |

## Left out

- HTTP and JSON are parameters. The requests, headers, URL joining, response decoding and the unexpected-status errors of the OpenAI and ElevenLabs clients (internal/openai/api.go, internal/elevenlabs/) are results the caller supplies. Only the decisions taken on those results are modelled.
- Text to speech is a parameter. OpenAI and ElevenLabs speech, the ElevenLabs voice settings (internal/elevenlabs/) and the IsSpeechAvailable table are `Services` fields. The choice between the two voices is modelled, by `Api.SpeechFor`.
- bcrypt hashing and comparison (util.go:44-55) are the `hash` and `matches` fields of `Services`.
- Randomness and identifiers are inputs:
  - rand.Intn is the `draws` parameter, checked by `ValidDraws`;
  - uuid.New is the `id` parameter of CreateChatUser and StartChat.
- base64 encoding, the language-name and language-code tables, and the system prompt and greeting texts are `Services` fields.
- The SQL engine is a function from statements to failures.
  - Its error texts "syntax error" and "UNIQUE constraint failed: chat_users.id" are placeholders for the driver's own messages.
  - Schema creation and migration (internal/database/database.go) are not modelled.
- CreateChat and GetChatsByChatUserID are stand-ins.
  - Their source is not part of this model.
  - They append to and read a user's log in order.
- App.AreKeyExist and App.UpdateAPIKeys (api.go:14-20) only delegate to the model, so they have no members of their own.
- app.go, the Wails bindings, ChatScreen.tsx, SettingScreen.tsx, the status polling timer and the Tailwind configuration are not modelled.
- The condition under which the navigation bar renders nothing (Navbar.tsx:63-65) is not modelled.
- Concurrency is not modelled: the UI's awaits and the backend's goroutine-free handlers are each one atomic step.
- Navbar.Capitalize: upper-cases ASCII letters only. JavaScript's toUpperCase also maps other scripts, and some characters to two.
- Util.EntryToChatMessage: an empty log gives an empty sequence where Go gives a nil slice. The difference cannot be seen, because AnswerChat and EndChat always append an entry before the conversion (api.go:173-179, 253-259).
- OpenAI.StatusOf: on an error it does not also return the STATUS_UNKNOWN value the Go function pairs with the error, because every caller discards that value.
- DataModel.UpdateExecutesAsRecordUpdate: the rule "one placeholder per argument" is stated through the shape of the statement (UpdateStatement and GivenValues), not by counting '?' characters.
- The white space trim removes is the fixed list of ECMAScript WhiteSpace and LineTerminator code points (sections 12.2 and 12.3 of ECMA-262), with no Unicode database lookup.
