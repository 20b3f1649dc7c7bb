/**
 * The start screen (interface/src/pages/StartScreen.tsx): the skills field
 * parsed as a comma-separated list, the two interview languages, and the
 * store updates of a submitted form.
 */
module StartScreen {
  import opened Wrappers
  import opened DataModel

  /** The language choices offered, as (name, code). */
  datatype LanguageOption = LanguageOption(name: string, code: string)

  const LanguageOptions: seq<LanguageOption> := [
    LanguageOption("English", "en-US"),
    LanguageOption("Bahasa Indonesia", "id-ID")
  ]

  /** Exactly two languages are offered, English and Indonesian, under distinct codes. */
  lemma LanguageChoices()
    ensures |LanguageOptions| == 2
    ensures LanguageOptions[0].code == "en-US" && LanguageOptions[1].code == "id-ID"
    ensures LanguageOptions[0].code != LanguageOptions[1].code
  {
  }

  /**
   * The characters String.prototype.trim removes: WhiteSpace and
   * LineTerminator of ECMAScript (sections 12.2 and 12.3 of ECMA-262).
   */
  predicate IsSpace(c: char)
  {
    c == '\U{9}' || c == '\U{B}' || c == '\U{C}' || c == ' ' || c == '\U{A0}' || c == '\U{FEFF}' ||
    c == '\U{1680}' || ('\U{2000}' <= c <= '\U{200A}') || c == '\U{202F}' || c == '\U{205F}' || c == '\U{3000}' ||
    c == '\n' || c == '\r' || c == '\U{2028}' || c == '\U{2029}'
  }

  predicate AllSpace(s: string)
  {
    forall k :: 0 <= k < |s| ==> IsSpace(s[k])
  }

  /** The length of the run of white space that starts `s`. */
  function LeadingSpace(s: string): (n: nat)
    ensures n <= |s|
    ensures AllSpace(s[..n])
    ensures n < |s| ==> !IsSpace(s[n])
    decreases |s|
  {
    if s != [] && IsSpace(s[0]) then
      var m := LeadingSpace(s[1..]);
      assert s[..m + 1] == [s[0]] + s[1..][..m];
      1 + m
    else 0
  }

  /** The length of the run of white space that ends `s`. */
  function TrailingSpace(s: string): (n: nat)
    ensures n <= |s|
    ensures AllSpace(s[|s| - n..])
    ensures n < |s| ==> !IsSpace(s[|s| - n - 1])
    decreases |s|
  {
    if s != [] && IsSpace(s[|s| - 1]) then
      var init := s[..|s| - 1];
      var m := TrailingSpace(init);
      assert s[|s| - (m + 1)..] == init[|init| - m..] + [s[|s| - 1]];
      1 + m
    else 0
  }

  /**
   * String.prototype.trim: `s` with the white space at both ends removed.
   * What is left is a slice of `s` between two runs of white space, and
   * neither of its ends is white space.
   */
  function Trim(s: string): (r: string)
    ensures r == [] || (!IsSpace(r[0]) && !IsSpace(r[|r| - 1]))
    ensures exists i, j :: 0 <= i <= j <= |s| && r == s[i..j] && AllSpace(s[..i]) && AllSpace(s[j..])
  {
    var i := LeadingSpace(s);
    var rest := s[i..];
    var n := TrailingSpace(rest);
    var j := |s| - n;
    assert rest[..|rest| - n] == s[i..j];
    assert rest[|rest| - n..] == s[j..];
    s[i..j]
  }

  /** Trimming a trimmed string changes nothing. */
  lemma TrimIdempotent(s: string)
    ensures Trim(Trim(s)) == Trim(s)
  {
    var t := Trim(s);
    assert LeadingSpace(t) == 0;
    assert TrailingSpace(t) == 0;
  }

  /** Occurrences of `c` in `s`. */
  function Count(s: string, c: char): nat
    decreases |s|
  {
    if s == [] then 0 else (if s[0] == c then 1 else 0) + Count(s[1..], c)
  }

  /**
   * String.prototype.split with a one-character separator: the pieces
   * between separators, in order; an empty string gives one empty piece.
   */
  function Split(s: string, sep: char): (parts: seq<string>)
    ensures |parts| >= 1
    decreases |s|
  {
    if s == [] then [""]
    else
      var rest := Split(s[1..], sep);
      if s[0] == sep then [""] + rest else [[s[0]] + rest[0]] + rest[1..]
  }

  /** Array.prototype.join with a one-character separator. */
  function Join(parts: seq<string>, sep: char): string
    decreases |parts|
  {
    if |parts| == 0 then ""
    else if |parts| == 1 then parts[0]
    else parts[0] + [sep] + Join(parts[1..], sep)
  }

  /** Splitting yields one piece more than there are separators. */
  lemma {:induction false} SplitCount(s: string, sep: char)
    ensures |Split(s, sep)| == Count(s, sep) + 1
    decreases |s|
  {
    if s != [] {
      SplitCount(s[1..], sep);
    }
  }

  /** No piece contains the separator. */
  lemma {:induction false} SplitPieces(s: string, sep: char)
    ensures forall i :: 0 <= i < |Split(s, sep)| ==> sep !in Split(s, sep)[i]
    decreases |s|
  {
    if s != [] {
      SplitPieces(s[1..], sep);
      var rest := Split(s[1..], sep);
      if s[0] != sep {
        assert sep !in rest[0];
        assert forall i :: 1 <= i < |Split(s, sep)| ==> Split(s, sep)[i] == rest[i];
      } else {
        assert forall i :: 1 <= i < |Split(s, sep)| ==> Split(s, sep)[i] == rest[i - 1];
      }
    }
  }

  lemma JoinCons(head: string, tail: seq<string>, sep: char)
    requires |tail| >= 1
    ensures Join([head] + tail, sep) == head + [sep] + Join(tail, sep)
  {
    assert ([head] + tail)[1..] == tail;
  }

  lemma JoinExtendHead(c: char, parts: seq<string>, sep: char)
    requires |parts| >= 1
    ensures Join([[c] + parts[0]] + parts[1..], sep) == [c] + Join(parts, sep)
  {
    var q := [[c] + parts[0]] + parts[1..];
    if |parts| > 1 {
      JoinCons([c] + parts[0], parts[1..], sep);
      assert parts == [parts[0]] + parts[1..];
      JoinCons(parts[0], parts[1..], sep);
    }
  }

  /** Joining the pieces back with the separator gives the original string. */
  lemma {:induction false} SplitJoin(s: string, sep: char)
    ensures Join(Split(s, sep), sep) == s
    decreases |s|
  {
    if s != [] {
      SplitJoin(s[1..], sep);
      var rest := Split(s[1..], sep);
      if s[0] == sep {
        JoinCons("", rest, sep);
        assert s == [sep] + s[1..];
      } else {
        JoinExtendHead(s[0], rest, sep);
        assert s == [s[0]] + s[1..];
      }
    }
  }

  /** Splitting a join of separator-free pieces gives the pieces back. */
  lemma {:induction false} JoinSplit(parts: seq<string>, sep: char)
    requires |parts| >= 1
    requires forall i :: 0 <= i < |parts| ==> sep !in parts[i]
    ensures Split(Join(parts, sep), sep) == parts
    decreases |parts|, |parts[0]|
  {
    if |parts[0]| > 0 {
      var c := parts[0][0];
      var shorter := [parts[0][1..]] + parts[1..];
      assert sep !in parts[0][1..];
      assert forall i :: 1 <= i < |shorter| ==> shorter[i] == parts[i];
      JoinSplit(shorter, sep);
      assert [c] + parts[0][1..] == parts[0];
      assert [[c] + shorter[0]] + shorter[1..] == parts;
      JoinExtendHead(c, shorter, sep);
      var joined := Join(parts, sep);
      assert joined == [c] + Join(shorter, sep);
      assert joined[1..] == Join(shorter, sep);
    } else if |parts| > 1 {
      assert parts[0] == "";
      JoinCons("", parts[1..], sep);
      var joined := Join(parts, sep);
      assert joined == [sep] + Join(parts[1..], sep);
      assert joined[1..] == Join(parts[1..], sep);
      JoinSplit(parts[1..], sep);
      assert parts == [""] + parts[1..];
    }
  }

  /** The skills field as handleSubmit sends it (StartScreen.tsx:28): split on commas, each piece trimmed. */
  function ParseSkills(skills: string): (r: seq<string>)
    ensures |r| == |Split(skills, ',')|
    ensures forall i :: 0 <= i < |r| ==> r[i] == Trim(Split(skills, ',')[i])
  {
    var parts := Split(skills, ',');
    seq(|parts|, i requires 0 <= i < |parts| => Trim(parts[i]))
  }

  /** Without a separator the string is its only piece. */
  lemma {:induction false} SplitNoSeparator(s: string, sep: char)
    requires sep !in s
    ensures Split(s, sep) == [s]
    decreases |s|
  {
    if s != [] {
      assert sep !in s[1..];
      SplitNoSeparator(s[1..], sep);
      assert s == [s[0]] + s[1..];
    }
  }

  /**
   * The parsed list has one skill per comma plus one, in the order they
   * were typed; without a comma it is the trimmed field alone, so an empty
   * field gives one empty skill.
   */
  lemma ParseSkillsShape(skills: string)
    ensures |ParseSkills(skills)| == Count(skills, ',') + 1
    ensures ',' !in skills ==> ParseSkills(skills) == [Trim(skills)]
  {
    SplitCount(skills, ',');
    if ',' !in skills {
      SplitNoSeparator(skills, ',');
      var r := ParseSkills(skills);
      assert |r| == 1 && r[0] == Trim(skills);
    }
  }

  /** No parsed skill starts or ends with white space. */
  lemma ParseSkillsTrimmed(skills: string, i: nat)
    requires i < |ParseSkills(skills)|
    ensures var k := ParseSkills(skills)[i]; k == [] || (!IsSpace(k[0]) && !IsSpace(k[|k| - 1]))
  {
    assert ParseSkills(skills)[i] == Trim(Split(skills, ',')[i]);
  }

  /** A message of the chat screen. */
  datatype Message = Message(text: string, isUser: bool, isAnimated: bool)

  const ProcessingPath: string := "/processing"
  const ChatPath: string := "/chat"
  const HomePath: string := "/"
  const StartFailure: string := "Failed processing your request, please try again"

  /** The interview store together with the screen's error and the pages visited. */
  class InterviewStore {
    var role: string
    var skills: string
    var language: string
    var messages: seq<Message>
    var interviewId: string
    var interviewSecret: string
    var initialAudio: string
    var initialText: string
    var isIntroDone: bool
    var hasEnded: bool
    var error: Option<string>
    var visited: seq<string>
    /** The log and the pages opened as they were when StartChat was last called. */
    ghost var atCall: (seq<Message>, seq<string>)

    constructor ()
      ensures role == "" && skills == "" && language == "" && messages == []
      ensures error == None && visited == []
    {
      role, skills, language := "", "", "";
      messages := [];
      interviewId, interviewSecret, initialAudio, initialText := "", "", "", "";
      isIntroDone, hasEnded := false, false;
      error := None;
      visited := [];
      atCall := ([], []);
    }

    /**
     * handleSubmit (StartScreen.tsx:26-55), with `startChat` the backend's
     * StartChat: the log is cleared and the processing page shown before
     * the call; on success the session fields are set, the log holds just
     * the animated greeting and the chat page opens; on failure the error is
     * shown, the log stays empty and the start page opens again.
     */
    method HandleSubmit(startChat: (string, seq<string>, string) -> Result<StartChatResponse, string>)
      modifies this
      ensures role == old(role) && skills == old(skills)
      ensures atCall == ([], old(visited) + [ProcessingPath])
      ensures var response := startChat(old(role), ParseSkills(old(skills)), old(language));
        response.Ok? ==>
          && interviewId == response.value.id && interviewSecret == response.value.secret
          && initialAudio == response.value.chat.audio && initialText == response.value.chat.text
          && language == response.value.language
          && messages == [Message(response.value.chat.text, false, true)]
          && !isIntroDone && !hasEnded
          && error == old(error)
          && visited == old(visited) + [ProcessingPath, ChatPath]
      ensures var response := startChat(old(role), ParseSkills(old(skills)), old(language));
        response.Err? ==>
          && messages == []
          && error == Some(StartFailure)
          && visited == old(visited) + [ProcessingPath, HomePath]
          && language == old(language) && interviewId == old(interviewId) && interviewSecret == old(interviewSecret)
          && initialAudio == old(initialAudio) && initialText == old(initialText)
          && isIntroDone == old(isIntroDone) && hasEnded == old(hasEnded)
    {
      var skillsArray := ParseSkills(skills);
      BeginSubmit();
      atCall := (messages, visited);
      var response := startChat(role, skillsArray, language);
      if response.Ok? {
        ShowStarted(response.value);
      } else {
        ShowFailure();
      }
    }

    /** The steps of handleSubmit before the call (StartScreen.tsx:29-31): the log is emptied and the processing page opens. */
    method BeginSubmit()
      modifies this
      ensures messages == [] && visited == old(visited) + [ProcessingPath]
      ensures role == old(role) && skills == old(skills) && language == old(language) && error == old(error)
      ensures interviewId == old(interviewId) && interviewSecret == old(interviewSecret)
      ensures initialAudio == old(initialAudio) && initialText == old(initialText)
      ensures isIntroDone == old(isIntroDone) && hasEnded == old(hasEnded)
      ensures atCall == old(atCall)
    {
      messages, visited := [], visited + [ProcessingPath];
    }

    /** The try branch of handleSubmit (StartScreen.tsx:37-48): the session is stored and the chat page opens. */
    method ShowStarted(started: StartChatResponse)
      modifies this
      ensures role == old(role) && skills == old(skills) && error == old(error)
      ensures interviewId == started.id && interviewSecret == started.secret
      ensures initialAudio == started.chat.audio && initialText == started.chat.text
      ensures language == started.language
      ensures messages == [Message(started.chat.text, false, true)]
      ensures !isIntroDone && !hasEnded
      ensures visited == old(visited) + [ChatPath]
      ensures atCall == old(atCall)
    {
      interviewId, interviewSecret := started.id, started.secret;
      initialAudio, initialText := started.chat.audio, started.chat.text;
      language := started.language;
      messages := [Message(started.chat.text, false, true)];
      isIntroDone, hasEnded := false, false;
      visited := visited + [ChatPath];
    }

    /** The catch branch of handleSubmit (StartScreen.tsx:49-53): the error is shown and the start page opens. */
    method ShowFailure()
      modifies this
      ensures error == Some(StartFailure) && visited == old(visited) + [HomePath]
      ensures role == old(role) && skills == old(skills) && language == old(language) && messages == old(messages)
      ensures interviewId == old(interviewId) && interviewSecret == old(interviewSecret)
      ensures initialAudio == old(initialAudio) && initialText == old(initialText)
      ensures isIntroDone == old(isIntroDone) && hasEnded == old(hasEnded)
      ensures atCall == old(atCall)
    {
      error := Some(StartFailure);
      visited := visited + [HomePath];
    }
  }
}
