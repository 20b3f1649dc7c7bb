/** The helpers of util.go other than sanitizeString (see Markdown). */
module Util {
  import opened OpenAIModel
  import opened DataModel

  /** The alphabet secrets are drawn from. */
  const Charset: string := Lower + Upper + Digits
  const Lower: string := "abcdefghijklmnopqrstuvwxyz"
  const Upper: string := "ABCDEFGHIJKLMNOPQRSTUVWXYZ"
  const Digits: string := "0123456789"
  /** The length of a chat secret. */
  const SecretLength: nat := 10

  predicate IsAlphanumeric(c: char)
  {
    'a' <= c <= 'z' || 'A' <= c <= 'Z' || '0' <= c <= '9'
  }

  /** Valid inputs for GenerateRandom: one index into Charset per character. */
  predicate ValidDraws(draws: seq<nat>)
  {
    |draws| == SecretLength && forall i :: 0 <= i < |draws| ==> draws[i] < |Charset|
  }

  predicate AllAlphanumeric(s: string)
  {
    forall i :: 0 <= i < |s| ==> IsAlphanumeric(s[i])
  }

  lemma AlphanumericConcat(s: string, t: string)
    requires AllAlphanumeric(s) && AllAlphanumeric(t)
    ensures AllAlphanumeric(s + t)
  {
    forall i | 0 <= i < |s + t|
      ensures IsAlphanumeric((s + t)[i])
    {
      if i >= |s| {
        assert (s + t)[i] == t[i - |s|];
      }
    }
  }

  /** The alphabet holds 62 characters, each an ASCII letter or digit. */
  lemma CharsetIsAlphanumeric()
    ensures |Charset| == 62
    ensures AllAlphanumeric(Charset)
  {
    assert AllAlphanumeric(Lower) by { forall i | 0 <= i < |Lower| ensures 'a' <= Lower[i] <= 'z' { } }
    assert AllAlphanumeric(Upper) by { forall i | 0 <= i < |Upper| ensures 'A' <= Upper[i] <= 'Z' { } }
    assert AllAlphanumeric(Digits) by { forall i | 0 <= i < |Digits| ensures '0' <= Digits[i] <= '9' { } }
    AlphanumericConcat(Lower, Upper);
    AlphanumericConcat(Lower + Upper, Digits);
  }

  /** The secret the draws select: the i-th character is Charset[draws[i]]. */
  function SecretOf(draws: seq<nat>): (secret: string)
    requires ValidDraws(draws)
    ensures |secret| == SecretLength
    ensures forall i :: 0 <= i < SecretLength ==> secret[i] == Charset[draws[i]]
  {
    seq(SecretLength, i requires 0 <= i < SecretLength => Charset[draws[i]])
  }

  /**
   * generateRandom (util.go:32-42): a secret of SecretLength characters,
   * the i-th being Charset[draws[i]]; `draws` stands for the values
   * rand.Intn returned.
   */
  method GenerateRandom(draws: seq<nat>) returns (secret: string)
    requires ValidDraws(draws)
    ensures |secret| == SecretLength
    ensures forall i :: 0 <= i < SecretLength ==> secret[i] == Charset[draws[i]]
    ensures secret == SecretOf(draws)
  {
    var b := new char[SecretLength];
    for i := 0 to SecretLength
      invariant forall j :: 0 <= j < i ==> b[j] == Charset[draws[j]]
    {
      b[i] := Charset[draws[i]];
    }
    secret := b[..];
  }

  /** Every secret drawn from Charset is made of ASCII letters and digits. */
  lemma SecretIsAlphanumeric(draws: seq<nat>, secret: string)
    requires ValidDraws(draws) && |secret| == SecretLength
    requires forall i :: 0 <= i < SecretLength ==> secret[i] == Charset[draws[i]]
    ensures AllAlphanumeric(secret)
  {
    CharsetIsAlphanumeric();
    forall i | 0 <= i < |secret|
      ensures IsAlphanumeric(secret[i])
    {
      assert secret[i] == Charset[draws[i]];
    }
  }

  /** The message the completion API receives for a stored entry. */
  function AsChatMessage(e: Entry): ChatMessage
  {
    ChatMessage(e.text, e.role)
  }

  /** The messages the completion API receives for a log, entry by entry. */
  function ChatHistory(entries: seq<Entry>): seq<ChatMessage>
  {
    seq(|entries|, i requires 0 <= i < |entries| => AsChatMessage(entries[i]))
  }

  /**
   * entryToChatMessage (util.go:57-67): one message per entry, in order,
   * carrying the entry's role and its text (the audio is dropped).
   */
  method EntryToChatMessage(chats: seq<Entry>) returns (chatHistory: seq<ChatMessage>)
    ensures chatHistory == ChatHistory(chats)
    ensures |chatHistory| == |chats|
    ensures forall i :: 0 <= i < |chats| ==>
      chatHistory[i].role == chats[i].role && chatHistory[i].content == chats[i].text
  {
    chatHistory := [];
    for i := 0 to |chats|
      invariant |chatHistory| == i
      invariant forall j :: 0 <= j < i ==>
        chatHistory[j].role == chats[j].role && chatHistory[j].content == chats[j].text
    {
      chatHistory := chatHistory + [ChatMessage(chats[i].text, chats[i].role)];
    }
  }
}
