/** The keyword chat flow of the standalone pages
    (src/components/Chatbot/ChatFlow.tsx): every message the user sends is
    listed, followed by one bot answer, which echoes a healthcare message
    and redirects any other. */
module KeywordFlow {
  import opened Text

  /** One entry of the list: who said it and what. */
  datatype FlowMessage = FlowMessage(fromBot: bool, text: string)

  /** The words that mark a message as a healthcare question. */
  const Keywords: seq<string> :=
    ["doctor", "appointment", "prescription", "symptom", "insurance", "health", "medical", "clinic", "hospital"]

  /** The answer to a message that is not about healthcare. */
  const Redirect: string :=
    "I'm here to assist you with healthcare-related questions such as symptoms, appointments, or insurance. Please ask a health-related question."

  /** The fixed opening of the echo, up to and including the opening quote. */
  const EchoOpening: string :=
    "Thank you for your message regarding your health. Our team will assist you with: \""

  /** `words.some(word => text.includes(word))`. */
  predicate SomeContained(text: string, words: seq<string>) {
    words != [] && (Contains(text, words[0]) || SomeContained(text, words[1..]))
  }

  /** `isHealthcareRelated`: the lower-cased message contains a keyword. */
  predicate IsHealthcareRelated(message: string) {
    SomeContained(ToLower(message), Keywords)
  }

  /** The echo of a healthcare message, quoted. */
  function Echo(message: string): string {
    EchoOpening + message + "\""
  }

  /** The bot's answer to `message`. */
  function BotAnswer(message: string): string {
    if IsHealthcareRelated(message) then Echo(message) else Redirect
  }

  /** The list after the user sent `sent`, in order, from an empty list:
      each message followed by its answer. */
  function Transcript(sent: seq<string>): seq<FlowMessage> {
    if sent == [] then []
    else Transcript(sent[..|sent| - 1])
         + [FlowMessage(false, sent[|sent| - 1]), FlowMessage(true, BotAnswer(sent[|sent| - 1]))]
  }

  /** `some` finds a word exactly when one of the words occurs in the text. */
  lemma {:induction false} SomeContainedIffOccurs(text: string, words: seq<string>)
    ensures SomeContained(text, words) <==> exists k :: 0 <= k < |words| && Contains(text, words[k])
  {
    if words != [] {
      SomeContainedIffOccurs(text, words[1..]);
      if exists k :: 0 <= k < |words| && Contains(text, words[k]) {
        var k :| 0 <= k < |words| && Contains(text, words[k]);
        if k > 0 {
          assert words[1..][k - 1] == words[k];
        }
      }
      if Contains(text, words[0]) {
        assert 0 < |words|;
      }
      if SomeContained(text, words[1..]) {
        var k :| 0 <= k < |words[1..]| && Contains(text, words[1..][k]);
        assert words[k + 1] == words[1..][k];
      }
    }
  }

  /** `some` finds a word exactly when one of the words occurs in the text
      at some offset. */
  lemma SomeContainedIffOffset(text: string, words: seq<string>)
    ensures SomeContained(text, words) <==>
      exists k, i :: 0 <= k < |words| && 0 <= i <= |text| && words[k] <= text[i..]
  {
    SomeContainedIffOccurs(text, words);
    forall k | 0 <= k < |words|
      ensures Contains(text, words[k]) <==> exists i :: 0 <= i <= |text| && words[k] <= text[i..]
    {
      ContainsIffOccurs(text, words[k]);
    }
  }

  /** A message is about healthcare exactly when one of the nine keywords
      occurs, at some offset, in its lower-cased form. */
  lemma RelatedIffKeywordOccurs(message: string)
    ensures var lower := ToLower(message);
      IsHealthcareRelated(message) <==>
        exists k, i :: 0 <= k < |Keywords| && 0 <= i <= |lower| && Keywords[k] <= lower[i..]
  {
    SomeContainedIffOffset(ToLower(message), Keywords);
  }

  /** The test ignores letter case. */
  lemma RelatedIgnoresCase(a: string, b: string)
    requires ToLower(a) == ToLower(b)
    ensures IsHealthcareRelated(a) <==> IsHealthcareRelated(b)
  {
  }

  /** The echo holds the whole message between its quotes, so the message
      can be read back from it. */
  lemma EchoQuotesMessage(message: string)
    ensures Echo(message)[..|EchoOpening|] == EchoOpening
    ensures Echo(message)[|EchoOpening|..|Echo(message)| - 1] == message
    ensures Echo(message)[|Echo(message)| - 1] == '"'
  {
    var e := Echo(message);
    assert e == EchoOpening + message + "\"";
    assert e[|EchoOpening|..|e| - 1] == message;
  }

  /** An echo is never the redirect: they differ in their last character. */
  lemma EchoIsNotRedirect(message: string)
    ensures Echo(message) != Redirect
  {
    EchoQuotesMessage(message);
    assert Redirect[|Redirect| - 1] == '.';
  }

  /** Different messages get different echoes. */
  lemma EchoInjective(a: string, b: string)
    requires Echo(a) == Echo(b)
    ensures a == b
  {
    EchoQuotesMessage(a);
    EchoQuotesMessage(b);
  }

  /** The list after each message is two entries longer, with the user's
      entry at an even position and the answer right after it. */
  lemma {:induction false} TranscriptShape(sent: seq<string>)
    ensures |Transcript(sent)| == 2 * |sent|
    ensures forall i :: 0 <= i < |sent| ==>
      Transcript(sent)[2 * i] == FlowMessage(false, sent[i]) &&
      Transcript(sent)[2 * i + 1] == FlowMessage(true, BotAnswer(sent[i]))
  {
    if sent != [] {
      var init := sent[..|sent| - 1];
      TranscriptShape(init);
      var t := Transcript(sent);
      assert t == Transcript(init) + [FlowMessage(false, sent[|sent| - 1]), FlowMessage(true, BotAnswer(sent[|sent| - 1]))];
      forall i | 0 <= i < |sent|
        ensures t[2 * i] == FlowMessage(false, sent[i])
        ensures t[2 * i + 1] == FlowMessage(true, BotAnswer(sent[i]))
      {
        if i < |init| {
          assert t[2 * i] == Transcript(init)[2 * i];
          assert t[2 * i + 1] == Transcript(init)[2 * i + 1];
          assert init[i] == sent[i];
        }
      }
    }
  }

  /** The component's state: the list shown. */
  class ChatFlow {
    var messages: seq<FlowMessage>
    /** The messages the user has sent so far. */
    ghost var sent: seq<string>

    /** The list is exactly the transcript of what was sent. */
    ghost predicate Valid()
      reads this
    {
      messages == Transcript(sent)
    }

    /** The list starts empty. */
    constructor ()
      ensures Valid() && sent == [] && messages == []
    {
      messages := [];
      sent := [];
    }

    /** `addUserMessage`: appends a user entry. */
    method AddUserMessage(text: string)
      modifies this
      ensures messages == old(messages) + [FlowMessage(false, text)]
      ensures sent == old(sent)
    {
      messages := messages + [FlowMessage(false, text)];
    }

    /** `addBotMessage`: appends a bot entry. */
    method AddBotMessage(text: string)
      modifies this
      ensures messages == old(messages) + [FlowMessage(true, text)]
      ensures sent == old(sent)
    {
      messages := messages + [FlowMessage(true, text)];
    }

    /** `handleUserMessage`: the user entry, then the redirect for a message
        that is not about healthcare, or else the echo. Earlier entries are
        untouched. */
    method HandleUserMessage(message: string)
      requires Valid()
      modifies this
      ensures Valid() && sent == old(sent) + [message]
      ensures messages == old(messages) + [FlowMessage(false, message), FlowMessage(true, BotAnswer(message))]
    {
      AddUserMessage(message);
      if !IsHealthcareRelated(message) {
        AddBotMessage(Redirect);
        sent := sent + [message];
        assert sent[..|sent| - 1] == old(sent);
        return;
      }
      AddBotMessage(Echo(message));
      sent := sent + [message];
      assert sent[..|sent| - 1] == old(sent);
    }
  }
}
