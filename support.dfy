/** The support chat: an append-only log of messages, a local answer to
    emergencies and a remote chatbot for everything else
    (Components/Support.tsx). */
module Support {
  import opened Strings

  datatype Option<T> = None | Some(value: T)

  /** One chat bubble. */
  datatype Message = Message(text: string, fromUser: bool)

  const GreetingText: string :=
    "Hi there! I am Yatri, your safety assistant. How can I help you stay safe and informed today?"

  const EmergencyKeywords: seq<string> := ["help", "sos", "emergency", "danger", "lost"]

  const EmergencyReplyText: string :=
    "It sounds like you need immediate help. Please contact local authorities or emergency services. For immediate assistance, dial 100 for police or 108 for medical services. Your safety is our top priority. We are also notifying your emergency contacts if you have shared them with the app."

  const FallbackReplyText: string := "Sorry, I couldn't process that. Please try again."

  const NetworkErrorText: string :=
    "There was an error connecting to the chatbot. Please check your network connection."

  /** The conversation a fresh screen shows: one greeting from the bot. */
  const InitialMessages: seq<Message> := [Message(GreetingText, false)]

  /** Whether `s` includes any of `keywords`, as `keywords.some(...)`
      tries them in order. */
  function IncludesAny(s: string, keywords: seq<string>): bool {
    if keywords == [] then false
    else Includes(s, keywords[0]) || IncludesAny(s, keywords[1..])
  }

  /** `some` finds a keyword exactly when one of them is included. */
  lemma {:induction false} IncludesAnyIff(s: string, keywords: seq<string>)
    ensures IncludesAny(s, keywords) <==> exists k :: k in keywords && Includes(s, k)
  {
    if keywords != [] {
      IncludesAnyIff(s, keywords[1..]);
      assert keywords[0] in keywords;
      assert forall k :: k in keywords[1..] ==> k in keywords;
      assert forall k :: k in keywords ==> k == keywords[0] || k in keywords[1..];
    }
  }

  /** `userMessage.text.toLowerCase()` includes some emergency keyword. */
  function IsEmergency(text: string): bool {
    IncludesAny(ToLower(text), EmergencyKeywords)
  }

  /** A message is an emergency exactly when one of the five keywords occurs
      somewhere in its lower-cased text. */
  lemma IsEmergencyIff(text: string)
    ensures IsEmergency(text) <==>
              exists k, i :: k in EmergencyKeywords && OccursAt(ToLower(text), k, i)
  {
    var lowered := ToLower(text);
    IncludesAnyIff(lowered, EmergencyKeywords);
    if IsEmergency(text) {
      var k :| k in EmergencyKeywords && Includes(lowered, k);
      IncludesIff(lowered, k);
      var i :| OccursAt(lowered, k, i);
      assert k in EmergencyKeywords && OccursAt(ToLower(text), k, i);
    } else {
      forall k, i | k in EmergencyKeywords ensures !OccursAt(lowered, k, i) {
        IncludesIff(lowered, k);
      }
    }
  }

  /** The test does not depend on the case of ASCII letters. */
  lemma EmergencyIgnoresCase(text: string)
    ensures IsEmergency(ToLower(text)) == IsEmergency(text)
  {
    ToLowerIdempotent(text);
  }

  /** The keywords are matched as substrings in any letter case: text
      holding a keyword anywhere, capitalised or inside a longer word, is an
      emergency. */
  lemma KeywordAnywhereIsEmergency(before: string, word: string, after: string)
    requires ToLower(word) in EmergencyKeywords
    ensures IsEmergency(before + word + after)
  {
    var text := before + word + after;
    var lowered := ToLower(text);
    var i := |before|;
    assert lowered[i..i + |word|] == ToLower(word) by {
      forall j | 0 <= j < |word| ensures lowered[i + j] == ToLower(word)[j] {
        assert text[i + j] == word[j];
      }
    }
    assert OccursAt(lowered, ToLower(word), i);
    IsEmergencyIff(text);
  }

  /** What the chatbot call can come to: a response with its HTTP status and
      the first candidate's text if the body has one, or an exception (no
      connection, a body that is not JSON). */
  datatype RemoteOutcome =
    | Response(status: int, candidateText: Option<string>)
    | Threw

  /** `response.ok`. */
  predicate IsOkStatus(status: int) {
    200 <= status <= 299
  }

  /** The call returned an ok status and a body that parsed. */
  predicate Succeeded(outcome: RemoteOutcome) {
    outcome.Response? && IsOkStatus(outcome.status)
  }

  /** The body carries a candidate text that is not empty (JavaScript's `||`
      treats a missing and an empty text alike). */
  predicate HasUsableText(outcome: RemoteOutcome) {
    outcome.Response? && outcome.candidateText.Some? && outcome.candidateText.value != ""
  }

  /** The bot's answer to a remote call: the candidate's text when the call
      succeeded and the text is non-empty, the fallback when it succeeded
      without usable text, and the network error otherwise. The answer is
      never empty. */
  function RemoteReplyText(outcome: RemoteOutcome): (text: string)
    ensures text != ""
    ensures text == NetworkErrorText || text == FallbackReplyText
            || (outcome.Response? && outcome.candidateText == Some(text))
    ensures !Succeeded(outcome) ==> text == NetworkErrorText
    ensures Succeeded(outcome) && HasUsableText(outcome) ==> text == outcome.candidateText.value
    ensures Succeeded(outcome) && !HasUsableText(outcome) ==> text == FallbackReplyText
  {
    match outcome
    case Threw => NetworkErrorText
    case Response(status, candidate) =>
      if !IsOkStatus(status) then NetworkErrorText
      else if candidate.Some? && candidate.value != "" then candidate.value
      else FallbackReplyText
  }

  /** The two messages an accepted send adds to the log: the user's text as
      typed, then exactly one bot message. */
  function Exchange(text: string, outcome: RemoteOutcome): (added: seq<Message>)
    ensures |added| == 2
    ensures added[0] == Message(text, true) && !added[1].fromUser && added[1].text != ""
    ensures IsEmergency(text) ==> added[1].text == EmergencyReplyText
    ensures !IsEmergency(text) ==> added[1].text == RemoteReplyText(outcome)
  {
    [Message(text, true),
     Message(if IsEmergency(text) then EmergencyReplyText else RemoteReplyText(outcome), false)]
  }

  /** How far a send got before returning control. */
  datatype SendStep = Ignored | AnsweredLocally | AwaitingReply

  /** The screen's state as a value. `inFlight` holds the text of the message
      whose chatbot reply is awaited. */
  datatype Chat = Chat(messages: seq<Message>, input: string, isSending: bool, inFlight: Option<string>)

  /** The conversation opens with the greeting, and a reply is awaited
      exactly while sending. */
  predicate ChatInvariant(c: Chat) {
    |c.messages| >= 1 && c.messages[0] == Message(GreetingText, false)
    && (c.isSending <==> c.inFlight.Some?)
  }

  /** The state of a freshly opened screen. */
  const InitialChat: Chat := Chat(InitialMessages, "", false, None)

  /** How `sendMessage` proceeds from `c`: ignore a blank input, answer an
      emergency locally, otherwise wait for the chatbot. */
  function SendStepOf(c: Chat): SendStep {
    if Trim(c.input) == "" then Ignored
    else if IsEmergency(c.input) then AnsweredLocally
    else AwaitingReply
  }

  /** The state when `sendMessage` reaches its `await` or returns early. */
  function AfterSend(c: Chat): Chat {
    match SendStepOf(c)
    case Ignored => c
    case AnsweredLocally =>
      c.(messages := c.messages + [Message(c.input, true), Message(EmergencyReplyText, false)],
         input := "", isSending := false)
    case AwaitingReply =>
      c.(messages := c.messages + [Message(c.input, true)],
         input := "", isSending := true, inFlight := Some(c.input))
  }

  /** The state when the awaited chatbot call comes to `outcome`. */
  function AfterReply(c: Chat, outcome: RemoteOutcome): Chat {
    c.(messages := c.messages + [Message(RemoteReplyText(outcome), false)],
       isSending := false, inFlight := None)
  }

  /** A whole `sendMessage` run, `outcome` standing for what the chatbot call
      comes to if one is made. */
  function SendToEnd(c: Chat, outcome: RemoteOutcome): Chat {
    if SendStepOf(c) == AwaitingReply then AfterReply(AfterSend(c), outcome) else AfterSend(c)
  }

  /** The screen opens with one message, the bot's greeting. */
  lemma InitialChatIsGreeting()
    ensures ChatInvariant(InitialChat)
    ensures |InitialChat.messages| == 1 && !InitialChat.messages[0].fromUser
  {
  }

  /** A blank input is ignored and changes nothing; any other input is
      accepted. */
  lemma {:induction false} BlankInputIgnored(c: Chat)
    ensures SendStepOf(c) == Ignored <==> IsBlank(c.input)
    ensures IsBlank(c.input) ==> AfterSend(c) == c
  {
    TrimEmptyIffBlank(c.input);
  }

  /** An accepted send appends the user's text exactly as typed, clears the
      box and leaves every earlier message in place. */
  lemma AcceptedSendAppendsUserMessage(c: Chat)
    requires !IsBlank(c.input)
    ensures |AfterSend(c).messages| > |c.messages|
    ensures AfterSend(c).messages[..|c.messages|] == c.messages
    ensures AfterSend(c).messages[|c.messages|] == Message(c.input, true)
    ensures AfterSend(c).input == ""
  {
    BlankInputIgnored(c);
  }

  /** An emergency is answered by the fixed local reply and no request is
      made; anything else is left awaiting the chatbot, with sending on. */
  lemma EmergencyAnsweredLocally(c: Chat)
    requires !IsBlank(c.input)
    ensures SendStepOf(c) == AnsweredLocally <==> IsEmergency(c.input)
    ensures IsEmergency(c.input) ==>
              AfterSend(c).messages == c.messages + [Message(c.input, true), Message(EmergencyReplyText, false)]
              && !AfterSend(c).isSending && AfterSend(c).inFlight == c.inFlight
    ensures !IsEmergency(c.input) ==>
              AfterSend(c).isSending && AfterSend(c).inFlight == Some(c.input)
  {
    BlankInputIgnored(c);
  }

  /** Both halves of `sendMessage` keep the invariant. */
  lemma StepsKeepInvariant(c: Chat, outcome: RemoteOutcome)
    requires ChatInvariant(c)
    ensures !c.isSending ==> ChatInvariant(AfterSend(c))
    ensures c.inFlight.Some? ==> ChatInvariant(AfterReply(c, outcome))
  {
  }

  /** Every accepted send, on every path, adds exactly the user's message
      and one bot message to the end of the log, and ends with sending off. */
  lemma {:induction false} SendAddsOneExchange(c: Chat, outcome: RemoteOutcome)
    requires ChatInvariant(c) && !c.isSending && !IsBlank(c.input)
    ensures SendToEnd(c, outcome).messages == c.messages + Exchange(c.input, outcome)
    ensures !SendToEnd(c, outcome).isSending && SendToEnd(c, outcome).inFlight == None
    ensures SendToEnd(c, outcome).input == ""
    ensures ChatInvariant(SendToEnd(c, outcome))
  {
    BlankInputIgnored(c);
    var added := Exchange(c.input, outcome);
    if IsEmergency(c.input) {
      assert added == [Message(c.input, true), Message(EmergencyReplyText, false)];
    } else {
      assert added == [Message(c.input, true), Message(RemoteReplyText(outcome), false)];
      assert c.messages + [Message(c.input, true)] + [Message(RemoteReplyText(outcome), false)]
          == c.messages + added;
    }
  }

  /** The support screen. Its methods follow `sendMessage` statement by
      statement; `Snapshot` is the state they are specified against. */
  class SupportScreen {
    var messages: seq<Message>
    var input: string
    var isSending: bool
    var inFlight: Option<string>

    function Snapshot(): Chat
      reads this
    {
      Chat(messages, input, isSending, inFlight)
    }

    ghost predicate Valid()
      reads this
    {
      ChatInvariant(Snapshot())
    }

    constructor ()
      ensures Valid() && Snapshot() == InitialChat
    {
      messages := InitialMessages;
      input := "";
      isSending := false;
      inFlight := None;
    }

    /** Typing into the message box. */
    method EditInput(text: string)
      modifies this`input
      ensures Snapshot() == old(Snapshot()).(input := text)
    {
      input := text;
    }

    /** `sendMessage` up to its `await`, or to its end when it returns
        early. Callable only while not sending: the send button is disabled
        and the box read-only then. */
    method SendMessage() returns (step: SendStep)
      requires Valid() && !isSending
      modifies this
      ensures Valid()
      ensures step == SendStepOf(old(Snapshot()))
      ensures Snapshot() == AfterSend(old(Snapshot()))
    {
      StepsKeepInvariant(Snapshot(), Threw);
      if Trim(input) == "" {
        return Ignored;
      }
      var userMessage := Message(input, true);
      var isEmergency := IsEmergency(userMessage.text);
      messages := messages + [userMessage];
      input := "";
      isSending := true;
      if isEmergency {
        messages := messages + [Message(EmergencyReplyText, false)];
        isSending := false;
        return AnsweredLocally;
      }
      inFlight := Some(userMessage.text);
      step := AwaitingReply;
    }

    /** `sendMessage` after its `await`: one bot message chosen by how the
        call ended, and `isSending` cleared in the `finally`. */
    method ReceiveReply(outcome: RemoteOutcome)
      requires Valid() && inFlight.Some?
      modifies this`messages, this`isSending, this`inFlight
      ensures Valid()
      ensures Snapshot() == AfterReply(old(Snapshot()), outcome)
    {
      StepsKeepInvariant(Snapshot(), outcome);
      messages := messages + [Message(RemoteReplyText(outcome), false)];
      inFlight := None;
      isSending := false;
    }

    /** A whole `sendMessage` run. */
    method SendToCompletion(outcome: RemoteOutcome) returns (step: SendStep)
      requires Valid() && !isSending
      modifies this
      ensures Valid() && !isSending
      ensures step == SendStepOf(old(Snapshot()))
      ensures Snapshot() == SendToEnd(old(Snapshot()), outcome)
    {
      step := SendMessage();
      if step == AwaitingReply {
        ReceiveReply(outcome);
      }
    }
  }
}
