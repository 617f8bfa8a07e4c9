/** `handleSendMessage` of the chat screen (client/src/components/ChatInterface.js):
    one user turn, the dispatches it makes against the provider and the two
    requests it sends. The network is a parameter: how the chat call and
    the log call settled, and the clock readings taken along the way. */
module SendFlow {
  import opened Wrappers
  import opened Text
  import opened Conversation
  import opened Provider

  /** How the `/api/chat` round trip ended. */
  datatype ChatResponse =
      /** `fetch` or `response.json()` threw, with this message. */
    | Rejected(message: string)
      /** The response arrived with a status outside 200-299. */
    | NotOk(status: nat)
      /** The parsed body: its `reply` and `error` members, when they are strings. */
    | Body(reply: Option<string>, error: Option<string>)

  /** How the `/api/chatlog` call ended; its response is never inspected. */
  datatype LogOutcome = LogSettled | LogRejected(message: string)

  /** The JSON body posted to `/api/chat`. */
  datatype ChatRequest = ChatRequest(userInput: string, healthcareContext: Option<HealthcareContext>)

  /** The JSON body posted to `/api/chatlog`; `botReply` is the reply before stripping. */
  datatype LogRequest = LogRequest(
    sessionId: Option<string>,
    healthcareContext: Option<HealthcareContext>,
    privacyStyle: Option<PrivacyStyle>,
    userInput: string,
    botReply: string,
    userDetails: Option<UserDetails>)

  /** The clock readings: `Date.now()` and the ISO time when the user message
      is built, and again when the bot message is built. */
  datatype Stamps = Stamps(sentAt: int, sentIso: string, repliedAt: int, repliedIso: string)

  const SendFallback := "Failed to send message. Please try again."
  const NoReplyFallback := "Failed to get response"
  const HttpErrorPrefix := "HTTP error! status: "

  /** `String(n)` for a non-negative integer. */
  function Decimal(n: nat): (r: string)
    ensures |r| >= 1
    ensures forall i :: 0 <= i < |r| ==> IsDigit(r[i])
  {
    if n < 10 then [('0' as int + n) as char] else Decimal(n / 10) + [('0' as int + n % 10) as char]
  }

  /** Reads a decimal numeral back. */
  function FromDecimal(s: string): nat
    requires forall i :: 0 <= i < |s| ==> IsDigit(s[i])
  {
    if s == [] then 0 else FromDecimal(s[..|s| - 1]) * 10 + DecimalDigit(s[|s| - 1])
  }

  function DecimalDigit(c: char): (d: nat)
    requires IsDigit(c)
    ensures d < 10
  {
    c as int - '0' as int
  }

  /** The status code in the error text can be read back exactly. */
  lemma {:induction false} DecimalRoundTrip(n: nat)
    ensures FromDecimal(Decimal(n)) == n
  {
    if n >= 10 {
      DecimalRoundTrip(n / 10);
      var r := Decimal(n);
      assert r[..|r| - 1] == Decimal(n / 10);
    }
  }

  /** The message of the error thrown for a non-OK status. */
  function HttpError(status: nat): string {
    HttpErrorPrefix + Decimal(status)
  }

  /** `err.message || 'Failed to send message. Please try again.'`. */
  function ErrorText(message: string): string {
    if message == "" then SendFallback else message
  }

  /** The error shown is never empty, and it is the thrown message whenever that is not empty. */
  lemma ErrorTextNeverEmpty(message: string)
    ensures ErrorText(message) != []
    ensures message != [] ==> ErrorText(message) == message
    ensures message == [] ==> ErrorText(message) == SendFallback
  {
  }

  /** `data.reply` when it is truthy. */
  function TruthyReply(resp: ChatResponse): Option<string> {
    if resp.Body? && resp.reply.Some? && resp.reply.value != "" then resp.reply else None
  }

  /** The bot message built from a truthy reply: every `*` removed, id one past the clock. */
  function BotMessage(reply: string, stamps: Stamps): Message {
    Message(stamps.repliedAt + 1, StripAsterisks(reply), stamps.repliedIso, Bot)
  }

  /** The message of what was thrown inside the `try`, if anything was. */
  function Thrown(resp: ChatResponse, log: LogOutcome): Option<string> {
    match resp
    case Rejected(m) => Some(m)
    case NotOk(code) => Some(HttpError(code))
    case Body(reply, error) =>
      if reply.Some? && reply.value != "" then
        (if log.LogRejected? then Some(log.message) else None)
      else
        Some(if error.Some? && error.value != "" then error.value else NoReplyFallback)
  }

  /** The SET_ERROR text of a turn: `err.message || fallback` of what was thrown. */
  function ErrorShown(resp: ChatResponse, log: LogOutcome): Option<string> {
    if Thrown(resp, log).Some? then Some(ErrorText(Thrown(resp, log).value)) else None
  }

  /** The bot message of a turn, when the reply is truthy. */
  function BotReply(resp: ChatResponse, stamps: Stamps): Option<Message> {
    if TruthyReply(resp).Some? then Some(BotMessage(TruthyReply(resp).value, stamps)) else None
  }

  /** The dispatches of a non-blank turn: the user message, loading on,
      error cleared, the bot message if any, the error if any, loading off. */
  function TurnActions(user: Message, bot: Option<Message>, err: Option<string>): seq<Action> {
    [AddMessage(user), SetLoading(true), ClearError]
    + (if bot.Some? then [AddMessage(bot.value)] else [])
    + (if err.Some? then [SetError(err.value)] else [])
    + [SetLoading(false)]
  }

  /** The dispatches of one call, in order. */
  function SendActions(content: string, resp: ChatResponse, log: LogOutcome, stamps: Stamps): seq<Action> {
    if Trim(content) == [] then []
    else TurnActions(Message(stamps.sentAt, content, stamps.sentIso, User),
                     BotReply(resp, stamps), ErrorShown(resp, log))
  }

  /** The user's message of a turn, stamped with the first clock reading. */
  function UserMessage(content: string, stamps: Stamps): Message {
    Message(stamps.sentAt, content, stamps.sentIso, User)
  }

  /** The record after a non-blank turn: the user message and the bot
      message (if any) appended, the error set to `err` (none if none),
      loading off, every other field as before. */
  function Settle(s: ChatState, user: Message, bot: Option<Message>, err: Option<string>): ChatState {
    s.(messages := s.messages + [user] + (if bot.Some? then [bot.value] else []),
       error := err, isLoading := false)
  }

  /** The turn's effect on the record: nothing for a blank draft; otherwise
      the user message and the bot message (if the reply was truthy) are
      appended, the error is what was thrown (none if nothing was), loading
      is off, and every other field is as before. */
  function AfterSend(s: ChatState, content: string, resp: ChatResponse, log: LogOutcome, stamps: Stamps): ChatState {
    if Trim(content) == [] then s
    else Settle(s, UserMessage(content, stamps), BotReply(resp, stamps), ErrorShown(resp, log))
  }

  /** The dispatches before the request: the user message is shown,
      loading is switched on and the error is cleared. */
  method OpenTurn(chat: ChatProvider, user: Message)
    requires chat.Valid()
    modifies chat
    ensures chat.Valid() && chat.mounted == old(chat.mounted)
    ensures chat.dispatched == old(chat.dispatched) + [AddMessage(user), SetLoading(true), ClearError]
    ensures chat.state == old(chat.state).(messages := old(chat.state).messages + [user],
                                           isLoading := true, error := None)
  {
    chat.Dispatch(AddMessage(user));
    chat.Dispatch(SetLoading(true));
    chat.Dispatch(ClearError);
    assert old(chat.dispatched) + [AddMessage(user)] + [SetLoading(true)] + [ClearError]
      == old(chat.dispatched) + [AddMessage(user), SetLoading(true), ClearError];
  }

  /** The `try` block of `handleSendMessage` after the request is sent,
      which goes out while loading is on and no error is shown: a truthy
      reply is shown without its asterisks and then logged with the values
      of the render that created the handler (`captured`); returns the
      message of what was thrown, if anything was, and the log request, if
      one was sent. */
  method Exchange(chat: ChatProvider, captured: ChatState, content: string, resp: ChatResponse,
                  log: LogOutcome, stamps: Stamps)
    returns (thrown: Option<string>, logRequest: Option<LogRequest>)
    requires chat.Valid() && chat.state.isLoading && chat.state.error == None
    modifies chat
    ensures chat.Valid() && chat.mounted == old(chat.mounted)
    ensures chat.dispatched == old(chat.dispatched)
      + if BotReply(resp, stamps).Some? then [AddMessage(BotReply(resp, stamps).value)] else []
    ensures chat.state == old(chat.state).(messages := old(chat.state).messages
      + if BotReply(resp, stamps).Some? then [BotReply(resp, stamps).value] else [])
    ensures thrown == Thrown(resp, log)
    ensures logRequest == if TruthyReply(resp).None? then None
                          else Some(LogRequest(captured.sessionId, captured.healthcareContext,
                                               captured.privacyStyle, content,
                                               TruthyReply(resp).value, captured.userDetails))
  {
    thrown, logRequest := None, None;
    match resp {
      case Rejected(m) =>
        thrown := Some(m);
      case NotOk(code) =>
        thrown := Some(HttpError(code));
      case Body(reply, error) =>
        if reply.Some? && reply.value != "" {
          var cleanReply := StripAsterisks(reply.value);
          var botMessage := Message(stamps.repliedAt + 1, cleanReply, stamps.repliedIso, Bot);
          chat.Dispatch(AddMessage(botMessage));
          logRequest := Some(LogRequest(captured.sessionId, captured.healthcareContext, captured.privacyStyle,
                                        content, reply.value, captured.userDetails));
          if log.LogRejected? {
            thrown := Some(log.message);
          }
        } else {
          thrown := Some(if error.Some? && error.value != "" then error.value else NoReplyFallback);
        }
    }
  }

  /** The `catch` and `finally` blocks: the error text of what was thrown,
      if anything was, then loading off. */
  method CloseTurn(chat: ChatProvider, thrown: Option<string>)
    requires chat.Valid()
    modifies chat
    ensures chat.Valid() && chat.mounted == old(chat.mounted)
    ensures chat.dispatched == old(chat.dispatched)
      + (if thrown.Some? then [SetError(ErrorText(thrown.value))] else []) + [SetLoading(false)]
    ensures chat.state == old(chat.state).(
      error := if thrown.Some? then Some(ErrorText(thrown.value)) else old(chat.state).error,
      isLoading := false)
  {
    if thrown.Some? {
      chat.Dispatch(SetError(ErrorText(thrown.value)));
    }
    chat.Dispatch(SetLoading(false));
  }

  /** Sends `content`: a blank draft is ignored; otherwise the user message
      is shown, the chat endpoint is asked, a truthy reply is shown and
      logged, any failure ends in SET_ERROR, and loading is switched off at
      the end whatever happened. The provider receives exactly the turn's
      dispatches, in order. */
  method HandleSendMessage(chat: ChatProvider, content: string, resp: ChatResponse,
                           log: LogOutcome, stamps: Stamps)
    returns (chatRequest: Option<ChatRequest>, logRequest: Option<LogRequest>)
    requires chat.Valid()
    modifies chat
    ensures chat.Valid() && chat.mounted == old(chat.mounted)
    ensures chat.dispatched == old(chat.dispatched) + SendActions(content, resp, log, stamps)
    ensures chat.state == AfterSend(old(chat.state), content, resp, log, stamps)
    ensures chatRequest == if Trim(content) == [] then None
                           else Some(ChatRequest(content, old(chat.state).healthcareContext))
    ensures logRequest == if Trim(content) == [] || TruthyReply(resp).None? then None
                          else Some(LogRequest(old(chat.state).sessionId, old(chat.state).healthcareContext,
                                               old(chat.state).privacyStyle, content,
                                               TruthyReply(resp).value, old(chat.state).userDetails))
  {
    // the render's values the handler closes over
    var captured := chat.state;
    ghost var before := chat.dispatched;
    chatRequest, logRequest := None, None;
    if Trim(content) == [] {
      assert chat.dispatched == before + [];
      return;
    }
    var userMessage := UserMessage(content, stamps);
    OpenTurn(chat, userMessage);
    chatRequest := Some(ChatRequest(content, captured.healthcareContext));
    var thrown;
    thrown, logRequest := Exchange(chat, captured, content, resp, log, stamps);
    assert ErrorShown(resp, log) == if thrown.Some? then Some(ErrorText(thrown.value)) else None;
    CloseTurn(chat, thrown);
    TurnLog(before, userMessage, BotReply(resp, stamps), ErrorShown(resp, log));
    RunAppend(chat.mounted, before, SendActions(content, resp, log, stamps));
    AfterSendIsDispatchSequence(captured, content, resp, log, stamps);
  }

  /** The log of a turn: the opening dispatches, the bot message (if any),
      the error (if any) and loading off make up the turn's action list. */
  lemma TurnLog(before: seq<Action>, user: Message, bot: Option<Message>, err: Option<string>)
    ensures before + [AddMessage(user), SetLoading(true), ClearError]
      + (if bot.Some? then [AddMessage(bot.value)] else [])
      + (if err.Some? then [SetError(err.value)] else []) + [SetLoading(false)]
      == before + TurnActions(user, bot, err)
  {
  }

  /** Dispatching a list in two parts is dispatching the first part, then the second. */
  lemma {:induction false} RunAppend(s: ChatState, xs: seq<Action>, ys: seq<Action>)
    ensures Run(s, xs + ys) == Run(Run(s, xs), ys)
    decreases |ys|
  {
    if ys == [] {
      assert xs + ys == xs;
    } else {
      var init := ys[..|ys| - 1];
      assert (xs + ys)[..|xs + ys| - 1] == xs + init;
      assert (xs + ys)[|xs + ys| - 1] == ys[|ys| - 1];
      RunAppend(s, xs, init);
    }
  }

  lemma RunSingle(s: ChatState, a: Action)
    ensures Run(s, [a]) == Reduce(s, a)
  {
    RunSnoc(s, [], a);
  }

  /** The closed form agrees with dispatching the turn's actions one by one
      through the reducer. */
  lemma AfterSendIsDispatchSequence(s: ChatState, content: string, resp: ChatResponse,
                                    log: LogOutcome, stamps: Stamps)
    ensures Run(s, SendActions(content, resp, log, stamps)) == AfterSend(s, content, resp, log, stamps)
  {
    if Trim(content) != [] {
      TurnShape(s, UserMessage(content, stamps), BotReply(resp, stamps), ErrorShown(resp, log));
    }
  }

  /** Every dispatch of a turn is a conversation action. */
  lemma SendActionsAreConversational(content: string, resp: ChatResponse, log: LogOutcome, stamps: Stamps)
    ensures var acts := SendActions(content, resp, log, stamps);
      forall i :: 0 <= i < |acts| ==> IsConversationAction(acts[i])
  {
    if Trim(content) != [] {
      TurnActionsConversational(UserMessage(content, stamps), BotReply(resp, stamps), ErrorShown(resp, log));
    }
  }

  lemma TurnActionsConversational(user: Message, bot: Option<Message>, err: Option<string>)
    ensures var acts := TurnActions(user, bot, err);
      forall i :: 0 <= i < |acts| ==> IsConversationAction(acts[i])
  {
  }

  /** A blank draft (`!content.trim()`) changes nothing at all. */
  lemma BlankSendIsNoOp(s: ChatState, content: string, resp: ChatResponse, log: LogOutcome, stamps: Stamps)
    requires IsBlank(content)
    ensures AfterSend(s, content, resp, log, stamps) == s
    ensures SendActions(content, resp, log, stamps) == []
  {
    TrimEmptyIffBlank(content);
  }

  /** A turn whose reply came back and was logged adds the user message and
      the asterisk-free bot message, in that order, and ends idle with no error. */
  lemma SendSucceeds(s: ChatState, content: string, reply: string, error: Option<string>, stamps: Stamps)
    requires Trim(content) != [] && reply != ""
    ensures var r := AfterSend(s, content, Body(Some(reply), error), LogSettled, stamps);
      && r.messages == s.messages + [Message(stamps.sentAt, content, stamps.sentIso, User),
                                     Message(stamps.repliedAt + 1, StripAsterisks(reply), stamps.repliedIso, Bot)]
      && r.error == None && !r.isLoading
  {
    ReplyThrows(reply, error, LogSettled, stamps);
    ReplySettles(s, UserMessage(content, stamps), BotMessage(reply, stamps), None);
  }

  /** A turn whose chat call failed shows only the user message and ends
      idle with the failure's text as the error: the HTTP status, the
      server's `error` member, or a fallback when there is no message. */
  lemma SendFails(s: ChatState, content: string, resp: ChatResponse, log: LogOutcome, stamps: Stamps)
    requires Trim(content) != [] && TruthyReply(resp).None?
    ensures var r := AfterSend(s, content, resp, log, stamps);
      && r.messages == s.messages + [Message(stamps.sentAt, content, stamps.sentIso, User)]
      && !r.isLoading && r.error.Some? && r.error.value != []
      && (resp.NotOk? ==> r.error == Some(HttpErrorPrefix + Decimal(resp.status)))
      && (resp.Rejected? ==> r.error == Some(ErrorText(resp.message)))
      && (resp.Body? && (resp.error.None? || resp.error.value == "") ==> r.error == Some(NoReplyFallback))
      && (resp.Body? && resp.error.Some? && resp.error.value != "" ==> r.error == resp.error)
  {
  }

  /** When only the log call fails, both messages stay and the log failure's
      message becomes the error. */
  lemma LogFailureKeepsReply(s: ChatState, content: string, reply: string, error: Option<string>,
                             message: string, stamps: Stamps)
    requires Trim(content) != [] && reply != ""
    ensures var r := AfterSend(s, content, Body(Some(reply), error), LogRejected(message), stamps);
      && r.messages == s.messages + [Message(stamps.sentAt, content, stamps.sentIso, User),
                                     Message(stamps.repliedAt + 1, StripAsterisks(reply), stamps.repliedIso, Bot)]
      && r.error == Some(ErrorText(message)) && !r.isLoading
  {
    ReplyThrows(reply, error, LogRejected(message), stamps);
    ReplySettles(s, UserMessage(content, stamps), BotMessage(reply, stamps), Some(ErrorText(message)));
  }

  /** With a truthy reply the bot message is shown, and only a failed log call throws. */
  lemma ReplyThrows(reply: string, error: Option<string>, log: LogOutcome, stamps: Stamps)
    requires reply != ""
    ensures BotReply(Body(Some(reply), error), stamps) == Some(BotMessage(reply, stamps))
    ensures ErrorShown(Body(Some(reply), error), log) ==
      if log.LogRejected? then Some(ErrorText(log.message)) else None
  {
  }

  /** Settling a turn with a bot message appends both messages, in order. */
  lemma ReplySettles(s: ChatState, user: Message, bot: Message, err: Option<string>)
    ensures var r := Settle(s, user, Some(bot), err);
      r.messages == s.messages + [user, bot] && r.error == err && !r.isLoading
  {
    assert s.messages + [user] + [bot] == s.messages + [user, bot];
  }

  /** Whatever the network does, a sent turn ends with loading off, leaves
      the identity, context, style and welcome text alone, and reports an
      error exactly when something was thrown. */
  lemma SendAlwaysSettles(s: ChatState, content: string, resp: ChatResponse, log: LogOutcome, stamps: Stamps)
    requires Trim(content) != []
    ensures var r := Run(s, SendActions(content, resp, log, stamps));
      && !r.isLoading
      && r.isUserRegistered == s.isUserRegistered && r.sessionId == s.sessionId
      && r.userDetails == s.userDetails && r.healthcareContext == s.healthcareContext
      && r.privacyStyle == s.privacyStyle && r.welcomeMessage == s.welcomeMessage
      && (r.error == None <==> Thrown(resp, log).None?)
  {
    SendActionsAreConversational(content, resp, log, stamps);
    ConversationKeepsSetup(s, SendActions(content, resp, log, stamps));
    AfterSendIsDispatchSequence(s, content, resp, log, stamps);
  }

  /** A turn's dispatches append the user message and the bot message (if
      any), leave the error that was set last (none if none was), switch
      loading off, and touch nothing else. */
  lemma TurnShape(s: ChatState, user: Message, bot: Option<Message>, err: Option<string>)
    ensures Run(s, TurnActions(user, bot, err)) == Settle(s, user, bot, err)
  {
    var start := [AddMessage(user), SetLoading(true), ClearError];
    var bots := if bot.Some? then [AddMessage(bot.value)] else [];
    var errs := if err.Some? then [SetError(err.value)] else [];
    RunAppend(s, start, bots + errs + [SetLoading(false)]);
    assert TurnActions(user, bot, err) == start + (bots + errs + [SetLoading(false)]);
    StartShape(s, user);
    TailShape(s.(messages := s.messages + [user], error := None, isLoading := true), bot, err);
  }

  /** The opening dispatches: user message appended, loading on, error cleared. */
  lemma StartShape(s: ChatState, user: Message)
    ensures Run(s, [AddMessage(user), SetLoading(true), ClearError]) ==
      s.(messages := s.messages + [user], error := None, isLoading := true)
  {
    RunSnoc(s, [AddMessage(user), SetLoading(true)], ClearError);
    assert [AddMessage(user), SetLoading(true)] + [ClearError] == [AddMessage(user), SetLoading(true), ClearError];
    RunSnoc(s, [AddMessage(user)], SetLoading(true));
    assert [AddMessage(user)] + [SetLoading(true)] == [AddMessage(user), SetLoading(true)];
    RunSingle(s, AddMessage(user));
  }

  /** The closing dispatches: bot message (if any), error (if any), loading off. */
  lemma TailShape(s: ChatState, bot: Option<Message>, err: Option<string>)
    ensures Run(s, (if bot.Some? then [AddMessage(bot.value)] else [])
                   + (if err.Some? then [SetError(err.value)] else []) + [SetLoading(false)]) ==
      s.(messages := s.messages + (if bot.Some? then [bot.value] else []),
         error := if err.Some? then err else if bot.Some? then None else s.error, isLoading := false)
  {
    var bots := if bot.Some? then [AddMessage(bot.value)] else [];
    var errs := if err.Some? then [SetError(err.value)] else [];
    RunSnoc(s, bots + errs, SetLoading(false));
    RunAppend(s, bots, errs);
    if err.Some? {
      RunSingle(Run(s, bots), SetError(err.value));
    } else {
      assert bots + errs == bots;
    }
    if bot.Some? {
      RunSingle(s, AddMessage(bot.value));
    }
  }
}
