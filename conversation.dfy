/** The conversation record of the chat client and `chatReducer`, its only
    transition function (client/src/contexts/ChatContext.js). */
module Conversation {
  import opened Wrappers

  datatype HealthcareContext = SymptomChecking | MentalHealthSupport | ChronicCareManagement

  datatype PrivacyStyle = Minimal | Contextual | Progressive

  datatype Sender = User | Bot

  /** One chat bubble: `{id, content, timestamp, sender}`. */
  datatype Message = Message(id: int, content: string, timestamp: string, sender: Sender)

  /** What the registration form hands to `registerUser`. */
  datatype UserDetails = UserDetails(
    firstName: string, lastName: string, dateOfBirth: string, age: int, fullName: string)

  /** The reducer's state record. */
  datatype ChatState = ChatState(
    sessionId: Option<string>,
    healthcareContext: Option<HealthcareContext>,
    privacyStyle: Option<PrivacyStyle>,
    userDetails: Option<UserDetails>,
    isUserRegistered: bool,
    messages: seq<Message>,
    isLoading: bool,
    error: Option<string>,
    privacyBoxVisible: bool,
    welcomeMessage: Option<string>)

  /** The eight action tags of `ACTIONS`, with their payloads, plus any other tag. */
  datatype Action =
    | InitializeSession(sessionId: Option<string>, context: HealthcareContext, style: PrivacyStyle)
    | RegisterUser(details: UserDetails, newSessionId: string)
    | AddMessage(message: Message)
    | SetLoading(loading: bool)
    | SetError(text: string)
    | ClearError
    | TogglePrivacyBox
    | SetWelcomeMessage(welcome: string)
    | Unknown(tag: string)

  /** `chatReducer`: a total function from a state and an action to the next state. */
  function Reduce(s: ChatState, a: Action): ChatState {
    match a
    case InitializeSession(id, context, style) =>
      s.(sessionId := id, healthcareContext := Some(context), privacyStyle := Some(style),
         privacyBoxVisible := if s.privacyStyle != Some(style) then false else s.privacyBoxVisible)
    case RegisterUser(details, id) =>
      s.(userDetails := Some(details), sessionId := Some(id), isUserRegistered := true)
    case AddMessage(m) =>
      s.(messages := s.messages + [m], error := None)
    case SetLoading(b) =>
      s.(isLoading := b)
    case SetError(text) =>
      s.(error := Some(text), isLoading := false)
    case ClearError =>
      s.(error := None)
    case TogglePrivacyBox =>
      if s.privacyStyle == Some(Progressive) then s.(privacyBoxVisible := !s.privacyBoxVisible)
      else s.(privacyBoxVisible := false)
    case SetWelcomeMessage(text) =>
      s.(welcomeMessage := Some(text))
    case Unknown(_) =>
      s
  }

  /** The record `chatReducer` starts from when nothing was saved. */
  const Empty := ChatState(None, None, None, None, false, [], false, None, false, None)

  /** The privacy box can be open only under the progressive style. */
  ghost predicate PrivacyBoxConsistent(s: ChatState) {
    s.privacyBoxVisible ==> s.privacyStyle == Some(Progressive)
  }

  /** A registered record carries a session id and the user's details. */
  ghost predicate RegisteredHasIdentity(s: ChatState) {
    s.isUserRegistered ==> s.sessionId.Some? && s.userDetails.Some?
  }

  /** ADD_MESSAGE appends exactly its payload, keeps the earlier messages and clears the error. */
  lemma AddMessageAppends(s: ChatState, m: Message)
    ensures var r := Reduce(s, AddMessage(m));
      && |r.messages| == |s.messages| + 1
      && r.messages[..|s.messages|] == s.messages
      && r.messages[|s.messages|] == m
      && r.error == None
      && r.(messages := s.messages, error := s.error) == s
  {
    var r := Reduce(s, AddMessage(m));
    assert r.messages[..|s.messages|] == s.messages;
  }

  /** SET_LOADING touches only `isLoading`, CLEAR_ERROR only `error`, and
      SET_ERROR stores the error and forces `isLoading` off. */
  lemma FlagTransitionsFrame(s: ChatState, b: bool, text: string)
    ensures Reduce(s, SetLoading(b)) == s.(isLoading := b)
    ensures Reduce(s, ClearError) == s.(error := None)
    ensures Reduce(s, SetError(text)).error == Some(text)
    ensures !Reduce(s, SetError(text)).isLoading
    ensures Reduce(s, SetError(text)).(error := s.error, isLoading := s.isLoading) == s
  {
  }

  /** TOGGLE_PRIVACY_BOX flips the box under the progressive style and closes it otherwise. */
  lemma ToggleSemantics(s: ChatState)
    ensures s.privacyStyle == Some(Progressive) ==>
      Reduce(s, TogglePrivacyBox).privacyBoxVisible == !s.privacyBoxVisible
    ensures s.privacyStyle != Some(Progressive) ==>
      !Reduce(s, TogglePrivacyBox).privacyBoxVisible
    ensures Reduce(s, TogglePrivacyBox).(privacyBoxVisible := s.privacyBoxVisible) == s
  {
  }

  /** Under the progressive style, toggling twice gives the record back. */
  lemma ToggleTwiceIsIdentity(s: ChatState)
    requires s.privacyStyle == Some(Progressive)
    ensures Reduce(Reduce(s, TogglePrivacyBox), TogglePrivacyBox) == s
  {
  }

  /** INITIALIZE_SESSION copies the payload and closes the privacy box exactly
      when the style changes; otherwise the box keeps its state. */
  lemma InitializeSessionSemantics(s: ChatState, id: Option<string>,
                                   context: HealthcareContext, style: PrivacyStyle)
    ensures var r := Reduce(s, InitializeSession(id, context, style));
      && r.sessionId == id && r.healthcareContext == Some(context) && r.privacyStyle == Some(style)
      && (s.privacyStyle != Some(style) ==> !r.privacyBoxVisible)
      && (s.privacyStyle == Some(style) ==> r.privacyBoxVisible == s.privacyBoxVisible)
      && r.(sessionId := s.sessionId, healthcareContext := s.healthcareContext,
            privacyStyle := s.privacyStyle, privacyBoxVisible := s.privacyBoxVisible) == s
  {
  }

  /** REGISTER_USER records the user and the session id and leaves the
      welcome text, the messages, the context and the style alone; an
      unknown action changes nothing. */
  lemma RegisterUserSemantics(s: ChatState, details: UserDetails, id: string, tag: string)
    ensures var r := Reduce(s, RegisterUser(details, id));
      && r.userDetails == Some(details) && r.sessionId == Some(id) && r.isUserRegistered
      && r.welcomeMessage == s.welcomeMessage && r.messages == s.messages
      && r.healthcareContext == s.healthcareContext && r.privacyStyle == s.privacyStyle
      && r.(userDetails := s.userDetails, sessionId := s.sessionId,
            isUserRegistered := s.isUserRegistered) == s
    ensures Reduce(s, Unknown(tag)) == s
  {
  }

  /** Every transition keeps the privacy box closed unless the style is progressive. */
  lemma ReducePreservesPrivacyBox(s: ChatState, a: Action)
    requires PrivacyBoxConsistent(s)
    ensures PrivacyBoxConsistent(Reduce(s, a))
  {
  }

  /** Every transition keeps a registered record's identity, except an
      INITIALIZE_SESSION dispatched after registration (which the provider
      never does: its effect is guarded by `isUserRegistered`). */
  lemma ReducePreservesIdentity(s: ChatState, a: Action)
    requires RegisteredHasIdentity(s)
    requires a.InitializeSession? ==> !s.isUserRegistered || a.sessionId.Some?
    ensures RegisteredHasIdentity(Reduce(s, a))
  {
  }

  /** The messages only ever grow at the end, whatever the action. */
  lemma ReduceMessagesAppendOnly(s: ChatState, a: Action)
    ensures s.messages <= Reduce(s, a).messages
    ensures |Reduce(s, a).messages| <= |s.messages| + 1
  {
  }

  /** The result of a sequence of dispatches, applied in order. */
  function Run(s: ChatState, actions: seq<Action>): ChatState
    decreases |actions|
  {
    if actions == [] then s
    else Reduce(Run(s, actions[..|actions| - 1]), actions[|actions| - 1])
  }

  lemma RunSnoc(s: ChatState, actions: seq<Action>, a: Action)
    ensures Run(s, actions + [a]) == Reduce(Run(s, actions), a)
  {
    assert (actions + [a])[..|actions|] == actions;
  }

  /** Over any number of dispatches, earlier messages are never changed or
      removed, and each dispatch adds at most one. */
  lemma {:induction false} RunMessagesAppendOnly(s: ChatState, actions: seq<Action>)
    ensures s.messages <= Run(s, actions).messages
    ensures |Run(s, actions).messages| <= |s.messages| + |actions|
    decreases |actions|
  {
    if actions != [] {
      var init := actions[..|actions| - 1];
      RunMessagesAppendOnly(s, init);
      ReduceMessagesAppendOnly(Run(s, init), actions[|actions| - 1]);
    }
  }

  /** The actions the chat screen dispatches once the user is registered. */
  predicate IsConversationAction(a: Action) {
    a.AddMessage? || a.SetLoading? || a.SetError? || a.ClearError? || a.TogglePrivacyBox?
  }

  /** After registration the conversation's dispatches never touch the
      identity, the context, the style or the welcome text. */
  lemma {:induction false} ConversationKeepsSetup(s: ChatState, actions: seq<Action>)
    requires forall i :: 0 <= i < |actions| ==> IsConversationAction(actions[i])
    ensures var r := Run(s, actions);
      && r.isUserRegistered == s.isUserRegistered
      && r.sessionId == s.sessionId && r.userDetails == s.userDetails
      && r.healthcareContext == s.healthcareContext && r.privacyStyle == s.privacyStyle
      && r.welcomeMessage == s.welcomeMessage
    decreases |actions|
  {
    if actions != [] {
      var init := actions[..|actions| - 1];
      var last := actions[|actions| - 1];
      ConversationKeepsSetup(s, init);
      assert Run(s, actions) == Reduce(Run(s, init), last);
      ConversationStepKeepsSetup(Run(s, init), last);
    }
  }

  /** One conversation action leaves the setup fields alone. */
  lemma ConversationStepKeepsSetup(s: ChatState, a: Action)
    requires IsConversationAction(a)
    ensures var r := Reduce(s, a);
      && r.isUserRegistered == s.isUserRegistered
      && r.sessionId == s.sessionId && r.userDetails == s.userDetails
      && r.healthcareContext == s.healthcareContext && r.privacyStyle == s.privacyStyle
      && r.welcomeMessage == s.welcomeMessage
  {
  }
}
