/** `ChatProvider` (client/src/contexts/ChatContext.js): the reducer's state,
    the storage slot the persist effect writes, the guarded initialisation
    effect and `registerUser`. */
module Provider {
  import opened Wrappers
  import opened Text
  import opened Conversation
  import opened Persistence
  import opened Welcome
  import opened SessionHash

  /** A welcome-text generator: `getWelcomeMessage`, a pure template over
      the context and the style (Welcome.Template is the application's one). */
  type Template = (HealthcareContext, PrivacyStyle) -> string

  /** What the initialisation effect does to the record, given the context
      and style that `Math.random` picked and the welcome template. */
  function InitEffect(s: ChatState, c: HealthcareContext, p: PrivacyStyle, template: Template): ChatState {
    if s.isUserRegistered then s
    else Reduce(Reduce(s, InitializeSession(None, c, p)), SetWelcomeMessage(StripAsterisks(template(c, p))))
  }

  /** Initialisation never touches a registered record. Before registration
      it sets the context and the style, leaves the session id null, closes
      the privacy box if the style changed and otherwise keeps it, and stores the template's text
      without any `*`; the messages, the user and the transient flags stay
      as they were. */
  lemma InitEffectSemantics(s: ChatState, c: HealthcareContext, p: PrivacyStyle, template: Template)
    ensures s.isUserRegistered ==> InitEffect(s, c, p, template) == s
    ensures !s.isUserRegistered ==>
      var r := InitEffect(s, c, p, template);
      && r.healthcareContext == Some(c) && r.privacyStyle == Some(p) && r.sessionId == None
      && r.welcomeMessage == Some(StripAsterisks(template(c, p)))
      && (forall i :: 0 <= i < |r.welcomeMessage.value| ==> r.welcomeMessage.value[i] != '*')
      && (s.privacyStyle != Some(p) ==> !r.privacyBoxVisible)
      && (s.privacyStyle == Some(p) ==> r.privacyBoxVisible == s.privacyBoxVisible)
      && r.messages == s.messages && r.userDetails == s.userDetails
      && r.isUserRegistered == s.isUserRegistered
      && r.isLoading == s.isLoading && r.error == s.error
  {
    InitializeSessionSemantics(s, None, c, p);
  }

  class ChatProvider {
    /** The reducer's current state. */
    var state: ChatState
    /** The `chatbotState` entry of the browser's storage. */
    var slot: Option<Stored>
    /** The state the reducer started from at mount. */
    ghost var mounted: ChatState
    /** Every action dispatched since mount, in order. */
    ghost var dispatched: seq<Action>

    /** The persist effect has caught up (the slot holds the snapshot of the
        state), and the state is the reducer run over everything dispatched. */
    ghost predicate Valid()
      reads this
    {
      slot == Some(Save(state)) && state == Run(mounted, dispatched)
    }

    /** Mounting: the reducer starts from `getInitialState()` read from
        `stored`, and the persist effect's first run writes the snapshot. */
    constructor Mount(stored: Option<Stored>)
      ensures state == Load(stored) && mounted == Load(stored) && dispatched == []
      ensures Valid()
    {
      state := Load(stored);
      slot := Some(Save(Load(stored)));
      mounted := Load(stored);
      dispatched := [];
    }

    /** `dispatch`, followed by the persist effect, which rewrites the slot
        when one of the seven saved fields changed. */
    method Dispatch(a: Action)
      requires Valid()
      modifies this
      ensures state == Reduce(old(state), a)
      ensures mounted == old(mounted) && dispatched == old(dispatched) + [a]
      ensures Valid()
    {
      RunSnoc(mounted, dispatched, a);
      dispatched := dispatched + [a];
      var before := Save(state);
      state := Reduce(state, a);
      if Save(state) != before {
        slot := Some(Save(state));
      }
    }

    /** The initialisation effect: only while the user is not registered it
        dispatches INITIALIZE_SESSION with the picked context and style, then
        SET_WELCOME_MESSAGE with the template's text stripped of `*`. */
    method InitializeEffect(c: HealthcareContext, p: PrivacyStyle, template: Template)
      requires Valid()
      modifies this
      ensures state == InitEffect(old(state), c, p, template)
      ensures mounted == old(mounted)
      ensures dispatched == old(dispatched) +
        if old(state).isUserRegistered then []
        else [InitializeSession(None, c, p), SetWelcomeMessage(StripAsterisks(template(c, p)))]
      ensures Valid()
    {
      if !state.isUserRegistered {
        Dispatch(InitializeSession(None, c, p));
        var welcomeMessage := template(c, p);
        var cleanWelcome := StripAsterisks(welcomeMessage);
        Dispatch(SetWelcomeMessage(cleanWelcome));
      }
    }

    /** `registerUser`: derive the session id from the details and the clock,
        then dispatch REGISTER_USER; the welcome text is left as it was. */
    method RegisterUser(details: UserDetails, now: nat)
      requires Valid()
      modifies this
      ensures state == Reduce(old(state), Conversation.RegisterUser(details, SessionIdFor(details, now)))
      ensures state.welcomeMessage == old(state.welcomeMessage)
      ensures mounted == old(mounted)
      ensures dispatched == old(dispatched) + [Conversation.RegisterUser(details, SessionIdFor(details, now))]
      ensures Valid()
    {
      var sessionId := GenerateSessionId(details, now);
      Dispatch(Conversation.RegisterUser(details, sessionId));
    }
  }
}
