/** The `chatbotState` storage slot: the snapshot the provider writes after
    each change and `getInitialState` reads at start-up
    (client/src/contexts/ChatContext.js). */
module Persistence {
  import opened Wrappers
  import opened Conversation

  /** The parsed JSON object in the slot; a key that is absent or `null` is `None`.
      `privacyBoxVisible` is a key the loader reads but the saver never writes. */
  datatype Stored = Stored(
    sessionId: Option<string>,
    healthcareContext: Option<HealthcareContext>,
    privacyStyle: Option<PrivacyStyle>,
    userDetails: Option<UserDetails>,
    isUserRegistered: Option<bool>,
    messages: Option<seq<Message>>,
    welcomeMessage: Option<string>,
    privacyBoxVisible: Option<bool>)

  /** The persist effect: the seven saved fields of the record. */
  function Save(s: ChatState): Stored {
    Stored(s.sessionId, s.healthcareContext, s.privacyStyle, s.userDetails,
           Some(s.isUserRegistered), Some(s.messages), s.welcomeMessage, None)
  }

  /** `x || null` on a string: the empty string is falsy. */
  function Truthy(x: Option<string>): (r: Option<string>)
    ensures r == None <==> x == None || x == Some("")
    ensures r.Some? ==> r == x
  {
    if x == Some("") then None else x
  }

  /** `getInitialState`; `None` stands for a missing slot or one whose JSON
      does not parse (both give `{}`). */
  function Load(slot: Option<Stored>): ChatState {
    var p := if slot.Some? then slot.value
             else Stored(None, None, None, None, None, None, None, None);
    ChatState(
      sessionId := Truthy(p.sessionId),
      healthcareContext := p.healthcareContext,
      privacyStyle := p.privacyStyle,
      userDetails := p.userDetails,
      isUserRegistered := p.isUserRegistered == Some(true),
      messages := if p.messages.Some? then p.messages.value else [],
      isLoading := false,
      error := None,
      privacyBoxVisible := p.privacyBoxVisible == Some(true),
      welcomeMessage := Truthy(p.welcomeMessage))
  }

  /** The snapshot depends on exactly the seven saved fields: two records
      save alike if and only if they agree on those seven. */
  lemma SaveIsSevenFieldProjection(s: ChatState, t: ChatState)
    ensures Save(s) == Save(t) <==>
      && s.sessionId == t.sessionId && s.healthcareContext == t.healthcareContext
      && s.privacyStyle == t.privacyStyle && s.userDetails == t.userDetails
      && s.isUserRegistered == t.isUserRegistered && s.messages == t.messages
      && s.welcomeMessage == t.welcomeMessage
    ensures Save(s).privacyBoxVisible == None
  {
  }

  /** Whatever the slot holds, a reload starts idle and without an error. */
  lemma LoadStartsIdle(slot: Option<Stored>)
    ensures !Load(slot).isLoading && Load(slot).error == None
    ensures slot == None ==> Load(slot) == Empty
  {
  }

  /** Saving then reloading restores the seven saved fields (when the strings
      among them are not empty), while `isLoading`, `error` and
      `privacyBoxVisible` come back as false, null and false. */
  lemma LoadSaveRoundTrip(s: ChatState)
    requires s.sessionId != Some("") && s.welcomeMessage != Some("")
    ensures Load(Some(Save(s))) == s.(isLoading := false, error := None, privacyBoxVisible := false)
  {
  }

  /** The empty strings are the exception: a saved empty session id or welcome
      text is falsy and comes back as null. */
  lemma LoadDropsEmptyStrings(s: ChatState)
    ensures s.sessionId == Some("") ==> Load(Some(Save(s))).sessionId == None
    ensures s.welcomeMessage == Some("") ==> Load(Some(Save(s))).welcomeMessage == None
  {
  }

  /** After one reload, saving is stable: a second save-and-reload changes
      nothing but the privacy box, which is never saved and so closes. */
  lemma SaveLoadStable(slot: Option<Stored>)
    ensures Load(Some(Save(Load(slot)))) == Load(slot).(privacyBoxVisible := false)
  {
  }
}
