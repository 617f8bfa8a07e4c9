# Healthcare chat client — a Dafny model

This project models the browser side of a healthcare chat application:

- the conversation record and its reducer;
- the provider that persists the record, picks the session's context and privacy style, and builds the welcome text;
- the registration form with its age rule, per-field validation and consent check;
- the send handler that talks to the chat and chat-log endpoints;
- the message box's submit guard;
- the renderer that turns the welcome text into headings, bullets and rules;
- the standalone pages' deterministic session id and keyword-driven chat flow.

Each source file keeps its own form in the model:

- Pure logic is functions and lemmas. This covers the reducer, the session id of `src/utils/session.ts`, the line classifier and the age rule.
- Code that changes state step by step is classes and methods proved against those functions. This covers the provider with its storage slot, the rolling-hash loop, the registration form, the message box, the send handler and the keyword chat list.

The modules:

| file | module | models |
|---|---|---|
| wrappers.dfy | `Wrappers` | `Option` |
| text.dfy | `Text` | ASCII `trim`, `toLowerCase`, `\s`, the `/\*+/g` strip, `includes`, `split` |
| conversation.dfy | `Conversation` | the record, the actions, `chatReducer` |
| persistence.dfy | `Persistence` | `getInitialState` and the persist effect |
| session_hash.dfy | `SessionHash` | `generateSessionId` of the chat client |
| welcome.dfy | `Welcome` | `getWelcomeMessage` and the stored welcome text |
| provider.dfy | `Provider` | `ChatProvider`: state, storage slot, init effect, `registerUser` |
| send_flow.dfy | `SendFlow` | `handleSendMessage` |
| chat_input.dfy | `ChatInputBox` | `ChatInput` and its `disabled` wiring |
| message_view.dfy | `MessageView` | how `ChatMessage` renders content |
| registration.dfy | `Registration` | `UserRegistration` |
| session_id.dfy | `DeterministicSession` | `src/utils/session.ts` |
| chat_flow.dfy | `KeywordFlow` | `src/components/Chatbot/ChatFlow.tsx` |

Behaviours of the code that its own comments or neighbouring code would not lead one to expect, and that the model states as written:

- **Names in the hash.** The chat client's session id lowercases the names at client/src/contexts/ChatContext.js:10 but does not trim them, although the form validates the trimmed names (client/src/components/UserRegistration.js:33-43). See `SessionHash.BaseStringKeepsSpaces`.
- **Hash length.** The comment at client/src/contexts/ChatContext.js:12 speaks of taking the first 8 characters of the hash. The `substring(0, 8)` at line 20 never cuts anything, because the base-36 print of a 32-bit magnitude has at most 6 digits. See `SessionHash.HashPartShort`.
- **Log-call failures.** The chat-log request at client/src/components/ChatInterface.js:101-114 is awaited inside the same `try` as the chat call. Its rejection therefore reaches the `catch` at lines 118-120 and is shown as the error after the bot message was added. See `SendFlow.LogFailureKeepsReply`.
- **Empty strings on reload.** `getInitialState` applies `||` to the session id and the welcome text (client/src/contexts/ChatContext.js:32, 41), so an empty one reloads as null. See `Persistence.LoadDropsEmptyStrings`.
- **Where "no re-initialisation after registration" lives.** Only the effect's `isUserRegistered` guard (client/src/contexts/ChatContext.js:154) keeps it. The reducer's INITIALIZE_SESSION case (lines 62-70) would overwrite the session id. See `Provider.InitEffectSemantics` and `Conversation.ReducePreservesIdentity`.
- **Separator in the standalone id.** The comment at src/utils/session.ts:5 speaks of joining with `|`, but line 7 joins with `_`, which may also occur inside a name. See `DeterministicSession.UnderscoreShiftCollides`.

## Model

| member | source | states |
|---|---|---|
| Text.TrimStartShape | client/src/components/ChatInput.js:10 | leading trim keeps a suffix of the text, drops only white space, and what remains starts with a non-space |
| Text.TrimEndShape | client/src/components/ChatInput.js:10 | trailing trim keeps a prefix, drops only white space, and what remains ends with a non-space |
| Text.TrimEmptyIffBlank | client/src/components/ChatInterface.js:56 | `trim()` is empty exactly when the text is all white space (both directions) |
| Text.TrimIsInterior | client/src/components/ChatInput.js:11 | the trimmed text is a contiguous slice of the original with only white space cut from either side |
| Text.TrimEnds | client/src/components/ChatInput.js:11 | a non-empty trimmed text begins and ends with a non-space |
| Text.TrimIdempotent | client/src/components/ChatInput.js:11 | trimming twice is trimming once |
| Text.LowerChar | src/components/Chatbot/ChatFlow.tsx:29 | the lowered character is never upper case, and a non-upper character is unchanged |
| Text.ToLower | src/components/Chatbot/ChatFlow.tsx:29 | lowering keeps the length and lowers every position independently |
| Text.ToLowerAppend | src/utils/session.ts:6 | lowering distributes over concatenation |
| Text.ToLowerKeepsSpaces | src/utils/session.ts:6 | lowering leaves no upper-case letter and maps white space to white space and nothing else to it |
| Text.StripAsterisks | client/src/contexts/ChatContext.js:274 | the stripped text is no longer and has no `*` |
| Text.StripAsterisksCounts | client/src/components/ChatInterface.js:90 | the strip removes every `*` and keeps every other character with its multiplicity |
| Text.StripAsterisksAppend | client/src/contexts/ChatContext.js:274 | the strip works piecewise, so the remaining characters keep their order |
| Text.StripAsterisksNoStar | client/src/contexts/ChatContext.js:274 | a text without `*` is unchanged |
| Text.StripAsterisksIdempotent | client/src/components/ChatInterface.js:90 | stripping twice is stripping once |
| Text.ContainsIffOccurs | src/components/Chatbot/ChatFlow.tsx:29 | `includes` holds exactly when the needle occurs at some offset |
| Text.Split | client/src/components/ChatMessage.js:35 | `split('\n')` yields at least one piece and no piece holds the separator |
| Text.JoinSplit | client/src/components/ChatMessage.js:35 | joining the pieces with the separator gives the text back |
| Text.SplitCount | client/src/components/ChatMessage.js:35 | there is one more piece than there are separators |
| Text.SplitNoSeparator | client/src/components/ChatMessage.js:35 | a text without the separator is a single piece |
| Conversation.Reduce | client/src/contexts/ChatContext.js:60-129 | `chatReducer`: the record after one action; each case copies the record and overwrites the fields its source case names, and an unknown type returns the record (properties in the rows below) |
| Conversation.AddMessageAppends | client/src/contexts/ChatContext.js:80-85 | ADD_MESSAGE puts exactly the payload at the end, keeps the earlier messages, clears the error and changes nothing else |
| Conversation.FlagTransitionsFrame | client/src/contexts/ChatContext.js:87-104 | SET_LOADING touches only `isLoading`; CLEAR_ERROR only `error`; SET_ERROR stores the error, forces loading off and touches nothing else |
| Conversation.ToggleSemantics | client/src/contexts/ChatContext.js:106-118 | TOGGLE_PRIVACY_BOX flips the box under the progressive style, closes it under any other, and changes no other field |
| Conversation.ToggleTwiceIsIdentity | client/src/contexts/ChatContext.js:106-112 | under the progressive style toggling twice returns the record unchanged |
| Conversation.InitializeSessionSemantics | client/src/contexts/ChatContext.js:62-70 | INITIALIZE_SESSION copies id, context and style, closes the box exactly when the style changes and otherwise keeps it, and changes nothing else |
| Conversation.RegisterUserSemantics | client/src/contexts/ChatContext.js:72-78 | REGISTER_USER sets user, id and the registered flag, and leaves welcome text, messages, context and style alone; an unknown tag returns the record |
| Conversation.ReducePreservesPrivacyBox | client/src/contexts/ChatContext.js:60-129 | no transition opens the privacy box unless the style is progressive |
| Conversation.ReducePreservesIdentity | client/src/contexts/ChatContext.js:60-129 | a registered record keeps a session id and user details under every transition the provider can dispatch |
| Conversation.ReduceMessagesAppendOnly | client/src/contexts/ChatContext.js:60-129 | every transition keeps the old messages as a prefix and adds at most one |
| Conversation.RunMessagesAppendOnly | client/src/contexts/ChatContext.js:295-299 | over any sequence of dispatches the messages only grow at the end, by at most one per dispatch |
| Conversation.ConversationKeepsSetup | client/src/contexts/ChatContext.js:295-299 | the conversation actions (add, loading, error, clear, toggle), in any number, never change identity, context, style or welcome text |
| Conversation.ConversationStepKeepsSetup | client/src/contexts/ChatContext.js:295-299 | one conversation action leaves identity, context, style and welcome text alone |
| Persistence.Save | client/src/contexts/ChatContext.js:139-149 | the persist effect's snapshot: the seven persisted fields of the record; loading, error and the privacy box are not written |
| Persistence.Load | client/src/contexts/ChatContext.js:26-43 | `getInitialState`: the record read from the slot, or the all-empty record when there is none; each field defaults as its `||` says, loading is off and the error null |
| Persistence.Truthy | client/src/contexts/ChatContext.js:32-41 | the or-null default of the session id (line 32) and the welcome text (line 41): null when the value is missing or empty, the value otherwise |
| Persistence.SaveIsSevenFieldProjection | client/src/contexts/ChatContext.js:139-149 | two records save alike if and only if they agree on the seven saved fields; `privacyBoxVisible` is never written |
| Persistence.LoadStartsIdle | client/src/contexts/ChatContext.js:26-43 | whatever the slot holds, a load starts not loading and without an error; a missing slot gives the empty record |
| Persistence.LoadSaveRoundTrip | client/src/contexts/ChatContext.js:26-43 | reloading a saved record restores its seven saved fields (non-empty strings) with loading off, no error and the box closed |
| Persistence.LoadDropsEmptyStrings | client/src/contexts/ChatContext.js:32-41 | a saved empty session id reloads as null, and so does a saved empty welcome text |
| Persistence.SaveLoadStable | client/src/contexts/ChatContext.js:139-149 | after one reload, saving and reloading again changes nothing but closing the privacy box |
| SessionHash.BaseString | client/src/contexts/ChatContext.js:10 | the hashed text: the lowered last name, `_`, the lowered first name, `_` and the date of birth |
| SessionHash.HashPart | client/src/contexts/ChatContext.js:20 | the base-36 digits of the hash's magnitude, cut to at most 8 characters |
| SessionHash.SessionIdFor | client/src/contexts/ChatContext.js:22 | the session id: the hash part, `_` and the clock in base 36 |
| SessionHash.ToInt32 | client/src/contexts/ChatContext.js:17 | the result is a signed 32-bit value congruent to the input modulo 2^32 |
| SessionHash.ToInt32Congruent | client/src/contexts/ChatContext.js:17 | values congruent modulo 2^32 wrap to the same int32 |
| SessionHash.SourceStepIsStep | client/src/contexts/ChatContext.js:16-17 | the shift-subtract-and-mask step equals `hash * 31 + code` wrapped to int32 |
| SessionHash.Hash | client/src/contexts/ChatContext.js:13-18 | the hash is always in the signed 32-bit range |
| SessionHash.RollingHash | client/src/contexts/ChatContext.js:13-18 | the loop computes the specified rolling hash of the base string |
| SessionHash.Base36 | client/src/contexts/ChatContext.js:20 | `toString(36)` gives at least one digit, all base-36 digits |
| SessionHash.Base36RoundTrip | client/src/contexts/ChatContext.js:22 | the base-36 numeral reads back as the number |
| SessionHash.Base36Length | client/src/contexts/ChatContext.js:20 | a number below 36^k prints in at most k digits |
| SessionHash.HashPartShort | client/src/contexts/ChatContext.js:20 | the 8-character cut never applies: the hash part is the whole numeral of `\|hash\|`, 1 to 6 digits |
| SessionHash.SessionIdShape | client/src/contexts/ChatContext.js:4-23 | the id has exactly one `_`; before it are 1–6 base-36 digits, after it the clock in base 36, which reads back as the clock value |
| SessionHash.JoinedShape | client/src/contexts/ChatContext.js:22 | two digit strings joined by `_` hold one `_`, at the joint, with each part recoverable |
| SessionHash.GenerateSessionId | client/src/contexts/ChatContext.js:4-23 | the method returns the id specified by the hash of `last_first_dob` and the clock |
| SessionHash.HashPartIgnoresCase | client/src/contexts/ChatContext.js:10 | registrations whose names agree up to case and whose dates agree share the hash part |
| SessionHash.BaseStringKeepsSpaces | client/src/contexts/ChatContext.js:10 | names are not trimmed: a leading space changes the hashed text |
| Welcome.Template | client/src/contexts/ChatContext.js:247-270 | `getWelcomeMessage`: the welcome text of a context and a privacy style, its lines joined by newlines |
| Welcome.CleanWelcome | client/src/contexts/ChatContext.js:272-274 | the stored welcome text: the template's text with every run of `*` removed |
| Welcome.BulletLines | client/src/contexts/ChatContext.js:254 | one line per item, in order; line i is `• ` followed by item i |
| Welcome.WelcomeLines | client/src/contexts/ChatContext.js:247-270 | the template's first line is the level-one heading |
| Welcome.CleanWelcomeShape | client/src/contexts/ChatContext.js:272-278 | the stored welcome text has no `*` and still opens with the heading line |
| Welcome.TemplateCleanShape | client/src/contexts/ChatContext.js:167-278 | for every context and style, the stripped template has no `*` and opens with the heading line |
| Welcome.HeadingSurvives | client/src/contexts/ChatContext.js:274 | the heading line passes through the strip unchanged |
| Welcome.StarFreePrefixSurvives | client/src/contexts/ChatContext.js:274 | a leading stretch without `*` comes through the strip unchanged |
| Provider.InitEffect | client/src/contexts/ChatContext.js:152-282 | what the mount effect does to the record: nothing once registered; otherwise INITIALIZE_SESSION with a null id and the picked context and style, then SET_WELCOME_MESSAGE with the template's text stripped of `*` |
| Provider.InitEffectSemantics | client/src/contexts/ChatContext.js:152-282 | a registered record is untouched; otherwise context and style are set, id null, the box closed if the style changed and kept if not, and the welcome text is the template with every `*` removed; nothing else changes |
| Provider.ChatProvider.Mount | client/src/contexts/ChatContext.js:136-149 | the state is the load of the stored slot, nothing is dispatched yet, and the slot holds the snapshot |
| Provider.ChatProvider.Dispatch | client/src/contexts/ChatContext.js:139-149 | the action is appended to the dispatch log, the state advances by the reducer (so it stays the reducer run over the whole log), and the slot again holds the snapshot |
| Provider.ChatProvider.InitializeEffect | client/src/contexts/ChatContext.js:152-282 | before registration exactly INITIALIZE_SESSION then SET_WELCOME_MESSAGE with the stripped template are dispatched, after it nothing; the state is the specified init effect and the slot stays in sync |
| Provider.ChatProvider.RegisterUser | client/src/contexts/ChatContext.js:287-294 | exactly one REGISTER_USER is dispatched, with the derived session id, and the welcome text is kept |
| SendFlow.ErrorText | client/src/components/ChatInterface.js:120 | the shown error: the thrown message, or the fallback text when that message is empty |
| SendFlow.SendActions | client/src/components/ChatInterface.js:55-124 | the actions one send dispatches, in order: none for a blank text; otherwise the user message, loading on, error cleared, the bot message when the reply is truthy, the error when something was thrown, and loading off |
| SendFlow.AfterSend | client/src/components/ChatInterface.js:55-124 | the record after one send, in closed form: unchanged for a blank text; otherwise the messages extended by the user message and the bot message if any, loading off and the error set exactly when something was thrown |
| SendFlow.Decimal | client/src/components/ChatInterface.js:83 | the status prints as at least one decimal digit |
| SendFlow.DecimalRoundTrip | client/src/components/ChatInterface.js:83 | the status in the error text reads back exactly |
| SendFlow.ErrorTextNeverEmpty | client/src/components/ChatInterface.js:120 | the shown error is never empty: the thrown message when it is non-empty, the fallback otherwise |
| SendFlow.OpenTurn | client/src/components/ChatInterface.js:65-67 | dispatches ADD_MESSAGE, SET_LOADING(true), CLEAR_ERROR in that order: the user message is appended, loading is on and the error cleared |
| SendFlow.Exchange | client/src/components/ChatInterface.js:69-117 | called only with loading on and no error shown; a truthy reply is dispatched (the only dispatch) stripped of `*` and logged with the unstripped reply and the captured session values; what is thrown matches the outcome |
| SendFlow.CloseTurn | client/src/components/ChatInterface.js:118-123 | dispatches SET_ERROR with the error text when something was thrown, then SET_LOADING(false) |
| SendFlow.HandleSendMessage | client/src/components/ChatInterface.js:55-124 | the provider receives exactly the turn's dispatch list, in order (none for a blank draft), so the request goes out with loading on and no error; the record ends as the specified turn, the chat request carries the content, and the log request carries the original reply and the record's values |
| SendFlow.TurnLog | client/src/components/ChatInterface.js:65-123 | the opening, reply, error and closing dispatches make up the turn's action list |
| SendFlow.AfterSendIsDispatchSequence | client/src/components/ChatInterface.js:55-124 | the turn's closed form equals running its dispatches one by one through the reducer |
| SendFlow.SendActionsAreConversational | client/src/components/ChatInterface.js:55-124 | a turn dispatches only conversation actions |
| SendFlow.BlankSendIsNoOp | client/src/components/ChatInterface.js:56 | a blank draft dispatches nothing and leaves the record unchanged |
| SendFlow.SendSucceeds | client/src/components/ChatInterface.js:86-98 | a truthy, logged reply appends the user message then the bot message without `*`, and ends idle with no error |
| SendFlow.SendFails | client/src/components/ChatInterface.js:82-120 | with no truthy reply only the user message is appended; the turn ends idle with a non-empty error: the HTTP status text, the server's error, the rejection message, or the fallbacks |
| SendFlow.LogFailureKeepsReply | client/src/components/ChatInterface.js:100-120 | a rejected log call keeps both messages and shows its message as the error |
| SendFlow.ReplyThrows | client/src/components/ChatInterface.js:88-120 | with a truthy reply the bot message is built, and only a log rejection yields an error |
| SendFlow.SendAlwaysSettles | client/src/components/ChatInterface.js:118-123 | every non-blank turn ends with loading off, the setup fields untouched, and an error exactly when something was thrown |
| SendFlow.TurnShape | client/src/components/ChatInterface.js:65-123 | the turn's dispatches append user and bot messages, leave the last error set, and switch loading off |
| SendFlow.StartShape | client/src/components/ChatInterface.js:65-67 | the three opening dispatches, run as a list, append the user message, set loading and clear the error |
| SendFlow.TailShape | client/src/components/ChatInterface.js:98-123 | the closing dispatches append the bot message if any, set the error if any, and switch loading off |
| ChatInputBox.CanSubmit | client/src/components/ChatInput.js:10 | the submit guard: the trimmed draft is non-empty, no reply is pending and the box is enabled |
| ChatInputBox.ButtonMatchesGuard | client/src/components/ChatInput.js:45 | the send button is disabled exactly when the submit guard fails |
| ChatInputBox.SubmitNeedsSession | client/src/components/ChatInterface.js:261-265 | under the chat screen's wiring nothing is submitted without a non-empty session id or while loading |
| ChatInputBox.SubmittedTextIsTrimmed | client/src/components/ChatInput.js:10-11 | the submitted text passes the send handler's blank guard and has no white space at either end |
| ChatInputBox.ChatInput.constructor | client/src/components/ChatInput.js:6 | the draft starts empty |
| ChatInputBox.ChatInput.SetMessage | client/src/components/ChatInput.js:28 | the draft becomes the typed value |
| ChatInputBox.ChatInput.HandleSubmit | client/src/components/ChatInput.js:8-14 | when the guard holds the trimmed draft is sent and the draft cleared; otherwise nothing is sent and the draft is kept |
| ChatInputBox.ChatInput.HandleKeyPress | client/src/components/ChatInput.js:16-21 | Enter without Shift prevents the default and submits under the guard; any other key sends nothing and keeps the draft |
| MessageView.ClassifyLine | client/src/components/ChatMessage.js:36-50 | the block a welcome line becomes, by the first matching case: `# `, `## `, `### `, `• ` (prefix removed), `---`, a blank line, else a paragraph |
| MessageView.Render | client/src/components/ChatMessage.js:33-55 | what a bubble shows: a welcome text split at newlines with each line classified, any other text as one paragraph |
| MessageView.ClassifyHeadings | client/src/components/ChatMessage.js:36-41 | each heading level fires exactly on its own prefix |
| MessageView.ClassifyOthers | client/src/components/ChatMessage.js:42-45 | a bullet exactly on the `• ` prefix, a rule exactly on `---` |
| MessageView.ClassifyBreak | client/src/components/ChatMessage.js:46-47 | a line break exactly on a blank line |
| MessageView.ClassifyLineKeepsText | client/src/components/ChatMessage.js:36-50 | a non-blank line's block gives the line back through its markup |
| MessageView.Markups | client/src/components/ChatMessage.js:36-50 | not an operation of the source: the inverse of the line classification (the prefix each case strips), one markup line per block, used by `RenderRoundTrip` |
| MessageView.RenderRoundTrip | client/src/components/ChatMessage.js:33-55 | a non-welcome bubble is one paragraph of the whole text; a welcome text whose blank lines are all empty (as the template's are) is given back by joining its blocks' markup |
| MessageView.RenderCountsLines | client/src/components/ChatMessage.js:35 | a welcome bubble has one block per line, one more than its newlines; any other has one |
| MessageView.HeadingLineRendersFirst | client/src/components/ChatMessage.js:36-37 | a text whose first line is `# ` plus a title renders that title first as a level-one heading |
| MessageView.WelcomeOpensWithHeading | client/src/components/ChatMessage.js:36-37 | a welcome text renders the assistant's title first as a level-one heading |
| MessageView.FirstPiece | client/src/components/ChatMessage.js:35 | the first piece of a split is the text up to the first separator |
| Registration.CalculateAge | client/src/components/UserRegistration.js:17-28 | `calculateAge`: the difference of the years, less one when this year's birthday has not come yet |
| Registration.NameError | client/src/components/UserRegistration.js:33-43 | the error of a name field: required when the trimmed name is empty, too short when under 2 characters, none otherwise |
| Registration.DobError | client/src/components/UserRegistration.js:45-54 | the error of the date of birth: required when empty, too young below 13, implausible above 120, none otherwise |
| Registration.FormErrors | client/src/components/UserRegistration.js:30-55 | the error object `validateForm` builds from the three field rules |
| Registration.Details | client/src/components/UserRegistration.js:75-81 | the details handed to `onRegister`: the form's fields, the age and the full name `first last` |
| Registration.AgeCountsBirthdays | client/src/components/UserRegistration.js:17-28 | the age is the number of birthdays reached: the age-th birthday is not after today and the next one is |
| Registration.AgeIsUnique | client/src/components/UserRegistration.js:17-28 | only that number has this property, so it defines the age |
| Registration.WithErrorChangesOnlyThatField | client/src/components/UserRegistration.js:34 | setting one error entry changes that entry and no other |
| Registration.KeyCountZero | client/src/components/UserRegistration.js:57 | the error object has no keys exactly when it is empty, and never more than three |
| Registration.NameErrorCases | client/src/components/UserRegistration.js:33-43 | a name passes exactly when its trimmed length is at least 2; "required" exactly when trimmed empty; "too short" exactly at length 1 |
| Registration.DobErrorCases | client/src/components/UserRegistration.js:45-54 | an empty date is required; a filled-in date passes exactly for ages 13–120, below is too young, above is implausible |
| Registration.FormValidIff | client/src/components/UserRegistration.js:30-58 | the form is valid exactly when both trimmed names have 2+ characters and the date is filled in with an age of 13–120 |
| Registration.FullNameParts | client/src/components/UserRegistration.js:80 | the full name is the first name, one space and the last name, each recoverable |
| Registration.SetChangesOnlyThatField | client/src/components/UserRegistration.js:92-95 | setting one field changes that field and no other |
| Registration.RegistrationForm.constructor | client/src/components/UserRegistration.js:6-14 | empty fields, no errors, not submitting, consent unchecked, no privacy error |
| Registration.RegistrationForm.ValidateForm | client/src/components/UserRegistration.js:30-58 | the stored errors are the specified per-field errors and the result is true exactly when there are none; nothing else changes |
| Registration.RegistrationForm.HandleSubmit | client/src/components/UserRegistration.js:60-88 | validation first, then consent; the details are handed on exactly when both pass; the consent error is set only after validation passes; submitting ends false |
| Registration.RegistrationForm.HandleInputChange | client/src/components/UserRegistration.js:90-104 | only the named field changes, and only that field's error is cleared, when shown |
| Registration.RegistrationForm.SetAcceptPrivacy | client/src/components/UserRegistration.js:209 | the checkbox sets the consent flag and nothing else |
| DeterministicSession.Clean | src/utils/session.ts:6 | `clean`: the name trimmed, lowered and with all white space removed |
| DeterministicSession.DigitsOf | src/utils/session.ts:7 | the date of birth with every non-digit removed |
| DeterministicSession.GenerateSessionId | src/utils/session.ts:4-8 | `session_`, the clean first name, `_`, the clean last name, `_` and the date's digits |
| DeterministicSession.Keep | src/utils/session.ts:7 | filtering keeps only passing characters and never lengthens |
| DeterministicSession.KeepAppend | src/utils/session.ts:7 | filtering works piecewise, keeping order |
| DeterministicSession.KeepCounts | src/utils/session.ts:7 | every kept character keeps its multiplicity and every other is gone |
| DeterministicSession.KeepAll | src/utils/session.ts:6 | a text whose characters all pass is kept whole |
| DeterministicSession.KeepNone | src/utils/session.ts:6 | a text with no passing character is dropped |
| DeterministicSession.DigitsOfKeepsDigits | src/utils/session.ts:7 | the date part is exactly the digits of the date of birth, each as often as it occurs |
| DeterministicSession.SquashAppend | src/utils/session.ts:6 | lower-and-remove-spaces works piecewise |
| DeterministicSession.SquashBlank | src/utils/session.ts:6 | white space squashes to nothing |
| DeterministicSession.SquashIsNormal | src/utils/session.ts:6 | a squashed text has no white space and no upper case |
| DeterministicSession.SquashNormal | src/utils/session.ts:6 | a normal text squashes to itself |
| DeterministicSession.SquashTrimStart | src/utils/session.ts:6 | trimming leading space first changes nothing after squashing |
| DeterministicSession.SquashTrimEnd | src/utils/session.ts:6 | trimming trailing space first changes nothing after squashing |
| DeterministicSession.CleanIgnoresTrim | src/utils/session.ts:6 | the clean form is the lowered text with all white space removed |
| DeterministicSession.CleanIsNormal | src/utils/session.ts:6 | a cleaned name has no white space and no upper case |
| DeterministicSession.CleanOfNormal | src/utils/session.ts:6 | a normal name is its own clean form |
| DeterministicSession.CleanIdempotent | src/utils/session.ts:6 | cleaning twice is cleaning once |
| DeterministicSession.CleanIgnoresCase | src/utils/session.ts:6 | names equal up to case clean alike |
| DeterministicSession.CleanIgnoresSpaces | src/utils/session.ts:6 | inserting white space anywhere in a name does not change its clean form |
| DeterministicSession.SameIdentitySameId | src/utils/session.ts:4-7 | equal clean names and equal date digits give equal ids |
| DeterministicSession.NormalJoin | src/utils/session.ts:7 | two normal parts joined by `_` are normal |
| DeterministicSession.UnderscoreShiftCollides | src/utils/session.ts:7 | the joints are not escaped: moving an `_` from the end of the first name to the start of the last gives the same id for different people |
| KeywordFlow.IsHealthcareRelated | src/components/Chatbot/ChatFlow.tsx:27-30 | the keyword test: some of the nine keywords occurs in the lowered message |
| KeywordFlow.Echo | src/components/Chatbot/ChatFlow.tsx:24 | the echo answer: the fixed opening, the message and a closing quote |
| KeywordFlow.BotAnswer | src/components/Chatbot/ChatFlow.tsx:18-24 | the answer to one message: the echo for a healthcare message, the fixed redirect text otherwise |
| KeywordFlow.Transcript | src/components/Chatbot/ChatFlow.tsx:15-25 | the list after a run of messages: each message followed by its answer, in order |
| KeywordFlow.SomeContainedIffOccurs | src/components/Chatbot/ChatFlow.tsx:29 | `some(includes)` holds exactly when one of the words is contained |
| KeywordFlow.SomeContainedIffOffset | src/components/Chatbot/ChatFlow.tsx:29 | `some(includes)` holds exactly when a word occurs at some offset |
| KeywordFlow.RelatedIffKeywordOccurs | src/components/Chatbot/ChatFlow.tsx:27-30 | a message is about healthcare exactly when one of the nine keywords occurs in its lowered form |
| KeywordFlow.RelatedIgnoresCase | src/components/Chatbot/ChatFlow.tsx:29 | the test ignores letter case |
| KeywordFlow.EchoQuotesMessage | src/components/Chatbot/ChatFlow.tsx:24 | the echo holds the whole message between its quotes after the fixed opening |
| KeywordFlow.EchoIsNotRedirect | src/components/Chatbot/ChatFlow.tsx:19-24 | an echo is never the redirect text |
| KeywordFlow.EchoInjective | src/components/Chatbot/ChatFlow.tsx:24 | different messages get different echoes |
| KeywordFlow.TranscriptShape | src/components/Chatbot/ChatFlow.tsx:15-25 | after n messages the list has 2n entries: each message at an even position, as sent, and its answer right after |
| KeywordFlow.ChatFlow.constructor | src/components/Chatbot/ChatFlow.tsx:5 | the list starts empty |
| KeywordFlow.ChatFlow.AddUserMessage | src/components/Chatbot/ChatFlow.tsx:7-9 | appends one user entry with the text as given |
| KeywordFlow.ChatFlow.AddBotMessage | src/components/Chatbot/ChatFlow.tsx:11-13 | appends one bot entry with the text as given |
| KeywordFlow.ChatFlow.HandleUserMessage | src/components/Chatbot/ChatFlow.tsx:15-25 | appends the user entry and exactly one answer (redirect for unrelated messages, echo otherwise), keeps earlier entries, and keeps the list equal to the transcript |

## Left out

- Server code is not part of this model. That covers the chat and chat-log handlers, the language-model call, SQL logging and Express wiring. The endpoints appear only as outcomes that `handleSendMessage` receives as parameters.
- Browser storage is a field `slot` of the provider. The JSON encoding is not modelled, and neither is the swallowed parse error, which is folded into "no slot".
- The persist effect is modelled as running when a saved field changes by value. React compares the dependencies by identity, which the model does not capture.
- `Math.random`, `Date.now`, `new Date()` and `toISOString` are parameters:
  - the picked context and style;
  - `now` for the session id;
  - `Stamps` for the message ids and times;
  - `today` and `birth` for the age.
- Date parsing and time zones are not modelled.
  - A date is a (year, month, day) triple.
  - The ISO date string used in the chat client's session id is taken to be the date-of-birth text as the date input gives it.
  - An unparsable date, which would make the age `NaN`, is not modelled.
- Unicode is not modelled. Only ASCII letters are lowered, and only ASCII white space counts for `trim` and `\s`. A Dafny `char` is a Unicode scalar value, while `charCodeAt` and `.length` at client/src/contexts/ChatContext.js:14-15 count UTF-16 code units; the hash therefore agrees with the source only on text within the Basic Multilingual Plane.
- The wording of the welcome text is not used by the provider. The provider takes the template as a function parameter, and only the `*` strip and the heading line are proved about the application's template.
- `await`, React batching and effect timing are not modelled. `handleSendMessage` is one sequential method over an outcome parameter. The model does not capture a second send started before the first finishes; only the input guard excludes that.
- SendFlow.Exchange: a truthy `data.reply` or `data.error` that is not a string is not modelled. `replace` on a non-string throws, and a non-string error is converted to text. Both are outside the modelled string outcomes.
- `onRegister` throwing is not modelled separately. Its error is caught and logged, which has the same effect on the form as returning.
- `handleGoToRegistration`'s page reload, scrolling, tooltips and all presentational markup are not modelled. This includes how the keyword flow renders its list.
- The textarea's own `disabled={disabled || isLoading}` is not modelled; only the guard and the send button are.
- Console logging in the catch blocks is not modelled.
