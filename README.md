# Pipecat Cloud images: verified model of the decision logic

This project is a Dafny model of the parts of the Pipecat Cloud images repository that make decisions. Everything else in the repository is deployment glue. The modelled parts are:

- **Speculative-reply gating** in the natural-conversation starter bot. Three frame processors share one notifier.
  - The statement-judge context filter reduces the conversation context to a minimal classification request.
  - The completeness check turns the classifier's `YES`/`NO` into an end-of-turn frame and a notify.
  - The output gate holds the response generator's downstream frames while closed. It releases them in arrival order when the notifier fires, and discards them on an interruption.
  - The three branch predicates are modelled too.
  - The gate's background task ("wait for the notifier, open, flush") is one atomic step of an event machine (`OutputGate.Step`/`Run`). The `OutputGate.OutputGate` class mirrors that machine field for field.
  - `Conversation.ConversationSession` wires the processors to one notifier and runs a whole user turn.
- **The WhatsApp webhook handler** of the local test harness:
  - the verification handshake, including the part of Python's `int()` it relies on (`PythonInt`);
  - the first-match search for a supported call event over nested entries, changes and calls.
- **The feature manager** of the base image: the table of feature statuses, filled in dependency order.
  - Import outcomes, the WhatsApp client's constructor signature and the environment variables are the input value `FeatureManager.Environment`.
  - `FeatureManager.Manager` updates its table in place, method by method. `FeatureManager.Cascade` is the table it ends with.
- **The telephony bots**:
  - the dial-out attempt counter and the per-setting dial requests, shared in `Dialing`;
  - dial-in settings normalisation and the voicemail-detection switch (`DialIn`);
  - the voicemail bot's call-flow flag, dial-out handler and pipeline handler (`ComplexVoicemail`);
  - the plain bot's event handlers (`PstnBot`).
  - The transport is a log of the requests handed to it. The pipeline task is reduced to whether it exists, what was queued into it, and how often it was asked to cancel.

Frames form a closed datatype (`Frames.Frame`). `Frames.IsSystemFrame` names pipecat's system frames: start, cancel, interruption start and stop, user-stopped-speaking and other system frames. `EndFrame` is a control frame, not a system frame. As written, the gate's test for an end frame (`pipecat-starters/natural_conversation/bot.py:309-310`) sits inside its system-frame branch, so it never matches. A closed gate therefore holds an end frame like any data frame, and its background task keeps running (`OutputGate.EndFrameHeldWhileClosed`). The frame class hierarchy itself is library code and is not part of this model.

A pipecat function filter, used in front of two of the parallel branches (`pipecat-starters/natural_conversation/bot.py:432-446`), always lets system frames, end frames and upstream frames through. Only the remaining frames are judged by its predicate (`FrameFilters.FilterPasses`). This rule is library code; the model states it as pipecat defines it. As a consequence:
- `block_user_stopped_speaking` never removes a user-stopped-speaking frame, because that is a system frame (`FrameFilters.PassThroughBranch`).
- The response branch still receives the start, cancel and end frames that its output gate relies on (`FrameFilters.ResponseBranch`).

`wake_check_filter` is defined in the bot but never placed in its pipeline. `CompletenessCheck.CheckFrame` states that the check notifies for exactly the frames it accepts.

## Model

| member | source | states |
|---|---|---|
| `FrameFilters.WakeCheckFilter` | pipecat-starters/natural_conversation/bot.py:385-386 | defined exactly for text frames (other frames have no `text`); true exactly for the text "YES" |
| `FrameFilters.Filtered` | pipecat-starters/natural_conversation/bot.py:432-446 | a function filter pushes on, in their original order, only frames it lets through (system, end and upstream frames always, others when the predicate accepts them), and the whole stream when it lets everything through |
| `FrameFilters.FilteredAppend` | pipecat-starters/natural_conversation/bot.py:432-446 | filtering a stream piece by piece equals filtering it whole |
| `FrameFilters.FilteredMembers` | pipecat-starters/natural_conversation/bot.py:432-446 | a frame reaches a filtered branch iff it is in the stream and the filter lets it through |
| `FrameFilters.PassThroughBranch` | pipecat-starters/natural_conversation/bot.py:410-411 | the predicate rejects user-stopped-speaking frames, yet the branch sees the whole stream unchanged, since those are system frames the filter never holds back |
| `FrameFilters.ResponseBranch` | pipecat-starters/natural_conversation/bot.py:413-419 | the response branch sees a frame iff it is in the stream and is a context, message-list or interruption frame, a system frame, an end frame or an upstream frame; start, cancel and end frames always reach the gate |
| `ContextFilter.TrailingUserStart` | pipecat-starters/natural_conversation/bot.py:245-249 | the walk's stopping point: every message after it is a user message and the one before it is not |
| `ContextFilter.TrailingUserStartUnique` | pipecat-starters/natural_conversation/bot.py:245-249 | any index with that property is the stopping point |
| `ContextFilter.BoundaryAssistant` | pipecat-starters/natural_conversation/bot.py:245-249 | the boundary is the last non-user message: it is kept iff it is an assistant message; a context of user messages only has none; a kept message is always an assistant message of the context |
| `ContextFilter.BoundaryBeforeTurn` | pipecat-starters/natural_conversation/bot.py:245-249 | any context ending in an assistant message followed by user messages keeps exactly that assistant message, and the user's turn starts right after it |
| `ContextFilter.ClassificationRequest` | pipecat-starters/natural_conversation/bot.py:257-269 | no request iff nothing was collected; otherwise classifier instruction, then the assistant message if any, then one user message of the collected texts reversed and joined with spaces |
| `ContextFilter.CollectUserText` | pipecat-starters/natural_conversation/bot.py:241-255 | the backward loop returns the texts of the trailing user block as the walk collects them, and the boundary assistant message |
| `ContextFilter.AbsorbMessage` | pipecat-starters/natural_conversation/bot.py:250-255 | one message's step: a string is appended; a list's text parts are each inserted at the front |
| `ContextFilter.FilterEffects` | pipecat-starters/natural_conversation/bot.py:225-269 | system frames are forwarded in their direction; a message-list frame notifies and is not forwarded; a context frame yields its request downstream or nothing; other frames are dropped; never both a request and a notify |
| `ContextFilter.FilterFrame` | pipecat-starters/natural_conversation/bot.py:225-269 | running the walk produces exactly `FilterEffects` |
| `ContextFilter.CollectedAllStrings` | pipecat-starters/natural_conversation/bot.py:250-251 | with string contents only, the collected texts are the user's turn newest first |
| `ContextFilter.AllStringsRequest` | pipecat-starters/natural_conversation/bot.py:250-269 | with string contents only, the request's user message is the turn in chronological order joined with single spaces |
| `ContextFilter.SinglePartsMessage` | pipecat-starters/natural_conversation/bot.py:252-258 | a single list-valued message is also read in part order |
| `ContextFilter.CollectedEmpty` | pipecat-starters/natural_conversation/bot.py:250-257 | no request iff the trailing block holds no string content and no text part |
| `ContextFilter.MixedContentOrder` | pipecat-starters/natural_conversation/bot.py:250-258 | a list message with parts c, d followed by a string message s gives the user text "s c d", which is not chronological |
| `ContextFilter.SingleUserRequest` | pipecat-starters/natural_conversation/bot.py:257-269 | a context holding one user message t gives the request [instruction, t] |
| `ContextFilter.AnchoredRequest` | pipecat-starters/natural_conversation/bot.py:245-269 | system, assistant, user gives [instruction, that assistant message, the user's reply] |
| `CompletenessCheck.CheckFrame` | pipecat-starters/natural_conversation/bot.py:277-287 | "YES" pushes a user-stopped-speaking frame downstream, then notifies; a notify is always right after that push; nothing is emitted iff the frame is "NO"; any other frame goes on unchanged with its direction |
| `Notifier.EventNotifier.constructor` | pipecat-starters/natural_conversation/bot.py:389 | a new notifier has nothing pending |
| `Notifier.EventNotifier.Notify` | pipecat-starters/natural_conversation/bot.py:283 | a notification is pending afterwards |
| `Notifier.EventNotifier.TryWait` | pipecat-starters/natural_conversation/bot.py:339 | a wait is released iff a notification was pending, and consumes it |
| `Notifier.CoalescedNotify` | pipecat-starters/natural_conversation/bot.py:339 | two notifies before a wait release exactly one wait |
| `OutputGate.InitialGate` | pipecat-starters/natural_conversation/bot.py:291-295 | a new gate is open as configured, holds nothing, has no task, and meets the invariant |
| `OutputGate.Receive` | pipecat-starters/natural_conversation/bot.py:303-331 | system frames are forwarded in their direction; Start clears the buffer and starts the task; Cancel stops it; interruption clears and closes; an end frame, not being a system frame, is treated like data; upstream passes; open forwards; closed appends and forwards nothing; the invariant open ⇒ empty is preserved |
| `OutputGate.Flush` | pipecat-starters/natural_conversation/bot.py:340-343 | the gate ends open and empty, and pushes exactly what it held, in order |
| `OutputGate.RunPreservesInv` | pipecat-starters/natural_conversation/bot.py:291-345 | the invariant holds after any sequence of events |
| `OutputGate.NoPrematureDelivery` | pipecat-starters/natural_conversation/bot.py:318-343 | until a notification arrives, a closed gate stays closed and pushes on no held frame, however often its background task runs |
| `OutputGate.EndFrameHeldWhileClosed` | pipecat-starters/natural_conversation/bot.py:306-321 | a closed gate holds an end frame, pushes nothing, and its task keeps running |
| `OutputGate.HeldOutAppend` | pipecat-starters/natural_conversation/bot.py:327 | the held-frame view of an output distributes over concatenation |
| `OutputGate.StepConserves` | pipecat-starters/natural_conversation/bot.py:303-343 | one step that discards nothing keeps "delivered + held = held before + arrived" |
| `OutputGate.Conservation` | pipecat-starters/natural_conversation/bot.py:303-343 | over any interruption-free run, every holdable frame that arrived is delivered once, in arrival order, or still held |
| `OutputGate.InterruptionDiscards` | pipecat-starters/natural_conversation/bot.py:312-315 | after an interruption and until the next start or interruption, exactly the held frames that arrived after it are delivered or still held, in arrival order |
| `OutputGate.StepKeepsOrder` | pipecat-starters/natural_conversation/bot.py:303-343 | any one step, discarding or not, delivers or keeps only held frames that were held or arriving, in order |
| `OutputGate.RunKeepsOrder` | pipecat-starters/natural_conversation/bot.py:303-343 | over any run, interruptions and restarts included, the held frames delivered and still held form a subsequence of those held at the start and those that arrived: nothing duplicated, invented or reordered |
| `OutputGate.InterruptedFramesNeverDelivered` | pipecat-starters/natural_conversation/bot.py:312-315 | after an interruption, whatever follows, every held frame delivered or still held arrived after it, in arrival order; nothing held before it is ever delivered |
| `OutputGate.LateVerdictAfterInterruption` | pipecat-starters/natural_conversation/bot.py:312-343 | two held frames, an interruption, then a notify: the gate opens but pushes only the interruption frame |
| `OutputGate.OutputGate.constructor` | pipecat-starters/natural_conversation/bot.py:291-295 | the object starts in `InitialGate(startOpen)` with nothing pushed |
| `OutputGate.OutputGate.CloseGate` | pipecat-starters/natural_conversation/bot.py:297-298 | the gate is closed afterwards |
| `OutputGate.OutputGate.OpenGate` | pipecat-starters/natural_conversation/bot.py:300-301 | the gate is open afterwards |
| `OutputGate.OutputGate.ProcessFrame` | pipecat-starters/natural_conversation/bot.py:303-327 | the new state and the pushed frames are those of `Receive`; the invariant is kept |
| `OutputGate.OutputGate.StartTask` | pipecat-starters/natural_conversation/bot.py:329-331 | the buffer is cleared and the task runs |
| `OutputGate.OutputGate.StopTask` | pipecat-starters/natural_conversation/bot.py:333-334 | the task no longer runs |
| `OutputGate.OutputGate.RunGateTask` | pipecat-starters/natural_conversation/bot.py:336-343 | the flush loop's result is the event machine's `GateTaskRuns` step: with the task running and a notification pending, the notification is consumed and the held frames are pushed in order |
| `Conversation.Pushes` | pipecat-starters/natural_conversation/bot.py:229-287 | the frames an effect list pushes, no more than its length, each from a push effect |
| `Conversation.PushesSnoc` | pipecat-starters/natural_conversation/bot.py:229-287 | pushing one more effect extends the pushed frames by its frame, if any |
| `Conversation.ConversationSession.constructor` | pipecat-starters/natural_conversation/bot.py:389-408 | one fresh notifier shared with a gate that starts open and holds nothing |
| `Conversation.ConversationSession.Apply` | pipecat-starters/natural_conversation/bot.py:229-287 | carrying out effects appends exactly their pushes and leaves a notification pending iff one was pending or the effects notify |
| `Conversation.ConversationSession.JudgeReceives` | pipecat-starters/natural_conversation/bot.py:225-269 | the context filter's output is `FilterEffects`; it notifies iff the frame is a message-list frame |
| `Conversation.ConversationSession.VerdictReceives` | pipecat-starters/natural_conversation/bot.py:277-287 | the completeness check's output is `CheckFrame`; it notifies iff the frame is "YES" |
| `Conversation.ConversationSession.IdleTimeout` | pipecat-starters/natural_conversation/bot.py:399-404 | the idle callback leaves a notification pending |
| `Conversation.ConversationSession.GateReceives` | pipecat-starters/natural_conversation/bot.py:303-327 | the gate reacts as `Receive` says |
| `Conversation.ConversationSession.GateTaskTurn` | pipecat-starters/natural_conversation/bot.py:336-343 | the gate and the shared notifier move as the `GateTaskRuns` step says |
| `Conversation.AnswerHeldWhileSpeaking` | pipecat-starters/natural_conversation/bot.py:303-327 | after start and an interruption, the generator's early answer is held and only Start and the interruption were pushed |
| `Conversation.UserTurn` | pipecat-starters/natural_conversation/bot.py:225-343 | one turn end to end: the classifier receives [instruction, what was said], the check emits the end-of-turn frame, and the held answer is delivered after Start and the interruption |
| `PythonInt.ParseInt` | local-test/whatsapp_request_handler.py:119 | `int(text)` after stripping whitespace: accepted iff the text is well-grouped digits with at most one sign in front; digits give their decimal value, a '+' the same, a '-' its negation; everything else, blank text included, is rejected |
| `PythonInt.ParseDecimal` | local-test/whatsapp_request_handler.py:119 | every integer's decimal text parses back to that integer |
| `PythonInt.PaddingIgnored` | local-test/whatsapp_request_handler.py:119 | surrounding whitespace does not change the result |
| `PythonInt.GroupedDigitsParse` | local-test/whatsapp_request_handler.py:119 | " 1_000 " parses to 1000 |
| `PythonInt.DoubledUnderscoreRejected` | local-test/whatsapp_request_handler.py:119 | two underscores in a row are rejected, signed or not |
| `PythonInt.TrailingUnderscoreRejected` | local-test/whatsapp_request_handler.py:119 | a trailing underscore is rejected, signed or not |
| `PythonInt.BlankRejected` | local-test/whatsapp_request_handler.py:119 | whitespace-only text is rejected |
| `WhatsApp.HandleVerifyWebhookRequest` | local-test/whatsapp_request_handler.py:109-119 | succeeds iff mode is "subscribe", the challenge is present and non-empty, the token equals the expected one (two absent tokens are equal), and the challenge is an integer; it then returns that integer; checks come before parsing |
| `WhatsApp.HandshakeEchoesChallenge` | local-test/whatsapp_request_handler.py:112-119 | a handshake with mode "subscribe", the expected token and the decimal text of n answers n |
| `WhatsApp.EventFor` | local-test/whatsapp_request_handler.py:127-138 | "connect" gives NEW_CALL and "terminate" gives TERMINATE_CALL, each for the call's own id; any other event gives nothing |
| `WhatsApp.FirstSupported` | local-test/whatsapp_request_handler.py:124-138 | the reference: the index of the first call with a supported event, all earlier calls unsupported |
| `WhatsApp.FirstInCallsIsFirstSupported` | local-test/whatsapp_request_handler.py:126-138 | the innermost loop returns the event of the first supported call |
| `WhatsApp.FirstInCallsAppend` | local-test/whatsapp_request_handler.py:124-138 | searching a concatenation: the first list's match wins, otherwise the second's |
| `WhatsApp.FirstInChangesFlat` | local-test/whatsapp_request_handler.py:125-138 | the loop over changes equals a search of all their calls in order |
| `WhatsApp.FirstInEntriesFlat` | local-test/whatsapp_request_handler.py:124-138 | the loop over entries equals a search of all their calls in order |
| `WhatsApp.WebhookFirstMatch` | local-test/whatsapp_request_handler.py:121-141 | the handler answers the event of the first supported call in entry, change, call order, and fails with "no supported event" iff there is none, empty lists included |
| `FeatureManager.GuardedInfo` | pipecat-base/feature_manager.py:84-103 | import success gives ENABLED and an `ImportError` gives DISABLED; no ERROR path |
| `FeatureManager.CheckedInfo` | pipecat-base/feature_manager.py:125-158 | ENABLED, DISABLED or ERROR iff the import succeeds, raises `ImportError` or raises anything else |
| `FeatureManager.RequirementsDefault` | pipecat-base/feature_manager.py:28-38 | records are normalised on creation: rebuilding one from its fields gives it back, and absent and empty requirement lists give the same record |
| `FeatureManager.MissingVars` | pipecat-base/feature_manager.py:230 | a variable is listed iff it is required and unset or empty |
| `FeatureManager.MissingVarsAppend` | pipecat-base/feature_manager.py:230 | the variables are checked one by one: the missing ones of a concatenation are those of each part, so they are listed in declared order |
| `FeatureManager.WhatsAppInfo` | pipecat-base/feature_manager.py:209-264 | DISABLED iff the import raises `ImportError`, with its message; ERROR iff it raises anything else, with its message, or the client lacks the secret parameter; ENABLED iff imported, the client takes the secret and no variable is missing; MISSING_CONFIG, naming the missing variables comma-separated, iff only variables are missing; all three variables listed as requirements when the checks ran |
| `FeatureManager.SmallWebrtcStage` | pipecat-base/feature_manager.py:105-123 | the stage writes the transport, patch and WhatsApp records and leaves every other record as it was; without session support all three say so; with it the transport's own check stands; without the transport the other two say so; with it their own checks stand |
| `FeatureManager.Cascade` | pipecat-base/feature_manager.py:42-123 | all six keys recorded; the built-in transports enabled; without the session support everything after it is DISABLED with that reason; with it but no transport, patch and WhatsApp are DISABLED with the transport reason; WhatsApp or patch enabled ⇒ transport enabled ⇒ session enabled |
| `FeatureManager.EveryFeatureRecorded` | pipecat-base/feature_manager.py:42-123 | every feature key has a record after construction |
| `FeatureManager.EnabledAfterConstruction` | pipecat-base/feature_manager.py:42-123 | after construction a feature is enabled iff the dependency graph says so: built-in transports always; the session support iff its import works; the transport iff, in addition, it loads; the patch and WhatsApp iff, in addition to the transport, their own checks pass |
| `FeatureManager.MissingConfigMessage` | pipecat-base/feature_manager.py:230-240 | with the token unset and the secret empty, WhatsApp is MISSING_CONFIG and the message names those two in declared order |
| `FeatureManager.Manager.constructor` | pipecat-base/feature_manager.py:42-45 | construction leaves exactly the `Cascade` table |
| `FeatureManager.Manager.IsEnabled` | pipecat-base/feature_manager.py:280-283 | true iff the key has a record whose status is ENABLED; on a freshly constructed manager, true iff the dependency graph `EnabledFor` allows the feature |
| `FeatureManager.Manager.CreateDefaultFeatures` | pipecat-base/feature_manager.py:47-59 | the loop records both built-in transports as ENABLED |
| `FeatureManager.Manager.DetectFeatures` | pipecat-base/feature_manager.py:61-64 | the session record, then the cascade |
| `FeatureManager.Manager.DetectPipecatcloudFeatures` | pipecat-base/feature_manager.py:84-103 | writes the session record only |
| `FeatureManager.Manager.DetectSmallwebrtcFeatures` | pipecat-base/feature_manager.py:105-123 | reading back its own writes, leaves exactly `SmallWebrtcStage` |
| `FeatureManager.Manager.DetectSmallwebrtcTransport` | pipecat-base/feature_manager.py:125-158 | writes the transport record only |
| `FeatureManager.Manager.DetectSmallwebrtcPatch` | pipecat-base/feature_manager.py:160-179 | writes the patch record only |
| `FeatureManager.Manager.DetectWhatsAppFeatures` | pipecat-base/feature_manager.py:209-264 | writes the WhatsApp record only |
| `FeatureManager.Manager.CreateDisabledSmallwebrtcFeatures` | pipecat-base/feature_manager.py:181-193 | writes a DISABLED transport record with the reason |
| `FeatureManager.Manager.CreateDisabledSmallwebrtcPatchFeatures` | pipecat-base/feature_manager.py:195-207 | writes a DISABLED patch record with the reason |
| `FeatureManager.Manager.CreateDisabledWhatsAppFeature` | pipecat-base/feature_manager.py:266-278 | writes a DISABLED WhatsApp record with the reason |
| `Dialing.RequestFor` | pipecat-starters/pstn_sip/bot_complex_voicemail.py:185-204 | a phone number wins and carries the caller id only if one is given; otherwise the SIP URI; a setting with neither is skipped |
| `Dialing.DialRequests` | pipecat-starters/pstn_sip/bot_complex_voicemail.py:184-204 | one round issues at most one request per setting |
| `Dialing.DialRequestsAppend` | pipecat-starters/pstn_sip/bot_complex_voicemail.py:184-204 | a round over two lists is the round over the first followed by the round over the second; so requests follow list order and skipped settings leave no gap |
| `Dialing.DialRequestsSingle` | pipecat-starters/pstn_sip/bot_complex_voicemail.py:184-204 | one setting gives its request, or nothing when it names no target |
| `Dialing.EveryTargetDialed` | pipecat-starters/pstn_sip/bot_complex_voicemail.py:184-204 | when every setting names a target, the round is those settings' requests, one each, in list order |
| `Dialing.RoundsLength` | pipecat-starters/pstn_sip/bot_complex_voicemail.py:175-204 | n rounds issue n times a round's requests |
| `Dialing.DialingRounds` | pipecat-starters/pstn_sip/bot_complex_voicemail.py:175-181 | rounds dialed after `count` starts: never more than the count or the maximum; none for a negative maximum; every start dials while within the maximum |
| `Dialing.BoundedDialing` | pipecat-starters/pstn_sip/bot_complex_voicemail.py:175-181 | however often dialing is started, at most the maximum number of rounds reach the transport |
| `DialIn.FirstTruthy` | pipecat-starters/pstn_sip/bot_complex_voicemail.py:498-510 | `a.get(k) or a.get(k2)`: the first key's non-empty value wins, otherwise the fallback's value; absent iff the first key is missing or empty and the fallback key is missing |
| `DialIn.NormaliseDialin` | pipecat-starters/pstn_sip/bot_complex_voicemail.py:493-503 | with dial-in settings absent or empty nothing is derived; otherwise the dialled and caller numbers take the capitalised key when it holds a non-empty string, else the lower-case key, absent only when that is missing too, and call settings are derived |
| `DialIn.NormaliseDialinTupled` | pipecat-starters/pstn_sip/bot.py:48-63 | the plain bot's phone numbers are one-element tuples |
| `DialIn.TupledAgreesWithPlain` | pipecat-starters/pstn_sip/bot.py:51-60 | both bots read the same fields; the plain bot only wraps the phone numbers |
| `DialIn.KeyPrecedence` | pipecat-starters/pstn_sip/bot_complex_voicemail.py:504-510 | the call id and call domain take the camelCase key when it holds a non-empty string, else the snake_case key, absent only when that is missing too |
| `DialIn.HandlersFor` | pipecat-starters/pstn_sip/bot_complex_voicemail.py:661-677 | a dial-in handler iff dial-in settings were derived, a dial-out handler iff there are dial-out settings, always the general handler |
| `DialIn.VoicemailFlowHasDialer` | pipecat-starters/pstn_sip/bot_complex_voicemail.py:515-519 | voicemail detection is on iff it is asked for and a dial-out handler exists; without dial-out settings the bot stays in standard conversation mode |
| `ComplexVoicemail.CallFlowState.constructor` | pipecat-starters/pstn_sip/bot_complex_voicemail.py:63-64 | no human detected at first |
| `ComplexVoicemail.CallFlowState.SetHumanDetected` | pipecat-starters/pstn_sip/bot_complex_voicemail.py:66-68 | a human is detected afterwards; nothing resets it |
| `ComplexVoicemail.DialOutHandler.constructor` | pipecat-starters/pstn_sip/bot_complex_voicemail.py:145-166 | maximum 5 by default, counter 0, nothing dialed |
| `ComplexVoicemail.DialOutHandler.StartDialout` | pipecat-starters/pstn_sip/bot_complex_voicemail.py:168-182 | every call counts; within the maximum one round is dialed; the log stays one round per counted attempt within the maximum |
| `ComplexVoicemail.DialOutHandler.DialEverySetting` | pipecat-starters/pstn_sip/bot_complex_voicemail.py:184-204 | one round hands the transport exactly the requests of `Dialing.DialRequests`, in list order, and changes nothing else |
| `ComplexVoicemail.DialOutHandler.OnDialoutError` | pipecat-starters/pstn_sip/bot_complex_voicemail.py:226-230 | an error retries through the same counter |
| `ComplexVoicemail.RetriesAreBounded` | pipecat-starters/pstn_sip/bot_complex_voicemail.py:150-230 | whatever the number of errors, at most five rounds are dialed |
| `ComplexVoicemail.InitialMessages` | pipecat-starters/pstn_sip/bot_complex_voicemail.py:327-331 | the context starts with the system prompt iff there is a non-empty prompt |
| `ComplexVoicemail.PipelineHandler.constructor` | pipecat-starters/pstn_sip/bot_complex_voicemail.py:300-323 | not running, no task, no runner, no context |
| `ComplexVoicemail.PipelineHandler.SetupLlmContext` | pipecat-starters/pstn_sip/bot_complex_voicemail.py:325-342 | the context is built from `InitialMessages` |
| `ComplexVoicemail.PipelineHandler.GetContextAggregator` | pipecat-starters/pstn_sip/bot_complex_voicemail.py:413-416 | the context is built only when there is none, and returned |
| `ComplexVoicemail.PipelineHandler.CreateTask` | pipecat-starters/pstn_sip/bot_complex_voicemail.py:360-372 | a task exists afterwards |
| `ComplexVoicemail.PipelineHandler.BeginRun` | pipecat-starters/pstn_sip/bot_complex_voicemail.py:376-378 | a runner exists and the handler is running |
| `ComplexVoicemail.PipelineHandler.EndRun` | pipecat-starters/pstn_sip/bot_complex_voicemail.py:379-388 | finished, cancelled or raised, the handler ends not running with no task and no runner |
| `ComplexVoicemail.PipelineHandler.Start` | pipecat-starters/pstn_sip/bot_complex_voicemail.py:374-388 | a whole run ends not running with no task and no runner |
| `ComplexVoicemail.PipelineHandler.Stop` | pipecat-starters/pstn_sip/bot_complex_voicemail.py:390-411 | running with a task: cancel, and stop counting as running unless the cancel raised; a task not running: dropped; no task: nothing changes |
| `ComplexVoicemail.PipelineHandler.QueueContextFrame` | pipecat-starters/pstn_sip/bot_complex_voicemail.py:418-432 | the context is queued iff a task and a context exist |
| `ComplexVoicemail.ContextBuiltOnce` | pipecat-starters/pstn_sip/bot_complex_voicemail.py:413-416 | two requests for the context return the same one |
| `ComplexVoicemail.StopDuringRun` | pipecat-starters/pstn_sip/bot_complex_voicemail.py:374-411 | a stop during a run, then the run's end, leave the handler clean, with one cancel |
| `PstnBot.CallSession.constructor` | pipecat-starters/pstn_sip/bot.py:48-70 | counter 0; the dial-in flag is whether dial-in settings were derived |
| `PstnBot.CallSession.StartDialout` | pipecat-starters/pstn_sip/bot.py:153-180 | every call bumps the counter; within five, each target is dialed in list order; absent settings raise before dialing |
| `PstnBot.CallSession.OnDialoutError` | pipecat-starters/pstn_sip/bot.py:197-200 | an error retries through the same counter |
| `PstnBot.CallSession.OnCallStateUpdated` | pipecat-starters/pstn_sip/bot.py:233-240 | "joined" with dial-out settings starts the dial-out; "left" cancels the task |
| `PstnBot.CallSession.OnFirstParticipantJoined` | pipecat-starters/pstn_sip/bot.py:242-251 | the participant is transcribed; the context is queued only on a dial-in call |
| `PstnBot.DialingStaysBounded` | pipecat-starters/pstn_sip/bot.py:69-70 | at most five rounds reach the transport |
| `PstnBot.JoinThenErrors` | pipecat-starters/pstn_sip/bot.py:153-240 | joining, then six errors: the counter is 7 and exactly five rounds were dialed |

## Left out

- Services, transports, pipeline tasks, runners and the parallel pipeline are library objects. Only the frames they are handed are modelled, as output logs. Transcription capture is a list of participant ids.
- The pipecat frame class hierarchy is a closed datatype. Which frames are system frames, and the function filter's pass-through rule, follow pipecat and are not derived from its code.
- The event notifier's internals are reduced to one pending flag.
- The idle processor's 5-second timer is reduced to an `IdleTimeout` event.
- The gate's background task is an asyncio task. Its interleaving with `process_frame` during a flush is not modelled: one task turn (wait, open, flush) is atomic.
- A second `StartFrame`, which would start a second task, is not modelled.
- `OutputGate.OutputGate.StopTask`: cancelling the task is reduced to clearing the running flag. A cancel arriving before any start, which raises because no task exists yet, is not modelled.
- `FrameFilters.Filtered`: the filter's optional `filter_system_frames` and direction parameters are not modelled. The bot uses the defaults: filtering downstream, system frames passed.
- `PythonInt.ParseInt`: only ASCII whitespace and ASCII digits are modelled. Python also accepts other Unicode whitespace and decimal digits. Python's limit on decimal text longer than 4300 digits, which raises `ValueError`, is not modelled: every length is accepted.
- `FeatureManager.MissingVars`: its own contract states which variables are listed; the order they are listed in is stated by `FeatureManager.MissingVarsAppend`.
- `Dialing.DialRequests`: its own contract bounds the number of requests only; their order, and the skipping of settings with no target, is stated by `Dialing.DialRequestsAppend`, `Dialing.DialRequestsSingle` and `Dialing.EveryTargetDialed`.
- `WhatsApp.HandleVerifyWebhookRequest`: both failures raise `ValueError` in the source. The model keeps them apart as `VerificationFailed` and `ChallengeNotAnInteger`.
- The WhatsApp payload models' validation (pydantic parsing, the `from` alias) is not modelled. The handler receives already-parsed values.
- Logging is not modelled in any file, including the feature summary and the "no supported event" warning.
- `FeatureManager.Cascade`: an exception other than `ImportError` from the session or patch import escapes the constructor. The model's `GuardedImport` cannot express it.
- `FeatureManager.Environment`: the import, signature and environment checks are the environment's answers. How they are obtained (module import, `inspect.signature`, `os.environ`) is not modelled.
- `ComplexVoicemail.PipelineHandler.SetupLlmContext`: function registration with the LLM service and the tool list are not modelled.
- `create_pipeline` and the bodies of the voicemail bot's event handlers (pipeline stops on call state "left" and participant departure) are not modelled; which handlers are created is (`DialIn.HandlersFor`). Nor is the post-start flow of the voicemail bot's `main` (pipeline selection, voicemail and human-conversation handlers, call transfer).
- Every JSON body value is reduced to what the bots test. A dial-in settings dictionary and a dial-out list count as present when non-empty. `voicemail_detection` is reduced to its truthiness.
- Dial settings are dictionaries of text values.
- The `start` of a pipeline handler is split at its one suspension point into `BeginRun` and `EndRun`, so that a `Stop` can come between them.
