# Cecy chatbot front end: verified model of its logic

This project is a Dafny model of the parts of the Cecy chatbot app (an Expo / React Native
front end in TypeScript) that hold real logic. It covers:

- the typing reveal of a chat bubble;
- the avatar's mood selection;
- the chat-history state of the `useChat` hook;
- the voice recorder's flag machine;
- the construction of HTTP requests;
- UUID v4 generation;
- the decision logic of Google sign-in.

Each source file is one module, and one more module holds the types they share:

| module | file | form |
|---|---|---|
| `ChatMessage` | `chat_message.dfy` | the class `MessageBubble`, tied to the reveal functions `TypeText` and `AfterFirings` |
| `CecyVisualMode` | `cecy_visual_mode.dfy` | the pure priority rule `SelectState`, plus the class `Avatar` for the effect's state |
| `UseChat` | `use_chat.dfy` | the class `ChatHook`, plus the pure de-duplicating append `Deliver` |
| `VoiceRecorder` | `voice_recorder.dfy` | the class `RecorderButton`, tied to pure handler functions on the `Recorder` flags |
| `Api` | `api.dfy` | pure request construction `BuildRequest` |
| `Uuid` | `uuid.dfy` | pure template filling `Fill` / `GenerateUuidV4`, with its inverse `Unfill` |
| `Auth` | `auth.dfy` | pure decision functions |
| `Common` | `common.dfy` | the `Option`, `Outcome` and `Result` types and JavaScript truthiness of strings, shared by the others |

Calls to code outside the model become inputs of the operations. That code is Supabase, the
chat service, the audio recorder, the permission dialog, the MIME lookup, the web browser, URL
parsing, the token store and `Math.random`. Each input is either the value the call resolves to
or a rejection. The calls a component makes to its parent or to the outside are recorded in
order in an `events` field: `onSpeak`, `onStop`, `stopSpeaking`, the recorder, the upload,
`onTranscription` and `Alert.alert`. Timers are modelled as steps, with no milliseconds.

## Model

| member | source | states |
|---|---|---|
| ChatMessage.MessageBubble.constructor | components/ChatMessage.tsx:35-63 | A user message shows its whole text with no cursor and asks for no speech. A bot message starts with "" and the cursor shown, and has its first timer pending. With sound on, it calls onSpeak exactly once, before any character is shown. |
| ChatMessage.TypeText | components/ChatMessage.tsx:49-57 | One firing keeps the display equal to the prefix of the text whose length is the index. A pending firing does exactly one unit of the remaining work (one character, or hiding the cursor). The last firing hides the cursor and leaves the display as it was. |
| ChatMessage.AfterFirings | components/ChatMessage.tsx:44-59 | After any number of firings the display is the prefix of the text whose length is the index, and the cursor is shown exactly while a timer is pending. |
| ChatMessage.MessageBubble.Step | components/ChatMessage.tsx:49-57 | One timer firing moves the state exactly as `typeText` does: it shows the prefix one character longer and advances the index, or once the index reaches the length it hides the cursor and schedules nothing more. It keeps the invariant that the state is where that many firings put it. |
| ChatMessage.MessageBubble.RevealAll | components/ChatMessage.tsx:49-59 | Letting the timers fire until none is left ends with the whole text shown, no cursor and no timer. The loop terminates. |
| ChatMessage.MessageBubble.SetSpeaking | components/ChatMessage.tsx:65-70 | A new `isSpeaking` prop changes only that value: since the effect depends on the text and isUser alone, the reveal goes on where it was and no callback is made. |
| ChatMessage.MessageBubble.SetSound | components/ChatMessage.tsx:65-70 | A new `sound` prop changes only that value: the effect does not run again, so the reveal and the calls made at mount stay as they were, and only whether the play/stop button is rendered changes. |
| ChatMessage.MessageBubble.PressSpeech | components/ChatMessage.tsx:112-114 | A press on a bot message with sound on calls onStop while speaking and onSpeak otherwise. A press makes no call exactly when the message is the user's or sound is off, since then no button is rendered. |
| ChatMessage.MessageBubble.Teardown | components/ChatMessage.tsx:65-69 | On unmount, onStop is called exactly when the message is a bot message that is speaking now, and nothing else is called. This is the corrected test; see Findings. |
| ChatMessage.AfterFiringsClosedForm | components/ChatMessage.tsx:44-59 | After n firings, with n at most the text's length, the first n characters are shown with the cursor and a timer pending. From the firing after that on, the whole text is shown with no cursor and no timer. |
| ChatMessage.RevealShape | components/ChatMessage.tsx:50-56 | A timer is pending during exactly the first |text| + 1 firings. Once none is pending the whole text is shown. |
| ChatMessage.FiringExtendsDisplay | components/ChatMessage.tsx:50-52 | Each firing keeps what was shown and adds exactly the next character. A reveal that has ended shows the full text. |
| ChatMessage.RevealTerminates | components/ChatMessage.tsx:49-57 | After one firing more than the text has characters, the reveal has ended: full text, no cursor, nothing pending. |
| ChatMessage.EmptyBotText | components/ChatMessage.tsx:50-56 | For an empty bot text, the first firing hides the cursor and the display stays "". |
| ChatMessage.StaleSpeakingMissesStop | components/ChatMessage.tsx:65-70 | The cleanup as written decides on the `isSpeaking` captured when the effect ran. A bot bubble that starts speaking after its effect ran (captured false, now true) therefore gets no onStop, while the corrected test stops it. |
| ChatMessage.AsWrittenAgreesWhileSpeakingUnchanged | components/ChatMessage.tsx:65-70 | The two tests agree whenever the speaking state has not changed since the effect ran. |
| CecyVisualMode.SelectState | components/CecyVisualMode.tsx:49-62 | A pending reply gives thinking whatever else holds. Otherwise a truthy speaking id gives speaking. Otherwise the state is waiting. |
| CecyVisualMode.FindIndex | components/CecyVisualMode.tsx:54 | The index found carries the id and no earlier message does. None means no message carries it. |
| CecyVisualMode.Find | components/CecyVisualMode.tsx:54 | `find` returns the first message of the list that carries the id: it has the id and no earlier message does. It returns none exactly when no message has the id. |
| CecyVisualMode.NextCurrentMessage | components/CecyVisualMode.tsx:49-57 | currentMessage changes only in the speaking branch (no pending reply, truthy speaking id), and then only to the text of a message carrying that id. While a reply is pending or with no truthy id it keeps its old value. |
| CecyVisualMode.StateMessage | components/CecyVisualMode.tsx:140-151 | Every state has a non-empty label. |
| CecyVisualMode.StateColor | components/CecyVisualMode.tsx:153-164 | Every state has a colour written as '#' and six upper-case hexadecimal digits. |
| CecyVisualMode.Avatar.constructor | components/CecyVisualMode.tsx:38-39 | The avatar starts waiting, with currentMessage "". |
| CecyVisualMode.Avatar.UpdateState | components/CecyVisualMode.tsx:48-63 | The effect sets the state by the priority rule. It replaces currentMessage only in the speaking branch, with the found message's text; in every other case currentMessage is left unchanged. Afterwards the bubble (components/CecyVisualMode.tsx:214) shows exactly when no reply is pending, the speaking id is truthy and currentMessage is not "". |
| CecyVisualMode.UserTypingIgnored | components/CecyVisualMode.tsx:58-62 | `isUserTyping` never changes the chosen state. |
| CecyVisualMode.EmptyIdIsNoSpeaker | components/CecyVisualMode.tsx:51 | An empty speaking id selects the same state as no id. |
| CecyVisualMode.StateLabelsAndColors | components/CecyVisualMode.tsx:140-164 | thinking maps to "Pensando..." and #F59E0B, speaking to "Hablando contigo" and #53AB32, and waiting to "Esperando tu mensaje" and #94A3B8. |
| CecyVisualMode.FirstMatch | components/CecyVisualMode.tsx:54 | The search returns the first position carrying the id. |
| CecyVisualMode.BubbleShowsSpokenText | components/CecyVisualMode.tsx:51-57 | When a message with the speaking id exists, currentMessage becomes the text of the first such message. The bubble then shows exactly when that text is non-empty. |
| CecyVisualMode.ThinkingHidesBubble | components/CecyVisualMode.tsx:214 | While a reply is pending the bubble is hidden, whatever currentMessage holds. |
| UseChat.NewChat | services/chat.service.ts:10-17 | A created chat is active and carries the id the store assigns. It carries the user id exactly when that id is truthy, and then that id. Session data is sent exactly when asked for. |
| UseChat.ChatHook.constructor | hooks/useChat.ts:11-14 | The hook starts with no chat, no messages, loading false and no error. |
| UseChat.ChatHook.InitializeChat | hooks/useChat.ts:17-52 | The error is reset at entry and holds "Error al inicializar el chat" after any failure. Loading ends false. The created chat becomes current. The list holds the history loaded last. |
| UseChat.ChatHook.AddMessage | hooks/useChat.ts:55-78 | With no chat it throws "No hay chat activo". A failed insert throws "Error al enviar mensaje". In both cases the list is unchanged. Otherwise the stored message is appended at the end and returned. |
| UseChat.ChatHook.ArchiveChat | hooks/useChat.ts:81-91 | With no chat it does nothing. A failed update throws "Error al archivar chat" and leaves the chat. A successful one changes only the status, to archived. |
| UseChat.ChatHook.StartNewChat | hooks/useChat.ts:94-119 | It asks to archive exactly an active current chat. On success the new chat replaces the old one and the list is emptied. On failure the error is "Error al crear nuevo chat" and nothing else changes. Loading always ends false. |
| UseChat.ChatHook.Receive | hooks/useChat.ts:122-134 | A delivery, which arrives only while a chat is current, applies the de-duplicating append. |
| UseChat.Deliver | hooks/useChat.ts:128-134 | A message whose id is already present leaves the list exactly as it was. Any other message is appended, as delivered, at the end. Either way the ids present afterwards are exactly the earlier ids plus the delivered one. |
| UseChat.DeliverAll | hooks/useChat.ts:128-134 | A run of deliveries keeps the list as a prefix and adds at most one message per delivery. |
| UseChat.DeliverIdempotent | hooks/useChat.ts:130-133 | Delivering the same message twice equals delivering it once. |
| UseChat.DeliverKeepsIdsUnique | hooks/useChat.ts:130-133 | Deliveries keep the ids of the list distinct. |
| UseChat.DeliverAllHasIds | hooks/useChat.ts:128-134 | After a run of deliveries every earlier id and every delivered id is present. |
| UseChat.DeliverAllOfPresentIds | hooks/useChat.ts:130-131 | Deliveries whose ids are all present change nothing. |
| UseChat.DeliverAllTwice | hooks/useChat.ts:128-134 | Replaying a run of deliveries leaves the list as the first run left it. |
| UseChat.DeliverAllKeepsIdsUnique | hooks/useChat.ts:130-133 | A run of deliveries keeps the ids distinct. |
| UseChat.AppendAfterDeliveryDuplicates | hooks/useChat.ts:65-72 | When the real-time delivery of a message is handled before `addMessage` appends that same message, the list holds its id twice: the duplicate check guards the delivery only, not the append. |
| VoiceRecorder.AfterLastDot | components/VoiceRecorder.tsx:119 | `split(".").pop()` gives a suffix of the URI that has no '.'. That suffix is either the whole URI or preceded by a '.'. |
| VoiceRecorder.UploadName | components/VoiceRecorder.tsx:119 | The upload name is "audio." followed by a dot-free ending of the URI. |
| VoiceRecorder.AfterLastDotUnique | components/VoiceRecorder.tsx:119 | That suffix is the only one: the extension is exactly the text after the last '.'. |
| VoiceRecorder.UploadNameOfExtension | components/VoiceRecorder.tsx:119 | A URI ending in "." + ext, where ext has no '.', uploads as "audio." + ext. |
| VoiceRecorder.UploadNameWithoutDot | components/VoiceRecorder.tsx:119 | A URI without '.' is used whole after "audio.". |
| VoiceRecorder.UploadedFile | components/VoiceRecorder.tsx:113-122 | With a URI, the stop uploads one file. Its name is "audio." + extension and its type falls back to "audio/mpeg". |
| VoiceRecorder.RecorderButton.constructor | components/VoiceRecorder.tsx:29-31 | All three flags start false. |
| VoiceRecorder.RecorderButton.LoadPermission | components/VoiceRecorder.tsx:50-55 | The mount effect stores the current permission status. |
| VoiceRecorder.RecorderButton.RequestPermissions | components/VoiceRecorder.tsx:72-78 | It returns and stores the user's answer. A refusal raises "Permisos requeridos" / "Acceso al micrófono denegado.". |
| VoiceRecorder.RecorderButton.Record | components/VoiceRecorder.tsx:80-94 | It stops speech, then prepares the recorder. Only when preparation works does it start the recorder and set isRecording. |
| VoiceRecorder.RecorderButton.StopRecording | components/VoiceRecorder.tsx:96-136 | isRecording clears only after the recorder stops. A missing URI raises the no-audio alert. A failed stop raises the retry-later alert. Otherwise the upload starts with isLoading true. |
| VoiceRecorder.RecorderButton.FinishUpload | components/VoiceRecorder.tsx:122-136 | The reply either calls onTranscription with the text or raises the retry-later alert. isLoading then ends false. |
| VoiceRecorder.RecorderButton.ToggleRecording | components/VoiceRecorder.tsx:139-145 | A press takes the branch given by the busy guard, then the permission gate, then the recording flag. It changes the state exactly as that branch's handler does. |
| VoiceRecorder.AfterRequest | components/VoiceRecorder.tsx:72-78 | `granted` becomes the user's answer and no other flag changes. A call is made (the alert) exactly when the answer is a refusal. |
| VoiceRecorder.AfterRecord | components/VoiceRecorder.tsx:80-94 | `record` calls stopSpeaking before preparing the recorder, and starts the recorder only once preparation worked. Recording is on afterwards exactly when preparation worked or it was on already. The other flags do not change. |
| VoiceRecorder.AfterStop | components/VoiceRecorder.tsx:96-121 | The recorder is always stopped first. isRecording clears exactly when it stopped. isLoading is set exactly when it stopped and left a URI. Without a URI nothing is uploaded and the no-audio alert is raised. |
| VoiceRecorder.AfterUpload | components/VoiceRecorder.tsx:122-136 | isLoading ends false whatever the reply, and no other flag changes. A resolved reply calls onTranscription with the reply's text; a rejected one raises the retry-later alert. Nothing else is called. |
| VoiceRecorder.ToggleAction | components/VoiceRecorder.tsx:139-145 | A press is swallowed exactly while an upload is in flight. It starts or stops only with permission, held before or given now. |
| VoiceRecorder.AfterToggle | components/VoiceRecorder.tsx:139-145 | While the upload is in flight a press changes nothing and makes no call. Calls are only appended. A press that starts or stops leaves permission granted. |
| VoiceRecorder.RefusedPermissionAborts | components/VoiceRecorder.tsx:72-78 | Without permission, a refused request raises the alert, keeps granted false and neither starts nor stops anything. |
| VoiceRecorder.ToggleStopsOrStarts | components/VoiceRecorder.tsx:144 | A press while recording stops the recorder; otherwise it starts by stopping speech. |
| VoiceRecorder.StopAlwaysEndsIdle | components/VoiceRecorder.tsx:96-137 | Whatever the recorder and the request do, stopping ends with isLoading false. onTranscription is called exactly when every step succeeded, and then with the reply's text. A failed stop or a failed request ends with the retry-later alert; a stop that leaves no URI ends with the no-audio alert. |
| Api.CleanParams | api/api.ts:83-85 | The cleaned parameters are exactly the entries whose value is a string, and there are no more of them than of the inputs. |
| Api.BuildRequest | api/api.ts:58-99 | The request goes to the given path, with the given data and the caller's HTTP method when one is given. Its parameters are the cleaned parameters in their original order, so exactly the string-valued entries. It carries an Authorization header exactly when the token is truthy. |
| Api.RequestHeaders | api/api.ts:93-98 | The headers depend on the token and `dataWithFiles` only. A truthy token gives "Bearer " + token. The content type is "multipart/form-data" exactly when `dataWithFiles` is true, and "application/json" otherwise. |
| Api.RequestBaseUrl | api/api.ts:14-20 | The base URL is the `apisUrls` entry for the key: the environment variable whenever it is set, even to "", and the built-in default otherwise. The key defaults to the translation API. |
| Api.CleanParamsAppend | api/api.ts:83-85 | Cleaning distributes over concatenation, so kept entries stay in their original order. |
| Api.CleanParamsKeepsStrings | api/api.ts:83-85 | Entries that all carry strings pass through unchanged. |
| Api.Defaults | api/api.ts:58-65 | With only a path, the request is a POST with no parameters and no data, uses JSON content and goes to the translation API. |
| Api.IgnoredArguments | api/api.ts:58-65 | `responseType`, `extraHeaders` and `transformRequest` never change the request. |
| Api.EmptyTokenIsNoToken | api/api.ts:94 | An empty token sends no Authorization header, the same as no token at all. |
| Uuid.Xs | utils/uuid.ts:4 | A run of n placeholder characters 'x'. |
| Uuid.Hex | utils/uuid.ts:7 | `toString(16)` of a nibble is a lower-case hex digit. |
| Uuid.HexValue | utils/uuid.ts:7 | Every lower-case hex digit is the digit of some nibble. |
| Uuid.VariantNibble | utils/uuid.ts:6 | `(r & 0x3)` or-ed with `0x8` lies in 8..11 and keeps the low two bits of r. |
| Uuid.Replacement | utils/uuid.ts:5-7 | An 'x' becomes the hex digit whose value is the drawn nibble. A 'y' becomes one of 8, 9, a, b that keeps the nibble's low two bits. |
| Uuid.Fill | utils/uuid.ts:4-8 | Replacing the placeholders keeps the length of the template. |
| Uuid.Unfill | utils/uuid.ts:4-8 | Reading the nibbles back from a string that fits the template gives exactly one nibble per placeholder. |
| Uuid.GenerateUuidV4 | utils/uuid.ts:3-9 | The output has 36 characters. |
| Uuid.PlaceholdersAppend | utils/uuid.ts:4 | The placeholder count of a concatenation is the sum of the counts. |
| Uuid.PlaceholdersOfXs | utils/uuid.ts:4 | A run of n 'x' holds n placeholders. |
| Uuid.TemplatePlaceholders | utils/uuid.ts:4 | The template holds 31 placeholders, so 31 random nibbles are drawn. |
| Uuid.TemplateAt | utils/uuid.ts:4 | The template has 36 characters: '-' at 8, 13, 18 and 23, '4' at 14, 'y' at 19 and 'x' elsewhere. |
| Uuid.TemplateIsLiteral | utils/uuid.ts:4 | The template is the source's literal "xxxxxxxx-xxxx-4xxx-yxxx-xxxxxxxxxxxx". |
| Uuid.FillAt | utils/uuid.ts:4-7 | Each non-placeholder character is copied. Each placeholder becomes the hex digit of the next nibble, or of its variant form for 'y'. |
| Uuid.FillMatches | utils/uuid.ts:4-7 | Every fill fits the template. |
| Uuid.FillUnfill | utils/uuid.ts:4-7 | Filling with the nibbles read back from a fitting string gives that string back. |
| Uuid.MatchesTemplateIffUuidV4 | utils/uuid.ts:4 | A string fits the template exactly when it is a lower-case version-4, variant-1 UUID as in section 4.1.1 and section 4.4 of RFC 4122. |
| Uuid.GenerateIsUuidV4 | utils/uuid.ts:3-9 | Every output is such a UUID: the dashes are in place, the version digit is '4' and the variant digit is one of 8, 9, a, b. |
| Uuid.EveryUuidV4IsGenerated | utils/uuid.ts:3-9 | Every such UUID is produced by some choice of 31 nibbles. |
| Uuid.TemplatePrefixPlaceholders | utils/uuid.ts:4 | Before position i the template holds i minus the fixed characters before i placeholders. |
| Uuid.GenerateAt | utils/uuid.ts:4-7 | Character i of the output is '-' at the dash positions and '4' at 14. At 19 it is the variant digit of nibble 15. Elsewhere it is the hex digit of the nibble for that placeholder. |
| Auth.ValidateEmailDomain | services/auth.service.ts:96-100 | True exactly when the e-mail is some text followed by "@cecytem.edu.mx", compared case-sensitively. |
| Auth.CreateSessionFromUrl | services/auth.service.ts:14-28 | An error code is thrown and nothing else happens. Without an access token it returns without a session. Otherwise setSession receives exactly the URL's two tokens; an error it reports is thrown, and the session it returns (possibly null) is returned. |
| Auth.SignInWithGoogle | services/auth.service.ts:31-59 | An OAuth error is rethrown before the browser opens. The browser gets the provider URL, or "" when there is none. A session is attempted exactly when the browser reports success. Sign-in fails exactly when OAuth throws, the browser call rejects, or the session attempt throws, and it rethrows that same error. Any other browser result ends quietly. |
| Auth.UpperCaseDomainRefused | services/auth.service.ts:99 | The domain test is case-sensitive: "ana@CECYTEM.EDU.MX" is refused. |
| Auth.DomainAddressesAccepted | services/auth.service.ts:96-100 | Every address at the domain passes, including the bare domain. |
| Auth.RedirectGateIsExact | services/auth.service.ts:103-111 | Session creation starts exactly off the web, for hostname "auth" and path "callback". A missing hostname or path never starts it, and the comparison is exact ("Auth" and "callback/" are refused). |
| Auth.RedirectWithTokenReachesSetSession | services/auth.service.ts:103-111 | A deep link that passes the gate, with a token and no error code, reaches setSession with the URL's tokens, and only off the web. |

## Left out

- Animations, reanimated shared values, `StyleSheet` and icons are presentation only. The
  model has no floating-point timing.
- The 500 ms initial delay and 20 ms per character of the reveal are left out: firings are steps.
- The reveal timers are never cancelled in the code. The model keeps that behaviour, so a step
  after teardown still updates the bubble.
- The message model has no "written" flag. `handleFinishedWritten`, passed by
  components/ChatMode.tsx:63, is not a prop of `ChatMessage` and is never called.
- Lengths are counted in characters. JavaScript counts UTF-16 code units, which differs
  for characters outside the Basic Multilingual Plane. This does occur: the fallback bot text at
  app/(tabs)/index.tsx:87 holds an emoji, which the app reveals in two firings (one per code
  unit, the first showing half a surrogate pair) and the model in one.
- Time formatting (`toLocaleTimeString`) and the message timestamp are left out.
- ChatMessage.MessageBubble.Teardown: follows the intended test (the current `isSpeaking`), not
  the code as written. The as-written test is `TeardownStopsAsWritten`; see Findings.
- `getRandomInt` and the `Math.random` draw of `generateUUIDv4` are left out. The 31 nibbles
  are an input.
- utils/color.ts (`IsColorLight`) uses floating-point luminance and is not modelled.
- Reading the token from localStorage or SecureStore, and the axios call, are I/O. The token is
  an input and the model stops at the request config.
- Api.CleanParams: the source turns the cleaned entries back into an object with
  `Object.fromEntries`. The model keeps them as a sequence of pairs, which is the same thing for
  a record without repeated keys.
- services/chat.service.ts, api/chat.api.ts, api/voiceRecorder.api.ts and utils/file.ts are thin
  wrappers over Supabase, axios, fetch and FileReader. Their results are inputs.
  `console.error` logging is left out.
- UseChat: subscribing to and unsubscribing from the real-time channel is left out. So is the
  interleaving of a delivery with an `addMessage` that is still awaiting: each operation runs
  to completion. The model still shows the duplicate that the app can produce when the delivery
  is handled before the append (`AppendAfterDeliveryDuplicates`).
- UseChat.ChatHook.InitializeChat: the session data sent to `createChat` (platform, user agent,
  time) is recorded only as present or absent. `useAuth` is reduced to the optional user id.
- VoiceRecorder: haptic feedback, whose errors the code swallows, is left out. So is the
  recorder's audio preset. Handlers that the code does not await (`stopRecording()`/`record()`
  in `toggleRecording`) run to completion, except that the transcription reply is a separate
  step.
- VoiceRecorder.RecorderButton.Record: a failing `prepareToRecordAsync` is an unhandled
  rejection in the code. The model records the calls made and leaves the flags unchanged.
- Auth: `signOut`, `updateUserProfile`, `makeRedirectUri`, `maybeCompleteAuthSession` and
  `Linking.parse` / `getQueryParams` are not modelled. The parses are inputs. That
  `handleAuthRedirect` does not await session creation is left out too.
- UI-only screens and widgets (app/, AuthButton, NeoButton, TypingIndicator, ThinkingDot,
  FloatingParticle, ChatMode) are not part of this model. The `isSpeaking` that ChatMode
  computes as `currentSpeakingId === message.id` is an input of `ChatMessage`.
- Where the app's own documentation and the code differ, the model follows the code. The
  mood priority is "typing, then speaking, then waiting", and `isUserTyping` has no effect.

## Findings

| source | as written | input that shows it | evidently intended | confidence | as-written member | corrected member |
|---|---|---|---|---|---|---|
| components/ChatMessage.tsx:65-70 | The effect's cleanup tests `isSpeaking` as captured when the effect ran. The effect depends only on `message.text` and `message.isUser`, so later changes of the prop are not seen. | A bot message with sound on mounts with isSpeaking false and calls onSpeak. The parent then passes isSpeaking true. When the bubble unmounts, the cleanup sees false and never calls onStop, so the speech goes on. The chat screen stops all speech when it loses focus (app/(tabs)/index.tsx:126-132), which hides the miss on navigation but not on an unmount while the screen stays focused. | Stop the speech when the bubble is speaking at teardown. | medium; not executed | ChatMessage.StaleSpeakingMissesStop | ChatMessage.MessageBubble.Teardown |
