# Yatri tourist-safety app: login, map sheet and support chat

A Dafny model of the three pieces of sequential logic in the Yatri React
Native front-end, with proofs of what each promises.

- **Login** (`login.dfy`, `Components/Login.tsx`): the sign-in form, the
  "forgot password" card and the six-cell one-time-password (OTP) card.
  `LoginScreen` is a class whose fields are the component's state
  (`digitalId`, `password`, `forgotMode`, `showOtp`, `otp`, `loading`,
  `otpLoading`). Each delayed completion of a `setTimeout` is its own step
  (`LoginTimerFires`, `VerifyTimerFires`). Scheduled timers are fields: a
  counter for sign-in, and a first-in-first-out queue of entered codes for
  verification, since timers with equal delays fire in the order they were
  set. Alerts and navigation are returned as `Effect` values.
- **Map** (`map_screen.dfy`, `Components/Map.tsx`): the bottom sheet's snap
  rule on release is the pure function `SnapChoice`. It picks the nearest of
  three anchors, with ties going to MAX, then MID. It is proved to be the
  unique "nearest, earliest in tie-break order" snap point, and to leave a
  sheet released at an anchor where it is. `MapFrontPage` is a class holding
  the remembered resting offset, the animated value's offset and value, and
  the map region.
- **Support** (`support.dfy`, `Components/Support.tsx`): the chat's state is
  the value `Chat`. `SendStepOf`, `AfterSend`, `AfterReply` and `SendToEnd`
  are its transition functions, and lemmas prove `sendMessage`'s promises on
  them. The class `SupportScreen` runs `sendMessage` statement by statement.
  It is split at the `await` into `SendMessage` and `ReceiveReply`, and each
  is proved to produce exactly the state the functions give. The chatbot
  call is the parameter `RemoteOutcome`: a response with a status and an
  optional text, or an exception.
- **Strings** (`strings.dfy`): the JavaScript string operations these rely
  on. `trim` strips ECMAScript whitespace and line terminators.
  `toLowerCase` is ASCII-only. `includes` is a substring test.

Sheet offsets are reals and sheet heights are integers. Positions and
latitudes are reals.

## Model

| member | source | states |
|---|---|---|
| Strings.TrimStartSpec | Components/Login.tsx:70 | trimming the start removes the longest blank prefix: the rest is a suffix that does not start with whitespace |
| Strings.TrimEndSpec | Components/Support.tsx:47 | trimming the end removes the longest blank suffix: the rest is a prefix that does not end with whitespace |
| Strings.TrimSpec | Components/Login.tsx:86 | `trim()` is the slice of its input between a blank prefix and a blank suffix, and it neither starts nor ends with whitespace |
| Strings.TrimEmptyIffBlank | Components/Login.tsx:70 | `s.trim()` is empty exactly when `s` is whitespace only, which is the meaning of every blank-field check |
| Strings.AsciiLower | Components/Support.tsx:56 | lower-casing leaves no upper-case ASCII letter, shifts A-Z by 32 and keeps every other character |
| Strings.ToLower | Components/Support.tsx:56 | `toLowerCase()` keeps the length and lower-cases character by character |
| Strings.ToLowerIdempotent | Components/Support.tsx:56 | lower-casing twice equals lower-casing once |
| Strings.IncludesIff | Components/Support.tsx:56 | `includes(sub)` holds exactly when `sub` occurs at some index |
| Login.VisibleCards | Components/Login.tsx:159-253 | for every pair of mode flags exactly one card renders; the OTP card shows iff `showOTP`, the forgot card iff `forgotMode` without `showOTP` |
| Login.ShownCard | Components/Login.tsx:159-253 | the selected card is the one element of the rendered set |
| Login.JoinOfShortCells | Components/Login.tsx:126-129 | joining cells of at most one character gives at most one character per cell, and when the length is full, cell i is character i |
| Login.JoinOfSingleChars | Components/Login.tsx:126 | joining one-character cells spells their characters in order |
| Login.OtpMatchesIff | Components/Login.tsx:97-105 | the joined cells equal "123456" exactly when cell i holds the i-th digit; any empty cell means failure |
| Login.LoginScreen.constructor | Components/Login.tsx:28-34 | empty fields, both flags off (login card), six empty cells, nothing loading |
| Login.LoginScreen.EditDigitalId | Components/Login.tsx:171 | the Digital ID becomes the typed text |
| Login.LoginScreen.EditPassword | Components/Login.tsx:187 | the password becomes the typed text |
| Login.LoginScreen.HandleLogin | Components/Login.tsx:69-76 | a blank ID or password gives the error alert and leaves loading and timers unchanged; otherwise loading starts and one sign-in timer is scheduled |
| Login.LoginScreen.LoginTimerFires | Components/Login.tsx:77-81 | the sign-in timer clears loading and navigates to Dash |
| Login.LoginScreen.OpenForgot | Components/Login.tsx:211 | sets `forgotMode`, showing the forgot card unless the OTP card is open |
| Login.LoginScreen.BackFromForgot | Components/Login.tsx:247 | clears `forgotMode`, showing the login card unless the OTP card is open |
| Login.LoginScreen.BackFromOtp | Components/Login.tsx:281-285 | clears both flags, so the login card shows |
| Login.LoginScreen.HandleForgot | Components/Login.tsx:85-91 | a blank ID gives the error alert and leaves `showOTP` unchanged; otherwise the OTP card opens |
| Login.LoginScreen.HandleVerifyOtp | Components/Login.tsx:94-97 | verification loading starts and the entered code is queued for its timer |
| Login.LoginScreen.PressVerify | Components/Login.tsx:269-272 | "Verify Code" queues the join of the current cells |
| Login.LoginScreen.EditOtpCell | Components/Login.tsx:121-129 | only cell `index` changes and six cells remain; auto-verify fires exactly when cell 5 receives non-empty text, and it queues the join of the updated cells |
| Login.LoginScreen.VerifyTimerFires | Components/Login.tsx:97-108 | the oldest queued code is checked and loading stops; "123456" gives the success alert leading to Dash with the cells kept, and anything else gives the error alert and empties all six cells |
| MapScreen.SnapChoice | Components/Map.tsx:74-91 | the chosen snap point is at minimum distance from `lastTranslateY + dy`, and no equally near point precedes it in the order MAX, MID, MIN |
| MapScreen.SnapChoiceIsPreferredNearest | Components/Map.tsx:78-90 | the release rule is exactly "nearest anchor, ties to MAX then MID": a snap point meets that description iff it is the one chosen |
| MapScreen.SnapAtAnchorStays | Components/Map.tsx:76-90 | with strictly ordered sheet heights, releasing with no drag at an anchor picks that same anchor |
| MapScreen.ClaimsGesture | Components/Map.tsx:66 | the pan gesture is claimed exactly when the vertical move exceeds 8 in either direction |
| MapScreen.FollowPosition | Components/Map.tsx:118-122 | a watch update sets latitude and longitude and keeps both deltas |
| MapScreen.FollowPositionTwice | Components/Map.tsx:115-124 | two watch updates equal the last one alone |
| MapScreen.MapFrontPage.constructor | Components/Map.tsx:32-52 | the sheet starts at rest at the MIN anchor, and the region starts as the all-India view |
| MapScreen.MapFrontPage.AnimateSheetTo | Components/Map.tsx:54-62 | aimed at an anchor, as every caller does (Map.tsx:85, 87, 89, 96), the target becomes the remembered resting offset and the value the spring settles at, so the resting offset stays an anchor |
| MapScreen.MapFrontPage.Mount | Components/Map.tsx:95-96 | on mount the sheet rests at the MID anchor |
| MapScreen.MapFrontPage.Grant | Components/Map.tsx:67-70 | a granted gesture puts the offset at the resting offset and the value at 0, so the sheet does not jump |
| MapScreen.MapFrontPage.Move | Components/Map.tsx:71-73 | during a drag the sheet sits at the offset plus `dy` |
| MapScreen.MapFrontPage.Release | Components/Map.tsx:74-91 | the offset is flattened and the sheet comes to rest at the chosen anchor, which becomes the new resting offset (always an anchor) |
| MapScreen.MapFrontPage.FirstFix | Components/Map.tsx:107-113 | the first fix centres the map with deltas 0.05 |
| MapScreen.MapFrontPage.WatchUpdate | Components/Map.tsx:115-124 | each watch update replaces the region by its re-centred copy |
| Support.IncludesAnyIff | Components/Support.tsx:55-56 | `keywords.some(k => s.includes(k))` holds exactly when some keyword is included |
| Support.IsEmergencyIff | Components/Support.tsx:55-56 | a message is an emergency iff one of "help", "sos", "emergency", "danger", "lost" occurs in its lower-cased text |
| Support.EmergencyIgnoresCase | Components/Support.tsx:56 | the emergency test gives the same answer on the lower-cased text |
| Support.KeywordAnywhereIsEmergency | Components/Support.tsx:55-56 | text holding a keyword in any ASCII case, even inside a longer word, is an emergency |
| Support.RemoteReplyText | Components/Support.tsx:93-110 | the bot's reply is never empty and is the network-error text, the fallback, or the response's own text; a failed call gives the error text; a good call gives its non-empty text, or the fallback when the text is missing or empty |
| Support.Exchange | Components/Support.tsx:49-110 | an accepted send adds two messages: the user's text as typed, then one non-empty bot message, the emergency reply or the remote reply |
| Support.InitialChatIsGreeting | Components/Support.tsx:28-36 | the chat opens with exactly one message, the bot's greeting, and nothing sending |
| Support.BlankInputIgnored | Components/Support.tsx:47 | a send is ignored exactly when the input is blank, and then nothing changes |
| Support.AcceptedSendAppendsUserMessage | Components/Support.tsx:49-51 | an accepted send keeps the earlier messages, appends the untrimmed input as a user message and clears the box |
| Support.EmergencyAnsweredLocally | Components/Support.tsx:58-64 | an emergency appends the user's message and the fixed reply, with sending off and no request in flight; anything else leaves a request in flight with sending on |
| Support.StepsKeepInvariant | Components/Support.tsx:46-113 | both halves of the send keep the greeting first and keep `isSending` true exactly while a reply is awaited |
| Support.SendAddsOneExchange | Components/Support.tsx:46-113 | every accepted send, on every path, grows the log by exactly the user's message and one bot message at the end, and ends with sending off and the box empty |
| Support.SupportScreen.constructor | Components/Support.tsx:28-36 | the screen opens in the initial chat state |
| Support.SupportScreen.EditInput | Components/Support.tsx:180 | typing replaces the input and nothing else |
| Support.SupportScreen.SendMessage | Components/Support.tsx:46-92 | the statements up to the `await` produce exactly `AfterSend` of the old state and report the path taken |
| Support.SupportScreen.ReceiveReply | Components/Support.tsx:93-113 | the statements after the `await` produce exactly `AfterReply`: one bot message, and `isSending` cleared in `finally` |
| Support.SupportScreen.SendToCompletion | Components/Support.tsx:46-114 | a whole `sendMessage` run produces `SendToEnd` of the old state and ends with sending off |

## Left out

- Rendering, `StyleSheet` objects, `LinearGradient`/`BlurView`, keyboard dismissal and the auto-scroll of the chat: presentation only.
- Focus moves between OTP cells through `otpRefs` (Components/Login.tsx:60, 106, 125): side effects on native inputs.
- The 1200 ms delays: each timer's callback is one atomic step. The model keeps only their firing order (equal delays fire first in, first out).
- `Alert.alert` and `navigation.navigate` are recorded as `Effect` values. The success alert's "OK" button leading to Dash is the single value `AlertThenNavigate`.
- The chatbot `fetch`, the request payload, the system instruction and the JSON parsing: the call is the parameter `RemoteOutcome`. A candidate text of a non-string type is not modelled, and `console.error` is left out.
- Location permission, the "Permission denied" alert and the device location calls: device I/O. Only the two region updates are kept.
- `Dimensions` and `Math.round(SCREEN_HEIGHT * fraction)`: the screen and sheet heights are integer parameters (`SheetGeometry`). The idempotence lemma assumes MAX > MID > MIN, as the fractions 0.78 > 0.42 > 0.12 give.
- MapScreen.MapFrontPage.AnimateSheetTo: the spring (friction 8, tension 40) is modelled as having settled at its target. The values the sheet passes through while animating are not modelled.
- The Map screen's `markers`, `query` and `locationGranted` state and the Google API key placeholder: static or unused by the logic.
- `toLowerCase` is modelled for ASCII letters only. Strings are sequences of Unicode scalar values rather than UTF-16 code units.
- Message timestamps and their `toLocaleTimeString` formatting: clock and locale.
- Support.SupportScreen.SendMessage requires that no send is in progress. While sending, the send button is disabled and the input is read-only (Components/Support.tsx:182, 187), so a second overlapping send cannot start.
- The Login handlers can run in any state and are not restricted to the card that shows their button. The source does not check this either.
- Login.LoginScreen.HandleLogin and Login.LoginScreen.PressVerify do not model the buttons' `disabled={loading}` (Components/Login.tsx:200) and `disabled={otpLoading}` (Components/Login.tsx:272) guards. Both may run while loading, which over-approximates the screen; the pending sign-in count and the queue of pending verifications keep this sound.
- MapScreen.SnapChoice: offsets and distances are exact reals, not JavaScript doubles compared with `===` (Components/Map.tsx:78-84). Rounding that could pick a different anchor within a few ulps of a tie is not modelled.
- Components/Dash.tsx, SOS.tsx, itenary.tsx, Protection.tsx, report.tsx, profile.tsx, i18n.ts, App.tsx and react-native-maps.d.ts: static screens, trivial toggles, translation tables, navigator wiring and type declarations.
