# Two-screen chat client: a verified model of its screen logic

This project models the logic of a small React Native chat client that has
two screens. On the username screen the user picks a display name. On the
chat room screen the user reads and sends messages through a hosted
database with realtime insert events. The logic modelled here is:

- the chat room's state: the message list, the draft, the input-box height,
  the current username, the stored identity, the navigation stack and the
  inserts issued to the backend. Each event handler is one method;
- how message text is wrapped on the web and how ownership is derived for
  display;
- joining and the redirect on the username screen;
- how the root component picks the initial route.

Modules, one per file:

- `Wrappers`: `Option`.
- `JsString`: JavaScript's `trim()` over an explicit white-space predicate,
  the regular-expression line terminators, and the truthiness of a stored
  string (present and non-empty).
- `MessageFormat`: `formatMessageContent`, plus an inverse for the web rewrite.
- `Navigation`: the two routes and the default `ChatRoom` param.
- `Backend`: message rows, insert requests and fetch responses, as values.
- `Host`: class `Device`. It holds the `'username'` storage entry (one
  `Option<string>`), the navigation stack and the outbox of issued inserts.
- `ChatRoomScreen`, `UsernameScreen`, `AppRoot`: the components. Each one is
  a class whose methods change the component's fields and the `Device`.

The environment comes in as parameters. The result of a backend `select` is
a `FetchResponse` argument. An insert event is a `Message` argument. The
clock reading (`new Date().toISOString()`) is an opaque `now` string. The
insert outcome is a `bool` that the send path ignores, except for the log
line.

## Model

| member | source | states |
|---|---|---|
| `JsString.TrimStart` | screens/UsernameScreen.tsx:34 | the result is a suffix of the input; every dropped character is white space or a line terminator; the result does not start with one |
| `JsString.TrimEnd` | screens/UsernameScreen.tsx:34 | the result is a prefix of the input; every dropped character is trimmable; the result does not end with one |
| `JsString.Trim` | screens/UsernameScreen.tsx:34 | `String.prototype.trim`: `trimEnd` of `trimStart`; never longer than its input, and a non-empty result starts and ends with a character that is neither white space nor a line terminator |
| `JsString.TrimIsInfix` | screens/ChatRoomScreen.tsx:102 | `trim()` returns the infix of the input that starts after the characters `trimStart()` drops, and no trimmable character remains at either end |
| `JsString.TrimDropsOnlyTrimmable` | screens/ChatRoomScreen.tsx:102 | every character `trim()` drops, before or after that infix, is white space or a line terminator |
| `JsString.BlankIffAllTrimmable` | screens/UsernameScreen.tsx:34 | `s.trim()` is falsy (empty) if and only if every character of `s` is white space or a line terminator |
| `JsString.Truthy` | App.tsx:29 | the test `if (storedUsername)` (also screens/UsernameScreen.tsx:24 and screens/ChatRoomScreen.tsx:37): true exactly when a value is stored and it is not the empty string; its partners are `NonBlankIsTruthy` and `BlankButTruthy` |
| `JsString.NonBlankIsTruthy` | screens/UsernameScreen.tsx:34-35 | a name that passes the join guard (`trim()` non-empty), once stored, passes the truthiness guard of every mount check |
| `JsString.BlankButTruthy` | screens/UsernameScreen.tsx:24 | the two guards differ: a stored `" "` is truthy, so the mount checks accept it, yet `" ".trim()` is empty, so a join with it is refused |
| `MessageFormat.FormatWeb` | screens/ChatRoomScreen.tsx:135 | the global `/(.{18})/g` replace; the output is never shorter than the input |
| `MessageFormat.FormatMessageContent` | screens/ChatRoomScreen.tsx:133-138 | the identity on every platform but the web; on the web it is the regex rewrite |
| `MessageFormat.FormatShort` | screens/ChatRoomScreen.tsx:135 | content shorter than 18 characters is never wrapped |
| `MessageFormat.FormatKeepsPrefix` | screens/ChatRoomScreen.tsx:135 | the first 18 characters (or fewer) come out unchanged |
| `MessageFormat.UnformatFormat` | screens/ChatRoomScreen.tsx:135 | deleting the inserted line breaks gives back exactly the original content, for every string, line terminators included |
| `MessageFormat.FormatLength` | screens/ChatRoomScreen.tsx:135 | content of length n without line terminators gains exactly n/18 characters |
| `MessageFormat.FormatPlacesInput` | screens/ChatRoomScreen.tsx:135 | on content without line terminators, input character i ends up at output position i + i/18, so the input order is kept |
| `MessageFormat.FormatBreakPositions` | screens/ChatRoomScreen.tsx:135 | on content without line terminators, an output character is a line break if and only if its position is 18 mod 19, i.e. there is one right after each 18th input character |
| `Navigation.WithInitialParams` | App.tsx:42-49 | each route name has one route; `ChatRoom` is entered with `username = ''` |
| `ChatRoomScreen.ClampHeight` | screens/ChatRoomScreen.tsx:118-120 | `Math.min(contentHeight, 320)`: at most 320, at most the content height, and equal to one of the two |
| `ChatRoomScreen.IsMine` | screens/ChatRoomScreen.tsx:157 | the ownership test `item.username === username`: a message is the user's own exactly when its sender name equals the current username, by plain string equality; its partner is `AppRoot.SendThenEcho` |
| `ChatRoomScreen.RenderItem` | screens/ChatRoomScreen.tsx:153-183 | right-aligned if and only if the sender name equals the current username; a name label (the sender) appears if and only if it is not; the timestamp comes before the bubble if and only if it is; the text is `formatMessageContent` of the content |
| `ChatRoomScreen.RenderList` | screens/ChatRoomScreen.tsx:149-153 | one view per message, in message-list order |
| `ChatRoomScreen.Screen.constructor` | screens/ChatRoomScreen.tsx:26-30 | state starts as: username = route param, no messages, empty draft, height 40 |
| `ChatRoomScreen.Screen.LoadUsername` | screens/ChatRoomScreen.tsx:34-44 | a truthy stored name becomes the username; otherwise the route param does |
| `ChatRoomScreen.Screen.OnInsert` | screens/ChatRoomScreen.tsx:51-54 | an insert event adds exactly one message at the end; the length grows by one; all earlier messages stay unchanged and in order |
| `ChatRoomScreen.Screen.LoadMessages` | screens/ChatRoomScreen.tsx:78-98 | a response with data and no error replaces the whole list (an empty array included); an error, or null data, leaves the list unchanged |
| `ChatRoomScreen.Screen.EditDraft` | screens/ChatRoomScreen.tsx:199-200 | typing sets the draft |
| `ChatRoomScreen.Screen.HandleSendMessage` | screens/ChatRoomScreen.tsx:101-115 | a blank draft issues no insert and leaves the draft and height unchanged; a non-blank draft issues exactly one insert (current username, untrimmed draft, `now`), then sets the draft to `""` and the height to 40 whether or not the insert failed; the message list is never touched; height stays at most 320 |
| `ChatRoomScreen.Screen.HandleContentSizeChange` | screens/ChatRoomScreen.tsx:118-121 | the height becomes `min(contentHeight, 320)`, so it stays at most 320 |
| `ChatRoomScreen.Screen.HandleResetToUsername` | screens/ChatRoomScreen.tsx:124-130 | the stored name is removed and the navigation stack is exactly `[Username]` |
| `ChatRoomScreen.Screen.BackAction` | screens/ChatRoomScreen.tsx:63-75 | the hardware back button resets in the same way and reports that it handled the event |
| `ChatRoomScreen.Screen.Rendered` | screens/ChatRoomScreen.tsx:149-183 | the list shows one view per current message, right-aligned exactly for the current user's messages |
| `UsernameScreen.Screen.constructor` | screens/UsernameScreen.tsx:17 | the draft name starts as `""` |
| `UsernameScreen.Screen.EditDraft` | screens/UsernameScreen.tsx:46 | typing sets the draft name |
| `UsernameScreen.Screen.CheckStoredUsername` | screens/UsernameScreen.tsx:20-30 | a truthy stored name pushes `ChatRoom(stored)`; an absent or empty one changes nothing |
| `UsernameScreen.Screen.HandleJoinChat` | screens/UsernameScreen.tsx:33-38 | a blank draft writes nothing and does not navigate; a non-blank draft stores the untrimmed draft and pushes `ChatRoom` with that same value |
| `AppRoot.App.constructor` | App.tsx:23 | the initial route starts as `Username` |
| `AppRoot.App.CheckStoredUsername` | App.tsx:25-35 | a truthy stored name makes the initial route `ChatRoom`; an absent or empty one leaves it as it was |
| `AppRoot.App.InitialStack` | App.tsx:40-49 | the navigator starts with the initial route alone, with its initial params |
| `AppRoot.Launch` | App.tsx:21-49 | a boot with a truthy stored name starts the navigator on `[ChatRoom('')]`; otherwise it starts on `[Username]`; that stack replaces the device's navigation stack |
| `AppRoot.LaunchIntoChatRoom` | screens/ChatRoomScreen.tsx:26-44 | after a boot, the chat room is entered exactly when a name is stored, and it shows that stored name even though its route param is `''`; the navigation stack is the boot stack |
| `AppRoot.ResetThenRelaunch` | screens/ChatRoomScreen.tsx:124-130 | leaving the room and then relaunching always lands on `[Username]` |
| `AppRoot.JoinThenRelaunch` | screens/UsernameScreen.tsx:33-38 | after a non-blank join, a relaunch starts on `[ChatRoom('')]` and enters the chat room with the joined name; after a blank join, nothing is stored and the relaunch starts on `[ChatRoom('')]` or `[Username]` as the name stored before was truthy or not |
| `AppRoot.LaunchThenJoin` | screens/UsernameScreen.tsx:20-38 | on a fresh install the boot stack is `[Username]` and the mount check does nothing; a non-blank join then stores the name and leaves `[Username, ChatRoom(name)]`, a blank one leaves `[Username]` and the store alone; with a truthy stored name the boot goes straight to `[ChatRoom('')]` |
| `AppRoot.SendThenEcho` | screens/ChatRoomScreen.tsx:153-161 | sending a non-blank draft and then receiving the insert event that echoes it makes the last rendered item the user's own: right-aligned, no name label, showing the sent draft formatted for the platform |

## Left out

- Styles, layout, platform paddings and `Dimensions`: pure presentation.
- The backend client, the subscription lifecycle (`removeSubscription`) and any interleaving of the bulk fetch with insert events. Each `await` is one atomic step, and events are method calls in whatever order a caller makes them.
- Logging with `console.error`. It is output only, and the failed-insert flag of `HandleSendMessage` affects only the log.
- `AsyncStorage` as real persistence: the `'username'` key is one `Option<string>` field of `Device`. Every storage call is assumed to succeed; in the source a rejected `removeItem` (screens/ChatRoomScreen.tsx:125) skips the navigation reset and a rejected `setItem` (screens/UsernameScreen.tsx:35) skips the navigate.
- Autoscrolling (`scrollToEnd`, `setTimeout`, `onLayout`, `onContentSizeChange` of the list): UI timing.
- The `HH:mm` timestamp text (`dayjs`) and the ISO clock reading. The timestamp is an opaque string, and the views record only where the time label goes.
- React re-rendering, and whether React Navigation follows a changed `initialRouteName` after mount. `Launch` reads the route after the root's mount effect has run.
- UsernameScreen.Screen.CheckStoredUsername: `navigation.navigate` is modelled as a push onto the stack. React Navigation may instead return to an existing `ChatRoom` entry; that behaviour sits in the library.
- UsernameScreen.Screen.HandleJoinChat: the same push model of `navigate`.
- JsString.IsWhiteSpace: the space separators are those of Unicode 15. Later Unicode versions may add more.
- MessageFormat.FormatWeb: strings are sequences of Unicode scalar values. JavaScript's `.` without the `u` flag matches UTF-16 code units instead, so a character outside the BMP counts as two there.
- ChatRoomScreen.ClampHeight: heights are exact reals. `NaN`, infinities and `-0` of JavaScript numbers are not modelled.
- The source does not enforce the message list's `created_at` order, and neither does the model. `OnInsert` appends without de-duplication, as the code does.
- ChatRoomScreen.Screen.LoadMessages: a failed bulk load leaves the list as it was, which is empty only if no insert event arrived first. A present but empty `data` array still replaces the list, because arrays are truthy in JavaScript.
