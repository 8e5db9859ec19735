# SwiftSpeech examples: the gesture, list and colour logic in Dafny

This project models the three pieces of real logic in the SwiftSpeech example app and proves what they promise.

- `wechat.dfy` (module `WechatScreen`) models the WeChat-style "hold to talk" screen.
  - A drag location is sorted into the speech band at the bottom or into the cancel or convert half above it.
  - The speech band is 94 units tall while speech is active and 78 units otherwise.
  - The `onChanged`/`onEnded` handlers start a recording, then stop or cancel it.
  - The handlers are pure functions (`OnChanged`, `OnEnded`) over the gesture state `(activeComponent, isRecording)`. Each returns the new state and the closures it called.
  - The classes `Wechat` (the model fields and the three recording functions) and `UI` (the `@State` fields) change state in place. Their methods are proved to follow those functions.
- `list.dfy` (module `ListScreen`) models the "List" screen's `ViewModel`.
  - `list` is a sequence of `(id, text)` rows.
  - A session start appends a row.
  - A recognition result overwrites the text of the session's first row.
  - An error or a cancel removes that row.
  - `WithText` and `Without` are recursive reference definitions. The in-place index assignment and `remove(at:)` of the class methods are proved equal to them.
- `colors.dfy` (module `ColorsScreen`) models the "Colors" screen's `color` lookup over its ten-word dictionary.
  - Swift does not specify a dictionary's iteration order, so the order is a parameter: any list of the keys, each exactly once.
- `common.dfy` (module `Common`) holds what the screens share: the `Option` type and `SessionId`, the identity of a recognition session.

Coordinates are `real`. The source compares them, subtracts the 94- or 78-unit band height from the surface height and halves a width; that subtraction is exact in `Double` for surface heights from 94 up to 2^54, and Double rounding is not modelled elsewhere. The sessions that the recognition library creates are identified by a number (`SessionId`). The session a start would create is a parameter of `UI.DragChanged` and `Wechat.StartRecording`. Stream deliveries are explicit method calls: `Wechat.ReceiveText`, `Wechat.ReceiveCompletion` and `ViewModel.ReceiveResult`.

Three behaviours of the code are easy to misread; the model follows the code:
- A gesture whose first counted move lands in the cancel half and that later drags into the speech band never starts recording (Shared/Wechat.swift:221). So "cancel, then speech, then release over cancel" calls nothing at all, not start followed by cancel. `CancelThenSpeechRecordsNothing` proves this.
- A location is speech only when `y > height - speechHeight`. On a 500-unit surface with speech active, `y = 405` is therefore not speech (the line is at 406). `HysteresisOnTallSurface` proves this.
- `recordingSession` is never reset to nil after a stop or a cancel. Only a screen that has never recorded ignores stop and cancel.

## Model

| member | source | states |
|---|---|---|
| `WechatScreen.Classification` | Shared/Wechat.swift:243-252 | a location is speech iff it lies below the line `height - speechHeight`; otherwise it is cancel iff `x <= width/2`, else convert |
| `WechatScreen.Hysteresis` | Shared/Wechat.swift:264-268 | in the band `height-94 < y <= height-78` a location is speech iff speech is already the active zone |
| `WechatScreen.SpeechIsSticky` | Shared/Wechat.swift:264-268 | activating speech only widens the band: speech stays speech, and above the wider band the active zone does not change the answer |
| `WechatScreen.HysteresisOnTallSurface` | Shared/Wechat.swift:243-252 | on a 300 by 500 surface, y = 421 is speech only while speech is active, and y = 405 is cancel or convert even then |
| `WechatScreen.OnChanged` | Shared/Wechat.swift:216-226 | a move below the surface changes nothing; a counted move makes the zone under it active; `startRecording` is called, and recording set, exactly when no zone was active and the new zone is speech |
| `WechatScreen.OnEnded` | Shared/Wechat.swift:227-240 | the gesture returns to rest; while recording exactly one call is made, `cancelRecording` iff the end zone is cancel and `stopRecording` otherwise; without recording no call |
| `WechatScreen.MovesWhileActive` | Shared/Wechat.swift:218-225 | once a zone is active, any number of moves calls nothing, keeps `isRecording` and keeps some zone active |
| `WechatScreen.MovesFromRest` | Shared/Wechat.swift:221-224 | from rest, moves start a recording (one call) iff the first counted move lands in speech; a later move into speech starts nothing |
| `WechatScreen.WholeGesture` | Shared/Wechat.swift:214-241 | a whole gesture from rest ends at rest and calls nothing, or start then cancel (released over cancel), or start then stop |
| `WechatScreen.CancelThenSpeechRecordsNothing` | Shared/Wechat.swift:221 | touching cancel first, dragging into speech and releasing over cancel makes no call |
| `WechatScreen.StopAndCancelGuarded` | Shared/Wechat.swift:47-58 | without a session stop and cancel change nothing; with one they report it to the session, and cancel clears the recognised text |
| `WechatScreen.WholeGestureOnModel` | Shared/Wechat.swift:29-58 | after a whole gesture the model is untouched, or the session started is the one stopped or cancelled, it stays recorded as the current session, and a cancel clears the text |
| `WechatScreen.Wechat.constructor` | Shared/Wechat.swift:63-68 | a new model has empty text, no recognition in progress and no session |
| `WechatScreen.Wechat.StartRecording` | Shared/Wechat.swift:29-45 | the new session becomes the current one, recognition is in progress, the start is reported, the text is kept |
| `WechatScreen.Wechat.StopRecording` | Shared/Wechat.swift:47-51 | reports a stop to the current session, or does nothing without one |
| `WechatScreen.Wechat.CancelRecording` | Shared/Wechat.swift:53-58 | reports a cancel to the current session and clears the text, or does nothing without one |
| `WechatScreen.Wechat.ReceiveText` | Shared/Wechat.swift:37-38 | a delivered text replaces the recognised text and nothing else |
| `WechatScreen.Wechat.ReceiveCompletion` | Shared/Wechat.swift:35-36 | the stream's completion ends the in-progress flag and nothing else |
| `WechatScreen.UI.constructor` | Shared/Wechat.swift:82-83 | the screen starts at rest: no active zone, not recording |
| `WechatScreen.UI.DragChanged` | Shared/Wechat.swift:216-226 | the new gesture state and calls are those of `OnChanged`; the model changes only by a start; a recording always has a session |
| `WechatScreen.UI.DragEnded` | Shared/Wechat.swift:227-240 | the gesture returns to rest; the model is cancelled, stopped or untouched as `OnEnded` decides; a recording under way ends in exactly one stop or cancel reported to its current session, and without one no session call is made |
| `ListScreen.DisplayText` | Shared/Medium/List.swift:27-33 | an error gives nothing; a final result gives its transcription; a partial result gives the transcription followed by `" ..."` |
| `ListScreen.FirstIndexOf` | Shared/Medium/List.swift:36 | the index found holds the session and no earlier row does; nothing is found iff no row holds the session |
| `ListScreen.WithText` | Shared/Medium/List.swift:36-38 | setting a text keeps the length and every row's session |
| `ListScreen.Without` | Shared/Medium/List.swift:39-42 | removing shortens the list by one iff the session has a row |
| `ListScreen.WithTextAt` | Shared/Medium/List.swift:36-38 | exactly the first row of the session gets the new text; every other row is unchanged; no row, no change |
| `ListScreen.WithoutAt` | Shared/Medium/List.swift:39-42 | exactly the first row of the session is removed and the others keep their order; no row, no change |
| `ListScreen.AbsentSessionIgnored` | Shared/Medium/List.swift:36 | a result for a session without a row leaves the list unchanged |
| `ListScreen.StartThenRemove` | Shared/Medium/List.swift:48-51 | cancelling a session just appended restores the list as it was before the start |
| `ListScreen.StartThenText` | Shared/Medium/List.swift:22-46 | a text for a session just appended fills its row at the end of the list |
| `ListScreen.StartThenResult` | Shared/Medium/List.swift:22-46 | the first result of a fresh session fills its new row, or removes it again on an error |
| `ListScreen.WithoutKeepsUnique` | Shared/Medium/List.swift:39-42 | with one row per session, removal leaves no row of that session, keeps every other session and keeps rows unique |
| `ListScreen.WithTextKeepsUnique` | Shared/Medium/List.swift:36-38 | setting a text keeps one row per session |
| `ListScreen.AppendKeepsUnique` | Shared/Medium/List.swift:22-25 | appending a session's row keeps one row per session iff it had no row yet |
| `ListScreen.TextsCommute` | Shared/Medium/List.swift:36-38 | texts for two different sessions can be set in either order |
| `ListScreen.TextAndRemovalCommute` | Shared/Medium/List.swift:36-42 | a text for one session and the removal of another commute |
| `ListScreen.RemovalsCommute` | Shared/Medium/List.swift:39-42 | removals of two different sessions commute |
| `ListScreen.ResultsCommute` | Shared/Medium/List.swift:34-44 | results of two different sessions give the same list in either order of arrival |
| `ListScreen.ViewModel.constructor` | Shared/Medium/List.swift:19 | the list starts empty |
| `ListScreen.ViewModel.FirstIndex` | Shared/Medium/List.swift:36 | the linear search returns the first index holding the session, or nothing |
| `ListScreen.ViewModel.RecordingDidStart` | Shared/Medium/List.swift:22-25 | without a result publisher nothing changes; otherwise exactly `(id, "")` is appended after the old rows |
| `ListScreen.ViewModel.ReceiveResult` | Shared/Medium/List.swift:26-44 | the list becomes the reference list after the result: the session's row is updated, or removed on an error |
| `ListScreen.ViewModel.RecordingDidCancel` | Shared/Medium/List.swift:48-51 | the first row of the session is removed, or nothing changes when it has none |
| `ColorsScreen.FirstMatch` | Shared/Easy/Colors.swift:28-34 | the key found comes first in the iteration order among those in the text; nothing is found iff no key is in the text |
| `ColorsScreen.ColorOf` | Shared/Easy/Colors.swift:28-34 | `color` is nil iff no dictionary word occurs in the lower-cased text; otherwise it is the colour of a word that occurs in it |
| `ColorsScreen.DictionarySize` | Shared/Easy/Colors.swift:15-26 | the dictionary holds exactly ten distinct words |
| `ColorsScreen.DictionaryLowercase` | Shared/Easy/Colors.swift:15-26 | every word is non-empty and lower-case |
| `ColorsScreen.CaseInsensitive` | Shared/Easy/Colors.swift:31 | a text, its lower-cased and its upper-cased variants get the same colour |
| `ColorsScreen.FoundIndependentOfOrder` | Shared/Easy/Colors.swift:28-34 | whether a colour is found does not depend on the iteration order |
| `ColorsScreen.SingleWordDetermined` | Shared/Easy/Colors.swift:28-34 | when exactly one word occurs, every iteration order gives its colour |
| `ColorsScreen.SayingRed` | Shared/Easy/Colors.swift:15-34 | the text "Red" gets the colour red |

## Left out

- Rendering in Shared/Wechat.swift is not modelled: `speechFill`, `speechBorderFill`, `content`, `cancelAndConvert`, `offsetTransition`, `text` and the `Color.Wechat` assets. They are view geometry and animation with no behavioural contract.
- The Combine plumbing (`receive(on:)`, `sink`, `store(in:)`, `cancelBag`) is not modelled. Its deliveries are explicit method calls, and any delivery order can be chosen. Old subscriptions are never cancelled in the source, and the model lets any delivery reach the model in the same way.
- The calls into the SwiftSpeech library are recorded as logged events, one per call: `session.startRecording()`, `stopRecording()` and `cancel()` together with the matching `delegate.on*` callback. The library itself is not modelled.
- The crash of `try!` when a session fails to start (Shared/Wechat.swift:42) is not modelled. The failure happens in foreign code and nothing handles it locally.
- `WechatScreen.Wechat.StartRecording` takes the new session's identity as a parameter. How `SwiftSpeech.Session(locale:)` creates a session is outside the model.
- The only use of `SwiftSpeech.Session` in `ListScreen.ViewModel.RecordingDidStart` is its id and whether `resultPublisher` is present. `ReceiveResult(id, …)` stands for the sink that captured that id.
- `ColorsScreen.ColorOf` does not say which key wins when several occur in the text. The dictionary's iteration order is unspecified in Swift, so it is a parameter, and the model states only what holds for every order.
- `WechatScreen.ComponentUnder` computes `height - speechHeight` exactly over the reals. Swift computes it in `Double`, which is exact for heights from 94 up to 2^54 but can round elsewhere. With height 0.2 and speech active, y = -93.8 is speech in the model but not in Swift. With height 2^54 + 100 and speech active, the line rounds up to 18014398509481992, so y = 18014398509481992 is speech in the model but not in Swift.
- `ColorsScreen.Lowercased` lower-cases ASCII letters only. Unicode case mapping is not modelled.
- `ColorsScreen.Contains` compares the text code point by code point (one Dafny `char` at a time). Swift's `String.contains` compares grapheme clusters under canonical equivalence; neither is modelled. So "red" followed by a combining accent contains "red" in the model but not in Swift.
- Shared/ContentView.swift, Shared/SwiftSpeechExamplesApp.swift, Shared/Easy/Basic.swift and Shared/Easy/Repeater.swift are not part of this model. They are layout, navigation, library configuration and text-to-speech output.
