# Ringtone-picker relay of the Alerts app, in Dafny

The Android side of the Alerts app has one piece of logic: `MainActivity`
relays a `pickRingtone` call from the Flutter shell to Android's
ringtone-picker activity, and relays the picker's result back. It has one
slot, `pendingResult`, which holds the caller's result handle while the
picker is open:

- A `pickRingtone` call while the slot is full is refused with
  `ALREADY_ACTIVE`.
- A `pickRingtone` call while the slot is empty stores the handle. It then
  launches one picker request with request code 999. The request asks for
  notification sounds, shows the default and silent entries, sets a fixed
  title, and pre-selects the `existingUri` argument when one is given.
- Any other method is answered `notImplemented`.
- `onActivityResult` ignores request codes other than 999. For code 999 it
  answers the pending handle, if there is one, with a success. The payload
  is the picked URI when the result is OK and carries data. Otherwise it is
  null (the user picked silence or cancelled). Then it empties the slot.

The project has three modules:

- `Relay` (`relay.dfy`): the entities and the two callbacks as pure
  transition functions. A callback takes the slot's content and gives back
  the new content, the answers sent and the activities started.
- `RelayTrace` (`relay_trace.dfy`): whole runs from an empty slot, and
  lemmas proved by induction over the events. Launched requests balance
  successes. Each caller gets exactly the answer its call was admitted with.
  At most one request is outstanding.
- `Alerts` (`main_activity.dfy`): the class `MainActivity`, with the mutable
  field `pendingResult` and methods that update it step by step. The answers
  and launches go into ghost logs, and a ghost history of events ties the
  object to `RelayTrace.Run`. Each method is proved equal to its transition
  function, and each keeps the launch/success balance.

URIs are opaque strings. A result handle is an opaque number; only its
identity matters. Intents are an action plus a map of typed extras. The
Android constants (`RESULT_OK = -1`, `TYPE_NOTIFICATION = 2`, the
`android.intent.extra.ringtone.*` keys) are written out with their platform
values.

Two behaviours of the code are worth stating outright:

- A re-entrant `pickRingtone` is not treated as a precondition violation.
  The code answers it with `ALREADY_ACTIVE`, and so does the model.
- The `existingUri` argument goes into the intent unchecked: any string the
  caller supplies is forwarded to the picker.

## Model

| member | source | states |
|---|---|---|
| Relay.PutExtra | android/app/src/main/kotlin/com/example/alerts/MainActivity.kt:33-42 | setting an extra makes that key hold the value and leaves every other key and the action as they were |
| Relay.PickerIntent | android/app/src/main/kotlin/com/example/alerts/MainActivity.kt:29-42 | the picker intent has the picker action, notification type, show-default true, show-silent true and the fixed title. It has no other extras, except the existing-URI extra, which is present iff the argument is present and then holds that URI |
| Relay.PickedUri | android/app/src/main/kotlin/com/example/alerts/MainActivity.kt:56 | the picked URI is returned only when the picked-URI key holds a URI value, and exactly that value; otherwise the result is null |
| Relay.HandleCall | android/app/src/main/kotlin/com/example/alerts/MainActivity.kt:19-48 | a call to another method gets notImplemented and leaves the slot alone. A re-entrant pickRingtone gets only the ALREADY_ACTIVE error, launches nothing and keeps the earlier handle. An accepted pickRingtone stores the handle, answers nothing yet and launches exactly one picker request with code 999 |
| Relay.HandleActivityResult | android/app/src/main/kotlin/com/example/alerts/MainActivity.kt:51-65 | a foreign request code changes nothing. A 999 result always empties the slot and launches nothing. It answers nothing when no handle was pending. Otherwise the pending handle gets a success: the picked URI on OK with data, null on any other result code or on missing data |
| Relay.SilentLikeCancel | android/app/src/main/kotlin/com/example/alerts/MainActivity.kt:54-63 | an OK result without a picked URI (silence) has the same effect as a cancellation |
| Relay.ExistingUriForwarded | android/app/src/main/kotlin/com/example/alerts/MainActivity.kt:29-44 | a supplied existing URI reaches the launched picker request unchanged |
| Relay.CompletionReenables | android/app/src/main/kotlin/com/example/alerts/MainActivity.kt:22-26 | after any 999 result, the next pickRingtone is accepted |
| RelayTrace.LaunchesBalanceSuccesses | android/app/src/main/kotlin/com/example/alerts/MainActivity.kt:14-65 | over any run, the number of picker launches equals the number of success answers, plus one while a handle is pending |
| RelayTrace.LaunchesArePickerRequests | android/app/src/main/kotlin/com/example/alerts/MainActivity.kt:33-44 | every request launched in any run has code 999 and carries the fixed picker extras |
| RelayTrace.HandleFate | android/app/src/main/kotlin/com/example/alerts/MainActivity.kt:19-65 | in any run with a fresh handle per call: an unused handle gets nothing; an unsupported call gets exactly notImplemented; a rejected call gets exactly the error; an accepted call gets nothing while pending and exactly one success once it is not. Only an accepted handle is ever pending |
| RelayTrace.AtMostOneOutstanding | android/app/src/main/kotlin/com/example/alerts/MainActivity.kt:14-26 | two accepted, still unanswered callers are the same caller, the one held in the slot |
| RelayTrace.ForeignResultIgnored | android/app/src/main/kotlin/com/example/alerts/MainActivity.kt:54 | appending a result with a foreign request code leaves the whole run's state and output unchanged |
| Alerts.MainActivity.constructor | android/app/src/main/kotlin/com/example/alerts/MainActivity.kt:14 | the activity starts with an empty slot and nothing sent |
| Alerts.MainActivity.Deliver | android/app/src/main/kotlin/com/example/alerts/MainActivity.kt:23 | answering a handle appends exactly that answer to the channel log |
| Alerts.MainActivity.StartActivityForResult | android/app/src/main/kotlin/com/example/alerts/MainActivity.kt:44 | starting an activity appends exactly that request to the launch log |
| Alerts.MainActivity.OnMethodCall | android/app/src/main/kotlin/com/example/alerts/MainActivity.kt:19-48 | the imperative handler, which builds the intent extra by extra, leaves the slot and the logs exactly as HandleCall says. It keeps the launch/success balance |
| Alerts.MainActivity.OnActivityResult | android/app/src/main/kotlin/com/example/alerts/MainActivity.kt:51-65 | the imperative callback leaves the slot and the logs exactly as HandleActivityResult says. It keeps the launch/success balance |

## Left out

- The Flutter and Android plumbing is not modelled: `FlutterActivity`, the `MethodChannel` transport and its channel name, `binaryMessenger`, and the `super.configureFlutterEngine` and `super.onActivityResult` calls. None of them holds logic of this component. Incoming calls are method values, and outgoing answers are log entries.
- The `details` argument of `result.error` is always null, so it is not modelled.
- The picker UI, sound enumeration and playback belong to the platform. An intent is a record of its action and extras.
- `Uri.parse` and `Uri.toString` are not modelled: URIs are opaque strings, and no parse/print round trip is claimed.
- `call.argument` is modelled as an optional string. An argument of another type, which would throw in the source, is not modelled.
- Exceptions thrown inside an accepted `pickRingtone` are not modelled. The handler stores the caller's handle in `pendingResult` (MainActivity.kt:26) before two steps that can throw: `call.argument<String>("existingUri")` (MainActivity.kt:29) throws when the argument is not a String, and `startActivityForResult` (MainActivity.kt:44) throws when no picker activity exists. If either throws, no picker was started, so no result with code 999 ever arrives to clear the slot. The handle then stays in `pendingResult` for good, every later `pickRingtone` is answered `ALREADY_ACTIVE`, and the stored caller never receives the success that RelayTrace.HandleFate describes. The model assumes both steps succeed.
- RelayTrace.HandleFate: assumes each call carries a handle no earlier call used. The channel creates a new result object for every incoming call, and the source relies on that.
- Activity recreation, which would lose `pendingResult`, is not modelled. Neither is threading: callbacks are taken to arrive one at a time on one thread.
