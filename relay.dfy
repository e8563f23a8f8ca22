/**
 The single-slot ringtone-picker relay of MainActivity, as pure transition
 functions. The application shell sends `pickRingtone` calls over a method
 channel; the activity launches the platform's ringtone picker and, when the
 picker returns, answers the stored result handle exactly once.

 This module is the specification the imperative class in module Alerts is
 proved against: one function per callback, each taking the current content of
 the `pendingResult` slot and giving the new content plus what was sent out.
 */
module Relay {

  datatype Option<T> = None | Some(value: T)

  /** The caller's pending-response handle (a MethodChannel.Result), kept
      opaque: only its identity matters. */
  type Handle = nat

  // ---------------------------------------------------------------------
  // Constants of the activity and of the Android platform it uses

  /** The only method the channel handler implements. */
  const PickRingtoneMethod: string := "pickRingtone"
  /** The request code the picker is launched with (PICK_RINGTONE_REQUEST). */
  const PickRingtoneRequest: int := 999
  /** Activity.RESULT_OK. */
  const ResultOk: int := -1
  /** Activity.RESULT_CANCELED. */
  const ResultCanceled: int := 0

  /** RingtoneManager.ACTION_RINGTONE_PICKER. */
  const ActionRingtonePicker: string := "android.intent.action.RINGTONE_PICKER"
  /** RingtoneManager.EXTRA_RINGTONE_TYPE and friends: the intent extra keys. */
  const ExtraRingtoneType: string := "android.intent.extra.ringtone.TYPE"
  const ExtraShowDefault: string := "android.intent.extra.ringtone.SHOW_DEFAULT"
  const ExtraShowSilent: string := "android.intent.extra.ringtone.SHOW_SILENT"
  const ExtraTitle: string := "android.intent.extra.ringtone.TITLE"
  const ExtraExistingUri: string := "android.intent.extra.ringtone.EXISTING_URI"
  const ExtraPickedUri: string := "android.intent.extra.ringtone.PICKED_URI"
  /** RingtoneManager.TYPE_NOTIFICATION. */
  const TypeNotification: int := 2
  /** The title shown by the picker ("choose a notification sound"). */
  const PickerTitle: string := "בחר צליל התראה"

  /** The error code and message answered to a re-entrant call. */
  const AlreadyActiveCode: string := "ALREADY_ACTIVE"
  const AlreadyActiveMessage: string := "Ringtone picker is already active"

  // ---------------------------------------------------------------------
  // Values exchanged with the channel and with the platform

  /** An incoming method call: its name and its optional `existingUri`
      argument (a URI string, kept opaque). */
  datatype MethodCall = MethodCall(name: string, existingUri: Option<string>)

  /** What a handle can be answered with. */
  datatype Reply =
    | Success(payload: Option<string>)
    | Error(code: string, message: string)
    | NotImplemented

  const AlreadyActive: Reply := Error(AlreadyActiveCode, AlreadyActiveMessage)

  /** One answer sent on the channel, with the handle it went to. */
  datatype Delivery = Delivery(to: Handle, reply: Reply)

  /** The typed values an intent extra can hold here. */
  datatype Extra =
    | IntExtra(i: int)
    | BoolExtra(b: bool)
    | StringExtra(s: string)
    | UriExtra(uri: string)

  /** An intent: an action and its bundle of extras. */
  datatype Intent = Intent(action: string, extras: map<string, Extra>)

  /** One startActivityForResult request. */
  datatype Launch = Launch(intent: Intent, requestCode: int)

  /** What one callback leaves behind: the new content of the slot, the
      answers it sent and the activities it started, in order. */
  datatype Transition = Transition(next: Option<Handle>, replies: seq<Delivery>, launches: seq<Launch>)

  /** An event the activity reacts to. */
  datatype Event =
    | Call(call: MethodCall, handle: Handle)
    | ActivityResult(requestCode: int, resultCode: int, data: Option<Intent>)

  // ---------------------------------------------------------------------
  // Intents

  /** Intent.putExtra: sets one key, replacing any earlier value. */
  function PutExtra(intent: Intent, key: string, value: Extra): (r: Intent)
    ensures r.action == intent.action
    ensures key in r.extras && r.extras[key] == value
    ensures r.extras.Keys == intent.extras.Keys + {key}
    ensures forall k :: k in intent.extras && k != key ==> r.extras[k] == intent.extras[k]
  {
    Intent(intent.action, intent.extras[key := value])
  }

  /** The extras every picker request carries, whatever its argument. */
  ghost predicate HasPickerExtras(intent: Intent)
  {
    intent.action == ActionRingtonePicker &&
    ExtraRingtoneType in intent.extras && intent.extras[ExtraRingtoneType] == IntExtra(TypeNotification) &&
    ExtraShowDefault in intent.extras && intent.extras[ExtraShowDefault] == BoolExtra(true) &&
    ExtraShowSilent in intent.extras && intent.extras[ExtraShowSilent] == BoolExtra(true) &&
    ExtraTitle in intent.extras && intent.extras[ExtraTitle] == StringExtra(PickerTitle) &&
    intent.extras.Keys <= {ExtraRingtoneType, ExtraShowDefault, ExtraShowSilent, ExtraTitle, ExtraExistingUri}
  }

  /** A picker request for the given existing selection: the fixed extras,
      plus the existing URI exactly when one was supplied. */
  ghost predicate IsPickerIntent(intent: Intent, existingUri: Option<string>)
  {
    HasPickerExtras(intent) &&
    (ExtraExistingUri in intent.extras <==> existingUri.Some?) &&
    (existingUri.Some? ==> intent.extras[ExtraExistingUri] == UriExtra(existingUri.value))
  }

  /** The intent built by the channel handler, extra by extra. */
  function PickerIntent(existingUri: Option<string>): (r: Intent)
    ensures IsPickerIntent(r, existingUri)
  {
    var intent := Intent(ActionRingtonePicker, map[]);
    var intent := PutExtra(intent, ExtraRingtoneType, IntExtra(TypeNotification));
    var intent := PutExtra(intent, ExtraShowDefault, BoolExtra(true));
    var intent := PutExtra(intent, ExtraShowSilent, BoolExtra(true));
    var intent := PutExtra(intent, ExtraTitle, StringExtra(PickerTitle));
    if existingUri.Some? then PutExtra(intent, ExtraExistingUri, UriExtra(existingUri.value)) else intent
  }

  /** Intent.getParcelableExtra(EXTRA_RINGTONE_PICKED_URI): the picked URI,
      or nothing when the key is absent or does not hold a URI. */
  function PickedUri(data: Intent): (r: Option<string>)
    ensures r.Some? ==> ExtraPickedUri in data.extras && data.extras[ExtraPickedUri] == UriExtra(r.value)
    ensures r.None? ==> ExtraPickedUri !in data.extras || !data.extras[ExtraPickedUri].UriExtra?
  {
    if ExtraPickedUri in data.extras && data.extras[ExtraPickedUri].UriExtra? then
      Some(data.extras[ExtraPickedUri].uri)
    else
      None
  }

  // ---------------------------------------------------------------------
  // The two callbacks

  /** The method-call handler, given the slot's content and the caller's
      handle. A re-entrant `pickRingtone` is refused and disturbs nothing; an
      accepted one stores the handle, answers nothing yet and launches exactly
      one picker request; any other method is answered notImplemented. */
  function HandleCall(pending: Option<Handle>, call: MethodCall, handle: Handle): (t: Transition)
    ensures call.name != PickRingtoneMethod ==>
      t.next == pending && t.replies == [Delivery(handle, NotImplemented)] && t.launches == []
    ensures call.name == PickRingtoneMethod && pending.Some? ==>
      t.next == pending && t.replies == [Delivery(handle, AlreadyActive)] && t.launches == []
    ensures call.name == PickRingtoneMethod && pending.None? ==>
      t.next == Some(handle) && t.replies == [] && |t.launches| == 1 &&
      t.launches[0].requestCode == PickRingtoneRequest &&
      IsPickerIntent(t.launches[0].intent, call.existingUri)
  {
    if call.name == PickRingtoneMethod then
      if pending.Some? then
        Transition(pending, [Delivery(handle, AlreadyActive)], [])
      else
        Transition(Some(handle), [], [Launch(PickerIntent(call.existingUri), PickRingtoneRequest)])
    else
      Transition(pending, [Delivery(handle, NotImplemented)], [])
  }

  /** onActivityResult. A foreign request code changes nothing. A picker
      result answers the pending handle, if any, with a success (never an
      error): the picked URI when the picker returned OK with data, nothing
      otherwise; and it always empties the slot. */
  function HandleActivityResult(pending: Option<Handle>, requestCode: int, resultCode: int, data: Option<Intent>): (t: Transition)
    ensures t.launches == []
    ensures requestCode != PickRingtoneRequest ==> t.next == pending && t.replies == []
    ensures requestCode == PickRingtoneRequest ==> t.next.None?
    ensures requestCode == PickRingtoneRequest && pending.None? ==> t.replies == []
    ensures requestCode == PickRingtoneRequest && pending.Some? && resultCode == ResultOk && data.Some? ==>
      t.replies == [Delivery(pending.value, Success(PickedUri(data.value)))]
    ensures requestCode == PickRingtoneRequest && pending.Some? && (resultCode != ResultOk || data.None?) ==>
      t.replies == [Delivery(pending.value, Success(None))]
  {
    if requestCode == PickRingtoneRequest then
      var payload := if resultCode == ResultOk && data.Some? then PickedUri(data.value) else None;
      var replies := if pending.Some? then [Delivery(pending.value, Success(payload))] else [];
      Transition(None, replies, [])
    else
      Transition(pending, [], [])
  }

  /** The activity's reaction to one event. */
  function Step(pending: Option<Handle>, e: Event): Transition
  {
    match e
    case Call(call, handle) => HandleCall(pending, call, handle)
    case ActivityResult(requestCode, resultCode, data) => HandleActivityResult(pending, requestCode, resultCode, data)
  }

  // ---------------------------------------------------------------------
  // Single-step properties

  /** A picked "silent" (OK with data but no picked URI) and a cancellation
      are answered the same way. */
  lemma SilentLikeCancel(pending: Option<Handle>, data: Intent)
    requires ExtraPickedUri !in data.extras
    ensures HandleActivityResult(pending, PickRingtoneRequest, ResultOk, Some(data))
         == HandleActivityResult(pending, PickRingtoneRequest, ResultCanceled, None)
  {
  }

  /** The existing selection is forwarded unchanged to the picker. */
  lemma ExistingUriForwarded(call: MethodCall, handle: Handle, uri: string)
    requires call.name == PickRingtoneMethod && call.existingUri == Some(uri)
    ensures var t := HandleCall(None, call, handle);
      |t.launches| == 1 && t.launches[0].intent.extras[ExtraExistingUri] == UriExtra(uri)
  {
  }

  /** A picker result leaves the slot empty, so the next pickRingtone call is
      accepted whatever the result carried. */
  lemma CompletionReenables(pending: Option<Handle>, resultCode: int, data: Option<Intent>, call: MethodCall, handle: Handle)
    requires call.name == PickRingtoneMethod
    ensures var t := HandleActivityResult(pending, PickRingtoneRequest, resultCode, data);
      HandleCall(t.next, call, handle).next == Some(handle)
  {
  }
}
