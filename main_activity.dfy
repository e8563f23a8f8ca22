/**
 The activity itself: one mutable slot, `pendingResult`, written by the
 channel's method-call handler and cleared by onActivityResult. The answers it
 sends on the channel and the activities it starts are recorded in ghost logs,
 and a ghost history of the events seen so far ties the object to the run of
 module RelayTrace.
 */
module Alerts {
  import opened Relay
  import opened RelayTrace

  class MainActivity {
    /** The caller waiting for the picker, if any. */
    var pendingResult: Option<Handle>

    /** Every event the activity has reacted to, in order. */
    ghost var history: seq<Event>
    /** Every answer sent on the channel (result.success / error / notImplemented). */
    ghost var delivered: seq<Delivery>
    /** Every startActivityForResult request. */
    ghost var launched: seq<Launch>

    /** The object is the state reached by running its history. */
    ghost predicate Valid()
      reads this
    {
      var t := Run(history);
      pendingResult == t.next && delivered == t.replies && launched == t.launches
    }

    constructor ()
      ensures Valid() && history == []
      ensures pendingResult == None && delivered == [] && launched == []
    {
      pendingResult := None;
      history := [];
      delivered := [];
      launched := [];
    }

    /** result.success / result.error / result.notImplemented: an answer goes
        out on the channel. Only the two callbacks below call it; on its own it
        does not keep Valid(), since it logs an answer without an event. */
    method Deliver(to: Handle, reply: Reply)
      modifies this`delivered
      ensures delivered == old(delivered) + [Delivery(to, reply)]
    {
      delivered := delivered + [Delivery(to, reply)];
    }

    /** startActivityForResult: a request goes to the platform. Only
        OnMethodCall calls it; on its own it does not keep Valid(), since it
        logs a launch without an event. */
    method StartActivityForResult(intent: Intent, requestCode: int)
      modifies this`launched
      ensures launched == old(launched) + [Launch(intent, requestCode)]
    {
      launched := launched + [Launch(intent, requestCode)];
    }

    /** The channel's method-call handler: `result` is the caller's handle. */
    method OnMethodCall(call: MethodCall, result: Handle)
      requires Valid()
      modifies this
      ensures Valid() && history == old(history) + [Call(call, result)]
      ensures var t := HandleCall(old(pendingResult), call, result);
        pendingResult == t.next &&
        delivered == old(delivered) + t.replies &&
        launched == old(launched) + t.launches
      ensures |launched| == CountSuccess(delivered) + (if pendingResult.Some? then 1 else 0)
    {
      RunAppend(history, Call(call, result));
      history := history + [Call(call, result)];
      if call.name == PickRingtoneMethod {
        if pendingResult.Some? {
          Deliver(result, Error(AlreadyActiveCode, AlreadyActiveMessage));
          LaunchesBalanceSuccesses(history);
          return;
        }
        pendingResult := Some(result);

        var existingUri := call.existingUri;
        var intent := Intent(ActionRingtonePicker, map[]);
        intent := PutExtra(intent, ExtraRingtoneType, IntExtra(TypeNotification));
        intent := PutExtra(intent, ExtraShowDefault, BoolExtra(true));
        intent := PutExtra(intent, ExtraShowSilent, BoolExtra(true));
        intent := PutExtra(intent, ExtraTitle, StringExtra(PickerTitle));
        if existingUri.Some? {
          intent := PutExtra(intent, ExtraExistingUri, UriExtra(existingUri.value));
        }

        StartActivityForResult(intent, PickRingtoneRequest);
      } else {
        Deliver(result, NotImplemented);
      }
      LaunchesBalanceSuccesses(history);
    }

    /** onActivityResult: `data` is the returned intent, if any. */
    method OnActivityResult(requestCode: int, resultCode: int, data: Option<Intent>)
      requires Valid()
      modifies this
      ensures Valid() && history == old(history) + [ActivityResult(requestCode, resultCode, data)]
      ensures var t := HandleActivityResult(old(pendingResult), requestCode, resultCode, data);
        pendingResult == t.next &&
        delivered == old(delivered) + t.replies &&
        launched == old(launched)
      ensures |launched| == CountSuccess(delivered) + (if pendingResult.Some? then 1 else 0)
    {
      RunAppend(history, ActivityResult(requestCode, resultCode, data));
      history := history + [ActivityResult(requestCode, resultCode, data)];
      if requestCode == PickRingtoneRequest {
        if resultCode == ResultOk && data.Some? {
          var uri := PickedUri(data.value);
          if pendingResult.Some? {
            Deliver(pendingResult.value, Success(uri));
          }
        } else {
          if pendingResult.Some? {
            Deliver(pendingResult.value, Success(None));
          }
        }
        pendingResult := None;
      }
      LaunchesBalanceSuccesses(history);
    }
  }

  /** An example client, not a model of any one source member: a re-entrant
      call seen from outside. The second caller is refused and the first
      caller is still the one answered by the picker's result. */
  method ReentrantCallScenario(first: Handle, second: Handle, uri: string)
    requires first != second
  {
    var activity := new MainActivity();
    activity.OnMethodCall(MethodCall(PickRingtoneMethod, None), first);
    assert activity.pendingResult == Some(first) && |activity.launched| == 1;
    activity.OnMethodCall(MethodCall(PickRingtoneMethod, Some(uri)), second);
    assert activity.delivered == [Delivery(second, AlreadyActive)];
    assert |activity.launched| == 1;
    var picked := Intent("", map[ExtraPickedUri := UriExtra(uri)]);
    activity.OnActivityResult(PickRingtoneRequest, ResultOk, Some(picked));
    assert activity.delivered == [Delivery(second, AlreadyActive), Delivery(first, Success(Some(uri)))];
    assert activity.pendingResult == None;
  }
}
