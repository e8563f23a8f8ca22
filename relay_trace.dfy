/**
 Whole runs of the relay: the activity starts with an empty slot and reacts to
 a sequence of events. The lemmas here state what the single-slot design
 promises over any run: every launched picker request is answered by exactly
 one success or is still the one outstanding request, each caller gets exactly
 the answer its call was admitted with, and at most one accepted caller is
 ever waiting.
 */
module RelayTrace {
  import opened Relay

  /** The state and the output after reacting to `events` in order, starting
      from an empty `pendingResult`. Defined on the last event, the way the
      activity's logs grow. */
  function Run(events: seq<Event>): Transition
    decreases |events|
  {
    if events == [] then Transition(None, [], [])
    else
      var before := Run(events[..|events| - 1]);
      var step := Step(before.next, events[|events| - 1]);
      Transition(step.next, before.replies + step.replies, before.launches + step.launches)
  }

  lemma RunAppend(events: seq<Event>, e: Event)
    ensures var before := Run(events); var step := Step(before.next, e);
      Run(events + [e]) == Transition(step.next, before.replies + step.replies, before.launches + step.launches)
  {
    assert (events + [e])[..|events + [e]| - 1] == events;
  }

  // ---------------------------------------------------------------------
  // Reading the output

  /** The answers, in order, that went to handle `h`. */
  function RepliesTo(ds: seq<Delivery>, h: Handle): seq<Reply>
  {
    if ds == [] then []
    else (if ds[0].to == h then [ds[0].reply] else []) + RepliesTo(ds[1..], h)
  }

  lemma {:induction false} RepliesToConcat(a: seq<Delivery>, b: seq<Delivery>, h: Handle)
    ensures RepliesTo(a + b, h) == RepliesTo(a, h) + RepliesTo(b, h)
  {
    if a == [] {
      assert a + b == b;
    } else {
      var head := if a[0].to == h then [a[0].reply] else [];
      assert (a + b)[0] == a[0];
      assert (a + b)[1..] == a[1..] + b;
      RepliesToConcat(a[1..], b, h);
      calc {
        RepliesTo(a + b, h);
        head + RepliesTo(a[1..] + b, h);
        head + (RepliesTo(a[1..], h) + RepliesTo(b, h));
        (head + RepliesTo(a[1..], h)) + RepliesTo(b, h);
      }
    }
  }

  /** How many success answers were sent, to anyone. */
  function CountSuccess(ds: seq<Delivery>): nat
  {
    if ds == [] then 0
    else (if ds[0].reply.Success? then 1 else 0) + CountSuccess(ds[1..])
  }

  lemma {:induction false} CountSuccessConcat(a: seq<Delivery>, b: seq<Delivery>)
    ensures CountSuccess(a + b) == CountSuccess(a) + CountSuccess(b)
  {
    if a == [] {
      assert a + b == b;
    } else {
      assert (a + b)[1..] == a[1..] + b;
      CountSuccessConcat(a[1..], b);
    }
  }

  // ---------------------------------------------------------------------
  // Launches and successes balance

  /** Every picker request launched so far has been answered by one success,
      except the one outstanding request, if any: launches never outrun
      answers by more than one. */
  lemma {:induction false} LaunchesBalanceSuccesses(events: seq<Event>)
    ensures var t := Run(events);
      |t.launches| == CountSuccess(t.replies) + (if t.next.Some? then 1 else 0)
  {
    if events != [] {
      var prefix, e := events[..|events| - 1], events[|events| - 1];
      assert events == prefix + [e];
      LaunchesBalanceSuccesses(prefix);
      RunAppend(prefix, e);
      var before := Run(prefix);
      CountSuccessConcat(before.replies, Step(before.next, e).replies);
    }
  }

  /** Every launched request is a picker request with code 999 carrying the
      fixed extras. */
  lemma {:induction false} LaunchesArePickerRequests(events: seq<Event>)
    ensures forall l :: l in Run(events).launches ==>
      l.requestCode == PickRingtoneRequest && HasPickerExtras(l.intent)
  {
    if events != [] {
      var prefix, e := events[..|events| - 1], events[|events| - 1];
      assert events == prefix + [e];
      LaunchesArePickerRequests(prefix);
      RunAppend(prefix, e);
    }
  }

  // ---------------------------------------------------------------------
  // What each caller gets

  /** How a call was admitted by the handler. */
  datatype Admission = Accepted | Rejected | Unsupported

  function Admit(pending: Option<Handle>, call: MethodCall): Admission
  {
    if call.name != PickRingtoneMethod then Unsupported
    else if pending.Some? then Rejected
    else Accepted
  }

  /** How the (last) call that carried handle `h` was admitted, if any did. */
  function AdmissionOf(events: seq<Event>, h: Handle): Option<Admission>
    decreases |events|
  {
    if events == [] then None
    else
      var prefix, e := events[..|events| - 1], events[|events| - 1];
      if e.Call? && e.handle == h then Some(Admit(Run(prefix).next, e.call))
      else AdmissionOf(prefix, h)
  }

  /** The channel hands every call a new result handle. */
  ghost predicate FreshHandles(events: seq<Event>)
  {
    forall i, j :: 0 <= i < j < |events| && events[i].Call? && events[j].Call? ==>
      events[i].handle != events[j].handle
  }

  /** A handle no call carried has no admission. */
  lemma {:induction false} UnusedHandleNotAdmitted(events: seq<Event>, h: Handle)
    requires forall i :: 0 <= i < |events| && events[i].Call? ==> events[i].handle != h
    ensures AdmissionOf(events, h) == None
  {
    if events != [] {
      UnusedHandleNotAdmitted(events[..|events| - 1], h);
    }
  }

  /** What handle `h` has received by the end of a run, given how its call
      was admitted; see HandleFate. */
  ghost predicate FateOf(t: Transition, admission: Option<Admission>, h: Handle)
  {
    var rs := RepliesTo(t.replies, h);
    (admission != Some(Accepted) ==> t.next != Some(h)) &&
    (admission == None ==> rs == []) &&
    (admission == Some(Unsupported) ==> rs == [NotImplemented]) &&
    (admission == Some(Rejected) ==> rs == [AlreadyActive]) &&
    (admission == Some(Accepted) && t.next == Some(h) ==> rs == []) &&
    (admission == Some(Accepted) && t.next != Some(h) ==> |rs| == 1 && rs[0].Success?)
  }

  /** One call keeps every handle's fate, provided its handle is new. */
  lemma FateAfterCall(before: Transition, admission: Option<Admission>, call: MethodCall, handle: Handle, h: Handle)
    requires FateOf(before, admission, h)
    requires handle == h ==> admission == None
    ensures var step := HandleCall(before.next, call, handle);
      FateOf(Transition(step.next, before.replies + step.replies, before.launches + step.launches),
             if handle == h then Some(Admit(before.next, call)) else admission, h)
  {
    var step := HandleCall(before.next, call, handle);
    RepliesToConcat(before.replies, step.replies, h);
  }

  /** One activity result keeps every handle's fate. */
  lemma FateAfterResult(before: Transition, admission: Option<Admission>, requestCode: int, resultCode: int, data: Option<Intent>, h: Handle)
    requires FateOf(before, admission, h)
    ensures var step := HandleActivityResult(before.next, requestCode, resultCode, data);
      FateOf(Transition(step.next, before.replies + step.replies, before.launches + step.launches), admission, h)
  {
    var step := HandleActivityResult(before.next, requestCode, resultCode, data);
    RepliesToConcat(before.replies, step.replies, h);
  }

  /** The fate of every handle over a run with fresh handles: a handle no
      call carried is never answered; a call with another method is answered
      notImplemented and nothing else; a re-entrant pickRingtone gets only the
      ALREADY_ACTIVE error; an accepted pickRingtone is answered nothing while
      it is pending and exactly one success once it is not. Only an accepted
      handle is ever pending. */
  lemma {:induction false} HandleFate(events: seq<Event>, h: Handle)
    requires FreshHandles(events)
    ensures AdmissionOf(events, h) != Some(Accepted) ==> Run(events).next != Some(h)
    ensures AdmissionOf(events, h) == None ==> RepliesTo(Run(events).replies, h) == []
    ensures AdmissionOf(events, h) == Some(Unsupported) ==> RepliesTo(Run(events).replies, h) == [NotImplemented]
    ensures AdmissionOf(events, h) == Some(Rejected) ==> RepliesTo(Run(events).replies, h) == [AlreadyActive]
    ensures AdmissionOf(events, h) == Some(Accepted) && Run(events).next == Some(h) ==>
      RepliesTo(Run(events).replies, h) == []
    ensures AdmissionOf(events, h) == Some(Accepted) && Run(events).next != Some(h) ==>
      |RepliesTo(Run(events).replies, h)| == 1 && RepliesTo(Run(events).replies, h)[0].Success?
  {
    FateHolds(events, h);
  }

  lemma {:induction false} FateHolds(events: seq<Event>, h: Handle)
    requires FreshHandles(events)
    ensures FateOf(Run(events), AdmissionOf(events, h), h)
  {
    if events != [] {
      var prefix, e := events[..|events| - 1], events[|events| - 1];
      assert events == prefix + [e];
      assert FreshHandles(prefix);
      FateHolds(prefix, h);
      RunAppend(prefix, e);
      var before := Run(prefix);
      match e
      case Call(call, handle) =>
        if handle == h {
          UnusedHandleNotAdmitted(prefix, h);
        }
        FateAfterCall(before, AdmissionOf(prefix, h), call, handle, h);
      case ActivityResult(requestCode, resultCode, data) =>
        FateAfterResult(before, AdmissionOf(prefix, h), requestCode, resultCode, data, h);
    }
  }

  /** At most one request is outstanding: two accepted callers that are both
      still unanswered are the same caller, the one in the slot. */
  lemma AtMostOneOutstanding(events: seq<Event>, h1: Handle, h2: Handle)
    requires FreshHandles(events)
    requires AdmissionOf(events, h1) == Some(Accepted) && RepliesTo(Run(events).replies, h1) == []
    requires AdmissionOf(events, h2) == Some(Accepted) && RepliesTo(Run(events).replies, h2) == []
    ensures h1 == h2 && Run(events).next == Some(h1)
  {
    HandleFate(events, h1);
    HandleFate(events, h2);
  }

  /** A foreign activity result leaves a whole run's state and output as they
      were. */
  lemma ForeignResultIgnored(events: seq<Event>, requestCode: int, resultCode: int, data: Option<Intent>)
    requires requestCode != PickRingtoneRequest
    ensures Run(events + [ActivityResult(requestCode, resultCode, data)]) == Run(events)
  {
    RunAppend(events, ActivityResult(requestCode, resultCode, data));
  }
}
