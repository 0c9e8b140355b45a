/**
 * The missed-call tracker. It remembers the previous call state and the
 * ringing caller across telephony broadcasts and reports a missed call when a
 * ringing call goes straight back to idle.
 */
module CallTracking {
  import opened Wrappers
  import opened Preferences
  import opened AutoReply

  datatype CallState = Idle | Ringing | Offhook

  /** The broadcast action the receiver reacts to. */
  const ACTION_PHONE_STATE_CHANGED: string := "android.intent.action.PHONE_STATE"

  /** The values of the state extra, `EXTRA_STATE_IDLE` and friends. */
  function StateExtra(st: CallState): string {
    match st
    case Idle => "IDLE"
    case Ringing => "RINGING"
    case Offhook => "OFFHOOK"
  }

  /** The `when` in `onReceive`: a recognised state extra, `None` for an absent or unknown one. */
  function ParseState(extra: Option<string>): (r: Option<CallState>)
    ensures forall st :: r == Some(st) <==> extra == Some(StateExtra(st))
  {
    match extra
    case Some(name) =>
      if name == "RINGING" then Some(Ringing)
      else if name == "OFFHOOK" then Some(Offhook)
      else if name == "IDLE" then Some(Idle)
      else None
    case None => None
  }

  /** The tracker's memory: the companion fields `lastState`, `incomingNumber`, `isIncoming`. */
  datatype Tracker = Tracker(lastState: CallState, incomingNumber: Option<string>, isIncoming: bool)

  /** The tracker as the process starts it. */
  const Initial: Tracker := Tracker(Idle, None, false)

  /** A caller is flagged exactly when a number is recorded. */
  predicate Consistent(t: Tracker) {
    t.isIncoming <==> t.incomingNumber.Some?
  }

  /** One state change as `onCallStateChanged` receives it. */
  datatype Notification = Notification(state: CallState, number: Option<string>)

  /** The tracker after a notification and the number handed to the dispatcher, if any. */
  datatype Transition = Transition(after: Tracker, missed: Option<string>)

  /** `onCallStateChanged` as a function of the tracker and the notification. */
  function Next(t: Tracker, n: Notification): (r: Transition)
    ensures r.after.lastState == n.state
    ensures r.missed.Some? <==>
              t.lastState == Ringing && n.state == Idle && t.isIncoming && t.incomingNumber.Some?
    ensures r.missed.Some? ==> r.missed == t.incomingNumber
    ensures n.state == Idle ==> !r.after.isIncoming && r.after.incomingNumber == None
    ensures n.state == Ringing && n.number.Some? ==> r.after.incomingNumber == n.number && r.after.isIncoming
    ensures n.state == Offhook || (n.state == Ringing && n.number == None) ==>
              r.after.incomingNumber == t.incomingNumber && r.after.isIncoming == t.isIncoming
    ensures Consistent(t) ==> Consistent(r.after)
  {
    var recorded :=
      if n.state == Ringing && n.number.Some? then t.(incomingNumber := n.number, isIncoming := true) else t;
    var missed :=
      if recorded.lastState == Ringing && n.state == Idle && recorded.isIncoming then recorded.incomingNumber else None;
    var reset :=
      if n.state == Idle then recorded.(isIncoming := false, incomingNumber := None) else recorded;
    Transition(reset.(lastState := n.state), missed)
  }

  /** The final tracker and the missed-call numbers, in order, of a run of notifications. */
  datatype Run = Run(final: Tracker, missed: seq<string>)

  function RunFrom(t: Tracker, ns: seq<Notification>): Run
  {
    if ns == [] then Run(t, [])
    else
      var before := RunFrom(t, ns[..|ns| - 1]);
      var step := Next(before.final, ns[|ns| - 1]);
      Run(step.after, before.missed + step.missed.ToSeq())
  }

  /** The state of the most recent notification, IDLE before the first. */
  function LastState(ns: seq<Notification>): CallState {
    if ns == [] then Idle else ns[|ns| - 1].state
  }

  /** The number of the latest RINGING-with-number since the latest IDLE. */
  function PendingCaller(ns: seq<Notification>): Option<string> {
    if ns == [] then None
    else if ns[|ns| - 1].state == Idle then None
    else if ns[|ns| - 1].state == Ringing && ns[|ns| - 1].number.Some? then ns[|ns| - 1].number
    else PendingCaller(ns[..|ns| - 1])
  }

  /** From the initial tracker, the memory is the last state and the pending caller of the history. */
  lemma {:induction false} RunRemembersPendingCaller(ns: seq<Notification>)
    ensures RunFrom(Initial, ns).final ==
              Tracker(LastState(ns), PendingCaller(ns), PendingCaller(ns).Some?)
  {
    if ns != [] {
      RunRemembersPendingCaller(ns[..|ns| - 1]);
    }
  }

  /**
   * A notification `n` after the history `ns` reports a missed call exactly
   * when the previous notification was RINGING, `n` is IDLE and a ringing
   * caller is pending; the number reported is that caller's.
   */
  lemma MissedCallExactly(ns: seq<Notification>, n: Notification)
    ensures RunFrom(Initial, ns + [n]).missed ==
              RunFrom(Initial, ns).missed +
              (if LastState(ns) == Ringing && n.state == Idle && PendingCaller(ns).Some?
               then [PendingCaller(ns).value] else [])
  {
    assert (ns + [n])[..|ns + [n]| - 1] == ns;
    RunRemembersPendingCaller(ns);
  }

  /** Every notification adds at most one missed call, and only an IDLE one can. */
  lemma {:induction false} MissedAtMostOncePerIdle(t: Tracker, ns: seq<Notification>)
    ensures |RunFrom(t, ns).missed| <= |IdleIndices(ns)|
  {
    if ns != [] {
      MissedAtMostOncePerIdle(t, ns[..|ns| - 1]);
      assert IdleIndices(ns) == IdleIndices(ns[..|ns| - 1]) + (if ns[|ns| - 1].state == Idle then {|ns| - 1} else {});
      assert |IdleIndices(ns[..|ns| - 1]) + (if ns[|ns| - 1].state == Idle then {|ns| - 1} else {})| ==
             |IdleIndices(ns[..|ns| - 1])| + (if ns[|ns| - 1].state == Idle then 1 else 0) by {
        assert |ns| - 1 !in IdleIndices(ns[..|ns| - 1]);
      }
    }
  }

  /** The positions of IDLE notifications. */
  function IdleIndices(ns: seq<Notification>): (r: set<nat>)
    ensures forall i: nat :: i in r <==> i < |ns| && ns[i].state == Idle
  {
    set i: nat | i < |ns| && ns[i].state == Idle
  }

  /** Every reported number was announced by a RINGING notification from the initial tracker on. */
  lemma {:induction false} MissedNumbersWereRinging(ns: seq<Notification>, k: nat)
    requires k < |RunFrom(Initial, ns).missed|
    ensures exists i :: 0 <= i < |ns| && ns[i].state == Ringing && ns[i].number == Some(RunFrom(Initial, ns).missed[k])
  {
    var prefix := ns[..|ns| - 1];
    var before := RunFrom(Initial, prefix);
    if k < |before.missed| {
      MissedNumbersWereRinging(prefix, k);
      var i :| 0 <= i < |prefix| && prefix[i].state == Ringing && prefix[i].number == Some(before.missed[k]);
      assert ns[i] == prefix[i];
    } else {
      RunRemembersPendingCaller(prefix);
      PendingCallerWasRinging(prefix);
    }
  }

  lemma {:induction false} PendingCallerWasRinging(ns: seq<Notification>)
    requires PendingCaller(ns).Some?
    ensures exists i :: 0 <= i < |ns| && ns[i].state == Ringing && ns[i].number == PendingCaller(ns)
  {
    var last := ns[|ns| - 1];
    if !(last.state == Ringing && last.number.Some?) {
      var prefix := ns[..|ns| - 1];
      PendingCallerWasRinging(prefix);
      var i :| 0 <= i < |prefix| && prefix[i].state == Ringing && prefix[i].number == PendingCaller(prefix);
      assert ns[i] == prefix[i];
    }
  }

  /** Running one more notification is one more `Next` step. */
  lemma RunFromSnoc(t: Tracker, ns: seq<Notification>, n: Notification)
    ensures RunFrom(t, ns + [n]) ==
              Run(Next(RunFrom(t, ns).final, n).after, RunFrom(t, ns).missed + Next(RunFrom(t, ns).final, n).missed.ToSeq())
  {
    assert (ns + [n])[..|ns + [n]| - 1] == ns;
  }

  /** An answered call, RINGING then OFFHOOK then IDLE, is never reported. */
  lemma AnsweredCallNotMissed(t: Tracker, caller: string, a: Option<string>, b: Option<string>)
    ensures RunFrom(t, [Notification(Ringing, Some(caller)), Notification(Offhook, a), Notification(Idle, b)]).missed == []
  {
    var ring, answer, hangUp := Notification(Ringing, Some(caller)), Notification(Offhook, a), Notification(Idle, b);
    RunFromSnoc(t, [], ring);
    RunFromSnoc(t, [ring], answer);
    RunFromSnoc(t, [ring, answer], hangUp);
    assert [ring] == [] + [ring];
    assert [ring, answer] == [ring] + [answer];
    assert [ring, answer, hangUp] == [ring, answer] + [hangUp];
  }

  /** A call that rings and goes straight back to idle is reported once, with the ringing number. */
  lemma UnansweredCallMissedOnce(t: Tracker, caller: string, b: Option<string>)
    ensures RunFrom(t, [Notification(Ringing, Some(caller)), Notification(Idle, b)]).missed == [caller]
  {
    var ring, hangUp := Notification(Ringing, Some(caller)), Notification(Idle, b);
    RunFromSnoc(t, [], ring);
    RunFromSnoc(t, [ring], hangUp);
    assert [ring] == [] + [ring];
    assert [ring, hangUp] == [ring] + [hangUp];
  }

  /** After an IDLE, a ring without a number followed by IDLE reports nothing more: no stale caller survives. */
  lemma NoStaleCallerAfterIdle(t: Tracker, a: Option<string>, b: Option<string>)
    ensures RunFrom(t, [Notification(Idle, a), Notification(Ringing, None), Notification(Idle, b)]).missed ==
            RunFrom(t, [Notification(Idle, a)]).missed
  {
    var end, ring, hangUp := Notification(Idle, a), Notification(Ringing, None), Notification(Idle, b);
    RunFromSnoc(t, [], end);
    RunFromSnoc(t, [end], ring);
    RunFromSnoc(t, [end, ring], hangUp);
    assert [end] == [] + [end];
    assert [end, ring] == [end] + [ring];
    assert [end, ring, hangUp] == [end, ring] + [hangUp];
  }

  /**
   * The receiver. The source keeps its memory in a companion object shared by
   * every broadcast; here it is one explicitly created object. `dispatched`
   * logs every number handed to the dispatcher.
   */
  class CallReceiver {
    var lastState: CallState
    var incomingNumber: Option<string>
    var isIncoming: bool
    ghost var dispatched: seq<string>

    function State(): Tracker
      reads this
    {
      Tracker(lastState, incomingNumber, isIncoming)
    }

    ghost predicate Valid()
      reads this
    {
      Consistent(State())
    }

    constructor ()
      ensures Valid() && State() == Initial && dispatched == []
    {
      lastState := Idle;
      incomingNumber := None;
      isIncoming := false;
      dispatched := [];
    }

    /** `onCallStateChanged`: update the memory and return the missed caller to reply to, if any. */
    method OnCallStateChanged(state: CallState, number: Option<string>) returns (missed: Option<string>)
      requires Valid()
      modifies this
      ensures Valid()
      ensures Transition(State(), missed) == Next(old(State()), Notification(state, number))
      ensures dispatched == old(dispatched) + missed.ToSeq()
    {
      if state == Ringing && number.Some? {
        incomingNumber := number;
        isIncoming := true;
      }
      missed := None;
      if lastState == Ringing && state == Idle && isIncoming {
        missed := incomingNumber;
      }
      if state == Idle {
        isIncoming := false;
        incomingNumber := None;
      }
      lastState := state;
      dispatched := dispatched + missed.ToSeq();
    }

    /**
     * `onReceive`: ignore other actions and unknown states; otherwise run the
     * tracker and, for a missed call, the dispatcher. The dispatcher runs after
     * the tracker update here; it touches none of the tracker's fields.
     * `now` and `sentAt` are the dispatcher's two clock readings.
     */
    method OnReceive(action: string, stateExtra: Option<string>, numberExtra: Option<string>,
                     prefs: PreferencesManager, sms: SmsManager, now: Long, sentAt: Long)
      returns (reply: Option<Outcome>)
      requires Valid()
      modifies this, prefs, sms
      ensures Valid()
      ensures |sms.calls| >= |old(sms.calls)| && sms.calls[..|old(sms.calls)|] == old(sms.calls)
      ensures action != ACTION_PHONE_STATE_CHANGED || ParseState(stateExtra) == None ==>
                State() == old(State()) && dispatched == old(dispatched) && reply == None &&
                prefs.prefs == old(prefs.prefs) && sms.calls == old(sms.calls)
      ensures action == ACTION_PHONE_STATE_CHANGED && ParseState(stateExtra).Some? ==>
                var step := Next(old(State()), Notification(ParseState(stateExtra).value, numberExtra));
                State() == step.after && dispatched == old(dispatched) + step.missed.ToSeq() &&
                (step.missed == None ==> reply == None && prefs.prefs == old(prefs.prefs) && sms.calls == old(sms.calls)) &&
                (step.missed.Some? ==>
                   && reply.Some?
                   && (!old(prefs.prefs).autoReplyEnabled ==>
                         reply == Some(SkippedDisabled) && sms.calls == old(sms.calls))
                   && (old(prefs.prefs).autoReplyEnabled && !ShouldSendSms(old(prefs.prefs), step.missed.value, now) ==>
                         reply == Some(SkippedRateLimited) && sms.calls == old(sms.calls))
                   && (old(prefs.prefs).autoReplyEnabled && ShouldSendSms(old(prefs.prefs), step.missed.value, now) ==>
                         (reply == Some(Sent) || reply == Some(SendFailed)) &&
                         SendsMessage(sms.calls[|old(sms.calls)|..], step.missed.value,
                                      CurrentMessage(old(prefs.prefs)) + MESSAGE_SIGNATURE, reply == Some(Sent)))
                   && prefs.prefs == if reply == Some(Sent) then WithReply(old(prefs.prefs), step.missed.value, sentAt)
                                     else old(prefs.prefs))
    {
      reply := None;
      if action != ACTION_PHONE_STATE_CHANGED {
        return;
      }
      var state := ParseState(stateExtra);
      if state == None {
        return;
      }
      var missed := OnCallStateChanged(state.value, numberExtra);
      if missed.Some? {
        var outcome := SendAutoReplyMessage(prefs, sms, missed.value, now, sentAt);
        reply := Some(outcome);
      }
    }
  }
}
