/**
 * The auto-reply dispatcher: the guard chain (enabled, then rate limit), the
 * composed message, and the single-or-multipart send through the SMS provider.
 */
module AutoReply {
  import opened Wrappers
  import opened StatusTypes
  import opened Preferences

  /** A message longer than this many UTF-16 code units is split into parts. */
  const MAX_SMS_LENGTH: nat := 160

  /** Appended to every reply. */
  const MESSAGE_SIGNATURE: string := "\n\n-Sent from Auto Reply Calls"

  /** Kotlin's `String.length`: UTF-16 code units, two for a character outside the Basic Multilingual Plane. */
  function Utf16Length(s: string): (n: nat)
    ensures |s| <= n <= 2 * |s|
  {
    if s == [] then 0 else (if IsSupplementary(s[0]) then 2 else 1) + Utf16Length(s[1..])
  }

  /** A character that UTF-16 encodes as a surrogate pair. */
  predicate IsSupplementary(c: char) {
    c as int >= 0x10000
  }

  lemma {:induction false} Utf16LengthConcat(a: string, b: string)
    ensures Utf16Length(a + b) == Utf16Length(a) + Utf16Length(b)
  {
    if a != [] {
      assert (a + b)[0] == a[0];
      assert (a + b)[1..] == a[1..] + b;
      Utf16LengthConcat(a[1..], b);
    } else {
      assert a + b == b;
    }
  }

  /** The UTF-16 length equals the number of characters exactly when none needs a surrogate pair. */
  lemma {:induction false} Utf16LengthIsCharCount(s: string)
    ensures Utf16Length(s) == |s| <==> forall i :: 0 <= i < |s| ==> !IsSupplementary(s[i])
  {
    if s != [] {
      Utf16LengthIsCharCount(s[1..]);
      assert forall i :: 1 <= i < |s| ==> s[i] == s[1..][i - 1];
    }
  }

  /** One call made to the SMS provider, with what it was given and what it gave back. */
  datatype ProviderCall =
    | Divide(text: string, parts: seq<string>)
    | SendText(destination: string, text: string, accepted: bool)
    | SendMultipartText(destination: string, parts: seq<string>, accepted: bool)

  predicate IsSend(c: ProviderCall) {
    c.SendText? || c.SendMultipartText?
  }

  /** The number of send calls in a run of provider calls. */
  function SendCount(calls: seq<ProviderCall>): (n: nat)
    ensures n <= |calls|
  {
    if calls == [] then 0 else (if IsSend(calls[0]) then 1 else 0) + SendCount(calls[1..])
  }

  /**
   * `calls` is what `sendSms(destination, message)` asks of the provider: one
   * single-part send when the message fits, otherwise the provider's split
   * followed by one multipart send of exactly the parts it returned.
   */
  ghost predicate SendsMessage(calls: seq<ProviderCall>, destination: string, message: string, accepted: bool) {
    if Utf16Length(message) <= MAX_SMS_LENGTH then
      calls == [SendText(destination, message, accepted)]
    else
      |calls| == 2 && calls[0].Divide? && calls[0].text == message &&
      calls[1] == SendMultipartText(destination, calls[0].parts, accepted)
  }

  /** Sending one message is exactly one send call, and it is the last call. */
  lemma SendsMessageSendsOnce(calls: seq<ProviderCall>, destination: string, message: string, accepted: bool)
    requires SendsMessage(calls, destination, message, accepted)
    ensures SendCount(calls) == 1
    ensures IsSend(calls[|calls| - 1]) && calls[|calls| - 1].accepted == accepted
  {
    if Utf16Length(message) > MAX_SMS_LENGTH {
      assert calls[1..][1..] == [];
    }
  }

  /**
   * The platform SMS service. Its results are not known to the app: a send
   * may be rejected (the platform throws) and the split is the provider's own.
   * `calls` records every request in order.
   */
  class SmsManager {
    ghost var calls: seq<ProviderCall>

    constructor ()
      ensures calls == []
    {
      calls := [];
    }

    /** `divideMessage`: the provider's parts, about which nothing is promised. */
    method DivideMessage(text: string) returns (parts: seq<string>)
      modifies this
      ensures calls == old(calls) + [Divide(text, parts)]
    {
      parts :| true;
      calls := calls + [Divide(text, parts)];
    }

    /** `sendTextMessage`; `accepted` is false where the platform throws. */
    method SendTextMessage(destination: string, text: string) returns (accepted: bool)
      modifies this
      ensures calls == old(calls) + [SendText(destination, text, accepted)]
    {
      accepted :| true;
      calls := calls + [SendText(destination, text, accepted)];
    }

    /** `sendMultipartTextMessage`; `accepted` is false where the platform throws. */
    method SendMultipartTextMessage(destination: string, parts: seq<string>) returns (accepted: bool)
      modifies this
      ensures calls == old(calls) + [SendMultipartText(destination, parts, accepted)]
    {
      accepted :| true;
      calls := calls + [SendMultipartText(destination, parts, accepted)];
    }
  }

  /** Why a dispatch did or did not send; the source's Boolean result is `Replied`. */
  datatype Outcome = Sent | SkippedDisabled | SkippedRateLimited | SendFailed {
    predicate Replied() {
      Sent?
    }
  }

  /** `sendSms`: one part when the message fits 160 UTF-16 code units, otherwise the provider's parts. */
  method SendSms(sms: SmsManager, phone: string, message: string) returns (accepted: bool)
    modifies sms
    ensures |sms.calls| >= |old(sms.calls)| && sms.calls[..|old(sms.calls)|] == old(sms.calls)
    ensures SendsMessage(sms.calls[|old(sms.calls)|..], phone, message, accepted)
  {
    if Utf16Length(message) <= MAX_SMS_LENGTH {
      accepted := sms.SendTextMessage(phone, message);
    } else {
      var parts := sms.DivideMessage(message);
      accepted := sms.SendMultipartTextMessage(phone, parts);
    }
  }

  /**
   * `sendAutoReplyMessage(phone)`: nothing happens when auto-reply is off or
   * the number was replied to within five minutes of `now`; otherwise the
   * current message plus the signature is sent to `phone` as given, and only a
   * send the platform accepted is recorded for the rate limit. The source reads
   * the clock twice: `now` for the rate-limit check and `sentAt`, after the
   * send, for the record.
   */
  method SendAutoReplyMessage(prefs: PreferencesManager, sms: SmsManager, phone: string, now: Long, sentAt: Long)
    returns (outcome: Outcome)
    modifies prefs, sms
    ensures |sms.calls| >= |old(sms.calls)| && sms.calls[..|old(sms.calls)|] == old(sms.calls)
    ensures !old(prefs.prefs).autoReplyEnabled ==>
              outcome == SkippedDisabled && prefs.prefs == old(prefs.prefs) && sms.calls == old(sms.calls)
    ensures old(prefs.prefs).autoReplyEnabled && !ShouldSendSms(old(prefs.prefs), phone, now) ==>
              outcome == SkippedRateLimited && prefs.prefs == old(prefs.prefs) && sms.calls == old(sms.calls)
    ensures old(prefs.prefs).autoReplyEnabled && ShouldSendSms(old(prefs.prefs), phone, now) ==>
              (outcome == Sent || outcome == SendFailed) &&
              SendsMessage(sms.calls[|old(sms.calls)|..], phone,
                           CurrentMessage(old(prefs.prefs)) + MESSAGE_SIGNATURE, outcome == Sent)
    ensures prefs.prefs == if outcome == Sent then WithReply(old(prefs.prefs), phone, sentAt) else old(prefs.prefs)
    ensures outcome.Replied() <==>
              SendCount(sms.calls[|old(sms.calls)|..]) == 1 && sms.calls[|sms.calls| - 1].accepted &&
              prefs.prefs == WithReply(old(prefs.prefs), phone, sentAt)
  {
    if !prefs.prefs.autoReplyEnabled {
      return SkippedDisabled;
    }
    if !ShouldSendSms(prefs.prefs, phone, now) {
      return SkippedRateLimited;
    }
    var message := CurrentMessage(prefs.prefs) + MESSAGE_SIGNATURE;
    var accepted := SendSms(sms, phone, message);
    SendsMessageSendsOnce(sms.calls[|old(sms.calls)|..], phone, message, accepted);
    if accepted {
      prefs.RecordSmsSent(phone, sentAt);
      outcome := Sent;
    } else {
      outcome := SendFailed;
    }
  }

  /** Two missed calls from one number less than five minutes after the first reply get at most one reply. */
  method ReplyTwice(prefs: PreferencesManager, sms: SmsManager, phone: string,
                    first: Long, firstSentAt: Long, second: Long, secondSentAt: Long)
    returns (o1: Outcome, o2: Outcome)
    requires firstSentAt <= second < firstSentAt + SPAM_PREVENTION_DELAY_MS
    modifies prefs, sms
    ensures o1 == Sent ==> o2 == SkippedRateLimited
    ensures !old(prefs.prefs).autoReplyEnabled ==> o1 == SkippedDisabled && o2 == SkippedDisabled
  {
    o1 := SendAutoReplyMessage(prefs, sms, phone, first, firstSentAt);
    o2 := SendAutoReplyMessage(prefs, sms, phone, second, secondSentAt);
  }
}
