/**
 * The persisted settings and the rules computed from them: which status is
 * current, which message to send, phone-number normalisation and the
 * five-minute same-number rate limit.
 */
module Preferences {
  import opened Wrappers
  import opened StatusTypes

  /** Kotlin `Long`: a signed 64-bit integer. */
  const LONG_MIN: int := -0x8000_0000_0000_0000
  const LONG_MAX: int := 0x7FFF_FFFF_FFFF_FFFF
  type Long = x: int | LONG_MIN <= x <= LONG_MAX

  /** `a - b` on `Long`, which wraps around modulo 2^64 when it overflows. */
  function LongMinus(a: Long, b: Long): (r: Long)
    ensures LONG_MIN <= a - b <= LONG_MAX ==> r == a - b
    ensures a - b > LONG_MAX ==> r == a - b - 0x1_0000_0000_0000_0000
    ensures a - b < LONG_MIN ==> r == a - b + 0x1_0000_0000_0000_0000
  {
    (a - b - LONG_MIN) % 0x1_0000_0000_0000_0000 + LONG_MIN
  }

  /** Minimum time between two replies to the same number: five minutes in milliseconds. */
  const SPAM_PREVENTION_DELAY_MS: Long := 5 * 60 * 1000

  /** The reply used for CUSTOM when the user left the custom text empty. */
  const CUSTOM_FALLBACK_MESSAGE: string := "I missed your call. Will get back to you soon!"

  /**
   * The five stored values, each as its getter reads it, so an absent key
   * already holds its default: the status is kept as an enum name.
   */
  datatype Settings = Settings(
    statusName: string,
    customMessage: string,
    autoReplyEnabled: bool,
    lastRepliedNumber: string,
    lastReplyTimestamp: Long)

  /** A store in which no key has been written yet. */
  const Defaults: Settings := Settings(Name(Busy), "", false, "", 0)

  /** The `currentStatus` getter: the stored name's status, or BUSY when no status has that name. */
  function CurrentStatus(s: Settings): (r: StatusType)
    ensures Name(r) == s.statusName || (r == Busy && forall t :: Name(t) != s.statusName)
  {
    match ValueOf(s.statusName)
    case Some(t) => t
    case None => Busy
  }

  /** `getCurrentMessage()`: the text a reply will carry before the signature. */
  function CurrentMessage(s: Settings): (r: string)
    ensures CurrentStatus(s) == Custom && s.customMessage == [] ==> r == CUSTOM_FALLBACK_MESSAGE
    ensures CurrentStatus(s) == Custom && s.customMessage != [] ==> r == s.customMessage
    ensures CurrentStatus(s) != Custom ==> r == DefaultMessage(CurrentStatus(s))
    ensures r != []
  {
    if CurrentStatus(s) == Custom then
      (if s.customMessage == [] then CUSTOM_FALLBACK_MESSAGE else s.customMessage)
    else
      DefaultMessage(CurrentStatus(s))
  }

  /** The characters that the normalising pattern `[^0-9+]` does not remove. */
  predicate IsPhoneChar(c: char) {
    '0' <= c <= '9' || c == '+'
  }

  /** `normalizePhoneNumber`: drop every character other than an ASCII digit or `+`. */
  function Normalize(phone: string): (r: string)
    ensures |r| <= |phone|
    ensures forall i :: 0 <= i < |r| ==> IsPhoneChar(r[i])
  {
    if phone == [] then []
    else (if IsPhoneChar(phone[0]) then [phone[0]] else []) + Normalize(phone[1..])
  }

  /** `shouldSendSms`: false only for the last replied-to number within five minutes of that reply. */
  function ShouldSendSms(s: Settings, phone: string, now: Long): (r: bool)
    ensures s.lastRepliedNumber != Normalize(phone) ==> r
    ensures LONG_MIN <= now - s.lastReplyTimestamp <= LONG_MAX ==>
              (!r <==> s.lastRepliedNumber == Normalize(phone) && now - s.lastReplyTimestamp < SPAM_PREVENTION_DELAY_MS)
  {
    var normalized := Normalize(phone);
    if s.lastRepliedNumber == normalized && LongMinus(now, s.lastReplyTimestamp) < SPAM_PREVENTION_DELAY_MS then
      false
    else
      true
  }

  /** The store after `recordSmsSent(phone)` at time `now`. */
  function WithReply(s: Settings, phone: string, now: Long): (r: Settings)
    ensures r.lastRepliedNumber == Normalize(phone) && r.lastReplyTimestamp == now
    ensures CurrentStatus(r) == CurrentStatus(s) && CurrentMessage(r) == CurrentMessage(s)
    ensures r.autoReplyEnabled == s.autoReplyEnabled && r.customMessage == s.customMessage
    ensures !ShouldSendSms(r, phone, now)
  {
    s.(lastRepliedNumber := Normalize(phone), lastReplyTimestamp := now)
  }

  /** `s` is `t` with some characters left out, order kept. */
  predicate IsSubsequence(s: string, t: string)
    decreases |t|
  {
    if t == [] then s == []
    else (s != [] && s[0] == t[0] && IsSubsequence(s[1..], t[1..])) || IsSubsequence(s, t[1..])
  }

  /** Normalising a concatenation normalises each part. */
  lemma {:induction false} NormalizeConcat(a: string, b: string)
    ensures Normalize(a + b) == Normalize(a) + Normalize(b)
  {
    if a == [] {
      assert a + b == b;
    } else {
      var head := if IsPhoneChar(a[0]) then [a[0]] else [];
      assert (a + b)[0] == a[0];
      assert (a + b)[1..] == a[1..] + b;
      NormalizeConcat(a[1..], b);
      calc {
        Normalize(a + b);
        head + Normalize(a[1..] + b);
        head + (Normalize(a[1..]) + Normalize(b));
        (head + Normalize(a[1..])) + Normalize(b);
      }
    }
  }

  /** A string made only of digits and `+` is left as it is. */
  lemma {:induction false} NormalizeKeepsPhoneString(s: string)
    requires forall i :: 0 <= i < |s| ==> IsPhoneChar(s[i])
    ensures Normalize(s) == s
  {
    if s != [] {
      NormalizeKeepsPhoneString(s[1..]);
    }
  }

  lemma NormalizeIdempotent(s: string)
    ensures Normalize(Normalize(s)) == Normalize(s)
  {
    NormalizeKeepsPhoneString(Normalize(s));
  }

  /** The normal form keeps characters of the input in their original order. */
  lemma {:induction false} NormalizeIsSubsequence(s: string)
    ensures IsSubsequence(Normalize(s), s)
  {
    if s != [] {
      NormalizeIsSubsequence(s[1..]);
      if IsPhoneChar(s[0]) {
        assert Normalize(s) == [s[0]] + Normalize(s[1..]);
        assert Normalize(s)[1..] == Normalize(s[1..]);
      } else {
        assert Normalize(s) == Normalize(s[1..]);
      }
    }
  }

  /** Every digit and `+` of the input survives, each as often as it occurs; nothing else does. */
  lemma {:induction false} NormalizeCounts(s: string, c: char)
    ensures multiset(Normalize(s))[c] == if IsPhoneChar(c) then multiset(s)[c] else 0
  {
    if s != [] {
      NormalizeCounts(s[1..], c);
      assert s == [s[0]] + s[1..];
      assert multiset(s) == multiset([s[0]]) + multiset(s[1..]);
    }
  }

  /** Normal forms of pieces already known give the normal form of the whole. */
  lemma NormalizeJoin(a: string, b: string, na: string, nb: string)
    requires Normalize(a) == na && Normalize(b) == nb
    ensures Normalize(a + b) == na + nb
  {
    NormalizeConcat(a, b);
  }

  /** "+1 (555) 123-4567" normalises to "+15551234567" (written in pieces to keep the proof small). */
  lemma NormalizeFormattedExample()
    ensures Normalize("+1 (" + "555) " + "123-" + "4567") == "+1" + "555" + "123" + "4567"
  {
    assert Normalize("+1 (" + "555) ") == "+1" + "555" by {
      NormalizeJoin("+1 (", "555) ", "+1", "555");
    }
    assert Normalize("123-" + "4567") == "123" + "4567" by {
      NormalizeJoin("123-", "4567", "123", "4567");
    }
    NormalizeJoin("+1 (" + "555) ", "123-" + "4567", "+1" + "555", "123" + "4567");
    assert "+1 (" + "555) " + "123-" + "4567" == ("+1 (" + "555) ") + ("123-" + "4567");
    assert "+1" + "555" + "123" + "4567" == ("+1" + "555") + ("123" + "4567");
  }

  /** A `+` inside the number is kept too, not only a leading one. */
  lemma NormalizeKeepsInnerPlus()
    ensures Normalize("555+" + "0100 " + "ext") == "555+" + "0100"
  {
    NormalizeJoin("555+", "0100 ", "555+", "0100");
    NormalizeJoin("555+" + "0100 ", "ext", "555+" + "0100", "");
  }

  /** Writing a status and then reading it gives that status back. */
  lemma StatusRoundTrip(s: Settings, st: StatusType)
    ensures CurrentStatus(s.(statusName := Name(st))) == st
  {
  }

  /** A name the enum does not have reads as BUSY. */
  lemma UnknownStatusNameReadsBusy(s: Settings)
    requires forall t :: Name(t) != s.statusName
    ensures CurrentStatus(s) == Busy
  {
  }

  /** Names are case-sensitive: a lower-case name is unknown and reads as BUSY. */
  lemma LowerCaseStatusNameReadsBusy(s: Settings)
    requires s.statusName == "lunch"
    ensures CurrentStatus(s) == Busy
  {
    UnknownStatusNameReadsBusy(s);
  }

  /** LUNCH gives its default text; CUSTOM gives the custom text, or the fallback when that is empty. */
  lemma MessageSelectionExamples(s: Settings)
    ensures CurrentMessage(s.(statusName := Name(Lunch))) == LUNCH_MESSAGE
    ensures CurrentMessage(s.(statusName := Name(Custom), customMessage := "")) == CUSTOM_FALLBACK_MESSAGE
    ensures CurrentMessage(s.(statusName := Name(Custom), customMessage := "Call later")) == "Call later"
  {
  }

  /** A fresh store: BUSY, the BUSY message, auto-reply off. */
  lemma DefaultsReadAs()
    ensures CurrentStatus(Defaults) == Busy
    ensures CurrentMessage(Defaults) == DefaultMessage(Busy)
    ensures !Defaults.autoReplyEnabled
  {
  }

  /** After a reply at `t`, any number with the same normal form is refused until `t` plus five minutes. */
  lemma RecordedNumberBlockedInWindow(s: Settings, phone: string, other: string, t: Long, later: Long)
    requires Normalize(other) == Normalize(phone)
    requires t <= later < t + SPAM_PREVENTION_DELAY_MS
    ensures !ShouldSendSms(WithReply(s, phone, t), other, later)
  {
  }

  /** From five minutes after the reply on, the same number is allowed again (clock readings are non-negative). */
  lemma RecordedNumberAllowedAfterWindow(s: Settings, phone: string, t: Long, later: Long)
    requires 0 <= t && t + SPAM_PREVENTION_DELAY_MS <= later
    ensures ShouldSendSms(WithReply(s, phone, t), phone, later)
  {
  }

  /** The formatted and the plain international form share a rate limit; the form without `+` does not. */
  lemma RateLimitExamples(s: Settings, t: Long)
    requires 0 <= t && t + SPAM_PREVENTION_DELAY_MS < LONG_MAX
    ensures !ShouldSendSms(WithReply(s, "+1 (" + "555) " + "123-" + "4567", t), "+1" + "555" + "123" + "4567", t + 1)
    ensures ShouldSendSms(WithReply(s, "+1 (" + "555) " + "123-" + "4567", t), "1" + "555" + "123" + "4567", t + 1)
    ensures ShouldSendSms(WithReply(s, "+1 (" + "555) " + "123-" + "4567", t), "+1" + "555" + "123" + "4567",
                          t + SPAM_PREVENTION_DELAY_MS + 1)
  {
    NormalizeFormattedExample();
    NormalizeKeepsPhoneString("+1" + "555" + "123" + "4567");
    NormalizeKeepsPhoneString("1" + "555" + "123" + "4567");
  }

  /**
   * The settings store. Every `PreferencesManager` of the app opens the same
   * preferences file, so one object stands for all of them.
   */
  class PreferencesManager {
    var prefs: Settings

    constructor ()
      ensures prefs == Defaults
    {
      prefs := Defaults;
    }

    /** The `currentStatus` setter stores the enum name. */
    method SetCurrentStatus(st: StatusType)
      modifies this
      ensures prefs == old(prefs).(statusName := Name(st))
      ensures CurrentStatus(prefs) == st
    {
      prefs := prefs.(statusName := Name(st));
    }

    method SetCustomMessage(message: string)
      modifies this
      ensures prefs == old(prefs).(customMessage := message)
    {
      prefs := prefs.(customMessage := message);
    }

    method SetAutoReplyEnabled(enabled: bool)
      modifies this
      ensures prefs == old(prefs).(autoReplyEnabled := enabled)
    {
      prefs := prefs.(autoReplyEnabled := enabled);
    }

    /** `recordSmsSent`: store the normalised number, then the time, leaving every other setting alone. */
    method RecordSmsSent(phone: string, now: Long)
      modifies this
      ensures prefs == WithReply(old(prefs), phone, now)
      ensures forall later: Long :: now <= later < now + SPAM_PREVENTION_DELAY_MS ==> !ShouldSendSms(prefs, phone, later)
    {
      prefs := prefs.(lastRepliedNumber := Normalize(phone));
      prefs := prefs.(lastReplyTimestamp := now);
    }
  }
}
