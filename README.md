# Auto Reply Calls — a verified model of the missed-call auto-responder

This project models the logic of an Android app that notices missed calls and texts the
caller a status-based reply. Three parts cooperate:

- **the call-state tracker** (`CallReceiver`): it sees telephony broadcasts one at a time.
  It remembers the previous call state and the ringing caller. When a ringing call goes
  straight back to idle, it hands that caller's number to the dispatcher;
- **the settings and spam-prevention rules** (`PreferencesManager`, `StatusType`): the
  current status and its message, the custom text, the on/off flag, and the last reply
  (number and time). These give the five-minute same-number rate limit;
- **the auto-reply dispatcher** (`SmsSender`): it checks the on/off flag, then the rate
  limit. It then sends the current message plus a fixed signature, as one SMS or as a
  multipart SMS. It records the reply only when the platform accepted the send.

Files and modules, one per source file:

| file | module | source |
|---|---|---|
| `wrappers.dfy` | `Wrappers` | `Option`, for Kotlin's nullable values |
| `status_type.dfy` | `StatusTypes` | `data/StatusType.kt` |
| `preferences.dfy` | `Preferences` | `data/PreferencesManager.kt` |
| `sms_sender.dfy` | `AutoReply` | `sms/SmsSender.kt` |
| `call_receiver.dfy` | `CallTracking` | `receiver/CallReceiver.kt` |

Modelling choices:

- The preference store is the datatype `Settings`. It holds the five stored values with
  their defaults: status name `"BUSY"`, empty custom text, auto-reply off, empty last
  number, timestamp 0. The class `PreferencesManager` holds one `Settings`, and its setters
  and `RecordSmsSent` replace it. The getters and rules are functions over `Settings`:
  `CurrentStatus`, `CurrentMessage`, `ShouldSendSms` and `Normalize`.
- Every `PreferencesManager` the app creates opens the same preferences file. So one
  object stands for all of them, and the dispatcher is handed that object.
- The clock (`System.currentTimeMillis()`) becomes parameters typed as a Kotlin `Long`.
  The dispatcher reads it twice: once in `shouldSendSms` (`now`), and again in
  `recordSmsSent` after the send (`sentAt`). The two readings are separate parameters,
  and the record stores `sentAt`. The subtraction in `shouldSendSms` is Kotlin's 64-bit subtraction, which wraps
  around (`LongMinus`). The contracts also state the rule in plain arithmetic wherever no
  overflow happens.
- Kotlin's `String.length` counts UTF-16 code units. A character outside the Basic
  Multilingual Plane counts twice (`Utf16Length`). That count decides between the
  single-part send and the multipart send.
- The platform SMS service is the class `SmsManager`. Its send results and its message
  split are left unknown: a send may be accepted or rejected (the platform throws), and
  the parts may be any sequence. A ghost log `calls` records every request, so a
  contract can say what was asked of the provider.
- The tracker's companion-object fields are the fields of one `CallReceiver` object.
  `OnCallStateChanged` is proved equal to the function `Next`. A ghost log `dispatched`
  records every number handed to the dispatcher. `OnReceive` maps the broadcast to a
  state, runs the tracker, and then runs the dispatcher when a call was missed.
- In the source, the dispatcher is called between the missed-call test and the reset
  of the tracker. The model calls it after the tracker update. The two orders behave the
  same, because the dispatcher touches none of the tracker's fields.
- The dispatcher returns an `Outcome`: `Sent`, `SkippedDisabled`, `SkippedRateLimited`
  or `SendFailed`. The source's Boolean result is `Outcome.Replied()`, which holds only
  for `Sent`.
- Normalisation keeps every ASCII digit and **every** `+`, wherever it stands. The doc
  comment on `normalizePhoneNumber` speaks only of removing non-digit characters, and a
  plus sign is usually meant only at the front. The pattern `[^0-9+]` removes no `+` at
  all, and the model follows the pattern. `NormalizeKeepsInnerPlus` shows this.

## Model

| member | source | states |
|---|---|---|
| `StatusTypes.ExactlyFiveStatuses` | app/src/main/java/com/autoreply/calls/data/StatusType.kt:6-35 | There are exactly five statuses (LUNCH, MEETING, DRIVING, BUSY, CUSTOM), each listed once in declaration order. |
| `StatusTypes.DefaultMessageEmptyOnlyForCustom` | app/src/main/java/com/autoreply/calls/data/StatusType.kt:11-35 | CUSTOM's default message is empty, and every other status has a non-empty fixed default message. |
| `StatusTypes.FullDisplayName` | app/src/main/java/com/autoreply/calls/data/StatusType.kt:37 | The full display name is the emoji, one space, then the display name. No emoji contains a space, so the first space in the label separates the emoji from the name. |
| `StatusTypes.FullDisplayNameInjective` | app/src/main/java/com/autoreply/calls/data/StatusType.kt:11-37 | Different statuses have different full display names. |
| `StatusTypes.ValueOf` | app/src/main/java/com/autoreply/calls/data/StatusType.kt:6-35 | `valueOf(name)` gives status `s` exactly when `name` is `s`'s enum name. It gives nothing (Kotlin throws) when no status has that name. |
| `StatusTypes.NameInjective` | app/src/main/java/com/autoreply/calls/data/StatusType.kt:11-35 | Enum names are distinct, so a name identifies its status. |
| `StatusTypes.ValueOfName` | app/src/main/java/com/autoreply/calls/data/StatusType.kt:6-35 | Looking up a status's own name gives that status back. |
| `Preferences.LongMinus` | app/src/main/java/com/autoreply/calls/data/PreferencesManager.kt:86 | A 64-bit `Long` subtraction is the exact difference when that fits in a `Long`. Otherwise it is the difference shifted by 2^64. |
| `Preferences.CurrentStatus` | app/src/main/java/com/autoreply/calls/data/PreferencesManager.kt:28-36 | The current status is the one whose name is stored. It is BUSY when no status has the stored name. |
| `Preferences.StatusRoundTrip` | app/src/main/java/com/autoreply/calls/data/PreferencesManager.kt:28-39 | Storing a status through the setter and reading it back through the getter gives the same status. |
| `Preferences.UnknownStatusNameReadsBusy` | app/src/main/java/com/autoreply/calls/data/PreferencesManager.kt:31-35 | Every stored name that is no status's enum name reads as BUSY. |
| `Preferences.LowerCaseStatusNameReadsBusy` | app/src/main/java/com/autoreply/calls/data/PreferencesManager.kt:31-35 | Names are case-sensitive: the stored name "lunch" reads as BUSY, not LUNCH. |
| `Preferences.DefaultsReadAs` | app/src/main/java/com/autoreply/calls/data/PreferencesManager.kt:28-63 | A store with no keys written reads as BUSY, with BUSY's message, and auto-reply off. |
| `Preferences.CurrentMessage` | app/src/main/java/com/autoreply/calls/data/PreferencesManager.kt:69-75 | CUSTOM with empty custom text gives the fixed fallback text. CUSTOM with non-empty text gives that text. Any other status gives its default message. The result is never empty. |
| `Preferences.MessageSelectionExamples` | app/src/main/java/com/autoreply/calls/data/PreferencesManager.kt:69-75 | LUNCH gives the lunch message. CUSTOM with "" gives the fallback. CUSTOM with "Call later" gives "Call later". |
| `Preferences.Normalize` | app/src/main/java/com/autoreply/calls/data/PreferencesManager.kt:105-107 | The normal form is no longer than the input and holds only ASCII digits and `+`. |
| `Preferences.NormalizeConcat` | app/src/main/java/com/autoreply/calls/data/PreferencesManager.kt:106 | Normalising works character by character: the normal form of a concatenation is the concatenation of the normal forms. |
| `Preferences.NormalizeCounts` | app/src/main/java/com/autoreply/calls/data/PreferencesManager.kt:106 | Every digit and `+` of the input occurs in the normal form exactly as often as in the input. No other character occurs. |
| `Preferences.NormalizeIsSubsequence` | app/src/main/java/com/autoreply/calls/data/PreferencesManager.kt:106 | The normal form is a subsequence of the input: characters are dropped, and the original order is kept. |
| `Preferences.NormalizeKeepsPhoneString` | app/src/main/java/com/autoreply/calls/data/PreferencesManager.kt:106 | A string made only of digits and `+` is its own normal form. |
| `Preferences.NormalizeIdempotent` | app/src/main/java/com/autoreply/calls/data/PreferencesManager.kt:106 | Normalising twice gives the same result as normalising once. |
| `Preferences.NormalizeFormattedExample` | app/src/main/java/com/autoreply/calls/data/PreferencesManager.kt:106 | "+1 (555) 123-4567" normalises to "+15551234567". |
| `Preferences.NormalizeKeepsInnerPlus` | app/src/main/java/com/autoreply/calls/data/PreferencesManager.kt:106 | A `+` in the middle of a number is kept. Letters and spaces are dropped. |
| `Preferences.ShouldSendSms` | app/src/main/java/com/autoreply/calls/data/PreferencesManager.kt:25-92 | A number whose normal form differs from the stored one is always allowed. Where the time difference does not overflow, sending is refused exactly when the normal forms match and less than 300000 ms have passed since the stored reply. |
| `Preferences.WithReply` | app/src/main/java/com/autoreply/calls/data/PreferencesManager.kt:97-100 | Recording a reply stores the normalised number and the time, and leaves status, message, custom text and flag as they were. Right afterwards the same number is refused. |
| `Preferences.RecordedNumberBlockedInWindow` | app/src/main/java/com/autoreply/calls/data/PreferencesManager.kt:81-100 | After a reply at `t`, every number with the same normal form is refused at any time in `[t, t + 300000)`. |
| `Preferences.RecordedNumberAllowedAfterWindow` | app/src/main/java/com/autoreply/calls/data/PreferencesManager.kt:81-100 | From `t + 300000` on, the number replied to at `t` is allowed again. |
| `Preferences.RateLimitExamples` | app/src/main/java/com/autoreply/calls/data/PreferencesManager.kt:81-107 | After a reply to "+1 (555) 123-4567", "+15551234567" is refused 1 ms later. "15551234567" is allowed, because it has no `+`. "+15551234567" is allowed again 300001 ms later. |
| `Preferences.PreferencesManager.constructor` | app/src/main/java/com/autoreply/calls/data/PreferencesManager.kt:10-12 | A store in which nothing has been written yet (first launch) reads every key as its default. |
| `Preferences.PreferencesManager.SetCurrentStatus` | app/src/main/java/com/autoreply/calls/data/PreferencesManager.kt:37-39 | The setter stores the status's enum name and changes nothing else. Reading the status back gives that status. |
| `Preferences.PreferencesManager.SetCustomMessage` | app/src/main/java/com/autoreply/calls/data/PreferencesManager.kt:41-45 | The setter replaces the custom text and changes nothing else. |
| `Preferences.PreferencesManager.SetAutoReplyEnabled` | app/src/main/java/com/autoreply/calls/data/PreferencesManager.kt:47-51 | The setter replaces the on/off flag and changes nothing else. |
| `Preferences.PreferencesManager.RecordSmsSent` | app/src/main/java/com/autoreply/calls/data/PreferencesManager.kt:97-100 | The record becomes the normalised number and `now`, and no other setting changes. For the next five minutes the same number is refused. |
| `AutoReply.Utf16Length` | app/src/main/java/com/autoreply/calls/sms/SmsSender.kt:61 | The Kotlin length of a string lies between its character count and twice that count. |
| `AutoReply.Utf16LengthConcat` | app/src/main/java/com/autoreply/calls/sms/SmsSender.kt:41-61 | The length of the message plus the signature is the sum of the two lengths. |
| `AutoReply.Utf16LengthIsCharCount` | app/src/main/java/com/autoreply/calls/sms/SmsSender.kt:61 | The Kotlin length equals the character count exactly when no character needs a surrogate pair. |
| `AutoReply.SendsMessageSendsOnce` | app/src/main/java/com/autoreply/calls/sms/SmsSender.kt:58-80 | Sending one message, single or multipart, makes exactly one send call. That call is the last one, and it carries the accepted/rejected result. |
| `AutoReply.SendSms` | app/src/main/java/com/autoreply/calls/sms/SmsSender.kt:15-80 | A message of at most 160 UTF-16 units makes one single-part send to the given number. A longer one makes the split and then one multipart send of exactly the parts the split returned. |
| `AutoReply.SendAutoReplyMessage` | app/src/main/java/com/autoreply/calls/sms/SmsSender.kt:16-52 | If auto-reply is off, the result is a skip with no provider call and no record change. If the rate limit refuses, the result is a skip with no provider call and no record change. Otherwise the current message plus the signature is sent once to the number as given. The result is true, and the record becomes `WithReply(number, sentAt)` with the clock reading taken after the send, exactly when the platform accepted the send. On a rejected send the record is unchanged. |
| `AutoReply.ReplyTwice` | app/src/main/java/com/autoreply/calls/sms/SmsSender.kt:28-52 | Two dispatches to one number, the second less than five minutes after the first reply was recorded, send at most one reply. When auto-reply is off, both are skipped as disabled. |
| `CallTracking.ParseState` | app/src/main/java/com/autoreply/calls/receiver/CallReceiver.kt:33-38 | The state extra maps to a call state exactly when it is that state's name. An absent or unknown extra maps to nothing. |
| `CallTracking.Next` | app/src/main/java/com/autoreply/calls/receiver/CallReceiver.kt:43-72 | After a notification, the last state is that notification's state. A missed call is reported iff the previous state was RINGING, the new one is IDLE and a ringing caller is recorded, and the number reported is that caller. IDLE clears the caller. RINGING with a number records it. OFFHOOK, or RINGING without a number, leaves the caller alone. "Flagged iff a number is recorded" is preserved. |
| `CallTracking.RunRemembersPendingCaller` | app/src/main/java/com/autoreply/calls/receiver/CallReceiver.kt:20-72 | From the initial state, the tracker's memory after any run is the last notification's state and the latest numbered ring since the latest IDLE. |
| `CallTracking.MissedCallExactly` | app/src/main/java/com/autoreply/calls/receiver/CallReceiver.kt:52-71 | Over any history, a new notification reports a missed call iff the previous notification was RINGING, the new one is IDLE and a ringing caller is pending. It then reports exactly that caller, once. |
| `CallTracking.MissedAtMostOncePerIdle` | app/src/main/java/com/autoreply/calls/receiver/CallReceiver.kt:52-63 | A run reports no more missed calls than it has IDLE notifications. |
| `CallTracking.MissedNumbersWereRinging` | app/src/main/java/com/autoreply/calls/receiver/CallReceiver.kt:45-62 | Every reported number was the number of some RINGING notification of the run. |
| `CallTracking.AnsweredCallNotMissed` | app/src/main/java/com/autoreply/calls/receiver/CallReceiver.kt:52-71 | RINGING(N), then OFFHOOK, then IDLE reports nothing, from any tracker state. |
| `CallTracking.UnansweredCallMissedOnce` | app/src/main/java/com/autoreply/calls/receiver/CallReceiver.kt:45-62 | RINGING(N), then IDLE reports N exactly once, from any tracker state. |
| `CallTracking.NoStaleCallerAfterIdle` | app/src/main/java/com/autoreply/calls/receiver/CallReceiver.kt:66-69 | After an IDLE, a RINGING without a number followed by IDLE reports nothing more. |
| `CallTracking.CallReceiver.constructor` | app/src/main/java/com/autoreply/calls/receiver/CallReceiver.kt:20-22 | The tracker starts IDLE, with no caller and the incoming flag false. |
| `CallTracking.CallReceiver.OnCallStateChanged` | app/src/main/java/com/autoreply/calls/receiver/CallReceiver.kt:43-72 | The field updates equal `Next`, the returned number is `Next`'s missed call, and the dispatch log grows by exactly that number. "Flagged iff a number is recorded" is kept. |
| `CallTracking.CallReceiver.OnReceive` | app/src/main/java/com/autoreply/calls/receiver/CallReceiver.kt:25-62 | A wrong action or an absent or unknown state changes nothing and sends nothing. Otherwise the tracker takes one `Next` step. Only a missed call runs the dispatcher, with the recorded number. Off, it is skipped as disabled with no provider call. Rate-limited, it is skipped with no provider call. Otherwise the current message plus the signature goes to that number in one send, and only an accepted send changes the settings, by the reply's record. Earlier provider calls are kept. |

## Left out

- `MainActivity.kt` (screen, toasts, colours, permission prompts) is not part of this model. It only reads and writes the preference properties (`currentStatus`, `customMessage`, `isAutoReplyEnabled`), and their getters and setters are modelled (`CurrentStatus` and the `Settings` fields, and the `PreferencesManager` setters).
- `app/build.gradle.kts` (build and signing configuration) is not part of this model.
- The SharedPreferences mechanics (`getSharedPreferences`, asynchronous `edit().apply()`) are not modelled. Each write is instant and in memory.
- `Log` calls and the reading of `Intent` extras are not modelled. A broadcast is given as its action, an optional state extra and an optional number extra.
- The platform SMS service is a stand-in whose results are unknown. It carries no promise about the split parts, for example that they concatenate back to the message, because the code does not promise that.
- `getSystemService` returning no service is not modelled. Every send reaches the provider, and a failure is a rejected send.
- An exception from `recordSmsSent` after a successful send is not modelled. The in-memory store cannot fail.
- Concurrency between broadcasts and process restarts are not modelled. Notifications are handled one at a time, and the tracker lives as long as its object.
- RecordedNumberAllowedAfterWindow: assumes a non-negative reply time, as the clock gives. With a negative time far in the past, the 64-bit difference can wrap around, and the number would stay refused.
