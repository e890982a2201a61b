# TikTok live skip bridge — Dafny model

index.js watches a TikTok live stream and tells a VLC player to skip to the
next playlist entry. It does so when a viewer types `/skip` in chat, or when a
gift arrives (except in the middle of a running gift streak). The skip is a
`curl` call to VLC's HTTP interface, run through `cmd /c`. At start-up the
program reads its settings from the environment. It exits with code 1 when the
TikTok user name or the signing key is missing, or when `VLC_URL` is not an
absolute URL.

This project models that decision logic as pure functions, with lemmas about them:

- `JsRuntime` (js_runtime.dfy): the JavaScript pieces the handlers use.
  It has loosely typed values and truthiness. `trim` removes the full
  ECMAScript WhiteSpace and LineTerminator set. `toLowerCase` is modelled for
  ASCII letters and U+212A KELVIN SIGN. The lemmas show that `trim` removes
  exactly the surrounding white space and nothing else, that trimming twice
  is the same as trimming once, and that trimming and lower-casing commute.
- `Feed` (feed.dfy): the inbound events and `ShouldTrigger`, which says
  whether a handler reaches `sendVlcCommand`. There is also a count of the
  triggers over a sequence of events.
- `Settings` (settings.dfy): reading the environment, the `||` and `?? ""`
  fallbacks, and the start-up outcome.
- `VlcControl` (vlc_control.dfy): the `curl` command line, a parser that
  inverts it, the `execFile` arguments, and the requests a stream of events
  passes to `execFile`.
- `Wrappers` (wrappers.dfy): `Option`, standing for `undefined`.

index.js has no gift deduplication, no reconnection backoff and no like-count
threshold. Its disconnect and error handlers only log, and a failed `connect()`
exits with code 1. `RepeatedEventTriggersEachTime` proves that identical gifts
each trigger.

The chat and gift handlers log `message.user.uniqueId` before they test
anything (index.js:48, index.js:80). When `user` is `undefined` or `null`, that
access throws and the command is not sent. So `Chat` and `Gift` carry their
`user`, and `ShouldTrigger` requires it to be non-nullish.

## Model

| member | source | states |
|---|---|---|
| `JsRuntime.Trim` | index.js:54 | `String.prototype.trim`; pinned down by `TrimTrimmed`, `TrimSplit` and `TrimOfPadded` |
| `JsRuntime.ToLower` | index.js:54 | `String.prototype.toLowerCase` character by character; `LowerIsSkipIff` and `TrimLowerCommute` state what the chat test needs of it |
| `JsRuntime.TrimTrimmed` | index.js:54 | neither end of `trim`'s result is white space |
| `JsRuntime.TrimSplit` | index.js:54 | the input is the trimmed result with white space before and after it |
| `JsRuntime.TrimOfPadded` | index.js:54 | a trimmed core with any white-space padding trims back to exactly that core |
| `JsRuntime.TrimAbsorbsPadding` | index.js:54 | adding white space around any string does not change its trim |
| `JsRuntime.TrimIdempotent` | index.js:10-11 | trimming an already trimmed value changes nothing |
| `JsRuntime.TrimLowerCommute` | index.js:54 | `trim().toLowerCase()` equals `toLowerCase().trim()` |
| `Feed.ShouldTrigger` | index.js:46-91 | whether a handler reaches `sendVlcCommand`; characterised by `ChatTriggerIff`, `GiftTriggerIff` and `LifecycleNeverTriggers` |
| `Feed.TriggerCount` | index.js:46-91 | how many events of a stream reach `sendVlcCommand`, never more than the stream's length; see `TriggerCountAppend` and `RepeatedEventTriggersEachTime` |
| `Feed.LowerIsSkipIff` | index.js:54 | a string lower-cases to "/skip" iff it is "/" followed by s, k, i, p, each in either case (k also as U+212A) |
| `Feed.ChatTriggerIff` | index.js:46-58 | a chat triggers iff its user is set, its comment is a string, and the trimmed comment is a spelling of "/skip" |
| `Feed.ChatPaddingIrrelevant` | index.js:52-57 | leading and trailing white space never changes whether a chat triggers |
| `Feed.ChatCaseIrrelevant` | index.js:52-57 | two comments with the same lower-casing get the same decision |
| `Feed.PaddedSkipTriggers` | index.js:52-57 | any spelling of "/skip" with any white-space padding triggers |
| `Feed.NonStringChatNeverTriggers` | index.js:53 | a comment that is not a string never triggers |
| `Feed.GiftTriggerIff` | index.js:78-91 | a gift triggers iff its user is set and it is not a type-1 gift with a falsy `repeatEnd` |
| `Feed.LifecycleNeverTriggers` | index.js:36-44 | connected, disconnected, error and stream-end events never trigger |
| `Feed.TriggerCountAppend` | index.js:46-91 | the handlers keep no state: the trigger count over a concatenation of event streams is the sum of the counts |
| `Feed.RepeatedEventTriggersEachTime` | index.js:78-91 | n identical consecutive events trigger n times if one does, else never |
| `Settings.Lookup` | index.js:5-12 | reading `process.env`, with a missing key as `undefined` |
| `Settings.OrElse` | index.js:8-9 | the logical-or fallback: an absent or empty value gives the fallback, any other value is kept unchanged |
| `Settings.TrimmedOrEmpty` | index.js:10-11 | `(v ?? "").trim()`: an absent value gives "", a present one gives its trim, and the result is always trimmed |
| `Settings.EmptyValueFallback` | index.js:8-11 | "" is replaced by the default under logical-or and stays "" under `?? ""` |
| `Settings.TrimmedOrEmptyIdempotent` | index.js:10-11 | reading a `?? ""` setting from its own output gives the same value |
| `Settings.ReadSettings` | index.js:5-12 | credentials are read raw; URL, command and timeout text are never empty, equal the variable when it is set and not empty, and take their defaults otherwise; VLC user name and password are the trimmed variable when set and "" when absent |
| `Settings.Start` | index.js:14-25 | exit code 1 for missing credentials iff the user name or the sign key is absent or empty; otherwise exit code 1 iff the VLC URL does not parse; otherwise the program runs with the read settings |
| `VlcControl.CurlCommand` | index.js:64 | the template literal of the command line; inverted by `ParseCurlCommand` (`CurlCommandRoundTrip`, `ParseCurlCommandSound`) |
| `VlcControl.ParseCurlCommand` | index.js:64 | the inverse of `CurlCommand` on quote-free URLs; see `CurlCommandRoundTrip` and `ParseCurlCommandSound` |
| `VlcControl.CurlCommandRoundTrip` | index.js:64 | the command line gives back the password and URL it was built from, when the URL has no double quote |
| `VlcControl.ParseCurlCommandSound` | index.js:64 | every command line the parser accepts is exactly `curl --user :` + password + ` "` + URL + `"` |
| `VlcControl.VlcRequest` | index.js:60-65 | `execFile("cmd", ["/c", cmd])` with the configured timeout text, where cmd is exactly `CurlCommand` of the password and the command URL; when that URL has no double quote, cmd parses back to both |
| `VlcControl.RequestIgnoresVlcUsername` | index.js:60-65 | `VLC_USERNAME` has no effect on the arguments passed to `execFile` |
| `VlcControl.React` | index.js:46-91 | handling an event passes the VLC request to `execFile` iff it is a chat from a set user whose trimmed comment spells "/skip", or a gift from a set user that is not type 1 with a falsy `repeatEnd`; otherwise nothing is passed |
| `VlcControl.Requests` | index.js:46-91 | a stream of events passes one identical VLC request to `execFile` per triggering event |

## Left out

- The TikTok live client is a third-party network library (index.js:3, 27-30, 36-46, 78, 93-96). Its construction, `connect()`, the `.on` registrations and the exit on a failed connect are not modelled. Events enter the model as values of `Feed.Event`.
- Starting `cmd`/`curl` with `execFile`, enforcing the timeout, and the stdout, stderr and error callbacks are process I/O (index.js:65-75). The model stops at the arguments of `execFile`.
- Logging (index.js:15, 23, 32-34, 37-50, 79-84) and `dotenv` loading (index.js:1) are output and file I/O.
- WHATWG URL parsing (index.js:21) is the `isAbsoluteUrl` parameter of `Settings.Start`. Building the command URL (index.js:61-62) is the `commandUrl` parameter of `VlcControl.VlcRequest`. Both are a foreign library. A URL that `new URL` accepts can still contain `"` after serialisation (in a host such as `http://a"b/`, or in an opaque path such as `data:,"x"`). `VlcRequest` states the command string for every URL; only its parse-back clause, and `CurlCommandRoundTrip`, need a quote-free URL.
- `Number.parseInt` of the timeout (index.js:12) is a library call. The model keeps the timeout as the text `VLC_TIMEOUT_MS || "5000"`.
- `toLowerCase` maps only A–Z and U+212A KELVIN SIGN. The rest of Unicode's lower-case mapping is not modelled.
- JavaScript strings are UTF-16 code-unit sequences. Here a string is a sequence of Unicode scalar values, so lone surrogates cannot be written.
- JavaScript numbers are integers here. NaN, fractions, -0 and BigInt are not modelled. This matters only for `giftType === 1` and for the truthiness of `repeatEnd`.
- A lifecycle handler throws when its payload is nullish (index.js:37, 42). This is not modelled because those handlers never trigger either way. The model also assumes the chat and gift payload objects exist; only their `user` field may be nullish.
- VlcControl.Requests: assumes that a handler that throws only drops its own event and that the next event is handled; whether the throw escapes the live client's `emit` and ends the process depends on that library. Handlers throw when `user` is nullish (index.js:48, 80). `execFile` also throws synchronously, and then starts no process, when `VLC_TIMEOUT_MS` parses to NaN or a negative number (index.js:12, 65). So a request in the model is the arguments passed to `execFile`, not a process known to have started. `Feed.TriggerCount` makes the same assumption.
