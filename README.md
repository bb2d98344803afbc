# Emergency call state machines, modelled in Dafny

This project models a repository's two thin front ends over a real-time voice SDK. Each front end holds a small call-state machine, and the project proves properties of both.

- **Web monitor (callee)**, `agora_web_quickstart/src/main.js`. The caregiver's page stays silently joined. When a caller publishes audio it rings an alarm that alternates between two tones. On accept it subscribes to the caller, publishes its own microphone and runs a `mm:ss` call timer. Hang-up, reject and the caller leaving each tear parts of this down.
- **Mobile caller**, `agora_mobile_quickstart/App.js`. An EMERGENCY button joins the channel as broadcaster. Engine callbacks maintain `isJoined`, `isEmergency` and `peerIds`. The screen is derived from that state.

Files:

- `options.dfy`: the `Option` type.
- `timer_display.dfy` (`TimerDisplay`): the timer text of `updateTimerDisplay`. Decimal `toString`, `padStart(2, '0')`, a reader for the text, and the round trip between them.
- `alarm_tone.dfy` (`AlarmTone`): the alarm's tone. The 800 Hz start, the 600/900 Hz switch of the interval callback, and the tone after k ticks.
- `web_monitor.dfy` (`WebMonitor`): class `Monitor`, with one field per module-level variable of `main.js` and one method per handler.
  - Calls into the SDK are recorded in an `effects` log. Whether an awaited call succeeds or throws is a method input.
  - Intervals registered with the browser are counted in ghost fields. `Valid()` proves none is ever leaked.
  - Three scenario methods (`AnsweredCall`, `HangUpKeepsCaller`, `PublishDuringCall`) show what a client may conclude from the contracts.
- `mobile_caller.dfy` (`MobileCaller`): the pure `peerIds` updates and `Render`, plus class `CallerApp`, whose methods are the button handlers and engine callbacks.
  - Engine calls are recorded in `engineCalls`.
  - Scenario methods: `DoubleTriggerBeforeJoinSuccess` shows that two presses before the join-success callback join twice. `EmergencyCall` walks the screen through a call.

Where the code differs from a clean phase machine, the model follows the code:

- `endCall` keeps `remoteUser`.
- A throwing unpublish or unsubscribe in `endCall` skips the timer stop and leaves the call box shown.
- A failed `acceptCall` leaves the incoming alert shown.
- An audio publish during a call rings again and replaces the caller.
- `peerIds` is a list that may hold duplicates, not a set.
- Neither app has a permission gate: the Android permission result and the Notification permission request are never checked.

## Model

| member | source | states |
|---|---|---|
| `TimerDisplay.Decimal` | agora_web_quickstart/src/main.js:207-208 | `toString()` of a non-negative count: at least one character, all digits, a single digit iff below 10, at most two digits iff below 100, no leading zero except for 0 |
| `TimerDisplay.DecimalRoundTrip` | agora_web_quickstart/src/main.js:207-208 | reading the decimal text back gives the number |
| `TimerDisplay.PadStart2Shape` | agora_web_quickstart/src/main.js:207-208 | `padStart(2, '0')` yields at least two characters: the string at the end, zeros in front |
| `TimerDisplay.PaddedValue` | agora_web_quickstart/src/main.js:207-208 | zero-padding keeps the value of a digit string |
| `TimerDisplay.ParseTimerText` | agora_web_quickstart/src/main.js:210 | reader for the `mins:secs` text: a successful read has a colon third from the end |
| `TimerDisplay.TimerTextFields` | agora_web_quickstart/src/main.js:206-211 | the text is minutes digits, a colon, two seconds digits; the seconds field reads `seconds % 60 < 60`, the minutes field `seconds / 60`, and `60*mins + secs == seconds` |
| `TimerDisplay.TimerTextRoundTrip` | agora_web_quickstart/src/main.js:206-211 | reading the displayed text back gives the displayed second count |
| `TimerDisplay.TimerTextInjective` | agora_web_quickstart/src/main.js:206-211 | different counts are displayed differently |
| `TimerDisplay.TimerTextLength` | agora_web_quickstart/src/main.js:206-211 | the text has exactly five characters iff the count is below 6000 |
| `TimerDisplay.TimerTextZero` | agora_web_quickstart/src/main.js:215-216 | a reset timer shows `00:00` |
| `AlarmTone.Switch` | agora_web_quickstart/src/main.js:99-105 | one interval callback flips `isHigh` and sets 600 or 900 Hz |
| `AlarmTone.AfterTicksParity` | agora_web_quickstart/src/main.js:84-105 | the tone starts at 800 Hz with `isHigh`; after k >= 1 ticks it is 600 Hz for odd k and 900 Hz for even k, and `isHigh` holds iff k is even |
| `AlarmTone.AfterTicksAlternate` | agora_web_quickstart/src/main.js:99-105 | from the first tick on, consecutive ticks differ in frequency and the tone has period 2 |
| `WebMonitor.Monitor.constructor` | agora_web_quickstart/src/main.js:12-24 | every handle unset, `seconds` 0, nothing shown, nothing issued, `Valid()` |
| `WebMonitor.Monitor.PlayAlarm` | agora_web_quickstart/src/main.js:76-106 | idempotent: with an oscillator it changes nothing; otherwise it creates the oscillator, the gain node and exactly one interval at 800 Hz; the alarm invariant is kept |
| `WebMonitor.Monitor.AlarmTick` | agora_web_quickstart/src/main.js:99-105 | runs only while an alarm interval is registered; counts the tick and sets 600 Hz on odd ticks, 900 Hz on even ones |
| `WebMonitor.Monitor.StopAlarm` | agora_web_quickstart/src/main.js:108-124 | no interval, no oscillator, no gain node, no registered alarm interval afterwards; no change when already stopped |
| `WebMonitor.Monitor.UpdateTimerDisplay` | agora_web_quickstart/src/main.js:206-211 | the timer text becomes the `mm:ss` text of `seconds` |
| `WebMonitor.Monitor.StartTimer` | agora_web_quickstart/src/main.js:213-221 | stops any running interval first, resets to 0, shows `00:00`, and leaves exactly one timer interval registered |
| `WebMonitor.Monitor.StopTimer` | agora_web_quickstart/src/main.js:223-230 | no timer interval afterwards, count 0, `00:00` shown; safe when not running |
| `WebMonitor.Monitor.TimerTick` | agora_web_quickstart/src/main.js:217-220 | runs only while a timer interval is registered; adds exactly 1 and redisplays |
| `WebMonitor.Monitor.HandleUserPublished` | agora_web_quickstart/src/main.js:169-188 | a non-audio publish changes nothing; an audio publish makes that user the caller (last wins), starts the alarm (no second oscillator if one rings), shows the alert, and raises a notification iff the page is hidden, the API exists and permission is "granted" |
| `WebMonitor.Monitor.HandleUserUnpublished` | agora_web_quickstart/src/main.js:190-195 | an unpublish by anyone but the caller, or with no caller, changes nothing; by the caller it leaves the monitor `Quiet()` and issues one unpublish iff a local track existed |
| `WebMonitor.Monitor.HandleUserLeft` | agora_web_quickstart/src/main.js:197-201 | as for unpublish, for the "user-left" event |
| `WebMonitor.Monitor.AcceptCall` | agora_web_quickstart/src/main.js:234-259 | always stops the alarm; without a caller issues nothing; otherwise issues subscribe, microphone creation and publish up to the first failure; alert hidden, call box shown and timer started at 0 only when all three succeed, otherwise those are unchanged |
| `WebMonitor.Monitor.RejectCall` | agora_web_quickstart/src/main.js:261-265 | alarm off, alert hidden, caller cleared, no command issued |
| `WebMonitor.Monitor.EndCall` | agora_web_quickstart/src/main.js:267-294 | releases the local track, issues unpublish, then unsubscribe of the caller if unpublish succeeded; hides the call box and stops the timer only if neither threw; the caller is kept |
| `WebMonitor.Monitor.ResetCallState` | agora_web_quickstart/src/main.js:296-312 | `Quiet()`: alarm off, timer stopped at 0, both panels hidden, no caller, no local track; one unpublish iff a local track existed |
| `MobileCaller.WithPeer` | agora_mobile_quickstart/App.js:48-51 | the uid is appended at the end and the earlier entries are unchanged |
| `MobileCaller.WithoutPeer` | agora_mobile_quickstart/App.js:52-55 | the result never contains the uid, keeps every other uid as often as before, shrinks by the number of occurrences, and is the input when the uid is unknown |
| `MobileCaller.WithoutPeerConcat` | agora_mobile_quickstart/App.js:54 | filtering distributes over concatenation, so the kept entries stay in order |
| `MobileCaller.WithoutPeerMembership` | agora_mobile_quickstart/App.js:54 | an entry is in the result iff it was in the list and is not the uid |
| `MobileCaller.WithoutPeerIdempotent` | agora_mobile_quickstart/App.js:54 | removing a uid twice is removing it once |
| `MobileCaller.WithoutPeerAfterWithPeer` | agora_mobile_quickstart/App.js:48-55 | a join then offline of the same uid equals the offline alone; for another uid the join commutes with the removal |
| `MobileCaller.Render` | agora_mobile_quickstart/App.js:114-153 | loading screen iff not initialized; status "Active" iff joined (else "Standby"); alert box iff emergency and joined; alert "Call Connected" iff peers are present, else "Calling caregiver..."; spinner iff the alert shows with no peers; EMERGENCY button iff not joined, else Cancel Call |
| `MobileCaller.CallerApp.constructor` | agora_mobile_quickstart/App.js:13-16 | not initialized, not joined, no emergency, no peers, no engine call |
| `MobileCaller.CallerApp.SetupVoiceSdk` | agora_mobile_quickstart/App.js:26-74 | initialized once a setup completes without throwing; the permission result is not consulted |
| `MobileCaller.CallerApp.TriggerEmergency` | agora_mobile_quickstart/App.js:90-104 | a no-op when joined; otherwise the broadcaster role and exactly one broadcaster join of "emergency-channel" with uid 0 (the join skipped if the role call throws); `isEmergency` ends true iff neither call threw |
| `MobileCaller.CallerApp.Leave` | agora_mobile_quickstart/App.js:106-112 | issues one leaveChannel and changes no state |
| `MobileCaller.CallerApp.PressButton` | agora_mobile_quickstart/App.js:143-153 | the offered button triggers the emergency when not joined and issues leaveChannel when joined |
| `MobileCaller.CallerApp.OnJoinChannelSuccess` | agora_mobile_quickstart/App.js:44-47 | sets `isJoined` and changes nothing else |
| `MobileCaller.CallerApp.OnUserJoined` | agora_mobile_quickstart/App.js:48-51 | appends the uid to `peerIds` |
| `MobileCaller.CallerApp.OnUserOffline` | agora_mobile_quickstart/App.js:52-55 | removes every occurrence of the uid from `peerIds` |
| `MobileCaller.CallerApp.OnLeaveChannel` | agora_mobile_quickstart/App.js:56-61 | not joined, no peers, no emergency, whatever the prior state |

## Left out

- `startMonitoring`, `initialize` and `initAudioContext` (main.js:51-74, 127-167). They create the SDK client, register listeners, join silently and unlock the AudioContext. They touch none of the call-state variables, so the model starts after a successful silent join.
- SDK internals (client creation, join, subscribe, publish, unpublish, engine initialize/release and the event handlers' registration). Each is only an effect entry, and its success or failure is an input.
- `remoteUser.audioTrack.play()` (main.js:241). It is folded into the subscribe outcome of `AcceptCall`.
- Web Audio details (gain values, `cancelScheduledValues`, AudioContext state). The oscillator is an on/off flag plus an integer frequency. A failure of the audio API inside `playAlarm` is not modelled.
- Timing (`setInterval` at 400 ms and 1000 ms). Ticks are explicit method calls, allowed only while an interval is registered.
- Track lifetimes. `localAudioTrack` is a flag, so a track that a second `acceptCall` replaces without closing it is not tracked.
- DOM queries, styles, `alert`, console logging, the status dot and the `StyleSheet` block. Only the two web panels, the timer text and the mobile screen contents are kept. The timer element and the call box are assumed present.
- Browser Notification and Android permission APIs. A notification is an effect entry. The permission result is never read by the code, so it is no input.
- Asynchronous interleaving of `await` points and React's deferred `setState`. Each handler is one atomic step. The React handlers read the current state rather than a render's stale snapshot.
- `destroyAgoraEngine` (App.js:76-79). It is engine release at unmount and touches no state.
- Uids are integers compared by value. The web monitor keeps the caller by uid rather than the SDK user object.
