# DTMF keypad tone host

A model of `AudioContextHost` from the phone-ui browser keypad
(`assets/js/main.js`). The host plays the dual-tone multi-frequency (DTMF)
tone of a keypad key while the key is held. A tone stays audible for at least a
150 ms floor, so even a very short tap is heard, unless another press or a
closed context ends it first. The host never holds the oscillators of more than
one press at a time.

The project has three modules:

- `Keypad` (`keypad.dfy`): the key-to-frequency lookup `getDtmfFrequencies`.
  The keypad grid of ITU-T Recommendation Q.23 is written down separately as
  `Layout`, `LowGroup` and `HighGroup`. The lookup is proved to agree with that
  grid in both directions.
- `ToneLifecycle` (`tone_lifecycle.dfy`): the host's state as a value
  (`HostState`). It has one transition per entry point (`PlayTone`, `StopTone`,
  `FloorTimer`, `StopInternal`, context created or closed), collected in `Step`.
  `Run` folds `Step` over a sequence of events. The entry points run to
  completion one after another, so a run of the host is such a fold. The
  short-press, long-press, re-press and stale-timer laws, counter monotonicity
  and the one-session invariant are proved here as lemmas.
- `AudioHost` (`audio_context_host.dfy`): the class `AudioContextHost`. Its
  mutable fields mirror the private fields `#context` (as a flag),
  `#oscillators`, `#count`, `#playRequested` and `#minDurationElapsed`. Each
  method states its new fields outright. It also states
  `State() == Step(old(State()), e)`, which ties the method to the transition
  whose laws `ToneLifecycle` proves. The `setTimeout` callback becomes the method
  `FloorTimerFired(token)`. `PlayTone` returns the token the callback captured,
  or `None` when no timer is scheduled because there is no context. A ghost
  field `released` logs every oscillator stopped and disconnected on a present
  context, and each method states what it adds to that log.
  `KeypadScenarios` is a client that drives the class through a short press of
  '5', a long press of '#', and the press-release-press of '1' and '2'.

The model keeps these behaviours of the code, which a reader might not expect:

- A press on a host without a context still releases the previous oscillators
  before it returns.
- Closing the context leaves `#oscillators` as it is.
- The constructor does not open a context. Only a `visibilitychange` to
  visible does, so presses are silent until such an event has occurred.
- An unknown key starts a new session with no oscillators. It moves the counter
  and sets the held flag.

## Model

| member | source | states |
|---|---|---|
| Keypad.DtmfFrequencies | assets/js/main.js:11-64 | The result is empty exactly when the key is empty or its upper-cased first character is not one of the 16 keypad symbols. Otherwise it is `[LowGroup[row], HighGroup[col]]` for the grid cell holding that symbol. |
| Keypad.UpperCase | assets/js/main.js:13 | Only lower-case letters change, and only to upper-case letters. The result is a keypad symbol exactly when the character already is one or is one of 'a'..'d'. |
| Keypad.GridLookup | assets/js/main.js:14-61 | Each of the 16 symbols of the Q.23 grid gives its row's low frequency and its column's high frequency, in that order |
| Keypad.FirstCharacterOnly | assets/js/main.js:13 | Only the first character of the key decides the result |
| Keypad.CaseInsensitive | assets/js/main.js:13 | A lower-case letter gives the same result as its upper-case form |
| Keypad.DistinctSymbolsDistinctTones | assets/js/main.js:11-64 | Two recognised keys give the same pair exactly when their upper-cased first characters are the same symbol |
| ToneLifecycle.StopInternal | assets/js/main.js:129-135 | The stop step on the state value; its contract is `StopInternalLaw` |
| ToneLifecycle.PlayTone | assets/js/main.js:97-123 | The press step on the state value; its contract is `PlayWithoutContext` and `PlayWithContext` |
| ToneLifecycle.FloorTimer | assets/js/main.js:113-122 | The floor-timer step on the state value; its contract is `StaleTimerIsNoOp` and `CurrentTimer` |
| ToneLifecycle.StopTone | assets/js/main.js:137-142 | The release step on the state value; its contract is `StopToneLaw` |
| ToneLifecycle.Step | assets/js/main.js:76-142 | Dispatches one event to its entry point; context creation and closing set only the context flag. Its counter law is `StepCount`. |
| ToneLifecycle.StopInternalLaw | assets/js/main.js:129-135 | Releasing the oscillators empties the list and changes no other field, context present or not. Doing it twice is the same as doing it once. |
| ToneLifecycle.PlayWithoutContext | assets/js/main.js:97-101 | Without a context a press only empties the oscillator list. Counter, held flag and floor flag are unchanged. |
| ToneLifecycle.PlayWithContext | assets/js/main.js:97-112 | With a context a press raises the counter by exactly 1, sets held, clears the floor flag, and holds exactly the requested frequencies in order. Nothing of the previous session is kept. |
| ToneLifecycle.StaleTimerIsNoOp | assets/js/main.js:113-117 | A timer whose token differs from the current counter changes nothing |
| ToneLifecycle.CurrentTimer | assets/js/main.js:118-121 | The current session's timer sets the floor flag. It empties the oscillators exactly when the key is no longer held. |
| ToneLifecycle.StopToneLaw | assets/js/main.js:137-142 | A release always clears the held flag. It empties the oscillators exactly when the floor has passed and otherwise leaves them. Releasing twice equals releasing once. |
| ToneLifecycle.StepCount | assets/js/main.js:102 | Only a press on a present context changes the counter, and only by +1 |
| ToneLifecycle.RunAppend | assets/js/main.js:97-142 | Running two event sequences one after the other is running their concatenation (run-to-completion handlers compose) |
| ToneLifecycle.CountNeverDecreases | assets/js/main.js:102 | Over any sequence of events the counter never decreases |
| ToneLifecycle.StaleTimerStaysStale | assets/js/main.js:113-117 | A token below the counter stays stale after any events. Its timer then changes nothing. |
| ToneLifecycle.AtMostOneSession | assets/js/main.js:97-135 | Starting from no oscillators, the host holds either none or exactly those of the most recent press |
| ToneLifecycle.NoToneAfterFloorAndRelease | assets/js/main.js:113-142 | After any events from a state where it holds, including a new host: once the floor has passed and the key is released, no oscillator is held |
| ToneLifecycle.SessionSurvivesQuietEvents | assets/js/main.js:97-142 | Between a press and its own floor timer, releases, context creation and other sessions' timers keep all its oscillators and leave the floor pending. The held flag is false exactly when a release occurred. |
| ToneLifecycle.ShortPress | assets/js/main.js:113-142 | Short-press law: a key released before the floor keeps sounding, and its own floor timer then empties the oscillators |
| ToneLifecycle.LongPress | assets/js/main.js:113-142 | Long-press law: a key still held when its floor timer fires keeps sounding, and the release then empties the oscillators at once |
| ToneLifecycle.StaleTimerSparesNewerSession | assets/js/main.js:97-123 | Stale-timer law: after press, release, press, the first press's timer leaves the second press's oscillators, held flag and pending floor in place |
| ToneLifecycle.RePress | assets/js/main.js:97-112 | Re-press law: two presses in a row leave only the second press's oscillators, and the counter is 2 higher |
| AudioHost.UnknownKeyStartsSilentSession | assets/js/main.js:125-127 | On a present context an unknown key starts a session with no oscillators and nothing audible, but the counter moves and the key counts as held |
| AudioHost.AudioContextHost.constructor | assets/js/main.js:5-9 | A new host has no context, no oscillators, counter 0, and neither flag set |
| AudioHost.AudioContextHost.CreateContext | assets/js/main.js:76-80 | Afterwards a context is present; every other field is unchanged |
| AudioHost.AudioContextHost.CloseContext | assets/js/main.js:82-87 | Afterwards no context is present; the oscillator list and every other field are unchanged |
| AudioHost.AudioContextHost.Active | assets/js/main.js:89-91 | Whether a context is present (the `active` getter) |
| AudioHost.AudioContextHost.Playing | assets/js/main.js:93-95 | Whether the current session's key is held (the `playing` getter) |
| AudioHost.AudioContextHost.PlayTone | assets/js/main.js:97-123 | The previous oscillators are released first. Without a context the method stops there and returns no timer. With one, the counter rises by 1, held is set, the floor is pending, the oscillators are the frequencies, and the returned token is the new counter. The result equals `ToneLifecycle.Step` on `Play`. |
| AudioHost.AudioContextHost.PlayDtmfTone | assets/js/main.js:125-127 | As PlayTone applied to `Keypad.DtmfFrequencies(key)` |
| AudioHost.AudioContextHost.FloorTimerFired | assets/js/main.js:113-122 | A stale token leaves every field unchanged. The current one sets the floor flag and empties the oscillators exactly when the key was released. The result equals `ToneLifecycle.Step` on `TimerFired`. |
| AudioHost.AudioContextHost.StopToneInternal | assets/js/main.js:129-135 | Afterwards the oscillator list is empty and every other field is unchanged. With a context present the old oscillators are appended, in order, to the ghost log `released` of stopped and disconnected oscillators. Without one, nothing is added. |
| AudioHost.AudioContextHost.StopTone | assets/js/main.js:137-142 | Held is cleared. The oscillators are emptied exactly when the floor had passed and are otherwise unchanged. The result equals `ToneLifecycle.Step` on `Stop`. |

## Left out

- DOM event wiring (main.js:145-176) is not modelled: element discovery, the listeners, `classList` toggling and the `touchstart` `preventDefault`. Its `pointerup`, `pointercancel` and `pointerleave` handlers all call `stopTone`, which is the `Stop` event here.
- `stopTone` takes no key, so the release of any key stops the current session. The model keeps that: `Stop` carries no key either.
- The `visibilitychange` listener and the `AudioContext` constructor options are browser I/O. The context is a flag that `CreateContext` and `CloseContext` set, and either may happen between any two calls.
- Web Audio calls are not modelled: `createOscillator`, the oscillator type, `connect`, `start`, `stop`, `disconnect` and `context.close`. An oscillator is the frequency it plays. Stopping and disconnecting it moves it from the list to the ghost log `released`.
- Wall-clock time and `setTimeout` scheduling are not modelled. `MIN_DURATION` (150 ms) is only a named constant. A timer firing is a `FloorTimerFired(token)` call or a `TimerFired(token)` event. The model does not constrain when it fires, in what order, or whether it fires at all.
- ToneLifecycle.StepCount: `#count` is a JavaScript number, and past 2^53 an increment no longer changes it. The model uses an unbounded `nat`, so its "+1" does not model that loss of precision. Past that point a new session would reuse the previous token, and `StaleTimerStaysStale` and `StaleTimerSparesNewerSession` would no longer hold.
- Keypad.UpperCase: only 'a'..'z' are upper-cased. JavaScript's full Unicode `toUpperCase` maps no other character onto one of the 16 keypad symbols, so the lookup result is the same. `String(key)` on a non-string key and UTF-16 code units are not modelled; a key is a Dafny string.
