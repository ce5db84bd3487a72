# Audio animation screen

A model of the one screen of the `audioanimation` Android app (`MainActivity.kt`): a face
whose eyes and mouth grow and shrink with the loudness of the audio clip being played.

- **Sampler** (`sampler.dfy`): the waveform-capture listener. It reduces a buffer of signed
  bytes to `it.map { it * it }.sum() / it.size`. The model keeps Kotlin's `Int` semantics:
  each square is exact, `sum()` wraps at 32 bits, and `/` truncates toward zero. The proofs
  show when this is the true mean square. For any buffer of at most 131071 bytes (the Android
  capture size is at most 1024), the emitted value is `floor(sum of squares / length)` and
  lies in [0, 16384]. For every buffer the value lies in [-16384, 16384], so `toFloat()` is
  exact. That is why amplitudes are `int` throughout. A null buffer emits nothing. An empty
  buffer makes the division throw, and the model returns `DivisionByZero` for it.
- **Thresholds** (`thresholds.dfy`): the two `when` expressions. Amplitude above 1000 gives
  eye 50 and mouth 100. Amplitude below 200 gives 20 and 60. Anything else, both 200 and 1000
  included, gives 30 and 80.
- **Screen** (`screen.dfy`): class `AnimationScreen` holds the four `mutableStateOf` cells
  (`isPlaying`, `eyeSize`, `mouthWidth`, `amplitude`). Two ghost counters record the calls
  to the media player's `start()` and `pause()`. Its methods are:
  - the two button handlers;
  - the amplitude callback;
  - the capture listener that feeds the callback;
  - `Tick`, one pass of the `while (isPlaying)` loop.

  `Valid()` is the invariant every method keeps. It says the face is one of the three pairs,
  and the player has been started once more than paused exactly while playing. Client
  methods at the end drive a fresh screen through short runs.

Three behaviours of the code are worth stating outright:
- Playback state is the one boolean `isPlaying`; there is no separate stopped state.
- The amplitude cell starts at 0, so the first tick after Start shows (20, 60), not the
  initial (30, 80) (`FirstTickBeforeAnyCapture`).
- An empty buffer is not skipped: `/ it.size` throws before the callback runs.

## Model

| member | source | states |
|---|---|---|
| `Sampler.WrapInt32` | app/src/main/java/com/example/audioanimation/MainActivity.kt:39 | the result is a Kotlin `Int` congruent to the input modulo 2^32, and a value already in `Int` range is unchanged |
| `Sampler.TruncDiv` | app/src/main/java/com/example/audioanimation/MainActivity.kt:39 | Kotlin's `/` on `Int` rounds toward zero: for a non-negative dividend the quotient is rounded down, for a negative one it is rounded up |
| `Sampler.TruncDivRoundsTowardZero` | app/src/main/java/com/example/audioanimation/MainActivity.kt:39 | -7 / 2 is -3 in Kotlin, where floor division would give -4 |
| `Sampler.KotlinSum` | app/src/main/java/com/example/audioanimation/MainActivity.kt:39 | `sum()` over `Int`s always yields a value in the 32-bit range |
| `Sampler.KotlinSumIsWrappedSum` | app/src/main/java/com/example/audioanimation/MainActivity.kt:39 | wrapping after each addition equals wrapping the exact sum once |
| `Sampler.Squares` | app/src/main/java/com/example/audioanimation/MainActivity.kt:39 | `map { it * it }` keeps the buffer's length |
| `Sampler.SquareOfByte` | app/src/main/java/com/example/audioanimation/MainActivity.kt:39 | a byte squared lies in [0, 128 * 128] |
| `Sampler.SquareSumBound` | app/src/main/java/com/example/audioanimation/MainActivity.kt:39 | the exact sum of squares lies in [0, 16384 * length] |
| `Sampler.MeanSquareExact` | app/src/main/java/com/example/audioanimation/MainActivity.kt:39-40 | for a buffer of 1 to 131071 bytes, the emitted value equals the exact sum of squares divided by the length, and lies in [0, 16384] |
| `Sampler.MeanSquareRange` | app/src/main/java/com/example/audioanimation/MainActivity.kt:39-40 | for any non-empty buffer the emitted value lies in [-16384, 16384], so the `Float` conversion is exact |
| `Sampler.WideBufferWraps` | app/src/main/java/com/example/audioanimation/MainActivity.kt:39 | 131072 samples of -128 overflow the `Int` sum, and the listener emits -16384 |
| `Sampler.OnWaveFormDataCapture` | app/src/main/java/com/example/audioanimation/MainActivity.kt:37-42 | null gives no emission; empty gives a division by zero; otherwise the emitted value is bounded and, for realistic lengths, is the truncated mean square |
| `Thresholds.EyeSize` | app/src/main/java/com/example/audioanimation/MainActivity.kt:69-73 | eye is 50 exactly when amplitude > 1000, 20 exactly when < 200, and 30 exactly when 200 <= amplitude <= 1000 |
| `Thresholds.MouthWidth` | app/src/main/java/com/example/audioanimation/MainActivity.kt:74-78 | mouth is 100 exactly when amplitude > 1000, 60 exactly when < 200, and 80 exactly when 200 <= amplitude <= 1000 |
| `Thresholds.TiersPartition` | app/src/main/java/com/example/audioanimation/MainActivity.kt:69-78 | every amplitude is in exactly one of the three tiers |
| `Thresholds.FaceIsPaired` | app/src/main/java/com/example/audioanimation/MainActivity.kt:69-78 | the two mappings always give one of the pairs (50,100), (20,60), (30,80), and eye 50/20/30 holds exactly when mouth is 100/60/80 |
| `Thresholds.FaceMonotone` | app/src/main/java/com/example/audioanimation/MainActivity.kt:69-78 | eye size and mouth width never decrease as amplitude grows |
| `Thresholds.Boundaries` | app/src/main/java/com/example/audioanimation/MainActivity.kt:69-78 | 199 is quiet, 200 and 1000 are in the middle tier, and 1001 is loud |
| `Screen.AnimationScreen.constructor` | app/src/main/java/com/example/audioanimation/MainActivity.kt:59-62 | the initial state is not playing, eye 30, mouth 80, amplitude 0, and the player has not been called |
| `Screen.AnimationScreen.Start` | app/src/main/java/com/example/audioanimation/MainActivity.kt:118-123 | afterwards the screen is playing; the player is started once if it was not playing and not at all if it was; only the flag and the start count may change |
| `Screen.AnimationScreen.Pause` | app/src/main/java/com/example/audioanimation/MainActivity.kt:130-135 | afterwards the screen is not playing; the player is paused once if it was playing and not at all otherwise; only the flag and the pause count may change |
| `Screen.AnimationScreen.SetAmplitude` | app/src/main/java/com/example/audioanimation/MainActivity.kt:66 | the new amplitude replaces the old one, and nothing else changes |
| `Screen.AnimationScreen.CaptureWaveform` | app/src/main/java/com/example/audioanimation/MainActivity.kt:36-42 | the amplitude cell takes the emitted value, or keeps its old value when nothing is emitted |
| `Screen.AnimationScreen.Tick` | app/src/main/java/com/example/audioanimation/MainActivity.kt:68-79 | a pass runs exactly when playing; it sets both sizes from the current amplitude and keeps the face a valid pair; when not playing nothing changes; only the two sizes may change |
| `Screen.FirstTickBeforeAnyCapture` | app/src/main/java/com/example/audioanimation/MainActivity.kt:59-78 | start on a fresh screen and tick before any capture: the face is (20, 60) |
| `Screen.RepeatedButtons` | app/src/main/java/com/example/audioanimation/MainActivity.kt:118-135 | pressing play twice starts the player once, and pressing pause twice pauses it once; the screen ends not playing, with the initial face |
| `Screen.CaptureWhilePaused` | app/src/main/java/com/example/audioanimation/MainActivity.kt:64-80 | a buffer captured while paused leaves the face alone, and the first tick after the next Start shows that buffer's face |
| `Screen.LatestCaptureWins` | app/src/main/java/com/example/audioanimation/MainActivity.kt:66-78 | after two captures, whatever the first delivered (a buffer, null or empty), the tick shows the face for the second buffer's mean square |
| `Screen.LoudCaptureThenNull` | app/src/main/java/com/example/audioanimation/MainActivity.kt:37-78 | the buffer [40, -40] (mean square 1600), then a null buffer, then a tick: the face is (50, 100) |
| `Screen.PauseFreezesFace` | app/src/main/java/com/example/audioanimation/MainActivity.kt:64-80 | after pause, a capture of any buffer (or null) and a tick leave the face unchanged, and the loop body does not run |

## Left out

- The Android `MediaPlayer` and `Visualizer` objects are left out: creation, session id,
  capture size and rate, `enabled` toggling, and `release` in `onDestroy`. They are platform
  calls. The player's `start()` and `pause()` are kept only as ghost call counters.
- The model accepts a capture at any time, as the app does. The listener is registered when
  play starts and is never unregistered. The disable at line 81 is skipped when a pause
  cancels the effect during `delay(100)`, so captures can arrive while paused
  (`CaptureWhilePaused`). Line 67 names `visualizer`, which the composable cannot see, so
  that wiring is not modelled.
- Scheduling is left out: `LaunchedEffect`, `delay(100)`, the 100 ms period, and the
  asynchronous arrival of captures. The loop is modelled as repeated `Tick` calls, and any
  interleaving of calls is allowed.
- Floating point is left out. Every amplitude and size in the code is a whole number, and
  `Sampler.MeanSquareRange` shows that the `Float` conversion is exact. Non-integer
  amplitudes such as 1000.0001 cannot occur.
- The drawing is left out: the canvas, the circle and line geometry, colours, buttons and
  text. None of it changes state.
- Throwing is left out. The empty-buffer exception is modelled as the `DivisionByZero`
  outcome, with the amplitude cell unchanged. What the exception then does to the app is
  not modelled.
