/** The state of the `AudioAnimationScreen` composable and the code that changes it: the
    play and pause button handlers, the amplitude callback handed to the capture listener,
    and one pass of the `while (isPlaying)` animation loop. */
module Screen {
  import opened Sampler
  import opened Thresholds

  const InitialEyeSize: int := 30
  const InitialMouthWidth: int := 80
  const InitialAmplitude: int := 0

  class AnimationScreen {
    // the four `remember { mutableStateOf(..) }` cells
    var isPlaying: bool
    var eyeSize: int
    var mouthWidth: int
    var amplitude: int

    // how many times the handlers have called `mediaPlayer.start()` and `mediaPlayer.pause()`
    ghost var playerStarts: nat
    ghost var playerPauses: nat

    /** The face is one of the three pairs, and the player has been started once more than
        it has been paused exactly when the screen is playing. */
    ghost predicate Valid()
      reads this
    {
      IsFacePair(eyeSize, mouthWidth) &&
      playerStarts == playerPauses + (if isPlaying then 1 else 0)
    }

    constructor ()
      ensures Valid()
      ensures !isPlaying && eyeSize == InitialEyeSize && mouthWidth == InitialMouthWidth
      ensures amplitude == InitialAmplitude
      ensures playerStarts == 0 && playerPauses == 0
    {
      isPlaying := false;
      eyeSize := InitialEyeSize;
      mouthWidth := InitialMouthWidth;
      amplitude := InitialAmplitude;
      playerStarts, playerPauses := 0, 0;
    }

    /** The play button: starts the player and sets the flag, unless already playing. */
    method Start()
      requires Valid()
      modifies this`isPlaying, this`playerStarts
      ensures Valid()
      ensures isPlaying
      ensures playerStarts == old(playerStarts) + (if old(isPlaying) then 0 else 1)
    {
      if !isPlaying {
        playerStarts := playerStarts + 1;
        isPlaying := true;
      }
    }

    /** The pause button: pauses the player and clears the flag, unless not playing. */
    method Pause()
      requires Valid()
      modifies this`isPlaying, this`playerPauses
      ensures Valid()
      ensures !isPlaying
      ensures playerPauses == old(playerPauses) + (if old(isPlaying) then 1 else 0)
    {
      if isPlaying {
        playerPauses := playerPauses + 1;
        isPlaying := false;
      }
    }

    /** The callback `{ amp -> amplitude = amp }`: the newest value replaces the cell. */
    method SetAmplitude(amp: int)
      modifies this`amplitude
      ensures amplitude == amp
    {
      amplitude := amp;
    }

    /** The capture listener wired to the callback above: a null buffer leaves the cell alone,
        an empty one throws before the callback runs, any other stores its mean square. */
    method CaptureWaveform(waveform: Option<seq<Int8>>) returns (c: Capture)
      modifies this`amplitude
      ensures c == OnWaveFormDataCapture(waveform)
      ensures amplitude == if c.Emitted? then c.amplitude else old(amplitude)
    {
      c := OnWaveFormDataCapture(waveform);
      if c.Emitted? {
        SetAmplitude(c.amplitude);
      }
    }

    /** One test of the loop condition `while (isPlaying)` and, if it holds, one pass of its
        body: both sizes are recomputed from the latest amplitude. The `delay(100)` is not
        modelled. */
    method Tick() returns (ran: bool)
      requires Valid()
      modifies this`eyeSize, this`mouthWidth
      ensures Valid()
      ensures ran == isPlaying
      ensures ran ==> eyeSize == EyeSize(amplitude) && mouthWidth == MouthWidth(amplitude)
      ensures !ran ==> eyeSize == old(eyeSize) && mouthWidth == old(mouthWidth)
    {
      ran := isPlaying;
      if ran {
        eyeSize := EyeSize(amplitude);
        mouthWidth := MouthWidth(amplitude);
        FaceIsPaired(amplitude);
      }
    }
  }

  // ---------------------------------------------------------------------------
  // Runs of the screen, as a user and the capture facility would drive it

  /** Pressing play on a fresh screen and letting the loop run once before any capture
      arrives shows the quiet face (20, 60), not the initial (30, 80): the cell still holds 0. */
  method FirstTickBeforeAnyCapture() returns (eye: int, mouth: int)
    ensures eye == 20 && mouth == 60
  {
    var screen := new AnimationScreen();
    screen.Start();
    var ran := screen.Tick();
    eye, mouth := screen.eyeSize, screen.mouthWidth;
  }

  /** Pressing play twice starts the player once; pressing pause twice pauses it once; the
      buttons leave the face and the amplitude cell as they were. */
  method RepeatedButtons()
    returns (playingAfterPlay: bool, playingAfterPause: bool, face: (int, int), ghost starts: nat, ghost pauses: nat)
    ensures playingAfterPlay && !playingAfterPause
    ensures face == (InitialEyeSize, InitialMouthWidth)
    ensures starts == 1 && pauses == 1
  {
    var screen := new AnimationScreen();
    screen.Start();
    screen.Start();
    playingAfterPlay := screen.isPlaying;
    screen.Pause();
    screen.Pause();
    playingAfterPause := screen.isPlaying;
    face := (screen.eyeSize, screen.mouthWidth);
    starts, pauses := screen.playerStarts, screen.playerPauses;
  }

  /** The listener is never unregistered, so a capture can arrive while paused. It changes
      nothing on screen then, but the first tick after the next Start shows its face. */
  method CaptureWhilePaused(waveform: seq<Int8>)
    returns (pausedFace: (int, int), resumedFace: (int, int))
    requires |waveform| > 0
    ensures pausedFace == (InitialEyeSize, InitialMouthWidth)
    ensures resumedFace == (EyeSize(MeanSquare(waveform)), MouthWidth(MeanSquare(waveform)))
  {
    var screen := new AnimationScreen();
    screen.Start();
    screen.Pause();
    var c := screen.CaptureWaveform(Some(waveform));
    var idle := screen.Tick();
    pausedFace := (screen.eyeSize, screen.mouthWidth);
    screen.Start();
    var ran := screen.Tick();
    resumedFace := (screen.eyeSize, screen.mouthWidth);
  }

  /** While playing, two captures before a tick: the tick shows the face of the second one
      only, whatever the first delivered (a buffer, null, or an empty buffer that threw). */
  method LatestCaptureWins(first: Option<seq<Int8>>, second: seq<Int8>) returns (eye: int, mouth: int)
    requires |second| > 0
    ensures eye == EyeSize(MeanSquare(second)) && mouth == MouthWidth(MeanSquare(second))
  {
    var screen := new AnimationScreen();
    screen.Start();
    var c1 := screen.CaptureWaveform(first);
    var c2 := screen.CaptureWaveform(Some(second));
    var ran := screen.Tick();
    eye, mouth := screen.eyeSize, screen.mouthWidth;
  }

  /** A loud buffer ([40, -40] has mean square 1600) opens the eyes and mouth fully on the
      next tick; a null buffer delivered afterwards changes nothing. */
  method LoudCaptureThenNull() returns (eye: int, mouth: int)
    ensures eye == 50 && mouth == 100
  {
    var screen := new AnimationScreen();
    screen.Start();
    var buffer: seq<Int8> := [40, -40];
    assert Squares(buffer) == [1600, 1600];
    assert [1600, 1600][..1] == [1600] && [1600][..0] == [];
    assert Sum(Squares(buffer)) == 3200;
    var loud := screen.CaptureWaveform(Some(buffer));
    assert loud == Emitted(1600);
    var none := screen.CaptureWaveform(None);
    var ran := screen.Tick();
    eye, mouth := screen.eyeSize, screen.mouthWidth;
  }

  /** After pause the loop stops: a later capture and a later tick leave the face as it was. */
  method PauseFreezesFace(waveform: Option<seq<Int8>>) returns (before: (int, int), after: (int, int), ran: bool)
    ensures after == before
    ensures !ran
  {
    var screen := new AnimationScreen();
    screen.Start();
    var first := screen.Tick();
    screen.Pause();
    before := (screen.eyeSize, screen.mouthWidth);
    var c := screen.CaptureWaveform(waveform);
    ran := screen.Tick();
    after := (screen.eyeSize, screen.mouthWidth);
  }
}
