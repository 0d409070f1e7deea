/** The audio-player controller: the play/pause flag, position, duration
    and volume it keeps, its four control handlers, the two media-event
    handlers that copy the element's position and duration into the
    controller, and the `m:ss` time formatter. Time is whole seconds and
    volume is whole tenths (the volume slider runs from 0 to 1 in steps of
    0.1). */
module Player {
  import opened Text

  /** Full volume, in tenths. */
  const MaxVolume: nat := 10

  type Volume = v: int | 0 <= v <= MaxVolume

  /** The media element the controller drives: only the parts the
      controller reads or writes. */
  class MediaElement {
    var currentTime: nat
    var duration: nat
    var volume: Volume
    var paused: bool

    /** A freshly loaded element: paused at the start, at full volume. */
    constructor (duration: nat)
      ensures this.duration == duration && currentTime == 0
      ensures volume == MaxVolume && paused
    {
      this.duration := duration;
      currentTime := 0;
      volume := MaxVolume;
      paused := true;
    }

    /** `play()`: the request to start playing. */
    method Play()
      modifies this
      ensures !paused
      ensures currentTime == old(currentTime) && duration == old(duration) && volume == old(volume)
    {
      paused := false;
    }

    /** `pause()`. */
    method Pause()
      modifies this
      ensures paused
      ensures currentTime == old(currentTime) && duration == old(duration) && volume == old(volume)
    {
      paused := true;
    }

    /** Reaching the end of the recording: the element pauses itself at
        its last position. Nothing tells the controller. */
    method End()
      modifies this
      ensures paused && currentTime == duration
      ensures duration == old(duration) && volume == old(volume)
    {
      currentTime := duration;
      paused := true;
    }
  }

  /** The controller's own state, as one value. */
  datatype PlayerState = PlayerState(isPlaying: bool, currentTime: nat, duration: nat, volume: Volume)

  const Initial := PlayerState(false, 0, 0, MaxVolume)

  /** The state after `togglePlay` with the element present. */
  function Toggled(s: PlayerState): PlayerState {
    s.(isPlaying := !s.isPlaying)
  }

  /** The state after `restart` with the element present. */
  function Restarted(s: PlayerState): PlayerState {
    s.(currentTime := 0, isPlaying := true)
  }

  /** The state after moving the position slider to `t`. */
  function Seeked(s: PlayerState, t: nat): PlayerState {
    s.(currentTime := t)
  }

  /** The state after moving the volume slider to `v`. */
  function VolumeSet(s: PlayerState, v: Volume): PlayerState {
    s.(volume := v)
  }

  lemma ToggleTwiceRestores(s: PlayerState)
    ensures Toggled(Toggled(s)) == s
  {
  }

  lemma RestartIdempotent(s: PlayerState)
    ensures Restarted(Restarted(s)) == Restarted(s)
  {
  }

  /** Restart forgets the play state: playing or paused, it ends playing
      from the start. */
  lemma RestartIgnoresPlayState(s: PlayerState)
    ensures Restarted(Toggled(s)) == Restarted(s)
  {
  }

  /** Only the last slider position counts. */
  lemma SeekLastWins(s: PlayerState, t: nat, u: nat)
    ensures Seeked(Seeked(s, t), u) == Seeked(s, u)
  {
  }

  lemma VolumeLastWins(s: PlayerState, v: Volume, w: Volume)
    ensures VolumeSet(VolumeSet(s, v), w) == VolumeSet(s, w)
  {
  }

  class AudioPlayer {
    var isPlaying: bool
    var currentTime: nat
    var duration: nat
    var volume: Volume
    /** `audioRef.current`: null until the `<audio>` element is attached. */
    const audio: MediaElement?

    /** The element's volume is the controller's volume: only
        `onVolumeChange` writes either, and it writes both. */
    ghost predicate Valid()
      reads this, audio
    {
      audio != null ==> audio.volume == volume
    }

    /** The element plays exactly when the controller thinks it does. The
        handlers keep this, but the element breaks it when it ends on its
        own (`End`), since the controller listens only for `loadeddata`
        and `timeupdate`. */
    ghost predicate InSync()
      reads this, audio
    {
      audio != null ==> audio.paused == !isPlaying
    }

    function State(): PlayerState
      reads this
    {
      PlayerState(isPlaying, currentTime, duration, volume)
    }

    /** Mounting the component: the initial state, and the element (if
        attached) as a freshly loaded one. */
    constructor (audio: MediaElement?)
      requires audio != null ==> audio.paused && audio.volume == MaxVolume
      ensures Valid() && InSync() && State() == Initial && this.audio == audio
    {
      isPlaying := false;
      currentTime := 0;
      duration := 0;
      volume := MaxVolume;
      this.audio := audio;
    }

    /** Toggling follows `isPlaying`, not the element, so it brings the two
        back in step whatever state the element was left in. */
    method TogglePlay()
      requires Valid()
      modifies this, audio
      ensures Valid() && InSync()
      ensures audio == null ==> State() == old(State())
      ensures audio != null ==> State() == Toggled(old(State()))
      ensures audio != null ==> audio.paused == old(isPlaying)
      ensures audio != null ==> audio.currentTime == old(audio.currentTime) && audio.duration == old(audio.duration)
    {
      if audio != null {
        if isPlaying {
          audio.Pause();
        } else {
          audio.Play();
        }
        isPlaying := !isPlaying;
      }
    }

    /** Restart plays only when the controller thinks it is paused: after
        the element has ended on its own, it rewinds and stays paused. */
    method Restart()
      requires Valid()
      modifies this, audio
      ensures Valid()
      ensures old(InSync()) ==> InSync()
      ensures audio == null ==> State() == old(State())
      ensures audio != null ==> State() == Restarted(old(State()))
      ensures audio != null ==> audio.paused == (old(isPlaying) && old(audio.paused))
      ensures audio != null ==> audio.currentTime == 0 && audio.duration == old(audio.duration)
    {
      if audio != null {
        audio.currentTime := 0;
        currentTime := 0;
        if !isPlaying {
          audio.Play();
          isPlaying := true;
        }
      }
    }

    /** The position slider's `onValueChange`, with the slider's values. */
    method OnSliderChange(value: seq<nat>)
      requires Valid()
      requires |value| > 0
      modifies this, audio
      ensures Valid()
      ensures old(InSync()) ==> InSync()
      ensures audio == null ==> State() == old(State())
      ensures audio != null ==> State() == Seeked(old(State()), value[0])
      ensures audio != null ==> audio.currentTime == value[0] && audio.duration == old(audio.duration)
      ensures audio != null ==> audio.paused == old(audio.paused)
    {
      if audio != null {
        audio.currentTime := value[0];
        currentTime := value[0];
      }
    }

    /** The volume slider's `onValueChange`, with the slider's values. */
    method OnVolumeChange(value: seq<Volume>)
      requires Valid()
      requires |value| > 0
      modifies this, audio
      ensures Valid()
      ensures old(InSync()) ==> InSync()
      ensures audio == null ==> State() == old(State())
      ensures audio != null ==> State() == VolumeSet(old(State()), value[0])
      ensures audio != null ==> audio.volume == value[0] && audio.currentTime == old(audio.currentTime)
      ensures audio != null ==> audio.paused == old(audio.paused) && audio.duration == old(audio.duration)
    {
      if audio != null {
        audio.volume := value[0];
        volume := value[0];
      }
    }

    /** The `loadeddata` listener: take the element's duration and position. */
    method OnLoadedData()
      requires Valid() && audio != null
      modifies this
      ensures Valid()
      ensures old(InSync()) ==> InSync()
      ensures State() == old(State()).(duration := audio.duration, currentTime := audio.currentTime)
    {
      duration := audio.duration;
      currentTime := audio.currentTime;
    }

    /** The `timeupdate` listener: take the element's position. */
    method OnTimeUpdate()
      requires Valid() && audio != null
      modifies this
      ensures Valid()
      ensures old(InSync()) ==> InSync()
      ensures State() == Seeked(old(State()), audio.currentTime)
    {
      currentTime := audio.currentTime;
    }
  }

  /** A recitation played to the end: restart then rewinds without playing
      while the Pause icon stays up, the first toggle only pauses, and the
      second one plays again from the start. */
  method ReplayAfterEnd(length: nat)
    returns (pausedAfterRestart: bool, shownPlaying: bool, pausedAfterToggles: bool, position: nat)
    ensures pausedAfterRestart && shownPlaying
    ensures !pausedAfterToggles && position == 0
  {
    var element := new MediaElement(length);
    var player := new AudioPlayer(element);
    player.TogglePlay();
    element.End();
    player.Restart();
    pausedAfterRestart, shownPlaying := element.paused, player.isPlaying;
    player.TogglePlay();
    player.TogglePlay();
    pausedAfterToggles, position := element.paused, element.currentTime;
  }

  // ---------------------------------------------------------------------
  // formatTime
  // ---------------------------------------------------------------------

  /** Seconds below a hundred padded to two digits: exactly two digits,
      and they read back as the number. */
  lemma TwoDigits(n: nat)
    requires n < 100
    ensures |PadStart(NatToString(n), 2, '0')| == 2
    ensures AllDigits(PadStart(NatToString(n), 2, '0'))
    ensures DigitsValue(PadStart(NatToString(n), 2, '0')) == n
  {
    var p := PadStart(NatToString(n), 2, '0');
    if n < 10 {
      assert NatToString(n) == [DigitChar(n)];
      assert p == ['0', DigitChar(n)];
      assert p[..1] == ['0'];
      assert DigitsValue(p) == DigitsValue(p[..1]) * 10 + DigitValue(p[1]);
    } else {
      var hi, lo := DigitChar(n / 10), DigitChar(n % 10);
      assert NatToString(n / 10) == [hi];
      assert p == [hi, lo];
      assert p[..1] == [hi];
      assert DigitsValue([hi]) == n / 10;
    }
  }

  /** Where the colon of `m + ":" + sec` is, for a two-character `sec`. */
  lemma ColonSplit(m: string, sec: string)
    requires |sec| == 2
    ensures var s := m + ":" + sec;
      |s| == |m| + 3 && s[|s| - 3] == ':' && s[..|s| - 3] == m && s[|s| - 2..] == sec
  {
  }

  /** `formatTime(t)` for `t` whole seconds: the minutes in decimal, a
      colon, and the seconds padded to two digits with a leading zero. The
      text is the minutes without leading zeros, ":", and exactly two digits
      of seconds below 60, with minutes * 60 + seconds equal to the time. */
  function FormatTime(time: nat): (r: string)
    ensures |r| >= 4 && r[|r| - 3] == ':'
    ensures AllDigits(r[..|r| - 3]) && (|r| > 4 ==> r[0] != '0')
    ensures AllDigits(r[|r| - 2..]) && DigitsValue(r[|r| - 2..]) < 60
    ensures DigitsValue(r[..|r| - 3]) * 60 + DigitsValue(r[|r| - 2..]) == time
  {
    var minutes, seconds := time / 60, time % 60;
    assert minutes * 60 + seconds == time;
    var m, sec := NatToString(minutes), PadStart(NatToString(seconds), 2, '0');
    TwoDigits(seconds);
    NatToStringRoundTrip(minutes);
    ColonSplit(m, sec);
    m + ":" + sec
  }

  /** Different times never print the same. */
  lemma FormatTimeInjective(t: nat, u: nat)
    ensures FormatTime(t) == FormatTime(u) ==> t == u
  {
  }

  /** Times below an hour print in at most five characters, `mm:ss`. */
  lemma FormatTimeUnderAnHour(time: nat)
    requires time < 3600
    ensures 4 <= |FormatTime(time)| <= 5
  {
  }
}
