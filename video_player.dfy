/** The playback control widget: a custom control bar over one media element.
    The widget's own state is a handful of fields that its handlers update; the
    media element, the fullscreen API and the timer queue are the environment,
    whose events arrive as method calls and whose relevant state is kept in
    fields beside the widget's own. */
module VideoPlayer {
  import opened Text

  // ---------------------------------------------------------------------------
  // Elapsed-time display

  /** JavaScript's `Math.trunc` on a real number. */
  function Trunc(x: real): (n: int)
    ensures x >= 0.0 ==> n == x.Floor
    ensures (n as real) - 1.0 < x < (n as real) + 1.0
  {
    if x >= 0.0 then x.Floor else -((-x).Floor)
  }

  /** JavaScript's `x % m` on numbers: truncated division, so the remainder has
      the sign of the dividend (unlike Dafny's `%`, which is never negative). */
  function JsRemainder(x: real, m: real): (r: real)
    requires m > 0.0
  {
    x - m * (Trunc(x / m) as real)
  }

  /** The `M:SS` text of a time in seconds: whole minutes, a colon, and whole
      seconds with a `0` in front when they are below ten. */
  function FormatTime(time: real): (s: string)
  {
    var minutes := (time / 60.0).Floor;
    var seconds := JsRemainder(time, 60.0).Floor;
    IntToString(minutes) + ":" + (if seconds < 10 then "0" else "") + IntToString(seconds)
  }

  /** The shape of the text FormatTime gives for a time that is not negative:
      decimal digits, a colon, and exactly two digits. */
  predicate IsClockText(s: string) {
    |s| >= 4 && s[|s| - 3] == ':' && IsDigits(s[..|s| - 3]) && IsDigits(s[|s| - 2..])
  }

  /** The number of whole seconds a clock text stands for. */
  function ClockSeconds(s: string): (n: nat)
    requires IsClockText(s)
  {
    ParseDigits(s[..|s| - 3]) * 60 + ParseDigits(s[|s| - 2..])
  }

  /** The display of whole minutes and seconds: the minutes as they come, a
      colon, and the seconds as exactly two digits. */
  function ClockText(minutes: nat, seconds: nat): (s: string)
    requires seconds < 60
  {
    NatToString(minutes) + ":" + [DigitChar(seconds / 10), DigitChar(seconds % 10)]
  }

  /** For a time that is not negative, the minutes shown are the whole
      seconds divided by 60 and the two digits after the colon the
      remainder. */
  lemma FormatTimeParts(time: real)
    requires time >= 0.0
    ensures FormatTime(time) == ClockText(time.Floor / 60, time.Floor % 60)
  {
    var f := time.Floor;
    var minutes := (time / 60.0).Floor;
    assert 60 * minutes <= f < 60 * minutes + 60 by {
      assert (minutes as real) <= time / 60.0 < (minutes as real) + 1.0;
    }
    assert minutes == f / 60;
    var rest := JsRemainder(time, 60.0);
    assert rest == time - 60.0 * (minutes as real);
    assert rest.Floor == f - 60 * minutes;
    var seconds := f % 60;
    assert rest.Floor == seconds;
    if seconds < 10 {
      assert NatToString(seconds) == [DigitChar(seconds)];
    } else {
      assert NatToString(seconds) == NatToString(seconds / 10) + [DigitChar(seconds % 10)];
      assert NatToString(seconds / 10) == [DigitChar(seconds / 10)];
    }
  }

  /** A clock text has the `M:SS` shape and reads back as the minutes and
      seconds it was made from. */
  lemma ClockTextReadsBack(minutes: nat, seconds: nat)
    requires seconds < 60
    ensures IsClockText(ClockText(minutes, seconds))
    ensures ClockSeconds(ClockText(minutes, seconds)) == minutes * 60 + seconds
    ensures ParseDigits(ClockText(minutes, seconds)[|ClockText(minutes, seconds)| - 2..]) == seconds
  {
    var t := ClockText(minutes, seconds);
    var m := NatToString(minutes);
    var d1, d2 := DigitChar(seconds / 10), DigitChar(seconds % 10);
    assert t[..|t| - 3] == m;
    assert t[|t| - 2..] == [d1, d2];
    assert ParseDigits(m) == minutes by {
      ParseNatToString(minutes);
    }
    assert ParseDigits([d1, d2]) == seconds by {
      ParseTwoDigits(seconds);
    }
  }

  /** The display always reads back as exactly the whole seconds of the time,
      and its seconds field is always in 0..59. */
  lemma FormatTimeShowsWholeSeconds(time: real)
    requires time >= 0.0
    ensures IsClockText(FormatTime(time))
    ensures ClockSeconds(FormatTime(time)) == time.Floor
    ensures ParseDigits(FormatTime(time)[|FormatTime(time)| - 2..]) < 60
  {
    var f := time.Floor;
    FormatTimeParts(time);
    ClockTextReadsBack(f / 60, f % 60);
  }

  /** Two digits written for a number below 100 read back as that number. */
  lemma ParseTwoDigits(n: nat)
    requires n < 100
    ensures ParseDigits([DigitChar(n / 10), DigitChar(n % 10)]) == n
  {
    var d1, d2 := DigitChar(n / 10), DigitChar(n % 10);
    assert DigitValue(d1) == n / 10 && DigitValue(d2) == n % 10;
    assert [d1][..0] == [];
    assert ParseDigits([d1]) == n / 10;
    assert [d1, d2][..1] == [d1];
    assert ParseDigits([d1, d2]) == ParseDigits([d1]) * 10 + DigitValue(d2);
  }

  /** Three sample displays: the start, a single-digit second and the last
      second before an hour. */
  lemma FormatTimeExamples()
    ensures FormatTime(0.0) == "0:00"
    ensures FormatTime(65.0) == "1:05"
    ensures FormatTime(3599.0) == "59:59"
  {
    assert FormatTime(0.0) == "0:00" by {
      assert (0.0 / 60.0).Floor == 0 && JsRemainder(0.0, 60.0) == 0.0;
    }
    assert FormatTime(65.0) == "1:05" by {
      assert (65.0 / 60.0).Floor == 1 && JsRemainder(65.0, 60.0) == 5.0;
    }
    assert FormatTime(3599.0) == "59:59" by {
      assert (3599.0 / 60.0).Floor == 59 && JsRemainder(3599.0, 60.0) == 59.0;
      assert NatToString(59) == NatToString(5) + [DigitChar(9)];
    }
  }

  // ---------------------------------------------------------------------------
  // Volume

  /** The value of the volume slider, which the volume effect also writes to
      the media element. */
  function EffectiveVolume(isMuted: bool, volume: real): (v: real)
  {
    if isMuted then 0.0 else volume
  }

  datatype VolumeIcon = VolumeMuted | VolumeHigh | VolumeLow

  /** The icon on the mute button. */
  function SelectVolumeIcon(isMuted: bool, volume: real): (icon: VolumeIcon)
    ensures icon == VolumeMuted <==> isMuted
    ensures icon == VolumeHigh <==> !isMuted && volume > 0.5
    ensures icon == VolumeLow <==> !isMuted && volume <= 0.5
  {
    if isMuted then VolumeMuted else if volume > 0.5 then VolumeHigh else VolumeLow
  }

  /** The icon tells the loudness actually applied: the high-volume icon shows
      exactly when the effective volume is above one half, and the muted icon
      only ever shows with silence. */
  lemma IconMatchesEffectiveVolume(isMuted: bool, volume: real)
    ensures SelectVolumeIcon(isMuted, volume) == VolumeHigh <==> EffectiveVolume(isMuted, volume) > 0.5
    ensures SelectVolumeIcon(isMuted, volume) == VolumeMuted ==> EffectiveVolume(isMuted, volume) == 0.0
    ensures SelectVolumeIcon(isMuted, volume) == VolumeLow ==> EffectiveVolume(isMuted, volume) <= 0.5
  {
  }

  // ---------------------------------------------------------------------------
  // The widget

  /** What the widget last told the media element: play() or pause(). */
  datatype MediaCommand = Play | Pause

  /** `document.fullscreenElement`, seen from this widget. */
  datatype FullscreenElement = NoElement | ThisPlayer | OtherElement

  /** What the fullscreen button asks of the environment. */
  datatype FullscreenRequest = RequestFullscreen | ExitFullscreen

  const InitialVolume: real := 0.7

  /** A snapshot of every field of a Player: whether it is mounted, the
      widget's own state, then the environment's (the live hide timers with the
      `isPlaying` each captured, the next timer handle, and what was last
      written to the media element). */
  datatype PlayerState = PlayerState(
    mounted: bool,
    isPlaying: bool,
    currentTime: real,
    duration: real,
    volume: real,
    isMuted: bool,
    isFullscreen: bool,
    showControls: bool,
    hideTimer: Option<nat>,
    pendingTimers: map<nat, bool>,
    nextTimerId: nat,
    mediaVolume: real,
    mediaTime: real,
    mediaCommand: MediaCommand)

  /** The handles of the stored timer slot, as a set. */
  function SlotHandles(slot: Option<nat>): (handles: set<nat>) {
    if slot.Some? then {slot.value} else {}
  }

  /** What holds between the fields at every step: the volume is in the slider's
      range, the only live hide timer is the one in the slot, the controls stay
      shown while a hide timer is live, no timer is live once the widget is
      torn down, handles are fresh, and a present media element has the
      effective volume, the displayed position and the play/pause intent last
      given to it. */
  predicate Consistent(s: PlayerState, hasMedia: bool) {
    && 0.0 <= s.volume <= 1.0
    && s.pendingTimers.Keys <= SlotHandles(s.hideTimer)
    && (s.pendingTimers != map[] ==> s.showControls)
    && (!s.mounted ==> s.pendingTimers == map[])
    && (forall h :: h in SlotHandles(s.hideTimer) ==> h < s.nextTimerId)
    && (hasMedia ==>
          && s.mediaVolume == EffectiveVolume(s.isMuted, s.volume)
          && s.mediaTime == s.currentTime
          && s.mediaCommand == (if s.isPlaying then Play else Pause))
  }

  /** Between events, a present media element plays at a volume the slider
      allows: silent while muted, the slider's volume otherwise, and loud
      exactly when the mute button shows the high-volume icon. */
  lemma ElementVolumeFollowsControls(s: PlayerState)
    requires Consistent(s, true)
    ensures 0.0 <= s.mediaVolume <= 1.0
    ensures s.isMuted ==> s.mediaVolume == 0.0
    ensures !s.isMuted ==> s.mediaVolume == s.volume
    ensures SelectVolumeIcon(s.isMuted, s.volume) == VolumeHigh <==> s.mediaVolume > 0.5
  {
  }

  /** The state right after mounting: the initial values of the state hooks,
      and the media element paused with the initial volume. */
  function Initial(): (s: PlayerState)
    ensures forall hasMedia :: Consistent(s, hasMedia)
    ensures s.mounted && !s.isPlaying && s.currentTime == 0.0 && s.duration == 0.0
    ensures s.volume == 0.7 && !s.isMuted && !s.isFullscreen && s.showControls
    ensures s.hideTimer == None && s.pendingTimers == map[]
  {
    PlayerState(true, false, 0.0, 0.0, InitialVolume, false, false, true, None,
                 map[], 0, InitialVolume, 0.0, Pause)
  }

  class Player {
    /** Whether a video source was given, so that a media element exists. */
    const hasMedia: bool

    /** Whether the widget is on the page; its listeners are removed when it
        is torn down, so no handler runs after that. */
    var mounted: bool
    var isPlaying: bool
    var currentTime: real
    var duration: real
    var volume: real
    var isMuted: bool
    var isFullscreen: bool
    var showControls: bool
    /** The handle of the last scheduled hide-controls timer, if any. */
    var hideTimer: Option<nat>

    /** Environment: hide timers scheduled and neither fired nor cleared, each
        with the `isPlaying` value its callback captured. */
    var pendingTimers: map<nat, bool>
    /** Environment: the handle the next `setTimeout` returns. */
    var nextTimerId: nat
    /** Environment: what the media element was last given. */
    var mediaVolume: real
    var mediaTime: real
    var mediaCommand: MediaCommand

    function State(): (s: PlayerState)
      reads this
    {
      PlayerState(mounted, isPlaying, currentTime, duration, volume, isMuted, isFullscreen,
                  showControls, hideTimer, pendingTimers, nextTimerId,
                  mediaVolume, mediaTime, mediaCommand)
    }

    predicate Valid()
      reads this
    {
      Consistent(State(), hasMedia)
    }

    /** Mounting the widget. */
    constructor (hasMedia: bool)
      ensures this.hasMedia == hasMedia
      ensures State() == Initial() && Valid()
    {
      this.hasMedia := hasMedia;
      mounted := true;
      isPlaying, currentTime, duration := false, 0.0, 0.0;
      volume, isMuted, isFullscreen, showControls := InitialVolume, false, false, true;
      hideTimer, pendingTimers, nextTimerId := None, map[], 0;
      mediaVolume, mediaTime, mediaCommand := InitialVolume, 0.0, Pause;
    }

    /** The play/pause button flips `isPlaying`; the effect on `isPlaying`
        then calls play() or pause() on the media element, if there is one. */
    method TogglePlay()
      requires Valid() && mounted
      modifies this
      ensures Valid()
      ensures State() == old(State()).(
        isPlaying := !old(isPlaying),
        mediaCommand := if hasMedia then (if old(isPlaying) then Pause else Play) else old(mediaCommand))
    {
      isPlaying := !isPlaying;
      if hasMedia {
        mediaCommand := if isPlaying then Play else Pause;
      }
    }

    /** The media element rejected a play() request. */
    method PlayRejected()
      requires Valid() && mounted && hasMedia
      modifies this
      ensures Valid()
      ensures State() == old(State()).(isPlaying := false, mediaCommand := Pause)
    {
      isPlaying := false;
      mediaCommand := Pause;
    }

    /** The media element's "ended" event. */
    method Ended()
      requires Valid() && mounted && hasMedia
      modifies this
      ensures Valid()
      ensures State() == old(State()).(isPlaying := false, mediaCommand := Pause)
    {
      isPlaying := false;
      mediaCommand := Pause;
    }

    /** The media element's "timeupdate" event, carrying its position. */
    method TimeUpdate(position: real)
      requires Valid() && mounted && hasMedia
      modifies this
      ensures Valid()
      ensures State() == old(State()).(currentTime := position, mediaTime := position)
    {
      currentTime := position;
      mediaTime := position;
    }

    /** The media element's "durationchange" event, carrying its duration. */
    method DurationChange(newDuration: real)
      requires Valid() && mounted && hasMedia
      modifies this
      ensures Valid()
      ensures State() == old(State()).(duration := newDuration)
    {
      duration := newDuration;
    }

    /** The volume slider; its `min`/`max` bound what it can report. A volume
        of exactly zero mutes, any other volume unmutes. */
    method SetVolume(newVolume: real)
      requires Valid() && mounted
      requires 0.0 <= newVolume <= 1.0
      modifies this
      ensures Valid()
      ensures State() == old(State()).(
        volume := newVolume,
        isMuted := newVolume == 0.0,
        mediaVolume := if hasMedia then newVolume else old(mediaVolume))
    {
      volume := newVolume;
      isMuted := newVolume == 0.0;
      if hasMedia {
        mediaVolume := EffectiveVolume(isMuted, volume);
      }
    }

    /** The mute button flips `isMuted` and keeps the stored volume. */
    method ToggleMute()
      requires Valid() && mounted
      modifies this
      ensures Valid()
      ensures State() == old(State()).(
        isMuted := !old(isMuted),
        mediaVolume := if hasMedia then EffectiveVolume(!old(isMuted), old(volume)) else old(mediaVolume))
    {
      isMuted := !isMuted;
      if hasMedia {
        mediaVolume := EffectiveVolume(isMuted, volume);
      }
    }

    /** The progress slider: the new position is shown at once and given to the
        media element, with no clamping beyond the slider's own bounds. */
    method Seek(target: real)
      requires Valid() && mounted
      modifies this
      ensures Valid()
      ensures State() == old(State()).(
        currentTime := target,
        mediaTime := if hasMedia then target else old(mediaTime))
    {
      currentTime := target;
      if hasMedia {
        mediaTime := target;
      }
    }

    /** The fullscreen button: it only asks; `isFullscreen` follows later from
        the "fullscreenchange" notification. */
    method ToggleFullscreen(current: FullscreenElement) returns (request: FullscreenRequest)
      requires mounted
      ensures request == RequestFullscreen <==> current == NoElement
    {
      if current == NoElement {
        request := RequestFullscreen;
      } else {
        request := ExitFullscreen;
      }
    }

    /** The document's "fullscreenchange" notification. */
    method FullscreenChange(current: FullscreenElement)
      requires Valid() && mounted
      modifies this
      ensures Valid()
      ensures State() == old(State()).(isFullscreen := current == ThisPlayer)
    {
      isFullscreen := current == ThisPlayer;
    }

    /** Mouse movement: show the controls, clear the stored timer, and
        schedule one new timer that captures the current `isPlaying`. */
    method MouseMove()
      requires Valid() && mounted
      modifies this
      ensures Valid()
      ensures State() == old(State()).(
        showControls := true,
        hideTimer := Some(old(nextTimerId)),
        pendingTimers := map[old(nextTimerId) := old(isPlaying)],
        nextTimerId := old(nextTimerId) + 1)
    {
      showControls := true;
      if hideTimer.Some? {
        pendingTimers := pendingTimers - {hideTimer.value};
      }
      assert pendingTimers == map[];
      var handle := nextTimerId;
      nextTimerId := nextTimerId + 1;
      pendingTimers := pendingTimers[handle := isPlaying];
      hideTimer := Some(handle);
    }

    /** A live hide timer fires: it hides the controls when the `isPlaying` it
        captured at scheduling was true. The slot keeps its (now stale) handle. */
    method HideTimerFired(handle: nat)
      requires Valid() && mounted
      requires handle in pendingTimers
      modifies this
      ensures Valid()
      ensures State() == old(State()).(
        showControls := if old(pendingTimers)[handle] then false else old(showControls),
        pendingTimers := map[])
    {
      if pendingTimers[handle] {
        showControls := false;
      }
      pendingTimers := pendingTimers - {handle};
      assert pendingTimers == map[];
    }

    /** Unmounting: the listeners go away and the cleanup of the timer effect
        clears the stored timer, so no hide timer scheduled before teardown can
        fire and no handler runs afterwards. */
    method Unmount()
      requires Valid() && mounted
      modifies this
      ensures Valid()
      ensures State() == old(State()).(mounted := false, pendingTimers := map[])
    {
      mounted := false;
      if hideTimer.Some? {
        pendingTimers := pendingTimers - {hideTimer.value};
      }
      assert pendingTimers == map[];
    }
  }

  // ---------------------------------------------------------------------------
  // Consequences for a caller, stated over the methods' contracts

  /** Muting and unmuting gives back the state and the applied volume. */
  method ToggleMuteTwice(p: Player)
    requires p.Valid() && p.mounted
    modifies p
    ensures p.Valid() && p.State() == old(p.State())
  {
    p.ToggleMute();
    p.ToggleMute();
  }

  /** Moving the mouse twice leaves only the second timer live: it is the one
      in the slot, and it captured the `isPlaying` of the second move. */
  method MoveTwiceKeepsOneTimer(p: Player)
    requires p.Valid() && p.mounted
    modifies p
    ensures p.Valid()
    ensures p.hideTimer == Some(old(p.nextTimerId) + 1)
    ensures p.pendingTimers == map[old(p.nextTimerId) + 1 := old(p.isPlaying)]
  {
    p.MouseMove();
    p.MouseMove();
  }

  /** The controls can end up hidden while paused: play, move the mouse, pause
      within the delay, and the timer, which captured "playing", still hides
      them. */
  method PauseAfterMoveHides(p: Player)
    requires p.Valid() && p.mounted && !p.isPlaying
    modifies p
    ensures p.Valid() && p.mounted
    ensures !p.isPlaying && !p.showControls
  {
    p.TogglePlay();
    p.MouseMove();
    var handle := p.nextTimerId - 1;
    p.TogglePlay();
    p.HideTimerFired(handle);
  }
}
