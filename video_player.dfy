/** The custom video player's control logic (components/VideoPlayer.tsx): transport
  * state driven by media events, volume and mute, playback rate and its menu, the
  * auto-hiding controls overlay, seeking and the "MM:SS" time labels. */
module VideoPlayer {
  import opened Decimal
  import opened Media

  /** PLAYBACK_SPEEDS */
  const PlaybackSpeeds: seq<real> := [0.5, 1.0, 1.5, 2.0]

  /** The volume `toggleMute` puts back when it finds the volume at 0. */
  const RestoredVolume: real := 0.5

  // ---------------------------------------------------------------- time labels

  /** `String(n).padStart(2, '0')`: exactly two characters when `n < 100`. */
  function TwoDigitField(n: nat): (r: string)
    ensures |r| >= 2 && (n < 100 ==> |r| == 2)
  {
    PadStart(NatToString(n), 2, '0')
  }

  /** A field is all digits and reads back as the number it shows. */
  lemma TwoDigitFieldValue(n: nat)
    ensures AllDigits(TwoDigitField(n)) && DecimalValue(TwoDigitField(n)) == n
  {
    NatToStringRoundTrip(n);
    PadZerosValue(NatToString(n), 2);
  }

  /** `formatTime` on a whole number of seconds: minutes and seconds, each
    * zero-padded to two digits, joined by ':'. The source applies Math.floor to the
    * quotient and the remainder of a real; for t >= 0 these equal the quotient and
    * remainder of floor(t), which is what callers pass here. The minutes field
    * reads back as t / 60 and the seconds field, always two digits, as t % 60. */
  function FormatTime(seconds: nat): (r: string)
    ensures |r| >= 5 && r[|r| - 3] == ':'
    ensures seconds < 6000 ==> |r| == 5
  {
    TwoDigitField(seconds / 60) + ":" + TwoDigitField(seconds % 60)
  }

  /** Both fields of a label are digits; the seconds field reads back as a value
    * below 60 and the two fields together as the time shown. */
  lemma FormatTimeFields(t: nat)
    ensures var r := FormatTime(t);
      && AllDigits(r[..|r| - 3]) && AllDigits(r[|r| - 2..])
      && 60 * DecimalValue(r[..|r| - 3]) + DecimalValue(r[|r| - 2..]) == t
      && DecimalValue(r[|r| - 2..]) < 60
  {
    var m, s := t / 60, t % 60;
    assert s < 60 && 60 * m + s == t;
    var minutes, secs := TwoDigitField(m), TwoDigitField(s);
    TwoDigitFieldValue(m);
    TwoDigitFieldValue(s);
    var r := minutes + ":" + secs;
    assert FormatTime(t) == r;
    assert |secs| == 2 && r[..|r| - 3] == minutes && r[|r| - 2..] == secs;
  }

  /** The whole seconds in a non-negative time, as `Math.floor` gives them. */
  function WholeSeconds(t: real): (n: nat)
    requires t >= 0.0
    ensures n as real <= t < n as real + 1.0
  {
    t.Floor
  }

  /** Reads a label of the shape FormatTime produces back as seconds. */
  function ParseTime(text: string): nat
    requires |text| >= 3
    requires AllDigits(text[..|text| - 3]) && AllDigits(text[|text| - 2..])
  {
    60 * DecimalValue(text[..|text| - 3]) + DecimalValue(text[|text| - 2..])
  }

  /** No two times share a label: the label reads back as the time it shows. */
  lemma FormatTimeRoundTrip(t: nat)
    ensures var r := FormatTime(t);
      AllDigits(r[..|r| - 3]) && AllDigits(r[|r| - 2..]) && ParseTime(r) == t
  {
    FormatTimeFields(t);
  }

  // ---------------------------------------------------------------- playback rate

  /** `${speed}` for the non-negative half-steps the menu offers. */
  function HalfStepText(x: real): (r: string)
    requires x in PlaybackSpeeds
  {
    if x == x.Floor as real then NatToString(x.Floor) else NatToString(x.Floor) + ".5"
  }

  /** The menu entry for a speed: 'Normal' for 1, '<speed>x' otherwise. */
  function SpeedLabel(speed: real): (r: string)
    requires speed in PlaybackSpeeds
    ensures r == "Normal" <==> speed == 1.0
    ensures speed != 1.0 ==> |r| >= 2 && r[|r| - 1] == 'x'
  {
    if speed == 1.0 then "Normal" else HalfStepText(speed) + "x"
  }

  /** The menu's four entries, in PLAYBACK_SPEEDS order. */
  lemma SpeedLabelTexts()
    ensures SpeedLabel(0.5) == "0.5x" && SpeedLabel(1.0) == "Normal"
    ensures SpeedLabel(1.5) == "1.5x" && SpeedLabel(2.0) == "2x"
  {
  }

  /** The four menu entries are told apart by their labels. */
  lemma SpeedLabelsDistinct(i: nat, j: nat)
    requires i < j < |PlaybackSpeeds|
    ensures SpeedLabel(PlaybackSpeeds[i]) != SpeedLabel(PlaybackSpeeds[j])
  {
    SpeedLabelTexts();
  }

  // ---------------------------------------------------------------- volume and mute

  /** The volume slider's value and the mute flag. */
  datatype Audio = Audio(volume: real, muted: bool)

  /** `handleVolumeChange`: the new level is taken and mute is cleared. */
  function VolumeChanged(a: Audio, level: real): (r: Audio)
    ensures r.volume == level && !r.muted
  {
    Audio(level, false)
  }

  /** `toggleMute`: the flag flips; the volume moves only when muting at volume 0,
    * and then to RestoredVolume. (The test at line 129 reads the flag before the
    * flip, so the restore happens on the way into mute, not out of it.) */
  function MuteToggled(a: Audio): (r: Audio)
    ensures r.muted == !a.muted
    ensures r.volume != a.volume <==> !a.muted && a.volume == 0.0
    ensures r.volume != a.volume ==> r.volume == RestoredVolume
  {
    if !a.muted && a.volume == 0.0 then Audio(RestoredVolume, true) else Audio(a.volume, !a.muted)
  }

  /** Two toggles restore the flag, and the volume too unless the first toggle
    * muted at volume 0. */
  lemma MuteToggledTwice(a: Audio)
    requires NotMutedAtZero(a)
    ensures MuteToggled(MuteToggled(a)).muted == a.muted
    ensures MuteToggled(MuteToggled(a)).volume
            == if !a.muted && a.volume == 0.0 then RestoredVolume else a.volume
  {
  }

  /** Muted at volume 0 never arises, so every unmute is audible: this holds
    * initially and both audio operations keep it. */
  predicate NotMutedAtZero(a: Audio) {
    a.muted ==> a.volume > 0.0
  }

  lemma AudioOperationsKeepAudible(a: Audio, level: real)
    requires NotMutedAtZero(a) && 0.0 <= a.volume
    ensures NotMutedAtZero(VolumeChanged(a, level))
    ensures NotMutedAtZero(MuteToggled(a))
    ensures a.muted ==> MuteToggled(a).volume > 0.0
  {
  }

  // ---------------------------------------------------------------- seeking

  /** `handleSeek`: the slider's percentage of a known duration. */
  function SeekTarget(percent: real, duration: real): (t: real)
    requires 0.0 <= percent <= 100.0 && duration > 0.0
    ensures 0.0 <= t <= duration
    ensures t == 0.0 <==> percent == 0.0
    ensures t == duration <==> percent == 100.0
  {
    (percent / 100.0) * duration
  }

  /** The time-update handler's progress: position as a percentage of duration. */
  function ProgressPercent(time: real, duration: real): (p: real)
    requires 0.0 <= time <= duration && duration > 0.0
    ensures 0.0 <= p <= 100.0
  {
    (time / duration) * 100.0
  }

  /** After a seek to p, the next time update shows progress p again. */
  lemma SeekThenProgress(percent: real, duration: real)
    requires 0.0 <= percent <= 100.0 && duration > 0.0
    ensures ProgressPercent(SeekTarget(percent, duration), duration) == percent
  {
  }

  /** Seeking to the displayed progress returns to the current position. */
  lemma ProgressThenSeek(time: real, duration: real)
    requires 0.0 <= time <= duration && duration > 0.0
    ensures SeekTarget(ProgressPercent(time, duration), duration) == time
  {
  }

  // ---------------------------------------------------------------- the controller

  /** One mounted VideoPlayer: its React state, the pending hide timer
    * (`controlsTimeoutRef`) and the media element's properties the component sets. */
  class Controller {
    /** `videoRef.current` and `containerRef.current` are attached. */
    const hasMedia: bool
    const hasContainer: bool

    var isPlaying: bool
    var volume: real
    var isMuted: bool
    var progress: real
    var durationLabel: string
    var currentTimeLabel: string
    var isFullscreen: bool
    var areControlsVisible: bool
    var isSettingsOpen: bool
    var playbackRate: real
    /** A hide timer is scheduled and has not yet fired. */
    var hideTimerPending: bool

    /** The media element's volume, muted, playbackRate, currentTime, duration. */
    var mediaVolume: real
    var mediaMuted: bool
    var mediaRate: real
    var mediaTime: real
    var mediaDuration: real

    /** Everything the controller keeps true, except the controls rule. */
    ghost predicate Consistent()
      reads this`playbackRate, this`volume, this`isMuted, this`progress, this`mediaDuration
      reads this`mediaVolume, this`mediaMuted
    {
      && playbackRate in PlaybackSpeeds
      && 0.0 <= volume <= 1.0
      && NotMutedAtZero(Audio(volume, isMuted))
      && 0.0 <= progress <= 100.0
      && 0.0 <= mediaDuration
      && (hasMedia ==> mediaVolume == volume && mediaMuted == isMuted)
    }

    /** ... and the controls are never hidden while paused. */
    ghost predicate Valid()
      reads this`playbackRate, this`volume, this`isMuted, this`progress, this`mediaDuration
      reads this`mediaVolume, this`mediaMuted, this`isPlaying, this`areControlsVisible
    {
      Consistent() && (!isPlaying ==> areControlsVisible)
    }

    function AudioState(): Audio
      reads this
    {
      Audio(volume, isMuted)
    }

    /** Mounting: the initial state, then the `[isPlaying]` effect's first run,
      * which shows the controls and schedules a hide timer. */
    constructor (hasMedia: bool, hasContainer: bool)
      ensures Valid()
      ensures this.hasMedia == hasMedia && this.hasContainer == hasContainer
      ensures !isPlaying && volume == 1.0 && !isMuted && progress == 0.0
      ensures durationLabel == "00:00" && currentTimeLabel == "00:00"
      ensures !isFullscreen && areControlsVisible && !isSettingsOpen && playbackRate == 1.0
      ensures hideTimerPending
    {
      this.hasMedia := hasMedia;
      this.hasContainer := hasContainer;
      isPlaying := false;
      volume := 1.0;
      isMuted := false;
      progress := 0.0;
      durationLabel := "00:00";
      currentTimeLabel := "00:00";
      isFullscreen := false;
      areControlsVisible := true;
      isSettingsOpen := false;
      playbackRate := 1.0;
      hideTimerPending := true;
      mediaVolume := 1.0;
      mediaMuted := false;
      mediaRate := 1.0;
      mediaTime := 0.0;
      mediaDuration := 0.0;
    }

    /** `showControls` (also the container's mouse-move handler): controls become
      * visible; any pending timer is cancelled and one new timer is scheduled. */
    method ShowControls()
      requires Consistent()
      modifies this`areControlsVisible, this`hideTimerPending
      ensures Valid()
      ensures areControlsVisible && hideTimerPending
    {
      areControlsVisible := true;
      hideTimerPending := true;
    }

    /** The pending timer fires `hideControls`: controls hide only while playing. */
    method ExpireHideTimer()
      requires Valid() && hideTimerPending
      modifies this`areControlsVisible, this`hideTimerPending
      ensures Valid()
      ensures !hideTimerPending
      ensures areControlsVisible == (old(areControlsVisible) && !isPlaying)
    {
      hideTimerPending := false;
      if isPlaying {
        areControlsVisible := false;
      }
    }

    /** The container's mouse-leave handler: hides while playing; the timer stays. */
    method OnMouseLeave()
      requires Valid()
      modifies this`areControlsVisible
      ensures Valid()
      ensures areControlsVisible == (old(areControlsVisible) && !isPlaying)
    {
      if isPlaying {
        areControlsVisible := false;
      }
    }

    /** The element's `play` event. A change of `isPlaying` re-runs the effect
      * that calls `showControls`. */
    method OnPlay()
      requires Valid()
      modifies this`isPlaying, this`areControlsVisible, this`hideTimerPending
      ensures Valid()
      ensures isPlaying
      ensures !old(isPlaying) ==> areControlsVisible && hideTimerPending
      ensures old(isPlaying) ==> areControlsVisible == old(areControlsVisible)
                                 && hideTimerPending == old(hideTimerPending)
    {
      if !isPlaying {
        isPlaying := true;
        ShowControls();
      }
    }

    /** The element's `pause` event. */
    method OnPause()
      requires Valid()
      modifies this`isPlaying, this`areControlsVisible, this`hideTimerPending
      ensures Valid()
      ensures !isPlaying && areControlsVisible
      ensures old(isPlaying) ==> hideTimerPending
      ensures !old(isPlaying) ==> hideTimerPending == old(hideTimerPending)
    {
      if isPlaying {
        isPlaying := false;
        ShowControls();
      }
    }

    /** `handlePlayPause` (the play button and a click on the video): asks the
      * element for the opposite of its own paused state. `isPlaying` is left to
      * the `play`/`pause` events. */
    method HandlePlayPause(mediaPaused: bool) returns (request: MediaRequest)
      ensures request != NoMediaRequest <==> hasMedia
      ensures request == PlayMedia <==> hasMedia && mediaPaused
      ensures request == PauseMedia <==> hasMedia && !mediaPaused
    {
      if hasMedia {
        request := if mediaPaused then PlayMedia else PauseMedia;
      } else {
        request := NoMediaRequest;
      }
    }

    /** The container's keydown handler: Space suppresses the default scrolling
      * and does what the play button does; other keys do nothing. */
    method OnKeyDown(code: string, mediaPaused: bool)
      returns (preventDefault: bool, request: MediaRequest)
      ensures preventDefault <==> code == "Space"
      ensures code != "Space" ==> request == NoMediaRequest
      ensures code == "Space" ==> (request == PlayMedia <==> hasMedia && mediaPaused)
      ensures code == "Space" ==> (request == PauseMedia <==> hasMedia && !mediaPaused)
    {
      if code == "Space" {
        preventDefault := true;
        request := HandlePlayPause(mediaPaused);
      } else {
        preventDefault := false;
        request := NoMediaRequest;
      }
    }

    /** `handleVolumeChange`, the slider giving a level in [0, 1]. */
    method HandleVolumeChange(level: real)
      requires Valid() && 0.0 <= level <= 1.0
      modifies this`volume, this`isMuted, this`mediaVolume, this`mediaMuted
      ensures Valid()
      ensures AudioState() == VolumeChanged(old(AudioState()), level)
      ensures hasMedia ==> mediaVolume == level && !mediaMuted
      ensures !hasMedia ==> mediaVolume == old(mediaVolume) && mediaMuted == old(mediaMuted)
    {
      volume := level;
      if isMuted {
        isMuted := false;
      }
      if hasMedia {
        mediaVolume := level;
        mediaMuted := false;
      }
    }

    /** `toggleMute`; without a media element nothing happens. */
    method ToggleMute()
      requires Valid()
      modifies this`volume, this`isMuted, this`mediaVolume, this`mediaMuted
      ensures Valid()
      ensures hasMedia ==> AudioState() == MuteToggled(old(AudioState()))
      ensures hasMedia ==> mediaVolume == volume && mediaMuted == isMuted
      ensures !hasMedia ==> volume == old(volume) && isMuted == old(isMuted)
                            && mediaVolume == old(mediaVolume) && mediaMuted == old(mediaMuted)
    {
      if hasMedia {
        var wasMuted := isMuted;
        mediaMuted := !wasMuted;
        isMuted := !wasMuted;
        if !wasMuted && volume == 0.0 {
          volume := RestoredVolume;
          mediaVolume := RestoredVolume;
        }
      }
    }

    /** The element's `loadedmetadata` event with its duration in seconds. */
    method OnLoadedMetadata(duration: real)
      requires Valid() && hasMedia && duration >= 0.0
      modifies this`mediaDuration, this`durationLabel
      ensures Valid()
      ensures mediaDuration == duration
      ensures durationLabel == FormatTime(WholeSeconds(duration))
    {
      mediaDuration := duration;
      durationLabel := FormatTime(WholeSeconds(duration));
    }

    /** The element's `timeupdate` event, its current position being `time`. */
    method OnTimeUpdate(time: real)
      requires Valid() && hasMedia && 0.0 <= time <= mediaDuration && mediaDuration > 0.0
      modifies this`mediaTime, this`progress, this`currentTimeLabel
      ensures Valid()
      ensures mediaTime == time
      ensures progress == ProgressPercent(time, mediaDuration)
      ensures currentTimeLabel == FormatTime(WholeSeconds(time))
    {
      mediaTime := time;
      progress := ProgressPercent(time, mediaDuration);
      currentTimeLabel := FormatTime(WholeSeconds(time));
    }

    /** `handleSeek`: moves the element's position; `progress` follows at the
      * next time update. The source has no guard for an unknown duration. */
    method HandleSeek(percent: real)
      requires Valid() && 0.0 <= percent <= 100.0
      requires hasMedia ==> mediaDuration > 0.0
      modifies this`mediaTime
      ensures Valid()
      ensures hasMedia ==> mediaTime == SeekTarget(percent, mediaDuration)
      ensures hasMedia ==> 0.0 <= mediaTime <= mediaDuration
      ensures !hasMedia ==> mediaTime == old(mediaTime)
    {
      if hasMedia {
        mediaTime := SeekTarget(percent, mediaDuration);
      }
    }

    /** `toggleFullscreen`: decided by whether the document has a fullscreen
      * element, not by `isFullscreen`; the state waits for the notification. */
    method ToggleFullscreen(documentHasFullscreen: bool) returns (request: FullscreenRequest)
      ensures !hasContainer ==> request == NoFullscreenRequest
      ensures hasContainer ==> (request == EnterFullscreen <==> !documentHasFullscreen)
      ensures hasContainer ==> (request == ExitFullscreen <==> documentHasFullscreen)
    {
      if !hasContainer {
        request := NoFullscreenRequest;
      } else if !documentHasFullscreen {
        request := EnterFullscreen;
      } else {
        request := ExitFullscreen;
      }
    }

    /** The `fullscreenchange` notification: the only writer of `isFullscreen`. */
    method OnFullscreenChange(documentHasFullscreen: bool)
      requires Valid()
      modifies this`isFullscreen
      ensures Valid()
      ensures isFullscreen == documentHasFullscreen
    {
      isFullscreen := documentHasFullscreen;
    }

    /** The settings button. */
    method ToggleSettings()
      requires Valid()
      modifies this`isSettingsOpen
      ensures Valid()
      ensures isSettingsOpen == !old(isSettingsOpen)
    {
      isSettingsOpen := !isSettingsOpen;
    }

    /** `handlePlaybackRateChange` from a menu entry: sets the rate on the element
      * and in state and closes the menu; without a media element nothing happens. */
    method HandlePlaybackRateChange(rate: real)
      requires Valid() && rate in PlaybackSpeeds
      modifies this`mediaRate, this`playbackRate, this`isSettingsOpen
      ensures Valid()
      ensures hasMedia ==> playbackRate == rate && mediaRate == rate && !isSettingsOpen
      ensures !hasMedia ==> playbackRate == old(playbackRate) && mediaRate == old(mediaRate)
                            && isSettingsOpen == old(isSettingsOpen)
    {
      if hasMedia {
        mediaRate := rate;
        playbackRate := rate;
        isSettingsOpen := false;
      }
    }

    /** A new `src` on the same mounted player (a watch-next pick keeps the modal
      * and its player): the element reloads, its rate falls back to 1 and its
      * duration becomes unknown (0 here), while the component's state, the rate
      * included, is kept. Volume and mute survive the reload. */
    method OnSourceChange()
      requires Valid()
      modifies this`mediaRate, this`mediaTime, this`mediaDuration
      ensures Valid()
      ensures hasMedia ==> mediaRate == 1.0 && mediaTime == 0.0 && mediaDuration == 0.0
      ensures !hasMedia ==> mediaRate == old(mediaRate) && mediaTime == old(mediaTime)
                            && mediaDuration == old(mediaDuration)
    {
      if hasMedia {
        mediaRate := 1.0;
        mediaTime := 0.0;
        mediaDuration := 0.0;
      }
    }

    /** The label of the highlighted menu entry. */
    function CurrentSpeedLabel(): (r: string)
      requires Valid()
      reads this
      ensures r == "Normal" <==> playbackRate == 1.0
    {
      SpeedLabel(playbackRate)
    }
  }

  /** Choosing 1.5x and then a watch-next video: the menu still highlights
    * "1.5x" while the reloaded element plays at rate 1. */
  method RateAfterSourceChange() returns (highlighted: string, elementRate: real)
    ensures highlighted == "1.5x" && elementRate == 1.0
  {
    var player := new Controller(true, true);
    player.HandlePlaybackRateChange(1.5);
    player.OnSourceChange();
    SpeedLabelTexts();
    highlighted := player.CurrentSpeedLabel();
    elementRate := player.mediaRate;
  }
}
