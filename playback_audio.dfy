/**
 * The play/pause button of a recording
 * (client/src/components/record/PlaybackAudio.jsx): a three-valued label and
 * the hidden audio element it drives.
 */
module PlaybackAudio {

  const PlayLabel: string := "Play Recording"
  const PauseLabel: string := "Pause"
  const ResumeLabel: string := "Resume"

  /** The label after a click: "Pause" from "Play Recording" or "Resume", else "Resume". */
  function NextLabel(current: string): (next: string)
    ensures next == PauseLabel <==> current == PlayLabel || current == ResumeLabel
    ensures next == ResumeLabel <==> !(current == PlayLabel || current == ResumeLabel)
    ensures next != PlayLabel
  {
    if current == PlayLabel || current == ResumeLabel then PauseLabel else ResumeLabel
  }

  /** Two clicks from any label reached by a click come back to it. */
  lemma ClickTwice(current: string)
    requires current == PauseLabel || current == ResumeLabel
    ensures NextLabel(NextLabel(current)) == current
  {
  }

  class Playback {
    var playPauseLabel: string
    /** The audio element is playing (not paused). */
    var playing: bool
    /** `audioRef.current.onended` has been installed. */
    var endedHandlerSet: bool

    /** The label is one of the three, and audio plays exactly when it reads "Pause". */
    predicate Valid()
      reads this
    {
      && (playPauseLabel == PlayLabel || playPauseLabel == PauseLabel || playPauseLabel == ResumeLabel)
      && (playing <==> playPauseLabel == PauseLabel)
      && (playing ==> endedHandlerSet)
    }

    /** The initial label (PlaybackAudio.jsx:21); the audio is paused. */
    constructor ()
      ensures Valid() && playPauseLabel == PlayLabel && !playing && !endedHandlerSet
    {
      playPauseLabel := PlayLabel;
      playing := false;
      endedHandlerSet := false;
    }

    /**
     * `handlePlayPause`: from "Play Recording" or "Resume" the label becomes
     * "Pause", the audio plays and the ended handler is installed; from
     * "Pause" the label becomes "Resume" and the audio pauses.
     */
    method HandlePlayPause()
      requires Valid()
      modifies this
      ensures Valid()
      ensures playPauseLabel == NextLabel(old(playPauseLabel))
      ensures playing <==> old(playPauseLabel) != PauseLabel
      ensures endedHandlerSet == (old(endedHandlerSet) || old(playPauseLabel) != PauseLabel)
    {
      if playPauseLabel == PlayLabel || playPauseLabel == ResumeLabel {
        playPauseLabel := PauseLabel;
        playing := true;
        endedHandlerSet := true;
      } else {
        playPauseLabel := ResumeLabel;
        playing := false;
      }
    }

    /**
     * The audio element's `ended` event, which fires only while it plays:
     * the installed handler resets the label to "Play Recording".
     */
    method HandleEnded()
      requires Valid() && playing
      modifies this
      ensures Valid()
      ensures playPauseLabel == PlayLabel && !playing && endedHandlerSet
    {
      playing := false;
      if endedHandlerSet {
        playPauseLabel := PlayLabel;
      }
    }
  }
}
