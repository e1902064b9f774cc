/**
 * The screen-sharing thunks: `updateScreenSharing` and `stopScreenSharing`.
 * One display capture yields a video track and, optionally, an audio
 * track; the video track starts the `screen` sender and the audio track,
 * when present, the `screenaudio` sender. There is no transport check and
 * no preview slot on this path.
 */
module ScreenActions {

  import opened Wrappers
  import opened MediaTypes
  import opened MediaState
  import opened MediaSteps
  import opened Ownership

  /** `start`: the screen sender is not running. */
  predicate ScreenStarts(s: State)
  {
    !s.senders.screen.running
  }

  /** `updateScreenSharing`: starts screen sharing, or re-constrains a running share. */
  function UpdateScreenSharing(s: State, env: Env): (r: Step)
    ensures r.caught.None? <==>
      env.canShareScreen && (!ScreenStarts(s) || (env.displayMedia.Display? && env.displayMedia.hasVideo))
    ensures r.caught.Some? ==> r.state.senders == s.senders && r.state.me == s.me
  {
    Guarded(ScreenSharing, ScreenTry(SetInProgressFlag(s, ScreenSharing, true), env, ScreenStarts(s)))
  }

  /** The `try` block of `updateScreenSharing`; `start` is computed before it. */
  function ScreenTry(s: State, env: Env, start: bool): Step
  {
    if !env.canShareScreen then Step(s, NoCalls, Some(NotAllowed))
    else if start then
      match env.displayMedia
      case DisplayRejected => Step(s, NoCalls.(captures := 1), Some(CaptureFailed))
      case Display(hasVideo, hasAudio) =>
        if !hasVideo then Step(s, NoCalls.(captures := 1), Some(NoTrackInStream))
        else ShareDisplay(s, hasAudio)
    else
      var onTracks := (if s.senders.screen.track.Some? then 1 else 0) + (if s.senders.screenAudio.track.Some? then 1 else 0);
      Step(s, NoCalls.(constraintApplies := onTracks), None)
  }

  /**
   * A display capture with a video track: the video track starts the
   * screen sender and, when there is one, the audio track starts the
   * screen-audio sender. Display tracks report no device; the video track
   * takes the first fresh id.
   */
  function ShareDisplay(s: State, hasAudio: bool): Step
  {
    var v := s.nextTrack;
    var s1 := s.(senders := s.senders.(screen := s.senders.screen.Start(v)), nextTrack := v + 1);
    var s2 := s1.(me := s1.me.(screenEnabled := true));
    if hasAudio then
      var a := s2.nextTrack;
      var s3 := s2.(senders := s2.senders.(screenAudio := s2.senders.screenAudio.Start(a)), nextTrack := a + 1);
      Step(s3.(me := s3.me.(screenAudioEnabled := true)), NoCalls.(captures := 1, starts := 2), None)
    else
      Step(s2, NoCalls.(captures := 1, starts := 1), None)
  }

  /** The in-progress flag is set on entry and cleared in `finally` on every path. */
  lemma UpdateScreenSharingBracketed(s: State, env: Env)
    ensures Bracketed(s, UpdateScreenSharing(s, env), ScreenSharing)
  {
    GuardedBrackets(s, ScreenSharing, ScreenTry(SetInProgressFlag(s, ScreenSharing, true), env, ScreenStarts(s)));
  }

  /** Without the capability no display capture and no sender call is made. */
  lemma UpdateScreenSharingNotAllowed(s: State, env: Env)
    requires !env.canShareScreen
    ensures var r := UpdateScreenSharing(s, env);
      && r.caught == Some(NotAllowed)
      && r.state == s.(inProgress := s.inProgress.(screenSharing := false))
      && r.calls == OnlyDispatches
  {
  }

  /** A display capture without a video track fails before any sender is started. */
  lemma UpdateScreenSharingNeedsVideo(s: State, env: Env)
    requires env.canShareScreen && ScreenStarts(s) && env.displayMedia.Display? && !env.displayMedia.hasVideo
    ensures var r := UpdateScreenSharing(s, env);
      && r.caught == Some(NoTrackInStream)
      && r.calls.captures == 1 && r.calls.starts == 0
      && r.state.senders == s.senders && r.state.me.screenEnabled == s.me.screenEnabled
  {
  }

  /**
   * A missing audio track is not an error: the screen is started and
   * flagged, and screen audio is started and flagged only when the capture
   * has an audio track.
   */
  lemma UpdateScreenSharingAudioOptional(s: State, env: Env)
    requires env.canShareScreen && ScreenStarts(s) && env.displayMedia.Display? && env.displayMedia.hasVideo
    ensures var r := UpdateScreenSharing(s, env);
      && r.caught.None?
      && r.state.senders.screen == Sender(true, Some(s.nextTrack)) && r.state.me.screenEnabled
      && r.calls.starts == (if env.displayMedia.hasAudio then 2 else 1)
      && (env.displayMedia.hasAudio ==>
            r.state.senders.screenAudio == Sender(true, Some(s.nextTrack + 1)) && r.state.me.screenAudioEnabled)
      && (!env.displayMedia.hasAudio ==>
            r.state.senders.screenAudio == s.senders.screenAudio && r.state.me.screenAudioEnabled == s.me.screenAudioEnabled)
  {
  }

  /** A running share is only re-constrained: no capture, no start, and the flags stay as they were. */
  lemma UpdateScreenSharingReconstrains(s: State, env: Env)
    requires env.canShareScreen && !ScreenStarts(s)
    ensures var r := UpdateScreenSharing(s, env);
      && r.caught.None? && r.calls.captures == 0 && r.calls.starts == 0
      && r.calls.constraintApplies
         == (if s.senders.screen.track.Some? then 1 else 0) + (if s.senders.screenAudio.track.Some? then 1 else 0)
      && r.state.senders == s.senders && r.state.me == s.me
  {
  }

  /** `stopScreenSharing`: stops both senders and clears both flags. */
  function StopScreenSharing(s: State): (r: Step)
    ensures r.state.senders.screen == Sender(false, None) && r.state.senders.screenAudio == Sender(false, None)
    ensures !r.state.me.screenEnabled && !r.state.me.screenAudioEnabled
    ensures r.calls == NoCalls.(senderStops := 2)
  {
    var s1 := s.(senders := s.senders.(screen := s.senders.screen.Stop(), screenAudio := s.senders.screenAudio.Stop()));
    Step(s1.(me := s1.me.(screenEnabled := false, screenAudioEnabled := false)), NoCalls.(senderStops := 2), None)
  }

  /** `stopScreenSharing` touches no other sender, and stopping twice is stopping once. */
  lemma StopScreenSharingFrame(s: State)
    ensures var r := StopScreenSharing(s);
      && r.state.senders.mic == s.senders.mic && r.state.senders.webcam == s.senders.webcam
      && r.state.senders.extraVideo == s.senders.extraVideo
      && StopScreenSharing(r.state).state == r.state
  {
  }

  /** The screen flags agree with the screen senders. */
  predicate ScreenFlagsAgree(s: State)
  {
    s.me.screenEnabled == s.senders.screen.running && s.me.screenAudioEnabled == s.senders.screenAudio.running
  }

  /** Both screen thunks keep the screen flags in agreement with the senders, given screen audio never runs alone. */
  lemma ScreenThunksKeepFlagsAgree(s: State, env: Env)
    requires ScreenFlagsAgree(s) && (s.senders.screenAudio.running ==> s.senders.screen.running)
    ensures ScreenFlagsAgree(UpdateScreenSharing(s, env).state)
    ensures ScreenFlagsAgree(StopScreenSharing(s).state)
  {
  }

  // Ownership: both screen thunks keep the invariant.

  /** Starting the idle screen sender with a new track keeps the invariant. */
  lemma StartScreenKeepsWf(s: State)
    requires Wf(s) && !s.senders.screen.running
    ensures Wf(s.(senders := s.senders.(screen := s.senders.screen.Start(s.nextTrack)), nextTrack := s.nextTrack + 1))
  {
    var r := s.(senders := s.senders.(screen := s.senders.screen.Start(s.nextTrack)), nextTrack := s.nextTrack + 1);
    assert HeldCount(s, s.nextTrack) == 0;
    forall u: TrackId ensures HeldCount(r, u) <= (if u == s.nextTrack then 1 else HeldCount(s, u)) {
    }
  }

  /** Starting the idle screen-audio sender beside a running screen sender keeps the invariant. */
  lemma StartScreenAudioKeepsWf(s: State)
    requires Wf(s) && s.senders.screen.running && !s.senders.screenAudio.running
    ensures Wf(s.(senders := s.senders.(screenAudio := s.senders.screenAudio.Start(s.nextTrack)), nextTrack := s.nextTrack + 1))
  {
    var r := s.(senders := s.senders.(screenAudio := s.senders.screenAudio.Start(s.nextTrack)), nextTrack := s.nextTrack + 1);
    assert HeldCount(s, s.nextTrack) == 0;
    forall u: TrackId ensures HeldCount(r, u) <= (if u == s.nextTrack then 1 else HeldCount(s, u)) {
    }
  }

  /** The `try` block keeps the invariant when `start` was computed from the state it runs on. */
  lemma ScreenTryKeepsWf(s: State, env: Env, start: bool)
    requires Wf(s) && (start ==> ScreenStarts(s))
    ensures Wf(ScreenTry(s, env, start).state)
  {
    if env.canShareScreen && start && env.displayMedia.Display? && env.displayMedia.hasVideo {
      ShareDisplayKeepsWf(s, env.displayMedia.hasAudio);
    }
  }

  /** Sharing a display from an idle screen sender keeps the invariant. */
  lemma ShareDisplayKeepsWf(s: State, hasAudio: bool)
    requires Wf(s) && ScreenStarts(s)
    ensures Wf(ShareDisplay(s, hasAudio).state)
  {
    var v := s.nextTrack;
    var s1 := s.(senders := s.senders.(screen := s.senders.screen.Start(v)), nextTrack := v + 1);
    StartScreenKeepsWf(s);
    var s2 := s1.(me := s1.me.(screenEnabled := true));
    WfOnlyHolders(s1, s2);
    if hasAudio {
      var s3 := s2.(senders := s2.senders.(screenAudio := s2.senders.screenAudio.Start(s2.nextTrack)), nextTrack := s2.nextTrack + 1);
      StartScreenAudioKeepsWf(s2);
      WfOnlyHolders(s3, s3.(me := s3.me.(screenAudioEnabled := true)));
    }
  }

  /** `updateScreenSharing` keeps the ownership invariant. */
  lemma UpdateScreenSharingKeepsWf(s: State, env: Env)
    requires Wf(s)
    ensures Wf(UpdateScreenSharing(s, env).state)
  {
    var s1 := SetInProgressFlag(s, ScreenSharing, true);
    WfOnlyHolders(s, s1);
    ScreenTryKeepsWf(s1, env, ScreenStarts(s));
    GuardedKeepsWf(ScreenSharing, ScreenTry(s1, env, ScreenStarts(s)));
  }

  /** `stopScreenSharing` keeps the ownership invariant: it only releases holders. */
  lemma StopScreenSharingKeepsWf(s: State)
    requires Wf(s)
    ensures Wf(StopScreenSharing(s).state)
  {
    var r := StopScreenSharing(s).state;
    forall u: TrackId ensures HeldCount(r, u) <= HeldCount(s, u) {
    }
  }

  /** `updateScreenSharing` refreshes no device list and leaves the flags guarding the refreshes alone. */
  lemma UpdateScreenSharingLeavesRefreshes(s: State, env: Env)
    ensures LeavesRefreshes(s, UpdateScreenSharing(s, env))
  {
  }

  /** `stopScreenSharing` refreshes no device list and leaves the flags guarding the refreshes alone. */
  lemma StopScreenSharingLeavesRefreshes(s: State)
    ensures LeavesRefreshes(s, StopScreenSharing(s))
  {
  }

}
