/**
 * The preview thunks: `updatePreviewMic`, `stopPreviewMic`,
 * `updatePreviewWebcam` and `stopPreviewWebcam`. A preview track is held by
 * `mediaService.previewXTrack`; its id is published in `me.previewXTrackId`,
 * and the two can diverge (a stored but unpublished track).
 */
module PreviewActions {

  import opened Wrappers
  import opened MediaTypes
  import opened MediaState
  import opened MediaSteps
  import opened Ownership

  // ---------------------------------------------------------------------
  // Microphone preview
  // ---------------------------------------------------------------------

  /** `updatePreviewMic`: (re)captures the microphone into the preview slot. */
  function UpdatePreviewMic(s: State, env: Env, updateSelection: bool): (r: Step)
    ensures r.caught.None? <==> env.userMedia.Granted?
    ensures r.caught.None? ==>
      r.state.previewMicTrack == Some(s.nextTrack) && r.state.me.previewMicTrackId == Some(s.nextTrack)
  {
    var s0 := SetInProgressFlag(s, Audio, true);
    var b := PreviewMicTry(s0, env, updateSelection);
    Guarded(Audio, b)
  }

  /** The `try` block of `updatePreviewMic`. */
  function PreviewMicTry(s: State, env: Env, updateSelection: bool): Step
  {
    var firstRefresh := !s.refreshed.initialAudio;
    var s1 := s.(refreshed := s.refreshed.(initialAudio := true));
    // The old track is stopped and dropped only when its id is published.
    var release := s1.previewMicTrack.Some? && s1.me.previewMicTrackId.Some?;
    var s2 := if release then s1.(previewMicTrack := None, me := s1.me.(previewMicTrackId := None)) else s1;
    var c2 := NoCalls.(initialAudioRefreshes := if firstRefresh then 1 else 0,
                       trackStops := if release then 1 else 0,
                       previewCaptures := 1);
    match env.userMedia
    case Rejected => Step(s2, c2, Some(CaptureFailed))
    case NoTrack => Step(s2, c2, Some(NoTrackInStream))
    case Granted(d) => PreviewMicGranted(s2, d, updateSelection, c2)
  }

  /** The rest of the `try` block of `updatePreviewMic` once the capture is granted. */
  function PreviewMicGranted(s: State, d: DeviceId, updateSelection: bool, c: Calls): Step
  {
    var t := s.nextTrack;
    var s3 := Captured(s, d);
    var c3 := c.(postAudioRefreshes := if s3.refreshed.postAudio then 0 else 1);
    var s4 := s3.(refreshed := s3.refreshed.(postAudio := true));
    var s5 := if updateSelection then s4.(settings := s4.settings.(selectedAudioDevice := Reported(s4, t))) else s4;
    Step(s5.(previewMicTrack := Some(t), me := s5.me.(previewMicTrackId := Some(t))), c3, None)
  }

  /** The in-progress flag is set on entry and cleared in `finally` on every path. */
  lemma UpdatePreviewMicBracketed(s: State, env: Env, updateSelection: bool)
    ensures Bracketed(s, UpdatePreviewMic(s, env, updateSelection), Audio)
  {
    GuardedBrackets(s, Audio, PreviewMicTry(SetInProgressFlag(s, Audio, true), env, updateSelection));
  }

  /** A preview capture touches no sender, no effect and no other preview slot. */
  lemma UpdatePreviewMicFrame(s: State, env: Env, updateSelection: bool)
    ensures var r := UpdatePreviewMic(s, env, updateSelection);
      && r.state.senders == s.senders && r.state.effects == s.effects
      && r.state.previewWebcamTrack == s.previewWebcamTrack
      && r.state.me.previewWebcamTrackId == s.me.previewWebcamTrackId
      && r.calls.NoSenderCalls() && r.calls.captures == 0 && r.calls.previewCaptures == 1
  {
  }

  /** `updatePreviewMic` issues each run-once refresh only while its flag is unset, and sets it. */
  lemma UpdatePreviewMicRefreshes(s: State, env: Env, updateSelection: bool)
    ensures RefreshesAccounted(s, UpdatePreviewMic(s, env, updateSelection))
  {
  }

  /** The error logged, and the device selected from the new track. */
  lemma UpdatePreviewMicOutcome(s: State, env: Env, updateSelection: bool)
    ensures var r := UpdatePreviewMic(s, env, updateSelection);
      && (r.caught.Some? ==> r.caught == Some(CaptureError(env.userMedia)))
      && (r.caught.None? && updateSelection ==> r.state.settings.selectedAudioDevice == Some(env.userMedia.device))
      && (!updateSelection ==> r.state.settings == s.settings)
  {
  }

  /** The previous preview track is stopped, and dropped even on failure, exactly when its id was published. */
  lemma UpdatePreviewMicReleasesOld(s: State, env: Env, updateSelection: bool)
    ensures var r := UpdatePreviewMic(s, env, updateSelection);
      && (r.calls.trackStops == 1 <==> s.previewMicTrack.Some? && s.me.previewMicTrackId.Some?)
      && r.calls.trackStops <= 1
      && (r.calls.trackStops == 1 && r.caught.Some? ==> r.state.previewMicTrack.None?)
      && (r.calls.trackStops == 0 && r.caught.Some? ==> r.state.previewMicTrack == s.previewMicTrack)
  {
  }

  /** `stopPreviewMic`: releases the preview microphone track if its id is published. */
  function StopPreviewMic(s: State): (r: Step)
    ensures s.me.previewMicTrackId.Some? ==> r.state.previewMicTrack.None? && r.state.me.previewMicTrackId.None?
    ensures r.calls.trackStops == 1 <==> s.me.previewMicTrackId.Some? && s.previewMicTrack.Some?
  {
    var s0 := SetInProgressFlag(s, Audio, true);
    if s0.me.previewMicTrackId.None? then Guarded(Audio, Step(s0, NoCalls, None))
    else
      var s1 := s0.(me := s0.me.(previewMicTrackId := None));
      if s1.previewMicTrack.None? then Guarded(Audio, Step(s1, NoCalls, None))
      else Guarded(Audio, Step(s1.(previewMicTrack := None), NoCalls.(trackStops := 1), None))
  }

  /** Without a published id, `stopPreviewMic` only dispatches its in-progress flag. */
  lemma StopPreviewMicFrame(s: State)
    ensures var r := StopPreviewMic(s);
      && r.calls.NoDeviceAccess() && r.calls.NoSenderCalls()
      && r.state.senders == s.senders && r.state.previewWebcamTrack == s.previewWebcamTrack
      && (s.me.previewMicTrackId.None? ==> r.state == s.(inProgress := s.inProgress.(audio := false)) && r.calls == OnlyDispatches)
  {
  }

  /** The in-progress flag is set on entry and cleared at the end. */
  lemma StopPreviewMicBracketed(s: State)
    ensures Bracketed(s, StopPreviewMic(s), Audio)
  {
    var s0 := SetInProgressFlag(s, Audio, true);
    if s0.me.previewMicTrackId.Some? {
      var s1 := s0.(me := s0.me.(previewMicTrackId := None));
      if s1.previewMicTrack.Some? {
        GuardedBrackets(s, Audio, Step(s1.(previewMicTrack := None), NoCalls.(trackStops := 1), None));
      } else {
        GuardedBrackets(s, Audio, Step(s1, NoCalls, None));
      }
    } else {
      GuardedBrackets(s, Audio, Step(s0, NoCalls, None));
    }
  }

  /** `updatePreviewMic` keeps the ownership invariant: the new track has the slot as its only holder. */
  lemma UpdatePreviewMicKeepsWf(s: State, env: Env, updateSelection: bool)
    requires Wf(s)
    ensures Wf(UpdatePreviewMic(s, env, updateSelection).state)
  {
    var s0 := SetInProgressFlag(s, Audio, true);
    WfOnlyHolders(s, s0);
    PreviewMicTryKeepsWf(s0, env, updateSelection);
    GuardedKeepsWf(Audio, PreviewMicTry(s0, env, updateSelection));
  }

  lemma PreviewMicTryKeepsWf(s: State, env: Env, updateSelection: bool)
    requires Wf(s)
    ensures Wf(PreviewMicTry(s, env, updateSelection).state)
  {
    var s1 := s.(refreshed := s.refreshed.(initialAudio := true));
    WfOnlyHolders(s, s1);
    var release := s1.previewMicTrack.Some? && s1.me.previewMicTrackId.Some?;
    var s2 := if release then s1.(previewMicTrack := None, me := s1.me.(previewMicTrackId := None)) else s1;
    EmptyPreviewMicKeepsWf(s1);
    var c2 := NoCalls.(initialAudioRefreshes := if !s.refreshed.initialAudio then 1 else 0,
                       trackStops := if release then 1 else 0,
                       previewCaptures := 1);
    if env.userMedia.Granted? {
      PreviewMicGrantedKeepsWf(s2, env.userMedia.device, updateSelection, c2);
    }
  }

  lemma PreviewMicGrantedKeepsWf(s: State, d: DeviceId, updateSelection: bool, c: Calls)
    requires Wf(s)
    ensures Wf(PreviewMicGranted(s, d, updateSelection, c).state)
  {
    var t := s.nextTrack;
    var s3 := Captured(s, d);
    CapturedFree(s, d);
    var s4 := s3.(refreshed := s3.refreshed.(postAudio := true));
    var s5 := if updateSelection then s4.(settings := s4.settings.(selectedAudioDevice := Reported(s4, t))) else s4;
    WfOnlyHolders(s3, s5);
    assert HeldCount(s5, t) == 0;
    ParkPreviewMicKeepsWf(s5, t);
  }

  /** `stopPreviewMic` keeps the ownership invariant. */
  lemma StopPreviewMicKeepsWf(s: State)
    requires Wf(s)
    ensures Wf(StopPreviewMic(s).state)
  {
    var s0 := SetInProgressFlag(s, Audio, true);
    WfOnlyHolders(s, s0);
    if s0.me.previewMicTrackId.Some? {
      var s1 := s0.(me := s0.me.(previewMicTrackId := None));
      if s1.previewMicTrack.Some? {
        EmptyPreviewMicKeepsWf(s0);
        assert s1.(previewMicTrack := None) == s0.(previewMicTrack := None, me := s0.me.(previewMicTrackId := None));
        GuardedKeepsWf(Audio, Step(s1.(previewMicTrack := None), NoCalls.(trackStops := 1), None));
      } else {
        EmptyPreviewMicKeepsWf(s0);
        GuardedKeepsWf(Audio, Step(s1, NoCalls, None));
      }
    } else {
      GuardedKeepsWf(Audio, Step(s0, NoCalls, None));
    }
  }

  // ---------------------------------------------------------------------
  // Webcam preview
  // ---------------------------------------------------------------------

  /** `updatePreviewWebcam`: (re)captures the camera into the preview slot, blurred when enabled. */
  function UpdatePreviewWebcam(s: State, env: Env, updateSelection: bool): (r: Step)
    ensures r.caught.None? <==> env.userMedia.Granted? && (s.settings.blurEnabled ==> env.effectOk)
    ensures r.caught.None? ==>
      var out := if s.settings.blurEnabled then s.nextTrack + 1 else s.nextTrack;
      && r.state.previewWebcamTrack == Some(out)
      && r.state.me.previewWebcamTrackId == Some(out)
  {
    var s0 := SetInProgressFlag(s, Video, true);
    var b := PreviewWebcamTry(s0, env, updateSelection);
    Guarded(Video, b)
  }

  /** The `try` block of `updatePreviewWebcam`. */
  function PreviewWebcamTry(s: State, env: Env, updateSelection: bool): Step
  {
    var firstRefresh := !s.refreshed.initialVideo;
    var s1 := s.(refreshed := s.refreshed.(initialVideo := true));
    // Unlike the microphone, an existing preview track is released whether or not its id is published.
    var replace := s1.previewWebcamTrack.Some?;
    var s2 := if replace then ReleasePreviewWebcam(s1) else s1;
    var c2 := NoCalls.(initialVideoRefreshes := if firstRefresh then 1 else 0,
                       trackStops := if replace then 1 else 0,
                       effectStops := if replace then 1 else 0,
                       previewCaptures := 1);
    match env.userMedia
    case Rejected => Step(s2, c2, Some(CaptureFailed))
    case NoTrack => Step(s2, c2, Some(NoTrackInStream))
    case Granted(d) => PreviewWebcamGranted(s2, env, d, updateSelection, c2)
  }

  /** Stops the preview camera track and its effect, and empties the slot and the published id. */
  function ReleasePreviewWebcam(s: State): (r: State)
    ensures r.previewWebcamTrack.None? && r.me.previewWebcamTrackId.None?
    ensures r.refreshed == s.refreshed && r.senders == s.senders && r.inProgress == s.inProgress && r.nextTrack == s.nextTrack
  {
    StopEffectOf(s, s.previewWebcamTrack).(previewWebcamTrack := None, me := s.me.(previewWebcamTrackId := None))
  }

  /** The rest of the `try` block of `updatePreviewWebcam` once the capture is granted: blur, refresh, store. */
  function PreviewWebcamGranted(s: State, env: Env, d: DeviceId, updateSelection: bool, c: Calls): Step
  {
    var t := s.nextTrack;
    var s3 := Captured(s, d);
    var s4 := if updateSelection then s3.(settings := s3.settings.(selectedVideoDevice := Reported(s3, t))) else s3;
    PreviewWebcamStore(s4, env, t, c)
  }

  /** Blurs the captured track `t` when enabled, refreshes the devices once, and stores the result in the slot. */
  function PreviewWebcamStore(s: State, env: Env, t: TrackId, c: Calls): Step
  {
    var blur := s.settings.blurEnabled;
    var c4 := c.(effectApplies := if blur then 1 else 0);
    if blur && !env.effectOk then Step(s, c4, Some(EffectFailed))
    else
      var out := if blur then s.nextTrack else t;
      var s5 := if blur then Wrap(s, t) else s;
      var c5 := c4.(postVideoRefreshes := if s5.refreshed.postVideo then 0 else 1);
      var s6 := s5.(refreshed := s5.refreshed.(postVideo := true));
      Step(s6.(previewWebcamTrack := Some(out), me := s6.me.(previewWebcamTrackId := Some(out))), c5, None)
  }

  /** The in-progress flag is set on entry and cleared in `finally` on every path. */
  lemma UpdatePreviewWebcamBracketed(s: State, env: Env, updateSelection: bool)
    ensures Bracketed(s, UpdatePreviewWebcam(s, env, updateSelection), Video)
  {
    GuardedBrackets(s, Video, PreviewWebcamTry(SetInProgressFlag(s, Video, true), env, updateSelection));
  }

  /** A preview capture touches no sender and no microphone preview, and keeps the blur setting. */
  lemma UpdatePreviewWebcamFrame(s: State, env: Env, updateSelection: bool)
    ensures var r := UpdatePreviewWebcam(s, env, updateSelection);
      && r.state.senders == s.senders
      && r.state.previewMicTrack == s.previewMicTrack
      && r.state.me.previewMicTrackId == s.me.previewMicTrackId
      && r.state.settings.blurEnabled == s.settings.blurEnabled
  {
  }

  /** A preview capture calls no sender, makes exactly one capture, for the preview, and never the camera's refresh. */
  lemma UpdatePreviewWebcamCalls(s: State, env: Env, updateSelection: bool)
    ensures var r := UpdatePreviewWebcam(s, env, updateSelection);
      && r.calls.NoSenderCalls() && r.calls.captures == 0 && r.calls.previewCaptures == 1
      && r.calls.webcamRefreshes == 0
  {
  }

  /** `updatePreviewWebcam` neither enables nor unmutes the camera. */
  lemma UpdatePreviewWebcamKeepsFlags(s: State, env: Env, updateSelection: bool)
    ensures var r := UpdatePreviewWebcam(s, env, updateSelection);
      r.state.me.webcamEnabled == s.me.webcamEnabled && r.state.me.videoMuted == s.me.videoMuted
  {
    var s0 := SetInProgressFlag(s, Video, true);
    var b := PreviewWebcamTry(s0, env, updateSelection);
    assert UpdatePreviewWebcam(s, env, updateSelection).state.me == b.state.me;
    var s1 := s0.(refreshed := s0.refreshed.(initialVideo := true));
    var s2 := if s1.previewWebcamTrack.Some? then ReleasePreviewWebcam(s1) else s1;
    assert s2.me.webcamEnabled == s.me.webcamEnabled && s2.me.videoMuted == s.me.videoMuted;
  }

  /** `updatePreviewWebcam` issues each run-once refresh only while its flag is unset, and sets it. */
  lemma UpdatePreviewWebcamRefreshes(s: State, env: Env, updateSelection: bool)
    ensures RefreshesAccounted(s, UpdatePreviewWebcam(s, env, updateSelection))
  {
    var s0 := SetInProgressFlag(s, Video, true);
    PreviewWebcamTryRefreshes(s0, env, updateSelection);
    GuardedKeepsRefreshes(s, Video, PreviewWebcamTry(s0, env, updateSelection));
  }

  lemma PreviewWebcamTryRefreshes(s: State, env: Env, updateSelection: bool)
    ensures RefreshesAccounted(s, PreviewWebcamTry(s, env, updateSelection))
  {
    var s1 := s.(refreshed := s.refreshed.(initialVideo := true));
    var replace := s1.previewWebcamTrack.Some?;
    var s2 := if replace then ReleasePreviewWebcam(s1) else s1;
    var c2 := NoCalls.(initialVideoRefreshes := if !s.refreshed.initialVideo then 1 else 0,
                       trackStops := if replace then 1 else 0,
                       effectStops := if replace then 1 else 0,
                       previewCaptures := 1);
    if env.userMedia.Granted? {
      PreviewWebcamGrantedRefreshes(s2, env, env.userMedia.device, updateSelection, c2);
    }
  }

  lemma PreviewWebcamGrantedRefreshes(s: State, env: Env, d: DeviceId, updateSelection: bool, c: Calls)
    requires c.postVideoRefreshes == 0
    ensures var r := PreviewWebcamGranted(s, env, d, updateSelection, c);
      && r.state.refreshed == (if r.caught.None? then s.refreshed.(postVideo := true) else s.refreshed)
      && r.calls.postVideoRefreshes == (if r.caught.None? && !s.refreshed.postVideo then 1 else 0)
      && r.calls == c.(effectApplies := r.calls.effectApplies, postVideoRefreshes := r.calls.postVideoRefreshes)
  {
  }

  /** Blur is applied once, to the fresh capture, exactly when enabled and the capture succeeded. */
  lemma UpdatePreviewWebcamEffect(s: State, env: Env, updateSelection: bool)
    ensures var r := UpdatePreviewWebcam(s, env, updateSelection);
      && r.calls.effectApplies == (if s.settings.blurEnabled && env.userMedia.Granted? then 1 else 0)
      && (r.caught.None? && s.settings.blurEnabled ==>
            var out := s.nextTrack + 1;
            out in r.state.effects && r.state.effects[out] == s.nextTrack)
  {
  }

  /** The error logged, and the device selected from the raw capture, never from the effect output. */
  lemma UpdatePreviewWebcamOutcome(s: State, env: Env, updateSelection: bool)
    ensures var r := UpdatePreviewWebcam(s, env, updateSelection);
      && (r.caught.Some? ==>
            r.caught == Some(if env.userMedia.Granted? then EffectFailed else CaptureError(env.userMedia)))
      && (env.userMedia.Granted? && updateSelection ==>
            r.state.settings.selectedVideoDevice == Some(env.userMedia.device))
      && (!updateSelection ==> r.state.settings == s.settings)
  {
  }

  /** Any previous preview track is stopped with its effect and dropped, even when the capture then fails. */
  lemma UpdatePreviewWebcamReleasesOld(s: State, env: Env, updateSelection: bool)
    ensures var r := UpdatePreviewWebcam(s, env, updateSelection);
      && (r.calls.trackStops == 1 <==> s.previewWebcamTrack.Some?)
      && r.calls.effectStops == r.calls.trackStops <= 1
      && (s.previewWebcamTrack.Some? && r.caught.Some? ==>
            r.state.previewWebcamTrack.None? && s.previewWebcamTrack.value !in r.state.effects)
  {
  }

  /** Releasing the preview camera track keeps the ownership invariant. */
  lemma ReleasePreviewWebcamKeepsWf(s: State)
    requires Wf(s)
    ensures Wf(ReleasePreviewWebcam(s))
  {
    StopEffectOfKeepsWf(s, s.previewWebcamTrack);
    EmptyPreviewWebcamKeepsWf(StopEffectOf(s, s.previewWebcamTrack));
  }

  /** `updatePreviewWebcam` keeps the ownership invariant: the new track, or its blurred output, has the slot as its only holder. */
  lemma UpdatePreviewWebcamKeepsWf(s: State, env: Env, updateSelection: bool)
    requires Wf(s)
    ensures Wf(UpdatePreviewWebcam(s, env, updateSelection).state)
  {
    var s0 := SetInProgressFlag(s, Video, true);
    WfOnlyHolders(s, s0);
    PreviewWebcamTryKeepsWf(s0, env, updateSelection);
    GuardedKeepsWf(Video, PreviewWebcamTry(s0, env, updateSelection));
  }

  lemma PreviewWebcamTryKeepsWf(s: State, env: Env, updateSelection: bool)
    requires Wf(s)
    ensures Wf(PreviewWebcamTry(s, env, updateSelection).state)
  {
    var s1 := s.(refreshed := s.refreshed.(initialVideo := true));
    WfOnlyHolders(s, s1);
    var replace := s1.previewWebcamTrack.Some?;
    var s2 := if replace then ReleasePreviewWebcam(s1) else s1;
    ReleasePreviewWebcamKeepsWf(s1);
    var c2 := NoCalls.(initialVideoRefreshes := if !s.refreshed.initialVideo then 1 else 0,
                       trackStops := if replace then 1 else 0,
                       effectStops := if replace then 1 else 0,
                       previewCaptures := 1);
    if env.userMedia.Granted? {
      PreviewWebcamGrantedKeepsWf(s2, env, env.userMedia.device, updateSelection, c2);
    }
  }

  lemma PreviewWebcamGrantedKeepsWf(s: State, env: Env, d: DeviceId, updateSelection: bool, c: Calls)
    requires Wf(s)
    ensures Wf(PreviewWebcamGranted(s, env, d, updateSelection, c).state)
  {
    var t := s.nextTrack;
    var s3 := Captured(s, d);
    CapturedFree(s, d);
    var s4 := if updateSelection then s3.(settings := s3.settings.(selectedVideoDevice := Reported(s3, t))) else s3;
    WfOnlyHolders(s3, s4);
    assert HeldCount(s4, t) == 0;
    PreviewWebcamStoreKeepsWf(s4, env, t, c);
  }

  lemma PreviewWebcamStoreKeepsWf(s: State, env: Env, t: TrackId, c: Calls)
    requires Free(s, t) && t !in s.effects
    ensures Wf(PreviewWebcamStore(s, env, t, c).state)
  {
    var blur := s.settings.blurEnabled;
    if blur && env.effectOk {
      WrapFree(s, t);
      var s5 := Wrap(s, t);
      var s6 := s5.(refreshed := s5.refreshed.(postVideo := true));
      WfOnlyHolders(s5, s6);
      assert HeldCount(s6, s.nextTrack) == 0;
      ParkPreviewWebcamKeepsWf(s6, s.nextTrack);
    } else if !blur {
      var s6 := s.(refreshed := s.refreshed.(postVideo := true));
      WfOnlyHolders(s, s6);
      assert HeldCount(s6, t) == 0;
      ParkPreviewWebcamKeepsWf(s6, t);
    }
  }

  /** `stopPreviewWebcam` keeps the ownership invariant. */
  lemma StopPreviewWebcamKeepsWf(s: State)
    requires Wf(s)
    ensures Wf(StopPreviewWebcam(s).state)
  {
    var s0 := SetInProgressFlag(s, Video, true);
    WfOnlyHolders(s, s0);
    if s0.me.previewWebcamTrackId.Some? {
      var s1 := s0.(me := s0.me.(previewWebcamTrackId := None));
      if s1.previewWebcamTrack.Some? {
        ReleasePreviewWebcamKeepsWf(s0);
        assert StopEffectOf(s1, s1.previewWebcamTrack).(previewWebcamTrack := None) == ReleasePreviewWebcam(s0);
        GuardedKeepsWf(Video, Step(StopEffectOf(s1, s1.previewWebcamTrack).(previewWebcamTrack := None), NoCalls.(trackStops := 1, effectStops := 1), None));
      } else {
        EmptyPreviewWebcamKeepsWf(s0);
        GuardedKeepsWf(Video, Step(s1, NoCalls, None));
      }
    } else {
      GuardedKeepsWf(Video, Step(s0, NoCalls, None));
    }
  }

  /** `stopPreviewWebcam`: releases the preview camera track and its effect if its id is published. */
  function StopPreviewWebcam(s: State): (r: Step)
    ensures s.me.previewWebcamTrackId.Some? ==> r.state.previewWebcamTrack.None? && r.state.me.previewWebcamTrackId.None?
    ensures r.calls.trackStops == 1 <==> s.me.previewWebcamTrackId.Some? && s.previewWebcamTrack.Some?
  {
    var s0 := SetInProgressFlag(s, Video, true);
    if s0.me.previewWebcamTrackId.None? then Guarded(Video, Step(s0, NoCalls, None))
    else
      var s1 := s0.(me := s0.me.(previewWebcamTrackId := None));
      if s1.previewWebcamTrack.None? then Guarded(Video, Step(s1, NoCalls, None))
      else Guarded(Video, Step(StopEffectOf(s1, s1.previewWebcamTrack).(previewWebcamTrack := None),
                               NoCalls.(trackStops := 1, effectStops := 1), None))
  }

  /** The released preview track's effect is stopped with it. */
  lemma StopPreviewWebcamStopsEffect(s: State)
    ensures var r := StopPreviewWebcam(s);
      && r.calls.effectStops == r.calls.trackStops
      && (s.me.previewWebcamTrackId.Some? && s.previewWebcamTrack.Some? ==> s.previewWebcamTrack.value !in r.state.effects)
  {
  }

  /** Without a published id, `stopPreviewWebcam` only dispatches its in-progress flag. */
  lemma StopPreviewWebcamFrame(s: State)
    ensures var r := StopPreviewWebcam(s);
      && r.calls.NoDeviceAccess() && r.calls.NoSenderCalls()
      && r.state.senders == s.senders && r.state.previewMicTrack == s.previewMicTrack
      && (s.me.previewWebcamTrackId.None? ==> r.state == s.(inProgress := s.inProgress.(video := false)) && r.calls == OnlyDispatches)
  {
  }

  /** The in-progress flag is set on entry and cleared at the end. */
  lemma StopPreviewWebcamBracketed(s: State)
    ensures Bracketed(s, StopPreviewWebcam(s), Video)
  {
    var s0 := SetInProgressFlag(s, Video, true);
    if s0.me.previewWebcamTrackId.Some? {
      var s1 := s0.(me := s0.me.(previewWebcamTrackId := None));
      if s1.previewWebcamTrack.Some? {
        GuardedBrackets(s, Video, Step(StopEffectOf(s1, s1.previewWebcamTrack).(previewWebcamTrack := None), NoCalls.(trackStops := 1, effectStops := 1), None));
      } else {
        GuardedBrackets(s, Video, Step(s1, NoCalls, None));
      }
    } else {
      GuardedBrackets(s, Video, Step(s0, NoCalls, None));
    }
  }

  /** Stopping a preview issues no refresh and leaves the flags alone. */
  lemma StopPreviewsLeaveRefreshes(s: State)
    ensures LeavesRefreshes(s, StopPreviewMic(s)) && LeavesRefreshes(s, StopPreviewWebcam(s))
  {
  }

}
