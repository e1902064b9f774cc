/**
 * The settings-restart thunks: `updateAudioSettings`,
 * `updateVideoSettings` and `updateScreenshareSettings`. Each writes the
 * new settings, disables and stops its kind, and restarts the kind only
 * when it was enabled before the call. The constraint values themselves
 * are opaque here; only `blurEnabled` changes what the thunks do.
 */
module SettingsActions {

  import opened Wrappers
  import opened MediaTypes
  import opened MediaState
  import opened MediaSteps
  import opened PreviewActions
  import opened MicActions
  import opened WebcamActions
  import opened ScreenActions
  import opened Ownership

  /** `updateAudioSettings`: disables and stops the microphone, then restarts it if it was enabled. */
  function UpdateAudioSettings(s: State, env: Env): (r: Step)
    ensures !s.me.micEnabled ==> r.state.senders.mic == Sender(false, None) && !r.state.me.micEnabled
    ensures !s.me.micEnabled ==> r.calls == NoCalls.(senderStops := 1)
  {
    var st := StopMic(s.(me := s.me.(micEnabled := false)));
    if s.me.micEnabled then AndThen(st, UpdateMic(st.state, env, None)) else st
  }

  /** The restart of an enabled microphone goes through the start path, so it binds a new track or parks one. */
  lemma UpdateAudioSettingsRestarts(s: State, env: Env)
    requires s.me.micEnabled && env.canSendMic && (s.previewMicTrack.Some? || env.userMedia.Granted?)
    ensures var r := UpdateAudioSettings(s, env);
      && r.caught.None? && r.state.me.micEnabled && !r.state.me.audioMuted
      && r.calls.senderStops == 1 && r.calls.replacements == 0
      && r.calls.starts == (if env.transportsConnected then 1 else 0)
      && (env.transportsConnected <==> r.state.senders.mic.running)
  {
    var st := StopMic(s.(me := s.me.(micEnabled := false)));
    assert MicStarts(st.state) && st.state.previewMicTrack == s.previewMicTrack;
    UpdateMicCaptures(st.state, env, None);
    if env.transportsConnected {
      UpdateMicBinds(st.state, env, None);
      UpdateMicMovesTrack(st.state, env, None);
    } else {
      UpdateMicDefers(st.state, env, None);
    }
  }

  /**
   * `updateVideoSettings`: writes the blur setting, disables the camera,
   * stops the preview and the camera, then restarts the camera if it was
   * enabled and the preview if one was open. `env` is what the camera
   * restart meets and `previewEnv` what the preview restart meets.
   */
  function UpdateVideoSettings(s: State, blur: Option<bool>, env: Env, previewEnv: Env): (r: Step)
  {
    var s1 := if blur.Some? then s.(settings := s.settings.(blurEnabled := blur.value)) else s;
    VideoRestarted(VideoStopped(s1), s.me.webcamEnabled, s.me.previewWebcamTrackId.Some?, env, previewEnv)
  }

  /** The asynchronous part of `updateVideoSettings`: restart the camera, then the preview, as they were before. */
  function VideoRestarted(stopped: Step, camera: bool, preview: bool, env: Env, previewEnv: Env): Step
  {
    var u := if camera then AndThen(stopped, UpdateWebcam(stopped.state, env, None)) else stopped;
    if preview then AndThen(u, UpdatePreviewWebcam(u.state, previewEnv, false)) else u
  }

  /** The synchronous part of `updateVideoSettings`: disable the camera, stop the preview, stop the camera. */
  function VideoStopped(s: State): (r: Step)
    ensures r.state.senders.webcam == Sender(false, None) && !r.state.me.webcamEnabled
    ensures r.state.settings == s.settings
  {
    var p := StopPreviewWebcam(s.(me := s.me.(webcamEnabled := false)));
    AndThen(p, StopWebcam(p.state))
  }

  /** The new blur setting is the one both restarts see and the one left in the settings. */
  lemma UpdateVideoSettingsWritesBlur(s: State, blur: Option<bool>, env: Env, previewEnv: Env)
    ensures UpdateVideoSettings(s, blur, env, previewEnv).state.settings.blurEnabled
            == (if blur.Some? then blur.value else s.settings.blurEnabled)
  {
    var s1 := if blur.Some? then s.(settings := s.settings.(blurEnabled := blur.value)) else s;
    var stopped := VideoStopped(s1);
    var u := if s.me.webcamEnabled then AndThen(stopped, UpdateWebcam(stopped.state, env, None)) else stopped;
    if s.me.webcamEnabled {
      UpdateWebcamKeepsBlur(stopped.state, env, None);
    }
    if s.me.previewWebcamTrackId.Some? {
      UpdatePreviewWebcamFrame(u.state, previewEnv, false);
    }
  }

  /** The preview is reopened exactly when an id was published before the call. */
  lemma UpdateVideoSettingsReopensPreview(s: State, blur: Option<bool>, env: Env, previewEnv: Env)
    ensures UpdateVideoSettings(s, blur, env, previewEnv).calls.previewCaptures
            == (if s.me.previewWebcamTrackId.Some? then 1 else 0)
  {
    var s1 := if blur.Some? then s.(settings := s.settings.(blurEnabled := blur.value)) else s;
    var stopped := VideoStopped(s1);
    VideoStoppedCalls(s1);
    var u := if s.me.webcamEnabled then AndThen(stopped, UpdateWebcam(stopped.state, env, None)) else stopped;
    if s.me.webcamEnabled {
      UpdateWebcamFrame(stopped.state, env, None);
    }
    if s.me.previewWebcamTrackId.Some? {
      UpdatePreviewWebcamCalls(u.state, previewEnv, false);
    }
  }

  /** The camera is captured again only if it was enabled. */
  lemma UpdateVideoSettingsRestartsOnlyEnabled(s: State, blur: Option<bool>, env: Env, previewEnv: Env)
    ensures UpdateVideoSettings(s, blur, env, previewEnv).calls.captures > 0 ==> s.me.webcamEnabled
  {
    var s1 := if blur.Some? then s.(settings := s.settings.(blurEnabled := blur.value)) else s;
    var stopped := VideoStopped(s1);
    VideoStoppedCalls(s1);
    var u := if s.me.webcamEnabled then AndThen(stopped, UpdateWebcam(stopped.state, env, None)) else stopped;
    if s.me.previewWebcamTrackId.Some? {
      UpdatePreviewWebcamCalls(u.state, previewEnv, false);
    }
  }

  /**
   * Conversely, an enabled camera is restarted: `updateWebcam` runs (its
   * unguarded device refresh is issued) exactly when the camera was enabled
   * and may be sent, and a granted capture, with the effect resolving when
   * the new blur setting asks for it, leaves the camera enabled and unmuted.
   */
  lemma UpdateVideoSettingsRestartsEnabled(s: State, blur: Option<bool>, env: Env, previewEnv: Env)
    ensures UpdateVideoSettings(s, blur, env, previewEnv).calls.webcamRefreshes
            == (if s.me.webcamEnabled && env.canSendWebcam then 1 else 0)
    ensures var blurred := if blur.Some? then blur.value else s.settings.blurEnabled;
      s.me.webcamEnabled && env.canSendWebcam && env.userMedia.Granted? && (blurred ==> env.effectOk) ==>
        var r := UpdateVideoSettings(s, blur, env, previewEnv);
        r.state.me.webcamEnabled && !r.state.me.videoMuted
  {
    var s1 := if blur.Some? then s.(settings := s.settings.(blurEnabled := blur.value)) else s;
    var stopped := VideoStopped(s1);
    VideoStoppedCalls(s1);
    var u := if s.me.webcamEnabled then AndThen(stopped, UpdateWebcam(stopped.state, env, None)) else stopped;
    if s.me.webcamEnabled {
      if env.canSendWebcam {
        UpdateWebcamCaptures(stopped.state, env, None);
      } else {
        UpdateWebcamNotAllowed(stopped.state, env, None);
      }
    }
    if s.me.previewWebcamTrackId.Some? {
      UpdatePreviewWebcamCalls(u.state, previewEnv, false);
      UpdatePreviewWebcamKeepsFlags(u.state, previewEnv, false);
    }
  }

  /** The restarted camera is always started from an idle sender, never replaced. */
  lemma UpdateVideoSettingsNeverReplaces(s: State, blur: Option<bool>, env: Env, previewEnv: Env)
    ensures UpdateVideoSettings(s, blur, env, previewEnv).calls.replacements == 0
  {
    var s1 := if blur.Some? then s.(settings := s.settings.(blurEnabled := blur.value)) else s;
    var stopped := VideoStopped(s1);
    VideoStoppedCalls(s1);
    var u := if s.me.webcamEnabled then AndThen(stopped, UpdateWebcam(stopped.state, env, None)) else stopped;
    if s.me.webcamEnabled {
      UpdateWebcamFromIdle(stopped.state, env, None);
    }
    if s.me.previewWebcamTrackId.Some? {
      UpdatePreviewWebcamCalls(u.state, previewEnv, false);
    }
  }

  /** Stopping the camera and its preview neither captures nor starts anything. */
  lemma VideoStoppedCalls(s: State)
    ensures var r := VideoStopped(s);
      r.calls.NoDeviceAccess() && r.calls.starts == 0 && r.calls.replacements == 0
  {
    StopPreviewWebcamFrame(s.(me := s.me.(webcamEnabled := false)));
  }

  /** A camera that was not enabled ends with an idle sender, even after the preview restarts. */
  lemma UpdateVideoSettingsKeepsDisabledIdle(s: State, blur: Option<bool>, env: Env, previewEnv: Env)
    requires !s.me.webcamEnabled
    ensures UpdateVideoSettings(s, blur, env, previewEnv).state.senders.webcam == Sender(false, None)
  {
    var s1 := if blur.Some? then s.(settings := s.settings.(blurEnabled := blur.value)) else s;
    var stopped := VideoStopped(s1);
    if s.me.previewWebcamTrackId.Some? {
      UpdatePreviewWebcamFrame(stopped.state, previewEnv, false);
    }
  }

  /** A camera that was not enabled ends disabled, even after the preview restarts. */
  lemma UpdateVideoSettingsKeepsDisabledOff(s: State, blur: Option<bool>, env: Env, previewEnv: Env)
    requires !s.me.webcamEnabled
    ensures !UpdateVideoSettings(s, blur, env, previewEnv).state.me.webcamEnabled
  {
    var s1 := if blur.Some? then s.(settings := s.settings.(blurEnabled := blur.value)) else s;
    var stopped := VideoStopped(s1);
    if s.me.previewWebcamTrackId.Some? {
      UpdatePreviewWebcamKeepsFlags(stopped.state, previewEnv, false);
    }
  }

  /** A camera that was not enabled is not started again. */
  lemma UpdateVideoSettingsStartsOnlyEnabled(s: State, blur: Option<bool>, env: Env, previewEnv: Env)
    requires !s.me.webcamEnabled
    ensures UpdateVideoSettings(s, blur, env, previewEnv).calls.starts == 0
  {
    var s1 := if blur.Some? then s.(settings := s.settings.(blurEnabled := blur.value)) else s;
    var stopped := VideoStopped(s1);
    VideoStoppedCalls(s1);
    if s.me.previewWebcamTrackId.Some? {
      UpdatePreviewWebcamCalls(stopped.state, previewEnv, false);
    }
  }

  /**
   * `updateScreenshareSettings` as the source writes it: the flag is
   * cleared and `updateScreenSharing` is dispatched, but the sender is not
   * stopped first, so a running share takes the re-constrain path, which
   * never sets the flag again.
   */
  function UpdateScreenshareSettingsAsWritten(s: State, env: Env): (r: Step)
    ensures !r.state.me.screenEnabled ==> r.state.senders.screen == s.senders.screen || !s.me.screenEnabled
  {
    var s1 := s.(me := s.me.(screenEnabled := false));
    if s.me.screenEnabled then UpdateScreenSharing(s1, env) else Step(s1, NoCalls, None)
  }

  /** For every running, flagged share the as-written thunk leaves the share running with its flag cleared. */
  lemma ScreenshareSettingsAsWrittenDesyncs(s: State, env: Env)
    requires ScreenFlagsAgree(s) && s.senders.screen.running
    ensures var r := UpdateScreenshareSettingsAsWritten(s, env);
      r.state.senders.screen.running && !r.state.me.screenEnabled && !ScreenFlagsAgree(r.state)
  {
  }

  /** A concrete instance: the share keeps sending while the flag says it is off. */
  lemma ScreenshareSettingsAsWrittenExample()
    ensures var s := State(
        Me(false, true, false, true, true, false, false, None, None),
        InProgressFlags(false, false, false),
        Settings(false, None, None),
        Senders(Sender(false, None), Sender(false, None), Sender(true, Some(0)), Sender(false, None), Sender(false, None)),
        None, None, map[], map[], RefreshFlags(false, false, false, false), 1);
      var env := Env(true, true, true, NoTrack, DisplayRejected, true, true);
      var r := UpdateScreenshareSettingsAsWritten(s, env);
      ScreenFlagsAgree(s) && r.state.senders.screen == Sender(true, Some(0)) && !r.state.me.screenEnabled
  {
  }

  /**
   * `updateScreenshareSettings` as evidently intended, in the shape of its
   * two siblings: disable, stop the share, and restart it if it was
   * enabled.
   */
  function UpdateScreenshareSettings(s: State, env: Env): (r: Step)
    ensures !s.me.screenEnabled ==> r.state.senders.screen == Sender(false, None) && r.calls.captures == 0
  {
    var st := StopScreenSharing(s.(me := s.me.(screenEnabled := false)));
    if s.me.screenEnabled then AndThen(st, UpdateScreenSharing(st.state, env)) else st
  }

  /** The corrected thunk keeps the screen flags in agreement with the screen senders. */
  lemma ScreenshareSettingsKeepsFlagsAgree(s: State, env: Env)
    requires ScreenFlagsAgree(s)
    ensures ScreenFlagsAgree(UpdateScreenshareSettings(s, env).state)
  {
    var st := StopScreenSharing(s.(me := s.me.(screenEnabled := false)));
    if s.me.screenEnabled {
      ScreenThunksKeepFlagsAgree(st.state, env);
    }
  }

  /** An enabled share is restarted with one new display capture; a disabled one is not captured. */
  lemma ScreenshareSettingsRestartsOnlyEnabled(s: State, env: Env)
    ensures var r := UpdateScreenshareSettings(s, env);
      && r.calls.captures == (if s.me.screenEnabled && env.canShareScreen then 1 else 0)
      && r.calls.senderStops == 2
  {
  }

  // Ownership: the restarts are compositions of thunks that each keep the invariant.

  /** `updateAudioSettings` keeps the ownership invariant. */
  lemma UpdateAudioSettingsKeepsWf(s: State, env: Env)
    requires Wf(s)
    ensures Wf(UpdateAudioSettings(s, env).state)
  {
    var s0 := s.(me := s.me.(micEnabled := false));
    WfOnlyHolders(s, s0);
    StopMicKeepsWf(s0);
    if s.me.micEnabled {
      UpdateMicKeepsWf(StopMic(s0).state, env, None);
    }
  }

  /** Disabling and stopping the camera and its preview keeps the ownership invariant. */
  lemma VideoStoppedKeepsWf(s: State)
    requires Wf(s)
    ensures Wf(VideoStopped(s).state)
  {
    var s0 := s.(me := s.me.(webcamEnabled := false));
    WfOnlyHolders(s, s0);
    StopPreviewWebcamKeepsWf(s0);
    StopWebcamKeepsWf(StopPreviewWebcam(s0).state);
  }

  /** `updateVideoSettings` keeps the ownership invariant. */
  lemma UpdateVideoSettingsKeepsWf(s: State, blur: Option<bool>, env: Env, previewEnv: Env)
    requires Wf(s)
    ensures Wf(UpdateVideoSettings(s, blur, env, previewEnv).state)
  {
    var s1 := if blur.Some? then s.(settings := s.settings.(blurEnabled := blur.value)) else s;
    WfOnlyHolders(s, s1);
    VideoStoppedKeepsWf(s1);
    VideoRestartedKeepsWf(VideoStopped(s1), s.me.webcamEnabled, s.me.previewWebcamTrackId.Some?, env, previewEnv);
  }

  /** Restarting the camera and the preview from a well-formed state keeps the invariant. */
  lemma VideoRestartedKeepsWf(stopped: Step, camera: bool, preview: bool, env: Env, previewEnv: Env)
    requires Wf(stopped.state)
    ensures Wf(VideoRestarted(stopped, camera, preview, env, previewEnv).state)
  {
    var u := if camera then UpdateWebcam(stopped.state, env, None).state else stopped.state;
    if camera {
      UpdateWebcamKeepsWf(stopped.state, env, None);
    }
    if preview {
      UpdatePreviewWebcamKeepsWf(u, previewEnv, false);
    }
  }

  /** The corrected `updateScreenshareSettings` keeps the ownership invariant. */
  lemma UpdateScreenshareSettingsKeepsWf(s: State, env: Env)
    requires Wf(s)
    ensures Wf(UpdateScreenshareSettings(s, env).state)
  {
    var s0 := s.(me := s.me.(screenEnabled := false));
    WfOnlyHolders(s, s0);
    StopScreenSharingKeepsWf(s0);
    if s.me.screenEnabled {
      UpdateScreenSharingKeepsWf(StopScreenSharing(s0).state, env);
    }
  }

  /** `updateScreenshareSettings` as written keeps the ownership invariant: it only clears a flag before the dispatch. */
  lemma UpdateScreenshareSettingsAsWrittenKeepsWf(s: State, env: Env)
    requires Wf(s)
    ensures Wf(UpdateScreenshareSettingsAsWritten(s, env).state)
  {
    var s1 := s.(me := s.me.(screenEnabled := false));
    WfOnlyHolders(s, s1);
    if s.me.screenEnabled {
      UpdateScreenSharingKeepsWf(s1, env);
    }
  }

  // Device refreshes: only the preview restart of `updateVideoSettings` can issue a run-once refresh.

  /** `updateAudioSettings` issues no run-once refresh and leaves the flags guarding them alone. */
  lemma UpdateAudioSettingsLeavesRefreshes(s: State, env: Env)
    ensures LeavesRefreshes(s, UpdateAudioSettings(s, env))
  {
    var s0 := s.(me := s.me.(micEnabled := false));
    MicStopsLeaveRefreshes(s0);
    if s.me.micEnabled {
      UpdateMicLeavesRefreshes(StopMic(s0).state, env, None);
    }
  }

  /** `updateVideoSettings` issues a run-once refresh exactly when it sets the flag guarding it. */
  lemma UpdateVideoSettingsRefreshes(s: State, blur: Option<bool>, env: Env, previewEnv: Env)
    ensures RefreshesAccounted(s, UpdateVideoSettings(s, blur, env, previewEnv))
  {
    var s1 := if blur.Some? then s.(settings := s.settings.(blurEnabled := blur.value)) else s;
    var stopped := VideoStopped(s1);
    VideoStoppedLeavesRefreshes(s1);
    VideoRestartedRefreshes(stopped, s.me.webcamEnabled, s.me.previewWebcamTrackId.Some?, env, previewEnv);
    RefreshesAccountedFrom(s, stopped.state, VideoRestarted(stopped, s.me.webcamEnabled, s.me.previewWebcamTrackId.Some?, env, previewEnv));
  }

  /** Accounting from a state is accounting from any state with the same refresh flags. */
  lemma RefreshesAccountedFrom(s: State, t: State, r: Step)
    requires t.refreshed == s.refreshed && RefreshesAccounted(t, r)
    ensures RefreshesAccounted(s, r)
  {
  }

  /** Stopping the camera and its preview issues no refresh and leaves the flags alone. */
  lemma VideoStoppedLeavesRefreshes(s: State)
    ensures LeavesRefreshes(s, VideoStopped(s))
  {
    var s0 := s.(me := s.me.(webcamEnabled := false));
    StopPreviewsLeaveRefreshes(s0);
    StopWebcamLeavesRefreshes(StopPreviewWebcam(s0).state);
  }

  /** After stops that issued no run-once refresh, the restarts issue one exactly when they set its flag. */
  lemma VideoRestartedRefreshes(stopped: Step, camera: bool, preview: bool, env: Env, previewEnv: Env)
    requires stopped.calls.NoGuardedRefreshes()
    ensures RefreshesAccounted(stopped.state, VideoRestarted(stopped, camera, preview, env, previewEnv))
  {
    var s := stopped.state;
    var u := if camera then AndThen(stopped, UpdateWebcam(s, env, None)) else stopped;
    if camera {
      UpdateWebcamLeavesRefreshes(s, env, None);
    }
    assert u.state.refreshed == s.refreshed && u.calls.NoGuardedRefreshes();
    if preview {
      UpdatePreviewWebcamRefreshes(u.state, previewEnv, false);
    }
  }

  /** The corrected `updateScreenshareSettings` issues no run-once refresh and leaves the flags alone. */
  lemma UpdateScreenshareSettingsLeavesRefreshes(s: State, env: Env)
    ensures LeavesRefreshes(s, UpdateScreenshareSettings(s, env))
  {
    var s0 := s.(me := s.me.(screenEnabled := false));
    StopScreenSharingLeavesRefreshes(s0);
    if s.me.screenEnabled {
      UpdateScreenSharingLeavesRefreshes(StopScreenSharing(s0).state, env);
    }
  }

  /** `updateScreenshareSettings` as written issues no refresh. */
  lemma UpdateScreenshareSettingsAsWrittenLeavesRefreshes(s: State, env: Env)
    ensures LeavesRefreshes(s, UpdateScreenshareSettingsAsWritten(s, env))
  {
    if s.me.screenEnabled {
      UpdateScreenSharingLeavesRefreshes(s.(me := s.me.(screenEnabled := false)), env);
    }
  }

}
