/**
 * The camera thunks: `updateWebcam` and `stopWebcam`. `updateWebcam` always
 * refreshes the device list, acquires a track (the preview track when
 * starting, otherwise a fresh capture), wraps it in the blur effect unless
 * it is already an effect output, takes it out of the preview slot, awaits
 * the transport and binds it to the `webcam` sender or parks it back in the
 * preview slot.
 */
module WebcamActions {

  import opened Wrappers
  import opened MediaTypes
  import opened MediaState
  import opened MediaSteps
  import opened Ownership

  /** `start`: the webcam sender is not running. */
  predicate WebcamStarts(s: State)
  {
    !s.senders.webcam.running
  }

  /** `replace`: the webcam sender is running and a device id was given. */
  predicate WebcamReplaces(s: State, newDeviceId: Option<DeviceId>)
  {
    s.senders.webcam.running && Given(newDeviceId)
  }

  /** The `catch` block: the camera is reset to disabled and muted so that the user can retry. */
  function WebcamOff(s: State): State
  {
    s.(me := s.me.(webcamEnabled := false, videoMuted := true))
  }

  /** The dispatches after a successful `try` block. */
  function WebcamOn(s: State): State
  {
    s.(me := s.me.(videoMuted := false, webcamEnabled := true))
  }

  /** Whether `updateWebcam` applies the blur effect to track `t`: blur is on and `t` is not already an effect output. */
  predicate BlursTrack(s: State, t: TrackId)
  {
    s.settings.blurEnabled && t !in s.effects
  }

  /**
   * After the transport await: without both transports the track is
   * parked in the preview slot with its id published; otherwise the
   * effect of the running sender's track is stopped and the track is
   * replaced, or the sender is started.
   */
  function BindWebcam(s: State, env: Env, t: TrackId, c: Calls): (r: Step)
    ensures r.caught.None? && r.state.inProgress == s.inProgress
    ensures r.calls.starts + r.calls.replacements == c.starts + c.replacements + (if env.transportsConnected then 1 else 0)
  {
    var c1 := c.(transportAwaits := c.transportAwaits + 1);
    if !env.transportsConnected then
      Step(s.(previewWebcamTrack := Some(t), me := s.me.(previewWebcamTrackId := Some(t))), c1, None)
    else if s.senders.webcam.running then
      var s1 := StopEffectOf(s, s.senders.webcam.track);
      Step(s1.(senders := s1.senders.(webcam := s1.senders.webcam.ReplaceTrack(t))),
           c1.(effectStops := c1.effectStops + 1, replacements := c1.replacements + 1), None)
    else
      Step(s.(senders := s.senders.(webcam := s.senders.webcam.Start(t))), c1.(starts := c1.starts + 1), None)
  }

  /**
   * The state at the transport await: the preview slot no longer holds
   * the acquired track `t`, and the selected camera is `device`, the one
   * the capture (not the effect output) reports.
   */
  function ClaimWebcam(s: State, t: TrackId, device: Option<DeviceId>): (r: State)
    ensures r.previewWebcamTrack != Some(t) && r.settings.selectedVideoDevice == device
    ensures r.senders == s.senders && r.inProgress == s.inProgress && r.nextTrack == s.nextTrack
  {
    var s1 := if s.previewWebcamTrack == Some(t) then s.(previewWebcamTrack := None) else s;
    s1.(settings := s1.settings.(selectedVideoDevice := device))
  }

  /** The rest of the `start || replace` path once track `t` is in hand. */
  function TakeWebcam(s: State, env: Env, t: TrackId, c: Calls): (r: Step)
    ensures r.caught.None? <==> (BlursTrack(s, t) ==> env.effectOk)
    ensures r.caught.None? ==> r.state.me.webcamEnabled && !r.state.me.videoMuted
    ensures r.caught.Some? ==> !r.state.me.webcamEnabled && r.state.me.videoMuted
  {
    var s1 := s.(me := s.me.(previewWebcamTrackId := None));
    var device := Reported(s1, Origin(s1, t));
    if BlursTrack(s1, t) then
      if !env.effectOk then Step(WebcamOff(s1), c.(effectApplies := c.effectApplies + 1), Some(EffectFailed))
      else
        var b := BindWebcam(ClaimWebcam(Wrap(s1, t), t, device), env, s1.nextTrack, c.(effectApplies := c.effectApplies + 1));
        Step(WebcamOn(b.state), b.calls, None)
    else
      var b := BindWebcam(ClaimWebcam(s1, t, device), env, t, c);
      Step(WebcamOn(b.state), b.calls, None)
  }

  /** `updateWebcam`: starts, restarts or re-constrains the camera sender. */
  function UpdateWebcam(s: State, env: Env, newDeviceId: Option<DeviceId>): (r: Step)
    ensures r.caught.None? <==>
      env.canSendWebcam
      && (!(WebcamStarts(s) || WebcamReplaces(s, newDeviceId))
          || WebcamAcquires(s, env, WebcamStarts(s)))
    ensures r.caught.None? ==> r.state.me.webcamEnabled && !r.state.me.videoMuted
    ensures r.caught.Some? ==> !r.state.me.webcamEnabled && r.state.me.videoMuted
  {
    Guarded(Video, WebcamTry(SetInProgressFlag(s, Video, true), env, newDeviceId,
                             WebcamStarts(s), WebcamReplaces(s, newDeviceId)))
  }

  /** The `try` and `catch` blocks of `updateWebcam`; `start` and `replace` are computed before them. */
  function WebcamTry(s: State, env: Env, newDeviceId: Option<DeviceId>, start: bool, replace: bool): Step
  {
    if !env.canSendWebcam then Step(WebcamOff(s), NoCalls, Some(NotAllowed))
    else
      var s1 := if Given(newDeviceId) then s.(settings := s.settings.(selectedVideoDevice := newDeviceId)) else s;
      // The device list is refreshed on every call, without a run-once flag.
      var c1 := NoCalls.(webcamRefreshes := 1);
      if start || replace then AcquireWebcam(s1, env, start, c1)
      else
        var onTracks := (if s1.senders.webcam.track.Some? then 1 else 0) + (if s1.senders.extraVideo.track.Some? then 1 else 0);
        Step(WebcamOn(s1), c1.(constraintApplies := onTracks), None)
  }

  /**
   * Whether the `start || replace` path gets a track and, where blur
   * wraps it, an effect output: the preview track when starting with one,
   * else a granted capture, which receives the id `s.nextTrack`.
   */
  predicate WebcamAcquires(s: State, env: Env, start: bool)
  {
    if start && s.previewWebcamTrack.Some? then BlursTrack(s, s.previewWebcamTrack.value) ==> env.effectOk
    else env.userMedia.Granted? && (BlursTrack(s, s.nextTrack) ==> env.effectOk)
  }

  /** The `start || replace` path: acquire a track, then take it. */
  function AcquireWebcam(s: State, env: Env, start: bool, c: Calls): (r: Step)
    ensures r.caught.None? <==> WebcamAcquires(s, env, start)
    ensures r.caught.None? ==> r.state.me.webcamEnabled && !r.state.me.videoMuted
    ensures r.caught.Some? ==> !r.state.me.webcamEnabled && r.state.me.videoMuted
  {
    // The preview track is reused only when starting.
    if start && s.previewWebcamTrack.Some? then TakeWebcam(s, env, s.previewWebcamTrack.value, c)
    else
      match env.userMedia
      case Granted(d) => TakeWebcam(Captured(s, d), env, s.nextTrack, c.(captures := 1))
      case _ => Step(WebcamOff(s), c.(captures := 1), Some(CaptureError(env.userMedia)))
  }

  /** The track `updateWebcam` acquires on the `start || replace` path: the preview track when starting with one, else a fresh capture. */
  function AcquiredWebcam(s: State): TrackId
  {
    if WebcamStarts(s) && s.previewWebcamTrack.Some? then s.previewWebcamTrack.value else s.nextTrack
  }

  /** The in-progress flag is set on entry and cleared in `finally` on every path. */
  lemma UpdateWebcamBracketed(s: State, env: Env, newDeviceId: Option<DeviceId>)
    ensures Bracketed(s, UpdateWebcam(s, env, newDeviceId), Video)
  {
    var s0 := SetInProgressFlag(s, Video, true);
    WebcamTryKeepsProgress(s0, env, newDeviceId, WebcamStarts(s), WebcamReplaces(s, newDeviceId));
    GuardedBrackets(s, Video, WebcamTry(s0, env, newDeviceId, WebcamStarts(s), WebcamReplaces(s, newDeviceId)));
  }

  lemma WebcamTryKeepsProgress(s: State, env: Env, newDeviceId: Option<DeviceId>, start: bool, replace: bool)
    ensures var b := WebcamTry(s, env, newDeviceId, start, replace);
      b.state.inProgress == s.inProgress && b.calls.inProgressSets == 0 && b.calls.inProgressClears == 0
  {
    if env.canSendWebcam && (start || replace) {
      var s1 := if Given(newDeviceId) then s.(settings := s.settings.(selectedVideoDevice := newDeviceId)) else s;
      var c1 := NoCalls.(webcamRefreshes := 1);
      if start && s1.previewWebcamTrack.Some? {
        TakeWebcamCounts(s1, env, s1.previewWebcamTrack.value, c1);
      } else if env.userMedia.Granted? {
        TakeWebcamCounts(Captured(s1, env.userMedia.device), env, s1.nextTrack, c1.(captures := 1));
      }
    }
  }

  /** After the track is in hand no capture, refresh, constraint or in-progress dispatch is made. */
  lemma TakeWebcamCounts(s: State, env: Env, t: TrackId, c: Calls)
    ensures var r := TakeWebcam(s, env, t, c);
      && r.state.inProgress == s.inProgress
      && r.calls.inProgressSets == c.inProgressSets && r.calls.inProgressClears == c.inProgressClears
      && r.calls.captures == c.captures && r.calls.webcamRefreshes == c.webcamRefreshes
      && r.calls.constraintApplies == c.constraintApplies
  {
  }

  /** Without the capability no collaborator is called and no sender changes; only the failure flags are dispatched. */
  lemma UpdateWebcamNotAllowed(s: State, env: Env, newDeviceId: Option<DeviceId>)
    requires !env.canSendWebcam
    ensures var r := UpdateWebcam(s, env, newDeviceId);
      && r.caught == Some(NotAllowed)
      && r.state == WebcamOff(s).(inProgress := s.inProgress.(video := false))
      && r.calls == OnlyDispatches
  {
  }

  /** Neither start nor replace: no capture, no effect and no binding; the camera and extra-video tracks are re-constrained. */
  lemma UpdateWebcamReconstrains(s: State, env: Env, newDeviceId: Option<DeviceId>)
    requires env.canSendWebcam && !WebcamStarts(s) && !WebcamReplaces(s, newDeviceId)
    ensures var r := UpdateWebcam(s, env, newDeviceId);
      && r.calls.captures == 0 && r.calls.effectApplies == 0 && r.calls.starts == 0 && r.calls.replacements == 0
      && r.calls.constraintApplies
         == (if s.senders.webcam.track.Some? then 1 else 0) + (if s.senders.extraVideo.track.Some? then 1 else 0)
      && r.state.senders == s.senders && r.state.effects == s.effects
  {
  }

  /** With the capability the device list is refreshed once; a capture happens only when the preview track is not reused. */
  lemma UpdateWebcamCaptures(s: State, env: Env, newDeviceId: Option<DeviceId>)
    requires env.canSendWebcam && (WebcamStarts(s) || WebcamReplaces(s, newDeviceId))
    ensures var r := UpdateWebcam(s, env, newDeviceId);
      && r.calls.webcamRefreshes == 1
      && r.calls.captures == (if WebcamStarts(s) && s.previewWebcamTrack.Some? then 0 else 1)
      && r.calls.constraintApplies == 0
  {
    var s0 := SetInProgressFlag(s, Video, true);
    var s1 := if Given(newDeviceId) then s0.(settings := s0.settings.(selectedVideoDevice := newDeviceId)) else s0;
    var c1 := NoCalls.(webcamRefreshes := 1);
    if WebcamStarts(s) && s1.previewWebcamTrack.Some? {
      TakeWebcamCounts(s1, env, s1.previewWebcamTrack.value, c1);
    } else if env.userMedia.Granted? {
      TakeWebcamCounts(Captured(s1, env.userMedia.device), env, s1.nextTrack, c1.(captures := 1));
    }
  }

  /** Blur is applied at most once, and never to a track that is already an effect output. */
  lemma UpdateWebcamBlursOnce(s: State, env: Env, newDeviceId: Option<DeviceId>)
    requires env.canSendWebcam && (WebcamStarts(s) || WebcamReplaces(s, newDeviceId))
    ensures var r := UpdateWebcam(s, env, newDeviceId);
      var t := AcquiredWebcam(s);
      ((WebcamStarts(s) && s.previewWebcamTrack.Some?) || env.userMedia.Granted?) ==>
        r.calls.effectApplies == (if s.settings.blurEnabled && t !in s.effects then 1 else 0)
  {
    var s0 := SetInProgressFlag(s, Video, true);
    var s1 := if Given(newDeviceId) then s0.(settings := s0.settings.(selectedVideoDevice := newDeviceId)) else s0;
    var c1 := NoCalls.(webcamRefreshes := 1);
    if WebcamStarts(s) && s1.previewWebcamTrack.Some? {
      TakeWebcamBlursOnce(s1, env, s1.previewWebcamTrack.value, c1);
    } else if env.userMedia.Granted? {
      TakeWebcamBlursOnce(Captured(s1, env.userMedia.device), env, s1.nextTrack, c1.(captures := 1));
    }
  }

  lemma TakeWebcamBlursOnce(s: State, env: Env, t: TrackId, c: Calls)
    ensures TakeWebcam(s, env, t, c).calls.effectApplies == c.effectApplies + (if BlursTrack(s, t) then 1 else 0)
  {
  }

  /** An acquired track that is already an effect output is bound or parked as it is. */
  lemma UpdateWebcamKeepsEffectOutput(s: State, env: Env, newDeviceId: Option<DeviceId>)
    requires env.canSendWebcam && WebcamStarts(s) && s.previewWebcamTrack.Some? && s.previewWebcamTrack.value in s.effects
    ensures var r := UpdateWebcam(s, env, newDeviceId);
      && r.caught.None? && r.calls.effectApplies == 0
      && (if env.transportsConnected then r.state.senders.webcam.track else r.state.previewWebcamTrack) == s.previewWebcamTrack
  {
  }

  /** The selected camera is the device of the effect's input track when the acquired track is an effect output, else of the track itself. */
  lemma UpdateWebcamSelectsInputDevice(s: State, env: Env, newDeviceId: Option<DeviceId>)
    requires env.canSendWebcam && WebcamStarts(s) && s.previewWebcamTrack.Some?
    ensures var r := UpdateWebcam(s, env, newDeviceId);
      r.caught.None? ==>
        r.state.settings.selectedVideoDevice == Reported(s, Origin(s, s.previewWebcamTrack.value))
  {
  }

  /** For a fresh capture the selected camera is the granted device, even when the bound track is the blurred output. */
  lemma UpdateWebcamSelectsCapturedDevice(s: State, env: Env, newDeviceId: Option<DeviceId>)
    requires env.canSendWebcam && (WebcamStarts(s) || WebcamReplaces(s, newDeviceId))
    requires !(WebcamStarts(s) && s.previewWebcamTrack.Some?) && s.nextTrack !in s.effects
    ensures var r := UpdateWebcam(s, env, newDeviceId);
      r.caught.None? ==> r.state.settings.selectedVideoDevice == Some(env.userMedia.device)
  {
  }

  /** With both transports, a successful start or replace binds exactly one track; a replace first stops the old track's effect. */
  lemma UpdateWebcamBinds(s: State, env: Env, newDeviceId: Option<DeviceId>)
    requires env.canSendWebcam && (WebcamStarts(s) || WebcamReplaces(s, newDeviceId)) && env.transportsConnected
    ensures var r := UpdateWebcam(s, env, newDeviceId);
      r.caught.None? ==>
        && r.calls.replacements == r.calls.effectStops == (if s.senders.webcam.running then 1 else 0)
        && r.calls.starts == (if s.senders.webcam.running then 0 else 1)
  {
    var s0 := SetInProgressFlag(s, Video, true);
    var s1 := if Given(newDeviceId) then s0.(settings := s0.settings.(selectedVideoDevice := newDeviceId)) else s0;
    var c1 := NoCalls.(webcamRefreshes := 1);
    if WebcamStarts(s) && s1.previewWebcamTrack.Some? {
      TakeWebcamBinds(s1, env, s1.previewWebcamTrack.value, c1);
    } else if env.userMedia.Granted? {
      TakeWebcamBinds(Captured(s1, env.userMedia.device), env, s1.nextTrack, c1.(captures := 1));
    }
  }

  lemma TakeWebcamBinds(s: State, env: Env, t: TrackId, c: Calls)
    requires env.transportsConnected
    ensures var r := TakeWebcam(s, env, t, c);
      r.caught.None? ==>
        && r.calls.replacements == c.replacements + (if s.senders.webcam.running then 1 else 0)
        && r.calls.effectStops == c.effectStops + (if s.senders.webcam.running then 1 else 0)
        && r.calls.starts == c.starts + (if s.senders.webcam.running then 0 else 1)
  {
  }

  /** The sender ends running with the acquired track, or its blurred output, which the preview slot no longer holds. */
  lemma UpdateWebcamMovesTrack(s: State, env: Env, newDeviceId: Option<DeviceId>)
    requires env.canSendWebcam && (WebcamStarts(s) || WebcamReplaces(s, newDeviceId)) && env.transportsConnected
    requires s.previewWebcamTrack.Some? ==> s.previewWebcamTrack.value < s.nextTrack
    ensures var r := UpdateWebcam(s, env, newDeviceId);
      r.caught.None? ==>
        var t := AcquiredWebcam(s);
        var output := if t == s.nextTrack then s.nextTrack + 1 else s.nextTrack;
        && r.state.senders.webcam.running
        && r.state.senders.webcam.track == Some(if s.settings.blurEnabled && t !in s.effects then output else t)
        && r.state.previewWebcamTrack != r.state.senders.webcam.track
        && r.state.me.previewWebcamTrackId.None?
  {
    var s0 := SetInProgressFlag(s, Video, true);
    var s1 := if Given(newDeviceId) then s0.(settings := s0.settings.(selectedVideoDevice := newDeviceId)) else s0;
    var c1 := NoCalls.(webcamRefreshes := 1);
    if WebcamStarts(s) && s1.previewWebcamTrack.Some? {
      TakeWebcamMoves(s1, env, s1.previewWebcamTrack.value, c1);
    } else if env.userMedia.Granted? {
      TakeWebcamMoves(Captured(s1, env.userMedia.device), env, s1.nextTrack, c1.(captures := 1));
    }
  }

  lemma TakeWebcamMoves(s: State, env: Env, t: TrackId, c: Calls)
    requires env.transportsConnected
    requires s.previewWebcamTrack.Some? && s.previewWebcamTrack != Some(t) ==> s.previewWebcamTrack.value < s.nextTrack
    ensures var r := TakeWebcam(s, env, t, c);
      r.caught.None? ==>
        && r.state.senders.webcam.running
        && r.state.senders.webcam.track == Some(if BlursTrack(s, t) then s.nextTrack else t)
        && r.state.previewWebcamTrack != r.state.senders.webcam.track
        && r.state.me.previewWebcamTrackId.None?
  {
    var s1 := s.(me := s.me.(previewWebcamTrackId := None));
    var device := Reported(s1, Origin(s1, t));
    if BlursTrack(s1, t) {
      if env.effectOk {
        var b := BindWebcam(ClaimWebcam(Wrap(s1, t), t, device), env, s1.nextTrack, c.(effectApplies := c.effectApplies + 1));
        assert TakeWebcam(s, env, t, c).state == WebcamOn(b.state);
      }
    } else {
      var b := BindWebcam(ClaimWebcam(s1, t, device), env, t, c);
      assert TakeWebcam(s, env, t, c).state == WebcamOn(b.state);
    }
  }

  /** A replace stops the effect of the track the sender held before. */
  lemma UpdateWebcamStopsReplacedEffect(s: State, env: Env, newDeviceId: Option<DeviceId>)
    requires env.canSendWebcam && WebcamReplaces(s, newDeviceId) && env.transportsConnected
    requires s.senders.webcam.track.Some?
    ensures var r := UpdateWebcam(s, env, newDeviceId);
      r.caught.None? ==> s.senders.webcam.track.value !in r.state.effects
  {
  }

  /**
   * Without both transports the acquired track (or its blurred output) is
   * parked in the preview slot with its id published, no sender is bound,
   * and the camera still ends enabled and unmuted.
   */
  lemma UpdateWebcamDefers(s: State, env: Env, newDeviceId: Option<DeviceId>)
    requires env.canSendWebcam && (WebcamStarts(s) || WebcamReplaces(s, newDeviceId)) && !env.transportsConnected
    ensures var r := UpdateWebcam(s, env, newDeviceId);
      && r.calls.starts == 0 && r.calls.replacements == 0
      && r.state.senders == s.senders
      && (r.caught.None? ==>
            && r.state.previewWebcamTrack.Some? && r.state.me.previewWebcamTrackId == r.state.previewWebcamTrack
            && r.state.me.webcamEnabled && !r.state.me.videoMuted)
  {
    var s0 := SetInProgressFlag(s, Video, true);
    var s1 := if Given(newDeviceId) then s0.(settings := s0.settings.(selectedVideoDevice := newDeviceId)) else s0;
    var c1 := NoCalls.(webcamRefreshes := 1);
    if WebcamStarts(s) && s1.previewWebcamTrack.Some? {
      TakeWebcamDefers(s1, env, s1.previewWebcamTrack.value, c1);
    } else if env.userMedia.Granted? {
      TakeWebcamDefers(Captured(s1, env.userMedia.device), env, s1.nextTrack, c1.(captures := 1));
    }
  }

  lemma TakeWebcamDefers(s: State, env: Env, t: TrackId, c: Calls)
    requires !env.transportsConnected
    ensures var r := TakeWebcam(s, env, t, c);
      && r.calls.starts == c.starts && r.calls.replacements == c.replacements
      && r.state.senders == s.senders
      && (r.caught.None? ==>
            && r.state.previewWebcamTrack == Some(if BlursTrack(s, t) then s.nextTrack else t)
            && r.state.me.previewWebcamTrackId == r.state.previewWebcamTrack
            && r.state.me.webcamEnabled && !r.state.me.videoMuted)
  {
  }

  /** A failed `updateWebcam` binds nothing and leaves the senders as they were. */
  lemma UpdateWebcamFailureBindsNothing(s: State, env: Env, newDeviceId: Option<DeviceId>)
    ensures var r := UpdateWebcam(s, env, newDeviceId);
      r.caught.Some? ==>
        && r.state.senders == s.senders
        && r.calls.starts == 0 && r.calls.replacements == 0
  {
    var s0 := SetInProgressFlag(s, Video, true);
    var s1 := if Given(newDeviceId) then s0.(settings := s0.settings.(selectedVideoDevice := newDeviceId)) else s0;
    var c1 := NoCalls.(webcamRefreshes := 1);
    if WebcamStarts(s) && s1.previewWebcamTrack.Some? {
      TakeWebcamFailureBindsNothing(s1, env, s1.previewWebcamTrack.value, c1);
    } else if env.userMedia.Granted? {
      TakeWebcamFailureBindsNothing(Captured(s1, env.userMedia.device), env, s1.nextTrack, c1.(captures := 1));
    }
  }

  lemma TakeWebcamFailureBindsNothing(s: State, env: Env, t: TrackId, c: Calls)
    ensures var r := TakeWebcam(s, env, t, c);
      r.caught.Some? ==>
        && r.state.senders == s.senders
        && r.calls.starts == c.starts && r.calls.replacements == c.replacements
  {
  }

  /** `updateWebcam` never captures for the preview slot. */
  lemma UpdateWebcamFrame(s: State, env: Env, newDeviceId: Option<DeviceId>)
    ensures UpdateWebcam(s, env, newDeviceId).calls.previewCaptures == 0
  {
    var s0 := SetInProgressFlag(s, Video, true);
    var s1 := if Given(newDeviceId) then s0.(settings := s0.settings.(selectedVideoDevice := newDeviceId)) else s0;
    var c1 := NoCalls.(webcamRefreshes := 1);
    if WebcamStarts(s) && s1.previewWebcamTrack.Some? {
      TakeWebcamFrame(s1, env, s1.previewWebcamTrack.value, c1);
    } else if env.userMedia.Granted? {
      TakeWebcamFrame(Captured(s1, env.userMedia.device), env, s1.nextTrack, c1.(captures := 1));
    }
  }

  /** `updateWebcam` reads the blur setting but never changes it. */
  lemma UpdateWebcamKeepsBlur(s: State, env: Env, newDeviceId: Option<DeviceId>)
    ensures UpdateWebcam(s, env, newDeviceId).state.settings.blurEnabled == s.settings.blurEnabled
  {
    var s0 := SetInProgressFlag(s, Video, true);
    var s1 := if Given(newDeviceId) then s0.(settings := s0.settings.(selectedVideoDevice := newDeviceId)) else s0;
    assert s1.settings.blurEnabled == s.settings.blurEnabled;
    var c1 := NoCalls.(webcamRefreshes := 1);
    if !env.canSendWebcam {
    } else if WebcamStarts(s) && s1.previewWebcamTrack.Some? {
      TakeWebcamFrame(s1, env, s1.previewWebcamTrack.value, c1);
    } else if env.userMedia.Granted? {
      TakeWebcamFrame(Captured(s1, env.userMedia.device), env, s1.nextTrack, c1.(captures := 1));
    }
  }

  lemma TakeWebcamFrame(s: State, env: Env, t: TrackId, c: Calls)
    ensures var r := TakeWebcam(s, env, t, c);
      r.calls.previewCaptures == c.previewCaptures && r.state.settings.blurEnabled == s.settings.blurEnabled
  {
  }

  /** From an idle sender `updateWebcam` never replaces a track. */
  lemma UpdateWebcamFromIdle(s: State, env: Env, newDeviceId: Option<DeviceId>)
    requires WebcamStarts(s)
    ensures UpdateWebcam(s, env, newDeviceId).calls.replacements == 0
  {
    var s0 := SetInProgressFlag(s, Video, true);
    var s1 := if Given(newDeviceId) then s0.(settings := s0.settings.(selectedVideoDevice := newDeviceId)) else s0;
    var c1 := NoCalls.(webcamRefreshes := 1);
    if WebcamStarts(s) && s1.previewWebcamTrack.Some? {
      TakeWebcamFromIdle(s1, env, s1.previewWebcamTrack.value, c1);
    } else if env.userMedia.Granted? {
      TakeWebcamFromIdle(Captured(s1, env.userMedia.device), env, s1.nextTrack, c1.(captures := 1));
    }
  }

  lemma TakeWebcamFromIdle(s: State, env: Env, t: TrackId, c: Calls)
    requires !s.senders.webcam.running
    ensures TakeWebcam(s, env, t, c).calls.replacements == c.replacements
  {
  }

  // ---------------------------------------------------------------------
  // Ownership
  // ---------------------------------------------------------------------

  /** Claiming the preview track, or a track nobody holds, leaves it in hand. */
  lemma ClaimWebcamFree(s: State, t: TrackId, device: Option<DeviceId>)
    requires Wf(s) && t < s.nextTrack && s.me.previewWebcamTrackId.None?
    requires HeldCount(s, t) == 0 || s.previewWebcamTrack == Some(t)
    ensures Free(ClaimWebcam(s, t, device), t)
  {
    var r := ClaimWebcam(s, t, device);
    assert HeldCount(s, t) <= 1;
    forall u: TrackId ensures HeldCount(r, u) <= HeldCount(s, u) {
    }
  }

  /** Claiming never adds a holder, so a track in hand stays in hand. */
  lemma ClaimWebcamKeepsFree(s: State, t: TrackId, device: Option<DeviceId>, o: TrackId)
    requires Free(s, o) && s.me.previewWebcamTrackId.None?
    ensures Free(ClaimWebcam(s, t, device), o)
  {
    var r := ClaimWebcam(s, t, device);
    forall u: TrackId ensures HeldCount(r, u) <= HeldCount(s, u) {
    }
  }

  /** Binding or parking a track in hand gives it exactly one holder; a replaced track's effect is stopped on the way. */
  lemma BindWebcamKeepsWf(s: State, env: Env, t: TrackId, c: Calls)
    requires Free(s, t)
    ensures Wf(BindWebcam(s, env, t, c).state)
  {
    if !env.transportsConnected {
      ParkPreviewWebcamKeepsWf(s, t);
    } else if s.senders.webcam.running {
      var s1 := StopEffectOf(s, s.senders.webcam.track);
      StopEffectOfKeepsWf(s, s.senders.webcam.track);
      var r := BindWebcam(s, env, t, c).state;
      forall u: TrackId ensures HeldCount(r, u) <= (if u == t then 1 else HeldCount(s1, u)) {
      }
    } else {
      var r := BindWebcam(s, env, t, c).state;
      forall u: TrackId ensures HeldCount(r, u) <= (if u == t then 1 else HeldCount(s, u)) {
      }
    }
  }

  lemma TakeWebcamKeepsWf(s: State, env: Env, t: TrackId, c: Calls)
    requires Wf(s) && t < s.nextTrack
    requires HeldCount(s, t) == 0 || s.previewWebcamTrack == Some(t)
    ensures Wf(TakeWebcam(s, env, t, c).state)
  {
    var s1 := s.(me := s.me.(previewWebcamTrackId := None));
    UnpublishPreviewWebcamKeepsWf(s);
    var device := Reported(s1, Origin(s1, t));
    if BlursTrack(s1, t) {
      if !env.effectOk {
        WfOnlyHolders(s1, WebcamOff(s1));
      } else {
        BindWrappedKeepsWf(s1, env, t, device, c.(effectApplies := c.effectApplies + 1));
      }
    } else {
      BindPlainKeepsWf(s1, env, t, device, c);
    }
  }

  /** The blurred path: the effect output is the track bound or parked; the captured input is held by nobody. */
  lemma BindWrappedKeepsWf(s: State, env: Env, t: TrackId, device: Option<DeviceId>, c: Calls)
    requires Wf(s) && t < s.nextTrack && t !in s.effects && s.me.previewWebcamTrackId.None?
    ensures Wf(WebcamOn(BindWebcam(ClaimWebcam(Wrap(s, t), t, device), env, s.nextTrack, c).state))
  {
    var w := Wrap(s, t);
    WrapFree(s, t);
    ClaimWebcamKeepsFree(w, t, device, s.nextTrack);
    var b := BindWebcam(ClaimWebcam(w, t, device), env, s.nextTrack, c);
    BindWebcamKeepsWf(ClaimWebcam(w, t, device), env, s.nextTrack, c);
    WfOnlyHolders(b.state, WebcamOn(b.state));
  }

  /** The unblurred path: the acquired track itself is bound or parked. */
  lemma BindPlainKeepsWf(s: State, env: Env, t: TrackId, device: Option<DeviceId>, c: Calls)
    requires Wf(s) && t < s.nextTrack && s.me.previewWebcamTrackId.None?
    requires HeldCount(s, t) == 0 || s.previewWebcamTrack == Some(t)
    ensures Wf(WebcamOn(BindWebcam(ClaimWebcam(s, t, device), env, t, c).state))
  {
    ClaimWebcamFree(s, t, device);
    var b := BindWebcam(ClaimWebcam(s, t, device), env, t, c);
    BindWebcamKeepsWf(ClaimWebcam(s, t, device), env, t, c);
    WfOnlyHolders(b.state, WebcamOn(b.state));
  }

  /** In a well-formed state a fresh capture is never an effect output, so it is blurred exactly when blur is on. */
  lemma WebcamAcquiresCapture(s: State, env: Env, start: bool)
    requires Wf(s) && !(start && s.previewWebcamTrack.Some?)
    ensures WebcamAcquires(s, env, start) <==> env.userMedia.Granted? && (s.settings.blurEnabled ==> env.effectOk)
  {
    assert s.nextTrack !in s.effects;
  }

  /** `updateWebcam` keeps every track with at most one holder: the preview track is moved, never copied. */
  lemma UpdateWebcamKeepsWf(s: State, env: Env, newDeviceId: Option<DeviceId>)
    requires Wf(s)
    ensures Wf(UpdateWebcam(s, env, newDeviceId).state)
  {
    var s0 := SetInProgressFlag(s, Video, true);
    WfOnlyHolders(s, s0);
    var b := WebcamTry(s0, env, newDeviceId, WebcamStarts(s), WebcamReplaces(s, newDeviceId));
    WebcamTryKeepsWf(s0, env, newDeviceId, WebcamStarts(s), WebcamReplaces(s, newDeviceId));
    GuardedKeepsWf(Video, b);
  }

  lemma WebcamTryKeepsWf(s: State, env: Env, newDeviceId: Option<DeviceId>, start: bool, replace: bool)
    requires Wf(s)
    ensures Wf(WebcamTry(s, env, newDeviceId, start, replace).state)
  {
    if !env.canSendWebcam {
      WfOnlyHolders(s, WebcamOff(s));
    } else {
      var s1 := if Given(newDeviceId) then s.(settings := s.settings.(selectedVideoDevice := newDeviceId)) else s;
      WfOnlyHolders(s, s1);
      WebcamChosenKeepsWf(s1, env, start || replace, start);
    }
  }

  /** After the device choice: the acquire path or the re-constrain path. */
  lemma WebcamChosenKeepsWf(s: State, env: Env, acquire: bool, start: bool)
    requires Wf(s)
    ensures Wf((if acquire then AcquireWebcam(s, env, start, NoCalls.(webcamRefreshes := 1)) else Step(WebcamOn(s), NoCalls, None)).state)
  {
    if acquire {
      AcquireWebcamKeepsWf(s, env, start, NoCalls.(webcamRefreshes := 1));
    } else {
      WfOnlyHolders(s, WebcamOn(s));
    }
  }

  lemma AcquireWebcamKeepsWf(s: State, env: Env, start: bool, c: Calls)
    requires Wf(s)
    ensures Wf(AcquireWebcam(s, env, start, c).state)
  {
    if start && s.previewWebcamTrack.Some? {
      HeldIsOld(s, s.previewWebcamTrack.value);
      TakeWebcamKeepsWf(s, env, s.previewWebcamTrack.value, c);
    } else if env.userMedia.Granted? {
      CapturedFree(s, env.userMedia.device);
      TakeWebcamKeepsWf(Captured(s, env.userMedia.device), env, s.nextTrack, c.(captures := 1));
    } else {
      WfOnlyHolders(s, WebcamOff(s));
    }
  }

  /** `stopWebcam`: stops the effect of the sender's track, then the sender, and disables the camera; muting is untouched. */
  function StopWebcam(s: State): (r: Step)
    ensures !r.state.senders.webcam.running && r.state.senders.webcam.track.None?
    ensures s.senders.webcam.track.Some? ==> s.senders.webcam.track.value !in r.state.effects
    ensures !r.state.me.webcamEnabled && r.state.me.videoMuted == s.me.videoMuted
  {
    var s1 := StopEffectOf(s, s.senders.webcam.track);
    var s2 := s1.(senders := s1.senders.(webcam := s1.senders.webcam.Stop()));
    Step(s2.(me := s2.me.(webcamEnabled := false)), NoCalls.(effectStops := 1, senderStops := 1), None)
  }

  /** Stopping the camera releases its track and keeps the ownership invariant. */
  lemma StopWebcamKeepsWf(s: State)
    requires Wf(s)
    ensures Wf(StopWebcam(s).state)
  {
    var s1 := StopEffectOf(s, s.senders.webcam.track);
    StopEffectOfKeepsWf(s, s.senders.webcam.track);
    var r := StopWebcam(s).state;
    forall u: TrackId ensures HeldCount(r, u) <= HeldCount(s1, u) {
    }
  }

  /** `stopWebcam` touches no other sender or preview slot, and stopping twice is stopping once. */
  lemma StopWebcamFrame(s: State)
    ensures var r := StopWebcam(s);
      && r.calls == NoCalls.(effectStops := 1, senderStops := 1)
      && r.state.senders == s.senders.(webcam := Sender(false, None))
      && r.state.previewWebcamTrack == s.previewWebcamTrack
      && StopWebcam(r.state).state == r.state
  {
  }

  // Device refreshes: the camera thunks issue only the unguarded refresh.

  /** `updateWebcam` issues no run-once refresh and leaves the flags guarding them alone. */
  lemma UpdateWebcamLeavesRefreshes(s: State, env: Env, newDeviceId: Option<DeviceId>)
    ensures LeavesRefreshes(s, UpdateWebcam(s, env, newDeviceId))
  {
    var s0 := SetInProgressFlag(s, Video, true);
    WebcamTryLeavesRefreshes(s0, env, newDeviceId, WebcamStarts(s), WebcamReplaces(s, newDeviceId));
  }

  lemma WebcamTryLeavesRefreshes(s: State, env: Env, newDeviceId: Option<DeviceId>, start: bool, replace: bool)
    ensures LeavesRefreshes(s, WebcamTry(s, env, newDeviceId, start, replace))
  {
    var s1 := if Given(newDeviceId) then s.(settings := s.settings.(selectedVideoDevice := newDeviceId)) else s;
    if env.canSendWebcam && (start || replace) {
      AcquireWebcamLeavesRefreshes(s1, env, start, NoCalls.(webcamRefreshes := 1));
    }
  }

  lemma AcquireWebcamLeavesRefreshes(s: State, env: Env, start: bool, c: Calls)
    requires c.NoGuardedRefreshes()
    ensures LeavesRefreshes(s, AcquireWebcam(s, env, start, c))
  {
    if start && s.previewWebcamTrack.Some? {
      TakeWebcamLeavesRefreshes(s, env, s.previewWebcamTrack.value, c);
    } else if env.userMedia.Granted? {
      TakeWebcamLeavesRefreshes(Captured(s, env.userMedia.device), env, s.nextTrack, c.(captures := 1));
    }
  }

  lemma TakeWebcamLeavesRefreshes(s: State, env: Env, t: TrackId, c: Calls)
    requires c.NoGuardedRefreshes()
    ensures LeavesRefreshes(s, TakeWebcam(s, env, t, c))
  {
    var s1 := s.(me := s.me.(previewWebcamTrackId := None));
    if BlursTrack(s1, t) && env.effectOk {
      var c1 := c.(effectApplies := c.effectApplies + 1);
      var b := BindWebcam(ClaimWebcam(Wrap(s1, t), t, Reported(s1, Origin(s1, t))), env, s1.nextTrack, c1);
      assert TakeWebcam(s, env, t, c).calls == b.calls;
    }
  }

  /** `stopWebcam` issues no refresh and leaves the flags alone. */
  lemma StopWebcamLeavesRefreshes(s: State)
    ensures LeavesRefreshes(s, StopWebcam(s))
  {
  }

}
