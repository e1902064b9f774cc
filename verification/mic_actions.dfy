/**
 * The microphone thunks: `updateMic`, `stopMic`, `pauseMic`, `resumeMic`.
 * `updateMic` acquires a track (the preview track when starting, otherwise
 * a fresh capture), takes it out of the preview slot, awaits the transport
 * and then binds it to the `mic` sender or, without a transport, parks it
 * back in the preview slot.
 */
module MicActions {

  import opened Wrappers
  import opened MediaTypes
  import opened MediaState
  import opened MediaSteps
  import opened Ownership

  /** `start`: the mic sender is not running. */
  predicate MicStarts(s: State)
  {
    !s.senders.mic.running
  }

  /** `replace`: the mic sender is running and a device id was given. */
  predicate MicReplaces(s: State, newDeviceId: Option<DeviceId>)
  {
    s.senders.mic.running && Given(newDeviceId)
  }

  /**
   * Takes `t` out of the preview slot before the transport await: the
   * published preview id is cleared, the slot is emptied if it held `t`,
   * and the selected device becomes the one `t` reports.
   */
  function ClaimMic(s: State, t: TrackId): (r: State)
    ensures r.me.previewMicTrackId.None? && r.previewMicTrack != Some(t)
    ensures r.senders == s.senders && r.nextTrack == s.nextTrack && r.inProgress == s.inProgress
  {
    var s1 := s.(me := s.me.(previewMicTrackId := None));
    var s2 := if s1.previewMicTrack == Some(t) then s1.(previewMicTrack := None) else s1;
    s2.(settings := s2.settings.(selectedAudioDevice := Reported(s2, t)))
  }

  /**
   * After the transport await: without both transports the track is
   * parked in the preview slot with its id published; otherwise it
   * replaces the running sender's track or starts the sender. `c` holds
   * the calls made before the await.
   */
  function BindMic(s: State, env: Env, t: TrackId, c: Calls): (r: Step)
    ensures r.caught.None? && r.state.inProgress == s.inProgress
    ensures r.calls.starts + r.calls.replacements == c.starts + c.replacements + (if env.transportsConnected then 1 else 0)
  {
    var c1 := c.(transportAwaits := c.transportAwaits + 1);
    if !env.transportsConnected then
      Step(s.(previewMicTrack := Some(t), me := s.me.(previewMicTrackId := Some(t))), c1, None)
    else if s.senders.mic.running then
      Step(s.(senders := s.senders.(mic := s.senders.mic.ReplaceTrack(t))), c1.(replacements := c1.replacements + 1), None)
    else
      Step(s.(senders := s.senders.(mic := s.senders.mic.Start(t))), c1.(starts := c1.starts + 1), None)
  }

  /** The rest of the `start || replace` path once track `t` is in hand. */
  function TakeMic(s: State, env: Env, t: TrackId, c: Calls): Step
  {
    var b := BindMic(ClaimMic(s, t), env, t, c);
    Step(MicOn(b.state), b.calls, None)
  }

  /** The dispatches after a successful `try` block. */
  function MicOn(s: State): State
  {
    s.(me := s.me.(audioMuted := false, micEnabled := true))
  }

  /** `updateMic`: starts, restarts or re-constrains the microphone sender. */
  function UpdateMic(s: State, env: Env, newDeviceId: Option<DeviceId>): (r: Step)
    ensures r.caught.None? <==>
      env.canSendMic && (!(MicStarts(s) || MicReplaces(s, newDeviceId))
                         || (MicStarts(s) && s.previewMicTrack.Some?)
                         || env.userMedia.Granted?)
    ensures r.caught.None? ==> r.state.me.micEnabled && !r.state.me.audioMuted
  {
    Guarded(Audio, MicTry(SetInProgressFlag(s, Audio, true), env, newDeviceId,
                          MicStarts(s), MicReplaces(s, newDeviceId)))
  }

  /** The `try` block of `updateMic`; `start` and `replace` are computed before it. */
  function MicTry(s: State, env: Env, newDeviceId: Option<DeviceId>, start: bool, replace: bool): Step
  {
    if !env.canSendMic then Step(s, NoCalls, Some(NotAllowed))
    else
      var s1 := if Given(newDeviceId) then s.(settings := s.settings.(selectedAudioDevice := newDeviceId)) else s;
      if start || replace then
        // The preview track is reused only when starting.
        if start && s1.previewMicTrack.Some? then TakeMic(s1, env, s1.previewMicTrack.value, NoCalls)
        else
          match env.userMedia
          case Granted(d) => TakeMic(Captured(s1, d), env, s1.nextTrack, NoCalls.(captures := 1))
          case _ => Step(s1, NoCalls.(captures := 1), Some(CaptureError(env.userMedia)))
      else
        Step(MicOn(s1), NoCalls.(constraintApplies := if s1.senders.mic.track.Some? then 1 else 0), None)
  }

  /** The in-progress flag is set on entry and cleared in `finally` on every path. */
  lemma UpdateMicBracketed(s: State, env: Env, newDeviceId: Option<DeviceId>)
    ensures Bracketed(s, UpdateMic(s, env, newDeviceId), Audio)
  {
    var s0 := SetInProgressFlag(s, Audio, true);
    MicTryKeepsProgress(s0, env, newDeviceId, MicStarts(s), MicReplaces(s, newDeviceId));
    GuardedBrackets(s, Audio, MicTry(s0, env, newDeviceId, MicStarts(s), MicReplaces(s, newDeviceId)));
  }

  lemma MicTryKeepsProgress(s: State, env: Env, newDeviceId: Option<DeviceId>, start: bool, replace: bool)
    ensures var b := MicTry(s, env, newDeviceId, start, replace);
      b.state.inProgress == s.inProgress && b.calls.inProgressSets == 0 && b.calls.inProgressClears == 0
  {
  }

  /** Without the capability nothing but the in-progress flag changes and no collaborator is called. */
  lemma UpdateMicNotAllowed(s: State, env: Env, newDeviceId: Option<DeviceId>)
    requires !env.canSendMic
    ensures var r := UpdateMic(s, env, newDeviceId);
      && r.caught == Some(NotAllowed)
      && r.state == s.(inProgress := s.inProgress.(audio := false))
      && r.calls == OnlyDispatches
  {
  }

  /** Neither start nor replace: no capture and no sender binding, only the constraints of the sender's track. */
  lemma UpdateMicReconstrains(s: State, env: Env, newDeviceId: Option<DeviceId>)
    requires env.canSendMic && !MicStarts(s) && !MicReplaces(s, newDeviceId)
    ensures var r := UpdateMic(s, env, newDeviceId);
      && r.calls.captures == 0 && r.calls.starts == 0 && r.calls.replacements == 0
      && r.calls.constraintApplies == (if s.senders.mic.track.Some? then 1 else 0)
      && r.state.senders == s.senders && r.state.previewMicTrack == s.previewMicTrack
  {
  }

  /** Start or replace: at most one capture, none when the preview track is reused, and one transport await. */
  lemma UpdateMicCaptures(s: State, env: Env, newDeviceId: Option<DeviceId>)
    requires env.canSendMic && (MicStarts(s) || MicReplaces(s, newDeviceId))
    ensures var r := UpdateMic(s, env, newDeviceId);
      && r.calls.captures == (if MicStarts(s) && s.previewMicTrack.Some? then 0 else 1)
      && r.calls.transportAwaits == (if r.caught.None? then 1 else 0)
      && r.calls.constraintApplies == 0
  {
  }


  /** With both transports, a successful start or replace binds exactly one track: replace when running, else start. */
  lemma UpdateMicBinds(s: State, env: Env, newDeviceId: Option<DeviceId>)
    requires env.canSendMic && (MicStarts(s) || MicReplaces(s, newDeviceId)) && env.transportsConnected
    ensures var r := UpdateMic(s, env, newDeviceId);
      r.caught.None? ==>
        && r.calls.replacements == (if s.senders.mic.running then 1 else 0)
        && r.calls.starts == (if s.senders.mic.running then 0 else 1)
  {
  }


  /** The sender is bound to the acquired track, which the preview slot no longer holds. */
  lemma UpdateMicMovesTrack(s: State, env: Env, newDeviceId: Option<DeviceId>)
    requires env.canSendMic && (MicStarts(s) || MicReplaces(s, newDeviceId)) && env.transportsConnected
    ensures var r := UpdateMic(s, env, newDeviceId);
      r.caught.None? ==>
        && r.state.senders.mic.running
        && r.state.senders.mic.track == Some(if MicStarts(s) && s.previewMicTrack.Some? then s.previewMicTrack.value else s.nextTrack)
        && r.state.previewMicTrack != r.state.senders.mic.track
        && r.state.me.previewMicTrackId.None?
  {
  }

  /**
   * Without both transports the acquired track is parked in the preview
   * slot with its id published, no sender is bound, and the microphone
   * still ends enabled and unmuted.
   */
  lemma UpdateMicDefers(s: State, env: Env, newDeviceId: Option<DeviceId>)
    requires env.canSendMic && (MicStarts(s) || MicReplaces(s, newDeviceId)) && !env.transportsConnected
    ensures var r := UpdateMic(s, env, newDeviceId);
      && r.calls.starts == 0 && r.calls.replacements == 0
      && r.state.senders == s.senders
      && (r.caught.None? ==>
            var t := if MicStarts(s) && s.previewMicTrack.Some? then s.previewMicTrack.value else s.nextTrack;
            && r.state.previewMicTrack == Some(t) && r.state.me.previewMicTrackId == Some(t)
            && r.state.me.micEnabled && !r.state.me.audioMuted)
  {
  }

  /** A failed `updateMic` leaves the enabled and muted flags and the sender as they were. */
  lemma UpdateMicFailureKeepsFlags(s: State, env: Env, newDeviceId: Option<DeviceId>)
    ensures var r := UpdateMic(s, env, newDeviceId);
      r.caught.Some? ==>
        && r.state.me.micEnabled == s.me.micEnabled && r.state.me.audioMuted == s.me.audioMuted
        && r.state.senders == s.senders
        && r.calls.starts == 0 && r.calls.replacements == 0
  {
  }

  /** The selected microphone ends as the device the acquired track reports. */
  lemma UpdateMicSelectsTrackDevice(s: State, env: Env, newDeviceId: Option<DeviceId>)
    requires env.canSendMic && (MicStarts(s) || MicReplaces(s, newDeviceId))
    ensures var r := UpdateMic(s, env, newDeviceId);
      && (r.caught.None? && !(MicStarts(s) && s.previewMicTrack.Some?) ==>
            r.state.settings.selectedAudioDevice == Some(env.userMedia.device))
      && (MicStarts(s) && s.previewMicTrack.Some? ==>
            r.state.settings.selectedAudioDevice == Reported(s, s.previewMicTrack.value))
  {
  }


  // ---------------------------------------------------------------------
  // Ownership
  // ---------------------------------------------------------------------

  /** Claiming the preview track, or a track nobody holds, leaves it in hand. */
  lemma ClaimMicFree(s: State, t: TrackId)
    requires Wf(s) && t < s.nextTrack
    requires HeldCount(s, t) == 0 || s.previewMicTrack == Some(t)
    ensures Free(ClaimMic(s, t), t)
  {
    var r := ClaimMic(s, t);
    assert HeldCount(s, t) <= 1;
    forall u: TrackId ensures HeldCount(r, u) <= HeldCount(s, u) {
    }
  }

  /** Binding or parking a track in hand gives it exactly one holder. */
  lemma BindMicKeepsWf(s: State, env: Env, t: TrackId, c: Calls)
    requires Free(s, t)
    ensures Wf(BindMic(s, env, t, c).state)
  {
    var r := BindMic(s, env, t, c).state;
    if !env.transportsConnected {
      forall u: TrackId ensures HeldCount(r, u) <= (if u == t then 1 else HeldCount(s, u)) {
      }
    } else {
      forall u: TrackId ensures HeldCount(r, u) <= (if u == t then 1 else HeldCount(s, u)) {
      }
    }
  }

  lemma TakeMicKeepsWf(s: State, env: Env, t: TrackId, c: Calls)
    requires Wf(s) && t < s.nextTrack
    requires HeldCount(s, t) == 0 || s.previewMicTrack == Some(t)
    ensures Wf(TakeMic(s, env, t, c).state)
  {
    ClaimMicFree(s, t);
    var b := BindMic(ClaimMic(s, t), env, t, c);
    BindMicKeepsWf(ClaimMic(s, t), env, t, c);
    WfOnlyHolders(b.state, MicOn(b.state));
  }

  /** `updateMic` keeps every track with at most one holder: the preview track is moved, never copied. */
  lemma UpdateMicKeepsWf(s: State, env: Env, newDeviceId: Option<DeviceId>)
    requires Wf(s)
    ensures Wf(UpdateMic(s, env, newDeviceId).state)
  {
    var s0 := SetInProgressFlag(s, Audio, true);
    WfOnlyHolders(s, s0);
    var b := MicTry(s0, env, newDeviceId, MicStarts(s), MicReplaces(s, newDeviceId));
    MicTryKeepsWf(s0, env, newDeviceId, MicStarts(s), MicReplaces(s, newDeviceId));
    GuardedKeepsWf(Audio, b);
  }

  lemma MicTryKeepsWf(s: State, env: Env, newDeviceId: Option<DeviceId>, start: bool, replace: bool)
    requires Wf(s)
    ensures Wf(MicTry(s, env, newDeviceId, start, replace).state)
  {
    var s1 := if Given(newDeviceId) then s.(settings := s.settings.(selectedAudioDevice := newDeviceId)) else s;
    WfOnlyHolders(s, s1);
    if env.canSendMic && (start || replace) {
      if start && s1.previewMicTrack.Some? {
        HeldIsOld(s1, s1.previewMicTrack.value);
        TakeMicKeepsWf(s1, env, s1.previewMicTrack.value, NoCalls);
      } else if env.userMedia.Granted? {
        CapturedFree(s1, env.userMedia.device);
        TakeMicKeepsWf(Captured(s1, env.userMedia.device), env, s1.nextTrack, NoCalls.(captures := 1));
      }
    } else if env.canSendMic {
      WfOnlyHolders(s1, MicOn(s1));
    }
  }

  /** `stopMic`: stops the sender; the microphone ends disabled and muted. */
  function StopMic(s: State): (r: Step)
    ensures !r.state.senders.mic.running && r.state.senders.mic.track.None?
    ensures !r.state.me.micEnabled && r.state.me.audioMuted
    ensures r.calls == NoCalls.(senderStops := 1)
  {
    var s1 := s.(senders := s.senders.(mic := s.senders.mic.Stop()));
    Step(s1.(me := s1.me.(micEnabled := false, audioMuted := true)), NoCalls.(senderStops := 1), None)
  }

  /** `stopMic` touches nothing but the mic sender and the two microphone flags, and stopping twice is stopping once. */
  lemma StopMicFrame(s: State)
    ensures var r := StopMic(s);
      && r.state.senders == s.senders.(mic := Sender(false, None))
      && r.state.me == s.me.(micEnabled := false, audioMuted := true)
      && r.state.previewMicTrack == s.previewMicTrack && r.state.effects == s.effects
      && StopMic(r.state).state == r.state
  {
  }

  /** `pauseMic`: pauses the sender and mutes. */
  function PauseMic(s: State): (r: Step)
    ensures r.state.me.audioMuted && r.calls == NoCalls.(pauses := 1)
  {
    Step(s.(me := s.me.(audioMuted := true)), NoCalls.(pauses := 1), None)
  }

  /** `resumeMic`: resumes the sender and unmutes. */
  function ResumeMic(s: State): (r: Step)
    ensures !r.state.me.audioMuted && r.calls == NoCalls.(resumes := 1)
  {
    Step(s.(me := s.me.(audioMuted := false)), NoCalls.(resumes := 1), None)
  }

  /** Stopping the microphone releases its track and keeps the ownership invariant. */
  lemma StopMicKeepsWf(s: State)
    requires Wf(s)
    ensures Wf(StopMic(s).state)
  {
    var r := StopMic(s).state;
    forall u: TrackId ensures HeldCount(r, u) <= HeldCount(s, u) {
    }
  }

  /** Pausing touches no holder. */
  lemma PauseMicKeepsWf(s: State)
    requires Wf(s)
    ensures Wf(PauseMic(s).state)
  {
    WfOnlyHolders(s, PauseMic(s).state);
  }

  /** Resuming touches no holder. */
  lemma ResumeMicKeepsWf(s: State)
    requires Wf(s)
    ensures Wf(ResumeMic(s).state)
  {
    WfOnlyHolders(s, ResumeMic(s).state);
  }

  /** Pausing and then resuming restores the state the microphone was in before, for an unmuted microphone. */
  lemma PauseResumeRestores(s: State)
    ensures ResumeMic(PauseMic(s).state).state == s.(me := s.me.(audioMuted := false))
    ensures !s.me.audioMuted ==> ResumeMic(PauseMic(s).state).state == s
    ensures PauseMic(s).state.senders == s.senders && ResumeMic(s).state.senders == s.senders
  {
  }

  // Device refreshes: no microphone thunk issues a run-once refresh.

  /** `updateMic` issues no run-once refresh and leaves the flags guarding them alone. */
  lemma UpdateMicLeavesRefreshes(s: State, env: Env, newDeviceId: Option<DeviceId>)
    ensures LeavesRefreshes(s, UpdateMic(s, env, newDeviceId))
  {
    var s0 := SetInProgressFlag(s, Audio, true);
    MicTryLeavesRefreshes(s0, env, newDeviceId, MicStarts(s), MicReplaces(s, newDeviceId));
  }

  lemma MicTryLeavesRefreshes(s: State, env: Env, newDeviceId: Option<DeviceId>, start: bool, replace: bool)
    ensures LeavesRefreshes(s, MicTry(s, env, newDeviceId, start, replace))
  {
    var s1 := if Given(newDeviceId) then s.(settings := s.settings.(selectedAudioDevice := newDeviceId)) else s;
    if env.canSendMic && (start || replace) {
      if start && s1.previewMicTrack.Some? {
        TakeMicLeavesRefreshes(s1, env, s1.previewMicTrack.value, NoCalls);
      } else if env.userMedia.Granted? {
        TakeMicLeavesRefreshes(Captured(s1, env.userMedia.device), env, s1.nextTrack, NoCalls.(captures := 1));
      }
    }
  }

  lemma TakeMicLeavesRefreshes(s: State, env: Env, t: TrackId, c: Calls)
    requires c.NoGuardedRefreshes()
    ensures LeavesRefreshes(s, TakeMic(s, env, t, c))
  {
  }

  /** Stopping, pausing and resuming issue no refresh and leave the flags alone. */
  lemma MicStopsLeaveRefreshes(s: State)
    ensures LeavesRefreshes(s, StopMic(s)) && LeavesRefreshes(s, PauseMic(s)) && LeavesRefreshes(s, ResumeMic(s))
  {
  }

}
