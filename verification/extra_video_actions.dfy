/**
 * The extra-video thunks: `startExtraVideo` and `stopExtraVideo`. A second
 * camera track is always freshly captured, blurred when enabled, and bound
 * directly to the `extravideo` sender: there is no preview slot and no
 * transport check on this path.
 */
module ExtraVideoActions {

  import opened Wrappers
  import opened MediaTypes
  import opened MediaState
  import opened MediaSteps
  import opened Ownership

  /** `start`: the extra-video sender is not running. */
  predicate ExtraStarts(s: State)
  {
    !s.senders.extraVideo.running
  }

  /** `replace`: the extra-video sender is running and a device id was given. */
  predicate ExtraReplaces(s: State, newDeviceId: Option<DeviceId>)
  {
    s.senders.extraVideo.running && Given(newDeviceId)
  }

  /**
   * Binds `t` to the extra-video sender: a running sender first has the
   * effect of its track stopped (only when it holds a track) and then
   * its track replaced; an idle sender is started.
   */
  function BindExtra(s: State, t: TrackId, c: Calls): (r: Step)
    ensures r.caught.None? && r.state.senders.extraVideo == Sender(true, Some(t)) && r.state.inProgress == s.inProgress
    ensures r.calls.starts + r.calls.replacements == c.starts + c.replacements + 1
  {
    var ev := s.senders.extraVideo;
    if ev.running then
      var s1 := if ev.track.Some? then StopEffectOf(s, ev.track) else s;
      var c1 := if ev.track.Some? then c.(effectStops := c.effectStops + 1) else c;
      Step(s1.(senders := s1.senders.(extraVideo := ev.ReplaceTrack(t))), c1.(replacements := c1.replacements + 1), None)
    else
      Step(s.(senders := s.senders.(extraVideo := ev.Start(t))), c.(starts := c.starts + 1), None)
  }

  /** `startExtraVideo`: starts, restarts or re-constrains the extra-video sender. */
  function StartExtraVideo(s: State, env: Env, newDeviceId: Option<DeviceId>): (r: Step)
    ensures r.caught.None? <==>
      env.canSendWebcam
      && (!(ExtraStarts(s) || ExtraReplaces(s, newDeviceId))
          || (env.userMedia.Granted? && (s.settings.blurEnabled ==> env.effectOk)))
    ensures r.caught.None? ==> r.state.me.extraVideoEnabled
    ensures r.caught.Some? ==> r.state.me == s.me && r.state.senders == s.senders
  {
    Guarded(Video, ExtraTry(SetInProgressFlag(s, Video, true), env, ExtraStarts(s), ExtraReplaces(s, newDeviceId)))
  }

  /** The `try` block of `startExtraVideo`; `start` and `replace` are computed before it. */
  function ExtraTry(s: State, env: Env, start: bool, replace: bool): Step
  {
    if !env.canSendWebcam then Step(s, NoCalls, Some(NotAllowed))
    else if start || replace then
      match env.userMedia
      case Granted(d) => ExtraGranted(Captured(s, d), env, s.nextTrack)
      case _ => Step(s, NoCalls.(captures := 1), Some(CaptureError(env.userMedia)))
    else
      var onTracks := if s.senders.extraVideo.track.Some? then 1 else 0;
      Step(s.(me := s.me.(extraVideoEnabled := true)), NoCalls.(constraintApplies := onTracks), None)
  }

  /** After the capture that produced track `t`: blur it when enabled, then bind and flag. */
  function ExtraGranted(s: State, env: Env, t: TrackId): Step
  {
    if !s.settings.blurEnabled then
      var b := BindExtra(s, t, NoCalls.(captures := 1));
      Step(b.state.(me := b.state.me.(extraVideoEnabled := true)), b.calls, None)
    else if !env.effectOk then Step(s, NoCalls.(captures := 1, effectApplies := 1), Some(EffectFailed))
    else
      var b := BindExtra(Wrap(s, t), s.nextTrack, NoCalls.(captures := 1, effectApplies := 1));
      Step(b.state.(me := b.state.me.(extraVideoEnabled := true)), b.calls, None)
  }

  /** The in-progress flag is set on entry and cleared in `finally` on every path. */
  lemma StartExtraVideoBracketed(s: State, env: Env, newDeviceId: Option<DeviceId>)
    ensures Bracketed(s, StartExtraVideo(s, env, newDeviceId), Video)
  {
    GuardedBrackets(s, Video, ExtraTry(SetInProgressFlag(s, Video, true), env, ExtraStarts(s), ExtraReplaces(s, newDeviceId)));
  }

  /** Without the capability no collaborator is called and nothing but the in-progress flag changes. */
  lemma StartExtraVideoNotAllowed(s: State, env: Env, newDeviceId: Option<DeviceId>)
    requires !env.canSendWebcam
    ensures var r := StartExtraVideo(s, env, newDeviceId);
      && r.caught == Some(NotAllowed)
      && r.state == s.(inProgress := s.inProgress.(video := false))
      && r.calls == OnlyDispatches
  {
  }

  /** Start or replace: one fresh capture, blurred when enabled, bound directly with no transport await. */
  lemma StartExtraVideoBinds(s: State, env: Env, newDeviceId: Option<DeviceId>)
    requires env.canSendWebcam && (ExtraStarts(s) || ExtraReplaces(s, newDeviceId))
    ensures var r := StartExtraVideo(s, env, newDeviceId);
      && r.calls.captures == 1 && r.calls.transportAwaits == 0
      && (r.caught.None? ==>
            && r.calls.effectApplies == (if s.settings.blurEnabled then 1 else 0)
            && r.state.senders.extraVideo == Sender(true, Some(if s.settings.blurEnabled then s.nextTrack + 1 else s.nextTrack))
            && r.calls.replacements == (if s.senders.extraVideo.running then 1 else 0)
            && r.calls.starts == (if s.senders.extraVideo.running then 0 else 1))
  {
  }

  /** A replace stops the effect of the track the sender held, if it held one. */
  lemma StartExtraVideoStopsReplacedEffect(s: State, env: Env, newDeviceId: Option<DeviceId>)
    requires env.canSendWebcam && ExtraReplaces(s, newDeviceId)
    ensures var r := StartExtraVideo(s, env, newDeviceId);
      r.caught.None? ==>
        && r.calls.effectStops == (if s.senders.extraVideo.track.Some? then 1 else 0)
        && (s.senders.extraVideo.track.Some? ==> s.senders.extraVideo.track.value !in r.state.effects)
  {
  }

  /** Neither start nor replace: only the extra-video track is re-constrained, and the flag is set. */
  lemma StartExtraVideoReconstrains(s: State, env: Env, newDeviceId: Option<DeviceId>)
    requires env.canSendWebcam && !ExtraStarts(s) && !ExtraReplaces(s, newDeviceId)
    ensures var r := StartExtraVideo(s, env, newDeviceId);
      && r.caught.None? && r.calls.captures == 0 && r.calls.starts == 0 && r.calls.replacements == 0
      && r.calls.constraintApplies == (if s.senders.extraVideo.track.Some? then 1 else 0)
      && r.state.senders == s.senders
  {
  }

  /** `stopExtraVideo`: stops the effect of the sender's track, then the sender, and clears the flag. */
  function StopExtraVideo(s: State): (r: Step)
    ensures r.state.senders.extraVideo == Sender(false, None) && !r.state.me.extraVideoEnabled
    ensures s.senders.extraVideo.track.Some? ==> s.senders.extraVideo.track.value !in r.state.effects
    ensures r.calls == NoCalls.(effectStops := 1, senderStops := 1)
  {
    var s1 := StopEffectOf(s, s.senders.extraVideo.track);
    var s2 := s1.(senders := s1.senders.(extraVideo := s1.senders.extraVideo.Stop()));
    Step(s2.(me := s2.me.(extraVideoEnabled := false)), NoCalls.(effectStops := 1, senderStops := 1), None)
  }

  /** `stopExtraVideo` touches no other sender, and stopping twice is stopping once. */
  lemma StopExtraVideoFrame(s: State)
    ensures var r := StopExtraVideo(s);
      && r.state.senders == s.senders.(extraVideo := Sender(false, None))
      && StopExtraVideo(r.state).state == r.state
  {
  }

  // Ownership: both extra-video thunks keep the invariant.

  /** Binding a track in hand to the extra-video sender gives it one holder and releases the old track. */
  lemma BindExtraKeepsWf(s: State, t: TrackId, c: Calls)
    requires Free(s, t)
    ensures Wf(BindExtra(s, t, c).state)
  {
    var ev := s.senders.extraVideo;
    var s1 := if ev.running && ev.track.Some? then StopEffectOf(s, ev.track) else s;
    StopEffectOfKeepsWf(s, ev.track);
    assert Wf(s1);
    assert HeldCount(s1, t) == 0;
    var r := BindExtra(s, t, c).state;
    assert r == s1.(senders := s1.senders.(extraVideo := if ev.running then ev.ReplaceTrack(t) else ev.Start(t)));
    forall u: TrackId ensures HeldCount(r, u) <= (if u == t then 1 else HeldCount(s1, u)) {
    }
  }

  /** Binding a captured track in hand, blurred or not, keeps the invariant. */
  lemma ExtraGrantedKeepsWf(s: State, env: Env, t: TrackId)
    requires Free(s, t) && t !in s.effects
    ensures Wf(ExtraGranted(s, env, t).state)
  {
    if !s.settings.blurEnabled {
      var b := BindExtra(s, t, NoCalls.(captures := 1));
      BindExtraKeepsWf(s, t, NoCalls.(captures := 1));
      WfOnlyHolders(b.state, b.state.(me := b.state.me.(extraVideoEnabled := true)));
    } else if env.effectOk {
      WrapFree(s, t);
      var b := BindExtra(Wrap(s, t), s.nextTrack, NoCalls.(captures := 1, effectApplies := 1));
      BindExtraKeepsWf(Wrap(s, t), s.nextTrack, NoCalls.(captures := 1, effectApplies := 1));
      WfOnlyHolders(b.state, b.state.(me := b.state.me.(extraVideoEnabled := true)));
    }
  }

  /** The `try` block keeps the invariant. */
  lemma ExtraTryKeepsWf(s: State, env: Env, start: bool, replace: bool)
    requires Wf(s)
    ensures Wf(ExtraTry(s, env, start, replace).state)
  {
    if env.canSendWebcam && (start || replace) && env.userMedia.Granted? {
      CapturedFree(s, env.userMedia.device);
      ExtraGrantedKeepsWf(Captured(s, env.userMedia.device), env, s.nextTrack);
    } else if env.canSendWebcam && !(start || replace) {
      WfOnlyHolders(s, s.(me := s.me.(extraVideoEnabled := true)));
    }
  }

  /** `startExtraVideo` keeps the ownership invariant. */
  lemma StartExtraVideoKeepsWf(s: State, env: Env, newDeviceId: Option<DeviceId>)
    requires Wf(s)
    ensures Wf(StartExtraVideo(s, env, newDeviceId).state)
  {
    var s1 := SetInProgressFlag(s, Video, true);
    WfOnlyHolders(s, s1);
    var body := ExtraTry(s1, env, ExtraStarts(s), ExtraReplaces(s, newDeviceId));
    ExtraTryKeepsWf(s1, env, ExtraStarts(s), ExtraReplaces(s, newDeviceId));
    GuardedKeepsWf(Video, body);
  }

  /** `stopExtraVideo` keeps the ownership invariant. */
  lemma StopExtraVideoKeepsWf(s: State)
    requires Wf(s)
    ensures Wf(StopExtraVideo(s).state)
  {
    var s1 := StopEffectOf(s, s.senders.extraVideo.track);
    StopEffectOfKeepsWf(s, s.senders.extraVideo.track);
    var r := StopExtraVideo(s).state;
    assert r.effects == s1.effects;
    forall u: TrackId ensures HeldCount(r, u) <= HeldCount(s1, u) {
    }
  }

  /** `startExtraVideo` refreshes no device list and leaves the flags guarding the refreshes alone. */
  lemma StartExtraVideoLeavesRefreshes(s: State, env: Env, newDeviceId: Option<DeviceId>)
    ensures LeavesRefreshes(s, StartExtraVideo(s, env, newDeviceId))
  {
  }

  /** `stopExtraVideo` refreshes no device list and leaves the flags guarding the refreshes alone. */
  lemma StopExtraVideoLeavesRefreshes(s: State)
    ensures LeavesRefreshes(s, StopExtraVideo(s))
  {
  }

}
