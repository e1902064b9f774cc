/**
 * A page session: the thunks of `mediaActions.tsx` dispatched one after
 * another, each awaited before the next. The properties here hold for
 * every sequence of dispatches, because every thunk keeps them.
 */
module Session {

  import opened Wrappers
  import opened MediaTypes
  import opened MediaState
  import opened MediaSteps
  import opened Ownership
  import PreviewActions
  import MicActions
  import WebcamActions
  import ScreenActions
  import ExtraVideoActions
  import SettingsActions

  /** A thunk that runs under the audio in-progress flag, or none. */
  datatype AudioOp =
    | UpdatePreviewMic(env: Env, updateSelection: bool)
    | StopPreviewMic
    | UpdateAudioSettings(env: Env)
    | UpdateMic(env: Env, newDeviceId: Option<DeviceId>)
    | StopMic
    | PauseMic
    | ResumeMic

  /** A thunk that runs under the video in-progress flag, or none. */
  datatype VideoOp =
    | UpdatePreviewWebcam(env: Env, updateSelection: bool)
    | StopPreviewWebcam
    | UpdateVideoSettings(blur: Option<bool>, env: Env, previewEnv: Env)
    | UpdateWebcam(env: Env, newDeviceId: Option<DeviceId>)
    | StopWebcam
    | StartExtraVideo(env: Env, newDeviceId: Option<DeviceId>)
    | StopExtraVideo

  /** A thunk that runs under the screen-sharing in-progress flag, or none. */
  datatype ScreenOp =
    | UpdateScreenshareSettings(env: Env)
    | UpdateScreenshareSettingsCorrected(env: Env)
    | UpdateScreenSharing(env: Env)
    | StopScreenSharing

  /** One dispatched thunk with its arguments and what it meets outside the state. */
  datatype Op = AudioThunk(a: AudioOp) | VideoThunk(v: VideoOp) | ScreenThunk(x: ScreenOp)

  /** Dispatches one thunk. */
  function Apply(s: State, op: Op): Step
  {
    match op
    case AudioThunk(a) => ApplyAudio(s, a)
    case VideoThunk(v) => ApplyVideo(s, v)
    case ScreenThunk(x) => ApplyScreen(s, x)
  }

  function ApplyAudio(s: State, op: AudioOp): Step
  {
    match op
    case UpdatePreviewMic(env, upd) => PreviewActions.UpdatePreviewMic(s, env, upd)
    case StopPreviewMic => PreviewActions.StopPreviewMic(s)
    case UpdateAudioSettings(env) => SettingsActions.UpdateAudioSettings(s, env)
    case UpdateMic(env, id) => MicActions.UpdateMic(s, env, id)
    case StopMic => MicActions.StopMic(s)
    case PauseMic => MicActions.PauseMic(s)
    case ResumeMic => MicActions.ResumeMic(s)
  }

  function ApplyVideo(s: State, op: VideoOp): Step
  {
    match op
    case UpdatePreviewWebcam(env, upd) => PreviewActions.UpdatePreviewWebcam(s, env, upd)
    case StopPreviewWebcam => PreviewActions.StopPreviewWebcam(s)
    case UpdateVideoSettings(blur, env, previewEnv) => SettingsActions.UpdateVideoSettings(s, blur, env, previewEnv)
    case UpdateWebcam(env, id) => WebcamActions.UpdateWebcam(s, env, id)
    case StopWebcam => WebcamActions.StopWebcam(s)
    case StartExtraVideo(env, id) => ExtraVideoActions.StartExtraVideo(s, env, id)
    case StopExtraVideo => ExtraVideoActions.StopExtraVideo(s)
  }

  /**
   * `updateScreenshareSettings` is dispatched as the source writes it; its
   * corrected form is a further op, so sessions may mix both.
   */
  function ApplyScreen(s: State, op: ScreenOp): Step
  {
    match op
    case UpdateScreenshareSettings(env) => SettingsActions.UpdateScreenshareSettingsAsWritten(s, env)
    case UpdateScreenshareSettingsCorrected(env) => SettingsActions.UpdateScreenshareSettings(s, env)
    case UpdateScreenSharing(env) => ScreenActions.UpdateScreenSharing(s, env)
    case StopScreenSharing => ScreenActions.StopScreenSharing(s)
  }

  /** Dispatches `ops` in order, each on the state the previous one left. */
  function Run(s: State, ops: seq<Op>): (r: Step)
    ensures ops == [] ==> r == Step(s, NoCalls, None)
    decreases |ops|
  {
    if ops == [] then Step(s, NoCalls, None)
    else
      var first := Apply(s, ops[0]);
      AndThen(first, Run(first.state, ops[1..]))
  }

  /** Every thunk keeps the ownership invariant. */
  lemma ApplyKeepsWf(s: State, op: Op)
    requires Wf(s)
    ensures Wf(Apply(s, op).state)
  {
    match op
    case AudioThunk(a) => AudioKeepsWf(s, a);
    case VideoThunk(v) => VideoKeepsWf(s, v);
    case ScreenThunk(x) => ScreenKeepsWf(s, x);
  }

  lemma AudioKeepsWf(s: State, op: AudioOp)
    requires Wf(s)
    ensures Wf(ApplyAudio(s, op).state)
  {
    match op
    case UpdatePreviewMic(env, upd) => PreviewActions.UpdatePreviewMicKeepsWf(s, env, upd);
    case StopPreviewMic => PreviewActions.StopPreviewMicKeepsWf(s);
    case UpdateAudioSettings(env) => SettingsActions.UpdateAudioSettingsKeepsWf(s, env);
    case UpdateMic(env, id) => MicActions.UpdateMicKeepsWf(s, env, id);
    case StopMic => MicActions.StopMicKeepsWf(s);
    case PauseMic => MicActions.PauseMicKeepsWf(s);
    case ResumeMic => MicActions.ResumeMicKeepsWf(s);
  }

  lemma VideoKeepsWf(s: State, op: VideoOp)
    requires Wf(s)
    ensures Wf(ApplyVideo(s, op).state)
  {
    match op
    case UpdatePreviewWebcam(env, upd) => PreviewActions.UpdatePreviewWebcamKeepsWf(s, env, upd);
    case StopPreviewWebcam => PreviewActions.StopPreviewWebcamKeepsWf(s);
    case UpdateVideoSettings(blur, env, previewEnv) => SettingsActions.UpdateVideoSettingsKeepsWf(s, blur, env, previewEnv);
    case UpdateWebcam(env, id) => WebcamActions.UpdateWebcamKeepsWf(s, env, id);
    case StopWebcam => WebcamActions.StopWebcamKeepsWf(s);
    case StartExtraVideo(env, id) => ExtraVideoActions.StartExtraVideoKeepsWf(s, env, id);
    case StopExtraVideo => ExtraVideoActions.StopExtraVideoKeepsWf(s);
  }

  lemma ScreenKeepsWf(s: State, op: ScreenOp)
    requires Wf(s)
    ensures Wf(ApplyScreen(s, op).state)
  {
    match op
    case UpdateScreenshareSettings(env) => SettingsActions.UpdateScreenshareSettingsAsWrittenKeepsWf(s, env);
    case UpdateScreenshareSettingsCorrected(env) => SettingsActions.UpdateScreenshareSettingsKeepsWf(s, env);
    case UpdateScreenSharing(env) => ScreenActions.UpdateScreenSharingKeepsWf(s, env);
    case StopScreenSharing => ScreenActions.StopScreenSharingKeepsWf(s);
  }

  /**
   * Ownership is an invariant of the session: after any sequence of
   * dispatches every running sender holds its own track, no track has two
   * holders, and the published preview ids name the parked tracks.
   */
  lemma {:induction false} RunKeepsWf(s: State, ops: seq<Op>)
    requires Wf(s)
    ensures Wf(Run(s, ops).state)
    decreases |ops|
  {
    if ops != [] {
      ApplyKeepsWf(s, ops[0]);
      RunKeepsWf(Apply(s, ops[0]).state, ops[1..]);
    }
  }

  /** No thunk is in progress: the state between two awaited dispatches. */
  predicate Idle(s: State)
  {
    !s.inProgress.audio && !s.inProgress.video && !s.inProgress.screenSharing
  }

  /** Every in-progress flag a thunk set was cleared again, and the session is idle afterwards. */
  predicate Settled(s: State, r: Step)
  {
    Idle(r.state) && r.calls.inProgressSets == r.calls.inProgressClears
  }

  /** A bracketed thunk started from an idle state ends idle. */
  lemma BracketedSettles(s: State, r: Step, m: Modality)
    requires Idle(s) && Bracketed(s, r, m)
    ensures Settled(s, r)
  {
    assert r.state.inProgress.Get(Audio) == s.inProgress.Get(Audio) || m == Audio;
    assert r.state.inProgress.Get(Video) == s.inProgress.Get(Video) || m == Video;
    assert r.state.inProgress.Get(ScreenSharing) == s.inProgress.Get(ScreenSharing) || m == ScreenSharing;
  }

  /** Two settled thunks in a row are settled. */
  lemma AndThenSettles(s: State, first: Step, next: Step)
    requires Settled(s, first) && Settled(first.state, next)
    ensures Settled(s, AndThen(first, next))
  {
  }

  /** `updateAudioSettings` settles: the stop touches no flag and the restart is bracketed. */
  lemma UpdateAudioSettingsSettles(s: State, env: Env)
    requires Idle(s)
    ensures Settled(s, SettingsActions.UpdateAudioSettings(s, env))
  {
    var st := MicActions.StopMic(s.(me := s.me.(micEnabled := false)));
    if s.me.micEnabled {
      MicActions.UpdateMicBracketed(st.state, env, None);
      BracketedSettles(st.state, MicActions.UpdateMic(st.state, env, None), Audio);
      AndThenSettles(s, st, MicActions.UpdateMic(st.state, env, None));
    }
  }

  /** `updateVideoSettings` settles: each of its up to four thunks does. */
  lemma UpdateVideoSettingsSettles(s: State, blur: Option<bool>, env: Env, previewEnv: Env)
    requires Idle(s)
    ensures Settled(s, SettingsActions.UpdateVideoSettings(s, blur, env, previewEnv))
  {
    var s1 := if blur.Some? then s.(settings := s.settings.(blurEnabled := blur.value)) else s;
    var s0 := s1.(me := s1.me.(webcamEnabled := false));
    var p := PreviewActions.StopPreviewWebcam(s0);
    PreviewActions.StopPreviewWebcamBracketed(s0);
    BracketedSettles(s0, p, Video);
    var stopped := SettingsActions.VideoStopped(s1);
    AndThenSettles(s0, p, WebcamActions.StopWebcam(p.state));
    assert Settled(s, stopped);
    VideoRestartedSettles(stopped.state, stopped, s.me.webcamEnabled, s.me.previewWebcamTrackId.Some?, env, previewEnv);
  }

  /** The restarts of `updateVideoSettings` settle. */
  lemma VideoRestartedSettles(s: State, stopped: Step, camera: bool, preview: bool, env: Env, previewEnv: Env)
    requires Idle(s) && stopped.state == s && stopped.calls.inProgressSets == stopped.calls.inProgressClears
    ensures Settled(s, SettingsActions.VideoRestarted(stopped, camera, preview, env, previewEnv))
  {
    var u := if camera then AndThen(stopped, WebcamActions.UpdateWebcam(s, env, None)) else stopped;
    if camera {
      WebcamActions.UpdateWebcamBracketed(s, env, None);
      BracketedSettles(s, WebcamActions.UpdateWebcam(s, env, None), Video);
    }
    if preview {
      PreviewActions.UpdatePreviewWebcamBracketed(u.state, previewEnv, false);
      BracketedSettles(u.state, PreviewActions.UpdatePreviewWebcam(u.state, previewEnv, false), Video);
    }
  }

  /** `updateScreenshareSettings` as written settles: the flag write is outside the bracketed dispatch. */
  lemma UpdateScreenshareSettingsAsWrittenSettles(s: State, env: Env)
    requires Idle(s)
    ensures Settled(s, SettingsActions.UpdateScreenshareSettingsAsWritten(s, env))
  {
    var s1 := s.(me := s.me.(screenEnabled := false));
    if s.me.screenEnabled {
      ScreenActions.UpdateScreenSharingBracketed(s1, env);
      BracketedSettles(s1, ScreenActions.UpdateScreenSharing(s1, env), ScreenSharing);
    }
  }

  /** The corrected `updateScreenshareSettings` settles. */
  lemma UpdateScreenshareSettingsSettles(s: State, env: Env)
    requires Idle(s)
    ensures Settled(s, SettingsActions.UpdateScreenshareSettings(s, env))
  {
    var st := ScreenActions.StopScreenSharing(s.(me := s.me.(screenEnabled := false)));
    if s.me.screenEnabled {
      ScreenActions.UpdateScreenSharingBracketed(st.state, env);
      BracketedSettles(st.state, ScreenActions.UpdateScreenSharing(st.state, env), ScreenSharing);
    }
  }

  /** Every thunk dispatched on an idle state settles. */
  lemma ApplySettles(s: State, op: Op)
    requires Idle(s)
    ensures Settled(s, Apply(s, op))
  {
    match op
    case AudioThunk(a) => AudioSettles(s, a);
    case VideoThunk(v) => VideoSettles(s, v);
    case ScreenThunk(x) => ScreenSettles(s, x);
  }

  lemma AudioSettles(s: State, op: AudioOp)
    requires Idle(s)
    ensures Settled(s, ApplyAudio(s, op))
  {
    match op
    case UpdatePreviewMic(env, upd) =>
      PreviewActions.UpdatePreviewMicBracketed(s, env, upd);
      BracketedSettles(s, ApplyAudio(s, op), Audio);
    case StopPreviewMic =>
      PreviewActions.StopPreviewMicBracketed(s);
      BracketedSettles(s, ApplyAudio(s, op), Audio);
    case UpdateAudioSettings(env) => UpdateAudioSettingsSettles(s, env);
    case UpdateMic(env, id) =>
      MicActions.UpdateMicBracketed(s, env, id);
      BracketedSettles(s, ApplyAudio(s, op), Audio);
    case StopMic =>
    case PauseMic =>
    case ResumeMic =>
  }

  lemma VideoSettles(s: State, op: VideoOp)
    requires Idle(s)
    ensures Settled(s, ApplyVideo(s, op))
  {
    match op
    case UpdatePreviewWebcam(env, upd) =>
      PreviewActions.UpdatePreviewWebcamBracketed(s, env, upd);
      BracketedSettles(s, ApplyVideo(s, op), Video);
    case StopPreviewWebcam =>
      PreviewActions.StopPreviewWebcamBracketed(s);
      BracketedSettles(s, ApplyVideo(s, op), Video);
    case UpdateVideoSettings(blur, env, previewEnv) => UpdateVideoSettingsSettles(s, blur, env, previewEnv);
    case UpdateWebcam(env, id) =>
      WebcamActions.UpdateWebcamBracketed(s, env, id);
      BracketedSettles(s, ApplyVideo(s, op), Video);
    case StopWebcam =>
    case StartExtraVideo(env, id) =>
      ExtraVideoActions.StartExtraVideoBracketed(s, env, id);
      BracketedSettles(s, ApplyVideo(s, op), Video);
    case StopExtraVideo =>
  }

  lemma ScreenSettles(s: State, op: ScreenOp)
    requires Idle(s)
    ensures Settled(s, ApplyScreen(s, op))
  {
    match op
    case UpdateScreenshareSettings(env) => UpdateScreenshareSettingsAsWrittenSettles(s, env);
    case UpdateScreenshareSettingsCorrected(env) => UpdateScreenshareSettingsSettles(s, env);
    case UpdateScreenSharing(env) =>
      ScreenActions.UpdateScreenSharingBracketed(s, env);
      BracketedSettles(s, ApplyScreen(s, op), ScreenSharing);
    case StopScreenSharing =>
  }

  /**
   * Whatever is dispatched from an idle state, each in-progress flag set
   * on entry to a thunk is cleared in its `finally`: the session ends idle
   * with as many clears as sets.
   */
  lemma {:induction false} RunSettles(s: State, ops: seq<Op>)
    requires Idle(s)
    ensures Settled(s, Run(s, ops))
    decreases |ops|
  {
    if ops != [] {
      ApplySettles(s, ops[0]);
      RunSettles(Apply(s, ops[0]).state, ops[1..]);
      AndThenSettles(s, Apply(s, ops[0]), Run(Apply(s, ops[0]).state, ops[1..]));
    }
  }

  /** Every thunk issues a run-once refresh exactly when it sets the flag guarding it. */
  lemma ApplyRefreshes(s: State, op: Op)
    ensures RefreshesAccounted(s, Apply(s, op))
  {
    match op
    case AudioThunk(a) => AudioRefreshes(s, a);
    case VideoThunk(v) => VideoRefreshes(s, v);
    case ScreenThunk(x) => ScreenLeavesRefreshes(s, x);
  }

  lemma AudioRefreshes(s: State, op: AudioOp)
    ensures RefreshesAccounted(s, ApplyAudio(s, op))
  {
    match op
    case UpdatePreviewMic(env, upd) => PreviewActions.UpdatePreviewMicRefreshes(s, env, upd);
    case StopPreviewMic => PreviewActions.StopPreviewsLeaveRefreshes(s);
    case UpdateAudioSettings(env) => SettingsActions.UpdateAudioSettingsLeavesRefreshes(s, env);
    case UpdateMic(env, id) => MicActions.UpdateMicLeavesRefreshes(s, env, id);
    case StopMic => MicActions.MicStopsLeaveRefreshes(s);
    case PauseMic => MicActions.MicStopsLeaveRefreshes(s);
    case ResumeMic => MicActions.MicStopsLeaveRefreshes(s);
  }

  lemma VideoRefreshes(s: State, op: VideoOp)
    ensures RefreshesAccounted(s, ApplyVideo(s, op))
  {
    match op
    case UpdatePreviewWebcam(env, upd) => PreviewActions.UpdatePreviewWebcamRefreshes(s, env, upd);
    case StopPreviewWebcam => PreviewActions.StopPreviewsLeaveRefreshes(s);
    case UpdateVideoSettings(blur, env, previewEnv) => SettingsActions.UpdateVideoSettingsRefreshes(s, blur, env, previewEnv);
    case UpdateWebcam(env, id) => WebcamActions.UpdateWebcamLeavesRefreshes(s, env, id);
    case StopWebcam => WebcamActions.StopWebcamLeavesRefreshes(s);
    case StartExtraVideo(env, id) => ExtraVideoActions.StartExtraVideoLeavesRefreshes(s, env, id);
    case StopExtraVideo => ExtraVideoActions.StopExtraVideoLeavesRefreshes(s);
  }

  /** No screen thunk refreshes the device list. */
  lemma ScreenLeavesRefreshes(s: State, op: ScreenOp)
    ensures LeavesRefreshes(s, ApplyScreen(s, op))
  {
    match op
    case UpdateScreenshareSettings(env) => SettingsActions.UpdateScreenshareSettingsAsWrittenLeavesRefreshes(s, env);
    case UpdateScreenshareSettingsCorrected(env) => SettingsActions.UpdateScreenshareSettingsLeavesRefreshes(s, env);
    case UpdateScreenSharing(env) => ScreenActions.UpdateScreenSharingLeavesRefreshes(s, env);
    case StopScreenSharing => ScreenActions.StopScreenSharingLeavesRefreshes(s);
  }

  /** Refreshes accounted in each dispatch are accounted over the session. */
  lemma {:induction false} RunRefreshes(s: State, ops: seq<Op>)
    ensures RefreshesAccounted(s, Run(s, ops))
    decreases |ops|
  {
    if ops != [] {
      ApplyRefreshes(s, ops[0]);
      RunRefreshes(Apply(s, ops[0]).state, ops[1..]);
      AndThenKeepsRefreshes(s, Apply(s, ops[0]), Run(Apply(s, ops[0]).state, ops[1..]));
    }
  }

  /**
   * The module-level flags make each of the four guarded device refreshes
   * happen at most once per page load, whatever is dispatched, and not at
   * all once its flag is set.
   */
  lemma RunRefreshesAtMostOnce(s: State, ops: seq<Op>, p: Phase)
    requires RunOnce(p)
    ensures Run(s, ops).calls.Refreshes(p) <= (if s.refreshed.Done(p) then 0 else 1)
  {
    RunRefreshes(s, ops);
  }

}
