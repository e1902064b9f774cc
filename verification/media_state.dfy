/**
 * The abstract session state the thunks of `mediaActions.tsx` read and
 * write, the external outcomes they depend on, and the ownership invariant
 * every thunk keeps.
 */
module MediaState {

  import opened Wrappers
  import opened MediaTypes

  /** The flags of the `me` slice the thunks dispatch. */
  datatype Me = Me(
    micEnabled: bool,
    audioMuted: bool,
    webcamEnabled: bool,
    videoMuted: bool,
    screenEnabled: bool,
    screenAudioEnabled: bool,
    extraVideoEnabled: bool,
    previewMicTrackId: Option<TrackId>,
    previewWebcamTrackId: Option<TrackId>)

  /** `me.audioInProgress`, `me.videoInProgress` and `me.screenSharingInProgress`. */
  datatype InProgressFlags = InProgressFlags(audio: bool, video: bool, screenSharing: bool)
  {
    function Get(m: Modality): bool
    {
      match m
      case Audio => audio
      case Video => video
      case ScreenSharing => screenSharing
    }

    function Set(m: Modality, on: bool): (r: InProgressFlags)
      ensures r.Get(m) == on
      ensures forall m' :: m' != m ==> r.Get(m') == Get(m')
    {
      match m
      case Audio => this.(audio := on)
      case Video => this.(video := on)
      case ScreenSharing => this.(screenSharing := on)
    }
  }

  /** The parts of the settings slice that are not opaque constraint values. */
  datatype Settings = Settings(
    blurEnabled: bool,
    selectedAudioDevice: Option<DeviceId>,
    selectedVideoDevice: Option<DeviceId>)

  /** The module-level "has updated devices" flags. */
  datatype RefreshFlags = RefreshFlags(initialAudio: bool, postAudio: bool, initialVideo: bool, postVideo: bool)
  {
    /** Whether the refresh of phase `p` has already been issued; the webcam refresh is never remembered. */
    predicate Done(p: Phase)
    {
      match p
      case InitialAudio => initialAudio
      case PostAudio => postAudio
      case InitialVideo => initialVideo
      case PostVideo => postVideo
      case WebcamUpdate => false
    }
  }

  /** The phases whose refresh is guarded by a flag. */
  predicate RunOnce(p: Phase)
  {
    p != WebcamUpdate
  }

  datatype State = State(
    me: Me,
    inProgress: InProgressFlags,            // the in-progress flags of the `me` slice
    settings: Settings,
    senders: Senders,
    previewMicTrack: Option<TrackId>,       // mediaService.previewMicTrack
    previewWebcamTrack: Option<TrackId>,    // mediaService.previewWebcamTrack
    effects: map<TrackId, TrackId>,         // effectsService.effectTracks: output id to input id
    devices: map<TrackId, DeviceId>,        // the device each captured track reports
    refreshed: RefreshFlags,
    nextTrack: TrackId)                     // the id the next new track receives

  /** Outcome of `navigator.mediaDevices.getUserMedia`. */
  datatype UserMedia = Granted(device: DeviceId) | NoTrack | Rejected

  /** Outcome of `navigator.mediaDevices.getDisplayMedia`. */
  datatype DisplayMedia = Display(hasVideo: bool, hasAudio: bool) | DisplayRejected

  /** Everything a thunk learns from outside the modelled state. */
  datatype Env = Env(
    canSendMic: bool,
    canSendWebcam: bool,
    canShareScreen: bool,
    userMedia: UserMedia,
    displayMedia: DisplayMedia,
    transportsConnected: bool,   // sendTransport && recvTransport after transportsReady
    effectOk: bool)              // effectsService.applyEffect resolves

  /** The error a thunk's `catch` block logs. */
  datatype Failure = NotAllowed | CaptureFailed | NoTrackInStream | EffectFailed

  /** The result of one thunk: the new state, the calls it made, the error it swallowed. */
  datatype Step = Step(state: State, calls: Calls, caught: Option<Failure>)

  function SetInProgressFlag(s: State, m: Modality, on: bool): State
  {
    s.(inProgress := s.inProgress.Set(m, on))
  }

  /** `track.getSettings().deviceId`; a track the state knows no device for reports none. */
  function Reported(s: State, t: TrackId): Option<DeviceId>
  {
    if t in s.devices then Some(s.devices[t]) else None
  }

  /** The track an effect output was derived from, or the track itself. */
  function Origin(s: State, t: TrackId): TrackId
  {
    if t in s.effects then s.effects[t] else t
  }

  /**
   * The in-progress flag of `m` was dispatched on once and off once, ends
   * cleared, and the other two flags are untouched.
   */
  ghost predicate Bracketed(s: State, r: Step, m: Modality)
  {
    && r.calls.inProgressSets == 1
    && r.calls.inProgressClears == 1
    && !r.state.inProgress.Get(m)
    && (forall m' :: m' != m ==> r.state.inProgress.Get(m') == s.inProgress.Get(m'))
  }

  /** The refresh of phase `p` was issued in `r` exactly when its flag went from unset to set. */
  predicate RefreshAccounted(s: State, r: Step, p: Phase)
  {
    (if s.refreshed.Done(p) then 1 else 0) + r.calls.Refreshes(p)
    == (if r.state.refreshed.Done(p) then 1 else 0)
  }

  /** Every run-once refresh of `r` is accounted for by its flag. */
  predicate RefreshesAccounted(s: State, r: Step)
  {
    RefreshAccounted(s, r, InitialAudio) && RefreshAccounted(s, r, PostAudio)
    && RefreshAccounted(s, r, InitialVideo) && RefreshAccounted(s, r, PostVideo)
  }

  /** `r` neither issues a run-once refresh nor touches the flags guarding them. */
  predicate LeavesRefreshes(s: State, r: Step)
  {
    r.state.refreshed == s.refreshed && r.calls.NoGuardedRefreshes()
  }

}
