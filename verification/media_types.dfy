/**
 * Vocabulary of the media-production coordinator: the five media kinds,
 * track and device identities, the sender behaviour the thunks rely on,
 * and the calls a thunk makes on its collaborators.
 */
module MediaTypes {

  import opened Wrappers

  /** Identity of a MediaStreamTrack (`track.id`). Fresh ids come from a counter in the state. */
  type TrackId = nat

  /** A device id as reported by `track.getSettings().deviceId`. */
  type DeviceId = string

  /** The keys of `mediaService.mediaSenders`. */
  datatype Kind = Mic | Webcam | Screen | ScreenAudio | ExtraVideo

  /** The three in-progress flags of the session: audio, video and screen sharing. */
  datatype Modality = Audio | Video | ScreenSharing

  /**
   * The reasons `deviceService.updateMediaDevices()` is called: the four
   * run-once refreshes guarded by module-level flags, and the unguarded
   * refresh `updateWebcam` makes on every call.
   */
  datatype Phase = InitialAudio | PostAudio | InitialVideo | PostVideo | WebcamUpdate

  /** `Boolean(newDeviceId)`: an absent id and the empty string are both falsy. */
  predicate Given(newDeviceId: Option<DeviceId>)
  {
    newDeviceId.Some? && newDeviceId.value != ""
  }

  /**
   * A production sender as the thunks assume it behaves: `start` makes it
   * run with a track, `replaceTrack` swaps the track and keeps it running,
   * `stop` clears both.
   */
  datatype Sender = Sender(running: bool, track: Option<TrackId>)
  {
    /** A sender owns a track exactly while it runs. */
    predicate Consistent()
    {
      running <==> track.Some?
    }

    function Start(t: TrackId): Sender
    {
      Sender(true, Some(t))
    }

    function ReplaceTrack(t: TrackId): Sender
    {
      this.(track := Some(t))
    }

    function Stop(): Sender
    {
      Sender(false, None)
    }
  }

  /** `mediaService.mediaSenders`: one sender per kind. */
  datatype Senders = Senders(mic: Sender, webcam: Sender, screen: Sender, screenAudio: Sender, extraVideo: Sender)
  {
    function Get(k: Kind): Sender
    {
      match k
      case Mic => mic
      case Webcam => webcam
      case Screen => screen
      case ScreenAudio => screenAudio
      case ExtraVideo => extraVideo
    }

    predicate Consistent()
    {
      mic.Consistent() && webcam.Consistent() && screen.Consistent()
      && screenAudio.Consistent() && extraVideo.Consistent()
    }
  }

  /**
   * How many times a thunk called each collaborator: the trace of one
   * transition. Each update thunk produces one kind, so a counter per
   * collaborator call says which sender was addressed.
   */
  datatype Calls = Calls(
    initialAudioRefreshes: nat,   // deviceService.updateMediaDevices(), per guarding flag
    postAudioRefreshes: nat,
    initialVideoRefreshes: nat,
    postVideoRefreshes: nat,
    webcamRefreshes: nat,         // the unguarded refresh of updateWebcam
    previewCaptures: nat,         // getUserMedia for a preview slot
    captures: nat,                // getUserMedia / getDisplayMedia for a sender
    effectApplies: nat,           // effectsService.applyEffect
    effectStops: nat,             // effectsService.stop
    trackStops: nat,              // track.stop() on a preview track
    constraintApplies: nat,       // track.applyConstraints on a sender's track
    transportAwaits: nat,         // await mediaService.transportsReady
    starts: nat,                  // sender.start
    replacements: nat,            // sender.replaceTrack
    senderStops: nat,             // sender.stop
    pauses: nat,                  // sender.pause
    resumes: nat,                 // sender.resume
    inProgressSets: nat,          // an in-progress flag dispatched true
    inProgressClears: nat)        // an in-progress flag dispatched false
  {
    /** Refreshes issued for phase `p`. */
    function Refreshes(p: Phase): nat
    {
      match p
      case InitialAudio => initialAudioRefreshes
      case PostAudio => postAudioRefreshes
      case InitialVideo => initialVideoRefreshes
      case PostVideo => postVideoRefreshes
      case WebcamUpdate => webcamRefreshes
    }

    /** No device lookup, capture or effect: what a refused capability must never reach. */
    predicate NoDeviceAccess()
    {
      && initialAudioRefreshes == 0 && postAudioRefreshes == 0
      && initialVideoRefreshes == 0 && postVideoRefreshes == 0 && webcamRefreshes == 0
      && previewCaptures == 0 && captures == 0 && effectApplies == 0
    }

    /** None of the four refreshes guarded by a module-level flag. */
    predicate NoGuardedRefreshes()
    {
      initialAudioRefreshes == 0 && postAudioRefreshes == 0 && initialVideoRefreshes == 0 && postVideoRefreshes == 0
    }

    /** No call on any sender. */
    predicate NoSenderCalls()
    {
      starts == 0 && replacements == 0 && senderStops == 0 && pauses == 0 && resumes == 0
    }

    /** The calls of this transition followed by those of `next`. */
    function Then(next: Calls): Calls
    {
      Calls(
        initialAudioRefreshes + next.initialAudioRefreshes,
        postAudioRefreshes + next.postAudioRefreshes,
        initialVideoRefreshes + next.initialVideoRefreshes,
        postVideoRefreshes + next.postVideoRefreshes,
        webcamRefreshes + next.webcamRefreshes,
        previewCaptures + next.previewCaptures,
        captures + next.captures,
        effectApplies + next.effectApplies,
        effectStops + next.effectStops,
        trackStops + next.trackStops,
        constraintApplies + next.constraintApplies,
        transportAwaits + next.transportAwaits,
        starts + next.starts,
        replacements + next.replacements,
        senderStops + next.senderStops,
        pauses + next.pauses,
        resumes + next.resumes,
        inProgressSets + next.inProgressSets,
        inProgressClears + next.inProgressClears)
    }
  }

  const NoCalls := Calls(0, 0, 0, 0, 0, 0, 0, 0, 0, 0, 0, 0, 0, 0, 0, 0, 0, 0, 0)

  /** The calls of a thunk that only dispatched its in-progress flag on and off. */
  const OnlyDispatches := NoCalls.(inProgressSets := 1, inProgressClears := 1)

}
