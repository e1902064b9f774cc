# Media-production coordinator

A Dafny model of the thunks in `src/store/actions/mediaActions.tsx` that
produce local media for a conference. These thunks capture the microphone,
the camera and the screen. They can run a camera track through the blur
effect. They then bind the track to one of five production senders: `mic`,
`webcam`, `screen`, `screenaudio` and `extravideo`. When the send and
receive transports do not both exist yet, the track is parked in a
preview slot instead.

How the model is built:

- Every thunk is a pure function from a `State` and an `Env` to a `Step`.
- `State` holds:
  - the `me` flags the thunks dispatch;
  - the three in-progress flags;
  - the settings the thunks read or write;
  - the five senders;
  - the two `mediaService` preview slots;
  - the effect map from output track to input track;
  - the device each captured track reports;
  - the four module-level "has updated devices" flags;
  - a counter that hands out fresh track ids.
- `Env` holds what the thunk learns from outside:
  - the capability flags;
  - the outcome of `getUserMedia` / `getDisplayMedia`;
  - whether both transports exist after `transportsReady`;
  - whether `applyEffect` resolves.
- `Step` holds:
  - the new state;
  - a `Calls` record counting every collaborator call;
  - the error the thunk's `catch` swallowed, if any.
- The thunks that dispatch other thunks compose them in sequence:
  - `updateAudioSettings`, `updateVideoSettings` and `updateScreenshareSettings`.
- `Session.Run` applies any sequence of thunks, each awaited before the
  next. `updateScreenshareSettings` is dispatched as the source writes it.
  Its corrected form (see "## Findings") is one more op a session may
  dispatch, so the session lemmas cover both.
- The ownership invariant `Ownership.Wf` ties the pieces together:
  - a sender holds a track exactly while it runs;
  - screen audio runs only beside screen video;
  - no track is held by two of the seven holders (five senders, two preview slots), so moving a preview track into a sender is a move, not a copy;
  - ids are below the fresh-id counter;
  - an effect output is never wrapped again;
  - a published preview id names the track its slot holds.

  Every thunk keeps `Wf` as written, and so does every session.

Where the prose design of the system and the code disagree, the model
follows the code:

- Only `updateWebcam` resets its kind to disabled and muted when it fails
  (lines 700-702). The prose design says every kind does.
  - A failed `updateMic` leaves the microphone flags as they were.
  - A failed `updateScreenSharing` or `startExtraVideo` leaves `me` as it was.
- `updateScreenSharing` and `startExtraVideo` never await the transports.
  `startExtraVideo` binds even when they are absent.
- `updatePreviewMic` stops and drops the previous preview track only when
  its id is published (lines 127-136). A stored track with no published id
  is overwritten without being stopped.
- `updatePreviewWebcam` releases the previous track whether or not its id
  is published (lines 248-253).

## Model

All source paths below are in `src/store/actions/mediaActions.tsx`.

| member | source | states |
|---|---|---|
| Session.RunRefreshesAtMostOnce | src/store/actions/mediaActions.tsx:41-47 | in any session of thunks, each of the four flag-guarded device refreshes is issued at most once, and not at all if its flag was already set |
| Session.RunRefreshes | src/store/actions/mediaActions.tsx:41-47 | over any session, each guarded refresh is issued exactly when its module-level flag goes from unset to set |
| Session.ApplyRefreshes | src/store/actions/mediaActions.tsx:41-47 | every single thunk issues a guarded refresh only while its flag is unset, and then sets the flag |
| Session.RunKeepsWf | src/store/actions/mediaActions.tsx:89-998 | any sequence of thunks, started from a well-formed state, keeps the ownership invariant: no track is held twice, senders hold a track exactly while running, published preview ids match their slots |
| Session.ApplyKeepsWf | src/store/actions/mediaActions.tsx:89-998 | each of the seventeen thunks as written keeps the ownership invariant, and so does the corrected `updateScreenshareSettings` |
| Session.RunSettles | src/store/actions/mediaActions.tsx:89-998 | starting from no operation in progress, any session ends with all three in-progress flags cleared, with as many clears dispatched as sets |
| Session.ApplySettles | src/store/actions/mediaActions.tsx:89-998 | each thunk, including the settings thunks that dispatch others, leaves an idle state idle and dispatches every in-progress set with a matching clear |
| PreviewActions.UpdatePreviewMic | src/store/actions/mediaActions.tsx:89-174 | succeeds exactly when the capture is granted; then the preview slot holds the new track and its id is published |
| PreviewActions.UpdatePreviewMicBracketed | src/store/actions/mediaActions.tsx:101-173 | the audio in-progress flag is set on entry and cleared in `finally` on every path; the other two flags are untouched |
| PreviewActions.UpdatePreviewMicFrame | src/store/actions/mediaActions.tsx:89-174 | a microphone preview touches no sender, effect or camera preview, and makes one preview capture and no sender call |
| PreviewActions.UpdatePreviewMicRefreshes | src/store/actions/mediaActions.tsx:116-159 | the initial and post-capture audio refreshes are each issued only while their flag is unset, and they set it |
| PreviewActions.UpdatePreviewMicOutcome | src/store/actions/mediaActions.tsx:138-168 | the swallowed error matches the capture failure; with `updateSelection` the selected microphone becomes the captured track's device; without it the settings are unchanged |
| PreviewActions.UpdatePreviewMicReleasesOld | src/store/actions/mediaActions.tsx:127-136 | the old preview track is stopped, and dropped even if the capture then fails, exactly when it exists and its id is published; otherwise it stays in the slot |
| PreviewActions.UpdatePreviewMicKeepsWf | src/store/actions/mediaActions.tsx:127-168 | the microphone preview keeps the ownership invariant |
| PreviewActions.StopPreviewMic | src/store/actions/mediaActions.tsx:182-201 | with a published id, the slot and the id are emptied; a track is stopped exactly when both the id and the track exist |
| PreviewActions.StopPreviewMicFrame | src/store/actions/mediaActions.tsx:189-198 | no device access and no sender call; without a published id only the in-progress flag is dispatched |
| PreviewActions.StopPreviewMicBracketed | src/store/actions/mediaActions.tsx:189-200 | the audio in-progress flag is dispatched on and then off |
| PreviewActions.StopPreviewMicKeepsWf | src/store/actions/mediaActions.tsx:193-198 | stopping the microphone preview keeps the ownership invariant |
| PreviewActions.UpdatePreviewWebcam | src/store/actions/mediaActions.tsx:211-289 | succeeds exactly when the capture is granted and, with blur on, the effect resolves; the slot and published id then name the effect output (blur on) or the capture |
| PreviewActions.UpdatePreviewWebcamBracketed | src/store/actions/mediaActions.tsx:223-288 | the video in-progress flag is set on entry and cleared in `finally` on every path |
| PreviewActions.UpdatePreviewWebcamFrame | src/store/actions/mediaActions.tsx:211-289 | a camera preview touches no sender and no microphone preview, and keeps the blur setting |
| PreviewActions.UpdatePreviewWebcamCalls | src/store/actions/mediaActions.tsx:255-265 | exactly one capture, for the preview, no sender call, and never the camera's unguarded refresh |
| PreviewActions.UpdatePreviewWebcamKeepsFlags | src/store/actions/mediaActions.tsx:211-289 | a preview neither enables nor unmutes the camera |
| PreviewActions.UpdatePreviewWebcamRefreshes | src/store/actions/mediaActions.tsx:236-280 | the initial and post-capture video refreshes are each issued only while their flag is unset, and they set it |
| PreviewActions.UpdatePreviewWebcamEffect | src/store/actions/mediaActions.tsx:273 | the effect is applied once exactly when blur is on and the capture was granted; on success the output maps back to the fresh capture |
| PreviewActions.UpdatePreviewWebcamOutcome | src/store/actions/mediaActions.tsx:263-283 | the swallowed error is the capture failure or the effect failure; the selected camera is the raw capture's device, never the effect output's |
| PreviewActions.UpdatePreviewWebcamReleasesOld | src/store/actions/mediaActions.tsx:248-253 | any previous preview track is stopped together with its effect exactly when it exists, and is gone even if the capture then fails |
| PreviewActions.UpdatePreviewWebcamKeepsWf | src/store/actions/mediaActions.tsx:248-283 | the camera preview keeps the ownership invariant |
| PreviewActions.StopPreviewWebcam | src/store/actions/mediaActions.tsx:297-321 | with a published id, the slot and the id are emptied; a track is stopped exactly when both exist |
| PreviewActions.StopPreviewWebcamStopsEffect | src/store/actions/mediaActions.tsx:308-318 | the effect of the released track is stopped with it and the track no longer has an effect binding |
| PreviewActions.StopPreviewWebcamFrame | src/store/actions/mediaActions.tsx:304-318 | no device access and no sender call; without a published id only the in-progress flag is dispatched |
| PreviewActions.StopPreviewWebcamBracketed | src/store/actions/mediaActions.tsx:304-320 | the video in-progress flag is dispatched on and then off |
| PreviewActions.StopPreviewWebcamKeepsWf | src/store/actions/mediaActions.tsx:308-318 | stopping the camera preview keeps the ownership invariant |
| PreviewActions.StopPreviewsLeaveRefreshes | src/store/actions/mediaActions.tsx:182-321 | stopping a preview issues no guarded refresh and leaves the refresh flags alone |
| MicActions.UpdateMic | src/store/actions/mediaActions.tsx:356-480 | succeeds exactly when the capability is present and either nothing is (re)started, the preview track is reused for a start, or the capture is granted; on success the microphone is enabled and unmuted |
| MicActions.UpdateMicBracketed | src/store/actions/mediaActions.tsx:363-479 | the audio in-progress flag is set on entry and cleared in `finally` on every path |
| MicActions.UpdateMicNotAllowed | src/store/actions/mediaActions.tsx:371-373 | without `canSendMic` the thunk fails with nothing changed but the in-progress dispatches: no device access, no sender call |
| MicActions.UpdateMicReconstrains | src/store/actions/mediaActions.tsx:462-471 | when the sender runs and no device id is given, there is no capture and no start or replace, only `applyConstraints` on the sender's track if it has one |
| MicActions.UpdateMicCaptures | src/store/actions/mediaActions.tsx:394-428 | a start or replace captures once, or not at all when a start reuses the preview track, and awaits the transports once on success |
| MicActions.UpdateMicBinds | src/store/actions/mediaActions.tsx:445-460 | with both transports, a successful start or replace calls `replaceTrack` when the sender runs and `start` otherwise, exactly once |
| MicActions.UpdateMicMovesTrack | src/store/actions/mediaActions.tsx:415-460 | the sender runs with the acquired track (the preview track when a start reuses it, else the fresh capture), the preview slot no longer holds it and the preview id is cleared |
| MicActions.UpdateMicDefers | src/store/actions/mediaActions.tsx:436-474 | without both transports no sender is touched; on success the track is parked in the preview slot with its id published, and the microphone still ends enabled and unmuted |
| MicActions.UpdateMicFailureKeepsFlags | src/store/actions/mediaActions.tsx:473-476 | a failed attempt leaves the enabled and muted flags and the senders as they were, and binds nothing |
| MicActions.UpdateMicSelectsTrackDevice | src/store/actions/mediaActions.tsx:422-424 | the selected microphone ends as the device the acquired track reports, whether it was captured or taken from the preview |
| MicActions.UpdateMicKeepsWf | src/store/actions/mediaActions.tsx:394-461 | starting or replacing the microphone keeps the ownership invariant |
| MicActions.UpdateMicLeavesRefreshes | src/store/actions/mediaActions.tsx:356-480 | `updateMic` issues no guarded refresh and leaves the refresh flags alone |
| MicActions.StopMic | src/store/actions/mediaActions.tsx:482-492 | the mic sender is stopped and holds no track; the microphone ends disabled and muted; the only call is one sender stop |
| MicActions.StopMicFrame | src/store/actions/mediaActions.tsx:489-491 | only the mic sender and the two microphone flags change, and stopping again changes nothing |
| MicActions.StopMicKeepsWf | src/store/actions/mediaActions.tsx:489-491 | stopping the microphone keeps the ownership invariant |
| MicActions.PauseMic | src/store/actions/mediaActions.tsx:494-503 | the microphone ends muted; the only call is one sender pause |
| MicActions.ResumeMic | src/store/actions/mediaActions.tsx:505-514 | the microphone ends unmuted; the only call is one sender resume |
| MicActions.PauseResumeRestores | src/store/actions/mediaActions.tsx:494-514 | pausing then resuming gives back the state with the microphone unmuted, and exactly the original state when it was unmuted; neither touches the senders |
| MicActions.PauseMicKeepsWf | src/store/actions/mediaActions.tsx:501-502 | pausing keeps the ownership invariant |
| MicActions.ResumeMicKeepsWf | src/store/actions/mediaActions.tsx:512-513 | resuming keeps the ownership invariant |
| MicActions.MicStopsLeaveRefreshes | src/store/actions/mediaActions.tsx:482-514 | stop, pause and resume issue no guarded refresh and leave the refresh flags alone |
| WebcamActions.UpdateWebcam | src/store/actions/mediaActions.tsx:550-708 | succeeds exactly when the capability is present and either nothing is (re)started, or a track is acquired (the preview track on a start, else a granted capture) and, when blur wraps it, the effect resolves; on success the camera ends enabled and unmuted; on any failure it ends disabled and muted, ready for a retry |
| WebcamActions.WebcamAcquiresCapture | src/store/actions/mediaActions.tsx:597-622 | in a well-formed state a fresh capture is never an effect output, so the capture path succeeds exactly when the capture is granted and, with blur on, the effect resolves |
| WebcamActions.UpdateWebcamBracketed | src/store/actions/mediaActions.tsx:558-706 | the video in-progress flag is set on entry and cleared in `finally` on every path |
| WebcamActions.UpdateWebcamNotAllowed | src/store/actions/mediaActions.tsx:566-570 | without `canSendWebcam` the thunk fails with no device access and no sender call; only the camera flags are reset and the in-progress flag dispatched |
| WebcamActions.UpdateWebcamReconstrains | src/store/actions/mediaActions.tsx:680-690 | when the sender runs and no device id is given: no capture, no effect, no start or replace; `applyConstraints` on the webcam and the extra-video tracks where they exist |
| WebcamActions.UpdateWebcamCaptures | src/store/actions/mediaActions.tsx:584-611 | a start or replace refreshes the devices once, unguarded, and captures once, or not at all when a start reuses the preview track |
| WebcamActions.UpdateWebcamBlursOnce | src/store/actions/mediaActions.tsx:617-622 | once a track is acquired, the effect is applied exactly when blur is on and the track is not already an effect output |
| WebcamActions.UpdateWebcamKeepsEffectOutput | src/store/actions/mediaActions.tsx:617-625 | starting from a blurred preview track succeeds without a new effect, and the sender (or, without transports, the preview slot) holds that same track |
| WebcamActions.UpdateWebcamSelectsInputDevice | src/store/actions/mediaActions.tsx:618-629 | when a start reuses the preview track, the selected camera is the device of the effect's input track, not of the effect output |
| WebcamActions.UpdateWebcamSelectsCapturedDevice | src/store/actions/mediaActions.tsx:618-629 | with a fresh capture the selected camera is the captured device. The requires that the fresh id has no effect binding holds in every well-formed state |
| WebcamActions.UpdateWebcamBinds | src/store/actions/mediaActions.tsx:661-677 | with both transports, a successful start or replace calls `replaceTrack` (stopping the old track's effect) when the sender runs and `start` otherwise, exactly once |
| WebcamActions.UpdateWebcamMovesTrack | src/store/actions/mediaActions.tsx:615-677 | the sender runs with the acquired track, or with its new effect output when blurred; the preview slot no longer holds it and the preview id is cleared. The requires that the preview id is below the fresh-id counter holds in every well-formed state |
| WebcamActions.UpdateWebcamStopsReplacedEffect | src/store/actions/mediaActions.tsx:661-666 | a successful replace leaves the replaced track with no effect binding |
| WebcamActions.UpdateWebcamDefers | src/store/actions/mediaActions.tsx:652-694 | without both transports no sender is touched; on success the track is parked in the preview slot with its id published, and the camera still ends enabled and unmuted |
| WebcamActions.UpdateWebcamFailureBindsNothing | src/store/actions/mediaActions.tsx:696-703 | a failed attempt leaves the senders as they were and calls neither `start` nor `replaceTrack` |
| WebcamActions.UpdateWebcamFrame | src/store/actions/mediaActions.tsx:593-611 | `updateWebcam` never captures for a preview slot |
| WebcamActions.UpdateWebcamKeepsBlur | src/store/actions/mediaActions.tsx:571-629 | `updateWebcam` never changes the blur setting |
| WebcamActions.UpdateWebcamFromIdle | src/store/actions/mediaActions.tsx:560-677 | when the sender is idle, `replaceTrack` is never called |
| WebcamActions.UpdateWebcamKeepsWf | src/store/actions/mediaActions.tsx:593-679 | starting or replacing the camera keeps the ownership invariant, and a blurred track is never wrapped twice |
| WebcamActions.UpdateWebcamLeavesRefreshes | src/store/actions/mediaActions.tsx:581-585 | the refresh of `updateWebcam` is unguarded: it issues none of the four guarded refreshes and leaves their flags alone |
| WebcamActions.StopWebcam | src/store/actions/mediaActions.tsx:710-720 | the webcam sender is stopped and holds no track; its old track has no effect binding; the camera ends disabled with its muted flag kept |
| WebcamActions.StopWebcamFrame | src/store/actions/mediaActions.tsx:717-719 | one effect stop and one sender stop; only the webcam sender changes, and stopping again changes nothing |
| WebcamActions.StopWebcamKeepsWf | src/store/actions/mediaActions.tsx:717-718 | stopping the camera keeps the ownership invariant |
| WebcamActions.StopWebcamLeavesRefreshes | src/store/actions/mediaActions.tsx:710-720 | `stopWebcam` issues no refresh |
| ScreenActions.UpdateScreenSharing | src/store/actions/mediaActions.tsx:753-881 | succeeds exactly when the capability is present and either the share already runs or the display capture has a video track; a failure changes no sender and no `me` flag |
| ScreenActions.UpdateScreenSharingBracketed | src/store/actions/mediaActions.tsx:760-880 | the screen-sharing in-progress flag is set on entry and cleared in `finally` on every path |
| ScreenActions.UpdateScreenSharingNotAllowed | src/store/actions/mediaActions.tsx:768-771 | without `canShareScreen` the thunk fails with nothing changed but the in-progress dispatches |
| ScreenActions.UpdateScreenSharingNeedsVideo | src/store/actions/mediaActions.tsx:810-814 | a display capture without video fails after the one capture and before any sender start, and leaves the senders and the screen flag alone |
| ScreenActions.UpdateScreenSharingAudioOptional | src/store/actions/mediaActions.tsx:841-860 | with video, the screen sender starts and the screen is enabled; screen audio starts and is enabled only when the capture has audio, and its absence is no failure |
| ScreenActions.UpdateScreenSharingReconstrains | src/store/actions/mediaActions.tsx:861-875 | a running share is not recaptured: `applyConstraints` on the screen and screen-audio tracks where they exist, with senders and flags unchanged |
| ScreenActions.UpdateScreenSharingKeepsWf | src/store/actions/mediaActions.tsx:790-860 | starting a share keeps the ownership invariant, including screen audio running only beside screen video |
| ScreenActions.UpdateScreenSharingLeavesRefreshes | src/store/actions/mediaActions.tsx:753-881 | screen sharing issues no device refresh |
| ScreenActions.StopScreenSharing | src/store/actions/mediaActions.tsx:883-894 | both the screen and the screen-audio senders are stopped and both flags cleared, with exactly two sender stops |
| ScreenActions.StopScreenSharingFrame | src/store/actions/mediaActions.tsx:890-893 | the other three senders are untouched, and stopping again changes nothing |
| ScreenActions.StopScreenSharingKeepsWf | src/store/actions/mediaActions.tsx:890-891 | stopping the share keeps the ownership invariant |
| ScreenActions.StopScreenSharingLeavesRefreshes | src/store/actions/mediaActions.tsx:883-894 | stopping the share issues no refresh |
| ScreenActions.ScreenThunksKeepFlagsAgree | src/store/actions/mediaActions.tsx:841-893 | while screen audio runs only beside screen video, starting or stopping the share keeps each of the two `me` flags equal to whether its sender runs |
| ExtraVideoActions.StartExtraVideo | src/store/actions/mediaActions.tsx:904-986 | succeeds exactly when the capability is present and either nothing is (re)started, or the capture is granted and, with blur on, the effect resolves; success enables extra video; failure changes no sender and no `me` flag |
| ExtraVideoActions.StartExtraVideoBracketed | src/store/actions/mediaActions.tsx:911-985 | the video in-progress flag is set on entry and cleared in `finally` on every path |
| ExtraVideoActions.StartExtraVideoNotAllowed | src/store/actions/mediaActions.tsx:919-921 | without `canSendWebcam` the thunk fails with nothing changed but the in-progress dispatches |
| ExtraVideoActions.StartExtraVideoBinds | src/store/actions/mediaActions.tsx:934-972 | a start or replace captures once and never awaits the transports; on success it blurs once exactly when enabled, the sender runs with the (blurred) new track, and `replaceTrack` or `start` is called according to whether the sender ran |
| ExtraVideoActions.StartExtraVideoStopsReplacedEffect | src/store/actions/mediaActions.tsx:951-955 | a successful replace stops the replaced track's effect, which then has no effect binding |
| ExtraVideoActions.StartExtraVideoReconstrains | src/store/actions/mediaActions.tsx:973-980 | a running sender with no device id given is only re-constrained, and the thunk succeeds |
| ExtraVideoActions.StartExtraVideoKeepsWf | src/store/actions/mediaActions.tsx:934-972 | starting or replacing extra video keeps the ownership invariant |
| ExtraVideoActions.StartExtraVideoLeavesRefreshes | src/store/actions/mediaActions.tsx:904-986 | extra video issues no device refresh |
| ExtraVideoActions.StopExtraVideo | src/store/actions/mediaActions.tsx:988-998 | the sender is stopped, its old track has no effect binding, extra video ends disabled; one effect stop and one sender stop |
| ExtraVideoActions.StopExtraVideoFrame | src/store/actions/mediaActions.tsx:995-997 | only the extra-video sender changes, and stopping again changes nothing |
| ExtraVideoActions.StopExtraVideoKeepsWf | src/store/actions/mediaActions.tsx:995-996 | stopping extra video keeps the ownership invariant |
| ExtraVideoActions.StopExtraVideoLeavesRefreshes | src/store/actions/mediaActions.tsx:988-998 | stopping extra video issues no refresh |
| SettingsActions.UpdateAudioSettings | src/store/actions/mediaActions.tsx:331-346 | with the microphone disabled, the thunk only stops the mic sender and leaves it stopped and the microphone disabled |
| SettingsActions.UpdateAudioSettingsRestarts | src/store/actions/mediaActions.tsx:339-345 | with the microphone enabled and a track obtainable, it is stopped and started afresh (never replaced), ends enabled and unmuted, and runs exactly when both transports exist |
| SettingsActions.UpdateAudioSettingsKeepsWf | src/store/actions/mediaActions.tsx:339-345 | the audio settings thunk keeps the ownership invariant |
| SettingsActions.UpdateAudioSettingsLeavesRefreshes | src/store/actions/mediaActions.tsx:331-346 | the audio settings thunk issues no guarded refresh |
| SettingsActions.VideoStopped | src/store/actions/mediaActions.tsx:533-536 | after the forced stop the webcam sender is idle and the camera disabled, with the settings kept |
| SettingsActions.VideoStoppedCalls | src/store/actions/mediaActions.tsx:534-536 | the forced stop makes no device access and no start or replace |
| SettingsActions.UpdateVideoSettingsWritesBlur | src/store/actions/mediaActions.tsx:530-539 | the blur setting ends as the one given, or as before when none is given |
| SettingsActions.UpdateVideoSettingsReopensPreview | src/store/actions/mediaActions.tsx:531-539 | a preview capture is made exactly when a preview id was published before the call |
| SettingsActions.UpdateVideoSettingsRestartsOnlyEnabled | src/store/actions/mediaActions.tsx:530-538 | the camera is recaptured only when it was enabled; `UpdateVideoSettingsRestartsEnabled` states the converse |
| SettingsActions.UpdateVideoSettingsRestartsEnabled | src/store/actions/mediaActions.tsx:530-538 | `updateWebcam` runs exactly when the camera was enabled and may be sent; an enabled camera with a granted capture, and the effect resolving when the new blur setting asks for it, ends enabled and unmuted |
| SettingsActions.UpdateVideoSettingsNeverReplaces | src/store/actions/mediaActions.tsx:534-538 | the camera is stopped before it is restarted, so `replaceTrack` is never called |
| SettingsActions.UpdateVideoSettingsKeepsDisabledIdle | src/store/actions/mediaActions.tsx:530-539 | a disabled camera ends with an idle webcam sender |
| SettingsActions.UpdateVideoSettingsKeepsDisabledOff | src/store/actions/mediaActions.tsx:530-539 | a disabled camera stays disabled |
| SettingsActions.UpdateVideoSettingsStartsOnlyEnabled | src/store/actions/mediaActions.tsx:530-539 | a disabled camera is never started |
| SettingsActions.UpdateVideoSettingsKeepsWf | src/store/actions/mediaActions.tsx:530-539 | the video settings thunk keeps the ownership invariant |
| SettingsActions.UpdateVideoSettingsRefreshes | src/store/actions/mediaActions.tsx:524-540 | through the nested webcam and preview thunks, each guarded refresh is issued exactly when its flag goes from unset to set |
| SettingsActions.UpdateScreenshareSettingsAsWritten | src/store/actions/mediaActions.tsx:729-743 | as written: whenever the screen flag ends cleared, either the screen sender is unchanged or the share was already disabled |
| SettingsActions.ScreenshareSettingsAsWrittenDesyncs | src/store/actions/mediaActions.tsx:737-742 | as written, a running share whose flag agrees with its sender ends still running with the screen flag cleared |
| SettingsActions.ScreenshareSettingsAsWrittenExample | src/store/actions/mediaActions.tsx:737-742 | a concrete running share on which the code as written leaves the sender running and the flag false |
| SettingsActions.UpdateScreenshareSettingsAsWrittenKeepsWf | src/store/actions/mediaActions.tsx:737-742 | the thunk as written keeps the ownership invariant |
| SettingsActions.UpdateScreenshareSettingsAsWrittenLeavesRefreshes | src/store/actions/mediaActions.tsx:729-743 | the thunk as written issues no refresh |
| Session.UpdateScreenshareSettingsAsWrittenSettles | src/store/actions/mediaActions.tsx:737-742 | the thunk as written leaves an idle state idle: its flag write is outside the bracketed `updateScreenSharing` dispatch |
| SettingsActions.UpdateScreenshareSettings | src/store/actions/mediaActions.tsx:729-743 | corrected: a disabled share ends with an idle screen sender and no capture |
| SettingsActions.ScreenshareSettingsKeepsFlagsAgree | src/store/actions/mediaActions.tsx:737-742 | corrected: the screen flags keep agreeing with their senders |
| SettingsActions.ScreenshareSettingsRestartsOnlyEnabled | src/store/actions/mediaActions.tsx:737-742 | corrected: both screen senders are stopped, and the share is recaptured exactly when it was enabled and allowed |
| SettingsActions.UpdateScreenshareSettingsKeepsWf | src/store/actions/mediaActions.tsx:737-742 | the corrected screen settings thunk keeps the ownership invariant |
| SettingsActions.UpdateScreenshareSettingsLeavesRefreshes | src/store/actions/mediaActions.tsx:729-743 | the corrected screen settings thunk issues no refresh |

## Left out

- The transcription thunks (lines 49-79) and the application shell: they produce no media.
- Constraint values: resolution, frame rate, aspect ratio, audio processing and codec options. `getVideoConstrains` and `getEncodings` only shape these values, so they are not modelled. Settings other than blur and the selected devices are opaque.
- The `config.simulcast` and `config.simulcastSharing` branches: both call the same `start`, and they differ only in encodings.
- `deviceService.getDeviceId`: the id it picks is only a hint to the capture. The device a track actually reports comes from `Env`. A missing device only logs a warning.
- Logging and `console` output, including the `transportState === 'new'` messages.
- Rejections of `start`, `replaceTrack`, `applyConstraints`, `updateMediaDevices` and `transportsReady`: the model assumes they resolve. Only the capture and the effect can fail.
- Order of calls within one thunk: `Calls` counts calls but does not record order.
  - StopWebcam, StopExtraVideo: stop the effect and then the sender. The contract states that both happen, not in which order.
- Interleaving of concurrent thunks: the source sets the in-progress flags but never checks them. `Session.Run` awaits each thunk before the next.
- Track objects: `track.stop()` is counted, and a stopped track leaves its slot, but the model keeps no stopped state per track. The tracks of a display stream that fails for lack of video are not modelled.
- The transport sender internals, the effects pipeline internals and the device enumeration: these services are not part of this model. Each appears only through the outcomes in `Env` and the calls counted in `Calls`.
- PreviewActions.UpdatePreviewWebcamKeepsFlags: states only that the camera's enabled and muted flags are kept. It does not claim that `me` is unchanged apart from the preview id.
- SettingsActions.UpdateAudioSettings: the `settings` argument is opaque. The contract states the disabled case, and `UpdateAudioSettingsRestarts` states the enabled case when a track can be obtained.

## Findings

| source | as written | input that shows it | evidently intended | confidence | as-written member | corrected member |
|---|---|---|---|---|---|---|
| src/store/actions/mediaActions.tsx:729-743 | `updateScreenshareSettings` clears `screenEnabled` and dispatches `updateScreenSharing` without stopping the share. The sender is still running, so `updateScreenSharing` takes its re-constrain path and never sets the flag again | a running screen share with `screenEnabled` true (`ScreenshareSettingsAsWrittenExample`) | keep the flag matching the sender. The model's fix stops both screen senders and restarts, as `updateAudioSettings` and `updateVideoSettings` do; this prompts for the display again. An equally plausible fix restores `screenEnabled` on the re-constrain path | not executed | SettingsActions.UpdateScreenshareSettingsAsWritten | SettingsActions.UpdateScreenshareSettings |
