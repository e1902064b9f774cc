/**
 * Steps the thunks of `mediaActions.tsx` share: the in-progress bracket of
 * `try … finally`, a granted capture, an effect wrap, an effect stop, and
 * the composition of two dispatched thunks.
 */
module MediaSteps {

  import opened Wrappers
  import opened MediaTypes
  import opened MediaState

  /** A thunk body run between the in-progress dispatch on entry and the one in `finally`. */
  function Guarded(m: Modality, body: Step): (r: Step)
    ensures r.caught == body.caught
    ensures !r.state.inProgress.Get(m)
  {
    Step(SetInProgressFlag(body.state, m, false),
         body.calls.(inProgressSets := body.calls.inProgressSets + 1,
                     inProgressClears := body.calls.inProgressClears + 1),
         body.caught)
  }

  /** A body that sets no in-progress flag itself ends bracketed once it is guarded. */
  lemma GuardedBrackets(s: State, m: Modality, body: Step)
    requires body.calls.inProgressSets == 0 && body.calls.inProgressClears == 0
    requires body.state.inProgress == SetInProgressFlag(s, m, true).inProgress
    ensures Bracketed(s, Guarded(m, body), m)
  {
    forall m' | m' != m
      ensures Guarded(m, body).state.inProgress.Get(m') == s.inProgress.Get(m')
    {
    }
  }

  /** The in-progress dispatches issue no refresh and leave the refresh flags alone. */
  lemma GuardedKeepsRefreshes(s: State, m: Modality, body: Step)
    requires RefreshesAccounted(s, body)
    ensures RefreshesAccounted(s, Guarded(m, body))
  {
  }

  /** Refreshes accounted in each of two consecutive thunks are accounted in their composition. */
  lemma AndThenKeepsRefreshes(s: State, first: Step, next: Step)
    requires RefreshesAccounted(s, first) && RefreshesAccounted(first.state, next)
    ensures RefreshesAccounted(s, AndThen(first, next))
  {
  }

  /** A granted capture yields a fresh track, id `s.nextTrack`, reporting the granted device. */
  function Captured(s: State, device: DeviceId): (r: State)
    ensures r.nextTrack == s.nextTrack + 1
    ensures Reported(r, s.nextTrack) == Some(device)
    ensures r.senders == s.senders && r.effects == s.effects && r.me == s.me && r.inProgress == s.inProgress
  {
    s.(devices := s.devices[s.nextTrack := device], nextTrack := s.nextTrack + 1)
  }

  /**
   * `effectsService.applyEffect(input)`: a fresh output track, id
   * `s.nextTrack`, whose input is `input`.
   */
  function Wrap(s: State, input: TrackId): (r: State)
    ensures r.nextTrack == s.nextTrack + 1
    ensures s.nextTrack in r.effects && Origin(r, s.nextTrack) == input
    ensures r.senders == s.senders && r.me == s.me && r.inProgress == s.inProgress
  {
    s.(effects := s.effects[s.nextTrack := input], nextTrack := s.nextTrack + 1)
  }

  /** `effectsService.stop(id)`: drops the binding of `id`; an unknown or absent id changes nothing. */
  function StopEffectOf(s: State, id: Option<TrackId>): (r: State)
    ensures id.Some? ==> id.value !in r.effects
    ensures r.effects.Keys <= s.effects.Keys
    ensures r.senders == s.senders && r.me == s.me && r.inProgress == s.inProgress
  {
    if id.Some? then s.(effects := s.effects - {id.value}) else s
  }

  /** `effectsService.stop` removes only the binding it names and keeps every other one as it was. */
  lemma StopEffectOfKeepsOthers(s: State, id: Option<TrackId>, o: TrackId)
    requires o in s.effects && id != Some(o)
    ensures o in StopEffectOf(s, id).effects && StopEffectOf(s, id).effects[o] == s.effects[o]
  {
  }

  /** The error a thunk's `catch` logs after a user-media capture that gave no track. */
  function CaptureError(media: UserMedia): (f: Failure)
    requires !media.Granted?
    ensures f == CaptureFailed <==> media.Rejected?
  {
    if media.Rejected? then CaptureFailed else NoTrackInStream
  }

  /**
   * Two thunks dispatched one after the other: the second runs on the
   * state the first left. Neither rejects, so the composite reports the
   * first error either of them swallowed.
   */
  function AndThen(first: Step, next: Step): (r: Step)
    ensures r.state == next.state
    ensures r.calls == first.calls.Then(next.calls)
    ensures r.caught.None? <==> first.caught.None? && next.caught.None?
  {
    Step(next.state, first.calls.Then(next.calls), if first.caught.Some? then first.caught else next.caught)
  }

}
