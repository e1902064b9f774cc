/**
 * Track ownership. A track may be held by one of five senders or by one
 * of the two preview slots; moving a track from a preview slot into a
 * sender must leave exactly one holder. `Wf` is the invariant every thunk
 * keeps, and the lemmas here are the steps the thunks are built from.
 */
module Ownership {

  import opened Wrappers
  import opened MediaTypes
  import opened MediaState
  import opened MediaSteps

  function Holds(slot: Option<TrackId>, t: TrackId): nat
  {
    if slot == Some(t) then 1 else 0
  }

  /** How many holders (the five senders and the two preview slots) claim track `t`. */
  function HeldCount(s: State, t: TrackId): nat
  {
    Holds(s.senders.mic.track, t) + Holds(s.senders.webcam.track, t) + Holds(s.senders.screen.track, t)
    + Holds(s.senders.screenAudio.track, t) + Holds(s.senders.extraVideo.track, t)
    + Holds(s.previewMicTrack, t) + Holds(s.previewWebcamTrack, t)
  }

  /**
   * The ownership invariant: every sender owns a track exactly while it
   * runs; screen audio runs only beside screen video; no track is claimed
   * by two holders; held and effect-bound ids are below the fresh-id
   * counter; no effect output is itself wrapped; a published preview id
   * names the track the preview slot holds.
   */
  ghost predicate Wf(s: State)
  {
    && s.senders.Consistent()
    && (s.senders.screenAudio.running ==> s.senders.screen.running)
    && (forall t: TrackId :: HeldCount(s, t) <= 1)
    && (forall t: TrackId :: HeldCount(s, t) > 0 ==> t < s.nextTrack)
    && (forall o :: o in s.effects ==> o < s.nextTrack && s.effects[o] < s.nextTrack && s.effects[o] !in s.effects)
    && (s.me.previewMicTrackId.Some? ==> s.me.previewMicTrackId == s.previewMicTrack)
    && (s.me.previewWebcamTrackId.Some? ==> s.me.previewWebcamTrackId == s.previewWebcamTrack)
  }

  /** A well-formed state in which track `t` exists and nobody holds it: a track in hand. */
  ghost predicate Free(s: State, t: TrackId)
  {
    Wf(s) && HeldCount(s, t) == 0 && t < s.nextTrack
  }

  /** `Wf` looks only at the holders, the preview ids, the effects and the id counter. */
  lemma WfOnlyHolders(s: State, r: State)
    requires Wf(s)
    requires r.senders == s.senders && r.previewMicTrack == s.previewMicTrack && r.previewWebcamTrack == s.previewWebcamTrack
    requires r.me.previewMicTrackId == s.me.previewMicTrackId && r.me.previewWebcamTrackId == s.me.previewWebcamTrackId
    requires r.effects == s.effects && r.nextTrack == s.nextTrack
    ensures Wf(r)
  {
    forall u: TrackId ensures HeldCount(r, u) == HeldCount(s, u) {
    }
  }

  /** The in-progress dispatches around a thunk body touch no holder. */
  lemma GuardedKeepsWf(m: Modality, body: Step)
    requires Wf(body.state)
    ensures Wf(Guarded(m, body).state)
  {
    WfOnlyHolders(body.state, Guarded(m, body).state);
  }

  /** Parking a track in hand in the microphone preview slot, with its id published, gives it one holder. */
  lemma ParkPreviewMicKeepsWf(s: State, t: TrackId)
    requires Free(s, t)
    ensures Wf(s.(previewMicTrack := Some(t), me := s.me.(previewMicTrackId := Some(t))))
  {
    var r := s.(previewMicTrack := Some(t), me := s.me.(previewMicTrackId := Some(t)));
    forall u: TrackId ensures HeldCount(r, u) <= (if u == t then 1 else HeldCount(s, u)) {
    }
  }

  /** Parking a track in hand in the camera preview slot, with its id published, gives it one holder. */
  lemma ParkPreviewWebcamKeepsWf(s: State, t: TrackId)
    requires Free(s, t)
    ensures Wf(s.(previewWebcamTrack := Some(t), me := s.me.(previewWebcamTrackId := Some(t))))
  {
    var r := s.(previewWebcamTrack := Some(t), me := s.me.(previewWebcamTrackId := Some(t)));
    forall u: TrackId ensures HeldCount(r, u) <= (if u == t then 1 else HeldCount(s, u)) {
    }
  }

  /** Emptying the microphone preview slot and its published id keeps the invariant. */
  lemma EmptyPreviewMicKeepsWf(s: State)
    requires Wf(s)
    ensures Wf(s.(previewMicTrack := None, me := s.me.(previewMicTrackId := None)))
  {
    var r := s.(previewMicTrack := None, me := s.me.(previewMicTrackId := None));
    forall u: TrackId ensures HeldCount(r, u) <= HeldCount(s, u) {
    }
  }

  /** Emptying the camera preview slot and its published id keeps the invariant. */
  lemma EmptyPreviewWebcamKeepsWf(s: State)
    requires Wf(s)
    ensures Wf(s.(previewWebcamTrack := None, me := s.me.(previewWebcamTrackId := None)))
  {
    var r := s.(previewWebcamTrack := None, me := s.me.(previewWebcamTrackId := None));
    forall u: TrackId ensures HeldCount(r, u) <= HeldCount(s, u) {
    }
  }

  /** Withdrawing the published camera preview id keeps the invariant. */
  lemma UnpublishPreviewWebcamKeepsWf(s: State)
    requires Wf(s)
    ensures Wf(s.(me := s.me.(previewWebcamTrackId := None)))
  {
    var r := s.(me := s.me.(previewWebcamTrackId := None));
    forall u: TrackId ensures HeldCount(r, u) == HeldCount(s, u) {
    }
  }

  /** A held track exists. */
  lemma HeldIsOld(s: State, t: TrackId)
    requires Wf(s) && HeldCount(s, t) > 0
    ensures t < s.nextTrack
  {
  }

  /** A granted capture puts a new track in hand. */
  lemma CapturedFree(s: State, device: DeviceId)
    requires Wf(s)
    ensures Free(Captured(s, device), s.nextTrack)
  {
    var r := Captured(s, device);
    assert HeldCount(s, s.nextTrack) == 0;
    forall u: TrackId ensures HeldCount(r, u) == HeldCount(s, u) {
    }
  }

  /** Wrapping an unwrapped existing track puts the new effect output in hand. */
  lemma WrapFree(s: State, input: TrackId)
    requires Wf(s) && input < s.nextTrack && input !in s.effects
    ensures Free(Wrap(s, input), s.nextTrack)
  {
    var r := Wrap(s, input);
    assert HeldCount(s, s.nextTrack) == 0;
    forall u: TrackId ensures HeldCount(r, u) == HeldCount(s, u) {
    }
    forall o | o in r.effects
      ensures o < r.nextTrack && r.effects[o] < r.nextTrack && r.effects[o] !in r.effects
    {
      if o != s.nextTrack {
        assert r.effects[o] == s.effects[o];
      }
    }
  }

  /** Stopping an effect keeps the state well formed; it releases no holder. */
  lemma StopEffectOfKeepsWf(s: State, id: Option<TrackId>)
    requires Wf(s)
    ensures Wf(StopEffectOf(s, id))
  {
    var r := StopEffectOf(s, id);
    assert r == s.(effects := r.effects);
    forall u: TrackId ensures HeldCount(r, u) == HeldCount(s, u) {
    }
    forall o | o in r.effects
      ensures o < r.nextTrack && r.effects[o] < r.nextTrack && r.effects[o] !in r.effects
    {
      StopEffectOfKeepsOthers(s, id, o);
    }
  }

}
