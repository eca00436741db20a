/** The browser objects the client drives, reduced to the state its
    handlers read or change.  Their internals (SDP, ICE, media) are not
    modelled: a description or candidate is an opaque value. */
module Peer {
  import opened Protocol

  /** A captured audio or video track. */
  class MediaTrack {
    var stopped: bool

    constructor ()
      ensures !stopped
    {
      stopped := false;
    }

    /** `track.stop()`. */
    method Stop()
      modifies this
      ensures stopped
    {
      stopped := true;
    }
  }

  /** A captured camera and microphone stream. */
  class MediaStream {
    const tracks: seq<MediaTrack>

    constructor (tracks: seq<MediaTrack>)
      ensures this.tracks == tracks
    {
      this.tracks := tracks;
    }
  }

  /** An RTCPeerConnection. */
  class PeerConnection {
    /** `signalingState === "closed"`. */
    var closed: bool
    var remoteDescription: Option<Sdp>
    var localDescription: Option<Sdp>
    /** Every `addIceCandidate` call, in call order. */
    var addedCandidates: seq<Candidate>
    /** Every `addTrack` call, in call order. */
    var senders: seq<MediaTrack>

    constructor ()
      ensures !closed && remoteDescription == None && localDescription == None
      ensures addedCandidates == [] && senders == []
    {
      closed := false;
      remoteDescription, localDescription := None, None;
      addedCandidates, senders := [], [];
    }

    /** `close()`. */
    method Close()
      modifies this
      ensures closed
      ensures remoteDescription == old(remoteDescription) && localDescription == old(localDescription)
      ensures addedCandidates == old(addedCandidates) && senders == old(senders)
    {
      closed := true;
    }

    /** `addIceCandidate(c)`; the promise's outcome is only logged by the caller. */
    method AddIceCandidate(c: Candidate)
      modifies this
      ensures addedCandidates == old(addedCandidates) + [c]
      ensures closed == old(closed) && senders == old(senders)
      ensures remoteDescription == old(remoteDescription) && localDescription == old(localDescription)
    {
      addedCandidates := addedCandidates + [c];
    }

    /** `addTrack(track, stream)`. */
    method AddTrack(t: MediaTrack)
      modifies this
      ensures senders == old(senders) + [t]
      ensures closed == old(closed) && addedCandidates == old(addedCandidates)
      ensures remoteDescription == old(remoteDescription) && localDescription == old(localDescription)
    {
      senders := senders + [t];
    }
  }
}
