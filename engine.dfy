/**
 * The media engine (mediasoup) as the gateway sees it: it issues fresh ids for the
 * routers, transports, producers and consumers it creates, and it records which
 * handles have been closed, paused or connected. Codecs, RTP and DTLS parameters and
 * packet forwarding are not part of this model.
 */
module Engine {
  import opened Registry

  class MediaEngine {
    /** Every id issued so far is below `next`. */
    var next: nat
    /** Handles whose `close()` has been called. */
    var closed: set<Id>
    /** Producers and consumers currently paused. */
    var paused: set<Id>
    /** Transports whose `connect()` has been called. */
    var connected: set<Id>

    constructor ()
      ensures next == 0 && closed == {} && paused == {} && connected == {}
    {
      next := 0;
      closed := {};
      paused := {};
      connected := {};
    }

    /** createRouter, createWebRtcTransport, produce: a new object with a fresh id. */
    method Create() returns (id: Id)
      modifies this
      ensures id == old(next) && next == old(next) + 1
      ensures closed == old(closed) && paused == old(paused) && connected == old(connected)
    {
      id := next;
      next := next + 1;
    }

    /** transport.consume({paused: true}): a new consumer, created paused. */
    method CreatePaused() returns (id: Id)
      modifies this
      ensures id == old(next) && next == old(next) + 1
      ensures paused == old(paused) + {id}
      ensures closed == old(closed) && connected == old(connected)
    {
      id := next;
      next := next + 1;
      paused := paused + {id};
    }

    method Close(id: Id)
      modifies this
      ensures closed == old(closed) + {id}
      ensures next == old(next) && paused == old(paused) && connected == old(connected)
    {
      closed := closed + {id};
    }

    method Pause(id: Id)
      modifies this
      ensures paused == old(paused) + {id}
      ensures next == old(next) && closed == old(closed) && connected == old(connected)
    {
      paused := paused + {id};
    }

    method Resume(id: Id)
      modifies this
      ensures paused == old(paused) - {id}
      ensures next == old(next) && closed == old(closed) && connected == old(connected)
    {
      paused := paused - {id};
    }

    method Connect(id: Id)
      modifies this
      ensures connected == old(connected) + {id}
      ensures next == old(next) && closed == old(closed) && paused == old(paused)
    {
      connected := connected + {id};
    }
  }
}
