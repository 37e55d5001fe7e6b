/**
 The per-peer handshake state machine of a browser. The transitions are
 functions on the table of sessions; the class keeps that table and changes it
 in place. Display names are not kept.
 */
module PeerSession {
  import opened Wrappers

  /** A fingerprint. Distinct fingerprints are distinct numbers. */
  type Fp = nat

  type Key = seq<Byte>

  datatype State = DISCONNECTED | ROOM_JOINED | KEY_PENDING | KEY_SENT | READY

  datatype Session = Session(state: State, publicKeyReceived: Option<Key>, sharedSecretReady: bool)

  type Sessions = map<Fp, Session>

  function Peek(m: Sessions, fp: Fp): Option<Session> {
    if fp in m then Some(m[fp]) else None
  }

  /** Our key went out to this peer during the current handshake. */
  predicate Sent(s: Option<Session>) {
    s.Some? && (s.value.state == KEY_SENT || s.value.state == READY)
  }

  predicate Ready(s: Option<Session>) {
    s.Some? && s.value.state == READY
  }

  // The transitions.

  function ResetAll(m: Sessions, state: State): Sessions {
    map fp | fp in m :: Session(state, None, false)
  }

  function PeerJoined(m: Sessions, fp: Fp): Sessions {
    m[fp := Session(KEY_SENT, None, false)]
  }

  /** A received key makes the session READY; our own key is sent only if it has not gone out yet. */
  function KeyReceived(m: Sessions, fp: Fp, key: Key): Sessions {
    m[fp := Session(READY, Some(key), fp in m && m[fp].sharedSecretReady)]
  }

  predicate AnswersKey(m: Sessions, fp: Fp) {
    !Sent(Peek(m, fp))
  }

  function SecretReady(m: Sessions, fp: Fp): Sessions {
    if Ready(Peek(m, fp)) then m[fp := m[fp].(sharedSecretReady := true)] else m
  }

  function PeerLeft(m: Sessions, fp: Fp): Sessions {
    m - {fp}
  }

  predicate IsReady(m: Sessions, fp: Fp) {
    fp in m && m[fp].state == READY && m[fp].sharedSecretReady
  }

  function ReadyPeers(m: Sessions): set<Fp> {
    set fp | fp in m && m[fp].state == READY
  }

  class PeerSessionManager {
    var sessions: Sessions
    /** Whether a send callback is installed, and how often it has been called. */
    var wired: bool
    var keysSent: nat

    constructor ()
      ensures sessions == map[] && !wired && keysSent == 0
    {
      sessions := map[];
      wired := false;
      keysSent := 0;
    }

    method SetSendKeyExchange()
      modifies this`wired
      ensures wired
    {
      wired := true;
    }

    /** Calls the callback if there is one; the state advances either way. */
    method BroadcastKeyExchange(fp: Fp)
      requires fp in sessions
      modifies this`sessions, this`keysSent
      ensures sessions == old(sessions)[fp := old(sessions)[fp].(state := KEY_SENT)]
      ensures keysSent == old(keysSent) + if wired then 1 else 0
    {
      if wired {
        keysSent := keysSent + 1;
      }
      sessions := sessions[fp := sessions[fp].(state := KEY_SENT)];
    }

    method SetAll(state: State)
      modifies this`sessions
      ensures sessions == ResetAll(old(sessions), state)
    {
      var todo := sessions.Keys;
      while todo != {}
        invariant todo <= old(sessions).Keys == sessions.Keys
        invariant forall fp :: fp in todo ==> sessions[fp] == old(sessions)[fp]
        invariant forall fp :: fp in sessions.Keys - todo ==> sessions[fp] == Session(state, None, false)
        decreases todo
      {
        var fp :| fp in todo;
        sessions := sessions[fp := Session(state, None, false)];
        todo := todo - {fp};
      }
    }

    method OnRoomJoined()
      modifies this`sessions
      ensures sessions == ResetAll(old(sessions), ROOM_JOINED) && sessions.Keys == old(sessions).Keys
      ensures forall fp :: fp in sessions ==> sessions[fp] == Session(ROOM_JOINED, None, false)
    {
      SetAll(ROOM_JOINED);
    }

    method OnDisconnected()
      modifies this`sessions
      ensures sessions == ResetAll(old(sessions), DISCONNECTED) && sessions.Keys == old(sessions).Keys
      ensures forall fp :: fp in sessions ==> sessions[fp] == Session(DISCONNECTED, None, false)
    {
      SetAll(DISCONNECTED);
    }

    method OnPeerJoined(fp: Fp) returns (handled: bool)
      modifies this`sessions, this`keysSent
      ensures handled && sessions == PeerJoined(old(sessions), fp)
      ensures sessions == old(sessions)[fp := Session(KEY_SENT, None, false)]
      ensures keysSent == old(keysSent) + if wired then 1 else 0
    {
      if fp !in sessions {
        sessions := sessions[fp := Session(ROOM_JOINED, None, false)];
      }
      sessions := sessions[fp := sessions[fp].(publicKeyReceived := None)];
      sessions := sessions[fp := sessions[fp].(sharedSecretReady := false)];
      BroadcastKeyExchange(fp);
      handled := true;
    }

    /** `decoded` is None when the key is not valid base64. */
    method OnKeyReceived(fp: Fp, decoded: Option<Key>) returns (key: Option<Key>)
      modifies this`sessions, this`keysSent
      ensures key == decoded
      ensures decoded.None? ==> sessions == old(sessions) && keysSent == old(keysSent)
      ensures decoded.Some? ==> sessions == KeyReceived(old(sessions), fp, decoded.value)
      ensures decoded.Some? ==>
                && sessions.Keys == old(sessions).Keys + {fp}
                && sessions[fp].state == READY && sessions[fp].publicKeyReceived == decoded
                && (sessions[fp].sharedSecretReady <==> fp in old(sessions) && old(sessions)[fp].sharedSecretReady)
                && forall x :: x in old(sessions) && x != fp ==> sessions[x] == old(sessions)[x]
      ensures decoded.Some? ==>
                keysSent == old(keysSent)
                            + if wired && !(fp in old(sessions) && old(sessions)[fp].state in {KEY_SENT, READY}) then 1
                              else 0
    {
      key := decoded;
      if decoded.None? {
        return;
      }
      if fp !in sessions {
        sessions := sessions[fp := Session(ROOM_JOINED, None, false)];
      }
      sessions := sessions[fp := sessions[fp].(publicKeyReceived := decoded)];
      if sessions[fp].state == KEY_SENT {
        sessions := sessions[fp := sessions[fp].(state := READY)];
      } else if sessions[fp].state != READY {
        BroadcastKeyExchange(fp);
        sessions := sessions[fp := sessions[fp].(state := READY)];
      }
    }

    method MarkSharedSecretReady(fp: Fp) returns (marked: bool)
      modifies this`sessions
      ensures marked <==> fp in old(sessions) && old(sessions)[fp].state == READY
      ensures sessions == SecretReady(old(sessions), fp)
      ensures sessions == if marked then old(sessions)[fp := old(sessions)[fp].(sharedSecretReady := true)]
                          else old(sessions)
    {
      if fp !in sessions || sessions[fp].state != READY {
        return false;
      }
      sessions := sessions[fp := sessions[fp].(sharedSecretReady := true)];
      return true;
    }

    method OnPeerLeft(fp: Fp)
      modifies this`sessions
      ensures sessions == PeerLeft(old(sessions), fp) && sessions.Keys == old(sessions).Keys - {fp}
      ensures forall x :: x in sessions ==> sessions[x] == old(sessions)[x]
    {
      sessions := sessions - {fp};
    }

    method OnLeaveRoom()
      modifies this`sessions
      ensures sessions == map[]
    {
      sessions := map[];
    }

    method GetReadyPeers() returns (result: seq<Fp>)
      ensures forall fp :: fp in result <==> fp in sessions && sessions[fp].state == READY
      ensures Distinct(result)
    {
      result := [];
      var todo := sessions.Keys;
      while todo != {}
        invariant todo <= sessions.Keys
        invariant forall fp :: fp in result <==> fp in ReadyPeers(sessions) && fp !in todo
        invariant Distinct(result)
        decreases todo
      {
        var fp :| fp in todo;
        if sessions[fp].state == READY {
          result := result + [fp];
        }
        todo := todo - {fp};
      }
    }
  }
}
