/**
 What a browser tab does with the events of its room: the session table, the
 list of known peers, the shared secrets and the key announcements that answer
 an event. A shared secret is kept as the peer key it was derived from; the
 tab's own private key never changes.
 */
module Page {
  import opened Wrappers
  import opened PeerSession

  /** The events about peers that the relay sends. A key is given as base64 decoding leaves it. */
  datatype Event =
    | Joined(fp: Fp)
    | Left(fp: Fp)
    | KeyFrom(fp: Fp, key: Option<Key>)
    | RoomClosed
    | Notice

  datatype Tab = Tab(sessions: Sessions, peers: seq<Fp>, secrets: map<Fp, Key>, active: bool)

  const EMPTY_TAB := Tab(map[], [], map[], false)

  /** X25519 agreement rejects a public key of any other length. */
  const KEY_LENGTH := 32

  function WithPeer(peers: seq<Fp>, fp: Fp): seq<Fp> {
    if fp in peers then peers else peers + [fp]
  }

  predicate KeyHandled(me: Fp, e: Event) {
    e.KeyFrom? && e.fp != me && e.key.Some?
  }

  /** The tab after an event. */
  function Handle(t: Tab, me: Fp, e: Event): Tab {
    match e
    case Joined(fp) => t.(peers := WithPeer(t.peers, fp), sessions := PeerJoined(t.sessions, fp))
    case Left(fp) => t.(peers := Without(t.peers, fp), sessions := PeerLeft(t.sessions, fp))
    case KeyFrom(fp, key) =>
      if !KeyHandled(me, e) then t
      else t.(sessions := SecretReady(KeyReceived(t.sessions, fp, key.value), fp),
              secrets := if |key.value| == KEY_LENGTH then t.secrets[fp := key.value] else t.secrets,
              peers := WithPeer(t.peers, fp))
    case RoomClosed => t.(sessions := map[], peers := [], active := false)
    case Notice => t
  }

  /** Whether the tab announces its own key in answer to an event. */
  predicate Answers(t: Tab, me: Fp, e: Event) {
    e.Joined? || (KeyHandled(me, e) && AnswersKey(t.sessions, e.fp))
  }

  function Entered(t: Tab, clearPeers: bool): Tab {
    t.(sessions := ResetAll(t.sessions, ROOM_JOINED), peers := if clearPeers then [] else t.peers, active := true)
  }

  function Reset(t: Tab): Tab {
    t.(sessions := map[], peers := [], active := false)
  }

  // What an event does to each part of a tab.

  /** The session with each peer: new with an arrival, gone with a departure, READY with a key of somebody else. */
  lemma SessionsFollow(t: Tab, me: Fp, e: Event, x: Fp)
    ensures Peek(Handle(t, me, e).sessions, x) ==
            match e
            case Joined(fp) => if x == fp then Some(Session(KEY_SENT, None, false)) else Peek(t.sessions, x)
            case Left(fp) => if x == fp then None else Peek(t.sessions, x)
            case KeyFrom(fp, key) =>
              if x == fp && x != me && key.Some? then Some(Session(READY, key, true)) else Peek(t.sessions, x)
            case RoomClosed => None
            case Notice => Peek(t.sessions, x)
  {
  }

  /**
   The peer list gains whoever arrives or sends a key, at its end, loses whoever
   leaves, and is emptied with the room; nobody is listed twice.
   */
  lemma PeersFollow(t: Tab, me: Fp, e: Event, x: Fp)
    requires Distinct(t.peers)
    ensures Distinct(Handle(t, me, e).peers)
    ensures x in Handle(t, me, e).peers <==>
            match e
            case Joined(fp) => x == fp || x in t.peers
            case Left(fp) => x != fp && x in t.peers
            case KeyFrom(fp, key) => (x == fp && x != me && key.Some?) || x in t.peers
            case RoomClosed => false
            case Notice => x in t.peers
    ensures !e.Left? && !e.RoomClosed? ==> t.peers <= Handle(t, me, e).peers
    ensures e.Left? && e.fp !in t.peers ==> |Handle(t, me, e).peers| == |t.peers|
  {
    if e.Left? {
      WithoutDistinct(t.peers, e.fp);
      if e.fp !in t.peers {
        WithoutNothing(t.peers, e.fp);
      }
    }
  }

  /** A secret is derived from the last key of the right length of somebody else; nothing else touches it. */
  lemma SecretsFollow(t: Tab, me: Fp, e: Event)
    ensures Handle(t, me, e).secrets
            == if e.KeyFrom? && e.fp != me && e.key.Some? && |e.key.value| == KEY_LENGTH then
                 t.secrets[e.fp := e.key.value]
               else t.secrets
    ensures Handle(t, me, e).active <==> t.active && !e.RoomClosed?
  {
  }

  class HomePage {
    const me: Fp
    const manager: PeerSessionManager
    var peers: seq<Fp>
    var secrets: map<Fp, Key>
    var active: bool

    constructor (me: Fp)
      ensures this.me == me && fresh(manager) && manager.wired && Contents() == EMPTY_TAB
    {
      this.me := me;
      var m := new PeerSessionManager();
      manager := m;
      peers, secrets, active := [], map[], false;
      new;
      manager.SetSendKeyExchange();
    }

    function Contents(): Tab
      reads this, manager
    {
      Tab(manager.sessions, peers, secrets, active)
    }

    /** The derivation throws for a malformed key; nothing is stored then. */
    method EstablishSharedSecret(key: Key, fp: Fp)
      modifies this`secrets
      ensures secrets == if |key| == KEY_LENGTH then old(secrets)[fp := key] else old(secrets)
    {
      if |key| == KEY_LENGTH {
        secrets := secrets[fp := key];
      }
    }

    method OnKeyExchange(fp: Fp, decoded: Option<Key>)
      requires manager.wired
      modifies this, manager
      ensures Contents() == Handle(old(Contents()), me, KeyFrom(fp, decoded))
      ensures manager.wired == old(manager.wired)
      ensures manager.keysSent ==
              old(manager.keysSent) + if old(Answers(Contents(), me, KeyFrom(fp, decoded))) then 1 else 0
    {
      if fp == me {
        return;
      }
      var key := manager.OnKeyReceived(fp, decoded);
      if key.None? {
        return;
      }
      EstablishSharedSecret(key.value, fp);
      var marked := manager.MarkSharedSecretReady(fp);
      if fp !in peers {
        peers := peers + [fp];
      }
    }

    method OnMessage(e: Event)
      requires manager.wired
      modifies this, manager
      ensures Contents() == Handle(old(Contents()), me, e)
      ensures manager.wired == old(manager.wired)
      ensures manager.keysSent == old(manager.keysSent) + if old(Answers(Contents(), me, e)) then 1 else 0
      ensures manager.keysSent > old(manager.keysSent) <==>
              || e.Joined?
              || (e.KeyFrom? && e.fp != me && e.key.Some?
                  && !(e.fp in old(manager.sessions) && old(manager.sessions)[e.fp].state in {KEY_SENT, READY}))
    {
      match e {
        case Joined(fp) =>
          if fp !in peers {
            peers := peers + [fp];
          }
          var handled := manager.OnPeerJoined(fp);
        case Left(fp) =>
          manager.OnPeerLeft(fp);
          peers := Without(peers, fp);
        case KeyFrom(fp, decoded) =>
          OnKeyExchange(fp, decoded);
        case RoomClosed =>
          ResetRoomLocal();
        case Notice =>
      }
    }

    method EnterRoom(clearPeers: bool)
      modifies this, manager
      ensures Contents() == Entered(old(Contents()), clearPeers)
      ensures active && secrets == old(secrets) && peers == if clearPeers then [] else old(peers)
      ensures manager.sessions.Keys == old(manager.sessions).Keys
      ensures forall fp :: fp in manager.sessions ==> manager.sessions[fp] == Session(ROOM_JOINED, None, false)
      ensures manager.wired == old(manager.wired) && manager.keysSent == old(manager.keysSent)
    {
      active := true;
      if clearPeers {
        peers := [];
      }
      manager.OnRoomJoined();
    }

    method ResetRoomLocal()
      modifies this, manager
      ensures Contents() == Reset(old(Contents()))
      ensures !active && peers == [] && manager.sessions == map[] && secrets == old(secrets)
      ensures manager.wired == old(manager.wired) && manager.keysSent == old(manager.keysSent)
    {
      manager.OnLeaveRoom();
      active := false;
      peers := [];
    }
  }

  // What a ready session is worth.

  /** Every READY session is usable: marked ready, listed, and backed by a secret from the recorded key. */
  ghost predicate Backed(t: Tab) {
    && (forall fp :: fp in t.secrets ==> |t.secrets[fp]| == KEY_LENGTH)
    && forall fp :: fp in t.sessions && t.sessions[fp].state == READY ==>
      && t.sessions[fp].sharedSecretReady
      && fp in t.peers
      && fp in t.secrets
      && t.sessions[fp].publicKeyReceived == Some(t.secrets[fp])
  }

  /**
   Handling an event keeps every READY session backed exactly when the event is
   not a malformed key. A malformed key is never caught: the derivation runs
   in an async function whose rejection nobody awaits.
   */
  lemma BackedUnlessMalformed(t: Tab, me: Fp, e: Event)
    requires Backed(t)
    ensures Backed(Handle(t, me, e)) <==> (KeyHandled(me, e) ==> |e.key.value| == KEY_LENGTH)
  {
    if KeyHandled(me, e) {
      var u := Handle(t, me, e);
      assert u.sessions[e.fp].publicKeyReceived == e.key && u.sessions[e.fp].state == READY;
      if |e.key.value| != KEY_LENGTH {
        assert u.secrets == t.secrets;
      }
    }
  }
}
