/**
 The relay's handling of client events. Payloads have passed the format checks:
 room ids, tokens and announced fingerprints are not empty. A payload that has
 not passed them is the event Malformed.
 */
module Relay {
  import opened Wrappers
  import opened Rooms
  import RL = RateLimit
  import RG = ReplayGuard

  datatype Client = Client(roomId: Option<string>, fingerprint: Option<string>, violations: nat)

  /** `maxViolations` is None when violators are not disconnected, `replay` when nonces are not checked. */
  datatype Policy = Policy(lim: Limits, maxViolations: Option<nat>, rate: RL.Config, maxFile: int, replay: Option<nat>)

  /** What the replay guard has seen, and the message counts. */
  datatype Guards = Guards(seen: RG.Seen, buckets: RL.Buckets)

  /** `departed` has the fingerprints of disconnected clients, which a room may still list. */
  datatype Relay = Relay(hall: Hall, clients: map<Conn, Client>, departed: map<Conn, Option<string>>, guards: Guards)

  /** The size of a file is None when it is missing or not a number. */
  datatype Attachment = NoFile | File(size: Option<int>)

  datatype Payload = Payload(to: Option<string>, sender: string, nonce: string, file: Attachment, body: string)

  datatype Event =
    | Accept(c: Conn, time: int)
    | Create(c: Conn, room: string, token: string, fp: Option<string>, time: int)
    | Join(c: Conn, room: string, token: string, fp: Option<string>, time: int)
    | Announce(c: Conn, room: string, from: string, key: string, time: int)
    | Send(c: Conn, room: string, m: Payload, time: int)
    | Invite(c: Conn, room: string, token: string, time: int)
    | Type(c: Conn, start: bool, time: int)
    | Leave(c: Conn, time: int)
    | Disconnect(c: Conn, time: int)
    | Cleanup(time: int)
    | Malformed(c: Conn, time: int)

  predicate Enabled(s: Relay, e: Event) {
    match e
    case Accept(c, _) => c !in s.clients && c !in s.hall.sent && c !in s.hall.open
    case Create(c, room, token, _, _) => c in s.clients && room != "" && token != ""
    case Join(c, room, token, _, _) => c in s.clients && room != "" && token != ""
    case Announce(c, room, from, _, _) => c in s.clients && room != "" && from != ""
    case Send(c, room, m, _) => c in s.clients && room != "" && (m.to.Some? ==> m.to.value != "")
    case Invite(c, room, token, _) => c in s.clients && room != "" && token != ""
    case Type(c, _, _) => c in s.clients
    case Leave(c, _) => c in s.clients
    case Disconnect(c, _) => c in s.clients
    case Cleanup(_) => true
    case Malformed(c, _) => c in s.clients
  }

  function WithIdentity(cl: Client, fp: Option<string>): Client {
    if fp.Some? && fp.value != "" then cl.(fingerprint := fp) else cl
  }

  function SetClient(s: Relay, c: Conn, cl: Client): Relay {
    s.(clients := s.clients[c := cl])
  }

  function Reply(s: Relay, c: Conn, f: Frame): Relay {
    s.(hall := Write(s.hall, c, f))
  }

  /** An error reply, or the end of the connection after too many. */
  function Fail(s: Relay, p: Policy, c: Conn): Relay
    requires c in s.clients
  {
    if p.maxViolations.None? then Reply(s, c, Refused)
    else
      var cl := s.clients[c];
      var t := SetClient(s, c, cl.(violations := cl.violations + 1));
      if cl.violations + 1 >= p.maxViolations.value then t.(hall := t.hall.(open := t.hall.open - {c}))
      else Reply(t, c, Refused)
  }

  /** A new member is told of its admission and announced to the others. */
  function Welcomed(s: Relay, c: Conn, room: string, now: int): Relay
    requires c in s.clients
  {
    var t := Reply(s, c, Done);
    t.(hall := Broadcast(t.hall, room, c, Joined(s.clients[c].fingerprint), now))
  }

  /** The client is in the list of the room and remembers the room. */
  function Placed(s: Relay, p: Policy, c: Conn, room: string, now: int): Relay
    requires c in s.clients
  {
    SetClient(s.(hall := ClientAdded(s.hall, room, c, now, p.lim)), c, s.clients[c].(roomId := Some(room)))
  }

  function CreatedNew(s: Relay, p: Policy, c: Conn, room: string, token: string, now: int): Relay
    requires c in s.clients
  {
    Reply(Placed(s.(hall := RoomAdded(s.hall, room, token, now)), p, c, room, now), c, Done)
  }

  /** Entering an existing room by room:create takes a valid token and leaves it as it is. */
  function Rejoined(s: Relay, p: Policy, c: Conn, room: string, token: string, now: int): Relay
    requires c in s.clients
  {
    if !TokenValid(s.hall.tokens, room, token, s.clients[c].fingerprint) || !Admits(s.hall, room, c, p.lim) then
      Fail(s, p, c)
    else Welcomed(Placed(s, p, c, room, now), c, room, now)
  }

  function Created(s: Relay, p: Policy, c: Conn, room: string, token: string, fp: Option<string>, now: int): Relay
    requires c in s.clients
  {
    var t := SetClient(s, c, WithIdentity(s.clients[c], fp));
    if room !in s.hall.rooms then CreatedNew(t, p, c, room, token, now) else Rejoined(t, p, c, room, token, now)
  }

  function AdmittedWithToken(s: Relay, p: Policy, c: Conn, room: string, token: string, fp: Option<string>,
                             now: int): Relay
    requires c in s.clients
  {
    if !Admits(s.hall, room, c, p.lim) then Fail(s, p, c)
    else
      var t := Placed(s, p, c, room, now);
      Welcomed(t.(hall := t.hall.(tokens := TokenBound(t.hall.tokens, room, token, fp))), c, room, now)
  }

  function JoinedRoom(s: Relay, p: Policy, c: Conn, room: string, token: string, fp: Option<string>, now: int): Relay
    requires c in s.clients
  {
    var t := SetClient(s, c, WithIdentity(s.clients[c], fp));
    if room !in s.hall.rooms || !TokenValid(s.hall.tokens, room, token, fp) then Fail(t, p, c)
    else AdmittedWithToken(t, p, c, room, token, fp, now)
  }

  function Announced(s: Relay, p: Policy, c: Conn, room: string, from: string, key: string, now: int): Relay
    requires c in s.clients
  {
    var cl := s.clients[c];
    if cl.roomId.Some? && cl.roomId.value != room then Fail(s, p, c)
    else
      var t := SetClient(s, c, cl.(fingerprint := Some(from)));
      if cl.roomId.None? then t else t.(hall := Broadcast(t.hall, room, c, Key(from, key), now))
  }

  /** The first client of the room that bears the fingerprint. */
  function FindClient(clients: map<Conn, Client>, departed: map<Conn, Option<string>>, list: seq<Conn>,
                      fp: string): Option<Conn> {
    First(list, d => Bears(clients, departed, d, fp))
  }

  /** The client object of the connection, live or not, has the fingerprint. */
  predicate Bears(clients: map<Conn, Client>, departed: map<Conn, Option<string>>, d: Conn, fp: string) {
    if d in clients then clients[d].fingerprint == Some(fp) else d in departed && departed[d] == Some(fp)
  }

  function ForwardedTo(s: Relay, room: string, fp: string, body: string): Relay {
    if room !in s.hall.rooms then s
    else
      match FindClient(s.clients, s.departed, s.hall.rooms[room].clients, fp)
      case None => s
      case Some(d) => Reply(s, d, Direct(body))
  }

  // The guards on a message, in the order in which they are asked.

  predicate HasName(fp: Option<string>) {
    fp.Some? && fp.value != ""
  }

  predicate RateOk(g: Guards, p: Policy, fp: Option<string>, now: int) {
    HasName(fp) ==> RL.Admits(g.buckets, fp.value, now, p.rate)
  }

  function Rated(g: Guards, p: Policy, fp: Option<string>, now: int): Guards {
    if HasName(fp) then g.(buckets := RL.Counted(g.buckets, fp.value, now, p.rate)) else g
  }

  predicate FileOk(p: Policy, file: Attachment) {
    match file
    case NoFile => true
    case File(size) => size.Some? && size.value != 0 && size.value <= p.maxFile
  }

  /** The replay guard goes by the sender that the message names. */
  predicate NonceOk(g: Guards, p: Policy, m: Payload, now: int) {
    p.replay.Some? ==> RG.Fresh(g.seen, m.sender, m.nonce, now, p.replay.value)
  }

  function Noted(g: Guards, p: Policy, m: Payload, now: int): Guards {
    if p.replay.Some? then g.(seen := RG.Marked(g.seen, m.sender, m.nonce, now, p.replay.value)) else g
  }

  /** The nonce is looked at only if the limiter and the file checks let the message through. */
  predicate Examined(g: Guards, p: Policy, fp: Option<string>, m: Payload, now: int) {
    RateOk(g, p, fp, now) && FileOk(p, m.file)
  }

  predicate Passes(g: Guards, p: Policy, fp: Option<string>, m: Payload, now: int) {
    Examined(g, p, fp, m, now) && NonceOk(g, p, m, now)
  }

  function Guarded(g: Guards, p: Policy, fp: Option<string>, m: Payload, now: int): Guards {
    if Examined(g, p, fp, m, now) then Noted(Rated(g, p, fp, now), p, m, now) else Rated(g, p, fp, now)
  }

  function Delivered(s: Relay, c: Conn, room: string, m: Payload, now: int): Relay {
    if m.to.Some? then ForwardedTo(s, room, m.to.value, m.body)
    else s.(hall := Broadcast(s.hall, room, c, Message(m.body), now))
  }

  function SentMessage(s: Relay, p: Policy, c: Conn, room: string, m: Payload, now: int): Relay
    requires c in s.clients
  {
    var fp := s.clients[c].fingerprint;
    if s.clients[c].roomId != Some(room) then Fail(s, p, c)
    else
      var t := s.(guards := Guarded(s.guards, p, fp, m, now));
      if Passes(s.guards, p, fp, m, now) then Delivered(t, c, room, m, now) else Fail(t, p, c)
  }

  function Invited(s: Relay, p: Policy, c: Conn, room: string, token: string): Relay
    requires c in s.clients
  {
    if s.clients[c].roomId != Some(room) || !TokenAddable(s.hall, room, token) then Fail(s, p, c)
    else Reply(s.(hall := TokenAdded(s.hall, room, token)), c, Done)
  }

  function Typed(s: Relay, c: Conn, start: bool, now: int): Relay
    requires c in s.clients
  {
    var cl := s.clients[c];
    if cl.roomId.None? then s
    else s.(hall := Broadcast(s.hall, cl.roomId.value, c, Typing(start, cl.fingerprint), now))
  }

  function Purged(g: Guards, fp: Option<string>): Guards {
    if HasName(fp) then g.(seen := g.seen - {fp.value}) else g
  }

  function Forgotten(g: Guards, fp: Option<string>): Guards {
    if HasName(fp) then Guards(g.seen - {fp.value}, g.buckets - {fp.value}) else g
  }

  /** A leaving client is announced before it is removed. */
  function LeftRoom(s: Relay, c: Conn, now: int): Relay
    requires c in s.clients
  {
    var cl := s.clients[c];
    if cl.roomId.None? then s
    else
      var h := Broadcast(s.hall, cl.roomId.value, c, Left(cl.fingerprint), now);
      var t := s.(hall := ClientRemoved(h, cl.roomId.value, c, now), guards := Purged(s.guards, cl.fingerprint));
      Reply(SetClient(t, c, cl.(roomId := None)), c, Done)
  }

  /** A disconnected client is removed before it is announced. */
  function Disconnected(s: Relay, c: Conn, now: int): Relay
    requires c in s.clients
  {
    var cl := s.clients[c];
    var t := s.(hall := s.hall.(open := s.hall.open - {c}), clients := s.clients - {c},
                departed := s.departed[c := cl.fingerprint]);
    if cl.roomId.None? then t
    else
      var h := ClientRemoved(t.hall, cl.roomId.value, c, now);
      t.(hall := Broadcast(h, cl.roomId.value, c, Left(cl.fingerprint), now),
         guards := Forgotten(s.guards, cl.fingerprint))
  }

  function Accepted(s: Relay, c: Conn): Relay {
    s.(hall := s.hall.(open := s.hall.open + {c}, sent := s.hall.sent[c := []]),
       clients := s.clients[c := Client(None, None, 0)])
  }

  function Next(s: Relay, p: Policy, e: Event): Relay
    requires Enabled(s, e)
  {
    match e
    case Accept(c, _) => Accepted(s, c)
    case Create(c, room, token, fp, now) => Created(s, p, c, room, token, fp, now)
    case Join(c, room, token, fp, now) => JoinedRoom(s, p, c, room, token, fp, now)
    case Announce(c, room, from, key, now) => Announced(s, p, c, room, from, key, now)
    case Send(c, room, m, now) => SentMessage(s, p, c, room, m, now)
    case Invite(c, room, token, _) => Invited(s, p, c, room, token)
    case Type(c, start, now) => Typed(s, c, start, now)
    case Leave(c, now) => LeftRoom(s, c, now)
    case Disconnect(c, now) => Disconnected(s, c, now)
    case Cleanup(now) => s.(hall := Cleaned(s.hall, now, p.lim))
    case Malformed(c, _) => Fail(s, p, c)
  }

  const EMPTY := Relay(Hall(map[], map[], {}, map[]), map[], map[], Guards(map[], map[]))

  class WebSocketHandler {
    const manager: RoomManager
    const guard: RG.Guard
    const limiter: RL.RateLimiter
    const policy: Policy
    var clients: map<Conn, Client>
    var departed: map<Conn, Option<string>>

    ghost predicate Valid()
      reads this, manager, manager.rooms.Values, guard, limiter
    {
      && manager.Valid() && manager.lim == policy.lim
      && limiter.cfg == policy.rate
      && guard.enabled == policy.replay.Some?
      && (policy.replay.Some? ==> guard.ttl == policy.replay.value)
    }

    ghost function View(): Relay
      reads this, manager, manager.rooms.Values, guard, limiter
    {
      Relay(manager.View(), clients, departed, Guards(guard.seen, limiter.buckets))
    }

    constructor (policy: Policy)
      ensures Valid() && this.policy == policy && View() == EMPTY && fresh(manager) && fresh(guard) && fresh(limiter)
    {
      this.policy := policy;
      clients, departed := map[], map[];
      manager := new RoomManager(policy.lim);
      guard := new RG.Guard(policy.replay.Some?, if policy.replay.Some? then policy.replay.value else 0, 0);
      limiter := new RL.RateLimiter(policy.rate);
    }

    method SendError(c: Conn)
      requires Valid() && c in clients
      modifies this, manager
      ensures Valid() && manager.rooms == old(manager.rooms)
      ensures View() == Fail(old(View()), policy, c)
    {
      if policy.maxViolations.Some? {
        clients := clients[c := clients[c].(violations := clients[c].violations + 1)];
        if clients[c].violations >= policy.maxViolations.value {
          manager.Close(c);
          return;
        }
      }
      manager.Send(c, Refused);
    }

    /** The confirmation to a new member and the announcement to the others. */
    method Welcome(c: Conn, room: string, now: int)
      requires Valid() && c in clients
      modifies manager`sent, manager.rooms.Values
      ensures Valid() && manager.rooms == old(manager.rooms)
      ensures View() == Welcomed(old(View()), c, room, now)
    {
      manager.Send(c, Done);
      manager.BroadcastToRoom(room, c, Joined(clients[c].fingerprint), now);
    }

    /** Adds the client to the list of the room and, if that succeeds, to its record. */
    method Place(c: Conn, room: string, now: int) returns (ok: bool)
      requires Valid() && c in clients
      modifies this, manager.rooms.Values
      ensures Valid() && manager.rooms == old(manager.rooms)
      ensures ok == Admits(old(View()).hall, room, c, policy.lim)
      ensures View() == if ok then Placed(old(View()), policy, c, room, now) else old(View())
    {
      ok := manager.AddClientToRoom(room, c, now);
      if ok {
        clients := clients[c := clients[c].(roomId := Some(room))];
      } else {
        assert View().hall.rooms == old(View()).hall.rooms;
      }
    }

    method CreateNewRoom(c: Conn, room: string, token: string, now: int)
      requires Valid() && c in clients && room !in manager.rooms
      modifies this, manager, manager.rooms.Values
      ensures Valid() && fresh(manager.rooms.Values - old(manager.rooms.Values))
      ensures View() == CreatedNew(old(View()), policy, c, room, token, now)
    {
      var added := manager.AddRoom(room, token, now);
      clients := clients[c := clients[c].(roomId := Some(room))];
      var ok := manager.AddClientToRoom(room, c, now);
      manager.Send(c, Done);
    }

    method RejoinRoom(c: Conn, room: string, token: string, now: int)
      requires Valid() && c in clients && room in manager.rooms
      modifies this, manager, manager.rooms.Values
      ensures Valid() && manager.rooms == old(manager.rooms)
      ensures View() == Rejoined(old(View()), policy, c, room, token, now)
    {
      var valid := manager.VerifyInviteToken(room, token, clients[c].fingerprint);
      if !valid {
        SendError(c);
        return;
      }
      var ok := Place(c, room, now);
      if ok {
        Welcome(c, room, now);
      } else {
        SendError(c);
      }
    }

    method HandleRoomCreate(c: Conn, room: string, token: string, fp: Option<string>, now: int)
      requires Valid() && c in clients && room != "" && token != ""
      modifies this, manager, manager.rooms.Values
      ensures Valid() && fresh(manager.rooms.Values - old(manager.rooms.Values))
      ensures View() == Created(old(View()), policy, c, room, token, fp, now)
    {
      clients := clients[c := WithIdentity(clients[c], fp)];
      if room !in manager.rooms {
        CreateNewRoom(c, room, token, now);
      } else {
        RejoinRoom(c, room, token, now);
      }
    }

    method HandleRoomJoin(c: Conn, room: string, token: string, fp: Option<string>, now: int)
      requires Valid() && c in clients && room != "" && token != ""
      modifies this, manager, manager.rooms.Values
      ensures Valid() && manager.rooms == old(manager.rooms)
      ensures View() == JoinedRoom(old(View()), policy, c, room, token, fp, now)
    {
      clients := clients[c := WithIdentity(clients[c], fp)];
      if room !in manager.rooms {
        SendError(c);
        return;
      }
      var valid := manager.VerifyInviteToken(room, token, fp);
      if !valid {
        SendError(c);
        return;
      }
      if |manager.rooms[room].clients| >= policy.lim.maxParticipants {
        SendError(c);
        return;
      }
      AdmitWithToken(c, room, token, fp, now);
    }

    /** Admission by room:join binds an unused token. */
    method AdmitWithToken(c: Conn, room: string, token: string, fp: Option<string>, now: int)
      requires Valid() && c in clients && room in manager.rooms
      modifies this, manager, manager.rooms.Values
      ensures Valid() && manager.rooms == old(manager.rooms)
      ensures View() == AdmittedWithToken(old(View()), policy, c, room, token, fp, now)
    {
      var ok := Place(c, room, now);
      if ok {
        var bound := manager.BindInviteToken(room, token, fp);
        Welcome(c, room, now);
      } else {
        SendError(c);
      }
    }

    method HandleKeyExchange(c: Conn, room: string, from: string, key: string, now: int)
      requires Valid() && c in clients && room != "" && from != ""
      modifies this, manager, manager.rooms.Values
      ensures Valid() && manager.rooms == old(manager.rooms)
      ensures View() == Announced(old(View()), policy, c, room, from, key, now)
    {
      if clients[c].roomId.Some? && clients[c].roomId.value != room {
        SendError(c);
        return;
      }
      clients := clients[c := clients[c].(fingerprint := Some(from))];
      if clients[c].roomId.Some? {
        manager.BroadcastToRoom(clients[c].roomId.value, c, Key(from, key), now);
      }
    }

    /** Delivery to one client of the room; nothing else about the room changes. */
    method ForwardMessageToClient(room: string, fp: string, body: string) returns (found: bool)
      requires Valid()
      modifies manager`sent
      ensures Valid() && manager.rooms == old(manager.rooms)
      ensures View() == ForwardedTo(old(View()), room, fp, body)
      ensures found <==>
              && room in manager.rooms
              && FindClient(clients, departed, manager.rooms[room].clients, fp).Some?
              && FindClient(clients, departed, manager.rooms[room].clients, fp).value in manager.open
    {
      if room !in manager.rooms {
        return false;
      }
      var list := manager.rooms[room].clients;
      for i := 0 to |list|
        invariant FindClient(clients, departed, list, fp) == FindClient(clients, departed, list[i..], fp)
      {
        assert list[i..][0] == list[i] && list[i..][1..] == list[i + 1..];
        if Bears(clients, departed, list[i], fp) {
          found := list[i] in manager.open;
          manager.Send(list[i], Direct(body));
          return;
        }
      }
      found := false;
    }

    /** The limiter counts every message; the nonce is marked even if it is refused. */
    method CheckMessage(fp: Option<string>, m: Payload, now: int) returns (ok: bool)
      requires Valid()
      modifies guard, limiter
      ensures Valid() && manager.rooms == old(manager.rooms)
      ensures ok == Passes(old(View()).guards, policy, fp, m, now)
      ensures View() == old(View()).(guards := Guarded(old(View()).guards, policy, fp, m, now))
    {
      ghost var g := View().guards;
      ok := limiter.CheckMessage(fp, now);
      assert View().guards == Rated(g, policy, fp, now) && ok == RateOk(g, policy, fp, now);
      if !ok {
        return;
      }
      if m.file.File? {
        if m.file.size.None? || m.file.size.value == 0 || m.file.size.value > policy.maxFile {
          return false;
        }
      }
      ok := guard.CheckAndMark(m.sender, m.nonce, now);
    }

    method HandleSendMessage(c: Conn, room: string, m: Payload, now: int)
      requires Valid() && c in clients && room != ""
      modifies this, manager, manager.rooms.Values, guard, limiter
      ensures Valid() && manager.rooms == old(manager.rooms)
      ensures View() == SentMessage(old(View()), policy, c, room, m, now)
    {
      if clients[c].roomId.None? || clients[c].roomId.value != room {
        SendError(c);
        return;
      }
      var ok := CheckMessage(clients[c].fingerprint, m, now);
      if !ok {
        SendError(c);
      } else if m.to.Some? {
        var found := ForwardMessageToClient(room, m.to.value, m.body);
      } else {
        manager.BroadcastToRoom(room, c, Message(m.body), now);
      }
    }

    method HandleInviteCreate(c: Conn, room: string, token: string)
      requires Valid() && c in clients && room != "" && token != ""
      modifies this, manager
      ensures Valid() && manager.rooms == old(manager.rooms)
      ensures View() == Invited(old(View()), policy, c, room, token)
    {
      if clients[c].roomId.None? || clients[c].roomId.value != room {
        SendError(c);
        return;
      }
      var added := manager.AddInviteToken(room, token);
      if added {
        manager.Send(c, Done);
      } else {
        SendError(c);
      }
    }

    method HandleTypingEvent(c: Conn, start: bool, now: int)
      requires Valid() && c in clients
      modifies this, manager, manager.rooms.Values
      ensures Valid() && manager.rooms == old(manager.rooms)
      ensures View() == Typed(old(View()), c, start, now)
    {
      if clients[c].roomId.None? {
        return;
      }
      manager.BroadcastToRoom(clients[c].roomId.value, c, Typing(start, clients[c].fingerprint), now);
    }

    method PurgeReplays(fp: Option<string>)
      requires Valid()
      modifies guard
      ensures Valid() && View() == old(View()).(guards := Purged(old(View()).guards, fp))
    {
      if HasName(fp) {
        guard.Purge(fp.value);
      }
    }

    /** Replay data and message count of a fingerprint go. */
    method Forget(fp: Option<string>)
      requires Valid()
      modifies guard, limiter
      ensures Valid() && View() == old(View()).(guards := Forgotten(old(View()).guards, fp))
    {
      if HasName(fp) {
        guard.Purge(fp.value);
        limiter.Delete(fp.value);
      }
    }

    method HandleRoomLeave(c: Conn, now: int)
      requires Valid() && c in clients
      modifies this, manager, manager.rooms.Values, guard
      ensures Valid() && manager.rooms == old(manager.rooms)
      ensures View() == LeftRoom(old(View()), c, now)
    {
      if clients[c].roomId.Some? {
        var room, fp := clients[c].roomId.value, clients[c].fingerprint;
        manager.BroadcastToRoom(room, c, Left(fp), now);
        var removed := manager.RemoveClientFromRoom(room, c, now);
        clients := clients[c := clients[c].(roomId := None)];
        PurgeReplays(fp);
        manager.Send(c, Done);
      }
    }

    /** The socket has closed. */
    method HandleClientDisconnect(c: Conn, now: int)
      requires Valid() && c in clients
      modifies this, manager, manager.rooms.Values, guard, limiter
      ensures Valid() && manager.rooms == old(manager.rooms)
      ensures View() == Disconnected(old(View()), c, now)
    {
      var client := clients[c];
      manager.Close(c);
      clients, departed := clients - {c}, departed[c := client.fingerprint];
      if client.roomId.Some? {
        var removed := manager.RemoveClientFromRoom(client.roomId.value, c, now);
        manager.BroadcastToRoom(client.roomId.value, c, Left(client.fingerprint), now);
        Forget(client.fingerprint);
      }
    }
  }
}
