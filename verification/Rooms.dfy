/**
 The relay's rooms, their invite tokens and the sockets of their clients.
 Connections are numbers; a room is kept in a RoomModel object, and the room
 manager's tables are changed in place. Every time comes in as an argument.
 */
module Rooms {
  import opened Wrappers

  type Conn = nat

  datatype Limits = Limits(maxParticipants: nat, idle: nat, lifetime: nat)

  datatype Room = Room(clients: seq<Conn>, createdAt: int, lastActivity: int)

  /** What is written to a socket. A broadcast is marked with its room and the connection it excludes. */
  datatype Frame =
    | Done
    | Refused
    | RoomClosed
    | Direct(body: string)
    | Cast(room: string, sender: Conn, news: News)

  datatype News =
    | Joined(fp: Option<string>)
    | Left(fp: Option<string>)
    | Key(from: string, key: string)
    | Typing(start: bool, fp: Option<string>)
    | Message(body: string)

  type Wire = map<Conn, seq<Frame>>

  type Tokens = map<string, map<string, string>>

  /** Rooms, tokens (with '' for an unused one), open sockets, and what has been sent to each connection. */
  datatype Hall = Hall(rooms: map<string, Room>, tokens: Tokens, open: set<Conn>, sent: Wire)

  // Rooms.

  predicate CanAdd(r: Room, c: Conn, max: nat) {
    |r.clients| < max && c !in r.clients
  }

  function Added(r: Room, c: Conn, now: int, max: nat): Room {
    if CanAdd(r, c, max) then Room(r.clients + [c], r.createdAt, now) else r
  }

  function Removed(r: Room, c: Conn, now: int): Room {
    if c in r.clients then Room(Without(r.clients, c), r.createdAt, now) else r
  }

  predicate Expired(r: Room, now: int, lim: Limits) {
    now - r.createdAt > lim.lifetime || now - r.lastActivity > lim.idle
  }

  class RoomModel {
    var clients: seq<Conn>
    const createdAt: int
    var lastActivity: int
    const maxParticipants: nat

    constructor (now: int, maxParticipants: nat)
      ensures View() == Room([], now, now) && this.maxParticipants == maxParticipants
    {
      clients, createdAt, lastActivity := [], now, now;
      this.maxParticipants := maxParticipants;
    }

    function View(): Room
      reads this
    {
      Room(clients, createdAt, lastActivity)
    }

    method AddClient(c: Conn, now: int) returns (added: bool)
      modifies this
      ensures View() == old(Added(View(), c, now, maxParticipants))
      ensures added <==> |old(clients)| < maxParticipants && c !in old(clients)
      ensures clients == (if added then old(clients) + [c] else old(clients))
      ensures lastActivity == if added then now else old(lastActivity)
    {
      if |clients| >= maxParticipants {
        return false;
      }
      for i := 0 to |clients|
        invariant c !in clients[..i]
        invariant View() == old(View())
      {
        if clients[i] == c {
          return false;
        }
      }
      assert c !in clients by {
        assert clients[..|clients|] == clients;
      }
      clients := clients + [c];
      lastActivity := now;
      return true;
    }

    method RemoveClient(c: Conn, now: int) returns (removed: bool)
      modifies this
      ensures View() == old(Removed(View(), c, now))
      ensures removed <==> c in old(clients)
      ensures c !in clients && |clients| <= |old(clients)| && (!removed ==> clients == old(clients))
      ensures forall d :: d != c ==> (d in clients <==> d in old(clients))
      ensures lastActivity == if removed then now else old(lastActivity)
    {
      var kept := Without(clients, c);
      WithoutLength(clients, c);
      if |kept| != |clients| {
        clients := kept;
        lastActivity := now;
        return true;
      }
      return false;
    }

    predicate IsExpired(now: int, lim: Limits)
      reads this
      ensures IsExpired(now, lim) == Expired(View(), now, lim)
    {
      if now - createdAt > lim.lifetime then true else now - lastActivity > lim.idle
    }

    method UpdateLastActivity(now: int)
      modifies this
      ensures View() == old(View()).(lastActivity := now) && lastActivity == now && clients == old(clients)
    {
      lastActivity := now;
    }
  }

  lemma {:induction false} WithoutLength(s: seq<Conn>, c: Conn)
    ensures |Without(s, c)| <= |s|
    ensures |Without(s, c)| == |s| <==> c !in s
    ensures c !in s ==> Without(s, c) == s
  {
    if s != [] {
      WithoutLength(s[1..], c);
    }
  }

  // Sockets.

  function SentOn(wire: Wire, c: Conn): seq<Frame> {
    if c in wire then wire[c] else []
  }

  function SentTo(h: Hall, c: Conn): seq<Frame> {
    SentOn(h.sent, c)
  }

  /** A frame written to one socket; nothing happens if it is not open. */
  function Write(h: Hall, c: Conn, f: Frame): Hall {
    h.(sent := WriteOn(h.sent, h.open, c, f))
  }

  function WriteOn(wire: Wire, open: set<Conn>, c: Conn, f: Frame): Wire {
    if c in open then wire[c := SentOn(wire, c) + [f]] else wire
  }

  /** The frame written to each listed socket in turn, leaving out the sender's. */
  function Spread(wire: Wire, open: set<Conn>, to: seq<Conn>, sender: Conn, f: Frame): Wire
    decreases |to|
  {
    if to == [] then wire
    else Spread(if to[0] == sender then wire else WriteOn(wire, open, to[0], f), open, to[1..], sender, f)
  }

  /** Each listed open socket but the sender's gets the frame once, and nobody else gets anything. */
  lemma {:induction false} SpreadReaches(wire: Wire, open: set<Conn>, to: seq<Conn>, sender: Conn, f: Frame, c: Conn)
    requires Distinct(to)
    ensures SentOn(Spread(wire, open, to, sender, f), c)
            == SentOn(wire, c) + if c in to && c != sender && c in open then [f] else []
    decreases |to|
  {
    if to != [] {
      var w := if to[0] == sender then wire else WriteOn(wire, open, to[0], f);
      SpreadReaches(w, open, to[1..], sender, f, c);
      assert c in to <==> c == to[0] || c in to[1..];
      assert c == to[0] ==> c !in to[1..];
    }
  }

  // The manager's operations.

  function WithRoom(h: Hall, room: string, r: Room): Hall {
    h.(rooms := h.rooms[room := r])
  }

  function RoomAdded(h: Hall, room: string, token: string, now: int): Hall {
    if room in h.rooms then h
    else h.(rooms := h.rooms[room := Room([], now, now)],
            tokens := if token != "" then h.tokens[room := map[token := ""]] else h.tokens)
  }

  predicate Admits(h: Hall, room: string, c: Conn, lim: Limits) {
    room in h.rooms && CanAdd(h.rooms[room], c, lim.maxParticipants)
  }

  function ClientAdded(h: Hall, room: string, c: Conn, now: int, lim: Limits): Hall {
    if room in h.rooms then WithRoom(h, room, Added(h.rooms[room], c, now, lim.maxParticipants)) else h
  }

  function ClientRemoved(h: Hall, room: string, c: Conn, now: int): Hall {
    if room in h.rooms then WithRoom(h, room, Removed(h.rooms[room], c, now)) else h
  }

  function Broadcast(h: Hall, room: string, sender: Conn, news: News, now: int): Hall {
    if room !in h.rooms then h
    else WithRoom(h, room, h.rooms[room].(lastActivity := now))
         .(sent := Spread(h.sent, h.open, h.rooms[room].clients, sender, Cast(room, sender, news)))
  }

  predicate TokenValid(tokens: Tokens, room: string, token: string, fp: Option<string>) {
    room in tokens && token in tokens[room] && (tokens[room][token] == "" || Some(tokens[room][token]) == fp)
  }

  function TokenBound(tokens: Tokens, room: string, token: string, fp: Option<string>): Tokens {
    if room in tokens && token in tokens[room] && tokens[room][token] == "" then
      tokens[room := tokens[room][token := if fp.Some? then fp.value else ""]]
    else tokens
  }

  predicate TokenAddable(h: Hall, room: string, token: string) {
    room in h.rooms && !(room in h.tokens && token in h.tokens[room])
  }

  function TokenAdded(h: Hall, room: string, token: string): Hall {
    if !TokenAddable(h, room, token) then h
    else h.(tokens := h.tokens[room := (if room in h.tokens then h.tokens[room] else map[])[token := ""]])
  }

  function ExpiredRooms(h: Hall, now: int, lim: Limits): set<string> {
    set room | room in h.rooms && Expired(h.rooms[room], now, lim)
  }

  /** Connection c is in one of the rooms. */
  predicate Within(rooms: map<string, Room>, which: set<string>, c: Conn) {
    exists room :: room in which && room in rooms && c in rooms[room].clients
  }

  /** Clients with an open socket in the given rooms. */
  function Affected(h: Hall, which: set<string>): set<Conn> {
    set c | c in h.open && Within(h.rooms, which, c)
  }

  /** One closing notice for each of these connections. */
  function Notified(wire: Wire, gone: set<Conn>): Wire {
    map c | c in wire.Keys + gone :: if c in gone then SentOn(wire, c) + [RoomClosed] else SentOn(wire, c)
  }

  lemma NotifiedTwice(wire: Wire, a: set<Conn>, b: set<Conn>)
    requires a !! b
    ensures Notified(Notified(wire, a), b) == Notified(wire, a + b)
  {
    var w, v := Notified(Notified(wire, a), b), Notified(wire, a + b);
    assert w.Keys == v.Keys;
    forall c | c in w ensures w[c] == v[c] {
    }
  }

  lemma NotifiedNone(wire: Wire)
    ensures Notified(wire, {}) == wire
  {
    assert Notified(wire, {}).Keys == wire.Keys;
  }

  lemma NotifiedOne(wire: Wire, c: Conn)
    ensures Notified(wire, {c}) == wire[c := SentOn(wire, c) + [RoomClosed]]
  {
    assert Notified(wire, {c}).Keys == wire.Keys + {c};
  }

  /** The given rooms and their tokens go; each affected socket gets one notice and is closed. */
  function Reaped(h: Hall, which: set<string>): Hall {
    var gone := Affected(h, which);
    Hall(h.rooms - which, h.tokens - which, h.open - gone, Notified(h.sent, gone))
  }

  function Cleaned(h: Hall, now: int, lim: Limits): Hall {
    Reaped(h, ExpiredRooms(h, now, lim))
  }

  class RoomManager {
    var rooms: map<string, RoomModel>
    var inviteTokens: Tokens
    var open: set<Conn>
    var sent: Wire
    const lim: Limits

    ghost predicate Valid()
      reads this, rooms.Values
    {
      && (forall a, b :: a in rooms && b in rooms && a != b ==> rooms[a] != rooms[b])
      && (forall a :: a in rooms ==> rooms[a].maxParticipants == lim.maxParticipants)
    }

    ghost function View(): Hall
      reads this, rooms.Values
    {
      Hall(map room | room in rooms :: rooms[room].View(), inviteTokens, open, sent)
    }

    constructor (lim: Limits)
      ensures Valid() && this.lim == lim && View() == Hall(map[], map[], {}, map[])
    {
      this.lim := lim;
      rooms, inviteTokens, open, sent := map[], map[], {}, map[];
    }

    method Send(c: Conn, f: Frame)
      requires Valid()
      modifies this`sent
      ensures Valid() && View() == Write(old(View()), c, f)
      ensures sent == if c in open then old(sent)[c := (if c in old(sent) then old(sent)[c] else []) + [f]]
                      else old(sent)
    {
      if c in open {
        sent := sent[c := SentOn(sent, c) + [f]];
      }
    }

    method Close(c: Conn)
      requires Valid()
      modifies this`open
      ensures Valid() && View() == old(View()).(open := old(open) - {c})
    {
      open := open - {c};
    }

    method AddRoom(room: string, token: string, now: int) returns (added: bool)
      requires Valid()
      modifies this`rooms, this`inviteTokens
      ensures Valid() && added == old(room !in rooms)
      ensures View() == RoomAdded(old(View()), room, token, now)
      ensures added ==>
                && rooms.Keys == old(rooms).Keys + {room} && rooms[room].clients == []
                && rooms[room].createdAt == now == rooms[room].lastActivity
      ensures added && token != "" ==> inviteTokens == old(inviteTokens)[room := map[token := ""]]
      ensures !added ==> rooms == old(rooms) && inviteTokens == old(inviteTokens)
      ensures fresh(rooms.Values - old(rooms.Values))
    {
      if room in rooms {
        return false;
      }
      var model := new RoomModel(now, lim.maxParticipants);
      rooms := rooms[room := model];
      if token != "" {
        inviteTokens := inviteTokens[room := map[token := ""]];
      }
      added := true;
      assert View().rooms == RoomAdded(old(View()), room, token, now).rooms;
    }

    method AddClientToRoom(room: string, c: Conn, now: int) returns (added: bool)
      requires Valid()
      modifies rooms.Values
      ensures Valid() && rooms == old(rooms)
      ensures added == (room in old(View()).rooms && |old(View()).rooms[room].clients| < lim.maxParticipants
                        && c !in old(View()).rooms[room].clients)
      ensures added ==> rooms[room].clients == old(View()).rooms[room].clients + [c]
      ensures View() == ClientAdded(old(View()), room, c, now, lim)
    {
      if room !in rooms {
        return false;
      }
      added := rooms[room].AddClient(c, now);
      assert View().rooms == ClientAdded(old(View()), room, c, now, lim).rooms;
    }

    method RemoveClientFromRoom(room: string, c: Conn, now: int) returns (removed: bool)
      requires Valid()
      modifies rooms.Values
      ensures Valid() && rooms == old(rooms)
      ensures removed == (room in old(View()).rooms && c in old(View()).rooms[room].clients)
      ensures View() == ClientRemoved(old(View()), room, c, now)
    {
      if room !in rooms {
        return false;
      }
      removed := rooms[room].RemoveClient(c, now);
      assert View().rooms == ClientRemoved(old(View()), room, c, now).rooms;
    }

    /** The loop over the clients of a room. */
    method WriteEach(clients: seq<Conn>, sender: Conn, f: Frame)
      modifies this`sent
      ensures sent == Spread(old(sent), open, clients, sender, f)
    {
      for i := 0 to |clients|
        invariant Spread(sent, open, clients[i..], sender, f) == Spread(old(sent), open, clients, sender, f)
      {
        var c := clients[i];
        if c != sender && c in open {
          sent := sent[c := SentOn(sent, c) + [f]];
        }
        assert clients[i..][1..] == clients[i + 1..];
      }
    }

    method BroadcastToRoom(room: string, sender: Conn, news: News, now: int)
      requires Valid()
      modifies this`sent, rooms.Values
      ensures Valid() && rooms == old(rooms)
      ensures View() == Broadcast(old(View()), room, sender, news, now)
    {
      if room !in rooms {
        return;
      }
      rooms[room].UpdateLastActivity(now);
      assert View().rooms == Broadcast(old(View()), room, sender, news, now).rooms;
      WriteEach(rooms[room].clients, sender, Cast(room, sender, news));
    }

    method VerifyInviteToken(room: string, token: string, fp: Option<string>) returns (valid: bool)
      ensures valid == TokenValid(inviteTokens, room, token, fp)
      ensures valid <==> room in inviteTokens && token in inviteTokens[room]
                         && (inviteTokens[room][token] == "" || fp == Some(inviteTokens[room][token]))
    {
      if room !in inviteTokens || token !in inviteTokens[room] {
        return false;
      }
      var bound := inviteTokens[room][token];
      valid := bound == "" || (fp.Some? && bound == fp.value);
    }

    method BindInviteToken(room: string, token: string, fp: Option<string>) returns (bound: bool)
      requires Valid()
      modifies this`inviteTokens
      ensures Valid() && View() == old(View()).(tokens := TokenBound(old(inviteTokens), room, token, fp))
      ensures bound == (room in old(inviteTokens) && token in old(inviteTokens)[room]
                        && old(inviteTokens)[room][token] == "")
      ensures bound ==> inviteTokens[room][token] == if fp.Some? then fp.value else ""
      ensures !bound ==> inviteTokens == old(inviteTokens)
    {
      if room !in inviteTokens || token !in inviteTokens[room] || inviteTokens[room][token] != "" {
        return false;
      }
      var value := if fp.Some? then fp.value else "";
      inviteTokens := inviteTokens[room := inviteTokens[room][token := value]];
      return true;
    }

    method AddInviteToken(room: string, token: string) returns (added: bool)
      requires Valid()
      modifies this`inviteTokens
      ensures Valid() && View() == TokenAdded(old(View()), room, token)
      ensures added <==> room in rooms && !(room in old(inviteTokens) && token in old(inviteTokens)[room])
      ensures added ==>
                && room in inviteTokens && token in inviteTokens[room] && inviteTokens[room][token] == ""
                && forall other :: other != token ==>
                     (other in inviteTokens[room] <==> room in old(inviteTokens) && other in old(inviteTokens)[room])
      ensures forall r :: r != room || !added ==> (r in inviteTokens <==> r in old(inviteTokens))
      ensures forall r :: r in inviteTokens && (r != room || !added) ==> inviteTokens[r] == old(inviteTokens)[r]
    {
      if room !in rooms {
        return false;
      }
      var tokens := map[];
      if room in inviteTokens {
        tokens := inviteTokens[room];
      }
      if token in tokens {
        return false;
      }
      inviteTokens := inviteTokens[room := tokens[token := ""]];
      return true;
    }

    /** Notifies and closes the open sockets among these clients; a closed socket gets nothing more. */
    method CloseEach(clients: seq<Conn>)
      modifies this`sent, this`open
      ensures open == old(open) - (set c | c in clients)
      ensures sent == Notified(old(sent), (set c | c in clients) * old(open))
    {
      NotifiedNone(sent);
      ghost var gone := {};
      for i := 0 to |clients|
        invariant gone == (set c | c in clients[..i]) * old(open)
        invariant open == old(open) - gone && sent == Notified(old(sent), gone)
      {
        var c := clients[i];
        assert clients[..i + 1] == clients[..i] + [c];
        if c in open {
          NotifiedOne(sent, c);
          NotifiedTwice(old(sent), gone, {c});
          sent := sent[c := SentOn(sent, c) + [RoomClosed]];
          open := open - {c};
          gone := gone + {c};
        }
      }
      assert clients[..|clients|] == clients;
    }

    /** One round of the loop over expired rooms; `done` are the rooms of `h` that have gone already. */
    method ReapRoom(room: string, ghost h: Hall, ghost done: set<string>)
      requires room in rooms && room in h.rooms && h.rooms[room].clients == rooms[room].clients
      requires open == h.open - Affected(h, done) && sent == Notified(h.sent, Affected(h, done))
      modifies this
      ensures rooms == old(rooms) - {room} && inviteTokens == old(inviteTokens) - {room}
      ensures open == h.open - Affected(h, done + {room}) && sent == Notified(h.sent, Affected(h, done + {room}))
    {
      ghost var clients := set c | c in rooms[room].clients;
      AffectedStep(h, done, room);
      NotifiedTwice(h.sent, Affected(h, done), clients * open);
      assert Affected(h, done) + clients * open == Affected(h, done + {room});
      CloseEach(rooms[room].clients);
      rooms := rooms - {room};
      inviteTokens := inviteTokens - {room};
    }

    /** The loop over expired rooms. */
    method ReapEach(expired: set<string>)
      requires Valid() && expired <= rooms.Keys
      modifies this
      ensures rooms == old(rooms) - expired && inviteTokens == old(inviteTokens) - expired
      ensures open == old(open) - Affected(old(View()), expired)
      ensures sent == Notified(old(sent), Affected(old(View()), expired))
    {
      ghost var h := View();
      ghost var done := {};
      var todo := expired;
      NotifiedNone(sent);
      assert Affected(h, done) == {};
      while todo != {}
        invariant todo == expired - done && done <= expired
        invariant rooms == old(rooms) - done && inviteTokens == old(inviteTokens) - done
        invariant open == h.open - Affected(h, done) && sent == Notified(h.sent, Affected(h, done))
        decreases todo
      {
        var room :| room in todo;
        ReapRoom(room, h, done);
        todo := todo - {room};
        done := done + {room};
      }
      assert done == expired;
    }

    method CleanupExpiredRooms(now: int)
      requires Valid()
      modifies this
      ensures Valid() && rooms.Values <= old(rooms.Values)
      ensures View() == Cleaned(old(View()), now, lim)
    {
      ghost var h := View();
      var expired := set room | room in rooms && rooms[room].IsExpired(now, lim);
      assert expired == ExpiredRooms(h, now, lim);
      ReapEach(expired);
      assert View().rooms == Cleaned(h, now, lim).rooms;
    }
  }

  lemma AffectedStep(h: Hall, which: set<string>, room: string)
    requires room in h.rooms
    ensures Affected(h, which + {room}) == Affected(h, which) + (set c | c in h.rooms[room].clients && c in h.open)
  {
    forall c | c in Affected(h, which + {room}) && c !in Affected(h, which) ensures c in h.rooms[room].clients {
      var r :| r in which + {room} && r in h.rooms && c in h.rooms[r].clients;
    }
    forall c | c in h.open && (c in Affected(h, which) || c in h.rooms[room].clients)
      ensures c in Affected(h, which + {room})
    {
      if c in h.rooms[room].clients {
        assert room in which + {room};
      } else {
        var r :| r in which && r in h.rooms && c in h.rooms[r].clients;
        assert r in which + {room};
      }
    }
  }
}
