/**
 The other rooms of the relay. Their clients share its tables, its sockets and
 its guards with the clients of a room; nothing they do changes the room, its
 list, its tokens, its clients' records and sockets, or writes anything to them.
 */
module OtherRooms {
  import opened Wrappers
  import opened PeerSession
  import H = Handshake
  import opened Rooms
  import opened Relay
  import opened RelayStructure
  import opened HandshakeRelay

  /** A client of another room. */
  predicate Stranger(w: World, n: H.Net, c: nat) {
    c < |n.links| && n.links[c].owner == w.stranger
  }

  /** Nothing about the room has changed, and its clients have been told nothing. */
  ghost predicate Aloof(w: World, n: H.Net, s: Relay, t: Relay) {
    && Listed(t.hall, w.room) == Listed(s.hall, w.room) && SameTokens(w, s.hall, t.hall)
    && (forall room :: room != w.room ==> Strangers(w, n, Listed(t.hall, room)))
    && t.hall.open <= s.hall.open
    && (forall c :: c in t.hall.sent ==> c in s.hall.sent || c in s.hall.open)
    && (forall c :: c in t.clients ==> c in s.clients)
    && (forall c :: c in t.clients && Stranger(w, n, c) ==> t.clients[c].roomId != Some(w.room))
    && (forall c :: 0 <= c < |n.links| && n.links[c].owner != w.stranger ==> Untouched(s, t, c))
  }

  /** The room has the tokens that it had, bound or unused as they were. */
  predicate SameTokens(w: World, h: Hall, k: Hall) {
    && (w.room in k.tokens <==> w.room in h.tokens)
    && (w.room in h.tokens ==> k.tokens[w.room] == h.tokens[w.room])
  }

  predicate Untouched(s: Relay, t: Relay, c: Conn) {
    && (c in t.hall.open <==> c in s.hall.open) && SentTo(t.hall, c) == SentTo(s.hall, c)
    && (c in t.clients <==> c in s.clients) && (c in s.clients ==> t.clients[c] == s.clients[c])
  }

  lemma AloofMatches(w: World, n: H.Net, s: Relay, t: Relay)
    requires Matches(w, n, s) && Aloof(w, n, s, t)
    ensures Matches(w, n, t)
  {
    forall c | c in t.clients ensures c < |n.links| && RecordMatches(w, n.links[c], t.clients[c]) {
      assert c in s.clients && RecordMatches(w, n.links[c], s.clients[c]);
      if n.links[c].owner == w.stranger {
        assert Stranger(w, n, c);
      }
    }
    forall c | 0 <= c < |n.links| && n.links[c].owner != w.stranger
      ensures c in t.clients <==> n.links[c].record != H.Gone
      ensures c in t.hall.open <==> n.links[c].open
    {
      assert Untouched(s, t, c);
    }
  }

  lemma AloofTwice(w: World, n: H.Net, s: Relay, t: Relay, u: Relay)
    requires Aloof(w, n, s, t) && Aloof(w, n, t, u)
    ensures Aloof(w, n, s, u)
  {
    forall c | 0 <= c < |n.links| && n.links[c].owner != w.stranger ensures Untouched(s, u, c) {
      assert Untouched(s, t, c) && Untouched(t, u, c);
    }
  }

  // The pieces of an event.

  lemma ReplyAloof(w: World, n: H.Net, s: Relay, c: nat, f: Frame)
    requires Matches(w, n, s) && Stranger(w, n, c)
    ensures Aloof(w, n, s, Reply(s, c, f))
  {
    assert forall room :: Listed(Reply(s, c, f).hall, room) == Listed(s.hall, room);
    StrangersRecords(w, n, s);
  }

  lemma StrangersRecords(w: World, n: H.Net, s: Relay)
    requires Matches(w, n, s)
    ensures forall c :: c in s.clients && Stranger(w, n, c) ==> s.clients[c].roomId != Some(w.room)
  {
    forall c | c in s.clients && Stranger(w, n, c) ensures s.clients[c].roomId != Some(w.room) {
      assert RecordMatches(w, n.links[c], s.clients[c]);
    }
  }

  lemma RecordAloof(w: World, n: H.Net, s: Relay, c: nat, cl: Client)
    requires Matches(w, n, s) && Stranger(w, n, c) && c in s.clients && cl.roomId != Some(w.room)
    ensures Aloof(w, n, s, SetClient(s, c, cl))
  {
    StrangersRecords(w, n, s);
  }

  lemma GuardsAloof(w: World, n: H.Net, s: Relay, g: Guards)
    requires Matches(w, n, s)
    ensures Aloof(w, n, s, s.(guards := g))
  {
    StrangersRecords(w, n, s);
  }

  lemma ShutAloof(w: World, n: H.Net, s: Relay, c: nat)
    requires Matches(w, n, s) && Stranger(w, n, c)
    ensures Aloof(w, n, s, s.(hall := s.hall.(open := s.hall.open - {c})))
  {
    StrangersRecords(w, n, s);
    assert forall room :: Listed(s.hall.(open := s.hall.open - {c}), room) == Listed(s.hall, room);
  }

  /** One violation more. */
  function Counted(s: Relay, c: nat): Relay
    requires c in s.clients
  {
    SetClient(s, c, s.clients[c].(violations := s.clients[c].violations + 1))
  }

  lemma CountedAloof(w: World, n: H.Net, s: Relay, c: nat)
    requires Matches(w, n, s) && Stranger(w, n, c) && c in s.clients
    ensures Aloof(w, n, s, Counted(s, c)) && Matches(w, n, Counted(s, c))
  {
    StrangersRecords(w, n, s);
    RecordAloof(w, n, s, c, s.clients[c].(violations := s.clients[c].violations + 1));
    AloofMatches(w, n, s, Counted(s, c));
  }

  lemma CountedFailAloof(w: World, n: H.Net, s: Relay, c: nat)
    requires Matches(w, n, s) && Stranger(w, n, c) && c in s.clients && w.policy.maxViolations.Some?
    ensures Aloof(w, n, s, Fail(s, w.policy, c))
  {
    var t := Counted(s, c);
    CountedAloof(w, n, s, c);
    if s.clients[c].violations + 1 >= w.policy.maxViolations.value {
      ShutAloof(w, n, t, c);
    } else {
      ReplyAloof(w, n, t, c, Refused);
    }
    AloofTwice(w, n, s, t, Fail(s, w.policy, c));
  }

  lemma FailAloof(w: World, n: H.Net, s: Relay, c: nat)
    requires Matches(w, n, s) && Stranger(w, n, c) && c in s.clients
    ensures Aloof(w, n, s, Fail(s, w.policy, c))
  {
    if w.policy.maxViolations.None? {
      ReplyAloof(w, n, s, c, Refused);
    } else {
      CountedFailAloof(w, n, s, c);
    }
  }

  lemma {:induction false} SpreadMisses(wire: Wire, open: set<Conn>, to: seq<Conn>, sender: Conn, f: Frame, d: Conn)
    requires d !in to
    ensures SentOn(Spread(wire, open, to, sender, f), d) == SentOn(wire, d)
    decreases |to|
  {
    if to != [] {
      SpreadMisses(if to[0] == sender then wire else WriteOn(wire, open, to[0], f), open, to[1..], sender, f, d);
    }
  }

  lemma BroadcastAloof(w: World, n: H.Net, s: Relay, room: string, c: nat, news: News, now: int)
    requires Matches(w, n, s) && room != w.room
    ensures Aloof(w, n, s, s.(hall := Broadcast(s.hall, room, c, news, now)))
  {
    var t := s.(hall := Broadcast(s.hall, room, c, news, now));
    var list := Listed(s.hall, room);
    StrangersRecords(w, n, s);
    assert forall r :: Listed(t.hall, r) == Listed(s.hall, r);
    SpreadsToOpen(s.hall.sent, s.hall.open, list, c, Cast(room, c, news));
    assert Strangers(w, n, list);
    forall d | 0 <= d < |n.links| && n.links[d].owner != w.stranger ensures Untouched(s, t, d) {
      SpreadMisses(s.hall.sent, s.hall.open, list, c, Cast(room, c, news), d);
    }
  }

  /** Another room's list or tokens change. */
  lemma RoomAloof(w: World, n: H.Net, s: Relay, h: Hall)
    requires Matches(w, n, s) && h.open == s.hall.open && h.sent == s.hall.sent
    requires Listed(h, w.room) == Listed(s.hall, w.room) && SameTokens(w, s.hall, h)
    requires forall room :: room != w.room ==> Strangers(w, n, Listed(h, room))
    ensures Aloof(w, n, s, s.(hall := h))
  {
    StrangersRecords(w, n, s);
  }

  lemma PlacedAloof(w: World, n: H.Net, s: Relay, c: nat, room: string, now: int)
    requires Matches(w, n, s) && Stranger(w, n, c) && c in s.clients && room != w.room
    ensures Aloof(w, n, s, Placed(s, w.policy, c, room, now))
  {
    var h := ClientAdded(s.hall, room, c, now, w.policy.lim);
    forall r | r != w.room ensures Strangers(w, n, Listed(h, r)) {
      assert Strangers(w, n, Listed(s.hall, r));
      assert forall d :: d in Listed(h, r) ==> d in Listed(s.hall, r) || d == c;
    }
    RoomAloof(w, n, s, h);
    var t := s.(hall := h);
    AloofMatches(w, n, s, t);
    RecordAloof(w, n, t, c, s.clients[c].(roomId := Some(room)));
    AloofTwice(w, n, s, t, Placed(s, w.policy, c, room, now));
  }

  lemma WelcomedAloof(w: World, n: H.Net, s: Relay, c: nat, room: string, now: int)
    requires Matches(w, n, s) && Stranger(w, n, c) && c in s.clients && room != w.room
    ensures Aloof(w, n, s, Welcomed(s, c, room, now))
  {
    var t := Reply(s, c, Done);
    ReplyAloof(w, n, s, c, Done);
    AloofMatches(w, n, s, t);
    BroadcastAloof(w, n, t, room, c, Joined(s.clients[c].fingerprint), now);
    AloofTwice(w, n, s, t, Welcomed(s, c, room, now));
  }

  lemma TokensAloof(w: World, n: H.Net, s: Relay, tokens: Tokens)
    requires Matches(w, n, s) && SameTokens(w, s.hall, s.hall.(tokens := tokens))
    ensures Aloof(w, n, s, s.(hall := s.hall.(tokens := tokens)))
  {
    assert forall room :: Listed(s.hall.(tokens := tokens), room) == Listed(s.hall, room);
    RoomAloof(w, n, s, s.hall.(tokens := tokens));
  }

  // The events.

  lemma CreatedNewAloof(w: World, n: H.Net, s: Relay, c: nat, room: string, token: string, now: int)
    requires Matches(w, n, s) && Stranger(w, n, c) && c in s.clients && room != w.room && room !in s.hall.rooms
    ensures Aloof(w, n, s, CreatedNew(s, w.policy, c, room, token, now))
  {
    var h := RoomAdded(s.hall, room, token, now);
    forall r | r != w.room ensures Strangers(w, n, Listed(h, r)) {
      assert Strangers(w, n, Listed(s.hall, r));
    }
    RoomAloof(w, n, s, h);
    var t := s.(hall := h);
    AloofMatches(w, n, s, t);
    PlacedAloof(w, n, t, c, room, now);
    var u := Placed(t, w.policy, c, room, now);
    AloofMatches(w, n, t, u);
    ReplyAloof(w, n, u, c, Done);
    AloofTwice(w, n, t, u, Reply(u, c, Done));
    AloofTwice(w, n, s, t, Reply(u, c, Done));
  }

  lemma AdmittedAloof(w: World, n: H.Net, s: Relay, c: nat, room: string, token: string, fp: Option<string>, now: int,
                      binds: bool)
    requires Matches(w, n, s) && Stranger(w, n, c) && c in s.clients && room != w.room
    ensures var t := Placed(s, w.policy, c, room, now);
            var u := if binds then t.(hall := t.hall.(tokens := TokenBound(t.hall.tokens, room, token, fp))) else t;
            Aloof(w, n, s, Welcomed(u, c, room, now))
  {
    var t := Placed(s, w.policy, c, room, now);
    PlacedAloof(w, n, s, c, room, now);
    AloofMatches(w, n, s, t);
    var u := if binds then t.(hall := t.hall.(tokens := TokenBound(t.hall.tokens, room, token, fp))) else t;
    TokensAloof(w, n, t, u.hall.tokens);
    AloofMatches(w, n, t, u);
    WelcomedAloof(w, n, u, c, room, now);
    AloofTwice(w, n, t, u, Welcomed(u, c, room, now));
    AloofTwice(w, n, s, t, Welcomed(u, c, room, now));
  }

  lemma EntryAloof(w: World, n: H.Net, s: Relay, e: Event)
    requires Matches(w, n, s) && Enabled(s, e) && IsEntry(e) && Stranger(w, n, e.c) && e.room != w.room
    ensures Aloof(w, n, s, Next(s, w.policy, e))
  {
    var t := SetClient(s, e.c, WithIdentity(s.clients[e.c], e.fp));
    StrangersRecords(w, n, s);
    RecordAloof(w, n, s, e.c, WithIdentity(s.clients[e.c], e.fp));
    AloofMatches(w, n, s, t);
    FailAloof(w, n, t, e.c);
    AdmittedAloof(w, n, t, e.c, e.room, e.token, e.fp, e.time, e.Join?);
    if e.Create? && e.room !in s.hall.rooms {
      CreatedNewAloof(w, n, t, e.c, e.room, e.token, e.time);
    }
    AloofTwice(w, n, s, t, Next(s, w.policy, e));
  }

  lemma AnnounceAloof(w: World, n: H.Net, s: Relay, e: Event)
    requires Matches(w, n, s) && Enabled(s, e) && e.Announce? && Stranger(w, n, e.c)
    ensures Aloof(w, n, s, Next(s, w.policy, e))
  {
    var cl := s.clients[e.c];
    StrangersRecords(w, n, s);
    if cl.roomId.Some? && cl.roomId.value != e.room {
      FailAloof(w, n, s, e.c);
    } else {
      var t := SetClient(s, e.c, cl.(fingerprint := Some(e.from)));
      RecordAloof(w, n, s, e.c, cl.(fingerprint := Some(e.from)));
      AloofMatches(w, n, s, t);
      if cl.roomId.Some? {
        BroadcastAloof(w, n, t, e.room, e.c, Key(e.from, e.key), e.time);
        AloofTwice(w, n, s, t, Next(s, w.policy, e));
      }
    }
  }

  lemma DeliveredAloof(w: World, n: H.Net, s: Relay, c: nat, room: string, m: Payload, now: int)
    requires Matches(w, n, s) && Stranger(w, n, c) && room != w.room
    ensures Aloof(w, n, s, Delivered(s, c, room, m, now))
  {
    if m.to.None? {
      BroadcastAloof(w, n, s, room, c, Message(m.body), now);
    } else {
      GuardsAloof(w, n, s, s.guards);
      assert Strangers(w, n, Listed(s.hall, room));
      if room in s.hall.rooms {
        var d := FindClient(s.clients, s.departed, s.hall.rooms[room].clients, m.to.value);
        if d.Some? {
          ReplyAloof(w, n, s, d.value, Direct(m.body));
        }
      }
    }
  }

  lemma SendAloof(w: World, n: H.Net, s: Relay, e: Event)
    requires Matches(w, n, s) && Enabled(s, e) && e.Send? && Stranger(w, n, e.c)
    ensures Aloof(w, n, s, Next(s, w.policy, e))
  {
    StrangersRecords(w, n, s);
    if s.clients[e.c].roomId != Some(e.room) {
      FailAloof(w, n, s, e.c);
    } else {
      var t := s.(guards := Guarded(s.guards, w.policy, s.clients[e.c].fingerprint, e.m, e.time));
      GuardsAloof(w, n, s, t.guards);
      AloofMatches(w, n, s, t);
      FailAloof(w, n, t, e.c);
      DeliveredAloof(w, n, t, e.c, e.room, e.m, e.time);
      AloofTwice(w, n, s, t, Next(s, w.policy, e));
    }
  }

  lemma InviteAloof(w: World, n: H.Net, s: Relay, e: Event)
    requires Matches(w, n, s) && Enabled(s, e) && e.Invite? && Stranger(w, n, e.c)
    ensures Aloof(w, n, s, Next(s, w.policy, e))
  {
    StrangersRecords(w, n, s);
    FailAloof(w, n, s, e.c);
    if s.clients[e.c].roomId == Some(e.room) {
      var h := TokenAdded(s.hall, e.room, e.token);
      TokensAloof(w, n, s, h.tokens);
      assert h == s.hall.(tokens := h.tokens);
      AloofMatches(w, n, s, s.(hall := h));
      ReplyAloof(w, n, s.(hall := h), e.c, Done);
      AloofTwice(w, n, s, s.(hall := h), Reply(s.(hall := h), e.c, Done));
    }
  }

  lemma RemovedAloof(w: World, n: H.Net, s: Relay, room: string, c: nat, now: int)
    requires Matches(w, n, s) && room != w.room
    ensures Aloof(w, n, s, s.(hall := ClientRemoved(s.hall, room, c, now)))
  {
    var h := ClientRemoved(s.hall, room, c, now);
    forall r | r != w.room ensures Strangers(w, n, Listed(h, r)) {
      assert Strangers(w, n, Listed(s.hall, r));
      assert forall d :: d in Listed(h, r) ==> d in Listed(s.hall, r);
    }
    RoomAloof(w, n, s, h);
  }

  lemma LeaveAloof(w: World, n: H.Net, s: Relay, c: nat, now: int)
    requires Matches(w, n, s) && Stranger(w, n, c) && c in s.clients
    ensures Aloof(w, n, s, LeftRoom(s, c, now))
  {
    var cl := s.clients[c];
    StrangersRecords(w, n, s);
    GuardsAloof(w, n, s, s.guards);
    if cl.roomId.Some? {
      var t := s.(hall := Broadcast(s.hall, cl.roomId.value, c, Left(cl.fingerprint), now));
      BroadcastAloof(w, n, s, cl.roomId.value, c, Left(cl.fingerprint), now);
      AloofMatches(w, n, s, t);
      var u := t.(hall := ClientRemoved(t.hall, cl.roomId.value, c, now));
      RemovedAloof(w, n, t, cl.roomId.value, c, now);
      AloofMatches(w, n, t, u);
      AloofTwice(w, n, s, t, u);
      LeaverAloof(w, n, u, c, Purged(s.guards, cl.fingerprint), cl.(roomId := None));
      AloofTwice(w, n, s, u, LeftRoom(s, c, now));
    }
  }

  /** What the leaving client itself is told and remembered for. */
  lemma LeaverAloof(w: World, n: H.Net, s: Relay, c: nat, g: Guards, cl: Client)
    requires Matches(w, n, s) && Stranger(w, n, c) && c in s.clients && cl.roomId == None
    ensures Aloof(w, n, s, Reply(SetClient(s.(guards := g), c, cl), c, Done))
  {
    var t := s.(guards := g);
    GuardsAloof(w, n, s, g);
    AloofMatches(w, n, s, t);
    var u := SetClient(t, c, cl);
    RecordAloof(w, n, t, c, cl);
    AloofMatches(w, n, t, u);
    ReplyAloof(w, n, u, c, Done);
    AloofTwice(w, n, t, u, Reply(u, c, Done));
    AloofTwice(w, n, s, t, Reply(u, c, Done));
  }

  lemma DisconnectAloof(w: World, n: H.Net, s: Relay, c: nat, now: int)
    requires Matches(w, n, s) && Stranger(w, n, c) && c in s.clients
    ensures Aloof(w, n, s, Disconnected(s, c, now))
  {
    var cl := s.clients[c];
    var t := s.(hall := s.hall.(open := s.hall.open - {c}), clients := s.clients - {c},
                departed := s.departed[c := cl.fingerprint]);
    StrangersRecords(w, n, s);
    assert forall room :: Listed(t.hall, room) == Listed(s.hall, room);
    assert Aloof(w, n, s, t);
    AloofMatches(w, n, s, t);
    if cl.roomId.Some? {
      var u := t.(hall := ClientRemoved(t.hall, cl.roomId.value, c, now));
      RemovedAloof(w, n, t, cl.roomId.value, c, now);
      AloofMatches(w, n, t, u);
      var v := u.(hall := Broadcast(u.hall, cl.roomId.value, c, Left(cl.fingerprint), now));
      BroadcastAloof(w, n, u, cl.roomId.value, c, Left(cl.fingerprint), now);
      AloofMatches(w, n, u, v);
      GuardsAloof(w, n, v, Forgotten(s.guards, cl.fingerprint));
      AloofTwice(w, n, u, v, Disconnected(s, c, now));
      AloofTwice(w, n, t, u, Disconnected(s, c, now));
      AloofTwice(w, n, s, t, Disconnected(s, c, now));
    }
  }

  lemma TypeAloof(w: World, n: H.Net, s: Relay, e: Event)
    requires Matches(w, n, s) && Enabled(s, e) && e.Type? && Stranger(w, n, e.c)
    ensures Aloof(w, n, s, Next(s, w.policy, e))
  {
    var cl := s.clients[e.c];
    StrangersRecords(w, n, s);
    GuardsAloof(w, n, s, s.guards);
    if cl.roomId.Some? {
      BroadcastAloof(w, n, s, cl.roomId.value, e.c, Typing(e.start, cl.fingerprint), e.time);
    }
  }

  /** Whatever a client of another room does there, the room and its clients do not notice. */
  lemma StrangersAreAloof(w: World, n: H.Net, s: Relay, e: Event)
    requires Matches(w, n, s) && Enabled(s, e) && !e.Accept? && !e.Cleanup? && Stranger(w, n, e.c)
    requires IsEntry(e) ==> e.room != w.room
    ensures Aloof(w, n, s, Next(s, w.policy, e)) && Matches(w, n, Next(s, w.policy, e))
  {
    match e {
      case Create(_, _, _, _, _) => EntryAloof(w, n, s, e);
      case Join(_, _, _, _, _) => EntryAloof(w, n, s, e);
      case Announce(_, _, _, _, _) => AnnounceAloof(w, n, s, e);
      case Send(_, _, _, _) => SendAloof(w, n, s, e);
      case Invite(_, _, _, _) => InviteAloof(w, n, s, e);
      case Type(_, _, _) => TypeAloof(w, n, s, e);
      case Leave(c, now) => LeaveAloof(w, n, s, c, now);
      case Disconnect(c, now) => DisconnectAloof(w, n, s, c, now);
      case Malformed(c, _) => FailAloof(w, n, s, c);
    }
    AloofMatches(w, n, s, Next(s, w.policy, e));
  }

  /** A sweep that spares the room. */
  lemma SweepIsAloof(w: World, n: H.Net, s: Relay, now: int)
    requires Matches(w, n, s)
    requires !(w.room in s.hall.rooms && Expired(s.hall.rooms[w.room], now, w.policy.lim))
    ensures Aloof(w, n, s, s.(hall := Cleaned(s.hall, now, w.policy.lim)))
    ensures Matches(w, n, s.(hall := Cleaned(s.hall, now, w.policy.lim)))
  {
    var t := s.(hall := Cleaned(s.hall, now, w.policy.lim));
    StrangersRecords(w, n, s);
    forall room | room != w.room ensures Strangers(w, n, Listed(t.hall, room)) {
      assert Strangers(w, n, Listed(s.hall, room));
    }
    forall d | 0 <= d < |n.links| && n.links[d].owner != w.stranger ensures Untouched(s, t, d) {
      ReapAffects(w, n, s.hall, now, d);
    }
    AloofMatches(w, n, s, t);
  }

  // A client of another room connects.

  /** In the step system of the room, the stranger gets a connection and loses it. */
  function Visit(w: World, c: nat): seq<H.Step> {
    [H.Connect(w.stranger, false), H.Drop(w.stranger, 0, H.Teardown), H.Close(c)]
  }

  function Visited(w: World, n: H.Net): H.Net {
    n.(links := n.links + [H.Link(w.stranger, [], [], false, H.Gone)])
  }

  lemma VisitIsARun(w: World, n: H.Net)
    requires BrowsersMatch(w, n)
    ensures H.DisciplinedRun(n, Visit(w, |n.links|)) && H.After(n, Visit(w, |n.links|)) == Visited(w, n)
  {
    var a, b, c := H.Connect(w.stranger, false), H.Drop(w.stranger, 0, H.Teardown), H.Close(|n.links|);
    var m := H.Next(n, a);
    assert m.links == n.links + [H.Link(w.stranger, [], [], true, H.Outside)];
    var k := H.Next(m, b);
    assert k.links == m.links && k.browsers == n.browsers;
    assert H.Next(k, c) == Visited(w, n);
    assert [a, b, c][1..] == [b, c] && [b, c][1..] == [c] && [c][1..] == [];
    assert H.DisciplinedRun(k, [c]) && H.DisciplinedRun(m, [b, c]);
    assert H.After(k, [c]) == H.Next(k, c) && H.After(m, [b, c]) == H.After(k, [c]);
  }

  lemma VisitMatches(w: World, n: H.Net, s: Relay)
    requires Matches(w, n, s)
    ensures Matches(w, Visited(w, n), Accepted(s, |n.links|))
  {
    var m, t, c := Visited(w, n), Accepted(s, |n.links|), |n.links|;
    forall d | d in t.clients ensures d < |m.links| && RecordMatches(w, m.links[d], t.clients[d]) {
      assert d != c ==> d in s.clients && RecordMatches(w, n.links[d], s.clients[d]);
    }
    VisitHall(w, n, s);
  }

  lemma VisitHall(w: World, n: H.Net, s: Relay)
    requires Matches(w, n, s)
    ensures HallMatches(w, Visited(w, n), Accepted(s, |n.links|).hall)
  {
    forall room | room != w.room ensures Strangers(w, Visited(w, n), Listed(Accepted(s, |n.links|).hall, room)) {
      assert Strangers(w, n, Listed(s.hall, room));
    }
  }
}
