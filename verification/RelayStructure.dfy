/** What every event keeps: room lists, token table and the clients' own records. */
module RelayStructure {
  import opened Wrappers
  import opened Rooms
  import opened Relay

  // Runs.

  predicate Possible(s: Relay, p: Policy, es: seq<Event>)
    decreases |es|
  {
    es == [] || (Enabled(s, es[0]) && Possible(Next(s, p, es[0]), p, es[1..]))
  }

  function After(s: Relay, p: Policy, es: seq<Event>): Relay
    requires Possible(s, p, es)
    decreases |es|
  {
    if es == [] then s else After(Next(s, p, es[0]), p, es[1..])
  }

  lemma RunCons(s: Relay, p: Policy, e: Event, es: seq<Event>)
    requires Enabled(s, e) && Possible(Next(s, p, e), p, es)
    ensures Possible(s, p, [e] + es) && After(s, p, [e] + es) == After(Next(s, p, e), p, es)
  {
    assert ([e] + es)[1..] == es;
  }

  // Room lists and tokens.

  ghost predicate ListsOk(h: Hall, p: Policy) {
    && (forall room :: room in h.rooms ==>
          Distinct(h.rooms[room].clients) && |h.rooms[room].clients| <= p.lim.maxParticipants)
    && (forall room :: room in h.tokens ==> room in h.rooms)
  }

  lemma RoomOpsKeepLists(h: Hall, p: Policy, room: string, token: string, c: Conn, now: int)
    requires ListsOk(h, p)
    ensures ListsOk(RoomAdded(h, room, token, now), p)
    ensures ListsOk(ClientAdded(h, room, c, now, p.lim), p)
    ensures ListsOk(ClientRemoved(h, room, c, now), p)
    ensures ListsOk(TokenAdded(h, room, token), p)
    ensures ListsOk(Cleaned(h, now, p.lim), p)
  {
    if room in h.rooms {
      WithoutDistinct(h.rooms[room].clients, c);
      WithoutLength(h.rooms[room].clients, c);
    }
  }

  lemma BroadcastKeepsLists(h: Hall, p: Policy, room: string, c: Conn, news: News, now: int)
    requires ListsOk(h, p)
    ensures ListsOk(Broadcast(h, room, c, news, now), p)
  {
  }

  lemma FailKeepsLists(s: Relay, p: Policy, c: Conn)
    requires ListsOk(s.hall, p) && c in s.clients
    ensures ListsOk(Fail(s, p, c).hall, p)
  {
  }

  lemma WelcomeKeepsLists(s: Relay, p: Policy, c: Conn, room: string, now: int)
    requires ListsOk(s.hall, p) && c in s.clients
    ensures ListsOk(Welcomed(s, c, room, now).hall, p)
  {
    BroadcastKeepsLists(Reply(s, c, Done).hall, p, room, c, Joined(s.clients[c].fingerprint), now);
  }

  lemma CreateKeepsLists(s: Relay, p: Policy, c: Conn, room: string, token: string, fp: Option<string>, now: int)
    requires ListsOk(s.hall, p) && c in s.clients
    ensures ListsOk(Created(s, p, c, room, token, fp, now).hall, p)
  {
    var t := SetClient(s, c, WithIdentity(s.clients[c], fp));
    RoomOpsKeepLists(s.hall, p, room, token, c, now);
    if room !in s.hall.rooms {
      RoomOpsKeepLists(RoomAdded(s.hall, room, token, now), p, room, token, c, now);
    } else {
      FailKeepsLists(t, p, c);
      WelcomeKeepsLists(Placed(t, p, c, room, now), p, c, room, now);
    }
  }

  lemma JoinKeepsLists(s: Relay, p: Policy, c: Conn, room: string, token: string, fp: Option<string>, now: int)
    requires ListsOk(s.hall, p) && c in s.clients
    ensures ListsOk(JoinedRoom(s, p, c, room, token, fp, now).hall, p)
  {
    var t := SetClient(s, c, WithIdentity(s.clients[c], fp));
    FailKeepsLists(t, p, c);
    if room in s.hall.rooms {
      RoomOpsKeepLists(s.hall, p, room, token, c, now);
      var u := Placed(t, p, c, room, now);
      var v := u.(hall := u.hall.(tokens := TokenBound(u.hall.tokens, room, token, fp)));
      WelcomeKeepsLists(v, p, c, room, now);
    }
  }

  lemma GoingKeepsLists(s: Relay, p: Policy, c: Conn, now: int)
    requires ListsOk(s.hall, p) && c in s.clients
    ensures ListsOk(LeftRoom(s, c, now).hall, p) && ListsOk(Disconnected(s, c, now).hall, p)
  {
    var cl := s.clients[c];
    if cl.roomId.Some? {
      var room, left := cl.roomId.value, Left(cl.fingerprint);
      RoomOpsKeepLists(Broadcast(s.hall, room, c, left, now), p, room, "", c, now);
      var h := s.hall.(open := s.hall.open - {c});
      RoomOpsKeepLists(h, p, room, "", c, now);
      BroadcastKeepsLists(ClientRemoved(h, room, c, now), p, room, c, left, now);
    }
  }

  /** A message changes no token and no list, and only a broadcast that passes the guards moves the activity time. */
  lemma SendKeepsRest(s: Relay, p: Policy, c: Conn, room: string, m: Payload, now: int)
    requires c in s.clients
    ensures var t := SentMessage(s, p, c, room, m, now).hall;
            var spoken := s.clients[c].roomId == Some(room) && m.to.None?
                          && Passes(s.guards, p, s.clients[c].fingerprint, m, now);
            && t.tokens == s.hall.tokens && t.rooms.Keys == s.hall.rooms.Keys
            && forall r :: r in t.rooms ==>
                 t.rooms[r] == if spoken && r == room then s.hall.rooms[r].(lastActivity := now) else s.hall.rooms[r]
  {
  }

  lemma SendKeepsLists(s: Relay, p: Policy, c: Conn, room: string, m: Payload, now: int)
    requires ListsOk(s.hall, p) && c in s.clients
    ensures ListsOk(SentMessage(s, p, c, room, m, now).hall, p)
  {
    var t := s.(guards := Guarded(s.guards, p, s.clients[c].fingerprint, m, now));
    FailKeepsLists(s, p, c);
    FailKeepsLists(t, p, c);
    BroadcastKeepsLists(t.hall, p, room, c, Message(m.body), now);
  }

  lemma SpeechKeepsLists(s: Relay, p: Policy, e: Event)
    requires ListsOk(s.hall, p) && Enabled(s, e) && (e.Announce? || e.Type?)
    ensures ListsOk(Next(s, p, e).hall, p)
  {
  }

  lemma InviteKeepsLists(s: Relay, p: Policy, c: Conn, room: string, token: string)
    requires ListsOk(s.hall, p) && c in s.clients
    ensures ListsOk(Invited(s, p, c, room, token).hall, p)
  {
    RoomOpsKeepLists(s.hall, p, room, token, c, 0);
  }

  lemma StepKeepsLists(s: Relay, p: Policy, e: Event)
    requires ListsOk(s.hall, p) && Enabled(s, e)
    ensures ListsOk(Next(s, p, e).hall, p)
  {
    match e
    case Accept(c, _) =>
    case Create(c, room, token, fp, now) => CreateKeepsLists(s, p, c, room, token, fp, now);
    case Join(c, room, token, fp, now) => JoinKeepsLists(s, p, c, room, token, fp, now);
    case Send(c, room, m, now) => SendKeepsLists(s, p, c, room, m, now);
    case Invite(c, room, token, now) => InviteKeepsLists(s, p, c, room, token);
    case Leave(c, now) => GoingKeepsLists(s, p, c, now);
    case Disconnect(c, now) => GoingKeepsLists(s, p, c, now);
    case Cleanup(now) => RoomOpsKeepLists(s.hall, p, "", "", 0, now);
    case Malformed(c, _) => FailKeepsLists(s, p, c);
    case _ => SpeechKeepsLists(s, p, e);
  }

  /** In every run each room keeps to its capacity without repetition, and tokens belong to live rooms. */
  lemma {:induction false} ListsAlwaysOk(s: Relay, p: Policy, es: seq<Event>)
    requires ListsOk(s.hall, p) && Possible(s, p, es)
    ensures ListsOk(After(s, p, es).hall, p)
    decreases |es|
  {
    if es != [] {
      StepKeepsLists(s, p, es[0]);
      ListsAlwaysOk(Next(s, p, es[0]), p, es[1..]);
    }
  }

  // The clients' records.

  /** Room lists and client records agree, for every client whose socket the relay has not closed. */
  ghost predicate RecordsOk(s: Relay) {
    && s.hall.open <= s.clients.Keys
    && (forall room, c :: room in s.hall.rooms && c in s.hall.rooms[room].clients ==>
          c in s.clients && s.clients[c].roomId == Some(room))
    && (forall c :: c in s.hall.open && s.clients[c].roomId.Some? ==>
          s.clients[c].roomId.value in s.hall.rooms && c in s.hall.rooms[s.clients[c].roomId.value].clients)
  }

  lemma SettingKeepsRecords(s: Relay, c: Conn, cl: Client)
    requires RecordsOk(s) && c in s.clients && cl.roomId == s.clients[c].roomId
    ensures RecordsOk(SetClient(s, c, cl))
  {
  }

  lemma FailKeepsRecords(s: Relay, p: Policy, c: Conn)
    requires RecordsOk(s) && c in s.clients
    ensures RecordsOk(Fail(s, p, c))
  {
  }

  lemma BroadcastKeepsRecords(s: Relay, c: Conn, room: string, news: News, now: int)
    requires RecordsOk(s)
    ensures RecordsOk(s.(hall := Broadcast(s.hall, room, c, news, now)))
  {
  }

  /** A client that goes is taken off the only list that has it. */
  lemma RemovalKeepsRecords(s: Relay, c: Conn, now: int)
    requires RecordsOk(s) && c in s.clients && s.clients[c].roomId.Some?
    ensures var h := ClientRemoved(s.hall, s.clients[c].roomId.value, c, now);
            && RecordsOk(s.(hall := h, clients := s.clients[c := s.clients[c].(roomId := None)]))
            && RecordsOk(s.(hall := h.(open := h.open - {c}), clients := s.clients - {c}))
  {
    var room := s.clients[c].roomId.value;
    var h := ClientRemoved(s.hall, room, c, now);
    forall r, d | r in h.rooms && d in h.rooms[r].clients
      ensures r in s.hall.rooms && d in s.hall.rooms[r].clients && d != c
    {
      assert s.clients[d].roomId == Some(r);
    }
    forall d | d in h.open && d != c && s.clients[d].roomId.Some?
      ensures s.clients[d].roomId.value in h.rooms && d in h.rooms[s.clients[d].roomId.value].clients
    {
    }
  }

  lemma LeaveKeepsRecords(s: Relay, c: Conn, now: int)
    requires RecordsOk(s) && c in s.clients
    ensures RecordsOk(LeftRoom(s, c, now))
  {
    var cl := s.clients[c];
    if cl.roomId.Some? {
      var t := s.(hall := Broadcast(s.hall, cl.roomId.value, c, Left(cl.fingerprint), now));
      BroadcastKeepsRecords(s, c, cl.roomId.value, Left(cl.fingerprint), now);
      RemovalKeepsRecords(t, c, now);
    }
  }

  lemma DisconnectKeepsRecords(s: Relay, c: Conn, now: int)
    requires RecordsOk(s) && c in s.clients
    ensures RecordsOk(Disconnected(s, c, now))
  {
    var cl := s.clients[c];
    var t := s.(hall := s.hall.(open := s.hall.open - {c}), clients := s.clients - {c},
                departed := s.departed[c := cl.fingerprint]);
    if cl.roomId.Some? {
      RemovalKeepsRecords(s, c, now);
      var u := t.(hall := ClientRemoved(t.hall, cl.roomId.value, c, now));
      assert u.hall == ClientRemoved(s.hall, cl.roomId.value, c, now).(open := s.hall.open - {c});
      BroadcastKeepsRecords(u, c, cl.roomId.value, Left(cl.fingerprint), now);
    }
  }

  lemma CleanupKeepsRecords(s: Relay, p: Policy, now: int)
    requires RecordsOk(s)
    ensures RecordsOk(s.(hall := Cleaned(s.hall, now, p.lim)))
  {
    var gone := ExpiredRooms(s.hall, now, p.lim);
    forall c | c in s.hall.open - Affected(s.hall, gone) && s.clients[c].roomId.Some?
      ensures s.clients[c].roomId.value !in gone
    {
      var room := s.clients[c].roomId.value;
      assert room in s.hall.rooms && c in s.hall.rooms[room].clients;
    }
  }

  // When lists and records part.

  /** The identity that a token is checked against. */
  function Presented(s: Relay, e: Event): Option<string>
    requires IsEntry(e) && Enabled(s, e)
  {
    if e.Create? then WithIdentity(s.clients[e.c], e.fp).fingerprint else e.fp
  }

  predicate IsEntry(e: Event) {
    e.Create? || e.Join?
  }

  predicate Lists(h: Hall, room: string, c: Conn) {
    room in h.rooms && c in h.rooms[room].clients
  }

  /** The relay will put the client on the list of the room it asks for. */
  predicate Accepts(s: Relay, p: Policy, e: Event)
    requires IsEntry(e) && Enabled(s, e)
  {
    if e.room in s.hall.rooms then
      && TokenValid(s.hall.tokens, e.room, e.token, Presented(s, e))
      && |s.hall.rooms[e.room].clients| < p.lim.maxParticipants && !Lists(s.hall, e.room, e.c)
    else e.Create?
  }

  /** A client on the list of its recorded room is accepted into another. */
  predicate Wanders(s: Relay, p: Policy, e: Event)
    requires Enabled(s, e)
  {
    IsEntry(e) && s.clients[e.c].roomId.Some?
    && Lists(s.hall, s.clients[e.c].roomId.value, e.c)
    && e.room != s.clients[e.c].roomId.value && Accepts(s, p, e)
  }

  lemma CreateParts(s: Relay, p: Policy, c: Conn, room: string, token: string, fp: Option<string>, now: int)
    requires RecordsOk(s) && Enabled(s, Create(c, room, token, fp, now)) && p.lim.maxParticipants >= 1
    ensures RecordsOk(Created(s, p, c, room, token, fp, now))
            <==> !Wanders(s, p, Create(c, room, token, fp, now))
  {
    var e, t := Create(c, room, token, fp, now), SetClient(s, c, WithIdentity(s.clients[c], fp));
    SettingKeepsRecords(s, c, WithIdentity(s.clients[c], fp));
    if !Accepts(s, p, e) {
      FailKeepsRecords(t, p, c);
    } else if room in s.hall.rooms {
      RejoinParts(t, p, c, room, token, now);
    } else {
      var u := t.(hall := RoomAdded(t.hall, room, token, now));
      PlacingParts(u, p, c, room, now);
    }
  }

  /** Adding a client to a list fits its record unless it is on the list of another room. */
  lemma PlacingParts(s: Relay, p: Policy, c: Conn, room: string, now: int)
    requires RecordsOk(s) && c in s.clients && Admits(s.hall, room, c, p.lim)
    ensures RecordsOk(Placed(s, p, c, room, now))
            <==> !(s.clients[c].roomId.Some? && Lists(s.hall, s.clients[c].roomId.value, c))
  {
    var t := Placed(s, p, c, room, now);
    assert t.hall.rooms[room].clients == s.hall.rooms[room].clients + [c];
    if s.clients[c].roomId.Some? && Lists(s.hall, s.clients[c].roomId.value, c) {
      var other := s.clients[c].roomId.value;
      assert other != room && c in t.hall.rooms[other].clients && t.clients[c].roomId == Some(room);
    }
  }

  lemma WelcomeParts(s: Relay, c: Conn, room: string, now: int)
    requires c in s.clients
    ensures RecordsOk(Welcomed(s, c, room, now)) <==> RecordsOk(s)
  {
    var t := Welcomed(s, c, room, now);
    if RecordsOk(s) {
      SameRecords(s, t);
    }
    if RecordsOk(t) {
      SameRecords(t, s);
    }
  }

  lemma SameRecords(s: Relay, t: Relay)
    requires RecordsOk(s) && t.clients == s.clients && t.hall.open == s.hall.open
    requires t.hall.rooms.Keys == s.hall.rooms.Keys
    requires forall room :: room in s.hall.rooms ==> t.hall.rooms[room].clients == s.hall.rooms[room].clients
    ensures RecordsOk(t)
  {
  }

  lemma RejoinParts(s: Relay, p: Policy, c: Conn, room: string, token: string, now: int)
    requires RecordsOk(s) && c in s.clients && Admits(s.hall, room, c, p.lim)
    requires TokenValid(s.hall.tokens, room, token, s.clients[c].fingerprint)
    ensures RecordsOk(Rejoined(s, p, c, room, token, now))
            <==> !(s.clients[c].roomId.Some? && Lists(s.hall, s.clients[c].roomId.value, c))
  {
    PlacingParts(s, p, c, room, now);
    WelcomeParts(Placed(s, p, c, room, now), c, room, now);
  }

  lemma JoinParts(s: Relay, p: Policy, c: Conn, room: string, token: string, fp: Option<string>, now: int)
    requires RecordsOk(s) && Enabled(s, Join(c, room, token, fp, now))
    ensures RecordsOk(JoinedRoom(s, p, c, room, token, fp, now)) <==> !Wanders(s, p, Join(c, room, token, fp, now))
  {
    var e, t := Join(c, room, token, fp, now), SetClient(s, c, WithIdentity(s.clients[c], fp));
    SettingKeepsRecords(s, c, WithIdentity(s.clients[c], fp));
    if !Accepts(s, p, e) {
      FailKeepsRecords(t, p, c);
    } else {
      var u := Placed(t, p, c, room, now);
      PlacingParts(t, p, c, room, now);
      WelcomeParts(u.(hall := u.hall.(tokens := TokenBound(u.hall.tokens, room, token, fp))), c, room, now);
    }
  }

  lemma SendKeepsRecords(s: Relay, p: Policy, c: Conn, room: string, m: Payload, now: int)
    requires RecordsOk(s) && c in s.clients
    ensures RecordsOk(SentMessage(s, p, c, room, m, now))
  {
    var fp := s.clients[c].fingerprint;
    var t := s.(guards := Guarded(s.guards, p, fp, m, now));
    SameRecords(s, t);
    if s.clients[c].roomId != Some(room) {
      FailKeepsRecords(s, p, c);
    } else if !Passes(s.guards, p, fp, m, now) {
      FailKeepsRecords(t, p, c);
    } else {
      SameRecords(t, Delivered(t, c, room, m, now));
    }
  }

  /**
   Lists and records agree after an event exactly if it does not put a client
   that is on the list of its room on the list of another one.
   */
  lemma StepKeepsRecords(s: Relay, p: Policy, e: Event)
    requires RecordsOk(s) && Enabled(s, e) && p.lim.maxParticipants >= 1
    ensures RecordsOk(Next(s, p, e)) <==> !Wanders(s, p, e)
  {
    match e
    case Accept(c, _) =>
    case Create(c, room, token, fp, now) => CreateParts(s, p, c, room, token, fp, now);
    case Join(c, room, token, fp, now) => JoinParts(s, p, c, room, token, fp, now);
    case Announce(c, room, from, key, now) =>
      FailKeepsRecords(s, p, c);
      SettingKeepsRecords(s, c, s.clients[c].(fingerprint := Some(from)));
      BroadcastKeepsRecords(SetClient(s, c, s.clients[c].(fingerprint := Some(from))), c, room, Key(from, key), now);
    case Send(c, room, m, now) =>
      SendKeepsRecords(s, p, c, room, m, now);
    case Invite(c, room, token, now) => FailKeepsRecords(s, p, c);
    case Type(c, start, now) =>
      if s.clients[c].roomId.Some? {
        BroadcastKeepsRecords(s, c, s.clients[c].roomId.value, Typing(start, s.clients[c].fingerprint), now);
      }
    case Leave(c, now) => LeaveKeepsRecords(s, c, now);
    case Disconnect(c, now) => DisconnectKeepsRecords(s, c, now);
    case Cleanup(now) => CleanupKeepsRecords(s, p, now);
    case Malformed(c, _) => FailKeepsRecords(s, p, c);
  }

  /** A client that is accepted elsewhere without leaving is on both lists. */
  lemma SecondRoomStaysInBoth(s: Relay, p: Policy, e: Event)
    requires Enabled(s, e) && Wanders(s, p, e) && p.lim.maxParticipants >= 1
    ensures Lists(Next(s, p, e).hall, s.clients[e.c].roomId.value, e.c) && Lists(Next(s, p, e).hall, e.room, e.c)
  {
    var room := e.room;
    if room !in s.hall.rooms {
      assert Next(s, p, e).hall.rooms[room].clients == [] + [e.c];
    } else {
      assert Next(s, p, e).hall.rooms[room].clients == s.hall.rooms[room].clients + [e.c];
    }
  }

  /** No step of the run puts a client on a second list. */
  predicate OrderlyRun(s: Relay, p: Policy, es: seq<Event>)
    requires Possible(s, p, es)
    decreases |es|
  {
    es == [] || (!Wanders(s, p, es[0]) && OrderlyRun(Next(s, p, es[0]), p, es[1..]))
  }

  lemma {:induction false} RunKeepsRecords(s: Relay, p: Policy, es: seq<Event>)
    requires RecordsOk(s) && Possible(s, p, es) && OrderlyRun(s, p, es) && p.lim.maxParticipants >= 1
    ensures RecordsOk(After(s, p, es))
    decreases |es|
  {
    if es != [] {
      StepKeepsRecords(s, p, es[0]);
      RunKeepsRecords(Next(s, p, es[0]), p, es[1..]);
    }
  }

  lemma EmptyOk(p: Policy)
    ensures ListsOk(EMPTY.hall, p) && RecordsOk(EMPTY)
  {
  }

  /**
   In every orderly run from the empty relay with room for at least one: a
   listed client's record names exactly that room, so no connection is in two
   rooms, and an open connection whose record names a room is on the list of
   that live room.
   */
  lemma RecordsAlwaysOk(p: Policy, es: seq<Event>)
    requires Possible(EMPTY, p, es) && OrderlyRun(EMPTY, p, es) && p.lim.maxParticipants >= 1
    ensures RecordsOk(After(EMPTY, p, es))
  {
    EmptyOk(p);
    RunKeepsRecords(EMPTY, p, es);
  }

  /** Without any capacity, a client that creates a room is recorded in it and not listed. */
  lemma NoCapacityParts(s: Relay, p: Policy, e: Event)
    requires RecordsOk(s) && Enabled(s, e) && p.lim.maxParticipants == 0 && e.Create? && e.c in s.hall.open
    requires e.room !in s.hall.rooms
    ensures !RecordsOk(Next(s, p, e)) && Next(s, p, e).clients[e.c].roomId == Some(e.room)
  {
    var t := Next(s, p, e);
    assert t.hall.rooms[e.room].clients == [] && e.c in t.hall.open;
  }

  /** Some run from the empty relay ends here. */
  ghost predicate Reachable(s: Relay, p: Policy) {
    exists es :: Possible(EMPTY, p, es) && s == After(EMPTY, p, es)
  }

  lemma ReachableOk(s: Relay, p: Policy)
    requires Reachable(s, p)
    ensures ListsOk(s.hall, p)
  {
    var es :| Possible(EMPTY, p, es) && s == After(EMPTY, p, es);
    EmptyOk(p);
    ListsAlwaysOk(EMPTY, p, es);
  }
}
