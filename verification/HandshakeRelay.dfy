/**
 The step system of the handshake against the relay itself, which runs the real
 room and token tables and may have any number of other rooms. Whatever the relay
 does with a frame, or with a connection, the step system does alike: same
 members, same sockets, and the same news to every connection of the room.
 */
module HandshakeRelay {
  import opened Wrappers
  import opened PeerSession
  import Page
  import H = Handshake
  import opened Rooms
  import opened Relay
  import opened RelayStructure
  import opened RelayTokens
  import Base64

  /**
   What browsers are called on the wire, the room they meet in, and the relay's
   policy. In the step system of the room, the clients of all other rooms are
   connections that one browser, the stranger, has had and lost.
   */
  datatype World = World(names: seq<string>, room: string, stranger: Fp, policy: Policy)

  ghost predicate Sound(w: World) {
    Distinct(w.names) && "" !in w.names && w.room != "" && w.policy.lim.maxParticipants >= 1
  }

  function Listed(h: Hall, room: string): seq<Conn> {
    if room in h.rooms then h.rooms[room].clients else []
  }

  /** The connection is that of a browser of the room. */
  predicate AtHome(w: World, n: H.Net, c: nat) {
    c < |n.links| && n.links[c].owner != w.stranger
  }

  /**
   Member list, sockets, and the relay's records are the same on both sides.
   Clients of other rooms are neither listed nor recorded in this one.
   */
  ghost predicate Matches(w: World, n: H.Net, s: Relay) {
    BrowsersMatch(w, n) && HallMatches(w, n, s.hall) && ClientsMatch(w, n, s.clients)
  }

  predicate BrowsersMatch(w: World, n: H.Net) {
    && |n.browsers| <= |w.names|
    && w.stranger < |n.browsers| && n.browsers[w.stranger].link.None? && !n.browsers[w.stranger].tab.active
  }

  ghost predicate HallMatches(w: World, n: H.Net, h: Hall) {
    LinksOk(w, n) && ListsMatch(w, n, h) && SocketsMatch(w, n, h)
  }

  ghost predicate LinksOk(w: World, n: H.Net) {
    && (forall c :: 0 <= c < |n.links| ==>
          n.links[c].owner < |n.browsers| && (n.links[c].owner == w.stranger ==> n.links[c].record == H.Gone))
    && (forall c :: 0 <= c < |n.links| && n.links[c].open ==>
          n.links[c].record == if c in n.members then H.Inside else H.Outside)
  }

  ghost predicate ListsMatch(w: World, n: H.Net, h: Hall) {
    && n.members == Listed(h, w.room) && Distinct(n.members)
    && (forall c :: c in n.members ==> c < |n.links| && n.links[c].record == H.Inside)
    && (forall room :: room != w.room ==> Strangers(w, n, Listed(h, room)))
  }

  predicate Strangers(w: World, n: H.Net, list: seq<Conn>) {
    forall c :: c in list ==> c < |n.links| && n.links[c].owner == w.stranger
  }

  ghost predicate SocketsMatch(w: World, n: H.Net, h: Hall) {
    && (forall c :: 0 <= c < |n.links| && n.links[c].owner != w.stranger ==> (c in h.open <==> n.links[c].open))
    && (forall c :: c in h.open ==> c < |n.links|)
    && (forall c :: c in h.sent ==> c < |n.links|)
  }

  ghost predicate ClientsMatch(w: World, n: H.Net, clients: map<Conn, Client>) {
    && (forall c :: c in clients ==> c < |n.links| && RecordMatches(w, n.links[c], clients[c]))
    && (forall c :: 0 <= c < |n.links| && n.links[c].owner != w.stranger ==>
          (c in clients <==> n.links[c].record != H.Gone))
  }

  /** On both sides, whatever Matches speaks of is as it was. */
  ghost predicate Similar(w: World, n: H.Net, s: Relay, m: H.Net, t: Relay) {
    && |m.browsers| == |n.browsers| && m.members == n.members && |m.links| == |n.links|
    && (w.stranger < |n.browsers| ==> m.browsers[w.stranger] == n.browsers[w.stranger])
    && (forall c :: 0 <= c < |n.links| ==>
          && m.links[c].owner == n.links[c].owner && m.links[c].open == n.links[c].open
          && m.links[c].record == n.links[c].record)
    && (forall room :: Listed(t.hall, room) == Listed(s.hall, room))
    && t.hall.open == s.hall.open && t.clients.Keys == s.clients.Keys
    && (forall c :: c in s.clients ==>
          t.clients[c].roomId == s.clients[c].roomId && t.clients[c].fingerprint == s.clients[c].fingerprint)
    && (forall c :: c in t.hall.sent ==> c in s.hall.sent || c in s.hall.open)
  }

  lemma SimilarMatches(w: World, n: H.Net, s: Relay, m: H.Net, t: Relay)
    requires Matches(w, n, s) && Similar(w, n, s, m, t)
    ensures Matches(w, m, t)
  {
    forall c | c in t.clients ensures c < |m.links| && RecordMatches(w, m.links[c], t.clients[c]) {
      assert c in s.clients && RecordMatches(w, n.links[c], s.clients[c]);
    }
    forall room | room != w.room ensures Strangers(w, m, Listed(t.hall, room)) {
      assert Strangers(w, n, Listed(s.hall, room));
    }
  }

  predicate RecordMatches(w: World, l: H.Link, client: Client) {
    if l.owner == w.stranger then client.roomId != Some(w.room)
    else
      && client.roomId == (if l.record == H.Inside then Some(w.room) else None)
      && (l.record == H.Inside ==> l.owner < |w.names| && client.fingerprint == Some(w.names[l.owner]))
  }

  /** The frame a browser writes is the event the relay takes from it. */
  predicate Encodes(w: World, n: H.Net, c: nat, f: H.Frame, e: Event)
    requires c < |n.links| && n.links[c].owner < |w.names|
  {
    var name := w.names[n.links[c].owner];
    match f
    case EnterRoom => IsEntry(e) && e.c == c && e.room == w.room && e.fp == Some(name)
    case Announce(key, inRoom) =>
      if inRoom then
        e.Announce? && e.c == c && e.room == w.room && e.from == name && Base64.FromBase64(e.key) == Some(key)
      else e.Malformed? && e.c == c
    case LeaveRoom => e.Leave? && e.c == c
  }

  /** The frame the relay writes is the event the browser takes from it. */
  predicate Says(w: World, f: Frame, e: Page.Event) {
    match e
    case Joined(x) => x < |w.names| && f.Cast? && f.room == w.room && f.news == Joined(Some(w.names[x]))
    case Left(x) => x < |w.names| && f.Cast? && f.room == w.room && f.news == Left(Some(w.names[x]))
    case KeyFrom(x, key) =>
      && x < |w.names| && f.Cast? && f.room == w.room
      && f.news.Key? && f.news.from == w.names[x] && Base64.FromBase64(f.news.key) == key
    case RoomClosed => f == RoomClosed
    case Notice => f == Done || f == Refused
  }

  /** Connection d gets nothing on either side, or one event on one and the frame that says so on the other. */
  ghost predicate SameNews(w: World, n: H.Net, s: Relay, m: H.Net, t: Relay, d: nat)
    requires d < |n.links| == |m.links|
  {
    var was, now, wrote, writes := n.links[d].down, m.links[d].down, SentTo(s.hall, d), SentTo(t.hall, d);
    || (now == was && writes == wrote)
    || (now != [] && writes != [] && now == was + [now[|now| - 1]] && writes == wrote + [writes[|writes| - 1]]
        && Says(w, writes[|writes| - 1], now[|now| - 1]))
  }

  lemma OneEach(w: World, n: H.Net, s: Relay, m: H.Net, t: Relay, d: nat, events: seq<Page.Event>, frames: seq<Frame>)
    requires d < |n.links| == |m.links|
    requires m.links[d].down == n.links[d].down + events && SentTo(t.hall, d) == SentTo(s.hall, d) + frames
    requires |events| == |frames| <= 1 && (events != [] ==> Says(w, frames[0], events[0]))
    ensures SameNews(w, n, s, m, t, d)
  {
    if events == [] {
      assert m.links[d].down == n.links[d].down && SentTo(t.hall, d) == SentTo(s.hall, d);
    } else {
      assert events == [events[0]] && frames == [frames[0]];
    }
  }

  /** Both sides match again, and every browser of the room has got the same on both. */
  ghost predicate Follows(w: World, n: H.Net, s: Relay, m: H.Net, t: Relay) {
    && Matches(w, m, t)
    && |m.links| == |n.links| && (forall d :: 0 <= d < |n.links| ==> m.links[d].owner == n.links[d].owner)
    && forall d :: 0 <= d < |n.links| && n.links[d].owner != w.stranger ==> SameNews(w, n, s, m, t, d)
  }

  // One frame served.

  lemma SpreadFollows(w: World, n: H.Net, s: Relay, c: nat, news: News, e: Page.Event, now: int)
    requires Matches(w, n, s) && Says(w, Cast(w.room, c, news), e)
    ensures Follows(w, n, s, n.(links := H.Broadcast(n.links, n.members, c, e)),
                    s.(hall := Broadcast(s.hall, w.room, c, news, now)))
  {
    var m := n.(links := H.Broadcast(n.links, n.members, c, e));
    var t := s.(hall := Broadcast(s.hall, w.room, c, news, now));
    SpreadSimilar(w, n, s, c, news, e, now);
    SimilarMatches(w, n, s, m, t);
    forall d | 0 <= d < |n.links| && n.links[d].owner != w.stranger ensures SameNews(w, n, s, m, t, d) {
      SpreadNews(w, n, s, c, news, e, now, d);
    }
  }

  lemma SpreadSimilar(w: World, n: H.Net, s: Relay, c: nat, news: News, e: Page.Event, now: int)
    ensures Similar(w, n, s, n.(links := H.Broadcast(n.links, n.members, c, e)),
                    s.(hall := Broadcast(s.hall, w.room, c, news, now)))
  {
    SpreadsToOpen(s.hall.sent, s.hall.open, Listed(s.hall, w.room), c, Cast(w.room, c, news));
    assert forall room :: Listed(Broadcast(s.hall, w.room, c, news, now), room) == Listed(s.hall, room);
  }

  lemma SpreadNews(w: World, n: H.Net, s: Relay, c: nat, news: News, e: Page.Event, now: int, d: nat)
    requires Matches(w, n, s) && Says(w, Cast(w.room, c, news), e) && AtHome(w, n, d)
    ensures SameNews(w, n, s, n.(links := H.Broadcast(n.links, n.members, c, e)),
                     s.(hall := Broadcast(s.hall, w.room, c, news, now)), d)
  {
    var m := n.(links := H.Broadcast(n.links, n.members, c, e));
    var t := s.(hall := Broadcast(s.hall, w.room, c, news, now));
    var heard := d in n.members && d != c && n.links[d].open;
    if w.room in s.hall.rooms {
      SpreadReaches(s.hall.sent, s.hall.open, s.hall.rooms[w.room].clients, c, Cast(w.room, c, news), d);
    } else {
      assert SentTo(s.hall, d) + [] == SentTo(s.hall, d);
    }
    OneEach(w, n, s, m, t, d, if heard then [e] else [], if heard then [Cast(w.room, c, news)] else []);
  }

  lemma {:induction false} SpreadsToOpen(wire: Wire, open: set<Conn>, to: seq<Conn>, sender: Conn, f: Frame)
    ensures forall d :: d in Spread(wire, open, to, sender, f) ==> d in wire || d in open
    decreases |to|
  {
    if to != [] {
      SpreadsToOpen(if to[0] == sender then wire else WriteOn(wire, open, to[0], f), open, to[1..], sender, f);
    }
  }

  lemma ReplyFollows(w: World, n: H.Net, s: Relay, c: nat, f: Frame)
    requires Matches(w, n, s) && AtHome(w, n, c) && c in s.clients && (f == Done || f == Refused)
    ensures Follows(w, n, s, H.Tell(n, c, Page.Notice), Reply(s, c, f))
  {
    var m, t := H.Tell(n, c, Page.Notice), Reply(s, c, f);
    SimilarMatches(w, n, s, m, t);
    forall d | 0 <= d < |n.links| && n.links[d].owner != w.stranger ensures SameNews(w, n, s, m, t, d) {
      assert SentTo(s.hall, d) + [] == SentTo(s.hall, d) && n.links[d].down + [] == n.links[d].down;
      OneEach(w, n, s, m, t, d, if d == c && n.links[c].open then [Page.Notice] else [],
              if d == c && n.links[c].open then [f] else []);
    }
  }

  /** The failure leaves the client's socket as it was. */
  predicate Spared(s: Relay, t: Relay, c: Conn) {
    c in s.hall.open ==> c in t.hall.open
  }

  lemma FailFollows(w: World, n: H.Net, s: Relay, c: nat)
    requires Matches(w, n, s) && AtHome(w, n, c) && c in s.clients && Spared(s, Fail(s, w.policy, c), c)
    ensures Follows(w, n, s, H.Tell(n, c, Page.Notice), Fail(s, w.policy, c))
  {
    var u := Fail(s, w.policy, c).(hall := s.hall);
    FailCounts(w, n, s, c);
    assert s.hall.open - {c} == s.hall.open || c in s.hall.open;
    assert Fail(s, w.policy, c) == Reply(u, c, Refused);
    ReplyFollows(w, n, u, c, Refused);
    SameHall(w, n, s, u, H.Tell(n, c, Page.Notice), Fail(s, w.policy, c));
  }

  /** Counting a violation changes nothing that Matches speaks of. */
  lemma FailCounts(w: World, n: H.Net, s: Relay, c: nat)
    requires Matches(w, n, s) && c in s.clients
    ensures Matches(w, n, Fail(s, w.policy, c).(hall := s.hall))
  {
    var u := Fail(s, w.policy, c).(hall := s.hall);
    assert u == s || u == SetClient(s, c, s.clients[c].(violations := s.clients[c].violations + 1));
    SimilarMatches(w, n, s, n, u);
  }

  /** A client that says who it is. */
  function Named(w: World, n: H.Net, s: Relay, c: nat): Relay
    requires Matches(w, n, s) && AtHome(w, n, c) && c in s.clients
  {
    SetClient(s, c, s.clients[c].(fingerprint := Some(w.names[n.links[c].owner])))
  }

  lemma NamedMatches(w: World, n: H.Net, s: Relay, c: nat)
    requires Matches(w, n, s) && AtHome(w, n, c) && c in s.clients
    ensures Matches(w, n, Named(w, n, s, c))
  {
    assert RecordMatches(w, n.links[c], s.clients[c]);
  }

  /** What an admission does to the step system. */
  ghost predicate NetAdmits(n: H.Net, m: H.Net, c: nat) {
    && m.browsers == n.browsers && m.members == n.members + [c] && |m.links| == |n.links|
    && (forall d :: 0 <= d < |n.links| ==>
          m.links[d].owner == n.links[d].owner && m.links[d].open == n.links[d].open
          && m.links[d].record == if d == c then H.Inside else n.links[d].record)
    && (forall d :: 0 <= d < |n.links| ==> m.links[d].down == n.links[d].down + Learns(n, c, d))
  }

  function Learns(n: H.Net, c: nat, d: nat): seq<Page.Event> {
    if c >= |n.links| || d >= |n.links| || !n.links[d].open then []
    else if d == c then [Page.Notice]
    else if d in n.members then [Page.Joined(n.links[c].owner)]
    else []
  }

  lemma ServedAdmits(n: H.Net, c: nat)
    requires c < |n.links| && c !in n.members
    ensures NetAdmits(n, H.Served(n, c, H.EnterRoom, true), c)
  {
    var t := H.WithRecord(H.Tell(n, c, Page.Notice), c, H.Inside);
    assert forall d :: 0 <= d < |n.links| && d != c ==> t.links[d] == n.links[d];
  }

  /** Rooms other than this one have the clients that they had. */
  ghost predicate SameElsewhere(w: World, h: Hall, k: Hall) {
    forall room :: room != w.room ==> Listed(k, room) == Listed(h, room)
  }

  lemma ElsewhereAsBefore(w: World, n: H.Net, h: Hall, m: H.Net, k: Hall)
    requires ListsMatch(w, n, h) && SameElsewhere(w, h, k) && |m.links| == |n.links|
    requires forall c :: 0 <= c < |n.links| ==> m.links[c].owner == n.links[c].owner
    ensures forall room :: room != w.room ==> Strangers(w, m, Listed(k, room))
  {
    forall room | room != w.room ensures Strangers(w, m, Listed(k, room)) {
      assert Strangers(w, n, Listed(h, room));
    }
  }

  lemma CreateFollows(w: World, n: H.Net, s: Relay, m: H.Net, c: nat, token: string, now: int)
    requires Sound(w) && Matches(w, n, s) && AtHome(w, n, c) && c in s.clients && w.room !in s.hall.rooms
    requires s.clients[c].fingerprint == Some(w.names[n.links[c].owner]) && NetAdmits(n, m, c)
    ensures Follows(w, n, s, m, CreatedNew(s, w.policy, c, w.room, token, now))
  {
    var t := CreatedNew(s, w.policy, c, w.room, token, now);
    assert n.members == [] && t.hall.rooms[w.room].clients == [] + [c];
    assert t.clients == s.clients[c := s.clients[c].(roomId := Some(w.room))];
    assert t.hall.open == s.hall.open && t.hall.sent == WriteOn(s.hall.sent, s.hall.open, c, Done);
    AdmissionMatches(w, n, s, m, t, c);
    forall d | 0 <= d < |n.links| && n.links[d].owner != w.stranger ensures SameNews(w, n, s, m, t, d) {
      CreationNews(w, n, s, m, t, c, d);
    }
  }

  lemma CreationNews(w: World, n: H.Net, s: Relay, m: H.Net, t: Relay, c: nat, d: nat)
    requires Matches(w, n, s) && NetAdmits(n, m, c) && n.members == [] && c < |n.links| && AtHome(w, n, d)
    requires t.hall.sent == WriteOn(s.hall.sent, s.hall.open, c, Done)
    ensures SameNews(w, n, s, m, t, d)
  {
    assert SentTo(s.hall, d) + [] == SentTo(s.hall, d);
    OneEach(w, n, s, m, t, d, Learns(n, c, d), if d == c && n.links[c].open then [Done] else []);
  }

  /** What an admission does to the relay. */
  ghost predicate Admits(w: World, n: H.Net, s: Relay, t: Relay, c: nat)
    requires c in s.clients
  {
    && Listed(t.hall, w.room) == Listed(s.hall, w.room) + [c] && SameElsewhere(w, s.hall, t.hall)
    && t.clients == s.clients[c := s.clients[c].(roomId := Some(w.room))]
    && t.hall.open == s.hall.open && forall d :: d in t.hall.sent ==> d < |n.links|
  }

  lemma AdmissionMatches(w: World, n: H.Net, s: Relay, m: H.Net, t: Relay, c: nat)
    requires Matches(w, n, s) && NetAdmits(n, m, c) && AtHome(w, n, c) && c in s.clients && c !in n.members
    requires s.clients[c].fingerprint == Some(w.names[n.links[c].owner]) && Admits(w, n, s, t, c)
    ensures Matches(w, m, t)
  {
    AdmissionHall(w, n, s, m, t, c);
    forall d | d in t.clients ensures d < |m.links| && RecordMatches(w, m.links[d], t.clients[d]) {
      assert d in s.clients && RecordMatches(w, n.links[d], s.clients[d]);
    }
  }

  lemma AdmissionHall(w: World, n: H.Net, s: Relay, m: H.Net, t: Relay, c: nat)
    requires Matches(w, n, s) && NetAdmits(n, m, c) && AtHome(w, n, c) && c in s.clients && c !in n.members
    requires Admits(w, n, s, t, c)
    ensures HallMatches(w, m, t.hall)
  {
    assert forall d :: d in m.members <==> d in n.members || d == c;
    ElsewhereAsBefore(w, n, s.hall, m, t.hall);
  }

  /** The welcome tells the newcomer and every member. */
  lemma WelcomeReaches(s: Relay, c: Conn, room: string, now: int, d: Conn)
    requires c in s.clients && room in s.hall.rooms && Distinct(s.hall.rooms[room].clients)
    ensures SentTo(Welcomed(s, c, room, now).hall, d) == SentTo(s.hall, d)
            + if d !in s.hall.open then []
              else if d == c then [Done]
              else if d in s.hall.rooms[room].clients then [Cast(room, c, Joined(s.clients[c].fingerprint))]
              else []
  {
    SpreadReaches(Write(s.hall, c, Done).sent, s.hall.open, s.hall.rooms[room].clients, c,
                  Cast(room, c, Joined(s.clients[c].fingerprint)), d);
  }

  /** The state in which the newcomer is welcomed: listed, its token possibly bound. */
  ghost predicate Entered(w: World, s: Relay, u: Relay, c: nat) {
    && w.room in s.hall.rooms && w.room in u.hall.rooms && c in s.clients && c !in s.hall.rooms[w.room].clients
    && u.hall.rooms[w.room].clients == s.hall.rooms[w.room].clients + [c] && SameElsewhere(w, s.hall, u.hall)
    && u.hall.open == s.hall.open && u.hall.sent == s.hall.sent
    && u.clients == s.clients[c := s.clients[c].(roomId := Some(w.room))]
  }

  lemma WelcomeNews(w: World, n: H.Net, s: Relay, u: Relay, m: H.Net, c: nat, now: int, d: nat)
    requires Matches(w, n, s) && AtHome(w, n, c) && Entered(w, s, u, c)
    requires s.clients[c].fingerprint == Some(w.names[n.links[c].owner]) && AtHome(w, n, d) && NetAdmits(n, m, c)
    ensures SameNews(w, n, s, m, Welcomed(u, c, w.room, now), d)
  {
    WelcomeReaches(u, c, w.room, now, d);
    OneEach(w, n, s, m, Welcomed(u, c, w.room, now), d, Learns(n, c, d),
            if d !in s.hall.open then []
            else if d == c then [Done]
            else if d in n.members then [Cast(w.room, c, Joined(s.clients[c].fingerprint))]
            else []);
  }

  lemma WelcomeFollows(w: World, n: H.Net, s: Relay, u: Relay, m: H.Net, c: nat, now: int)
    requires Matches(w, n, s) && AtHome(w, n, c) && Entered(w, s, u, c)
    requires s.clients[c].fingerprint == Some(w.names[n.links[c].owner]) && NetAdmits(n, m, c)
    ensures Follows(w, n, s, m, Welcomed(u, c, w.room, now))
  {
    var t := Welcomed(u, c, w.room, now);
    forall d | 0 <= d < |n.links| && n.links[d].owner != w.stranger ensures SameNews(w, n, s, m, t, d) {
      WelcomeNews(w, n, s, u, m, c, now, d);
    }
    WelcomeAdmits(w, n, s, u, c, now);
    AdmissionMatches(w, n, s, m, t, c);
  }

  lemma WelcomeAdmits(w: World, n: H.Net, s: Relay, u: Relay, c: nat, now: int)
    requires Matches(w, n, s) && Entered(w, s, u, c)
    ensures Admits(w, n, s, Welcomed(u, c, w.room, now), c)
  {
    var list, f := u.hall.rooms[w.room].clients, Cast(w.room, c, Joined(u.clients[c].fingerprint));
    SpreadsToOpen(Write(u.hall, c, Done).sent, u.hall.open, list, c, f);
    assert forall room :: Listed(Welcomed(u, c, w.room, now).hall, room) == Listed(u.hall, room);
  }

  /** An entry that is turned down. */
  lemma TurnedDown(w: World, n: H.Net, s: Relay, c: nat, e: Event)
    requires Sound(w) && Matches(w, n, s) && AtHome(w, n, c) && c in s.clients && Encodes(w, n, c, H.EnterRoom, e)
    requires Enabled(s, e) && if w.room in s.hall.rooms then !Admitted(s, w.policy, e) else e.Join?
    ensures Next(s, w.policy, e) == Fail(Named(w, n, s, c), w.policy, c)
    ensures Lists(Next(s, w.policy, e).hall, w.room, c) ==> c in n.members
  {
    assert Named(w, n, s, c) == SetClient(s, c, WithIdentity(s.clients[c], e.fp)) by {
      assert w.names[n.links[c].owner] in w.names;
    }
    if w.room in s.hall.rooms {
      AdmissionExactly(s, w.policy, e);
    }
  }

  lemma AdmittedEnters(w: World, n: H.Net, s: Relay, c: nat, e: Event) returns (u: Relay)
    requires Sound(w) && Matches(w, n, s) && AtHome(w, n, c) && c in s.clients && Encodes(w, n, c, H.EnterRoom, e)
    requires Enabled(s, e) && w.room in s.hall.rooms && Admitted(s, w.policy, e)
    ensures Entered(w, Named(w, n, s, c), u, c) && Next(s, w.policy, e) == Welcomed(u, c, w.room, e.time)
  {
    assert w.names[n.links[c].owner] in w.names;
    AdmissionExactly(s, w.policy, e);
    u := Placed(Named(w, n, s, c), w.policy, c, w.room, e.time);
    if e.Join? {
      u := u.(hall := u.hall.(tokens := TokenBound(u.hall.tokens, w.room, e.token, e.fp)));
    }
  }

  lemma CreateEnters(w: World, n: H.Net, s: Relay, c: nat, e: Event)
    requires Sound(w) && Matches(w, n, s) && AtHome(w, n, c) && c in s.clients && Encodes(w, n, c, H.EnterRoom, e)
    requires Enabled(s, e) && w.room !in s.hall.rooms && e.Create?
    ensures Next(s, w.policy, e) == CreatedNew(Named(w, n, s, c), w.policy, c, w.room, e.token, e.time)
    ensures Lists(Next(s, w.policy, e).hall, w.room, c)
  {
    assert w.names[n.links[c].owner] in w.names;
    assert Next(s, w.policy, e).hall.rooms[w.room].clients == [] + [c];
  }

  lemma SameHall(w: World, n: H.Net, s: Relay, u: Relay, m: H.Net, t: Relay)
    requires Follows(w, n, u, m, t) && u.hall == s.hall
    ensures Follows(w, n, s, m, t)
  {
    forall d | 0 <= d < |n.links| && n.links[d].owner != w.stranger ensures SameNews(w, n, s, m, t, d) {
      assert SameNews(w, n, u, m, t, d);
    }
  }

  lemma AdmissionFollows(w: World, n: H.Net, s: Relay, c: nat, e: Event)
    requires Sound(w) && Matches(w, n, s) && AtHome(w, n, c) && c in s.clients
    requires Encodes(w, n, c, H.EnterRoom, e) && Enabled(s, e)
    requires if w.room in s.hall.rooms then Admitted(s, w.policy, e) else e.Create?
    ensures Follows(w, n, s, H.Served(n, c, H.EnterRoom, true), Next(s, w.policy, e))
    ensures Lists(Next(s, w.policy, e).hall, w.room, c)
  {
    var m, u := H.Served(n, c, H.EnterRoom, true), Named(w, n, s, c);
    NamedMatches(w, n, s, c);
    ServedAdmits(n, c);
    if w.room in s.hall.rooms {
      var v := AdmittedEnters(w, n, s, c, e);
      WelcomeFollows(w, n, u, v, m, c, e.time);
    } else {
      CreateEnters(w, n, s, c, e);
      CreateFollows(w, n, u, m, c, e.token, e.time);
    }
    SameHall(w, n, s, u, m, Next(s, w.policy, e));
  }

  lemma RefusalFollows(w: World, n: H.Net, s: Relay, c: nat, e: Event)
    requires Sound(w) && Matches(w, n, s) && AtHome(w, n, c) && c in s.clients
    requires Encodes(w, n, c, H.EnterRoom, e) && Enabled(s, e)
    requires !if w.room in s.hall.rooms then Admitted(s, w.policy, e) else e.Create?
    requires Spared(s, Next(s, w.policy, e), c)
    ensures Follows(w, n, s, H.Tell(n, c, Page.Notice), Next(s, w.policy, e))
  {
    var u := Named(w, n, s, c);
    NamedMatches(w, n, s, c);
    TurnedDown(w, n, s, c, e);
    FailFollows(w, n, u, c);
    SameHall(w, n, s, u, H.Tell(n, c, Page.Notice), Next(s, w.policy, e));
  }

  /** An entry is served as the relay decides. */
  lemma EnterFollows(w: World, n: H.Net, s: Relay, c: nat, e: Event)
    requires Sound(w) && Matches(w, n, s) && AtHome(w, n, c) && c in s.clients && Encodes(w, n, c, H.EnterRoom, e)
    requires Enabled(s, e) && Spared(s, Next(s, w.policy, e), c)
    ensures Follows(w, n, s, H.Served(n, c, H.EnterRoom, Lists(Next(s, w.policy, e).hall, w.room, c)),
                    Next(s, w.policy, e))
  {
    if (if w.room in s.hall.rooms then !Admitted(s, w.policy, e) else e.Join?) {
      RefusalFollows(w, n, s, c, e);
      TurnedDown(w, n, s, c, e);
    } else {
      AdmissionFollows(w, n, s, c, e);
    }
  }

  lemma AnnounceFollows(w: World, n: H.Net, s: Relay, c: nat, key: Key, e: Event)
    requires Matches(w, n, s) && AtHome(w, n, c) && c in s.clients
    requires Encodes(w, n, c, H.Announce(key, true), e) && Enabled(s, e)
    ensures Follows(w, n, s, H.Served(n, c, H.Announce(key, true), false), Next(s, w.policy, e))
  {
    var u := Named(w, n, s, c);
    NamedMatches(w, n, s, c);
    assert RecordMatches(w, n.links[c], s.clients[c]);
    if n.links[c].record == H.Inside {
      var x := n.links[c].owner;
      SpreadFollows(w, n, u, c, Key(w.names[x], e.key), Page.KeyFrom(x, Some(key)), e.time);
      SameHall(w, n, s, u, H.Served(n, c, H.Announce(key, true), false), Next(s, w.policy, e));
    }
  }

  // Departures.

  /** What a departure does to the step system; a client that stays connected is told that it has left. */
  ghost predicate NetDeparts(n: H.Net, m: H.Net, c: nat, stays: bool) {
    && c < |n.links|
    && m.browsers == n.browsers && m.members == Without(n.members, c) && |m.links| == |n.links|
    && (forall d :: 0 <= d < |n.links| ==>
          m.links[d].owner == n.links[d].owner && m.links[d].open == (n.links[d].open && (d != c || stays))
          && m.links[d].record == if d != c then n.links[d].record else if stays then H.Outside else H.Gone)
    && (forall d :: 0 <= d < |n.links| ==> m.links[d].down == n.links[d].down + Parting(n, c, stays, d))
  }

  function Parting(n: H.Net, c: nat, stays: bool, d: nat): seq<Page.Event>
    requires c < |n.links|
  {
    if d == c then if stays && n.links[c].open then [Page.Notice] else []
    else if d in n.members && d < |n.links| && n.links[d].open then [Page.Left(n.links[c].owner)]
    else []
  }

  function Written(w: World, n: H.Net, c: nat, stays: bool, d: nat): seq<Frame>
    requires c < |n.links| && n.links[c].owner < |w.names|
  {
    if d == c then if stays && n.links[c].open then [Done] else []
    else if d in n.members && d < |n.links| && n.links[d].open then
      [Cast(w.room, c, Left(Some(w.names[n.links[c].owner])))]
    else []
  }

  /** What it does to the relay. */
  ghost predicate Parts(w: World, n: H.Net, s: Relay, t: Relay, c: nat, stays: bool)
    requires Matches(w, n, s) && AtHome(w, n, c) && c in s.clients
  {
    && Listed(t.hall, w.room) == Without(n.members, c) && SameElsewhere(w, s.hall, t.hall)
    && t.clients == (if stays then s.clients[c := s.clients[c].(roomId := None)] else s.clients - {c})
    && t.hall.open == (if stays then s.hall.open else s.hall.open - {c})
    && (forall d :: d in t.hall.sent ==> d < |n.links|)
    && forall d :: 0 <= d < |n.links| && n.links[d].owner != w.stranger ==>
         SentTo(t.hall, d) == SentTo(s.hall, d) + Written(w, n, c, stays, d)
  }

  lemma DepartureMatches(w: World, n: H.Net, s: Relay, m: H.Net, t: Relay, c: nat, stays: bool)
    requires Matches(w, n, s) && AtHome(w, n, c) && c in s.clients
    requires NetDeparts(n, m, c, stays) && Parts(w, n, s, t, c, stays)
    ensures Matches(w, m, t)
  {
    DepartureHall(w, n, s, m, t, c, stays);
    forall d | d in t.clients ensures d < |m.links| && RecordMatches(w, m.links[d], t.clients[d]) {
      assert d in s.clients && RecordMatches(w, n.links[d], s.clients[d]);
    }
  }

  lemma DepartureHall(w: World, n: H.Net, s: Relay, m: H.Net, t: Relay, c: nat, stays: bool)
    requires Matches(w, n, s) && AtHome(w, n, c) && c in s.clients
    requires NetDeparts(n, m, c, stays) && Parts(w, n, s, t, c, stays)
    ensures HallMatches(w, m, t.hall)
  {
    WithoutDistinct(n.members, c);
    ElsewhereAsBefore(w, n, s.hall, m, t.hall);
  }

  lemma DepartureFollows(w: World, n: H.Net, s: Relay, m: H.Net, t: Relay, c: nat, stays: bool)
    requires Matches(w, n, s) && AtHome(w, n, c) && c in s.clients
    requires NetDeparts(n, m, c, stays) && Parts(w, n, s, t, c, stays)
    ensures Follows(w, n, s, m, t)
  {
    DepartureMatches(w, n, s, m, t, c, stays);
    forall d | 0 <= d < |n.links| && n.links[d].owner != w.stranger ensures SameNews(w, n, s, m, t, d) {
      OneEach(w, n, s, m, t, d, Parting(n, c, stays, d), Written(w, n, c, stays, d));
    }
  }

  lemma LeaveDeparts(n: H.Net, c: nat)
    requires c < |n.links| && n.links[c].record == H.Inside
    ensures NetDeparts(n, H.Served(n, c, H.LeaveRoom, false), c, true)
  {
    var m := H.Served(n, c, H.LeaveRoom, false);
    LeaverLinks(n, c, c);
    forall d | 0 <= d < |n.links|
      ensures m.links[d].owner == n.links[d].owner && m.links[d].open == n.links[d].open
      ensures m.links[d].record == if d != c then n.links[d].record else H.Outside
      ensures m.links[d].down == n.links[d].down + Parting(n, c, true, d)
    {
      LeaverLinks(n, c, d);
      assert n.links[d].down + [] == n.links[d].down;
    }
  }

  lemma LeaverLinks(n: H.Net, c: nat, d: nat)
    requires c < |n.links| && n.links[c].record == H.Inside && d < |n.links|
    ensures var m := H.Served(n, c, H.LeaveRoom, false);
            && |m.links| == |n.links|
            && m.links[d] == if d == c then H.Hearing(n.links[c].(record := H.Outside), true, Page.Notice)
                             else H.Hearing(n.links[d], d in n.members, Page.Left(n.links[c].owner))
  {
  }

  lemma CloseDeparts(n: H.Net, c: nat)
    requires c < |n.links| && n.links[c].record == H.Inside
    ensures H.Enabled(n, H.Close(c)) ==> NetDeparts(n, H.Next(n, H.Close(c)), c, false)
  {
    if H.Enabled(n, H.Close(c)) {
      var t := n.(links := n.links[c := n.links[c].(open := false, record := H.Gone)]);
      assert forall d :: 0 <= d < |n.links| && d != c ==> t.links[d] == n.links[d];
    }
  }

  lemma LeaveReaches(w: World, n: H.Net, s: Relay, c: nat, now: int, d: nat)
    requires Matches(w, n, s) && AtHome(w, n, c) && n.links[c].record == H.Inside && AtHome(w, n, d)
    ensures c in s.clients && SentTo(LeftRoom(s, c, now).hall, d) == SentTo(s.hall, d) + Written(w, n, c, true, d)
  {
    assert c in s.clients && RecordMatches(w, n.links[c], s.clients[c]);
    SpreadReaches(s.hall.sent, s.hall.open, n.members, c, Cast(w.room, c, Left(s.clients[c].fingerprint)), d);
    assert SentTo(s.hall, d) + [] == SentTo(s.hall, d);
  }

  lemma LeaveParts(w: World, n: H.Net, s: Relay, c: nat, now: int)
    requires Matches(w, n, s) && AtHome(w, n, c) && n.links[c].record == H.Inside
    ensures c in s.clients && Parts(w, n, s, LeftRoom(s, c, now), c, true)
  {
    assert c in s.clients && RecordMatches(w, n.links[c], s.clients[c]);
    forall d | 0 <= d < |n.links| && n.links[d].owner != w.stranger
      ensures SentTo(LeftRoom(s, c, now).hall, d) == SentTo(s.hall, d) + Written(w, n, c, true, d)
    {
      LeaveReaches(w, n, s, c, now, d);
    }
    SpreadsToOpen(s.hall.sent, s.hall.open, n.members, c, Cast(w.room, c, Left(s.clients[c].fingerprint)));
    WithoutLength(n.members, c);
    assert Listed(LeftRoom(s, c, now).hall, w.room) == Without(n.members, c);
  }

  lemma DisconnectReaches(w: World, n: H.Net, s: Relay, c: nat, now: int, d: nat)
    requires Matches(w, n, s) && AtHome(w, n, c) && n.links[c].record == H.Inside && AtHome(w, n, d)
    ensures SentTo(Disconnected(s, c, now).hall, d) == SentTo(s.hall, d) + Written(w, n, c, false, d)
  {
    assert c in s.clients && RecordMatches(w, n.links[c], s.clients[c]);
    if w.room in s.hall.rooms {
      WithoutDistinct(n.members, c);
      SpreadReaches(s.hall.sent, s.hall.open - {c}, Without(n.members, c), c,
                    Cast(w.room, c, Left(s.clients[c].fingerprint)), d);
      DisconnectSpreads(w, n, s, c, now);
    } else {
      assert n.members == [] && Disconnected(s, c, now).hall.sent == s.hall.sent;
    }
    assert SentTo(s.hall, d) + [] == SentTo(s.hall, d);
  }

  lemma DisconnectSpreads(w: World, n: H.Net, s: Relay, c: nat, now: int)
    requires Matches(w, n, s) && AtHome(w, n, c) && n.links[c].record == H.Inside && w.room in s.hall.rooms
    ensures c in s.clients
    ensures Disconnected(s, c, now).hall.sent
            == Spread(s.hall.sent, s.hall.open - {c}, Without(n.members, c), c,
                      Cast(w.room, c, Left(s.clients[c].fingerprint)))
    ensures Listed(Disconnected(s, c, now).hall, w.room) == Without(n.members, c)
  {
    assert c in s.clients && RecordMatches(w, n.links[c], s.clients[c]);
    WithoutLength(n.members, c);
  }

  lemma DisconnectParts(w: World, n: H.Net, s: Relay, c: nat, now: int)
    requires Matches(w, n, s) && AtHome(w, n, c) && n.links[c].record == H.Inside
    ensures Parts(w, n, s, Disconnected(s, c, now), c, false)
  {
    var f := Cast(w.room, c, Left(s.clients[c].fingerprint));
    forall d | 0 <= d < |n.links| && n.links[d].owner != w.stranger
      ensures SentTo(Disconnected(s, c, now).hall, d) == SentTo(s.hall, d) + Written(w, n, c, false, d)
    {
      DisconnectReaches(w, n, s, c, now, d);
    }
    SpreadsToOpen(s.hall.sent, s.hall.open - {c}, Without(n.members, c), c, f);
    if w.room in s.hall.rooms {
      DisconnectSpreads(w, n, s, c, now);
    }
  }

  lemma LeaveFollows(w: World, n: H.Net, s: Relay, c: nat, now: int)
    requires Matches(w, n, s) && AtHome(w, n, c) && c in s.clients
    ensures Follows(w, n, s, H.Served(n, c, H.LeaveRoom, false), LeftRoom(s, c, now))
  {
    assert RecordMatches(w, n.links[c], s.clients[c]);
    if n.links[c].record == H.Inside {
      LeaveDeparts(n, c);
      LeaveParts(w, n, s, c, now);
      DepartureFollows(w, n, s, H.Served(n, c, H.LeaveRoom, false), LeftRoom(s, c, now), c, true);
    }
  }

  /** The end of a connection, of a member, of somebody whose room was reaped, or of anybody else. */
  lemma CloseFollows(w: World, n: H.Net, s: Relay, c: nat, now: int)
    requires Matches(w, n, s) && H.Enabled(n, H.Close(c))
    ensures c in s.clients && Follows(w, n, s, H.Next(n, H.Close(c)), Disconnected(s, c, now))
  {
    if n.links[c].record == H.Inside {
      CloseDeparts(n, c);
      DisconnectParts(w, n, s, c, now);
      DepartureFollows(w, n, s, H.Next(n, H.Close(c)), Disconnected(s, c, now), c, false);
    } else {
      OutsiderCloses(w, n, s, c, now);
    }
  }

  lemma OutsiderCloses(w: World, n: H.Net, s: Relay, c: nat, now: int)
    requires Matches(w, n, s) && H.Enabled(n, H.Close(c)) && n.links[c].record == H.Outside
    ensures c in s.clients && Follows(w, n, s, H.Next(n, H.Close(c)), Disconnected(s, c, now))
  {
    var m, t := H.Next(n, H.Close(c)), Disconnected(s, c, now);
    assert RecordMatches(w, n.links[c], s.clients[c]);
    ElsewhereAsBefore(w, n, s.hall, m, t.hall);
    forall d | d in t.clients ensures d < |m.links| && RecordMatches(w, m.links[d], t.clients[d]) {
      assert d in s.clients && RecordMatches(w, n.links[d], s.clients[d]);
    }
  }

  // Sockets that the relay closes.

  /** A client that used up its violations is closed and told nothing. */
  lemma FailKicks(w: World, n: H.Net, s: Relay, c: nat, popped: bool)
    requires Matches(w, n, s) && H.Enabled(n, H.Kick(c, popped)) && c in s.clients
    requires c !in Fail(s, w.policy, c).hall.open
    ensures Follows(w, n, s, H.Next(n, H.Kick(c, popped)), Fail(s, w.policy, c))
  {
    var m, t := H.Next(n, H.Kick(c, popped)), Fail(s, w.policy, c);
    KickHall(w, n, s, c, popped);
    FailCounts(w, n, s, c);
    SameRecordsMatch(w, n, m, t.clients);
  }

  lemma SameRecordsMatch(w: World, n: H.Net, m: H.Net, clients: map<Conn, Client>)
    requires ClientsMatch(w, n, clients) && |m.links| == |n.links|
    requires forall d :: 0 <= d < |n.links| ==>
               m.links[d].owner == n.links[d].owner && m.links[d].record == n.links[d].record
    ensures ClientsMatch(w, m, clients)
  {
  }

  lemma KickHall(w: World, n: H.Net, s: Relay, c: nat, popped: bool)
    requires Matches(w, n, s) && H.Enabled(n, H.Kick(c, popped)) && c in s.clients
    requires c !in Fail(s, w.policy, c).hall.open
    ensures Fail(s, w.policy, c).hall == s.hall.(open := s.hall.open - {c})
    ensures HallMatches(w, H.Next(n, H.Kick(c, popped)), Fail(s, w.policy, c).hall)
  {
    ElsewhereAsBefore(w, n, s.hall, H.Next(n, H.Kick(c, popped)), Fail(s, w.policy, c).hall);
  }

  /** The events that can do that to a client, besides frames of the handshake. */
  lemma AsideKicks(w: World, n: H.Net, s: Relay, c: nat, e: Event)
    requires Matches(w, n, s) && H.Enabled(n, H.Kick(c, false)) && Enabled(s, e)
    requires (e.Send? || e.Invite? || e.Malformed?) && e.c == c && c !in Next(s, w.policy, e).hall.open
    ensures Follows(w, n, s, H.Next(n, H.Kick(c, false)), Next(s, w.policy, e))
  {
    if e.Send? && s.clients[c].roomId == Some(e.room) {
      var t := s.(guards := Guarded(s.guards, w.policy, s.clients[c].fingerprint, e.m, e.time));
      FailKicks(w, n, t, c, false);
      SameHall(w, n, s, t, H.Next(n, H.Kick(c, false)), Next(s, w.policy, e));
    } else {
      FailKicks(w, n, s, c, false);
    }
  }

  lemma RefusalKicks(w: World, n: H.Net, s: Relay, c: nat, e: Event)
    requires Sound(w) && Matches(w, n, s) && H.Enabled(n, H.Kick(c, true)) && Enabled(s, e)
    requires n.links[c].up[0].EnterRoom? && Encodes(w, n, c, H.EnterRoom, e)
    requires c !in Next(s, w.policy, e).hall.open
    ensures Follows(w, n, s, H.Next(n, H.Kick(c, true)), Next(s, w.policy, e))
  {
    KickedIsRefused(w, n, s, c, e);
    NamedMatches(w, n, s, c);
    TurnedDown(w, n, s, c, e);
    FailKicks(w, n, Named(w, n, s, c), c, true);
    SameHall(w, n, s, Named(w, n, s, c), H.Next(n, H.Kick(c, true)), Next(s, w.policy, e));
  }

  lemma KickedIsRefused(w: World, n: H.Net, s: Relay, c: nat, e: Event)
    requires Sound(w) && Matches(w, n, s) && AtHome(w, n, c) && c in s.hall.open && Enabled(s, e)
    requires Encodes(w, n, c, H.EnterRoom, e) && c !in Next(s, w.policy, e).hall.open
    ensures if w.room in s.hall.rooms then !Admitted(s, w.policy, e) else e.Join?
  {
    assert w.names[n.links[c].owner] in w.names;
    if w.room in s.hall.rooms {
      AdmissionExactly(s, w.policy, e);
    }
  }

  lemma FrameKicks(w: World, n: H.Net, s: Relay, c: nat, e: Event)
    requires Sound(w) && Matches(w, n, s) && H.Enabled(n, H.Kick(c, true)) && Enabled(s, e)
    requires Encodes(w, n, c, n.links[c].up[0], e) && c !in Next(s, w.policy, e).hall.open
    ensures Follows(w, n, s, H.Next(n, H.Kick(c, true)), Next(s, w.policy, e))
  {
    if n.links[c].up[0].EnterRoom? {
      RefusalKicks(w, n, s, c, e);
    } else {
      FailKicks(w, n, s, c, true);
    }
  }

  // A sweep that finds the room expired, and perhaps others.

  lemma ReapFollows(w: World, n: H.Net, s: Relay, now: int)
    requires Matches(w, n, s) && w.room in s.hall.rooms && Expired(s.hall.rooms[w.room], now, w.policy.lim)
    ensures Follows(w, n, s, H.Next(n, H.Reap), s.(hall := Cleaned(s.hall, now, w.policy.lim)))
  {
    var m, t := H.Next(n, H.Reap), s.(hall := Cleaned(s.hall, now, w.policy.lim));
    ReapHall(w, n, s.hall, now);
    SameRecordsMatch(w, n, m, t.clients);
    forall d | 0 <= d < |n.links| && n.links[d].owner != w.stranger ensures SameNews(w, n, s, m, t, d) {
      ReapNotifies(w, n, s.hall, now, d);
      assert SentTo(s.hall, d) + [] == SentTo(s.hall, d) && n.links[d].down + [] == n.links[d].down;
      OneEach(w, n, s, m, t, d, if d in n.members && n.links[d].open then [Page.RoomClosed] else [],
              if d in n.members && d in s.hall.open then [RoomClosed] else []);
    }
  }

  /** Clients of the room, and of no other, are affected. */
  lemma ReapAffects(w: World, n: H.Net, h: Hall, now: int, d: nat)
    requires HallMatches(w, n, h) && AtHome(w, n, d)
    ensures d in Affected(h, ExpiredRooms(h, now, w.policy.lim)) <==>
            d in h.open && d in n.members && w.room in ExpiredRooms(h, now, w.policy.lim)
  {
    var gone := ExpiredRooms(h, now, w.policy.lim);
    if Within(h.rooms, gone, d) {
      var room :| room in gone && room in h.rooms && d in h.rooms[room].clients;
      assert d in Listed(h, room);
    }
  }

  lemma ReapNotifies(w: World, n: H.Net, h: Hall, now: int, d: nat)
    requires HallMatches(w, n, h) && AtHome(w, n, d)
    requires w.room in h.rooms && Expired(h.rooms[w.room], now, w.policy.lim)
    ensures SentTo(Cleaned(h, now, w.policy.lim), d)
            == SentTo(h, d) + if d in n.members && d in h.open then [RoomClosed] else []
  {
    ReapAffects(w, n, h, now, d);
    assert SentTo(h, d) + [] == SentTo(h, d);
  }

  /** The room is gone, and its open members have been told and closed. */
  lemma ReapHall(w: World, n: H.Net, h: Hall, now: int)
    requires HallMatches(w, n, h) && w.room in h.rooms && Expired(h.rooms[w.room], now, w.policy.lim)
    ensures HallMatches(w, H.Next(n, H.Reap), Cleaned(h, now, w.policy.lim))
  {
    var m, k := H.Next(n, H.Reap), Cleaned(h, now, w.policy.lim);
    forall room | room != w.room ensures Strangers(w, m, Listed(k, room)) {
      assert Strangers(w, n, Listed(h, room));
    }
    forall c | 0 <= c < |m.links| && m.links[c].owner != w.stranger ensures c in k.open <==> m.links[c].open {
      ReapAffects(w, n, h, now, c);
    }
  }
}
