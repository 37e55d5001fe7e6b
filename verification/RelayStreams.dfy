/** The broadcasts a connection hears in a room, against the order in which the relay made them. */
module RelayStreams {
  import opened Wrappers
  import opened Rooms
  import opened Relay
  import opened RelayStructure
  import opened RelayTokens

  /** The broadcasts of a room among some frames. */
  function CastsOf(frames: seq<Frame>, room: string): (r: seq<Frame>)
    decreases |frames|
  {
    if frames == [] then []
    else
      var last := frames[|frames| - 1];
      CastsOf(frames[..|frames| - 1], room) + if last.Cast? && last.room == room then [last] else []
  }

  /** The broadcasts of a room that a connection has received. */
  function Seen(h: Hall, c: Conn, room: string): seq<Frame> {
    CastsOf(SentTo(h, c), room)
  }

  /** The broadcasts of the others. */
  function NotBy(log: seq<Frame>, c: Conn): seq<Frame> {
    if log == [] then []
    else (if log[0].Cast? && log[0].sender == c then [] else [log[0]]) + NotBy(log[1..], c)
  }

  /** The broadcast an event makes in a live room. */
  function Made(s: Relay, p: Policy, e: Event, room: string): (log: seq<Frame>)
    requires Enabled(s, e)
  {
    if room !in s.hall.rooms then []
    else
      match e
      case Create(c, r, _, fp, _) =>
        if r == room && Admitted(s, p, e) then
          [Cast(room, c, Joined(WithIdentity(s.clients[c], fp).fingerprint))]
        else []
      case Join(c, r, _, fp, _) =>
        if r == room && Admitted(s, p, e) then
          [Cast(room, c, Joined(WithIdentity(s.clients[c], fp).fingerprint))]
        else []
      case Announce(c, r, from, key, _) =>
        if r == room && s.clients[c].roomId == Some(room) then [Cast(room, c, Key(from, key))] else []
      case Send(c, r, m, now) =>
        if r == room && s.clients[c].roomId == Some(room) && m.to.None?
           && Passes(s.guards, p, s.clients[c].fingerprint, m, now) then [Cast(room, c, Message(m.body))] else []
      case Type(c, start, _) =>
        if s.clients[c].roomId == Some(room) then [Cast(room, c, Typing(start, s.clients[c].fingerprint))] else []
      case Leave(c, _) =>
        if s.clients[c].roomId == Some(room) then [Cast(room, c, Left(s.clients[c].fingerprint))] else []
      case Disconnect(c, _) =>
        if s.clients[c].roomId == Some(room) then [Cast(room, c, Left(s.clients[c].fingerprint))] else []
      case _ => []
  }

  /** All broadcasts of the room in a run, in order. */
  function Log(s: Relay, p: Policy, es: seq<Event>, room: string): seq<Frame>
    requires Possible(s, p, es)
    decreases |es|
  {
    if es == [] then [] else Made(s, p, es[0], room) + Log(Next(s, p, es[0]), p, es[1..], room)
  }

  /** The connection's socket is open and it is on the list of the room. */
  predicate Listens(h: Hall, room: string, c: Conn) {
    c in h.open && Lists(h, room, c)
  }

  /** What others broadcast in one event, if the connection listens. */
  function HeardAt(s: Relay, p: Policy, e: Event, room: string, c: Conn): seq<Frame>
    requires Enabled(s, e)
  {
    if Listens(s.hall, room, c) then NotBy(Made(s, p, e, room), c) else []
  }

  /** The part of the log made by others while the connection listens. */
  function Heard(s: Relay, p: Policy, es: seq<Event>, room: string, c: Conn): seq<Frame>
    requires Possible(s, p, es)
    decreases |es|
  {
    if es == [] then [] else HeardAt(s, p, es[0], room, c) + Heard(Next(s, p, es[0]), p, es[1..], room, c)
  }

  // What each operation adds to what a connection has seen.

  lemma CastsOfMore(frames: seq<Frame>, f: Frame, room: string)
    ensures CastsOf(frames + [f], room) == CastsOf(frames, room) + if f.Cast? && f.room == room then [f] else []
  {
    assert (frames + [f])[..|frames|] == frames;
  }

  lemma WriteSeen(h: Hall, to: Conn, f: Frame, c: Conn, room: string)
    requires !f.Cast?
    ensures Seen(Write(h, to, f), c, room) == Seen(h, c, room)
  {
    CastsOfMore(SentTo(h, to), f, room);
  }

  lemma BroadcastSeen(h: Hall, at: string, sender: Conn, news: News, now: int, c: Conn, room: string)
    requires at in h.rooms ==> Distinct(h.rooms[at].clients)
    ensures Seen(Broadcast(h, at, sender, news, now), c, room)
            == Seen(h, c, room)
               + if at == room && Listens(h, at, c) && c != sender then [Cast(at, sender, news)] else []
  {
    if at in h.rooms {
      SpreadReaches(h.sent, h.open, h.rooms[at].clients, sender, Cast(at, sender, news), c);
      CastsOfMore(SentTo(h, c), Cast(at, sender, news), room);
      assert SentTo(h, c) + [] == SentTo(h, c);
    }
  }

  lemma FailSeen(s: Relay, p: Policy, from: Conn, c: Conn, room: string)
    requires from in s.clients
    ensures Seen(Fail(s, p, from).hall, c, room) == Seen(s.hall, c, room)
  {
    WriteSeen(s.hall, from, Refused, c, room);
  }

  lemma WelcomeSeen(s: Relay, p: Policy, from: Conn, at: string, now: int, c: Conn, room: string)
    requires ListsOk(s.hall, p) && from in s.clients
    ensures Seen(Welcomed(s, from, at, now).hall, c, room)
            == Seen(s.hall, c, room) + if at == room && Listens(s.hall, at, c) && c != from
                                       then [Cast(at, from, Joined(s.clients[from].fingerprint))] else []
  {
    WriteSeen(s.hall, from, Done, c, room);
    BroadcastSeen(Write(s.hall, from, Done), at, from, Joined(s.clients[from].fingerprint), now, c, room);
  }

  /** What the event adds to what the connection has seen. */
  ghost predicate SeenGrows(s: Relay, p: Policy, e: Event, c: Conn, room: string)
    requires Enabled(s, e)
  {
    Seen(Next(s, p, e).hall, c, room)
    == Seen(s.hall, c, room) + if Listens(s.hall, room, c) then NotBy(Made(s, p, e, room), c) else []
  }

  lemma CreateSeen(s: Relay, p: Policy, e: Event, c: Conn, room: string)
    requires ListsOk(s.hall, p) && Enabled(s, e) && e.Create?
    ensures SeenGrows(s, p, e, c, room)
  {
    var t := SetClient(s, e.c, WithIdentity(s.clients[e.c], e.fp));
    if e.room !in s.hall.rooms {
      var u := t.(hall := RoomAdded(t.hall, e.room, e.token, e.time));
      WriteSeen(Placed(u, p, e.c, e.room, e.time).hall, e.c, Done, c, room);
    } else {
      RejoinSeen(s, p, e, c, room);
    }
  }

  lemma RejoinSeen(s: Relay, p: Policy, e: Event, c: Conn, room: string)
    requires ListsOk(s.hall, p) && Enabled(s, e) && e.Create? && e.room in s.hall.rooms
    ensures SeenGrows(s, p, e, c, room)
  {
    var t := SetClient(s, e.c, WithIdentity(s.clients[e.c], e.fp));
    AdmissionExactly(s, p, e);
    if Admitted(s, p, e) {
      RejoinedSeen(s, p, e, c, room);
    } else {
      FailSeen(t, p, e.c, c, room);
    }
  }

  lemma RejoinedSeen(s: Relay, p: Policy, e: Event, c: Conn, room: string)
    requires ListsOk(s.hall, p) && Enabled(s, e) && e.Create? && Admitted(s, p, e)
    ensures SeenGrows(s, p, e, c, room)
  {
    var t := SetClient(s, e.c, WithIdentity(s.clients[e.c], e.fp));
    AdmissionExactly(s, p, e);
    RoomOpsKeepLists(s.hall, p, e.room, e.token, e.c, e.time);
    WelcomeSeen(Placed(t, p, e.c, e.room, e.time), p, e.c, e.room, e.time, c, room);
  }

  lemma JoinSeen(s: Relay, p: Policy, e: Event, c: Conn, room: string)
    requires ListsOk(s.hall, p) && Enabled(s, e) && e.Join?
    ensures SeenGrows(s, p, e, c, room)
  {
    var t := SetClient(s, e.c, WithIdentity(s.clients[e.c], e.fp));
    if e.room in s.hall.rooms {
      AdmissionExactly(s, p, e);
    }
    if !Admitted(s, p, e) {
      FailSeen(t, p, e.c, c, room);
    } else {
      RoomOpsKeepLists(s.hall, p, e.room, e.token, e.c, e.time);
      var u := Placed(t, p, e.c, e.room, e.time);
      var v := u.(hall := u.hall.(tokens := TokenBound(u.hall.tokens, e.room, e.token, e.fp)));
      WelcomeSeen(v, p, e.c, e.room, e.time, c, room);
    }
  }

  lemma LeaveSeen(s: Relay, p: Policy, e: Event, c: Conn, room: string)
    requires ListsOk(s.hall, p) && Enabled(s, e) && e.Leave?
    ensures SeenGrows(s, p, e, c, room)
  {
    var cl := s.clients[e.c];
    if cl.roomId.Some? {
      var h := Broadcast(s.hall, cl.roomId.value, e.c, Left(cl.fingerprint), e.time);
      BroadcastSeen(s.hall, cl.roomId.value, e.c, Left(cl.fingerprint), e.time, c, room);
      WriteSeen(ClientRemoved(h, cl.roomId.value, e.c, e.time), e.c, Done, c, room);
    }
  }

  /** What the others hear of a disconnected client that had a room. */
  lemma FarewellSeen(s: Relay, p: Policy, gone: Conn, now: int, c: Conn, room: string)
    requires ListsOk(s.hall, p) && gone in s.clients && s.clients[gone].roomId.Some?
    ensures var cl := s.clients[gone];
            Seen(Disconnected(s, gone, now).hall, c, room)
            == Seen(s.hall, c, room)
               + if cl.roomId == Some(room) && Listens(s.hall, room, c) && c != gone then
                   [Cast(room, gone, Left(cl.fingerprint))]
                 else []
  {
    var cl, h := s.clients[gone], s.hall.(open := s.hall.open - {gone});
    var removed := ClientRemoved(h, cl.roomId.value, gone, now);
    RoomOpsKeepLists(h, p, cl.roomId.value, "", gone, now);
    BroadcastSeen(removed, cl.roomId.value, gone, Left(cl.fingerprint), now, c, room);
  }

  lemma DisconnectSeen(s: Relay, p: Policy, e: Event, c: Conn, room: string)
    requires ListsOk(s.hall, p) && Enabled(s, e) && e.Disconnect?
    ensures SeenGrows(s, p, e, c, room)
  {
    if s.clients[e.c].roomId.Some? {
      FarewellSeen(s, p, e.c, e.time, c, room);
    }
  }

  lemma AnnounceSeen(s: Relay, p: Policy, e: Event, c: Conn, room: string)
    requires ListsOk(s.hall, p) && Enabled(s, e) && e.Announce?
    ensures SeenGrows(s, p, e, c, room)
  {
    FailSeen(s, p, e.c, c, room);
    BroadcastSeen(s.hall, e.room, e.c, Key(e.from, e.key), e.time, c, room);
  }

  lemma SendSeen(s: Relay, p: Policy, e: Event, c: Conn, room: string)
    requires ListsOk(s.hall, p) && Enabled(s, e) && e.Send?
    ensures SeenGrows(s, p, e, c, room)
  {
    var t := s.(guards := Guarded(s.guards, p, s.clients[e.c].fingerprint, e.m, e.time));
    if s.clients[e.c].roomId != Some(e.room) {
      FailSeen(s, p, e.c, c, room);
    } else if !Passes(s.guards, p, s.clients[e.c].fingerprint, e.m, e.time) {
      FailSeen(t, p, e.c, c, room);
    } else if e.m.to.Some? {
      ForwardSeen(t, e.room, e.m.to.value, e.m.body, c, room);
    } else {
      BroadcastSeen(s.hall, e.room, e.c, Message(e.m.body), e.time, c, room);
    }
  }

  lemma ForwardSeen(s: Relay, at: string, fp: string, body: string, c: Conn, room: string)
    ensures Seen(ForwardedTo(s, at, fp, body).hall, c, room) == Seen(s.hall, c, room)
  {
    if at in s.hall.rooms {
      var found := FindClient(s.clients, s.departed, s.hall.rooms[at].clients, fp);
      if found.Some? {
        WriteSeen(s.hall, found.value, Direct(body), c, room);
      }
    }
  }

  lemma InviteSeen(s: Relay, p: Policy, e: Event, c: Conn, room: string)
    requires ListsOk(s.hall, p) && Enabled(s, e) && e.Invite?
    ensures SeenGrows(s, p, e, c, room)
  {
    FailSeen(s, p, e.c, c, room);
    WriteSeen(TokenAdded(s.hall, e.room, e.token), e.c, Done, c, room);
  }

  lemma TypeSeen(s: Relay, p: Policy, e: Event, c: Conn, room: string)
    requires ListsOk(s.hall, p) && Enabled(s, e) && e.Type?
    ensures SeenGrows(s, p, e, c, room)
  {
    var cl := s.clients[e.c];
    if cl.roomId.Some? {
      BroadcastSeen(s.hall, cl.roomId.value, e.c, Typing(e.start, cl.fingerprint), e.time, c, room);
    }
  }

  lemma StepSeen(s: Relay, p: Policy, e: Event, c: Conn, room: string)
    requires ListsOk(s.hall, p) && Enabled(s, e)
    ensures Seen(Next(s, p, e).hall, c, room) == Seen(s.hall, c, room) + HeardAt(s, p, e, room, c)
  {
    match e
    case Accept(_, _) =>
    case Create(_, _, _, _, _) => CreateSeen(s, p, e, c, room);
    case Join(_, _, _, _, _) => JoinSeen(s, p, e, c, room);
    case Leave(_, _) => LeaveSeen(s, p, e, c, room);
    case Disconnect(_, _) => DisconnectSeen(s, p, e, c, room);
    case Cleanup(_) => CastsOfMore(SentTo(s.hall, c), RoomClosed, room);
    case Malformed(d, _) => FailSeen(s, p, d, c, room);
    case Announce(_, _, _, _, _) => AnnounceSeen(s, p, e, c, room);
    case Send(_, _, _, _) => SendSeen(s, p, e, c, room);
    case Type(_, _, _) => TypeSeen(s, p, e, c, room);
    case Invite(_, _, _, _) => InviteSeen(s, p, e, c, room);
  }

  /**
   In every run a connection sees, of each room, exactly the broadcasts the
   others make there while it listens: in their order, each one once.
   */
  lemma {:induction false} OrderedStreams(s: Relay, p: Policy, es: seq<Event>, c: Conn, room: string)
    requires ListsOk(s.hall, p) && Possible(s, p, es)
    ensures Seen(After(s, p, es).hall, c, room) == Seen(s.hall, c, room) + Heard(s, p, es, room, c)
    decreases |es|
  {
    if es != [] {
      var t := Next(s, p, es[0]);
      StepSeen(s, p, es[0], c, room);
      StepKeepsLists(s, p, es[0]);
      OrderedStreams(t, p, es[1..], c, room);
      Regroup(Seen(s.hall, c, room), HeardAt(s, p, es[0], room, c), Heard(t, p, es[1..], room, c));
    }
  }

  // Members that stay.

  predicate ListensAlong(s: Relay, p: Policy, es: seq<Event>, room: string, c: Conn)
    requires Possible(s, p, es)
    decreases |es|
  {
    es == [] || (Listens(s.hall, room, c) && ListensAlong(Next(s, p, es[0]), p, es[1..], room, c))
  }

  lemma {:induction false} NotByAppend(a: seq<Frame>, b: seq<Frame>, c: Conn)
    ensures NotBy(a + b, c) == NotBy(a, c) + NotBy(b, c)
  {
    if a == [] {
      assert a + b == b;
    } else {
      assert (a + b)[0] == a[0] && (a + b)[1..] == a[1..] + b;
      NotByAppend(a[1..], b, c);
      var head := if a[0].Cast? && a[0].sender == c then [] else [a[0]];
      assert NotBy(a, c) == head + NotBy(a[1..], c);
      assert NotBy(a + b, c) == head + NotBy(a[1..] + b, c);
      Regroup(head, NotBy(a[1..], c), NotBy(b, c));
    }
  }

  /** A member that stays hears the whole log but its own part. */
  lemma {:induction false} MembersHearTheLog(s: Relay, p: Policy, es: seq<Event>, room: string, c: Conn)
    requires Possible(s, p, es) && ListensAlong(s, p, es, room, c)
    ensures Heard(s, p, es, room, c) == NotBy(Log(s, p, es, room), c)
    decreases |es|
  {
    if es != [] {
      MembersHearTheLog(Next(s, p, es[0]), p, es[1..], room, c);
      NotByAppend(Made(s, p, es[0], room), Log(Next(s, p, es[0]), p, es[1..], room), c);
    }
  }

  // Any two connections.

  /** Where in the log of the room, counted from `from`, stand the broadcasts that a connection hears. */
  function Places(s: Relay, p: Policy, es: seq<Event>, room: string, c: Conn, from: nat): seq<nat>
    requires Possible(s, p, es)
    decreases |es|
  {
    if es == [] then []
    else
      (if HeardAt(s, p, es[0], room, c) != [] then [from] else [])
      + Places(Next(s, p, es[0]), p, es[1..], room, c, from + |Made(s, p, es[0], room)|)
  }

  /** An event makes at most one broadcast in a room, and a listener hears it unless it is its own. */
  lemma HeardOne(s: Relay, p: Policy, e: Event, room: string, c: Conn)
    requires Enabled(s, e)
    ensures |Made(s, p, e, room)| <= 1
    ensures HeardAt(s, p, e, room, c)
            == if Made(s, p, e, room) != [] && Listens(s.hall, room, c) && e.c != c then Made(s, p, e, room) else []
  {
    var made := Made(s, p, e, room);
    if made != [] {
      assert made == [made[0]] && made[0].Cast? && made[0].sender == e.c;
      assert NotBy(made, c) == if e.c == c then [] else made;
    }
  }

  /** The places, increasing, of some frames in a log that is counted from `from`. */
  ghost predicate Marks(places: seq<nat>, heard: seq<Frame>, log: seq<Frame>, from: nat) {
    && |places| == |heard|
    && (forall i :: 0 <= i < |places| ==> from <= places[i] < from + |log| && log[places[i] - from] == heard[i])
    && (forall i, j :: 0 <= i < j < |places| ==> places[i] < places[j])
  }

  lemma MarksStep(places: seq<nat>, heard: seq<Frame>, log: seq<Frame>, from: nat, made: seq<Frame>, at: seq<Frame>)
    requires |made| <= 1 && (at == [] || at == made) && Marks(places, heard, log, from + |made|)
    ensures Marks((if at != [] then [from] else []) + places, at + heard, made + log, from)
  {
    var places', heard', log' := (if at != [] then [from] else []) + places, at + heard, made + log;
    forall i | 0 <= i < |places'|
      ensures from <= places'[i] < from + |log'| && log'[places'[i] - from] == heard'[i]
    {
      if i >= |at| {
        var k := i - |at|;
        assert places'[i] == places[k] && heard'[i] == heard[k];
        assert log'[places[k] - from] == log[places[k] - from - |made|];
      }
    }
    forall i, j | 0 <= i < j < |places'| ensures places'[i] < places'[j] {
      assert places'[j] == places[j - |at|];
      if i >= |at| {
        assert places'[i] == places[i - |at|];
      }
    }
  }

  /** What a connection hears is the log at those places. */
  lemma {:induction false} PlacesAreHeard(s: Relay, p: Policy, es: seq<Event>, room: string, c: Conn, from: nat)
    requires Possible(s, p, es)
    ensures Marks(Places(s, p, es, room, c, from), Heard(s, p, es, room, c), Log(s, p, es, room), from)
    decreases |es|
  {
    if es != [] {
      var t, made, at := Next(s, p, es[0]), Made(s, p, es[0], room), HeardAt(s, p, es[0], room, c);
      PlacesAreHeard(t, p, es[1..], room, c, from + |made|);
      HeardOne(s, p, es[0], room, c);
      MarksStep(Places(t, p, es[1..], room, c, from + |made|), Heard(t, p, es[1..], room, c), Log(t, p, es[1..], room),
                from, made, at);
    }
  }

  /**
   Whenever two connections, with whatever histories of membership, both hear
   two broadcasts of a room, they hear the same frames in the same order.
   */
  lemma MembersAgreeOnOrder(s: Relay, p: Policy, es: seq<Event>, room: string, c: Conn, d: Conn,
                            i: nat, j: nat, k: nat, l: nat)
    requires Reachable(s, p) && Possible(s, p, es)
    requires i < |Places(s, p, es, room, c, 0)| && j < |Places(s, p, es, room, c, 0)|
    requires k < |Places(s, p, es, room, d, 0)| && l < |Places(s, p, es, room, d, 0)|
    requires Places(s, p, es, room, c, 0)[i] == Places(s, p, es, room, d, 0)[k]
    requires Places(s, p, es, room, c, 0)[j] == Places(s, p, es, room, d, 0)[l]
    ensures i < j <==> k < l
    ensures var newToC, newToD := Heard(s, p, es, room, c), Heard(s, p, es, room, d);
            && Seen(After(s, p, es).hall, c, room) == Seen(s.hall, c, room) + newToC
            && Seen(After(s, p, es).hall, d, room) == Seen(s.hall, d, room) + newToD
            && i < |newToC| && j < |newToC| && k < |newToD| && l < |newToD|
            && newToC[i] == newToD[k] && newToC[j] == newToD[l]
  {
    ReachableOk(s, p);
    OrderedStreams(s, p, es, c, room);
    OrderedStreams(s, p, es, d, room);
    PlacesAreHeard(s, p, es, room, c, 0);
    PlacesAreHeard(s, p, es, room, d, 0);
    SamePlaces(Places(s, p, es, room, c, 0), Heard(s, p, es, room, c), Places(s, p, es, room, d, 0),
               Heard(s, p, es, room, d), Log(s, p, es, room), i, j, k, l);
  }

  lemma SamePlaces(a: seq<nat>, heardA: seq<Frame>, b: seq<nat>, heardB: seq<Frame>, log: seq<Frame>,
                   i: nat, j: nat, k: nat, l: nat)
    requires Marks(a, heardA, log, 0) && Marks(b, heardB, log, 0)
    requires i < |a| && j < |a| && k < |b| && l < |b| && a[i] == b[k] && a[j] == b[l]
    ensures (i < j <==> k < l) && heardA[i] == heardB[k] && heardA[j] == heardB[l]
  {
  }

  /** A broadcast is in both streams exactly if both listened to it and neither made it. */
  lemma HeardByBoth(s: Relay, p: Policy, e: Event, room: string, c: Conn, d: Conn)
    requires Enabled(s, e)
    ensures HeardAt(s, p, e, room, c) != [] && HeardAt(s, p, e, room, d) != [] <==>
            && Made(s, p, e, room) != [] && Listens(s.hall, room, c) && Listens(s.hall, room, d)
            && e.c != c && e.c != d
  {
    HeardOne(s, p, e, room, c);
    HeardOne(s, p, e, room, d);
  }
}
