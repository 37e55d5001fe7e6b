/**
 Browsers of one room and the relay in one system. Every joint run, in which
 clients of other rooms may do whatever they like, is a run of the step system of
 the room, so what holds there holds of the relay's own member list; and what is
 written to a socket is what its browser takes.
 */
module JointRuns {
  import opened Wrappers
  import opened PeerSession
  import Page
  import H = Handshake
  import P = HandshakeProof
  import opened Rooms
  import opened Relay
  import opened RelayStructure
  import opened HandshakeRelay
  import opened OtherRooms
  import D = Delivery

  /**
   One move of the whole system: a browser acts by itself, a browser and the
   relay act together, the relay handles something no handshake is about, or a
   client of another room does something.
   */
  datatype Move = Local(step: H.Step) | Joint(step: H.Step, event: Event) | Aside(event: Event) | Foreign(event: Event)

  /** The relay does not close the client that acts. */
  predicate Tolerated(w: World, s: Relay, e: Event)
    requires Enabled(s, e) && !e.Cleanup?
  {
    Spared(s, Next(s, w.policy, e), e.c)
  }

  predicate Sweeps(w: World, s: Relay, e: Event) {
    e.Cleanup? && w.room in s.hall.rooms && Expired(s.hall.rooms[w.room], e.time, w.policy.lim)
  }

  ghost predicate Fits(w: World, n: H.Net, s: Relay, v: Move)
    requires Matches(w, n, s)
  {
    match v
    case Local(step) => H.Enabled(n, step) && (step.Enter? || step.Leave? || step.Drop? || step.Receive?)
    case Joint(step, e) =>
      && H.Enabled(n, step) && Enabled(s, e)
      && (match step
          case Connect(fp, _) => fp != w.stranger && e.Accept? && e.c == |n.links|
          case Serve(c, admit) =>
            && Encodes(w, n, c, n.links[c].up[0], e) && Tolerated(w, s, e)
            && (n.links[c].up[0].EnterRoom? ==> admit == Lists(Next(s, w.policy, e).hall, w.room, c))
          case Close(c) => e.Disconnect? && e.c == c
          case Kick(c, popped) =>
            && (if popped then Encodes(w, n, c, n.links[c].up[0], e)
                else (e.Send? || e.Invite? || e.Malformed?) && e.c == c)
            && !Tolerated(w, s, e)
          case Reap => Sweeps(w, s, e)
          case _ => false)
    case Aside(e) =>
      && Enabled(s, e)
      && (if e.Cleanup? then !Sweeps(w, s, e)
          else (e.Send? || e.Invite? || e.Type? || e.Malformed?) && AtHome(w, n, e.c) && Tolerated(w, s, e))
    case Foreign(e) =>
      && Enabled(s, e) && !e.Cleanup?
      && (if e.Accept? then e.c == |n.links| else Stranger(w, n, e.c) && (IsEntry(e) ==> e.room != w.room))
  }

  function NetAfter(w: World, n: H.Net, v: Move): H.Net
    requires v.Local? || v.Joint? ==> H.Enabled(n, v.step)
  {
    match v
    case Local(step) => H.Next(n, step)
    case Joint(step, _) => H.Next(n, step)
    case Aside(_) => n
    case Foreign(e) => if e.Accept? then Visited(w, n) else n
  }

  function RelayAfter(w: World, s: Relay, v: Move): Relay
    requires v.Local? || Enabled(s, v.event)
  {
    if v.Local? then s else Next(s, w.policy, v.event)
  }

  /** The frame at the head of the uplink is taken. */
  function Popped(n: H.Net, c: nat): H.Net
    requires c < |n.links| && n.links[c].up != []
  {
    n.(links := n.links[c := n.links[c].(up := n.links[c].up[1..])])
  }

  lemma PoppedMatches(w: World, n: H.Net, s: Relay, c: nat)
    requires Matches(w, n, s) && c < |n.links| && n.links[c].up != []
    ensures Matches(w, Popped(n, c), s)
  {
    SimilarMatches(w, n, s, Popped(n, c), s);
  }

  lemma LocalKeeps(w: World, n: H.Net, s: Relay, v: Move)
    requires Matches(w, n, s) && v.Local? && Fits(w, n, s, v)
    ensures Matches(w, NetAfter(w, n, v), s)
  {
    assert Similar(w, n, s, NetAfter(w, n, v), s);
    SimilarMatches(w, n, s, NetAfter(w, n, v), s);
  }

  lemma ServedFollows(w: World, n: H.Net, s: Relay, c: nat, f: H.Frame, admit: bool, e: Event)
    requires Sound(w) && Matches(w, n, s) && AtHome(w, n, c) && c in s.clients && Encodes(w, n, c, f, e)
    requires Enabled(s, e) && Tolerated(w, s, e)
    requires f.EnterRoom? ==> admit == Lists(Next(s, w.policy, e).hall, w.room, c)
    ensures Follows(w, n, s, H.Served(n, c, f, admit), Next(s, w.policy, e))
  {
    match f
    case EnterRoom => EnterFollows(w, n, s, c, e);
    case Announce(key, inRoom) =>
      if inRoom {
        AnnounceFollows(w, n, s, c, key, e);
      } else {
        FailFollows(w, n, s, c);
      }
    case LeaveRoom => LeaveFollows(w, n, s, c, e.time);
  }

  lemma PoppedFollows(w: World, n: H.Net, s: Relay, c: nat, m: H.Net, t: Relay)
    requires c < |n.links| && n.links[c].up != [] && Follows(w, Popped(n, c), s, m, t)
    ensures Follows(w, n, s, m, t)
  {
    var p := Popped(n, c);
    forall d | 0 <= d < |n.links| ensures m.links[d].owner == n.links[d].owner {
      assert m.links[d].owner == p.links[d].owner;
    }
    forall d | 0 <= d < |n.links| && n.links[d].owner != w.stranger ensures SameNews(w, n, s, m, t, d) {
      assert p.links[d].owner == n.links[d].owner && p.links[d].down == n.links[d].down;
      assert SameNews(w, p, s, m, t, d);
    }
  }

  lemma ServeFollows(w: World, n: H.Net, s: Relay, c: nat, admit: bool, e: Event)
    requires Sound(w) && Matches(w, n, s) && Fits(w, n, s, Joint(H.Serve(c, admit), e))
    ensures Follows(w, n, s, H.Next(n, H.Serve(c, admit)), Next(s, w.policy, e))
  {
    PoppedMatches(w, n, s, c);
    ServedFollows(w, Popped(n, c), s, c, n.links[c].up[0], admit, e);
    PoppedFollows(w, n, s, c, H.Next(n, H.Serve(c, admit)), Next(s, w.policy, e));
  }

  lemma ConnectKeeps(w: World, n: H.Net, s: Relay, v: Move)
    requires Matches(w, n, s) && v.Joint? && v.step.Connect? && Fits(w, n, s, v)
    ensures Matches(w, NetAfter(w, n, v), RelayAfter(w, s, v))
  {
    var m, c := NetAfter(w, n, v), |n.links|;
    NewLink(n, v.step.fp, v.step.restored);
    ConnectHall(w, n, s, m, c);
    ConnectClients(w, n, s, m, c);
  }

  lemma ConnectClients(w: World, n: H.Net, s: Relay, m: H.Net, c: nat)
    requires Matches(w, n, s) && c == |n.links| && |m.links| == c + 1
    requires forall d :: 0 <= d < c ==> m.links[d] == n.links[d]
    requires m.links[c].record == H.Outside && m.links[c].owner != w.stranger
    ensures ClientsMatch(w, m, Accepted(s, c).clients)
  {
    var t := Accepted(s, c);
    forall d | d in t.clients ensures d < |m.links| && RecordMatches(w, m.links[d], t.clients[d]) {
      assert d != c ==> d in s.clients && RecordMatches(w, n.links[d], s.clients[d]);
    }
  }

  lemma NewLink(n: H.Net, fp: Fp, restored: bool)
    requires H.Enabled(n, H.Connect(fp, restored))
    ensures var m, c := H.Next(n, H.Connect(fp, restored)), |n.links|;
            && |m.links| == c + 1 && |m.browsers| == |n.browsers| && m.members == n.members
            && (forall d :: 0 <= d < c ==> m.links[d] == n.links[d])
            && (forall x :: 0 <= x < |n.browsers| && x != fp ==> m.browsers[x] == n.browsers[x])
            && m.links[c].owner == fp && m.links[c].open && m.links[c].record == H.Outside
  {
  }

  lemma ConnectHall(w: World, n: H.Net, s: Relay, m: H.Net, c: nat)
    requires Matches(w, n, s) && c == |n.links| && |m.links| == c + 1 && |m.browsers| == |n.browsers|
    requires m.members == n.members && forall d :: 0 <= d < c ==> m.links[d] == n.links[d]
    requires m.links[c].owner < |n.browsers| && m.links[c].open && m.links[c].record == H.Outside
    requires m.links[c].owner != w.stranger
    ensures HallMatches(w, m, Accepted(s, c).hall)
  {
    forall room | room != w.room ensures Strangers(w, m, Listed(Accepted(s, c).hall, room)) {
      assert Strangers(w, n, Listed(s.hall, room));
    }
  }

  lemma AsideKeeps(w: World, n: H.Net, s: Relay, v: Move)
    requires Matches(w, n, s) && v.Aside? && Fits(w, n, s, v)
    ensures Matches(w, n, RelayAfter(w, s, v))
  {
    match v.event
    case Send(c, room, m, now) => SendMatches(w, n, s, c, room, m, now);
    case Type(c, start, now) => TypeMatches(w, n, s, c, start, now);
    case Invite(c, room, token, _) => InviteMatches(w, n, s, c, room, token);
    case Cleanup(now) => SweepIsAloof(w, n, s, now);
    case Malformed(c, _) => FailMatches(w, n, s, c);
  }

  lemma TypeMatches(w: World, n: H.Net, s: Relay, c: nat, start: bool, now: int)
    requires Matches(w, n, s) && AtHome(w, n, c) && c in s.clients
    ensures Matches(w, n, Typed(s, c, start, now))
  {
    assert RecordMatches(w, n.links[c], s.clients[c]);
    if s.clients[c].roomId.Some? {
      BroadcastMatches(w, n, s, c, Typing(start, s.clients[c].fingerprint), now);
    }
  }

  lemma FailMatches(w: World, n: H.Net, s: Relay, c: nat)
    requires Matches(w, n, s) && AtHome(w, n, c) && c in s.clients && Spared(s, Fail(s, w.policy, c), c)
    ensures Matches(w, n, Fail(s, w.policy, c))
  {
    assert forall room :: Listed(Fail(s, w.policy, c).hall, room) == Listed(s.hall, room);
    SimilarMatches(w, n, s, n, Fail(s, w.policy, c));
  }

  lemma InviteMatches(w: World, n: H.Net, s: Relay, c: nat, room: string, token: string)
    requires Matches(w, n, s) && AtHome(w, n, c) && c in s.clients
    requires Spared(s, Invited(s, w.policy, c, room, token), c)
    ensures Matches(w, n, Invited(s, w.policy, c, room, token))
  {
    var t := Invited(s, w.policy, c, room, token);
    if s.clients[c].roomId != Some(room) || !TokenAddable(s.hall, room, token) {
      FailMatches(w, n, s, c);
    } else {
      assert forall r :: Listed(t.hall, r) == Listed(s.hall, r);
      SimilarMatches(w, n, s, n, t);
    }
  }

  lemma SendMatches(w: World, n: H.Net, s: Relay, c: nat, room: string, m: Payload, now: int)
    requires Matches(w, n, s) && AtHome(w, n, c) && c in s.clients
    requires Spared(s, SentMessage(s, w.policy, c, room, m, now), c)
    ensures Matches(w, n, SentMessage(s, w.policy, c, room, m, now))
  {
    var fp := s.clients[c].fingerprint;
    assert RecordMatches(w, n.links[c], s.clients[c]);
    if s.clients[c].roomId != Some(room) {
      FailMatches(w, n, s, c);
    } else {
      var t := s.(guards := Guarded(s.guards, w.policy, fp, m, now));
      if !Passes(s.guards, w.policy, fp, m, now) {
        FailMatches(w, n, t, c);
      } else if m.to.None? {
        BroadcastMatches(w, n, t, c, Message(m.body), now);
      } else {
        ForwardMatches(w, n, t, m.to.value, m.body);
      }
    }
  }

  lemma ForwardMatches(w: World, n: H.Net, s: Relay, to: string, body: string)
    requires Matches(w, n, s)
    ensures Matches(w, n, ForwardedTo(s, w.room, to, body))
  {
    var t := ForwardedTo(s, w.room, to, body);
    assert forall r :: Listed(t.hall, r) == Listed(s.hall, r);
    SimilarMatches(w, n, s, n, t);
  }

  lemma BroadcastMatches(w: World, n: H.Net, s: Relay, c: nat, news: News, now: int)
    requires Matches(w, n, s)
    ensures Matches(w, n, s.(hall := Broadcast(s.hall, w.room, c, news, now)))
  {
    var t := s.(hall := Broadcast(s.hall, w.room, c, news, now));
    SpreadsToOpen(s.hall.sent, s.hall.open, Listed(s.hall, w.room), c, Cast(w.room, c, news));
    assert forall r :: Listed(t.hall, r) == Listed(s.hall, r);
    SimilarMatches(w, n, s, n, t);
  }

  lemma ForeignKeeps(w: World, n: H.Net, s: Relay, v: Move)
    requires Matches(w, n, s) && v.Foreign? && Fits(w, n, s, v)
    ensures Matches(w, NetAfter(w, n, v), RelayAfter(w, s, v))
  {
    if v.event.Accept? {
      VisitMatches(w, n, s);
    } else {
      StrangersAreAloof(w, n, s, v.event);
    }
  }

  lemma MoveKeeps(w: World, n: H.Net, s: Relay, v: Move)
    requires Sound(w) && Matches(w, n, s) && Fits(w, n, s, v)
    ensures Matches(w, NetAfter(w, n, v), RelayAfter(w, s, v))
  {
    match v
    case Local(_) => LocalKeeps(w, n, s, v);
    case Aside(_) => AsideKeeps(w, n, s, v);
    case Foreign(_) => ForeignKeeps(w, n, s, v);
    case Joint(step, e) =>
      if step.Connect? {
        ConnectKeeps(w, n, s, v);
      } else {
        JointFollows(w, n, s, v);
      }
  }

  lemma KickFollows(w: World, n: H.Net, s: Relay, c: nat, popped: bool, e: Event)
    requires Sound(w) && Matches(w, n, s) && Fits(w, n, s, Joint(H.Kick(c, popped), e))
    ensures Follows(w, n, s, H.Next(n, H.Kick(c, popped)), Next(s, w.policy, e))
  {
    if popped {
      FrameKicks(w, n, s, c, e);
    } else {
      AsideKicks(w, n, s, c, e);
    }
  }

  ghost predicate JointRun(w: World, n: H.Net, s: Relay, vs: seq<Move>)
    decreases |vs|
  {
    vs == []
    || (Matches(w, n, s) && Fits(w, n, s, vs[0])
        && JointRun(w, NetAfter(w, n, vs[0]), RelayAfter(w, s, vs[0]), vs[1..]))
  }

  /** What a move is in the step system. */
  function MoveSteps(w: World, v: Move): seq<H.Step> {
    match v
    case Local(step) => [step]
    case Joint(step, _) => [step]
    case Aside(_) => []
    case Foreign(e) => if e.Accept? then Visit(w, e.c) else []
  }

  lemma MoveIsSteps(w: World, n: H.Net, s: Relay, v: Move)
    requires Matches(w, n, s) && Fits(w, n, s, v)
    ensures H.Possible(n, MoveSteps(w, v)) && H.After(n, MoveSteps(w, v)) == NetAfter(w, n, v)
  {
    if v.Foreign? && v.event.Accept? {
      VisitIsARun(w, n);
    } else if v.Local? || v.Joint? {
      assert [v.step][1..] == [];
      assert H.After(H.Next(n, v.step), []) == H.Next(n, v.step);
    }
  }

  lemma {:induction false} RunOn(n: H.Net, a: seq<H.Step>, b: seq<H.Step>)
    requires H.Possible(n, a) && H.Possible(H.After(n, a), b)
    ensures H.Possible(n, a + b) && H.After(n, a + b) == H.After(H.After(n, a), b)
    decreases |a|
  {
    if a == [] {
      assert a + b == b;
    } else {
      var m := H.Next(n, a[0]);
      assert (a + b)[0] == a[0] && (a + b)[1..] == a[1..] + b;
      assert H.After(n, a) == H.After(m, a[1..]);
      RunOn(m, a[1..], b);
      assert H.Possible(n, a + b) && H.After(n, a + b) == H.After(m, a[1..] + b);
    }
  }

  /** The steps of the step system in a joint run. */
  function StepsOf(w: World, vs: seq<Move>): seq<H.Step> {
    if vs == [] then [] else MoveSteps(w, vs[0]) + StepsOf(w, vs[1..])
  }

  function RelayEnd(w: World, n: H.Net, s: Relay, vs: seq<Move>): Relay
    requires JointRun(w, n, s, vs)
    decreases |vs|
  {
    if vs == [] then s else RelayEnd(w, NetAfter(w, n, vs[0]), RelayAfter(w, s, vs[0]), vs[1..])
  }

  /** A joint run is a run of the step system, and both sides match at its end. */
  lemma {:induction false} JointRunIsARun(w: World, n: H.Net, s: Relay, vs: seq<Move>)
    requires Sound(w) && Matches(w, n, s) && JointRun(w, n, s, vs)
    ensures H.Possible(n, StepsOf(w, vs)) && Matches(w, H.After(n, StepsOf(w, vs)), RelayEnd(w, n, s, vs))
    ensures vs != [] ==>
              && H.Possible(NetAfter(w, n, vs[0]), StepsOf(w, vs[1..]))
              && H.After(n, StepsOf(w, vs)) == H.After(NetAfter(w, n, vs[0]), StepsOf(w, vs[1..]))
    decreases |vs|
  {
    if vs != [] {
      MoveKeeps(w, n, s, vs[0]);
      JointRunIsARun(w, NetAfter(w, n, vs[0]), RelayAfter(w, s, vs[0]), vs[1..]);
      MoveIsSteps(w, n, s, vs[0]);
      RunOn(n, MoveSteps(w, vs[0]), StepsOf(w, vs[1..]));
    }
  }

  // What is written, received and queued.

  /** Frames that no handshake event stands for: texts, typing, and replies. */
  predicate Silent(f: Frame) {
    match f
    case Done => true
    case Refused => true
    case RoomClosed => false
    case Direct(_) => true
    case Cast(_, _, news) => news.Message? || news.Typing?
  }

  /** The frames say the events, one for one and in order, but for silent ones in between. */
  predicate Tells(w: World, frames: seq<Frame>, events: seq<Page.Event>)
    decreases |frames|
  {
    if frames == [] then events == []
    else
      var k, n := |frames| - 1, |events| - 1;
      || (Silent(frames[k]) && Tells(w, frames[..k], events))
      || (events != [] && Says(w, frames[k], events[n]) && Tells(w, frames[..k], events[..n]))
  }

  lemma TellsMore(w: World, frames: seq<Frame>, events: seq<Page.Event>, f: Frame, e: Page.Event)
    requires Tells(w, frames, events)
    ensures Silent(f) ==> Tells(w, frames + [f], events)
    ensures Says(w, f, e) ==> Tells(w, frames + [f], events + [e])
  {
    assert (frames + [f])[..|frames|] == frames && (events + [e])[..|events|] == events;
  }

  function Queued(n: H.Net, d: nat): seq<Page.Event> {
    if d < |n.links| then n.links[d].down else []
  }

  /** The events that the browser of connection d takes from its downlink in a run of moves. */
  function Received(w: World, n: H.Net, s: Relay, vs: seq<Move>, d: nat): seq<Page.Event>
    requires JointRun(w, n, s, vs)
    decreases |vs|
  {
    if vs == [] then []
    else
      (if vs[0] == Local(H.Receive(d)) then [n.links[d].down[0]] else [])
      + Received(w, NetAfter(w, n, vs[0]), RelayAfter(w, s, vs[0]), vs[1..], d)
  }

  /** An aside writes at most one frame to a socket, and a silent one. */
  ghost predicate Murmurs(s: Relay, t: Relay, d: Conn) {
    SentTo(t.hall, d) == SentTo(s.hall, d)
    || exists f :: Silent(f) && SentTo(t.hall, d) == SentTo(s.hall, d) + [f]
  }

  lemma FailMurmurs(s: Relay, p: Policy, c: Conn, d: Conn)
    requires c in s.clients
    ensures Murmurs(s, Fail(s, p, c), d)
  {
    if SentTo(Fail(s, p, c).hall, d) != SentTo(s.hall, d) {
      assert Silent(Refused) && SentTo(Fail(s, p, c).hall, d) == SentTo(s.hall, d) + [Refused];
    }
  }

  lemma BroadcastMurmurs(s: Relay, room: string, c: Conn, news: News, now: int, d: Conn)
    requires room in s.hall.rooms ==> Distinct(s.hall.rooms[room].clients)
    requires news.Message? || news.Typing?
    ensures Murmurs(s, s.(hall := Broadcast(s.hall, room, c, news, now)), d)
  {
    if room in s.hall.rooms {
      SpreadReaches(s.hall.sent, s.hall.open, s.hall.rooms[room].clients, c, Cast(room, c, news), d);
      assert Silent(Cast(room, c, news)) && SentTo(s.hall, d) + [] == SentTo(s.hall, d);
    }
  }

  lemma SendMurmurs(w: World, n: H.Net, s: Relay, c: Conn, room: string, m: Payload, now: int, d: Conn)
    requires Matches(w, n, s) && AtHome(w, n, c) && c in s.clients
    ensures Murmurs(s, SentMessage(s, w.policy, c, room, m, now), d)
  {
    var fp := s.clients[c].fingerprint;
    var t := s.(guards := Guarded(s.guards, w.policy, fp, m, now));
    assert RecordMatches(w, n.links[c], s.clients[c]);
    if s.clients[c].roomId != Some(room) {
      FailMurmurs(s, w.policy, c, d);
    } else if !Passes(s.guards, w.policy, fp, m, now) {
      FailMurmurs(t, w.policy, c, d);
    } else if m.to.None? {
      BroadcastMurmurs(t, room, c, Message(m.body), now, d);
    } else {
      var u := Delivered(t, c, room, m, now);
      if SentTo(u.hall, d) != SentTo(s.hall, d) {
        assert Silent(Direct(m.body)) && SentTo(u.hall, d) == SentTo(s.hall, d) + [Direct(m.body)];
      }
    }
  }

  lemma InviteMurmurs(s: Relay, p: Policy, c: Conn, room: string, token: string, d: Conn)
    requires c in s.clients
    ensures Murmurs(s, Invited(s, p, c, room, token), d)
  {
    FailMurmurs(s, p, c, d);
    if SentTo(Invited(s, p, c, room, token).hall, d) == SentTo(s.hall, d) + [Done] {
      assert Silent(Done);
    }
  }

  lemma TypeMurmurs(w: World, n: H.Net, s: Relay, c: Conn, start: bool, now: int, d: Conn)
    requires Matches(w, n, s) && AtHome(w, n, c) && c in s.clients
    ensures Murmurs(s, Typed(s, c, start, now), d)
  {
    assert RecordMatches(w, n.links[c], s.clients[c]);
    if s.clients[c].roomId.Some? {
      BroadcastMurmurs(s, w.room, c, Typing(start, s.clients[c].fingerprint), now, d);
    }
  }

  lemma AsideMurmurs(w: World, n: H.Net, s: Relay, v: Move, d: Conn)
    requires Matches(w, n, s) && v.Aside? && Fits(w, n, s, v) && AtHome(w, n, d)
    ensures Murmurs(s, RelayAfter(w, s, v), d)
  {
    match v.event
    case Send(c, room, m, now) => SendMurmurs(w, n, s, c, room, m, now, d);
    case Type(c, start, now) => TypeMurmurs(w, n, s, c, start, now, d);
    case Cleanup(now) =>
      SweepIsAloof(w, n, s, now);
      assert Untouched(s, RelayAfter(w, s, v), d);
    case Invite(c, room, token, _) => InviteMurmurs(s, w.policy, c, room, token, d);
    case Malformed(c, _) => FailMurmurs(s, w.policy, c, d);
  }

  /** Unless the connection is a stranger's, what was written to it says what its browser has taken and has queued. */
  ghost predicate InStep(w: World, n: H.Net, s: Relay, d: nat, got: seq<Page.Event>) {
    !Stranger(w, n, d) ==> Tells(w, SentTo(s.hall, d), got + Queued(n, d))
  }

  /** One move keeps what is written to a socket in step with what its browser has taken and has queued. */
  lemma MoveTells(w: World, n: H.Net, s: Relay, v: Move, d: nat, got: seq<Page.Event>)
    requires Sound(w) && Matches(w, n, s) && Fits(w, n, s, v) && InStep(w, n, s, d, got)
    ensures InStep(w, NetAfter(w, n, v), RelayAfter(w, s, v), d,
                   if v == Local(H.Receive(d)) then got + [n.links[d].down[0]] else got)
  {
    match v
    case Local(step) =>
      if step == H.Receive(d) {
        assert got + [n.links[d].down[0]] + n.links[d].down[1..] == got + n.links[d].down;
      }
      assert step != H.Receive(d) ==> Queued(NetAfter(w, n, v), d) == Queued(n, d);
    case Aside(_) => AsideTells(w, n, s, v, d, got);
    case Joint(step, e) => JointTells(w, n, s, v, d, got);
    case Foreign(e) => ForeignTells(w, n, s, v, d, got);
  }

  lemma ForeignTells(w: World, n: H.Net, s: Relay, v: Move, d: nat, got: seq<Page.Event>)
    requires Matches(w, n, s) && v.Foreign? && Fits(w, n, s, v) && InStep(w, n, s, d, got)
    ensures InStep(w, NetAfter(w, n, v), RelayAfter(w, s, v), d, got)
  {
    if !v.event.Accept? {
      var t := RelayAfter(w, s, v);
      StrangersAreAloof(w, n, s, v.event);
      NothingForLater(w, n, s, d);
      NothingForLater(w, n, t, d);
      assert AtHome(w, n, d) ==> Untouched(s, t, d);
    }
  }

  /** Nothing has been written to a connection that is yet to come. */
  lemma NothingForLater(w: World, n: H.Net, s: Relay, d: nat)
    requires Matches(w, n, s)
    ensures d >= |n.links| ==> SentTo(s.hall, d) == []
  {
  }

  lemma AsideTells(w: World, n: H.Net, s: Relay, v: Move, d: nat, got: seq<Page.Event>)
    requires Matches(w, n, s) && v.Aside? && Fits(w, n, s, v) && InStep(w, n, s, d, got)
    ensures InStep(w, n, RelayAfter(w, s, v), d, got)
  {
    var t := RelayAfter(w, s, v);
    AsideKeeps(w, n, s, v);
    NothingForLater(w, n, s, d);
    NothingForLater(w, n, t, d);
    if AtHome(w, n, d) {
      AsideMurmurs(w, n, s, v, d);
      if SentTo(t.hall, d) != SentTo(s.hall, d) {
        var f :| Silent(f) && SentTo(t.hall, d) == SentTo(s.hall, d) + [f];
        TellsMore(w, SentTo(s.hall, d), got + Queued(n, d), f, Page.Notice);
      }
    }
  }

  /** Whatever browser and relay do together, other than connecting, tells every browser the same on both sides. */
  lemma JointFollows(w: World, n: H.Net, s: Relay, v: Move)
    requires Sound(w) && Matches(w, n, s) && v.Joint? && !v.step.Connect? && Fits(w, n, s, v)
    ensures Follows(w, n, s, NetAfter(w, n, v), RelayAfter(w, s, v))
  {
    match v.step {
      case Serve(c, admit) => ServeFollows(w, n, s, c, admit, v.event);
      case Close(c) => CloseFollows(w, n, s, c, v.event.time);
      case Kick(c, popped) => KickFollows(w, n, s, c, popped, v.event);
      case Reap => ReapFollows(w, n, s, v.event.time);
      case _ =>
    }
  }

  lemma JointTells(w: World, n: H.Net, s: Relay, v: Move, d: nat, got: seq<Page.Event>)
    requires Sound(w) && Matches(w, n, s) && v.Joint? && Fits(w, n, s, v) && InStep(w, n, s, d, got)
    ensures InStep(w, NetAfter(w, n, v), RelayAfter(w, s, v), d, got)
  {
    if v.step.Connect? {
      ConnectTells(w, n, s, v, d);
    } else {
      JointFollows(w, n, s, v);
      FollowsTells(w, n, s, NetAfter(w, n, v), RelayAfter(w, s, v), d, got);
    }
  }

  lemma ConnectTells(w: World, n: H.Net, s: Relay, v: Move, d: nat)
    requires Matches(w, n, s) && v.Joint? && v.step.Connect? && Fits(w, n, s, v)
    ensures SentTo(RelayAfter(w, s, v).hall, d) == SentTo(s.hall, d) && Queued(NetAfter(w, n, v), d) == Queued(n, d)
    ensures Stranger(w, NetAfter(w, n, v), d) == Stranger(w, n, d)
  {
  }

  lemma FollowsTells(w: World, n: H.Net, s: Relay, m: H.Net, t: Relay, d: nat, got: seq<Page.Event>)
    requires Matches(w, n, s) && Follows(w, n, s, m, t) && InStep(w, n, s, d, got)
    ensures InStep(w, m, t, d, got)
  {
    if AtHome(w, n, d) {
      assert SameNews(w, n, s, m, t, d);
      var now, writes := m.links[d].down, SentTo(t.hall, d);
      if now != n.links[d].down {
        var e, f := now[|now| - 1], writes[|writes| - 1];
        TellsMore(w, SentTo(s.hall, d), got + n.links[d].down, f, e);
        assert got + n.links[d].down + [e] == got + now;
      }
    } else {
      NothingForLater(w, n, s, d);
      NothingForLater(w, m, t, d);
    }
  }

  /**
   In every joint run, what the relay writes to the socket of a browser of the
   room says exactly what that has taken and still has queued, event for event
   and in order.
   */
  lemma {:induction false} WritesAreReceivedOrQueued(w: World, n: H.Net, s: Relay, vs: seq<Move>, d: nat,
                                                     got: seq<Page.Event>)
    requires Sound(w) && Matches(w, n, s) && JointRun(w, n, s, vs) && InStep(w, n, s, d, got)
    ensures H.Possible(n, StepsOf(w, vs))
    ensures InStep(w, H.After(n, StepsOf(w, vs)), RelayEnd(w, n, s, vs), d, got + Received(w, n, s, vs, d))
    decreases |vs|
  {
    JointRunIsARun(w, n, s, vs);
    if vs == [] {
      assert got + Received(w, n, s, vs, d) == got;
    } else {
      var v := vs[0];
      var first := if v == Local(H.Receive(d)) then [n.links[d].down[0]] else [];
      MoveTells(w, n, s, v, d, got);
      MoveKeeps(w, n, s, v);
      assert got + first == if v == Local(H.Receive(d)) then got + [n.links[d].down[0]] else got;
      WritesAreReceivedOrQueued(w, NetAfter(w, n, v), RelayAfter(w, s, v), vs[1..], d, got + first);
      Regroup(got, first, Received(w, NetAfter(w, n, v), RelayAfter(w, s, v), vs[1..], d));
      assert Received(w, n, s, vs, d) == first + Received(w, NetAfter(w, n, v), RelayAfter(w, s, v), vs[1..], d);
    }
  }

  /** Browsers that are all away, one of them the stranger, over a relay that has just started. */
  ghost predicate FreshStart(w: World, n: H.Net) {
    H.Initial(n) && |n.browsers| <= |w.names| && w.stranger < |n.browsers|
  }

  lemma StartMatches(w: World, n: H.Net)
    requires FreshStart(w, n)
    ensures Matches(w, n, EMPTY)
  {
    assert n.browsers[w.stranger] in n.browsers;
  }

  /** From a fresh start in particular. */
  lemma SocketsTellDownlinks(w: World, n: H.Net, vs: seq<Move>, d: nat)
    requires Sound(w) && FreshStart(w, n) && JointRun(w, n, EMPTY, vs)
    ensures H.Possible(n, StepsOf(w, vs))
    ensures AtHome(w, H.After(n, StepsOf(w, vs)), d) ==>
              Tells(w, SentTo(RelayEnd(w, n, EMPTY, vs).hall, d),
                    Received(w, n, EMPTY, vs, d) + Queued(H.After(n, StepsOf(w, vs)), d))
  {
    StartMatches(w, n);
    assert SentTo(EMPTY.hall, d) == [] && [] + Queued(n, d) == [];
    WritesAreReceivedOrQueued(w, n, EMPTY, vs, d, []);
    NothingBefore(Received(w, n, EMPTY, vs, d));
  }

  lemma NothingBefore(events: seq<Page.Event>)
    ensures [] + events == events
  {
  }

  // Agreement at the relay.

  /** The identities the relay has for the other members of the room. */
  function OthersListed(w: World, s: Relay, c: Conn): set<Option<string>> {
    set d | d in Listed(s.hall, w.room) && d != c && d in s.clients :: s.clients[d].fingerprint
  }

  function NamesOf(w: World, peers: set<Fp>): set<Option<string>> {
    set x | x in peers && x < |w.names| :: Some(w.names[x])
  }

  /**
   Agreement with the relay's own tables. When browsers and relay start afresh
   and run together, and the room falls quiet, the peers that each listed
   connection's browser is ready for are exactly the others the relay lists.
   */
  lemma BrowsersAgreeWithRelay(w: World, n: H.Net, vs: seq<Move>, c: nat)
    requires Sound(w) && FreshStart(w, n)
    requires JointRun(w, n, EMPTY, vs) && H.DisciplinedRun(n, StepsOf(w, vs))
    requires H.Quiescent(H.After(n, StepsOf(w, vs)))
    requires c in Listed(RelayEnd(w, n, EMPTY, vs).hall, w.room)
    ensures var m, t := H.After(n, StepsOf(w, vs)), RelayEnd(w, n, EMPTY, vs);
            H.Owned(m, c) && NamesOf(w, ReadyPeers(H.TabOf(m, c).sessions)) == OthersListed(w, t, c)
  {
    var m, t := H.After(n, StepsOf(w, vs)), RelayEnd(w, n, EMPTY, vs);
    StartMatches(w, n);
    JointRunIsARun(w, n, EMPTY, vs);
    P.HandshakeAgreement(n, StepsOf(w, vs));
    assert H.AgreesAt(m, c);
    OthersMatch(w, m, t, c);
  }

  lemma OthersMatch(w: World, n: H.Net, s: Relay, c: nat)
    requires Matches(w, n, s)
    ensures NamesOf(w, H.Others(n, c)) == OthersListed(w, s, c)
  {
    forall x | x in NamesOf(w, H.Others(n, c)) ensures x in OthersListed(w, s, c) {
      var y :| y in H.Others(n, c) && y < |w.names| && x == Some(w.names[y]);
      var d :| d in n.members && d != c && d < |n.links| && n.links[d].owner == y;
      assert d in s.clients;
    }
    forall x | x in OthersListed(w, s, c) ensures x in NamesOf(w, H.Others(n, c)) {
      var d :| d in Listed(s.hall, w.room) && d != c && d in s.clients && s.clients[d].fingerprint == x;
      assert d in n.members && n.links[d].owner in H.Others(n, c);
    }
  }

  // Messages to one recipient.

  lemma {:induction false} SameClientFound(w: World, n: H.Net, s: Relay, list: seq<Conn>, x: Fp)
    requires Sound(w) && Matches(w, n, s) && x < |w.names|
    requires forall d :: d in list ==> d in n.members
    ensures D.FindClient(n, list, x) == FindClient(s.clients, s.departed, list, w.names[x])
  {
    if list != [] {
      assert list[0] in n.members && forall d :: d in list[1..] ==> d in list;
      SameClientFound(w, n, s, list[1..], x);
    }
  }

  lemma FoundIsListed(n: H.Net, list: seq<nat>, x: Fp)
    requires D.FindClient(n, list, x).Some?
    ensures D.FindClient(n, list, x).value in list && D.FindClient(n, list, x).value < |n.links|
  {
  }

  /** A copy that passes the guards goes, at the relay too, to the one connection that Delivery names. */
  lemma CopyReachesOnly(w: World, n: H.Net, s: Relay, c: nat, copy: D.Message, m: Payload, now: int)
    requires Sound(w) && Matches(w, n, s) && c in n.members && copy.recipient < |w.names|
    requires m.to == Some(w.names[copy.recipient])
    requires Passes(s.guards, w.policy, s.clients[c].fingerprint, m, now)
    ensures var e := Send(c, w.room, m, now);
            && Enabled(s, e)
            && Next(s, w.policy, e) == s.(hall := s.hall.(sent := Next(s, w.policy, e).hall.sent),
                                          guards := Next(s, w.policy, e).guards)
            && forall d: Conn :: SentTo(Next(s, w.policy, e).hall, d)
                 == SentTo(s.hall, d) + if D.Forward(n, copy) == Some(d) then [Direct(m.body)] else []
  {
    assert w.names[copy.recipient] in w.names;
    SameClientFound(w, n, s, n.members, copy.recipient);
    var found := D.FindClient(n, n.members, copy.recipient);
    if found.Some? {
      FoundIsListed(n, n.members, copy.recipient);
    }
    assert forall d: Conn :: SentTo(s.hall, d) + [] == SentTo(s.hall, d);
  }
}
