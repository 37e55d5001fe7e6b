/** When rooms expire: what a sweep removes, how old a room can get, and what keeps a room alive. */
module RelayExpiry {
  import opened Wrappers
  import opened Rooms
  import opened Relay
  import opened RelayStructure
  import opened RelayTokens

  /** Connection c is on the list of some expired room. */
  ghost predicate InExpired(h: Hall, c: Conn, now: int, lim: Limits) {
    exists room :: room in h.rooms && Expired(h.rooms[room], now, lim) && c in h.rooms[room].clients
  }

  /** A sweep removes the expired rooms and their tokens, keeps the others, and closes each open member once. */
  lemma SweepExactly(h: Hall, now: int, lim: Limits)
    ensures var t := Cleaned(h, now, lim);
            && (forall room :: room in t.rooms <==> room in h.rooms && !Expired(h.rooms[room], now, lim))
            && (forall room :: room in t.rooms ==> t.rooms[room] == h.rooms[room])
            && (forall room :: room in t.tokens <==>
                  room in h.tokens && !(room in h.rooms && Expired(h.rooms[room], now, lim)))
            && (forall room :: room in t.tokens ==> t.tokens[room] == h.tokens[room])
            && (forall c :: c in t.open <==> c in h.open && !InExpired(h, c, now, lim))
            && (forall c :: SentTo(t, c)
                  == SentTo(h, c) + if c in h.open && InExpired(h, c, now, lim) then [RoomClosed] else [])
  {
    forall c ensures Within(h.rooms, ExpiredRooms(h, now, lim), c) <==> InExpired(h, c, now, lim) {
      if InExpired(h, c, now, lim) {
        var room :| room in h.rooms && Expired(h.rooms[room], now, lim) && c in h.rooms[room].clients;
        assert room in ExpiredRooms(h, now, lim);
      }
    }
  }

  // How old a room can get.

  /** Times do not decrease, and at any time the last sweep is at most `gap` ago. */
  predicate Timely(es: seq<Event>, now: int, swept: int, gap: nat)
    decreases |es|
  {
    es == []
    || (now <= es[0].time <= swept + gap
        && Timely(es[1..], es[0].time, if es[0].Cleanup? then es[0].time else swept, gap))
  }

  function LastTime(es: seq<Event>, now: int): int
    decreases |es|
  {
    if es == [] then now else LastTime(es[1..], es[0].time)
  }

  ghost predicate AgesOk(h: Hall, lim: Limits, now: int, swept: int) {
    swept <= now
    && forall room :: room in h.rooms ==>
         && h.rooms[room].createdAt <= h.rooms[room].lastActivity <= now
         && swept - h.rooms[room].createdAt <= lim.lifetime
         && swept - h.rooms[room].lastActivity <= lim.idle
  }

  /** A room is as it was or newly made at the time of the event, and only its activity time moves, to that time. */
  lemma StepMovesActivity(s: Relay, p: Policy, e: Event, room: string)
    requires Enabled(s, e) && room in Next(s, p, e).hall.rooms
    ensures var r := Next(s, p, e).hall.rooms[room];
            if room in s.hall.rooms then
              r.createdAt == s.hall.rooms[room].createdAt
              && r.lastActivity == if Touches(s, p, e, room) then e.time else s.hall.rooms[room].lastActivity
            else r.createdAt == r.lastActivity == e.time
  {
    if e.Create? {
      CreateMovesActivity(s, p, e, room);
    } else if e.Join? {
      JoinMovesActivity(s, p, e, room);
    } else if e.Leave? || e.Disconnect? {
      GoingMovesActivity(s, p, e, room);
    } else {
      OthersMoveActivity(s, p, e, room);
    }
  }

  /** The activity time moves as Touches says, and new rooms are made now. */
  ghost predicate ActivityMoved(s: Relay, p: Policy, e: Event, room: string)
    requires Enabled(s, e) && room in Next(s, p, e).hall.rooms
  {
    var r := Next(s, p, e).hall.rooms[room];
    if room in s.hall.rooms then
      r.createdAt == s.hall.rooms[room].createdAt
      && r.lastActivity == if Touches(s, p, e, room) then e.time else s.hall.rooms[room].lastActivity
    else r.createdAt == r.lastActivity == e.time
  }

  lemma CreateMovesActivity(s: Relay, p: Policy, e: Event, room: string)
    requires Enabled(s, e) && e.Create? && room in Next(s, p, e).hall.rooms
    ensures ActivityMoved(s, p, e, room)
  {
  }

  lemma JoinMovesActivity(s: Relay, p: Policy, e: Event, room: string)
    requires Enabled(s, e) && e.Join? && room in Next(s, p, e).hall.rooms
    ensures ActivityMoved(s, p, e, room)
  {
  }

  lemma GoingMovesActivity(s: Relay, p: Policy, e: Event, room: string)
    requires Enabled(s, e) && (e.Leave? || e.Disconnect?) && room in Next(s, p, e).hall.rooms
    ensures ActivityMoved(s, p, e, room)
  {
  }

  lemma OthersMoveActivity(s: Relay, p: Policy, e: Event, room: string)
    requires Enabled(s, e) && !e.Create? && !e.Join? && !e.Leave? && !e.Disconnect? && room in Next(s, p, e).hall.rooms
    ensures ActivityMoved(s, p, e, room)
  {
    if e.Send? {
      SendKeepsRest(s, p, e.c, e.room, e.m, e.time);
    }
  }

  /** What counts as activity in a room: admissions, broadcasts and departures, not messages to one recipient. */
  predicate Touches(s: Relay, p: Policy, e: Event, room: string)
    requires Enabled(s, e)
  {
    match e
    case Create(_, r, _, _, _) => r == room && Admitted(s, p, e)
    case Join(_, r, _, _, _) => r == room && Admitted(s, p, e)
    case Announce(c, r, _, _, _) => r == room && s.clients[c].roomId == Some(room)
    case Send(c, r, m, now) =>
      && r == room && s.clients[c].roomId == Some(room) && m.to.None?
      && Passes(s.guards, p, s.clients[c].fingerprint, m, now)
    case Type(c, _, _) => s.clients[c].roomId == Some(room)
    case Leave(c, _) => s.clients[c].roomId == Some(room)
    case Disconnect(c, _) => s.clients[c].roomId == Some(room)
    case _ => false
  }

  lemma StepKeepsAges(s: Relay, p: Policy, e: Event, now: int, swept: int)
    requires Enabled(s, e) && AgesOk(s.hall, p.lim, now, swept) && now <= e.time
    ensures AgesOk(Next(s, p, e).hall, p.lim, e.time, if e.Cleanup? then e.time else swept)
  {
    var t := Next(s, p, e).hall;
    forall room | room in t.rooms
      ensures t.rooms[room].createdAt <= t.rooms[room].lastActivity <= e.time
      ensures var last := if e.Cleanup? then e.time else swept;
              last - t.rooms[room].createdAt <= p.lim.lifetime && last - t.rooms[room].lastActivity <= p.lim.idle
    {
      StepMovesActivity(s, p, e, room);
      if e.Cleanup? {
        SweepExactly(s.hall, e.time, p.lim);
      }
    }
  }

  lemma {:induction false} RunKeepsAges(s: Relay, p: Policy, es: seq<Event>, now: int, swept: int, gap: nat)
    requires Possible(s, p, es) && Timely(es, now, swept, gap) && now <= swept + gap
    requires AgesOk(s.hall, p.lim, now, swept)
    ensures forall room :: room in After(s, p, es).hall.rooms ==>
              && LastTime(es, now) - After(s, p, es).hall.rooms[room].createdAt <= p.lim.lifetime + gap
              && LastTime(es, now) - After(s, p, es).hall.rooms[room].lastActivity <= p.lim.idle + gap
    decreases |es|
  {
    if es != [] {
      StepKeepsAges(s, p, es[0], now, swept);
      RunKeepsAges(Next(s, p, es[0]), p, es[1..], es[0].time, if es[0].Cleanup? then es[0].time else swept, gap);
    }
  }

  /** With sweeps at most `gap` apart no room is ever older than lifetime + gap, or idle longer than idle + gap. */
  lemma NoRoomOutlivesItsLimits(p: Policy, es: seq<Event>, start: int, gap: nat)
    requires Possible(EMPTY, p, es) && Timely(es, start, start, gap)
    ensures forall room :: room in After(EMPTY, p, es).hall.rooms ==>
              && LastTime(es, start) - After(EMPTY, p, es).hall.rooms[room].createdAt <= p.lim.lifetime + gap
              && LastTime(es, start) - After(EMPTY, p, es).hall.rooms[room].lastActivity <= p.lim.idle + gap
  {
    RunKeepsAges(EMPTY, p, es, start, start, gap);
  }

  /**
   A clock that runs backwards defeats the bound: after a sweep the clock falls
   back, a room is created, and at the time of the sweep it is over age, swept
   not long ago.
   */
  lemma BackwardClockOutlives(p: Policy, gap: nat, room: string, token: string) returns (es: seq<Event>, t: Relay)
    requires room != "" && token != ""
    ensures |es| == 4 && es[0] == Cleanup(p.lim.lifetime + gap + 1)
    ensures Possible(EMPTY, p, es) && t == After(EMPTY, p, es)
    ensures es[0].time <= LastTime(es, 0) <= es[0].time + gap
    ensures room in t.hall.rooms && LastTime(es, 0) - t.hall.rooms[room].createdAt > p.lim.lifetime + gap
  {
    var late := p.lim.lifetime + gap + 1;
    var c, d := Create(0, room, token, None, 0), Type(0, false, late);
    var s := AcceptedLate(p, late);
    t := CreatedEarly(s, p, c, d);
    es := [Cleanup(late), Accept(0, 0), c, d];
    RunCons(Next(s, p, c), p, d, []);
    RunCons(s, p, c, [d]);
    RunCons(Next(EMPTY, p, Cleanup(late)), p, Accept(0, 0), [c, d]);
    RunCons(EMPTY, p, Cleanup(late), [Accept(0, 0), c, d]);
    assert [d] + [] == [d] && [c] + [d] == [c, d] && [Accept(0, 0)] + [c, d] == [Accept(0, 0), c, d];
    assert [Cleanup(late)] + [Accept(0, 0), c, d] == es;
    assert LastTime(es, 0) == LastTime(es[1..], late) == LastTime([c, d], 0) == LastTime([d], 0) == late;
  }

  lemma AcceptedLate(p: Policy, late: int) returns (s: Relay)
    ensures Enabled(EMPTY, Cleanup(late)) && Enabled(Next(EMPTY, p, Cleanup(late)), Accept(0, 0))
    ensures s == Next(Next(EMPTY, p, Cleanup(late)), p, Accept(0, 0)) && 0 in s.clients && s.hall.rooms == map[]
  {
    var m := Next(EMPTY, p, Cleanup(late));
    assert m.clients == map[] && m.hall.rooms == map[] && m.hall.sent == map[] && m.hall.open == {};
    s := Next(m, p, Accept(0, 0));
  }

  lemma CreatedEarly(s: Relay, p: Policy, c: Event, d: Event) returns (t: Relay)
    requires c.Create? && c.c == 0 && d.Type? && d.c == 0 && 0 in s.clients && s.hall.rooms == map[]
    requires c.room != "" && c.token != ""
    ensures Enabled(s, c) && Enabled(Next(s, p, c), d) && t == Next(Next(s, p, c), p, d)
    ensures c.room in t.hall.rooms && t.hall.rooms[c.room].createdAt == c.time
  {
    t := Next(Next(s, p, c), p, d);
  }

  // What keeps a room alive.

  /** At every sweep the room is within its lifetime and its last activity is no more than `idle` ago. */
  ghost predicate Active(s: Relay, p: Policy, es: seq<Event>, room: string, created: int, last: int)
    requires Possible(s, p, es)
    decreases |es|
  {
    es == []
    || ((es[0].Cleanup? ==> es[0].time - created <= p.lim.lifetime && es[0].time - last <= p.lim.idle)
        && Active(Next(s, p, es[0]), p, es[1..], room, created,
                  if Touches(s, p, es[0], room) then es[0].time else last))
  }

  /** A room lives on through a run exactly if it is active at every sweep of it. */
  lemma {:induction false} LivesExactly(s: Relay, p: Policy, es: seq<Event>, room: string)
    requires Possible(s, p, es) && room in s.hall.rooms
    ensures Stays(s, p, es, room)
            <==> Active(s, p, es, room, s.hall.rooms[room].createdAt, s.hall.rooms[room].lastActivity)
    decreases |es|
  {
    if es != [] {
      var t, e := Next(s, p, es[0]), es[0];
      OnlySweepsRemove(s, p, e, room);
      if room in t.hall.rooms {
        StepMovesActivity(s, p, e, room);
        LivesExactly(t, p, es[1..], room);
      }
    }
  }

  lemma OnlySweepsRemove(s: Relay, p: Policy, e: Event, room: string)
    requires Enabled(s, e) && room in s.hall.rooms
    ensures room !in Next(s, p, e).hall.rooms <==> e.Cleanup? && Expired(s.hall.rooms[room], e.time, p.lim)
  {
    if e.Cleanup? {
      SweepExactly(s.hall, e.time, p.lim);
    } else if IsEntry(e) {
      EntriesKeepRooms(s, p, e, room);
    } else if e.Send? {
      SendKeepsRest(s, p, e.c, e.room, e.m, e.time);
    }
  }

  lemma EntriesKeepRooms(s: Relay, p: Policy, e: Event, room: string)
    requires Enabled(s, e) && IsEntry(e) && room in s.hall.rooms
    ensures room in Next(s, p, e).hall.rooms
  {
  }
}
