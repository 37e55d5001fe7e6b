/** The life of an invite token: what binds it, what it admits, and how long the binding lasts. */
module RelayTokens {
  import opened Wrappers
  import opened Rooms
  import opened Relay
  import opened RelayStructure

  ghost predicate Bound(h: Hall, room: string, token: string, f: string) {
    room in h.tokens && token in h.tokens[room] && h.tokens[room][token] == f
  }

  /** The room has the token, and it is unused or bound to this fingerprint. */
  ghost predicate Entitled(h: Hall, room: string, token: string, fp: Option<string>) {
    Bound(h, room, token, "") || (fp.Some? && Bound(h, room, token, fp.value))
  }

  /** The event puts its client on the list of a room that exists already. */
  predicate Admitted(s: Relay, p: Policy, e: Event)
    requires Enabled(s, e)
  {
    IsEntry(e) && e.room in s.hall.rooms && !Lists(s.hall, e.room, e.c) && Lists(Next(s, p, e).hall, e.room, e.c)
  }

  /** A live room admits exactly the holders of a valid token, as long as there is a place. */
  lemma AdmissionExactly(s: Relay, p: Policy, e: Event)
    requires Enabled(s, e) && IsEntry(e) && e.room in s.hall.rooms
    ensures Admitted(s, p, e) <==>
            && Entitled(s.hall, e.room, e.token, Presented(s, e))
            && |s.hall.rooms[e.room].clients| < p.lim.maxParticipants && !Lists(s.hall, e.room, e.c)
  {
    var t := SetClient(s, e.c, WithIdentity(s.clients[e.c], e.fp));
    assert !Lists(s.hall, e.room, e.c) ==> !Lists(Fail(t, p, e.c).hall, e.room, e.c);
  }

  /** Nothing else puts a connection on the list of a live room. */
  lemma OnlyEntriesAdmit(s: Relay, p: Policy, e: Event, room: string, c: Conn)
    requires Enabled(s, e) && room in s.hall.rooms && !Lists(s.hall, room, c) && Lists(Next(s, p, e).hall, room, c)
    ensures IsEntry(e) && e.c == c && e.room == room
  {
    if e.Create? {
      CreateListsOne(s, p, e, room, c);
    } else if e.Join? {
      JoinListsOne(s, p, e, room, c);
    } else if e.Send? {
      SendKeepsRest(s, p, e.c, e.room, e.m, e.time);
    }
  }

  lemma CreateListsOne(s: Relay, p: Policy, e: Event, room: string, c: Conn)
    requires Enabled(s, e) && e.Create? && room in s.hall.rooms && !Lists(s.hall, room, c)
    requires Lists(Next(s, p, e).hall, room, c)
    ensures e.c == c && e.room == room
  {
  }

  lemma JoinListsOne(s: Relay, p: Policy, e: Event, room: string, c: Conn)
    requires Enabled(s, e) && e.Join? && room in s.hall.rooms && !Lists(s.hall, room, c)
    requires Lists(Next(s, p, e).hall, room, c)
    ensures e.c == c && e.room == room
  {
  }

  /** A bound token keeps its binding through every event that leaves its room alive. */
  lemma StepKeepsBinding(s: Relay, p: Policy, e: Event, room: string, token: string, f: string)
    requires ListsOk(s.hall, p) && Enabled(s, e) && f != "" && Bound(s.hall, room, token, f)
    ensures room in Next(s, p, e).hall.rooms ==> Bound(Next(s, p, e).hall, room, token, f)
  {
    if e.Create? {
      CreateKeepsBinding(s, p, e, room, token, f);
    } else if e.Join? {
      JoinKeepsBinding(s, p, e, room, token, f);
    } else {
      OthersKeepBinding(s, p, e, room, token, f);
    }
  }

  lemma CreateKeepsBinding(s: Relay, p: Policy, e: Event, room: string, token: string, f: string)
    requires ListsOk(s.hall, p) && Enabled(s, e) && e.Create? && Bound(s.hall, room, token, f)
    ensures Bound(Next(s, p, e).hall, room, token, f)
  {
  }

  lemma JoinKeepsBinding(s: Relay, p: Policy, e: Event, room: string, token: string, f: string)
    requires ListsOk(s.hall, p) && Enabled(s, e) && e.Join? && f != "" && Bound(s.hall, room, token, f)
    ensures Bound(Next(s, p, e).hall, room, token, f)
  {
  }

  /** Events that are no entries leave every binding as it is, of used and unused tokens. */
  lemma OthersKeepBinding(s: Relay, p: Policy, e: Event, room: string, token: string, f: string)
    requires ListsOk(s.hall, p) && Enabled(s, e) && !IsEntry(e) && Bound(s.hall, room, token, f)
    ensures room in Next(s, p, e).hall.rooms ==> Bound(Next(s, p, e).hall, room, token, f)
  {
    if e.Send? {
      SendKeepsRest(s, p, e.c, e.room, e.m, e.time);
    }
  }

  /** The room is there before and after every event: one incarnation of it. */
  ghost predicate Stays(s: Relay, p: Policy, es: seq<Event>, room: string)
    requires Possible(s, p, es)
    decreases |es|
  {
    room in s.hall.rooms && (es == [] || Stays(Next(s, p, es[0]), p, es[1..], room))
  }

  lemma {:induction false} RunKeepsBinding(s: Relay, p: Policy, es: seq<Event>, room: string, token: string, f: string)
    requires ListsOk(s.hall, p) && Possible(s, p, es) && Stays(s, p, es, room)
    requires f != "" && Bound(s.hall, room, token, f)
    ensures Bound(After(s, p, es).hall, room, token, f)
    decreases |es|
  {
    if es != [] {
      StepKeepsBinding(s, p, es[0], room, token, f);
      StepKeepsLists(s, p, es[0]);
      RunKeepsBinding(Next(s, p, es[0]), p, es[1..], room, token, f);
    }
  }

  /** Whoever enters through a bound token presents its fingerprint, and is known by it afterwards. */
  lemma BoundTokenAdmitsItsOwner(s: Relay, p: Policy, e: Event, f: string)
    requires Enabled(s, e) && Admitted(s, p, e) && f != "" && Bound(s.hall, e.room, e.token, f)
    ensures Presented(s, e) == Some(f) && Next(s, p, e).clients[e.c].fingerprint == Some(f)
  {
    AdmissionExactly(s, p, e);
  }

  /** After an admission the token is bound to the newcomer exactly if it was, or room:join brought a fingerprint. */
  lemma AdmissionBinds(s: Relay, p: Policy, e: Event)
    requires Enabled(s, e) && Admitted(s, p, e)
    ensures var now := Next(s, p, e).hall.tokens; e.room in now && e.token in now[e.room]
    ensures var was, now := s.hall.tokens[e.room][e.token], Next(s, p, e).hall.tokens[e.room][e.token];
            && (now == "" <==> was == "" && (e.Create? || e.fp.None? || e.fp.value == ""))
            && (now != "" ==> Presented(s, e) == Some(now))
  {
    AdmissionExactly(s, p, e);
  }

  /**
   While a room lives, once a token has admitted an identity by room:join,
   every later admission through it, by room:join or room:create, is of that
   same identity.
   */
  lemma OneIdentityPerToken(s: Relay, p: Policy, first: Event, between: seq<Event>, t: Relay, second: Event)
    requires Reachable(s, p) && Enabled(s, first) && Admitted(s, p, first)
    requires first.Join? && first.fp.Some? && first.fp.value != ""
    requires Possible(Next(s, p, first), p, between) && Stays(Next(s, p, first), p, between, first.room)
    requires t == After(Next(s, p, first), p, between)
    requires Enabled(t, second) && Admitted(t, p, second)
    requires second.room == first.room && second.token == first.token
    ensures Presented(t, second) == first.fp && Next(t, p, second).clients[second.c].fingerprint == first.fp
  {
    ReachableOk(s, p);
    AdmissionBinds(s, p, first);
    StepKeepsLists(s, p, first);
    RunKeepsBinding(Next(s, p, first), p, between, first.room, first.token, first.fp.value);
    BoundTokenAdmitsItsOwner(t, p, second, first.fp.value);
  }

  /**
   Right after an admission the token lets in another identity exactly if it
   was unused and the newcomer came by room:create or without a fingerprint.
   */
  lemma OneTimeUseExactly(s: Relay, p: Policy, first: Event, second: Event)
    requires Enabled(s, first) && Admitted(s, p, first)
    requires var t := Next(s, p, first);
             && Enabled(t, second) && IsEntry(second) && second.room == first.room && second.token == first.token
             && second.room in t.hall.rooms && !Lists(t.hall, second.room, second.c)
             && |t.hall.rooms[second.room].clients| < p.lim.maxParticipants
             && Presented(t, second) != Presented(s, first)
    ensures Admitted(Next(s, p, first), p, second) <==>
            s.hall.tokens[first.room][first.token] == "" && (first.Create? || first.fp.None? || first.fp.value == "")
  {
    AdmissionBinds(s, p, first);
    AdmissionExactly(Next(s, p, first), p, second);
  }

  // Over whole runs.

  /** The event uses the token up: a room:join that is admitted through it and brings a fingerprint. */
  predicate Consumes(s: Relay, p: Policy, e: Event, room: string, token: string)
    requires Enabled(s, e)
  {
    e.Join? && e.room == room && e.token == token && HasName(e.fp) && Admitted(s, p, e)
  }

  /** Who uses the token up first in a run. */
  function Consumer(s: Relay, p: Policy, es: seq<Event>, room: string, token: string): Option<string>
    requires Possible(s, p, es)
    decreases |es|
  {
    if es == [] then None
    else if Consumes(s, p, es[0], room, token) then es[0].fp
    else Consumer(Next(s, p, es[0]), p, es[1..], room, token)
  }

  lemma StepUsesToken(s: Relay, p: Policy, e: Event, room: string, token: string)
    requires ListsOk(s.hall, p) && Enabled(s, e) && Bound(s.hall, room, token, "") && room in Next(s, p, e).hall.rooms
    ensures Bound(Next(s, p, e).hall, room, token, if Consumes(s, p, e, room, token) then e.fp.value else "")
  {
    if e.Create? {
      CreateKeepsBinding(s, p, e, room, token, "");
    } else if e.Join? {
      JoinUsesToken(s, p, e, room, token);
    } else {
      OthersKeepBinding(s, p, e, room, token, "");
    }
  }

  lemma JoinUsesToken(s: Relay, p: Policy, e: Event, room: string, token: string)
    requires ListsOk(s.hall, p) && Enabled(s, e) && e.Join? && Bound(s.hall, room, token, "")
    ensures Bound(Next(s, p, e).hall, room, token, if Consumes(s, p, e, room, token) then e.fp.value else "")
  {
    if e.room in s.hall.rooms {
      AdmissionExactly(s, p, e);
    }
  }

  /**
   While the room lives, an unused token is bound after a run exactly to whoever
   first used it up in the run, and unused exactly if nobody did.
   */
  lemma {:induction false} TokenAfterRun(s: Relay, p: Policy, es: seq<Event>, room: string, token: string)
    requires ListsOk(s.hall, p) && Possible(s, p, es) && Stays(s, p, es, room) && Bound(s.hall, room, token, "")
    ensures var who := Consumer(s, p, es, room, token);
            && Bound(After(s, p, es).hall, room, token, if who.Some? then who.value else "")
            && (who.Some? ==> who.value != "")
    decreases |es|
  {
    if es != [] {
      var t := Next(s, p, es[0]);
      StepKeepsLists(s, p, es[0]);
      StepUsesToken(s, p, es[0], room, token);
      if Consumes(s, p, es[0], room, token) {
        RunKeepsBinding(t, p, es[1..], room, token, es[0].fp.value);
      } else {
        TokenAfterRun(t, p, es[1..], room, token);
      }
    }
  }

  /**
   From a moment at which the token is unused and for as long as the room lives,
   an entry through it for which there is a place is admitted exactly if nobody
   has used the token up since, or it is that identity which enters again.
   */
  lemma LaterAdmissionsExactly(s: Relay, p: Policy, es: seq<Event>, token: string, t: Relay, e: Event)
    requires ListsOk(s.hall, p) && Possible(s, p, es) && t == After(s, p, es)
    requires Enabled(t, e) && IsEntry(e) && e.token == token
    requires Stays(s, p, es, e.room) && Bound(s.hall, e.room, token, "")
    requires e.room in t.hall.rooms
    requires |t.hall.rooms[e.room].clients| < p.lim.maxParticipants && !Lists(t.hall, e.room, e.c)
    ensures var who := Consumer(s, p, es, e.room, token);
            Admitted(t, p, e) <==> who.None? || Presented(t, e) == who
  {
    TokenAfterRun(s, p, es, e.room, token);
    AdmissionExactly(t, p, e);
  }
}
