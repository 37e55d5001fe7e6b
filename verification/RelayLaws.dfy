/**
 What each event does to each table of the relay, told table by table and from
 the tables alone: who is refused, who is on a list, which tokens a room has,
 what a client's record says, which sockets are open and what is written to them.
 */
module RelayLaws {
  import opened Wrappers
  import opened Rooms
  import opened Relay
  import opened RelayStructure
  import RL = RateLimit
  import RG = ReplayGuard

  // Who is refused.

  /** The fingerprint a request to enter goes by. */
  function Shown(s: Relay, e: Event): Option<string>
    requires IsEntry(e) && Enabled(s, e)
  {
    if e.Join? || (e.fp.Some? && e.fp.value != "") then e.fp else s.clients[e.c].fingerprint
  }

  /** The room has the token, unused or bound to this fingerprint. */
  predicate Holds(tokens: Tokens, room: string, token: string, fp: Option<string>) {
    && room in tokens && token in tokens[room]
    && (tokens[room][token] == "" || fp == Some(tokens[room][token]))
  }

  /** The client is admitted: into a live room with a token and a place, or into a new one by creating it. */
  predicate Enters(s: Relay, p: Policy, e: Event)
    requires Enabled(s, e)
  {
    IsEntry(e)
    && if e.room in s.hall.rooms then
         && Holds(s.hall.tokens, e.room, e.token, Shown(s, e))
         && |s.hall.rooms[e.room].clients| < p.lim.maxParticipants && e.c !in s.hall.rooms[e.room].clients
       else e.Create?
  }

  /** A file message says how large the file is, and that is within the limit. */
  predicate FilePermitted(p: Policy, file: Attachment) {
    file.File? ==> file.size.Some? && file.size.value != 0 && file.size.value <= p.maxFile
  }

  /** The live bucket of the name, if there is one, has room for one more. */
  predicate WithinRate(g: Guards, p: Policy, fp: Option<string>, now: int) {
    fp.Some? && fp.value != "" && fp.value in g.buckets && now - g.buckets[fp.value].windowStart <= p.rate.window ==>
      g.buckets[fp.value].count < p.rate.limit
  }

  /** The nonce is not remembered from within the time to live. */
  predicate NonceNew(g: Guards, p: Policy, m: Payload, now: int) {
    p.replay.Some? && m.sender in g.seen && m.nonce in g.seen[m.sender] ==>
      now - g.seen[m.sender][m.nonce] > p.replay.value
  }

  /** A message passes if it is within the rate, its file is permitted and its nonce is new, and only then. */
  lemma PassesExactly(g: Guards, p: Policy, fp: Option<string>, m: Payload, now: int)
    ensures Passes(g, p, fp, m, now) <==>
            WithinRate(g, p, fp, now) && FilePermitted(p, m.file) && NonceNew(g, p, m, now)
  {
  }

  predicate InRoom(s: Relay, c: Conn, room: string) {
    c in s.clients && s.clients[c].roomId == Some(room)
  }

  predicate TokenKnown(h: Hall, room: string, token: string) {
    room in h.tokens && token in h.tokens[room]
  }

  /** The relay answers the event with an error, or closes the client for it. */
  predicate Refuses(s: Relay, p: Policy, e: Event)
    requires Enabled(s, e)
  {
    match e
    case Create(_, _, _, _, _) => !Enters(s, p, e)
    case Join(_, _, _, _, _) => !Enters(s, p, e)
    case Announce(c, room, _, _, _) => s.clients[c].roomId.Some? && s.clients[c].roomId.value != room
    case Send(c, room, m, now) =>
      || !InRoom(s, c, room)
      || !(&& WithinRate(s.guards, p, s.clients[c].fingerprint, now) && FilePermitted(p, m.file)
           && NonceNew(s.guards, p, m, now))
    case Invite(c, room, token, _) => !InRoom(s, c, room) || room !in s.hall.rooms || TokenKnown(s.hall, room, token)
    case Malformed(_, _) => true
    case _ => false
  }

  /** The refusal is the one that uses up the client's violations. */
  predicate Closes(s: Relay, p: Policy, e: Event)
    requires Enabled(s, e)
  {
    Refuses(s, p, e) && p.maxViolations.Some? && s.clients[e.c].violations + 1 >= p.maxViolations.value
  }

  // What a refusal is.

  lemma Rejected(s: Relay, p: Policy, c: Conn)
    requires c in s.clients
    ensures var t, n := Fail(s, p, c), s.clients[c].violations + 1;
            && t.hall.rooms == s.hall.rooms && t.hall.tokens == s.hall.tokens && t.departed == s.departed
            && t.guards == s.guards
            && t.clients == s.clients[c := if p.maxViolations.Some? then s.clients[c].(violations := n)
                                           else s.clients[c]]
            && t.hall.open == (if p.maxViolations.Some? && n >= p.maxViolations.value then s.hall.open - {c}
                               else s.hall.open)
            && t.hall.sent == if c in s.hall.open && !(p.maxViolations.Some? && n >= p.maxViolations.value) then
                                s.hall.sent[c := SentTo(s.hall, c) + [Refused]]
                              else s.hall.sent
  {
  }

  // What an entry is.

  function Identified(s: Relay, e: Event): Relay
    requires Enabled(s, e) && IsEntry(e)
  {
    SetClient(s, e.c, s.clients[e.c].(fingerprint := Newcomer(s, e)))
  }

  lemma EntryRefused(s: Relay, p: Policy, e: Event)
    requires Enabled(s, e) && IsEntry(e) && !Enters(s, p, e)
    ensures Next(s, p, e) == Fail(Identified(s, e), p, e.c)
  {
  }

  lemma EntryFounds(s: Relay, p: Policy, e: Event)
    requires Enabled(s, e) && e.Create? && e.room !in s.hall.rooms
    ensures Next(s, p, e) == CreatedNew(Identified(s, e), p, e.c, e.room, e.token, e.time)
  {
  }

  lemma AdmissionWelcomes(s: Relay, p: Policy, e: Event)
    requires Enabled(s, e) && Enters(s, p, e) && e.room in s.hall.rooms
    ensures var t := Placed(Identified(s, e), p, e.c, e.room, e.time);
            var u := if e.Join? then
                       t.(hall := t.hall.(tokens := TokenBound(t.hall.tokens, e.room, e.token, e.fp)))
                     else t;
            Next(s, p, e) == Welcomed(u, e.c, e.room, e.time)
  {
  }

  /** Refused, into a new room, or welcomed into a live one. */
  lemma EntryCases(s: Relay, p: Policy, e: Event)
    requires Enabled(s, e) && IsEntry(e)
    ensures var t := Identified(s, e);
            var u := Placed(t, p, e.c, e.room, e.time);
            Next(s, p, e)
            == if !Enters(s, p, e) then Fail(t, p, e.c)
               else if e.room !in s.hall.rooms then CreatedNew(t, p, e.c, e.room, e.token, e.time)
               else if e.Create? then Welcomed(u, e.c, e.room, e.time)
               else Welcomed(u.(hall := u.hall.(tokens := TokenBound(u.hall.tokens, e.room, e.token, e.fp))), e.c,
                             e.room, e.time)
  {
    if !Enters(s, p, e) {
      EntryRefused(s, p, e);
    } else if e.room !in s.hall.rooms {
      EntryFounds(s, p, e);
    } else {
      AdmissionWelcomes(s, p, e);
    }
  }

  // Records.

  /** The record of the client that acts. */
  function Updated(s: Relay, p: Policy, e: Event): Client
    requires Enabled(s, e) && !e.Cleanup? && !e.Accept? && !e.Disconnect?
  {
    var cl := s.clients[e.c];
    Client(if Enters(s, p, e) then Some(e.room) else if e.Leave? then None else cl.roomId,
           if IsEntry(e) && e.fp.Some? && e.fp.value != "" then e.fp
           else if e.Announce? && !Refuses(s, p, e) then Some(e.from)
           else cl.fingerprint,
           cl.violations + if Refuses(s, p, e) && p.maxViolations.Some? then 1 else 0)
  }

  /**
   A record is made at acceptance and goes at the end of the connection. In
   between only the client's own events change it: entering and leaving set the
   room, entering and announcing a key the fingerprint, a refusal the violations.
   */
  lemma RecordsFollow(s: Relay, p: Policy, e: Event)
    requires Enabled(s, e)
    ensures Next(s, p, e).clients
            == if e.Cleanup? then s.clients
               else if e.Accept? then s.clients[e.c := Client(None, None, 0)]
               else if e.Disconnect? then s.clients - {e.c}
               else s.clients[e.c := Updated(s, p, e)]
    ensures Next(s, p, e).departed
            == if e.Disconnect? then s.departed[e.c := s.clients[e.c].fingerprint] else s.departed
  {
    match e
    case Create(_, _, _, _, _) => EntryRecord(s, p, e);
    case Join(_, _, _, _, _) => EntryRecord(s, p, e);
    case Send(c, room, m, now) => SendRecord(s, p, c, room, m, now);
    case Invite(c, _, _, _) => Rejected(s, p, c);
    case Malformed(c, _) => Rejected(s, p, c);
    case Announce(c, _, _, _, _) => Rejected(s, p, c);
    case Type(c, _, _) => assert s.clients[c := s.clients[c]] == s.clients;
    case _ =>
  }

  lemma EntryRecord(s: Relay, p: Policy, e: Event)
    requires Enabled(s, e) && IsEntry(e)
    ensures Next(s, p, e).clients == s.clients[e.c := Updated(s, p, e)] && Next(s, p, e).departed == s.departed
  {
    EntryCases(s, p, e);
    Rejected(Identified(s, e), p, e.c);
  }

  lemma SendRecord(s: Relay, p: Policy, c: Conn, room: string, m: Payload, now: int)
    requires Enabled(s, Send(c, room, m, now))
    ensures SentMessage(s, p, c, room, m, now).clients == s.clients[c := Updated(s, p, Send(c, room, m, now))]
    ensures SentMessage(s, p, c, room, m, now).departed == s.departed
  {
    var fp := s.clients[c].fingerprint;
    PassesExactly(s.guards, p, fp, m, now);
    Rejected(s, p, c);
    Rejected(s.(guards := Guarded(s.guards, p, fp, m, now)), p, c);
  }

  // Sockets.

  /** Too old, or idle for too long. */
  predicate OverAge(r: Room, now: int, lim: Limits) {
    now > r.createdAt + lim.lifetime || now > r.lastActivity + lim.idle
  }

  ghost predicate InOverAge(h: Hall, c: Conn, now: int, lim: Limits) {
    exists room :: room in h.rooms && OverAge(h.rooms[room], now, lim) && c in h.rooms[room].clients
  }

  /** A socket is open from its acceptance to its end, to the last violation of its client or to the end of a room. */
  lemma SocketsFollow(s: Relay, p: Policy, e: Event, d: Conn)
    requires Enabled(s, e)
    ensures d in Next(s, p, e).hall.open <==>
            || (e.Accept? && d == e.c)
            || (d in s.hall.open
                && !(e.Disconnect? && d == e.c)
                && (e.Cleanup? || !(Closes(s, p, e) && d == e.c))
                && !(e.Cleanup? && InOverAge(s.hall, d, e.time, p.lim)))
  {
    match e
    case Create(_, _, _, _, _) => EntrySockets(s, p, e);
    case Join(_, _, _, _, _) => EntrySockets(s, p, e);
    case Send(c, room, m, now) => SendSockets(s, p, c, room, m, now);
    case Invite(c, _, _, _) => Rejected(s, p, c);
    case Malformed(c, _) => Rejected(s, p, c);
    case Announce(c, _, _, _, _) => Rejected(s, p, c);
    case Cleanup(now) => SweptExactly(s.hall, now, p.lim, d);
    case _ =>
  }

  lemma SweptExactly(h: Hall, now: int, lim: Limits, d: Conn)
    ensures d in Affected(h, ExpiredRooms(h, now, lim)) <==> d in h.open && InOverAge(h, d, now, lim)
  {
    if InOverAge(h, d, now, lim) {
      var room :| room in h.rooms && OverAge(h.rooms[room], now, lim) && d in h.rooms[room].clients;
      assert room in ExpiredRooms(h, now, lim);
    }
  }

  lemma EntrySockets(s: Relay, p: Policy, e: Event)
    requires Enabled(s, e) && IsEntry(e)
    ensures Next(s, p, e).hall.open == if Closes(s, p, e) then s.hall.open - {e.c} else s.hall.open
  {
    EntryCases(s, p, e);
    Rejected(Identified(s, e), p, e.c);
  }

  lemma SendSockets(s: Relay, p: Policy, c: Conn, room: string, m: Payload, now: int)
    requires Enabled(s, Send(c, room, m, now))
    ensures SentMessage(s, p, c, room, m, now).hall.open
            == if Closes(s, p, Send(c, room, m, now)) then s.hall.open - {c} else s.hall.open
  {
    var fp := s.clients[c].fingerprint;
    PassesExactly(s.guards, p, fp, m, now);
    Rejected(s, p, c);
    Rejected(s.(guards := Guarded(s.guards, p, fp, m, now)), p, c);
  }

  // Rooms and their lists.

  function ListOf(h: Hall, room: string): seq<Conn> {
    if room in h.rooms then h.rooms[room].clients else []
  }

  /** The client leaves the room that its record names, or its connection ends. */
  predicate Parts(s: Relay, e: Event, room: string) {
    (e.Leave? || e.Disconnect?) && InRoom(s, e.c, room)
  }

  /**
   A room exists from room:create to a sweep that finds it over age. Its list
   gains whoever enters, at the end, and loses whoever parts; nothing else
   touches it. A new room lists its creator if there may be anybody at all.
   */
  lemma ListsFollow(s: Relay, p: Policy, e: Event, room: string)
    requires Enabled(s, e)
    ensures room in Next(s, p, e).hall.rooms <==>
            || (room in s.hall.rooms && !(e.Cleanup? && OverAge(s.hall.rooms[room], e.time, p.lim)))
            || (e.Create? && e.room == room)
    ensures room in Next(s, p, e).hall.rooms ==>
              ListOf(Next(s, p, e).hall, room)
              == if !e.Cleanup? && Enters(s, p, e) && e.room == room
                    && (room in s.hall.rooms || p.lim.maxParticipants >= 1) then
                   ListOf(s.hall, room) + [e.c]
                 else if Parts(s, e, room) then Without(ListOf(s.hall, room), e.c)
                 else ListOf(s.hall, room)
  {
    match e
    case Create(_, _, _, _, _) => EntryLists(s, p, e, room);
    case Join(_, _, _, _, _) => EntryLists(s, p, e, room);
    case Send(c, to, m, now) => SendKeepsRest(s, p, c, to, m, now);
    case Invite(c, _, _, _) => Rejected(s, p, c);
    case Malformed(c, _) => Rejected(s, p, c);
    case Announce(c, _, _, _, _) => Rejected(s, p, c);
    case Leave(c, now) => PartingLists(s, p, e, room);
    case Disconnect(c, now) => PartingLists(s, p, e, room);
    case _ =>
  }

  lemma EntryLists(s: Relay, p: Policy, e: Event, room: string)
    requires Enabled(s, e) && IsEntry(e)
    ensures room in Next(s, p, e).hall.rooms <==> room in s.hall.rooms || (e.Create? && e.room == room)
    ensures room in Next(s, p, e).hall.rooms ==>
              ListOf(Next(s, p, e).hall, room)
              == if Enters(s, p, e) && e.room == room && (room in s.hall.rooms || p.lim.maxParticipants >= 1) then
                   ListOf(s.hall, room) + [e.c]
                 else ListOf(s.hall, room)
  {
    EntryCases(s, p, e);
    Rejected(Identified(s, e), p, e.c);
  }

  lemma PartingLists(s: Relay, p: Policy, e: Event, room: string)
    requires Enabled(s, e) && (e.Leave? || e.Disconnect?)
    ensures Next(s, p, e).hall.rooms.Keys == s.hall.rooms.Keys
    ensures room in s.hall.rooms ==>
              ListOf(Next(s, p, e).hall, room)
              == if InRoom(s, e.c, room) then Without(ListOf(s.hall, room), e.c) else ListOf(s.hall, room)
  {
    if room in s.hall.rooms {
      WithoutLength(s.hall.rooms[room].clients, e.c);
    }
  }

  /**
   The capacity law: an unlisted client that shows a token the live room has for
   it is turned away exactly if the room is full. A token it does not hold never
   lets it in.
   */
  lemma CapacityExactly(s: Relay, p: Policy, e: Event)
    requires Enabled(s, e) && IsEntry(e) && e.room in s.hall.rooms && e.c !in ListOf(s.hall, e.room)
    ensures var t := Next(s, p, e);
            var full := |ListOf(s.hall, e.room)| >= p.lim.maxParticipants;
            && (Holds(s.hall.tokens, e.room, e.token, Shown(s, e)) ==> (e.c !in ListOf(t.hall, e.room) <==> full))
            && (!Holds(s.hall.tokens, e.room, e.token, Shown(s, e)) ==> e.c !in ListOf(t.hall, e.room))
            && (e.c in ListOf(t.hall, e.room) ==> |ListOf(t.hall, e.room)| == |ListOf(s.hall, e.room)| + 1)
  {
    ListsFollow(s, p, e, e.room);
  }

  // Tokens.

  /** What the table has for a token of a room: nothing, "" while it is unused, or whom it is bound to. */
  function TokenAt(h: Hall, room: string, token: string): Option<string> {
    if TokenKnown(h, room, token) then Some(h.tokens[room][token]) else None
  }

  /** The client mints a token for the room that its record names. */
  predicate Mints(s: Relay, e: Event, room: string, token: string) {
    e.Invite? && e.room == room && e.token == token && InRoom(s, e.c, room)
  }

  /** The client opens the room with this token. */
  predicate Founds(s: Relay, e: Event, room: string) {
    e.Create? && e.room == room && room !in s.hall.rooms
  }

  /**
   A token comes into a table unused, by the room:create that opens the room or
   by the invite:create of a client in it, and goes with the room. Only
   room:join uses it up. Nothing else changes any token, of this or another room.
   */
  lemma TokensFollow(s: Relay, p: Policy, e: Event, room: string, token: string)
    requires ListsOk(s.hall, p) && Enabled(s, e)
    ensures TokenAt(Next(s, p, e).hall, room, token)
            == if e.Cleanup? && room in s.hall.rooms && OverAge(s.hall.rooms[room], e.time, p.lim) then None
               else if Founds(s, e, room) then if token == e.token then Some("") else None
               else if Mints(s, e, room, token) && room in s.hall.rooms && TokenAt(s.hall, room, token).None? then
                 Some("")
               else if e.Join? && Enters(s, p, e) && e.room == room && e.token == token
                       && TokenAt(s.hall, room, token) == Some("") then
                 Some(if e.fp.Some? then e.fp.value else "")
               else TokenAt(s.hall, room, token)
  {
    match e
    case Create(_, _, _, _, _) => CreateTokens(s, p, e, room, token);
    case Join(_, _, _, _, _) => JoinTokens(s, p, e, room, token);
    case Send(c, to, m, now) => SendKeepsRest(s, p, c, to, m, now);
    case Invite(c, _, _, _) => InviteTokens(s, p, e, room, token);
    case Malformed(c, _) => Rejected(s, p, c);
    case Announce(c, _, _, _, _) => Rejected(s, p, c);
    case Cleanup(now) => assert room in ExpiredRooms(s.hall, now, p.lim) <==>
                                room in s.hall.rooms && OverAge(s.hall.rooms[room], now, p.lim);
    case _ =>
  }

  lemma CreateTokens(s: Relay, p: Policy, e: Event, room: string, token: string)
    requires Enabled(s, e) && e.Create?
    ensures TokenAt(Next(s, p, e).hall, room, token)
            == if Founds(s, e, room) then if token == e.token then Some("") else None
               else TokenAt(s.hall, room, token)
  {
    EntryCases(s, p, e);
    Rejected(Identified(s, e), p, e.c);
  }

  lemma JoinTokens(s: Relay, p: Policy, e: Event, room: string, token: string)
    requires ListsOk(s.hall, p) && Enabled(s, e) && e.Join?
    ensures TokenAt(Next(s, p, e).hall, room, token)
            == if Enters(s, p, e) && e.room == room && e.token == token && TokenAt(s.hall, room, token) == Some("") then
                 Some(if e.fp.Some? then e.fp.value else "")
               else TokenAt(s.hall, room, token)
  {
    EntryCases(s, p, e);
    Rejected(Identified(s, e), p, e.c);
  }

  lemma InviteTokens(s: Relay, p: Policy, e: Event, room: string, token: string)
    requires ListsOk(s.hall, p) && Enabled(s, e) && e.Invite?
    ensures TokenAt(Next(s, p, e).hall, room, token)
            == if Mints(s, e, room, token) && room in s.hall.rooms && TokenAt(s.hall, room, token).None? then Some("")
               else TokenAt(s.hall, room, token)
  {
    Rejected(s, p, e.c);
  }

  /**
   The authorship law. While a room lives, a token that is new to it is unused
   and comes from an invite:create of a client whose record names the room; no
   event of any other client adds or removes one.
   */
  lemma NewTokensAreMinted(s: Relay, p: Policy, e: Event, room: string, token: string)
    requires ListsOk(s.hall, p) && Enabled(s, e) && room in s.hall.rooms && room in Next(s, p, e).hall.rooms
    ensures TokenKnown(Next(s, p, e).hall, room, token) && !TokenKnown(s.hall, room, token) ==>
              Mints(s, e, room, token) && TokenAt(Next(s, p, e).hall, room, token) == Some("")
    ensures (e.Cleanup? || !InRoom(s, e.c, room)) ==>
              (TokenKnown(Next(s, p, e).hall, room, token) <==> TokenKnown(s.hall, room, token))
    ensures TokenKnown(s.hall, room, token) ==> TokenKnown(Next(s, p, e).hall, room, token)
  {
    TokensFollow(s, p, e, room, token);
    ListsFollow(s, p, e, room);
  }

  /** Some event of the run opened the room with the token, or minted it from inside. */
  predicate HasAuthor(s: Relay, p: Policy, es: seq<Event>, room: string, token: string)
    requires Possible(s, p, es)
    decreases |es|
  {
    es != []
    && ((Founds(s, es[0], room) && es[0].token == token)
        || Mints(s, es[0], room, token)
        || HasAuthor(Next(s, p, es[0]), p, es[1..], room, token))
  }

  /** So over every run: whatever token a room has at the end and did not have at the beginning has an author. */
  lemma {:induction false} EveryTokenHasAnAuthor(s: Relay, p: Policy, es: seq<Event>, room: string, token: string)
    requires ListsOk(s.hall, p) && Possible(s, p, es)
    requires TokenKnown(After(s, p, es).hall, room, token) && !TokenKnown(s.hall, room, token)
    ensures HasAuthor(s, p, es, room, token)
    decreases |es|
  {
    if es != [] {
      var t := Next(s, p, es[0]);
      StepKeepsLists(s, p, es[0]);
      TokensFollow(s, p, es[0], room, token);
      if !TokenKnown(t.hall, room, token) {
        EveryTokenHasAnAuthor(t, p, es[1..], room, token);
      }
    }
  }

  // What is written.

  /** The answer to the client itself. */
  function Answer(s: Relay, p: Policy, e: Event): seq<Frame>
    requires Enabled(s, e) && !e.Cleanup?
  {
    if Closes(s, p, e) then []
    else if Refuses(s, p, e) then [Refused]
    else if IsEntry(e) || e.Invite? || (e.Leave? && s.clients[e.c].roomId.Some?) then [Done]
    else []
  }

  /** What the others on the list of a room are told, and of which room. */
  function Spoken(s: Relay, p: Policy, e: Event): Option<(string, News)>
    requires Enabled(s, e)
  {
    match e
    case Create(c, room, _, _, _) => if Enters(s, p, e) then Some((room, Joined(Newcomer(s, e)))) else None
    case Join(c, room, _, _, _) => if Enters(s, p, e) then Some((room, Joined(Newcomer(s, e)))) else None
    case Announce(c, room, from, key, _) => if InRoom(s, c, room) then Some((room, Key(from, key))) else None
    case Send(c, room, m, _) => if Refuses(s, p, e) || m.to.Some? then None else Some((room, Message(m.body)))
    case Type(c, start, _) =>
      if s.clients[c].roomId.None? then None
      else Some((s.clients[c].roomId.value, Typing(start, s.clients[c].fingerprint)))
    case Leave(c, _) =>
      if s.clients[c].roomId.None? then None else Some((s.clients[c].roomId.value, Left(s.clients[c].fingerprint)))
    case Disconnect(c, _) =>
      if s.clients[c].roomId.None? then None else Some((s.clients[c].roomId.value, Left(s.clients[c].fingerprint)))
    case _ => None
  }

  /** The name a newcomer goes by. */
  function Newcomer(s: Relay, e: Event): Option<string>
    requires Enabled(s, e) && IsEntry(e)
  {
    if e.fp.Some? && e.fp.value != "" then e.fp else s.clients[e.c].fingerprint
  }

  /** The client, connected or not, goes by this name. */
  predicate GoesBy(s: Relay, d: Conn, name: string) {
    if d in s.clients then s.clients[d].fingerprint == Some(name) else d in s.departed && s.departed[d] == Some(name)
  }

  /** The first on the list that goes by the name. */
  ghost predicate IsFirst(s: Relay, list: seq<Conn>, name: string, d: Conn) {
    exists i :: 0 <= i < |list| && list[i] == d && GoesBy(s, d, name)
                && forall j :: 0 <= j < i ==> !GoesBy(s, list[j], name)
  }

  lemma {:induction false} FoundIsFirst(s: Relay, list: seq<Conn>, name: string, d: Conn)
    ensures FindClient(s.clients, s.departed, list, name) == Some(d) <==> IsFirst(s, list, name, d)
  {
    if list != [] {
      FoundIsFirst(s, list[1..], name, d);
      if IsFirst(s, list, name, d) && !GoesBy(s, list[0], name) {
        var i :| 0 <= i < |list| && list[i] == d && GoesBy(s, d, name)
                 && forall j :: 0 <= j < i ==> !GoesBy(s, list[j], name);
        assert list[1..][i - 1] == d && forall j :: 0 <= j < i - 1 ==> list[1..][j] == list[j + 1];
      }
      if IsFirst(s, list[1..], name, d) && !GoesBy(s, list[0], name) {
        var i :| 0 <= i < |list[1..]| && list[1..][i] == d && GoesBy(s, d, name)
                 && forall j :: 0 <= j < i ==> !GoesBy(s, list[1..][j], name);
        assert list[i + 1] == d && forall j :: 0 < j < i + 1 ==> list[j] == list[1..][j - 1];
      }
      if GoesBy(s, list[0], name) && IsFirst(s, list, name, d) {
        var i :| 0 <= i < |list| && list[i] == d && forall j :: 0 <= j < i ==> !GoesBy(s, list[j], name);
        assert i == 0;
      }
    }
  }

  /** The message is for connection d alone. */
  ghost predicate IsFor(s: Relay, p: Policy, e: Event, d: Conn)
    requires Enabled(s, e)
  {
    e.Send? && !Refuses(s, p, e) && e.m.to.Some? && IsFirst(s, ListOf(s.hall, e.room), e.m.to.value, d)
  }

  /** What the event writes to an open socket. */
  ghost function Written(s: Relay, p: Policy, e: Event, d: Conn): seq<Frame>
    requires Enabled(s, e)
  {
    if e.Cleanup? then if InOverAge(s.hall, d, e.time, p.lim) then [RoomClosed] else []
    else if IsFor(s, p, e, d) then [Direct(e.m.body)]
    else if d == e.c then if e.Disconnect? || e.Accept? then [] else Answer(s, p, e)
    else
      match Spoken(s, p, e)
      case None => []
      case Some((room, news)) => if d in ListOf(s.hall, room) then [Cast(room, e.c, news)] else []
  }

  ghost predicate WritesAsTold(s: Relay, p: Policy, e: Event, d: Conn)
    requires Enabled(s, e)
  {
    SentTo(Next(s, p, e).hall, d) == SentTo(s.hall, d) + if d in s.hall.open then Written(s, p, e, d) else []
  }

  /**
   To every socket, each event writes exactly what it is told there: the answer
   to its client, one broadcast to every other open client on the list of the
   room, one message to the first that goes by the name, or the closing notice.
   */
  lemma WritesExactly(s: Relay, p: Policy, e: Event, d: Conn)
    requires ListsOk(s.hall, p) && Enabled(s, e)
    ensures WritesAsTold(s, p, e, d)
  {
    match e
    case Accept(_, _) => OtherWrites(s, p, e, d);
    case Create(_, _, _, _, _) => EntryWrites(s, p, e, d);
    case Join(_, _, _, _, _) => EntryWrites(s, p, e, d);
    case Announce(_, _, _, _, _) => AnnounceWrites(s, p, e, d);
    case Send(_, _, _, _) => SendWrites(s, p, e, d);
    case Type(_, _, _) => TypeWrites(s, p, e, d);
    case Leave(_, _) => LeaveWrites(s, p, e, d);
    case Disconnect(_, _) => DisconnectWrites(s, p, e, d);
    case Invite(_, _, _, _) => OtherWrites(s, p, e, d);
    case Malformed(_, _) => OtherWrites(s, p, e, d);
    case Cleanup(_) => SweepWrites(s, p, e, d);
  }

  lemma OtherWrites(s: Relay, p: Policy, e: Event, d: Conn)
    requires Enabled(s, e) && (e.Accept? || e.Invite? || e.Malformed?)
    ensures WritesAsTold(s, p, e, d)
  {
    assert SentTo(s.hall, d) + [] == SentTo(s.hall, d);
    if !e.Accept? {
      Rejected(s, p, e.c);
    }
  }

  lemma SweepWrites(s: Relay, p: Policy, e: Event, d: Conn)
    requires Enabled(s, e) && e.Cleanup?
    ensures WritesAsTold(s, p, e, d)
  {
    assert SentTo(s.hall, d) + [] == SentTo(s.hall, d);
    SweptExactly(s.hall, e.time, p.lim, d);
  }

  lemma AnnounceWrites(s: Relay, p: Policy, e: Event, d: Conn)
    requires ListsOk(s.hall, p) && Enabled(s, e) && e.Announce?
    ensures WritesAsTold(s, p, e, d)
  {
    assert SentTo(s.hall, d) + [] == SentTo(s.hall, d);
    Rejected(s, p, e.c);
    CastWrites(s.hall, e.room, e.c, Key(e.from, e.key), e.time, d);
  }

  lemma TypeWrites(s: Relay, p: Policy, e: Event, d: Conn)
    requires ListsOk(s.hall, p) && Enabled(s, e) && e.Type?
    ensures WritesAsTold(s, p, e, d)
  {
    var cl := s.clients[e.c];
    assert SentTo(s.hall, d) + [] == SentTo(s.hall, d);
    if cl.roomId.Some? {
      CastWrites(s.hall, cl.roomId.value, e.c, Typing(e.start, cl.fingerprint), e.time, d);
    }
  }

  lemma CastWrites(h: Hall, room: string, c: Conn, news: News, now: int, d: Conn)
    requires room in h.rooms ==> Distinct(h.rooms[room].clients)
    ensures SentTo(Broadcast(h, room, c, news, now), d)
            == SentTo(h, d) + if d in h.open && d != c && d in ListOf(h, room) then [Cast(room, c, news)] else []
  {
    assert SentTo(h, d) + [] == SentTo(h, d);
    if room in h.rooms {
      SpreadReaches(h.sent, h.open, h.rooms[room].clients, c, Cast(room, c, news), d);
    }
  }

  lemma WelcomeWrites(s: Relay, c: Conn, room: string, now: int, d: Conn)
    requires c in s.clients && (room in s.hall.rooms ==> Distinct(s.hall.rooms[room].clients))
    ensures SentTo(Welcomed(s, c, room, now).hall, d)
            == SentTo(s.hall, d) + if d !in s.hall.open then []
                                   else if d == c then [Done]
                                   else if d in ListOf(s.hall, room) then
                                     [Cast(room, c, Joined(s.clients[c].fingerprint))]
                                   else []
  {
    CastWrites(Write(s.hall, c, Done), room, c, Joined(s.clients[c].fingerprint), now, d);
    assert SentTo(s.hall, d) + [] == SentTo(s.hall, d);
  }

  lemma EntryWrites(s: Relay, p: Policy, e: Event, d: Conn)
    requires ListsOk(s.hall, p) && Enabled(s, e) && IsEntry(e)
    ensures WritesAsTold(s, p, e, d)
  {
    if Enters(s, p, e) && e.room in s.hall.rooms {
      AdmissionWrites(s, p, e, d);
    } else {
      assert SentTo(s.hall, d) + [] == SentTo(s.hall, d);
      EntryCases(s, p, e);
      Rejected(Identified(s, e), p, e.c);
    }
  }

  lemma AdmissionWrites(s: Relay, p: Policy, e: Event, d: Conn)
    requires ListsOk(s.hall, p) && Enabled(s, e) && Enters(s, p, e) && e.room in s.hall.rooms
    ensures WritesAsTold(s, p, e, d)
  {
    var u := Placed(Identified(s, e), p, e.c, e.room, e.time);
    if e.Join? {
      u := u.(hall := u.hall.(tokens := TokenBound(u.hall.tokens, e.room, e.token, e.fp)));
    }
    AdmissionWelcomes(s, p, e);
    assert ListOf(u.hall, e.room) == ListOf(s.hall, e.room) + [e.c] && u.hall.open == s.hall.open;
    assert SentTo(u.hall, d) == SentTo(s.hall, d) && SentTo(s.hall, d) + [] == SentTo(s.hall, d);
    WelcomeWrites(u, e.c, e.room, e.time, d);
  }

  lemma SendWrites(s: Relay, p: Policy, e: Event, d: Conn)
    requires ListsOk(s.hall, p) && Enabled(s, e) && e.Send?
    ensures WritesAsTold(s, p, e, d)
  {
    var fp := s.clients[e.c].fingerprint;
    var t := s.(guards := Guarded(s.guards, p, fp, e.m, e.time));
    assert SentTo(s.hall, d) + [] == SentTo(s.hall, d);
    PassesExactly(s.guards, p, fp, e.m, e.time);
    Rejected(s, p, e.c);
    Rejected(t, p, e.c);
    if !Refuses(s, p, e) {
      if e.m.to.None? {
        CastWrites(t.hall, e.room, e.c, Message(e.m.body), e.time, d);
      } else {
        DirectWrites(t, e.room, e.m.to.value, e.m.body, d);
        FoundIsFirst(t, ListOf(s.hall, e.room), e.m.to.value, d);
        FoundIsFirst(s, ListOf(s.hall, e.room), e.m.to.value, d);
      }
    }
  }

  lemma DirectWrites(s: Relay, room: string, name: string, body: string, d: Conn)
    ensures SentTo(ForwardedTo(s, room, name, body).hall, d)
            == SentTo(s.hall, d)
               + if FindClient(s.clients, s.departed, ListOf(s.hall, room), name) == Some(d) && d in s.hall.open then
                   [Direct(body)]
                 else []
  {
    assert SentTo(s.hall, d) + [] == SentTo(s.hall, d);
  }

  lemma LeaveWrites(s: Relay, p: Policy, e: Event, d: Conn)
    requires ListsOk(s.hall, p) && Enabled(s, e) && e.Leave?
    ensures WritesAsTold(s, p, e, d)
  {
    var cl := s.clients[e.c];
    assert SentTo(s.hall, d) + [] == SentTo(s.hall, d);
    if cl.roomId.Some? {
      CastWrites(s.hall, cl.roomId.value, e.c, Left(cl.fingerprint), e.time, d);
    }
  }

  lemma DisconnectWrites(s: Relay, p: Policy, e: Event, d: Conn)
    requires ListsOk(s.hall, p) && Enabled(s, e) && e.Disconnect?
    ensures WritesAsTold(s, p, e, d)
  {
    var cl := s.clients[e.c];
    assert SentTo(s.hall, d) + [] == SentTo(s.hall, d);
    if cl.roomId.Some? {
      var h := ClientRemoved(s.hall.(open := s.hall.open - {e.c}), cl.roomId.value, e.c, e.time);
      if cl.roomId.value in s.hall.rooms {
        WithoutDistinct(s.hall.rooms[cl.roomId.value].clients, e.c);
        WithoutLength(s.hall.rooms[cl.roomId.value].clients, e.c);
      }
      CastWrites(h, cl.roomId.value, e.c, Left(cl.fingerprint), e.time, d);
    }
  }

  // The guards' tables.

  /** The message counts against the name. */
  predicate CountsFor(s: Relay, e: Event, name: string)
    requires Enabled(s, e)
  {
    e.Send? && InRoom(s, e.c, e.room) && s.clients[e.c].fingerprint == Some(name) && name != ""
  }

  /** A client of the name goes from its room. */
  predicate GoesAs(s: Relay, e: Event, name: string)
    requires Enabled(s, e)
  {
    (e.Leave? || e.Disconnect?) && s.clients[e.c].roomId.Some? && s.clients[e.c].fingerprint == Some(name) && name != ""
  }

  function BucketAt(g: Guards, name: string): Option<RL.Bucket> {
    if name in g.buckets then Some(g.buckets[name]) else None
  }

  /** Every message from inside a room counts, taken or refused, and only a disconnect forgets the count. */
  lemma CountsFollow(s: Relay, p: Policy, e: Event, name: string)
    requires Enabled(s, e)
    ensures var was := BucketAt(s.guards, name);
            BucketAt(Next(s, p, e).guards, name)
            == if CountsFor(s, e, name) then
                 if was.Some? && e.time - was.value.windowStart <= p.rate.window then
                   Some(RL.Bucket(was.value.count + 1, was.value.windowStart))
                 else Some(RL.Bucket(1, e.time))
               else if e.Disconnect? && GoesAs(s, e, name) then None
               else was
  {
    match e
    case Create(_, _, _, _, _) => EntryGuards(s, p, e);
    case Join(_, _, _, _, _) => EntryGuards(s, p, e);
    case Send(c, room, m, now) => SendGuards(s, p, e);
    case Invite(c, _, _, _) => Rejected(s, p, c);
    case Malformed(c, _) => Rejected(s, p, c);
    case Announce(c, _, _, _, _) => Rejected(s, p, c);
    case _ =>
  }

  lemma EntryGuards(s: Relay, p: Policy, e: Event)
    requires Enabled(s, e) && IsEntry(e)
    ensures Next(s, p, e).guards == s.guards
  {
    EntryCases(s, p, e);
    Rejected(Identified(s, e), p, e.c);
  }

  lemma SendGuards(s: Relay, p: Policy, e: Event)
    requires Enabled(s, e) && e.Send?
    ensures Next(s, p, e).guards == if InRoom(s, e.c, e.room) then
                                      Guarded(s.guards, p, s.clients[e.c].fingerprint, e.m, e.time)
                                    else s.guards
  {
    Rejected(s, p, e.c);
  }

  /** When the nonce was last taken from the name, as far as that is remembered. */
  function TimeAt(g: Guards, name: string, nonce: string): Option<int> {
    if name in g.seen && nonce in g.seen[name] then Some(g.seen[name][nonce]) else None
  }

  /** The replay guard gets to see the message, which is signed with the name. */
  predicate ShowsNonce(s: Relay, p: Policy, e: Event, name: string)
    requires Enabled(s, e)
  {
    && e.Send? && InRoom(s, e.c, e.room) && p.replay.Some? && e.m.sender == name
    && WithinRate(s.guards, p, s.clients[e.c].fingerprint, e.time) && FilePermitted(p, e.m.file)
  }

  /**
   The replay table notes a new nonce when the limiter and the file checks let
   its message through, drops what is older than the time to live only then, and
   forgets a name whose client leaves or is disconnected.
   */
  lemma NoncesFollow(s: Relay, p: Policy, e: Event, name: string, nonce: string)
    requires Enabled(s, e)
    ensures var was := TimeAt(s.guards, name, nonce);
            TimeAt(Next(s, p, e).guards, name, nonce)
            == if ShowsNonce(s, p, e, name) then
                 if was.Some? && e.time - was.value <= p.replay.value then was
                 else if nonce == e.m.nonce then Some(e.time)
                 else None
               else if GoesAs(s, e, name) then None
               else was
  {
    match e
    case Create(_, _, _, _, _) => EntryGuards(s, p, e);
    case Join(_, _, _, _, _) => EntryGuards(s, p, e);
    case Send(c, room, m, now) =>
      SendGuards(s, p, e);
      SendNotes(s.guards, p, s.clients[c].fingerprint, m, now, name, nonce);
    case Invite(c, _, _, _) => Rejected(s, p, c);
    case Malformed(c, _) => Rejected(s, p, c);
    case Announce(c, _, _, _, _) => Rejected(s, p, c);
    case _ =>
  }

  lemma SendNotes(g: Guards, p: Policy, fp: Option<string>, m: Payload, now: int, name: string, nonce: string)
    ensures var was := TimeAt(g, name, nonce);
            TimeAt(Guarded(g, p, fp, m, now), name, nonce)
            == if p.replay.Some? && m.sender == name && WithinRate(g, p, fp, now) && FilePermitted(p, m.file) then
                 if was.Some? && now - was.value <= p.replay.value then was
                 else if nonce == m.nonce then Some(now)
                 else None
               else was
  {
  }

  /** The bucket of the name has one request more, or is a new one. */
  predicate OneMoreCounted(s: Relay, p: Policy, e: Event, name: string)
    requires Enabled(s, e)
  {
    var was, now := BucketAt(s.guards, name), BucketAt(Next(s, p, e).guards, name);
    now == Some(if was.Some? && e.time - was.value.windowStart <= p.rate.window then
                  RL.Bucket(was.value.count + 1, was.value.windowStart)
                else RL.Bucket(1, e.time))
  }

  /**
   A file message without a size, with size zero or above the limit: in every
   state of every run it is refused, written to nobody but its sender, counts
   against the limiter like any other, and leaves the replay table alone.
   */
  lemma RefusedFiles(s: Relay, p: Policy, e: Event)
    requires Reachable(s, p) && Enabled(s, e) && e.Send? && InRoom(s, e.c, e.room)
    requires e.m.file.File? && (e.m.file.size.None? || e.m.file.size.value == 0 || e.m.file.size.value > p.maxFile)
    ensures var t := Next(s, p, e);
            && (forall d :: d != e.c ==> SentTo(t.hall, d) == SentTo(s.hall, d))
            && (forall d, body :: Direct(body) in SentTo(t.hall, d) ==> Direct(body) in SentTo(s.hall, d))
            && t.guards.seen == s.guards.seen
            && (forall name :: CountsFor(s, e, name) ==> OneMoreCounted(s, p, e, name))
  {
    ReachableOk(s, p);
    var t := Next(s, p, e);
    forall d
      ensures d != e.c ==> SentTo(t.hall, d) == SentTo(s.hall, d)
      ensures SentTo(t.hall, d) == SentTo(s.hall, d) || SentTo(t.hall, d) == SentTo(s.hall, d) + [Refused]
    {
      WritesExactly(s, p, e, d);
    }
    forall name | CountsFor(s, e, name) ensures OneMoreCounted(s, p, e, name) {
      CountsFollow(s, p, e, name);
    }
    SendGuards(s, p, e);
  }

  // Violations over runs.

  /** How many events of the client are refused in the run. */
  function Refusals(s: Relay, p: Policy, es: seq<Event>, c: Conn): nat
    requires Possible(s, p, es)
    decreases |es|
  {
    if es == [] then 0
    else
      (if !es[0].Cleanup? && es[0].c == c && Refuses(s, p, es[0]) then 1 else 0)
      + Refusals(Next(s, p, es[0]), p, es[1..], c)
  }

  /** Some sweep of the run finds the client on the list of a room that is over age. */
  ghost predicate SweptOut(s: Relay, p: Policy, es: seq<Event>, c: Conn)
    requires Possible(s, p, es)
    decreases |es|
  {
    es != []
    && ((es[0].Cleanup? && InOverAge(s.hall, c, es[0].time, p.lim))
        || SweptOut(Next(s, p, es[0]), p, es[1..], c))
  }

  lemma {:induction false} SpreadKeepsKeys(wire: Wire, open: set<Conn>, to: seq<Conn>, sender: Conn, f: Frame)
    ensures wire.Keys <= Spread(wire, open, to, sender, f).Keys
    decreases |to|
  {
    if to != [] {
      SpreadKeepsKeys(if to[0] == sender then wire else WriteOn(wire, open, to[0], f), open, to[1..], sender, f);
    }
  }

  lemma CastKeepsKeys(h: Hall, room: string, c: Conn, news: News, now: int)
    ensures h.sent.Keys <= Broadcast(h, room, c, news, now).sent.Keys
  {
    if room in h.rooms {
      SpreadKeepsKeys(h.sent, h.open, h.rooms[room].clients, c, Cast(room, c, news));
    }
  }

  lemma EntryKeepsKeys(s: Relay, p: Policy, e: Event)
    requires Enabled(s, e) && IsEntry(e)
    ensures s.hall.sent.Keys <= Next(s, p, e).hall.sent.Keys
  {
    EntryCases(s, p, e);
    Rejected(Identified(s, e), p, e.c);
    if Enters(s, p, e) && e.room in s.hall.rooms {
      var t := Placed(Identified(s, e), p, e.c, e.room, e.time);
      AdmissionWelcomes(s, p, e);
      CastKeepsKeys(Write(t.hall, e.c, Done), e.room, e.c, Joined(t.clients[e.c].fingerprint), e.time);
      CastKeepsKeys(Write(t.hall.(tokens := TokenBound(t.hall.tokens, e.room, e.token, e.fp)), e.c, Done), e.room, e.c,
                    Joined(t.clients[e.c].fingerprint), e.time);
    }
  }

  lemma SendKeepsKeys(s: Relay, p: Policy, e: Event)
    requires Enabled(s, e) && e.Send?
    ensures s.hall.sent.Keys <= Next(s, p, e).hall.sent.Keys
  {
    var t := s.(guards := Guarded(s.guards, p, s.clients[e.c].fingerprint, e.m, e.time));
    Rejected(s, p, e.c);
    Rejected(t, p, e.c);
    CastKeepsKeys(t.hall, e.room, e.c, Message(e.m.body), e.time);
  }

  /** A socket's number is never used again. */
  lemma StepKeepsKeys(s: Relay, p: Policy, e: Event)
    requires Enabled(s, e)
    ensures s.hall.sent.Keys <= Next(s, p, e).hall.sent.Keys
  {
    match e
    case Create(_, _, _, _, _) => EntryKeepsKeys(s, p, e);
    case Join(_, _, _, _, _) => EntryKeepsKeys(s, p, e);
    case Announce(c, room, from, key, now) =>
      Rejected(s, p, c);
      CastKeepsKeys(s.hall, room, c, Key(from, key), now);
    case Send(_, _, _, _) => SendKeepsKeys(s, p, e);
    case Type(c, start, now) =>
      if s.clients[c].roomId.Some? {
        CastKeepsKeys(s.hall, s.clients[c].roomId.value, c, Typing(start, s.clients[c].fingerprint), now);
      }
    case Leave(_, _) => PartingKeepsKeys(s, p, e);
    case Disconnect(_, _) => PartingKeepsKeys(s, p, e);
    case Invite(c, _, _, _) => Rejected(s, p, c);
    case Malformed(c, _) => Rejected(s, p, c);
    case _ =>
  }

  lemma PartingKeepsKeys(s: Relay, p: Policy, e: Event)
    requires Enabled(s, e) && (e.Leave? || e.Disconnect?)
    ensures s.hall.sent.Keys <= Next(s, p, e).hall.sent.Keys
  {
    var cl := s.clients[e.c];
    if cl.roomId.Some? {
      CastKeepsKeys(s.hall, cl.roomId.value, e.c, Left(cl.fingerprint), e.time);
      var h := ClientRemoved(s.hall.(open := s.hall.open - {e.c}), cl.roomId.value, e.c, e.time);
      CastKeepsKeys(h, cl.roomId.value, e.c, Left(cl.fingerprint), e.time);
    }
  }

  /** A client that is gone stays gone. */
  lemma {:induction false} GoneStays(s: Relay, p: Policy, es: seq<Event>, c: Conn)
    requires Possible(s, p, es) && c in s.hall.sent && c !in s.clients
    ensures c !in After(s, p, es).clients
    decreases |es|
  {
    if es != [] {
      RecordsFollow(s, p, es[0]);
      StepKeepsKeys(s, p, es[0]);
      GoneStays(Next(s, p, es[0]), p, es[1..], c);
    }
  }

  /** A closed socket stays closed. */
  lemma {:induction false} ClosedStays(s: Relay, p: Policy, es: seq<Event>, c: Conn)
    requires Possible(s, p, es) && c in s.hall.sent && c !in s.hall.open
    ensures c !in After(s, p, es).hall.open
    decreases |es|
  {
    if es != [] {
      SocketsFollow(s, p, es[0], c);
      StepKeepsKeys(s, p, es[0]);
      ClosedStays(Next(s, p, es[0]), p, es[1..], c);
    }
  }

  /** As long as a client is connected, its record counts its refusals. */
  lemma {:induction false} ViolationsCount(s: Relay, p: Policy, es: seq<Event>, c: Conn)
    requires Possible(s, p, es) && c in s.clients && c in s.hall.sent && c in After(s, p, es).clients
    requires p.maxViolations.Some?
    ensures After(s, p, es).clients[c].violations == s.clients[c].violations + Refusals(s, p, es, c)
    decreases |es|
  {
    if es != [] {
      RecordsFollow(s, p, es[0]);
      StepKeepsKeys(s, p, es[0]);
      if c !in Next(s, p, es[0]).clients {
        GoneStays(Next(s, p, es[0]), p, es[1..], c);
      }
      ViolationsCount(Next(s, p, es[0]), p, es[1..], c);
    }
  }

  /** A client may be refused n more times before it is closed. */
  predicate Endures(s: Relay, p: Policy, c: Conn, n: nat) {
    p.maxViolations.Some? && n > 0 && c in s.clients ==> s.clients[c].violations + n < p.maxViolations.value
  }

  /**
   The violation law, over every run and for every client that is connected from
   its beginning to its end: the relay has closed its socket exactly if the
   refusals of its events have used up what it had left, or a sweep has found it
   in a room that is over age.
   */
  lemma {:induction false} ClosedExactly(s: Relay, p: Policy, es: seq<Event>, c: Conn)
    requires Possible(s, p, es) && c in s.clients && c in s.hall.sent && c in After(s, p, es).clients
    requires c in s.hall.open
    ensures c in After(s, p, es).hall.open <==> Endures(s, p, c, Refusals(s, p, es, c)) && !SweptOut(s, p, es, c)
    decreases |es|
  {
    if es != [] {
      var e, t := es[0], Next(s, p, es[0]);
      SocketsFollow(s, p, e, c);
      RecordsFollow(s, p, e);
      StepKeepsKeys(s, p, e);
      if c !in t.clients {
        GoneStays(t, p, es[1..], c);
      }
      if c in t.hall.open {
        ClosedExactly(t, p, es[1..], c);
      } else {
        ClosedStays(t, p, es[1..], c);
      }
    }
  }
}
