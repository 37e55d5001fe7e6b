/**
 The copies of a text at the relay, behind its guards. Every copy counts against
 the sender's message limit and is checked for replay, so that a text can reach
 some members and not others. The copies come one after the other, and whatever
 leaves the sender's place and record as they are may happen in between.
 */
module DeliveryRelay {
  import opened Wrappers
  import opened PeerSession
  import opened Rooms
  import opened Relay
  import opened RelayStructure
  import opened HandshakeRelay
  import opened OtherRooms
  import opened JointRuns
  import H = Handshake
  import P = HandshakeProof
  import HI = HandshakeInvariant
  import D = Delivery
  import RL = RateLimit
  import RG = ReplayGuard

  // The guards on several messages.

  /** A message and the time at which the relay takes it. */
  datatype Sending = Sending(m: Payload, time: int)

  predicate Timely(xs: seq<Sending>) {
    forall i, j :: 0 <= i < j < |xs| ==> xs[i].time <= xs[j].time
  }

  function Times(xs: seq<Sending>): (r: seq<int>)
    ensures |r| == |xs| && forall i :: 0 <= i < |xs| ==> r[i] == xs[i].time
  {
    seq(|xs|, i requires 0 <= i < |xs| => xs[i].time)
  }

  /** The guards after some messages of one client. */
  function GuardedAll(g: Guards, p: Policy, fp: Option<string>, xs: seq<Sending>): Guards
    decreases |xs|
  {
    if xs == [] then g else GuardedAll(Guarded(g, p, fp, xs[0].m, xs[0].time), p, fp, xs[1..])
  }

  predicate AllPass(g: Guards, p: Policy, fp: Option<string>, xs: seq<Sending>)
    decreases |xs|
  {
    xs == []
    || (Passes(g, p, fp, xs[0].m, xs[0].time) && AllPass(Guarded(g, p, fp, xs[0].m, xs[0].time), p, fp, xs[1..]))
  }

  /** How many of the times, from the first on, fall into the window that started then. */
  function Within(start: int, times: seq<int>, cfg: RL.Config): (k: nat)
    ensures k <= |times|
    ensures k < |times| ==> times[k] - start > cfg.window
    ensures forall i :: 0 <= i < k ==> times[i] - start <= cfg.window
  {
    if times == [] || times[0] - start > cfg.window then 0 else 1 + Within(start, times[1..], cfg)
  }

  /**
   Window by window, the one that is open and those that will open on the way,
   there is room for the messages that fall into it.
   */
  predicate HasRoom(bucket: Option<RL.Bucket>, times: seq<int>, cfg: RL.Config)
    decreases |times|
  {
    if times == [] then true
    else if bucket.Some? && !RL.Expired(bucket.value, times[0], cfg) then
      var k := Within(bucket.value.windowStart, times, cfg);
      bucket.value.count + k <= cfg.limit && HasRoom(None, times[k..], cfg)
    else
      var k := Within(times[0], times, cfg);
      k <= RL.Quota(cfg) && HasRoom(None, times[k..], cfg)
  }

  function BucketOf(g: Guards, name: string): Option<RL.Bucket> {
    if name in g.buckets then Some(g.buckets[name]) else None
  }

  /** No nonce is remembered for its sender, and none comes twice within the time to live. */
  predicate NoncesOk(g: Guards, p: Policy, xs: seq<Sending>) {
    && (forall i :: 0 <= i < |xs| ==> NonceOk(g, p, xs[i].m, xs[i].time))
    && (p.replay.Some? ==>
          forall i, j :: 0 <= i < j < |xs| && xs[i].m.sender == xs[j].m.sender && xs[i].m.nonce == xs[j].m.nonce ==>
            xs[j].time - xs[i].time > p.replay.value)
  }

  predicate FilesOk(p: Policy, xs: seq<Sending>) {
    forall i :: 0 <= i < |xs| ==> FileOk(p, xs[i].m.file)
  }

  /** The windows, taken message by message. */
  lemma RoomStep(g: Guards, p: Policy, name: string, m: Payload, times: seq<int>)
    requires name != "" && times != [] && Examined(g, p, Some(name), m, times[0])
    ensures HasRoom(BucketOf(g, name), times, p.rate)
            <==> HasRoom(BucketOf(Guarded(g, p, Some(name), m, times[0]), name), times[1..], p.rate)
  {
    var b, b' := BucketOf(g, name), BucketOf(Guarded(g, p, Some(name), m, times[0]), name);
    var start := if b.Some? && !RL.Expired(b.value, times[0], p.rate) then b.value.windowStart else times[0];
    var k := Within(start, times, p.rate);
    assert b'.Some? && b'.value.windowStart == start;
    assert k == 1 + Within(start, times[1..], p.rate);
    assert times[k..] == times[1..][k - 1..];
    if k == 1 {
      assert times[1..][0..] == times[1..];
    }
  }

  /** At one time there is only one window. */
  lemma RoomAtOnce(g: Guards, name: string, times: seq<int>, now: int, cfg: RL.Config)
    requires forall i :: 0 <= i < |times| ==> times[i] == now
    ensures HasRoom(BucketOf(g, name), times, cfg) <==>
            match RL.Live(g.buckets, name, now, cfg)
            case None => |times| <= RL.Quota(cfg)
            case Some(b) => times == [] || b.count + |times| <= cfg.limit
  {
  }

  lemma FreshAfter(g: Guards, p: Policy, fp: Option<string>, x: Sending, y: Sending)
    requires Passes(g, p, fp, x.m, x.time) && p.replay.Some? && x.time <= y.time
    ensures NonceOk(Guarded(g, p, fp, x.m, x.time), p, y.m, y.time)
            <==> NonceOk(g, p, y.m, y.time)
                 && !(y.m.sender == x.m.sender && y.m.nonce == x.m.nonce && y.time - x.time <= p.replay.value)
  {
  }

  lemma NoncesAfter(g: Guards, p: Policy, fp: Option<string>, xs: seq<Sending>)
    requires xs != [] && Timely(xs) && Passes(g, p, fp, xs[0].m, xs[0].time)
    ensures NoncesOk(g, p, xs) <==> NoncesOk(Guarded(g, p, fp, xs[0].m, xs[0].time), p, xs[1..])
  {
    var h, rest := Guarded(g, p, fp, xs[0].m, xs[0].time), xs[1..];
    if p.replay.Some? {
      forall i | 0 <= i < |rest|
        ensures NonceOk(h, p, rest[i].m, rest[i].time) <==>
                NonceOk(g, p, xs[i + 1].m, xs[i + 1].time)
                && !(xs[i + 1].m.sender == xs[0].m.sender && xs[i + 1].m.nonce == xs[0].m.nonce
                     && xs[i + 1].time - xs[0].time <= p.replay.value)
      {
        FreshAfter(g, p, fp, xs[0], xs[i + 1]);
      }
      if NoncesOk(h, p, rest) {
        forall i | 0 <= i < |xs| ensures NonceOk(g, p, xs[i].m, xs[i].time) {
          assert i > 0 ==> xs[i] == rest[i - 1];
        }
        forall i, j | 0 <= i < j < |xs| && xs[i].m.sender == xs[j].m.sender && xs[i].m.nonce == xs[j].m.nonce
          ensures xs[j].time - xs[i].time > p.replay.value
        {
          assert xs[j] == rest[j - 1] && NonceOk(h, p, rest[j - 1].m, rest[j - 1].time);
          assert i > 0 ==> xs[i] == rest[i - 1];
        }
      }
    }
  }

  /** The windows have room for all messages, files and nonces are in order. */
  ghost predicate AllInOrder(g: Guards, p: Policy, name: string, xs: seq<Sending>) {
    HasRoom(BucketOf(g, name), Times(xs), p.rate) && FilesOk(p, xs) && NoncesOk(g, p, xs)
  }

  lemma FirstInOrder(g: Guards, p: Policy, name: string, xs: seq<Sending>)
    requires name != "" && xs != [] && AllInOrder(g, p, name, xs)
    ensures Passes(g, p, Some(name), xs[0].m, xs[0].time)
  {
    assert Times(xs)[0] == xs[0].time;
  }

  lemma RoomForRest(g: Guards, p: Policy, name: string, xs: seq<Sending>)
    requires name != "" && xs != [] && Passes(g, p, Some(name), xs[0].m, xs[0].time)
    ensures HasRoom(BucketOf(g, name), Times(xs), p.rate)
            <==> HasRoom(BucketOf(Guarded(g, p, Some(name), xs[0].m, xs[0].time), name), Times(xs[1..]), p.rate)
  {
    assert Times(xs)[1..] == Times(xs[1..]);
    RoomStep(g, p, name, xs[0].m, Times(xs));
  }

  lemma FilesOfRest(p: Policy, xs: seq<Sending>)
    requires xs != [] && FileOk(p, xs[0].m.file)
    ensures FilesOk(p, xs) <==> FilesOk(p, xs[1..])
  {
    assert xs == [xs[0]] + xs[1..];
  }

  lemma RestInOrder(g: Guards, p: Policy, name: string, xs: seq<Sending>)
    requires name != "" && xs != [] && Timely(xs) && Passes(g, p, Some(name), xs[0].m, xs[0].time)
    ensures AllInOrder(g, p, name, xs) <==> AllInOrder(Guarded(g, p, Some(name), xs[0].m, xs[0].time), p, name, xs[1..])
  {
    RoomForRest(g, p, name, xs);
    FilesOfRest(p, xs);
    NoncesAfter(g, p, Some(name), xs);
  }

  /**
   All messages of a named client, taken at times that do not decrease, pass
   exactly if its windows have room for them, their files are in order, and the
   replay guard remembers no nonce of them and none comes twice too soon.
   */
  lemma {:induction false} AllPassExactly(g: Guards, p: Policy, name: string, xs: seq<Sending>)
    requires name != "" && Timely(xs)
    ensures AllPass(g, p, Some(name), xs)
            <==> HasRoom(BucketOf(g, name), Times(xs), p.rate) && FilesOk(p, xs) && NoncesOk(g, p, xs)
    decreases |xs|
  {
    if xs != [] {
      if Passes(g, p, Some(name), xs[0].m, xs[0].time) {
        AllPassExactly(Guarded(g, p, Some(name), xs[0].m, xs[0].time), p, name, xs[1..]);
        RestInOrder(g, p, name, xs);
      } else if AllInOrder(g, p, name, xs) {
        FirstInOrder(g, p, name, xs);
      }
    }
  }

  /** The message before which the guards stand at g is refused. */
  lemma {:induction false} SomeRefused(g: Guards, p: Policy, fp: Option<string>, xs: seq<Sending>) returns (i: nat)
    requires !AllPass(g, p, fp, xs)
    ensures i < |xs| && !Passes(GuardedAll(g, p, fp, xs[..i]), p, fp, xs[i].m, xs[i].time)
    decreases |xs|
  {
    if !Passes(g, p, fp, xs[0].m, xs[0].time) {
      i := 0;
    } else {
      i := SomeRefused(Guarded(g, p, fp, xs[0].m, xs[0].time), p, fp, xs[1..]);
      assert xs[..i + 1][1..] == xs[1..][..i];
      i := i + 1;
    }
  }

  lemma {:induction false} NoneRefused(g: Guards, p: Policy, fp: Option<string>, xs: seq<Sending>, i: nat)
    requires AllPass(g, p, fp, xs) && i < |xs|
    ensures Passes(GuardedAll(g, p, fp, xs[..i]), p, fp, xs[i].m, xs[i].time)
    decreases |xs|
  {
    if i > 0 {
      NoneRefused(Guarded(g, p, fp, xs[0].m, xs[0].time), p, fp, xs[1..], i - 1);
      assert xs[..i][1..] == xs[1..][..i - 1];
    }
  }

  // What the guards hold about one name.

  ghost predicate SameLedger(g: Guards, h: Guards, name: string) {
    RG.TimesOf(g.seen, name) == RG.TimesOf(h.seen, name) && BucketOf(g, name) == BucketOf(h, name)
  }

  /** The verdict on a message that its sender signs goes by that alone. */
  lemma LedgerDecides(g: Guards, h: Guards, p: Policy, name: string, m: Payload, now: int)
    requires SameLedger(g, h, name) && m.sender == name && name != ""
    ensures Passes(g, p, Some(name), m, now) <==> Passes(h, p, Some(name), m, now)
    ensures SameLedger(Guarded(g, p, Some(name), m, now), Guarded(h, p, Some(name), m, now), name)
  {
  }

  // A run in which a client sends to single recipients.

  /** Whom a message of client c to a fingerprint reaches. */
  function Reach(w: World, s: Relay, c: Conn, fp: string): Option<Conn> {
    match FindClient(s.clients, s.departed, Listed(s.hall, w.room), fp)
    case None => None
    case Some(d) => if d != c && d in s.hall.open then Some(d) else None
  }

  /** The client's record and its room stand. */
  ghost predicate Stands(w: World, s: Relay, c: Conn, name: string) {
    && c in s.clients && s.clients[c].roomId == Some(w.room) && s.clients[c].fingerprint == Some(name)
    && w.room in s.hall.rooms && w.room != "" && name != ""
  }

  /** What concerns neither the client nor whom it reaches. */
  ghost predicate Calm(w: World, s: Relay, t: Relay, c: Conn, name: string) {
    && Stands(w, t, c, name) && SameLedger(s.guards, t.guards, name)
    && forall fp :: Reach(w, t, c, fp) == Reach(w, s, c, fp)
  }

  predicate Ours(e: Event, c: Conn) {
    e.Send? && e.c == c
  }

  /** The client sends signed messages to single recipients, and anything that happens in between is calm. */
  ghost predicate Undisturbed(w: World, s: Relay, c: Conn, name: string, es: seq<Event>)
    ensures Undisturbed(w, s, c, name, es) ==> Possible(s, w.policy, es)
    decreases |es|
  {
    es == []
    || (&& Enabled(s, es[0])
        && (if Ours(es[0], c) then es[0].room == w.room && es[0].m.to.Some? && es[0].m.sender == name
            else Calm(w, s, Next(s, w.policy, es[0]), c, name))
        && Undisturbed(w, Next(s, w.policy, es[0]), c, name, es[1..]))
  }

  /** What the client sends in the run. */
  function Sendings(es: seq<Event>, c: Conn): seq<Sending> {
    if es == [] then []
    else (if Ours(es[0], c) then [Sending(es[0].m, es[0].time)] else []) + Sendings(es[1..], c)
  }

  /** What one event writes to the socket of connection d. */
  function Writes(s: Relay, t: Relay, d: Conn): seq<Frame> {
    if |SentTo(s.hall, d)| <= |SentTo(t.hall, d)| then SentTo(t.hall, d)[|SentTo(s.hall, d)|..] else []
  }

  /** What the client's messages write to it over the run. */
  function Added(s: Relay, p: Policy, es: seq<Event>, c: Conn, d: Conn): seq<Frame>
    requires Possible(s, p, es)
    decreases |es|
  {
    if es == [] then []
    else
      var t := Next(s, p, es[0]);
      (if Ours(es[0], c) then Writes(s, t, d) else []) + Added(t, p, es[1..], c, d)
  }

  /** The texts of the messages that pass and are for connection d. */
  function Gets(w: World, s: Relay, c: Conn, name: string, g: Guards, xs: seq<Sending>, d: Conn): seq<Frame>
    decreases |xs|
  {
    if xs == [] then []
    else
      var x := xs[0];
      (if Passes(g, w.policy, Some(name), x.m, x.time) && x.m.to.Some? && Reach(w, s, c, x.m.to.value) == Some(d) then
         [Direct(x.m.body)]
       else [])
      + Gets(w, s, c, name, Guarded(g, w.policy, Some(name), x.m, x.time), xs[1..], d)
  }

  lemma {:induction false} SameGets(w: World, s: Relay, t: Relay, c: Conn, name: string, g: Guards, h: Guards,
                                    xs: seq<Sending>, d: Conn)
    requires SameLedger(g, h, name) && name != "" && forall fp :: Reach(w, t, c, fp) == Reach(w, s, c, fp)
    requires forall i :: 0 <= i < |xs| ==> xs[i].m.sender == name
    ensures Gets(w, t, c, name, h, xs, d) == Gets(w, s, c, name, g, xs, d)
    decreases |xs|
  {
    if xs != [] {
      LedgerDecides(g, h, w.policy, name, xs[0].m, xs[0].time);
      SameGets(w, s, t, c, name, Guarded(g, w.policy, Some(name), xs[0].m, xs[0].time),
               Guarded(h, w.policy, Some(name), xs[0].m, xs[0].time), xs[1..], d);
    }
  }

  /** Apart from its sender's socket and violations, a message changes nothing but sockets and guards. */
  ghost predicate SamePlace(s: Relay, t: Relay, c: Conn) {
    && t.hall.rooms == s.hall.rooms && t.departed == s.departed
    && t.clients.Keys == s.clients.Keys
    && (forall d :: d in s.clients ==>
          t.clients[d].fingerprint == s.clients[d].fingerprint && t.clients[d].roomId == s.clients[d].roomId)
    && (forall d :: d != c ==> (d in t.hall.open <==> d in s.hall.open))
  }

  lemma {:induction false} SameFound(s: Relay, t: Relay, c: Conn, list: seq<Conn>, fp: string)
    requires SamePlace(s, t, c)
    ensures FindClient(t.clients, t.departed, list, fp) == FindClient(s.clients, s.departed, list, fp)
  {
    if list != [] {
      SameFound(s, t, c, list[1..], fp);
    }
  }

  lemma SameReach(w: World, s: Relay, t: Relay, c: Conn)
    requires SamePlace(s, t, c)
    ensures forall fp :: Reach(w, t, c, fp) == Reach(w, s, c, fp)
  {
    forall fp ensures Reach(w, t, c, fp) == Reach(w, s, c, fp) {
      SameFound(s, t, c, Listed(s.hall, w.room), fp);
    }
  }

  lemma OneMessagePlace(s: Relay, p: Policy, c: Conn, room: string, m: Payload, now: int)
    requires c in s.clients && s.clients[c].roomId == Some(room) && m.to.Some?
    ensures var t := SentMessage(s, p, c, room, m, now);
            SamePlace(s, t, c) && t.guards == Guarded(s.guards, p, s.clients[c].fingerprint, m, now)
  {
  }

  lemma RefusalIsSilent(s: Relay, p: Policy, c: Conn, d: Conn)
    requires c in s.clients && d != c
    ensures SentTo(Fail(s, p, c).hall, d) == SentTo(s.hall, d)
  {
  }

  lemma ForwardReaches(w: World, s: Relay, c: Conn, m: Payload, d: Conn)
    requires w.room in s.hall.rooms && m.to.Some? && d != c
    ensures SentTo(ForwardedTo(s, w.room, m.to.value, m.body).hall, d)
            == SentTo(s.hall, d) + if Reach(w, s, c, m.to.value) == Some(d) then [Direct(m.body)] else []
  {
    assert SentTo(s.hall, d) + [] == SentTo(s.hall, d);
  }

  /** What one message does to the socket of somebody other than its sender. */
  lemma OneMessage(w: World, s: Relay, c: Conn, name: string, m: Payload, now: int, d: Conn)
    requires Stands(w, s, c, name) && m.to.Some? && d != c
    ensures var t := SentMessage(s, w.policy, c, w.room, m, now);
            && Stands(w, t, c, name) && (forall fp :: Reach(w, t, c, fp) == Reach(w, s, c, fp))
            && t.guards == Guarded(s.guards, w.policy, Some(name), m, now)
            && Writes(s, t, d)
               == if Passes(s.guards, w.policy, Some(name), m, now) && Reach(w, s, c, m.to.value) == Some(d) then
                    [Direct(m.body)]
                  else []
  {
    var t := SentMessage(s, w.policy, c, w.room, m, now);
    var u := s.(guards := Guarded(s.guards, w.policy, Some(name), m, now));
    OneMessagePlace(s, w.policy, c, w.room, m, now);
    SameReach(w, s, t, c);
    if Passes(s.guards, w.policy, Some(name), m, now) {
      assert Reach(w, u, c, m.to.value) == Reach(w, s, c, m.to.value);
      ForwardReaches(w, u, c, m, d);
    } else {
      RefusalIsSilent(u, w.policy, c, d);
    }
  }

  /** Of several messages to single recipients, a socket gets exactly those that pass and are for it, in order. */
  lemma {:induction false} ManyMessages(w: World, s: Relay, c: Conn, name: string, es: seq<Event>, d: Conn)
    requires Stands(w, s, c, name) && Undisturbed(w, s, c, name, es) && d != c
    ensures Added(s, w.policy, es, c, d) == Gets(w, s, c, name, s.guards, Sendings(es, c), d)
    decreases |es|
  {
    if es != [] {
      var t, rest := Next(s, w.policy, es[0]), Sendings(es[1..], c);
      Signed(w, t, c, name, es[1..]);
      if Ours(es[0], c) {
        OneMessage(w, s, c, name, es[0].m, es[0].time, d);
        ManyMessages(w, t, c, name, es[1..], d);
        SameGets(w, s, t, c, name, t.guards, t.guards, rest, d);
        assert Sendings(es, c)[0] == Sending(es[0].m, es[0].time) && Sendings(es, c)[1..] == rest;
      } else {
        ManyMessages(w, t, c, name, es[1..], d);
        SameGets(w, s, t, c, name, s.guards, t.guards, rest, d);
        assert Sendings(es, c) == rest;
        assert Added(s, w.policy, es, c, d) == Added(t, w.policy, es[1..], c, d);
      }
    }
  }

  lemma {:induction false} Signed(w: World, s: Relay, c: Conn, name: string, es: seq<Event>)
    requires Undisturbed(w, s, c, name, es)
    ensures forall i :: 0 <= i < |Sendings(es, c)| ==>
              Sendings(es, c)[i].m.sender == name && Sendings(es, c)[i].m.to.Some?
    decreases |es|
  {
    if es != [] {
      Signed(w, Next(s, w.policy, es[0]), c, name, es[1..]);
    }
  }

  /** If only the i-th message is for d, then d gets it or nothing. */
  lemma {:induction false} GetsItsOwn(w: World, s: Relay, c: Conn, name: string, g: Guards, xs: seq<Sending>, d: Conn,
                                      i: nat)
    requires i < |xs|
    requires forall j :: 0 <= j < |xs| ==>
               xs[j].m.to.Some? && (Reach(w, s, c, xs[j].m.to.value) == Some(d) <==> j == i)
    ensures Gets(w, s, c, name, g, xs, d)
            == if Passes(GuardedAll(g, w.policy, Some(name), xs[..i]), w.policy, Some(name), xs[i].m, xs[i].time) then
                 [Direct(xs[i].m.body)]
               else []
    decreases |xs|
  {
    var h := Guarded(g, w.policy, Some(name), xs[0].m, xs[0].time);
    if i == 0 {
      GetsNothing(w, s, c, name, h, xs[1..], d);
    } else {
      GetsItsOwn(w, s, c, name, h, xs[1..], d, i - 1);
      assert xs[..i][1..] == xs[1..][..i - 1];
    }
  }

  lemma {:induction false} GetsNothing(w: World, s: Relay, c: Conn, name: string, g: Guards, xs: seq<Sending>, d: Conn)
    requires forall j :: 0 <= j < |xs| ==> xs[j].m.to.Some? && Reach(w, s, c, xs[j].m.to.value) != Some(d)
    ensures Gets(w, s, c, name, g, xs, d) == []
    decreases |xs|
  {
    if xs != [] {
      GetsNothing(w, s, c, name, Guarded(g, w.policy, Some(name), xs[0].m, xs[0].time), xs[1..], d);
    }
  }

  // What is calm.

  /** The event speaks for the name: its client bears it, or its message is signed with it. */
  predicate Uses(s: Relay, e: Event, name: string) {
    match e
    case Send(c, _, m, _) => m.sender == name || (c in s.clients && s.clients[c].fingerprint == Some(name))
    case Leave(c, _) => c in s.clients && s.clients[c].fingerprint == Some(name)
    case Disconnect(c, _) => c in s.clients && s.clients[c].fingerprint == Some(name)
    case _ => false
  }

  lemma UnusedLedger(s: Relay, p: Policy, e: Event, name: string)
    requires Enabled(s, e) && !Uses(s, e, name)
    ensures SameLedger(s.guards, Next(s, p, e).guards, name)
  {
    match e
    case Create(_, _, _, _, _) =>
    case Join(_, _, _, _, _) =>
    case Send(c, room, m, now) => UnusedSend(s, p, c, room, m, now, name);
    case _ =>
  }

  lemma UnusedSend(s: Relay, p: Policy, c: Conn, room: string, m: Payload, now: int, name: string)
    requires c in s.clients && m.sender != name && s.clients[c].fingerprint != Some(name)
    ensures SameLedger(s.guards, SentMessage(s, p, c, room, m, now).guards, name)
  {
    UnusedGuards(s.guards, p, s.clients[c].fingerprint, m, now, name);
    SendGuards(s, p, c, room, m, now);
  }

  lemma SendGuards(s: Relay, p: Policy, c: Conn, room: string, m: Payload, now: int)
    requires c in s.clients
    ensures SentMessage(s, p, c, room, m, now).guards
            == if s.clients[c].roomId != Some(room) then s.guards
               else Guarded(s.guards, p, s.clients[c].fingerprint, m, now)
  {
  }

  lemma UnusedGuards(g: Guards, p: Policy, fp: Option<string>, m: Payload, now: int, name: string)
    requires m.sender != name && fp != Some(name)
    ensures SameLedger(g, Guarded(g, p, fp, m, now), name)
  {
  }

  lemma {:induction false} ListedFound(w: World, n: H.Net, s: Relay, m: H.Net, t: Relay, list: seq<Conn>, fp: string)
    requires Matches(w, n, s) && Matches(w, m, t)
    requires forall d :: d in list ==> d in n.members && d in m.members && m.links[d].owner == n.links[d].owner
    ensures FindClient(t.clients, t.departed, list, fp) == FindClient(s.clients, s.departed, list, fp)
  {
    if list != [] {
      var d := list[0];
      assert d in list && forall x :: x in list[1..] ==> x in list;
      assert d in s.clients && RecordMatches(w, n.links[d], s.clients[d]);
      assert d in t.clients && RecordMatches(w, m.links[d], t.clients[d]);
      ListedFound(w, n, s, m, t, list[1..], fp);
    }
  }

  /** Whoever is listed on both sides, open on both or neither, is reached alike. */
  lemma MatchedReach(w: World, n: H.Net, s: Relay, m: H.Net, t: Relay, c: nat)
    requires Matches(w, n, s) && Matches(w, m, t) && m.members == n.members
    requires forall d :: d in n.members ==>
               d < |m.links| && m.links[d].owner == n.links[d].owner && m.links[d].open == n.links[d].open
    ensures forall fp :: Reach(w, t, c, fp) == Reach(w, s, c, fp)
  {
    forall fp ensures Reach(w, t, c, fp) == Reach(w, s, c, fp) {
      ListedFound(w, n, s, m, t, n.members, fp);
    }
  }

  /**
   What other members say, what clients of other rooms do, and sweeps that spare
   the room are calm, as long as they do not speak for the name.
   */
  lemma OthersAreCalm(w: World, n: H.Net, s: Relay, v: Move, c: nat, name: string)
    requires Sound(w) && Matches(w, n, s) && Fits(w, n, s, v) && (v.Aside? || v.Foreign?)
    requires c in n.members && Stands(w, s, c, name) && !Uses(s, v.event, name)
    ensures Calm(w, s, Next(s, w.policy, v.event), c, name)
  {
    var m, t := NetAfter(w, n, v), Next(s, w.policy, v.event);
    MoveKeeps(w, n, s, v);
    UnusedLedger(s, w.policy, v.event, name);
    MatchedReach(w, n, s, m, t, c);
    assert c in t.clients && RecordMatches(w, m.links[c], t.clients[c]) && RecordMatches(w, n.links[c], s.clients[c]);
    assert c in Listed(t.hall, w.room);
  }

  /** Moves in which others speak and the client sends signed messages to single recipients. */
  ghost predicate Chatter(w: World, n: H.Net, s: Relay, vs: seq<Move>, c: nat, name: string)
    decreases |vs|
  {
    vs == []
    || (&& Matches(w, n, s) && Fits(w, n, s, vs[0]) && (vs[0].Aside? || vs[0].Foreign?)
        && (if Ours(vs[0].event, c) then
              vs[0].event.room == w.room && vs[0].event.m.to.Some? && vs[0].event.m.sender == name
            else !Uses(s, vs[0].event, name))
        && Chatter(w, NetAfter(w, n, vs[0]), RelayAfter(w, s, vs[0]), vs[1..], c, name))
  }

  function EventsOf(vs: seq<Move>): seq<Event>
    requires forall i :: 0 <= i < |vs| ==> !vs[i].Local?
  {
    if vs == [] then [] else [vs[0].event] + EventsOf(vs[1..])
  }

  lemma {:induction false} ChatterIsUndisturbed(w: World, n: H.Net, s: Relay, vs: seq<Move>, c: nat, name: string)
    requires Sound(w) && Chatter(w, n, s, vs, c, name) && c in n.members && Stands(w, s, c, name)
    requires forall i :: 0 <= i < |vs| ==> !vs[i].Local?
    ensures Undisturbed(w, s, c, name, EventsOf(vs))
    decreases |vs|
  {
    if vs != [] {
      var m, t := NetAfter(w, n, vs[0]), RelayAfter(w, s, vs[0]);
      ChatterStands(w, n, s, vs, c, name);
      ChatterIsUndisturbed(w, m, t, vs[1..], c, name);
      assert EventsOf(vs)[0] == vs[0].event && EventsOf(vs)[1..] == EventsOf(vs[1..]);
    }
  }

  lemma ChatterStands(w: World, n: H.Net, s: Relay, vs: seq<Move>, c: nat, name: string)
    requires Sound(w) && Chatter(w, n, s, vs, c, name) && c in n.members && Stands(w, s, c, name) && vs != []
    ensures c in NetAfter(w, n, vs[0]).members && Stands(w, RelayAfter(w, s, vs[0]), c, name)
    ensures !Ours(vs[0].event, c) ==> Calm(w, s, RelayAfter(w, s, vs[0]), c, name)
  {
    if Ours(vs[0].event, c) {
      OneMessage(w, s, c, name, vs[0].event.m, vs[0].event.time, c + 1);
    } else {
      OthersAreCalm(w, n, s, vs[0], c, name);
    }
  }

  // The copies of a text in a quiet room.

  /** The frame of a copy; `wire` spells out what is forwarded to its recipient. */
  function PayloadOf(w: World, copy: D.Message, wire: D.Message -> string): Payload
    requires copy.sender < |w.names| && copy.recipient < |w.names|
  {
    Payload(Some(w.names[copy.recipient]), w.names[copy.sender], copy.nonce, NoFile, wire(copy))
  }

  ghost predicate Known(w: World, copies: seq<D.Message>) {
    forall i :: 0 <= i < |copies| ==> copies[i].sender < |w.names| && copies[i].recipient < |w.names|
  }

  /** What client c sends in the run are the copies, in order and at times that do not decrease. */
  ghost predicate Carries(w: World, c: Conn, copies: seq<D.Message>, wire: D.Message -> string, es: seq<Event>)
    requires Known(w, copies)
  {
    && Timely(Sendings(es, c)) && |Sendings(es, c)| == |copies|
    && forall i :: 0 <= i < |copies| ==> Sendings(es, c)[i].m == PayloadOf(w, copies[i], wire)
  }

  /** The relay finds whom Delivery names. */
  lemma RecipientIsForward(w: World, n: H.Net, s: Relay, c: nat, copy: D.Message)
    requires Sound(w) && Matches(w, n, s) && H.Quiescent(n) && copy.recipient < |w.names|
    ensures D.Forward(n, copy) != Some(c) ==> Reach(w, s, c, w.names[copy.recipient]) == D.Forward(n, copy)
    ensures D.Forward(n, copy) == Some(c) ==> Reach(w, s, c, w.names[copy.recipient]) == None
  {
    SameClientFound(w, n, s, n.members, copy.recipient);
    if D.FindClient(n, n.members, copy.recipient).Some? {
      FoundIsListed(n, n.members, copy.recipient);
      var d := D.FindClient(n, n.members, copy.recipient).value;
      assert H.Quiet(n, d) && AtHome(w, n, d);
    }
  }

  /** What has been said of the situation: a quiet room in which browsers and relay match, and member c of it. */
  ghost predicate InPlace(w: World, n: H.Net, s: Relay, c: nat) {
    && Sound(w) && Matches(w, n, s) && H.Quiescent(n) && HI.Shape(n) && c in n.members
    && c < |n.links| && n.links[c].owner < |w.names| && Stands(w, s, c, w.names[n.links[c].owner])
  }

  lemma MakeReady(w: World, n: H.Net, s: Relay, c: nat)
    requires Sound(w) && Matches(w, n, s) && H.Quiescent(n) && HI.Shape(n) && c in n.members
    ensures InPlace(w, n, s, c)
  {
    assert c in s.clients && RecordMatches(w, n.links[c], s.clients[c]);
    assert w.names[n.links[c].owner] in w.names;
  }

  /** Member d gets its own copy if that passes the guards, and nothing otherwise. */
  lemma OwnCopy(w: World, n: H.Net, s: Relay, c: nat, copies: seq<D.Message>, wire: D.Message -> string,
                es: seq<Event>, d: nat, i: nat)
    requires InPlace(w, n, s, c) && Known(w, copies) && d in n.members && d != c && i < |copies|
    requires Undisturbed(w, s, c, w.names[n.links[c].owner], es) && Carries(w, c, copies, wire, es)
    requires forall j :: 0 <= j < |copies| ==> (D.Forward(n, copies[j]) == Some(d) <==> j == i)
    ensures var xs, fp := Sendings(es, c), Some(w.names[n.links[c].owner]);
            Added(s, w.policy, es, c, d)
            == if Passes(GuardedAll(s.guards, w.policy, fp, xs[..i]), w.policy, fp, xs[i].m, xs[i].time) then
                 [Direct(wire(copies[i]))]
               else []
  {
    var xs, name := Sendings(es, c), w.names[n.links[c].owner];
    forall j | 0 <= j < |xs|
      ensures xs[j].m.to.Some? && (Reach(w, s, c, xs[j].m.to.value) == Some(d) <==> j == i)
    {
      RecipientIsForward(w, n, s, c, copies[j]);
    }
    ManyMessages(w, s, c, name, es, d);
    GetsItsOwn(w, s, c, name, s.guards, xs, d, i);
  }

  /** Every copy goes to another member, and no two to the same. */
  ghost predicate Addressed(n: H.Net, c: nat, copies: seq<D.Message>) {
    forall i :: 0 <= i < |copies| ==>
      && D.Forward(n, copies[i]).Some? && D.Forward(n, copies[i]).value in n.members
      && D.Forward(n, copies[i]).value != c
      && forall j :: 0 <= j < |copies| ==> (D.Forward(n, copies[j]) == D.Forward(n, copies[i]) <==> j == i)
  }

  /** Every other member has one copy for itself, and can read it. */
  ghost predicate Readable<A(!new), S(!new)>(k: D.Crypto<A, S>, n: H.Net, privs: Fp -> A, c: nat,
                                             copies: seq<D.Message>, text: string) {
    forall d :: d in n.members && d != c ==>
      exists i: nat :: i < |copies| && D.GetsOnly(k, n, privs, copies, i, d, text)
  }

  /** What client c sends puts one frame on the socket of member d: the copy that only it gets and reads. */
  ghost predicate GetsText<A(!new), S(!new)>(k: D.Crypto<A, S>, n: H.Net, privs: Fp -> A, copies: seq<D.Message>,
                                             wire: D.Message -> string, s: Relay, p: Policy, es: seq<Event>, c: nat,
                                             d: nat, text: string)
    requires Possible(s, p, es)
  {
    exists i :: 0 <= i < |copies| && D.GetsOnly(k, n, privs, copies, i, d, text)
                && Added(s, p, es, c, d) == [Direct(wire(copies[i]))]
  }

  /** Every other member does. */
  ghost predicate AllGet<A(!new), S(!new)>(k: D.Crypto<A, S>, n: H.Net, privs: Fp -> A, c: nat, copies: seq<D.Message>,
                                           wire: D.Message -> string, s: Relay, p: Policy, es: seq<Event>, text: string)
    requires Possible(s, p, es)
  {
    forall d :: d in n.members && d != c ==> GetsText(k, n, privs, copies, wire, s, p, es, c, d, text)
  }

  lemma AllGetText<A(!new), S(!new)>(w: World, k: D.Crypto<A, S>, n: H.Net, s: Relay, privs: Fp -> A, c: nat,
                                     copies: seq<D.Message>, wire: D.Message -> string, es: seq<Event>, text: string)
    requires InPlace(w, n, s, c) && Known(w, copies) && Readable(k, n, privs, c, copies, text)
    requires Undisturbed(w, s, c, w.names[n.links[c].owner], es) && Carries(w, c, copies, wire, es)
    requires AllPass(s.guards, w.policy, Some(w.names[n.links[c].owner]), Sendings(es, c))
    ensures AllGet(k, n, privs, c, copies, wire, s, w.policy, es, text)
  {
    forall d | d in n.members && d != c ensures GetsText(k, n, privs, copies, wire, s, w.policy, es, c, d, text) {
      var i: nat :| i < |copies| && D.GetsOnly(k, n, privs, copies, i, d, text);
      OwnCopy(w, n, s, c, copies, wire, es, d, i);
      NoneRefused(s.guards, w.policy, Some(w.names[n.links[c].owner]), Sendings(es, c), i);
    }
  }

  lemma SomebodyMisses(w: World, n: H.Net, s: Relay, c: nat, copies: seq<D.Message>, wire: D.Message -> string,
                       es: seq<Event>) returns (d: nat)
    requires InPlace(w, n, s, c) && Known(w, copies) && Addressed(n, c, copies)
    requires Undisturbed(w, s, c, w.names[n.links[c].owner], es) && Carries(w, c, copies, wire, es)
    requires !AllPass(s.guards, w.policy, Some(w.names[n.links[c].owner]), Sendings(es, c))
    ensures d in n.members && d != c && Added(s, w.policy, es, c, d) == []
  {
    var i := SomeRefused(s.guards, w.policy, Some(w.names[n.links[c].owner]), Sendings(es, c));
    d := D.Forward(n, copies[i]).value;
    OwnCopy(w, n, s, c, copies, wire, es, d, i);
  }

  lemma CopiesAddressed(n: H.Net, c: nat, copies: seq<D.Message>, to: seq<Fp>)
    requires HI.Shape(n) && H.Quiescent(n) && |copies| == |to| && Distinct(to)
    requires forall i :: 0 <= i < |copies| ==> copies[i].recipient == to[i] && to[i] in H.Others(n, c)
    ensures Addressed(n, c, copies)
  {
    forall i | 0 <= i < |copies|
      ensures D.Forward(n, copies[i]).Some? && D.Forward(n, copies[i]).value in n.members
      ensures D.Forward(n, copies[i]).value != c && D.Forward(n, copies[i]).value < |n.links|
      ensures n.links[D.Forward(n, copies[i]).value].owner == to[i]
    {
      var d := D.ForwardToOther(n, c, copies[i]);
    }
  }

  /** The copies that leave the browser of a member of a quiet room, and whom they are for. */
  lemma CopiesOf<A(!new), S(!new)>(w: World, k: D.Crypto<A, S>, n: H.Net, s: Relay, privs: Fp -> A, c: nat,
                                   nonces: nat -> seq<Byte>, text: string) returns (copies: seq<D.Message>)
    requires InPlace(w, n, s, c) && HI.Inv(n) && D.Lawful(k) && D.OwnKeys(k, n, privs) && |w.room| % 2 == 0
    requires H.Agreement(n)
    ensures copies == D.Outgoing(k, SenderOf(w, n, privs, c), nonces, text)
    ensures Known(w, copies) && Addressed(n, c, copies) && Readable(k, n, privs, c, copies, text)
    ensures forall i :: 0 <= i < |copies| ==> copies[i].sender == n.links[c].owner
  {
    var to;
    copies, to := D.CopiesGoToOthers(k, n, SenderOf(w, n, privs, c), c, nonces, text);
    forall i | 0 <= i < |copies|
      ensures copies[i].recipient == to[i] && to[i] in H.Others(n, c)
      ensures copies[i].sender < |w.names| && copies[i].recipient < |w.names|
    {
    }
    CopiesAddressed(n, c, copies, to);
    forall d | d in n.members && d != c
      ensures exists i: nat :: i < |copies| && D.GetsOnly(k, n, privs, copies, i, d, text)
    {
      var i := D.GetsOne(k, n, privs, c, d, w.room, nonces, text, copies, to);
    }
  }

  /** The browser of member c, as it sends. */
  function SenderOf<A>(w: World, n: H.Net, privs: Fp -> A, c: nat): D.Sender<A>
    requires H.Owned(n, c)
  {
    D.Sender(privs(n.links[c].owner), n.links[c].owner, H.TabOf(n, c), w.room)
  }

  /**
   Whatever run of the relay follows that carries the copies and does not disturb
   them: every other member gets its copy exactly if the guards have room for all.
   */
  ghost predicate TakenAsRoomAllows<A(!new), S(!new)>(w: World, k: D.Crypto<A, S>, n: H.Net, s: Relay, privs: Fp -> A,
                                                      c: nat, copies: seq<D.Message>, wire: D.Message -> string,
                                                      es: seq<Event>, text: string)
    requires c < |n.links| && n.links[c].owner < |w.names| && Known(w, copies)
  {
    var name := w.names[n.links[c].owner];
    Undisturbed(w, s, c, name, es) && Carries(w, c, copies, wire, es) ==>
      (AllGet(k, n, privs, c, copies, wire, s, w.policy, es, text)
       <==> HasRoom(BucketOf(s.guards, name), Times(Sendings(es, c)), w.policy.rate)
            && NoncesOk(s.guards, w.policy, Sendings(es, c)))
  }

  lemma TakenExactly<A(!new), S(!new)>(w: World, k: D.Crypto<A, S>, n: H.Net, s: Relay, privs: Fp -> A, c: nat,
                                       copies: seq<D.Message>, wire: D.Message -> string, es: seq<Event>, text: string)
    requires InPlace(w, n, s, c) && Known(w, copies)
    requires Addressed(n, c, copies) && Readable(k, n, privs, c, copies, text)
    ensures TakenAsRoomAllows(w, k, n, s, privs, c, copies, wire, es, text)
  {
    var name := w.names[n.links[c].owner];
    if Undisturbed(w, s, c, name, es) && Carries(w, c, copies, wire, es) {
      PassingDecides(w, k, n, s, privs, c, copies, wire, es, text);
      RoomDecides(w, s.guards, name, c, copies, wire, es);
    }
  }

  /** A text has no file. */
  lemma RoomDecides(w: World, g: Guards, name: string, c: nat, copies: seq<D.Message>, wire: D.Message -> string,
                    es: seq<Event>)
    requires Known(w, copies) && Carries(w, c, copies, wire, es) && name != ""
    ensures AllPass(g, w.policy, Some(name), Sendings(es, c))
            <==> HasRoom(BucketOf(g, name), Times(Sendings(es, c)), w.policy.rate)
                 && NoncesOk(g, w.policy, Sendings(es, c))
  {
    AllPassExactly(g, w.policy, name, Sendings(es, c));
  }

  lemma PassingDecides<A(!new), S(!new)>(w: World, k: D.Crypto<A, S>, n: H.Net, s: Relay, privs: Fp -> A, c: nat,
                                         copies: seq<D.Message>, wire: D.Message -> string, es: seq<Event>,
                                         text: string)
    requires InPlace(w, n, s, c) && Known(w, copies)
    requires Addressed(n, c, copies) && Readable(k, n, privs, c, copies, text)
    requires Undisturbed(w, s, c, w.names[n.links[c].owner], es) && Carries(w, c, copies, wire, es)
    ensures AllGet(k, n, privs, c, copies, wire, s, w.policy, es, text)
            <==> AllPass(s.guards, w.policy, Some(w.names[n.links[c].owner]), Sendings(es, c))
  {
    if AllPass(s.guards, w.policy, Some(w.names[n.links[c].owner]), Sendings(es, c)) {
      AllGetText(w, k, n, s, privs, c, copies, wire, es, text);
    } else {
      var d := SomebodyMisses(w, n, s, c, copies, wire, es);
      assert !GetsText(k, n, privs, copies, wire, s, w.policy, es, c, d, text);
    }
  }

  /**
   A text in a quiet room, over the whole system. After any joint run that has
   come to a quiet room, the relay takes the sender's copies one after the other,
   at times that do not decrease and with anything in between that leaves the
   sender and the reached sockets as they are. Every other member gets exactly
   its own copy on its socket, and reads the text from it, exactly if each window
   of the sender's message limit has room for the copies that fall into it and
   the replay guard refuses none of their nonces.
   */
  lemma TextReachesAllExactly<A(!new), S(!new)>(w: World, k: D.Crypto<A, S>, start: H.Net, vs: seq<Move>,
                                                privs: Fp -> A, n: H.Net, c: nat, nonces: nat -> seq<Byte>,
                                                text: string, wire: D.Message -> string, es: seq<Event>)
    returns (copies: seq<D.Message>)
    requires Sound(w) && FreshStart(w, start) && JointRun(w, start, EMPTY, vs)
    requires H.DisciplinedRun(start, StepsOf(w, vs)) && n == H.After(start, StepsOf(w, vs))
    requires H.Quiescent(n) && c in n.members && D.Lawful(k) && D.OwnKeys(k, n, privs) && |w.room| % 2 == 0
    ensures H.Owned(n, c) && n.links[c].owner < |w.names| && Known(w, copies)
    ensures copies == D.Outgoing(k, SenderOf(w, n, privs, c), nonces, text)
    ensures TakenAsRoomAllows(w, k, n, RelayEnd(w, start, EMPTY, vs), privs, c, copies, wire, es, text)
  {
    var s := RelayEnd(w, start, EMPTY, vs);
    StartMatches(w, start);
    JointRunIsARun(w, start, EMPTY, vs);
    HI.InitialInv(start);
    P.RunKeeps(start, StepsOf(w, vs));
    HI.QuiescentAgreement(n);
    MakeReady(w, n, s, c);
    copies := CopiesOf(w, k, n, s, privs, c, nonces, text);
    TakenExactly(w, k, n, s, privs, c, copies, wire, es, text);
  }

  // All copies at one time, and nothing in between.

  function Sends(c: Conn, room: string, ms: seq<Payload>, now: int): seq<Event> {
    if ms == [] then [] else [Send(c, room, ms[0], now)] + Sends(c, room, ms[1..], now)
  }

  lemma {:induction false} SendsAreSent(c: Conn, room: string, ms: seq<Payload>, now: int)
    ensures |Sendings(Sends(c, room, ms, now), c)| == |ms|
    ensures forall i :: 0 <= i < |ms| ==> Sendings(Sends(c, room, ms, now), c)[i] == Sending(ms[i], now)
  {
    if ms != [] {
      var es := Sends(c, room, ms, now);
      SendsAreSent(c, room, ms[1..], now);
      assert es[0] == Send(c, room, ms[0], now) && es[1..] == Sends(c, room, ms[1..], now);
      assert Sendings(es, c) == [Sending(ms[0], now)] + Sendings(es[1..], c);
    }
  }

  lemma {:induction false} SendsAreUndisturbed(w: World, s: Relay, c: Conn, name: string, ms: seq<Payload>, now: int)
    requires Stands(w, s, c, name)
    requires forall i :: 0 <= i < |ms| ==> ms[i].to.Some? && ms[i].to.value != "" && ms[i].sender == name
    ensures Undisturbed(w, s, c, name, Sends(c, w.room, ms, now))
    decreases |ms|
  {
    if ms != [] {
      var es := Sends(c, w.room, ms, now);
      OneMessage(w, s, c, name, ms[0], now, c + 1);
      SendsAreUndisturbed(w, SentMessage(s, w.policy, c, w.room, ms[0], now), c, name, ms[1..], now);
      assert es[0] == Send(c, w.room, ms[0], now) && es[1..] == Sends(c, w.room, ms[1..], now);
    }
  }

  function Payloads(w: World, copies: seq<D.Message>, wire: D.Message -> string): (ms: seq<Payload>)
    requires Known(w, copies)
    ensures |ms| == |copies| && forall i :: 0 <= i < |ms| ==> ms[i] == PayloadOf(w, copies[i], wire)
  {
    seq(|copies|, i requires 0 <= i < |copies| => PayloadOf(w, copies[i], wire))
  }

  /** Such a run carries the copies undisturbed, and there is room exactly if the live bucket, or a new one, has it. */
  lemma CopiesAtOnce(w: World, n: H.Net, s: Relay, c: nat, copies: seq<D.Message>, wire: D.Message -> string, now: int)
    requires InPlace(w, n, s, c) && Known(w, copies)
    requires forall i :: 0 <= i < |copies| ==> copies[i].sender == n.links[c].owner
    ensures var name, es := w.names[n.links[c].owner], Sends(c, w.room, Payloads(w, copies, wire), now);
            && Undisturbed(w, s, c, name, es) && Carries(w, c, copies, wire, es)
            && (HasRoom(BucketOf(s.guards, name), Times(Sendings(es, c)), w.policy.rate) <==>
                  match RL.Live(s.guards.buckets, name, now, w.policy.rate)
                  case None => |copies| <= RL.Quota(w.policy.rate)
                  case Some(b) => copies == [] || b.count + |copies| <= w.policy.rate.limit)
  {
    var name, ms := w.names[n.links[c].owner], Payloads(w, copies, wire);
    forall i | 0 <= i < |ms| ensures ms[i].to.Some? && ms[i].to.value != "" && ms[i].sender == name {
      assert w.names[copies[i].recipient] in w.names;
    }
    SendsAreSent(c, w.room, ms, now);
    SendsAreUndisturbed(w, s, c, name, ms, now);
    RoomAtOnce(s.guards, name, Times(Sendings(Sends(c, w.room, ms, now), c)), now, w.policy.rate);
  }
}
