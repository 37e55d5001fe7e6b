/**
 The inductive invariant of the handshake. It speaks of what a session will be
 once the frames already in the browser's downlink are handled: that value does
 not change when the browser handles a frame, so only the relay's broadcasts
 and the browser's own announcements matter.
 */
module HandshakeInvariant {
  import opened Wrappers
  import opened PeerSession
  import opened Page
  import opened Handshake

  /** Whether the event makes the browser announce its key on account of peer x. */
  predicate Prompts(e: Event, x: Fp, o: Option<Session>) {
    (e.Joined? && e.fp == x) || (e.KeyFrom? && e.fp == x && e.key.Some? && !Sent(o))
  }

  predicate Owed(q: seq<Event>, x: Fp, o: Option<Session>) {
    q != [] && (Prompts(q[0], x, o) || Owed(q[1..], x, Advance(q[0], x, o)))
  }

  lemma {:induction false} SettleAppend(q: seq<Event>, e: Event, x: Fp, o: Option<Session>)
    ensures Settle(q + [e], x, o) == Advance(e, x, Settle(q, x, o))
    ensures Owed(q + [e], x, o) <==> Owed(q, x, o) || Prompts(e, x, Settle(q, x, o))
  {
    if q == [] {
      assert q + [e] == [e];
    } else {
      assert (q + [e])[1..] == q[1..] + [e];
      SettleAppend(q[1..], e, x, Advance(q[0], x, o));
    }
  }

  /** A session that will count as sent does so already, or an announcement is owed for it. */
  lemma {:induction false} SentOrOwed(q: seq<Event>, x: Fp, o: Option<Session>)
    requires Sent(Settle(q, x, o)) && RoomClosed !in q
    ensures Sent(o) || Owed(q, x, o)
  {
    if q != [] {
      assert q[0] in q && forall e :: e in q[1..] ==> e in q;
      SentOrOwed(q[1..], x, Advance(q[0], x, o));
    }
  }

  lemma {:induction false} SettleNotices(q: seq<Event>, x: Fp, o: Option<Session>)
    requires forall e :: e in q ==> e == Notice
    ensures Settle(q, x, o) == o && !Owed(q, x, o)
  {
    if q != [] {
      assert q[0] in q && forall e :: e in q[1..] ==> e in q;
      SettleNotices(q[1..], x, o);
    }
  }

  /** Whether x will have been met: the last arrival or departure of x in the queue, or what is known already. */
  predicate Met(q: seq<Event>, x: Fp, known: bool) {
    if q == [] then known
    else
      Met(q[1..], x,
          if q[0].Joined? && q[0].fp == x then true else if q[0].Left? && q[0].fp == x then false else known)
  }

  lemma {:induction false} MetAppend(q: seq<Event>, e: Event, x: Fp, known: bool)
    ensures Met(q + [e], x, known) <==> (e.Joined? && e.fp == x) || (Met(q, x, known) && !(e.Left? && e.fp == x))
  {
    if q == [] {
      assert q + [e] == [e];
    } else {
      assert (q + [e])[1..] == q[1..] + [e];
      MetAppend(q[1..], e, x,
                if q[0].Joined? && q[0].fp == x then true else if q[0].Left? && q[0].fp == x then false else known);
    }
  }

  /** Whoever will have been met will count as sent. */
  lemma {:induction false} MetIsSent(q: seq<Event>, x: Fp, o: Option<Session>)
    requires Met(q, x, Sent(o)) && RoomClosed !in q
    ensures Sent(Settle(q, x, o))
  {
    if q != [] {
      assert q[0] in q && forall e :: e in q[1..] ==> e in q;
      if Met(q[1..], x, Sent(Advance(q[0], x, o))) {
        MetIsSent(q[1..], x, Advance(q[0], x, o));
      } else {
        MetMonotone(q[1..], x);
      }
    }
  }

  lemma {:induction false} MetMonotone(q: seq<Event>, x: Fp)
    ensures Met(q, x, false) ==> Met(q, x, true)
    ensures Met(q, x, false) ==> Joined(x) in q
  {
    if q != [] {
      assert q[0] in q && forall e :: e in q[1..] ==> e in q;
      MetMonotone(q[1..], x);
    }
  }

  // Uplinks.

  /** The frames after the last request to enter, or all of them. */
  function Since(up: seq<Frame>): seq<Frame> {
    if up == [] then []
    else if EnterRoom in up[1..] then Since(up[1..])
    else if up[0] == EnterRoom then up[1..]
    else up
  }

  lemma SincePopped(up: seq<Frame>)
    requires up != []
    ensures Since(up[1..]) == if EnterRoom in up then Since(up) else up[1..]
  {
    if EnterRoom !in up[1..] {
      SinceAll(up[1..]);
    }
  }

  lemma SinceAll(up: seq<Frame>)
    requires EnterRoom !in up
    ensures Since(up) == up
  {
    assert up != [] ==> up[0] in up && forall f :: f in up[1..] ==> f in up;
  }

  lemma {:induction false} SinceAppended(up: seq<Frame>, f: Frame)
    ensures Since(up + [f]) == if f == EnterRoom then [] else Since(up) + [f]
  {
    if up != [] {
      assert (up + [f])[1..] == up[1..] + [f];
      SinceAppended(up[1..], f);
    } else {
      assert up + [f] == [f];
    }
  }

  // The views of a pair.

  function Announcement(s: Net, c: nat): Frame
    requires Owned(s, c)
  {
    Announce(s.browsers[s.links[c].owner].pub, true)
  }

  /** The browser's key is in its uplink, or its own arrival elsewhere, which it will answer, in its downlink. */
  predicate Told(s: Net, c: nat)
    requires Owned(s, c)
  {
    Announcement(s, c) in s.links[c].up || Joined(s.links[c].owner) in s.links[c].down
  }

  /** The same, or handling what the downlink has about x will put it there. */
  predicate Announcing(s: Net, c: nat, x: Fp)
    requires Owned(s, c)
  {
    Told(s, c) || Owed(s.links[c].down, x, SessionOf(s, c, x))
  }

  /** A joined event of x that still counts is in the downlink, or our key went out to x already. */
  predicate Acquainted(s: Net, c: nat, x: Fp)
    requires Owned(s, c)
  {
    Met(s.links[c].down, x, Sent(SessionOf(s, c, x)))
  }

  /** Members c and d, of which c joined first, when both have settled. */
  ghost predicate PairOk(s: Net, c: nat, d: nat)
    requires Owned(s, c) && Owned(s, d)
  {
    var a, b := s.links[c].owner, s.links[d].owner;
    Seated(s, c) && Seated(s, d) ==>
      && Acquainted(s, c, b)
      && (Ready(Future(s, d, a)) || Announcing(s, c, b))
      && (Sent(Future(s, d, a)) ==> Ready(Future(s, c, b)) || Announcing(s, d, a))
      && (Sent(SessionOf(s, d, a)) ==> Ready(Future(s, c, b)) || Told(s, d))
  }

  /** A fingerprint that no other member bears will not be held as ready. */
  ghost predicate StrangersOk(s: Net, c: nat)
    requires Owned(s, c)
  {
    Seated(s, c) ==> forall x :: x != s.links[c].owner && x !in Others(s, c) ==> !Ready(Future(s, c, x))
  }

  // The local parts.

  ghost predicate Shape(s: Net) {
    && (forall c :: 0 <= c < |s.links| ==> s.links[c].owner < |s.browsers|)
    && (forall fp :: 0 <= fp < |s.browsers| && s.browsers[fp].link.Some? ==>
          s.browsers[fp].link.value < |s.links| && s.links[s.browsers[fp].link.value].owner == fp)
    && (forall c :: c in s.members ==> c < |s.links| && s.links[c].record == Inside)
    && (forall c :: 0 <= c < |s.links| && s.links[c].open ==>
          s.links[c].record == if c in s.members then Inside else Outside)
    && (forall i, j :: 0 <= i < j < |s.members| ==> s.members[i] != s.members[j])
  }

  /**
   Sessions that are READY hold the peer's real key and are usable, and none is
   with the browser itself. No peer is listed twice.
   */
  ghost predicate TabOk(s: Net, me: Fp, t: Tab) {
    Distinct(t.peers) &&
    forall fp :: fp in t.sessions && t.sessions[fp].state == READY ==>
      && fp != me
      && fp < |s.browsers|
      && t.sessions[fp] == Session(READY, Some(s.browsers[fp].pub), true)
      && fp in t.peers
      && fp in t.secrets && t.secrets[fp] == s.browsers[fp].pub
  }

  ghost predicate TabsOk(s: Net) {
    forall fp :: 0 <= fp < |s.browsers| ==> |s.browsers[fp].pub| == KEY_LENGTH && TabOk(s, fp, s.browsers[fp].tab)
  }

  /** Keys are real, and the closing notice is only on a closed connection. */
  ghost predicate EventOk(s: Net, open: bool, e: Event) {
    match e
    case KeyFrom(fp, key) => fp < |s.browsers| && key == Some(s.browsers[fp].pub)
    case RoomClosed => !open
    case _ => true
  }

  ghost predicate DownOk(s: Net, c: nat)
    requires Owned(s, c)
  {
    forall e :: e in s.links[c].down ==> EventOk(s, s.links[c].open, e)
  }

  ghost predicate UpOk(s: Net, c: nat)
    requires Owned(s, c)
  {
    forall f :: f in s.links[c].up && f.Announce? ==> f.key == s.browsers[s.links[c].owner].pub
  }

  /**
   Since its last request to enter, an engaged browser has only announced its
   key, and has done so if it counts anybody as told.
   */
  ghost predicate StageOk(s: Net, c: nat)
    requires Owned(s, c)
  {
    Engaged(s, c) && s.links[c].open ==>
      && (forall f :: f in Since(s.links[c].up) ==> f == Announcement(s, c))
      && (EnterRoom in s.links[c].up ==> forall x :: Sent(SessionOf(s, c, x)) ==> Since(s.links[c].up) != [])
  }

  /** A browser that is connected but in no room is not a member, or is about to leave. */
  ghost predicate AwayOk(s: Net, c: nat)
    requires Owned(s, c)
  {
    var b := s.browsers[s.links[c].owner];
    b.link == Some(c) && s.links[c].open && !b.tab.active ==>
      LeaveRoom in Since(s.links[c].up) || (EnterRoom !in s.links[c].up && c !in s.members)
  }

  ghost predicate LinkOk(s: Net, c: nat)
    requires Owned(s, c)
  {
    DownOk(s, c) && UpOk(s, c) && StageOk(s, c) && AwayOk(s, c)
  }

  ghost predicate LinksOk(s: Net)
    requires Shape(s)
  {
    forall c :: 0 <= c < |s.links| ==> LinkOk(s, c)
  }

  /** Every pair of members, in the order of joining, and every member against the strangers. */
  ghost predicate RoomOk(s: Net)
    requires Shape(s)
  {
    && (forall i, j :: 0 <= i < j < |s.members| ==> PairOk(s, s.members[i], s.members[j]))
    && (forall c :: c in s.members ==> StrangersOk(s, c))
  }

  ghost predicate Local(s: Net) {
    Shape(s) && TabsOk(s) && LinksOk(s)
  }

  ghost predicate Inv(s: Net) {
    Local(s) && RoomOk(s)
  }

  lemma InitialInv(s: Net)
    requires Initial(s)
    ensures Inv(s)
  {
    forall fp | 0 <= fp < |s.browsers| ensures |s.browsers[fp].pub| == KEY_LENGTH && TabOk(s, fp, s.browsers[fp].tab) {
      assert s.browsers[fp] in s.browsers;
    }
    forall fp | 0 <= fp < |s.browsers| ensures s.browsers[fp].link.None? {
      assert s.browsers[fp] in s.browsers;
    }
  }

  lemma QuietPair(s: Net, c: nat, d: nat)
    requires Shape(s) && RoomOk(s) && c in s.members && d in s.members && c != d
    requires Quiet(s, c) && Quiet(s, d)
    ensures Ready(SessionOf(s, c, s.links[d].owner))
  {
    var i, j :| 0 <= i < |s.members| && 0 <= j < |s.members| && s.members[i] == c && s.members[j] == d;
    if i < j {
      assert PairOk(s, s.members[i], s.members[j]);
    } else {
      assert PairOk(s, s.members[j], s.members[i]);
    }
  }

  lemma QuietReadyPeers(s: Net, c: nat)
    requires Shape(s) && TabsOk(s) && RoomOk(s) && Quiescent(s) && c in s.members
    ensures ReadyPeers(TabOf(s, c).sessions) == Others(s, c)
  {
    assert Quiet(s, c) && StrangersOk(s, c) && TabOk(s, s.links[c].owner, TabOf(s, c));
    forall x | x in ReadyPeers(TabOf(s, c).sessions) ensures x in Others(s, c) {
      assert Ready(Future(s, c, x));
    }
    forall x | x in Others(s, c) ensures x in ReadyPeers(TabOf(s, c).sessions) {
      var d :| d in s.members && d != c && s.links[d].owner == x;
      assert Quiet(s, d);
      QuietPair(s, c, d);
    }
  }

  /** The invariant is what makes a quiet room agree. */
  lemma QuiescentAgreement(s: Net)
    requires Inv(s) && Quiescent(s)
    ensures Agreement(s)
  {
    forall c | c in s.members ensures Owned(s, c) && AgreesAt(s, c) {
      QuietReadyPeers(s, c);
      ReadyIsEnough(s, c);
    }
  }

  /** A member that is ready for exactly the others agrees with the room. */
  lemma ReadyIsEnough(s: Net, c: nat)
    requires Shape(s) && TabsOk(s) && c in s.members && ReadyPeers(TabOf(s, c).sessions) == Others(s, c)
    ensures AgreesAt(s, c)
  {
    assert TabOk(s, s.links[c].owner, TabOf(s, c));
    forall x | x in Others(s, c) ensures x in ReadyPeers(TabOf(s, c).sessions) {
    }
  }

  // Where a member's key is.

  /** The key of c's browser is in its uplink, in the downlink of d, or recorded there. */
  ghost predicate Located(s: Net, c: nat, d: nat)
    requires Owned(s, c) && Owned(s, d)
  {
    var a := s.links[c].owner;
    var key := Some(s.browsers[a].pub);
    || Announcement(s, c) in s.links[c].up
    || KeyFrom(a, key) in s.links[d].down
    || SessionOf(s, d, a) == Some(Session(READY, key, true))
  }

  lemma {:induction false} ReadyComesFromKey(q: seq<Event>, x: Fp, o: Option<Session>) returns (e: Event)
    requires Ready(Settle(q, x, o)) && !Ready(o)
    ensures e in q && e.KeyFrom? && e.fp == x
  {
    if Ready(Advance(q[0], x, o)) {
      e := q[0];
    } else {
      e := ReadyComesFromKey(q[1..], x, Advance(q[0], x, o));
    }
  }

  lemma ReadyIsLocated(s: Net, c: nat, d: nat)
    requires Local(s) && c in s.members && d in s.members && Ready(Future(s, d, s.links[c].owner))
    ensures Located(s, c, d)
  {
    var a := s.links[c].owner;
    assert LinkOk(s, d) && TabOk(s, s.links[d].owner, TabOf(s, d));
    if !Ready(SessionOf(s, d, a)) {
      var e := ReadyComesFromKey(s.links[d].down, a, SessionOf(s, d, a));
    }
  }

  lemma {:induction false} MetMeansNotLeft(q: seq<Event>, x: Fp, known: bool)
    requires Met(q, x, known) && Joined(x) !in q
    ensures known && Left(x) !in q
  {
    if q != [] {
      assert q[0] in q && forall e :: e in q[1..] ==> e in q;
      MetMeansNotLeft(q[1..], x, if q[0] == Left(x) then false else known);
    }
  }

  lemma {:induction false} SentIsNotOwed(q: seq<Event>, x: Fp, o: Option<Session>)
    requires Sent(o) && Joined(x) !in q && Left(x) !in q && RoomClosed !in q
    ensures !Owed(q, x, o)
  {
    if q != [] {
      assert q[0] in q && forall e :: e in q[1..] ==> e in q;
      SentIsNotOwed(q[1..], x, Advance(q[0], x, o));
    }
  }

  /**
   The in-flight invariant of two seated members, of which c joined first.
   Whoever counts its key as sent to the other has it in its uplink, in the
   other's downlink or recorded there, unless an arrival that makes it announce
   again is still to be handled: that of d by c, or its own on a second
   connection. And c either counts d or still has d's arrival to handle.
   */
  lemma InFlight(s: Net, i: nat, j: nat)
    requires Inv(s) && i < j < |s.members|
    requires Seated(s, s.members[i]) && Seated(s, s.members[j])
    ensures var c, d := s.members[i], s.members[j];
            var a, b := s.links[c].owner, s.links[d].owner;
            && (Sent(SessionOf(s, d, a)) && Joined(b) !in s.links[d].down ==> Located(s, d, c))
            && (Sent(SessionOf(s, c, b)) && Joined(b) !in s.links[c].down && Joined(a) !in s.links[c].down ==>
                  Located(s, c, d))
            && (!Sent(SessionOf(s, c, b)) ==> Joined(b) in s.links[c].down)
  {
    var c, d := s.members[i], s.members[j];
    var a, b := s.links[c].owner, s.links[d].owner;
    assert PairOk(s, c, d) && LinkOk(s, c);
    if Ready(Future(s, c, b)) {
      ReadyIsLocated(s, d, c);
    }
    if Ready(Future(s, d, a)) {
      ReadyIsLocated(s, c, d);
    }
    MetMonotone(s.links[c].down, b);
    if Sent(SessionOf(s, c, b)) && Joined(b) !in s.links[c].down {
      MetMeansNotLeft(s.links[c].down, b, true);
      SentIsNotOwed(s.links[c].down, b, SessionOf(s, c, b));
    }
  }
}
