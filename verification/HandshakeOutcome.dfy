/**
 What becomes of a room in which nobody comes or goes any more. Whatever has
 happened before, one can tell from the queues and tabs which members will still
 announce their keys, and with that whether the room will agree once it is quiet.
 */
module HandshakeOutcome {
  import opened Wrappers
  import opened PeerSession
  import opened Page
  import opened Handshake
  import opened HandshakeInvariant
  import opened HandshakeProof
  import opened HandshakeProgress

  // What a browser will do by itself.

  /** Handling these events makes the tab announce its key. */
  predicate Answering(q: seq<Event>, t: Tab, me: Fp) {
    q != [] && (Answers(t, me, q[0]) || Answering(q[1..], Handle(t, me, q[0]), me))
  }

  function HandleAll(q: seq<Event>, t: Tab, me: Fp): Tab {
    if q == [] then t else HandleAll(q[1..], Handle(t, me, q[0]), me)
  }

  lemma {:induction false} AnsweringAppend(q: seq<Event>, e: Event, t: Tab, me: Fp)
    ensures Answering(q + [e], t, me) <==> Answering(q, t, me) || Answers(HandleAll(q, t, me), me, e)
  {
    if q == [] {
      assert q + [e] == [e];
    } else {
      assert (q + [e])[1..] == q[1..] + [e];
      AnsweringAppend(q[1..], e, Handle(t, me, q[0]), me);
    }
  }

  lemma {:induction false} HandleAllSettles(q: seq<Event>, t: Tab, me: Fp, x: Fp)
    requires x != me
    ensures Peek(HandleAll(q, t, me).sessions, x) == Settle(q, x, Peek(t.sessions, x))
  {
    if q != [] {
      HandleAdvances(t, me, q[0], x);
      HandleAllSettles(q[1..], Handle(t, me, q[0]), me, x);
    }
  }

  /** What is owed to a peer, or to an own arrival, is an answer. */
  lemma {:induction false} OwedIsAnswered(q: seq<Event>, t: Tab, me: Fp, x: Fp)
    requires x != me
    ensures Owed(q, x, Peek(t.sessions, x)) ==> Answering(q, t, me)
    ensures Joined(me) in q ==> Answering(q, t, me)
  {
    if q != [] {
      HandleAdvances(t, me, q[0], x);
      OwedIsAnswered(q[1..], Handle(t, me, q[0]), me, x);
      assert q == [q[0]] + q[1..];
    }
  }

  /** The browser's key is in its uplink, or handling its downlink will put it there. */
  predicate AnnouncesYet(s: Net, c: nat)
    requires Owned(s, c)
  {
    Announcement(s, c) in s.links[c].up || Answering(s.links[c].down, TabOf(s, c), s.links[c].owner)
  }

  lemma AnnouncingIsAnnounced(s: Net, c: nat, x: Fp)
    requires Owned(s, c) && x != s.links[c].owner && Announcing(s, c, x)
    ensures AnnouncesYet(s, c)
  {
    OwedIsAnswered(s.links[c].down, TabOf(s, c), s.links[c].owner, x);
  }

  // What the members will make each other do.

  /** Within n rounds: by itself, or in answer to the key of a member that it does not count as told. */
  ghost predicate Announces(s: Net, c: nat, n: nat)
    requires Owned(s, c)
    decreases n
  {
    || AnnouncesYet(s, c)
    || (n > 0 && exists d :: Provokes(s, c, d) && Announces(s, d, n - 1))
  }

  /** A key of member d would make member c announce its own. */
  ghost predicate Provokes(s: Net, c: nat, d: nat)
    requires Owned(s, c)
    ensures Provokes(s, c, d) ==> Owned(s, d)
  {
    d in s.members && d != c && Owned(s, d) && !Sent(Future(s, c, s.links[d].owner))
  }

  ghost predicate WillAnnounce(s: Net, c: nat)
    requires Owned(s, c)
  {
    exists n: nat :: Announces(s, c, n)
  }

  /** Member d has a key of member c for good, or will get one. */
  ghost predicate WillHold(s: Net, d: nat, c: nat)
    requires Owned(s, c) && Owned(s, d)
  {
    Ready(Future(s, d, s.links[c].owner)) || WillAnnounce(s, c)
  }

  ghost predicate HoldsNobodyElse(s: Net, c: nat)
    requires Owned(s, c)
  {
    forall x :: x != s.links[c].owner && x !in Others(s, c) ==> !Ready(Future(s, c, x))
  }

  /** Every member will hold every other, and nobody else. */
  ghost predicate WillAgree(s: Net)
    requires Settled(s)
  {
    && (forall c, d :: c in s.members && d in s.members && c != d ==> WillHold(s, d, c))
    && (forall c :: c in s.members ==> HoldsNobodyElse(s, c))
  }

  /** Every member's browser is there, with no request to enter pending. */
  ghost predicate Settled(s: Net)
    ensures Settled(s) ==> forall c :: c in s.members ==> Owned(s, c)
  {
    Local(s) && forall c :: c in s.members ==> Seated(s, c)
  }

  lemma {:induction false} AnnouncesLonger(s: Net, c: nat, n: nat)
    requires Owned(s, c) && Announces(s, c, n)
    ensures Announces(s, c, n + 1)
    decreases n
  {
    if !AnnouncesYet(s, c) {
      var d :| Provokes(s, c, d) && Announces(s, d, n - 1);
      AnnouncesLonger(s, d, n - 1);
    }
  }

  // Steps that change nothing of this.

  /** The members hold and will do by themselves what they did before. */
  ghost predicate SameViews(s: Net, t: Net)
    requires Settled(s) && Settled(t)
  {
    && t.members == s.members
    && (forall c :: c in s.members ==> t.links[c].owner == s.links[c].owner)
    && (forall c :: c in s.members ==> (AnnouncesYet(t, c) <==> AnnouncesYet(s, c)))
    && (forall c, x :: c in s.members && x != s.links[c].owner ==> Future(t, c, x) == Future(s, c, x))
  }

  lemma DistinctOwners(s: Net, c: nat, d: nat)
    requires Settled(s) && c in s.members && d in s.members && c != d
    ensures s.links[c].owner != s.links[d].owner
  {
  }

  lemma {:induction false} SameAnnounces(s: Net, t: Net, c: nat, n: nat)
    requires Settled(s) && Settled(t) && SameViews(s, t) && c in s.members
    ensures Announces(t, c, n) ==> Announces(s, c, n)
    decreases n
  {
    if Announces(t, c, n) && !AnnouncesYet(t, c) {
      var d :| Provokes(t, c, d) && Announces(t, d, n - 1);
      DistinctOwners(s, c, d);
      SameAnnounces(s, t, d, n - 1);
      assert Provokes(s, c, d);
    }
  }

  lemma SameHolds(s: Net, t: Net, c: nat, d: nat)
    requires Settled(s) && Settled(t) && SameViews(s, t) && c in s.members && d in s.members && c != d
    ensures WillHold(t, d, c) ==> WillHold(s, d, c)
  {
    DistinctOwners(s, c, d);
    if WillAnnounce(t, c) {
      var n: nat :| Announces(t, c, n);
      SameAnnounces(s, t, c, n);
    }
  }

  lemma SameOutcome(s: Net, t: Net)
    requires Settled(s) && Settled(t) && SameViews(s, t)
    ensures WillAgree(t) ==> WillAgree(s)
  {
    if WillAgree(t) {
      forall c, d | c in s.members && d in s.members && c != d ensures WillHold(s, d, c) {
        SameHolds(s, t, c, d);
      }
      forall c | c in s.members ensures HoldsNobodyElse(s, c) {
        assert HoldsNobodyElse(t, c) && Others(t, c) == Others(s, c);
      }
    }
  }

  // A key is forwarded.

  /** Member m's key has gone from its uplink into the downlinks of the others. */
  ghost predicate KeySpreads(s: Net, t: Net, m: nat)
    requires Settled(s) && Settled(t)
  {
    && t.members == s.members && m in s.members
    && (forall c :: c in s.members ==> t.links[c].owner == s.links[c].owner)
    && AnnouncesYet(s, m)
    && (forall c :: c in s.members && c != m ==>
          (AnnouncesYet(t, c) <==> AnnouncesYet(s, c) || !Sent(Future(s, c, s.links[m].owner))))
    && (forall c :: c in s.members && c != m ==> Ready(Future(t, c, s.links[m].owner)))
    && (forall c, x :: c in s.members && x != s.links[c].owner && (x != s.links[m].owner || c == m) ==>
          Future(t, c, x) == Future(s, c, x))
  }

  lemma {:induction false} AnnouncesAfterKey(s: Net, t: Net, m: nat, c: nat, n: nat)
    requires Settled(s) && Settled(t) && KeySpreads(s, t, m) && c in s.members && c != m && Announces(s, c, n)
    ensures Announces(t, c, n)
    decreases n
  {
    if !AnnouncesYet(t, c) {
      var d :| Provokes(s, c, d) && Announces(s, d, n - 1);
      assert d != m;
      DistinctOwners(s, c, d);
      DistinctOwners(s, d, m);
      AnnouncesAfterKey(s, t, m, d, n - 1);
      assert Provokes(t, c, d);
    }
  }

  lemma {:induction false} AnnouncesBeforeKey(s: Net, t: Net, m: nat, c: nat, n: nat)
    requires Settled(s) && Settled(t) && KeySpreads(s, t, m) && c in s.members && Announces(t, c, n)
    ensures Announces(s, c, n + 1)
    decreases n
  {
    if c == m || AnnouncesYet(s, c) {
    } else if AnnouncesYet(t, c) {
      assert Provokes(s, c, m) && Announces(s, m, n);
    } else {
      var d :| Provokes(t, c, d) && Announces(t, d, n - 1);
      DistinctOwners(s, c, d);
      DistinctOwners(s, c, m);
      assert d != m;
      DistinctOwners(s, d, m);
      AnnouncesBeforeKey(s, t, m, d, n - 1);
      assert Provokes(s, c, d);
    }
  }

  lemma KeyKeepsHolding(s: Net, t: Net, m: nat, c: nat, d: nat)
    requires Settled(s) && Settled(t) && KeySpreads(s, t, m) && c in s.members && d in s.members && c != d
    ensures WillHold(t, d, c) <==> WillHold(s, d, c)
  {
    DistinctOwners(s, c, d);
    if c == m {
      assert Announces(s, m, 0);
    } else {
      DistinctOwners(s, c, m);
      if WillAnnounce(s, c) {
        var n: nat :| Announces(s, c, n);
        AnnouncesAfterKey(s, t, m, c, n);
      }
      if WillAnnounce(t, c) {
        var n: nat :| Announces(t, c, n);
        AnnouncesBeforeKey(s, t, m, c, n);
      }
    }
  }

  lemma KeyKeepsStrangers(s: Net, t: Net, m: nat, c: nat)
    requires Settled(s) && Settled(t) && KeySpreads(s, t, m) && c in s.members
    ensures HoldsNobodyElse(t, c) <==> HoldsNobodyElse(s, c)
  {
    assert Others(t, c) == Others(s, c);
    assert c != m ==> s.links[m].owner in Others(s, c);
  }

  lemma KeyKeepsOutcome(s: Net, t: Net, m: nat)
    requires Settled(s) && Settled(t) && KeySpreads(s, t, m)
    ensures WillAgree(t) <==> WillAgree(s)
  {
    forall c, d | c in s.members && d in s.members && c != d ensures WillHold(t, d, c) <==> WillHold(s, d, c) {
      KeyKeepsHolding(s, t, m, c, d);
    }
    forall c | c in s.members ensures HoldsNobodyElse(t, c) <==> HoldsNobodyElse(s, c) {
      KeyKeepsStrangers(s, t, m, c);
    }
  }

  // The steps.

  lemma ReceiveKeepsViews(s: Net, m: nat, c: nat, x: Fp)
    requires Settled(s) && Enabled(s, Receive(m)) && c in s.members && x != s.links[c].owner
    ensures var t := Next(s, Receive(m));
            && Owned(t, c) && t.links[c].owner == s.links[c].owner
            && (AnnouncesYet(t, c) <==> AnnouncesYet(s, c)) && Future(t, c, x) == Future(s, c, x)
  {
    if c == m {
      var t := Next(s, Receive(m));
      ReceiveKeepsFuture(s, c, x);
      assert LinkOk(s, c) && s.links[c].down[0] in s.links[c].down;
      if Answers(TabOf(s, c), s.links[c].owner, s.links[c].down[0]) {
        assert t.links[c].up == s.links[c].up + [Announcement(t, c)];
      } else {
        assert t.links[c].up == s.links[c].up;
      }
    }
  }

  lemma ServeIsAnnouncement(s: Net, c: nat)
    requires Settled(s) && c in s.members && s.links[c].up != []
    ensures s.links[c].up[0] == Announcement(s, c)
  {
    assert LinkOk(s, c) && s.links[c].up[0] in s.links[c].up;
    SinceAll(s.links[c].up);
  }

  lemma KeyIsHeard(s: Net, m: nat, admit: bool, c: nat, x: Fp)
    requires Settled(s) && Enabled(s, Serve(m, admit)) && m in s.members && c in s.members && c != m
    requires x != s.links[c].owner
    ensures var t := Next(s, Serve(m, admit));
            var a := s.links[m].owner;
            && Owned(t, c) && t.links[c].owner == s.links[c].owner
            && (AnnouncesYet(t, c) <==> AnnouncesYet(s, c) || !Sent(Future(s, c, a)))
            && Ready(Future(t, c, a))
            && (x != a ==> Future(t, c, x) == Future(s, c, x))
  {
    var t, a := Next(s, Serve(m, admit)), s.links[m].owner;
    ServeIsAnnouncement(s, m);
    DistinctOwners(s, c, m);
    var e, l := KeyFrom(a, Some(s.browsers[a].pub)), s.links[c];
    assert t.links[c] == l.(down := l.down + [e]);
    AnsweringAppend(l.down, e, TabOf(s, c), l.owner);
    HandleAllSettles(l.down, TabOf(s, c), l.owner, a);
    SettleAppend(l.down, e, a, SessionOf(s, c, a));
    SettleAppend(l.down, e, x, SessionOf(s, c, x));
  }

  lemma KeyLeaves(s: Net, m: nat, admit: bool, x: Fp)
    requires Settled(s) && Enabled(s, Serve(m, admit)) && m in s.members
    ensures var t := Next(s, Serve(m, admit));
            && Owned(t, m) && t.links[m].owner == s.links[m].owner
            && AnnouncesYet(s, m) && Future(t, m, x) == Future(s, m, x)
  {
    ServeIsAnnouncement(s, m);
    assert s.links[m].up[0] in s.links[m].up;
  }

  lemma ServeSpreadsKey(s: Net, m: nat, admit: bool)
    requires Settled(s) && Enabled(s, Serve(m, admit)) && m in s.members && Settled(Next(s, Serve(m, admit)))
    ensures KeySpreads(s, Next(s, Serve(m, admit)), m)
  {
    var t := Next(s, Serve(m, admit));
    ServeIsAnnouncement(s, m);
    forall c, x | c in s.members && x != s.links[c].owner
      ensures t.links[c].owner == s.links[c].owner
      ensures c != m ==> (AnnouncesYet(t, c) <==> AnnouncesYet(s, c) || !Sent(Future(s, c, s.links[m].owner)))
      ensures c != m ==> Ready(Future(t, c, s.links[m].owner))
      ensures x != s.links[m].owner || c == m ==> Future(t, c, x) == Future(s, c, x)
    {
      if c == m {
        KeyLeaves(s, m, admit, x);
      } else {
        KeyIsHeard(s, m, admit, c, x);
      }
    }
    forall c | c in s.members && c != m
      ensures AnnouncesYet(t, c) <==> AnnouncesYet(s, c) || !Sent(Future(s, c, s.links[m].owner))
      ensures Ready(Future(t, c, s.links[m].owner))
    {
      KeyIsHeard(s, m, admit, c, s.links[c].owner + 1);
    }
    KeyLeaves(s, m, admit, 0);
  }

  lemma OutsiderKeepsViews(s: Net, m: nat, admit: bool)
    requires Settled(s) && Enabled(s, Serve(m, admit)) && Delivery(s, Serve(m, admit)) && m !in s.members
    requires Settled(Next(s, Serve(m, admit)))
    ensures SameViews(s, Next(s, Serve(m, admit))) && SameViews(Next(s, Serve(m, admit)), s)
  {
    var t := Next(s, Serve(m, admit));
    assert forall c :: c in s.members ==> t.links[c] == s.links[c];
  }

  lemma ReceiveSameViews(s: Net, m: nat)
    requires Settled(s) && Enabled(s, Receive(m)) && Settled(Next(s, Receive(m)))
    ensures SameViews(s, Next(s, Receive(m))) && SameViews(Next(s, Receive(m)), s)
  {
    var t := Next(s, Receive(m));
    forall c, x | c in s.members && x != s.links[c].owner
      ensures t.links[c].owner == s.links[c].owner && Future(t, c, x) == Future(s, c, x)
    {
      ReceiveKeepsViews(s, m, c, x);
    }
    forall c | c in s.members
      ensures t.links[c].owner == s.links[c].owner && (AnnouncesYet(t, c) <==> AnnouncesYet(s, c))
    {
      ReceiveKeepsViews(s, m, c, s.links[c].owner + 1);
    }
  }

  lemma DeliveryKeepsOutcome(s: Net, step: Step)
    requires Settled(s) && Enabled(s, step) && Delivery(s, step)
    ensures Settled(Next(s, step)) && (WillAgree(Next(s, step)) <==> WillAgree(s))
  {
    var t := Next(s, step);
    StepLocal(s, step);
    DeliveryKeepsRoom(s, step);
    if step.Receive? {
      ReceiveSameViews(s, step.c);
      SameOutcome(s, t);
      SameOutcome(t, s);
    } else if step.c in s.members {
      ServeSpreadsKey(s, step.c, step.admit);
      KeyKeepsOutcome(s, t, step.c);
    } else {
      OutsiderKeepsViews(s, step.c, step.admit);
      SameOutcome(s, t);
      SameOutcome(t, s);
    }
  }

  lemma {:induction false} DeliveriesKeepOutcome(s: Net, steps: seq<Step>)
    requires Settled(s) && DeliveryRun(s, steps)
    ensures Settled(After(s, steps)) && (WillAgree(After(s, steps)) <==> WillAgree(s))
    decreases |steps|
  {
    if steps != [] {
      DeliveryKeepsOutcome(s, steps[0]);
      DeliveriesKeepOutcome(Next(s, steps[0]), steps[1..]);
    }
  }

  // A quiet room.

  lemma {:induction false} QuietIsSilent(s: Net, c: nat, n: nat)
    requires Settled(s) && Quiescent(s) && c in s.members
    ensures !Announces(s, c, n)
    decreases n
  {
    assert Quiet(s, c);
    if n > 0 {
      forall d | Provokes(s, c, d) ensures !Announces(s, d, n - 1) {
        QuietIsSilent(s, d, n - 1);
      }
    }
  }

  lemma QuietHolds(s: Net, c: nat, d: nat)
    requires Settled(s) && Quiescent(s) && c in s.members && d in s.members
    ensures WillHold(s, d, c) <==> Ready(SessionOf(s, d, s.links[c].owner))
  {
    assert Quiet(s, d);
    forall n: nat ensures !Announces(s, c, n) {
      QuietIsSilent(s, c, n);
    }
  }

  lemma QuietAgreesExactly(s: Net)
    requires Settled(s) && Quiescent(s)
    ensures Agreement(s) <==> WillAgree(s)
  {
    forall c, d | c in s.members && d in s.members
      ensures WillHold(s, d, c) <==> Ready(SessionOf(s, d, s.links[c].owner))
    {
      QuietHolds(s, c, d);
    }
    if WillAgree(s) {
      forall c | c in s.members ensures AgreesAt(s, c) {
        WillBecomesIs(s, c);
      }
    }
    if Agreement(s) {
      IsBecomesWill(s);
    }
  }

  lemma WillBecomesIs(s: Net, c: nat)
    requires Settled(s) && Quiescent(s) && WillAgree(s) && c in s.members
    ensures AgreesAt(s, c)
  {
    assert Quiet(s, c) && HoldsNobodyElse(s, c) && TabOk(s, s.links[c].owner, TabOf(s, c));
    forall x | x in ReadyPeers(TabOf(s, c).sessions) ensures x in Others(s, c) {
      assert Ready(Future(s, c, x));
    }
    forall x | x in Others(s, c) ensures x in ReadyPeers(TabOf(s, c).sessions) {
      var d :| d in s.members && d != c && s.links[d].owner == x;
      assert WillHold(s, c, d);
      QuietHolds(s, d, c);
    }
    ReadyIsEnough(s, c);
  }

  lemma IsBecomesWill(s: Net)
    requires Settled(s) && Quiescent(s) && Agreement(s)
    ensures WillAgree(s)
  {
    forall c, d | c in s.members && d in s.members && c != d ensures WillHold(s, d, c) {
      assert AgreesAt(s, d) && s.links[c].owner in Others(s, d);
      QuietHolds(s, c, d);
    }
    forall c | c in s.members ensures HoldsNobodyElse(s, c) {
      assert Quiet(s, c) && AgreesAt(s, c);
      forall x | x != s.links[c].owner && Ready(Future(s, c, x)) ensures x in Others(s, c) {
        assert x in ReadyPeers(TabOf(s, c).sessions);
      }
    }
  }

  /** From any settled state: what the room will come to is decided already. */
  lemma SettledOutcome(s: Net, steps: seq<Step>)
    requires Settled(s) && DeliveryRun(s, steps) && Quiescent(After(s, steps))
    ensures Agreement(After(s, steps)) <==> WillAgree(s)
  {
    DeliveriesKeepOutcome(s, steps);
    QuietAgreesExactly(After(s, steps));
  }

  /** Where the premises have been kept, it will agree. */
  lemma PremisesSuffice(s: Net)
    requires Inv(s) && Settled(s)
    ensures WillAgree(s)
  {
    var steps := QuietIsReached(s);
    DeliveriesAreBounded(s, steps);
    QuiescentAgreement(After(s, steps));
    SettledOutcome(s, steps);
  }

  /**
   After any possible run, whatever premises it broke, in which every member has
   settled: if nobody else comes or goes, the room becomes quiet within
   Measure(s) steps, and then it agrees exactly if every member had the key of
   every other for good or was still to get one, and was not to hold anybody else.
   */
  lemma OutcomeExactly(start: Net, run: seq<Step>, steps: seq<Step>) returns (rest: seq<Step>)
    requires Initial(start) && Possible(start, run)
    requires forall c :: c in After(start, run).members ==> Seated(After(start, run), c)
    requires DeliveryRun(After(start, run), steps)
    ensures var s := After(start, run);
            && Settled(s) && |steps| <= Measure(s)
            && DeliveryRun(After(s, steps), rest) && Quiescent(After(After(s, steps), rest))
            && (Quiescent(After(s, steps)) ==> (Agreement(After(s, steps)) <==> WillAgree(s)))
            && (Agreement(After(After(s, steps), rest)) <==> WillAgree(s))
  {
    var s := After(start, run);
    AlwaysLocal(start, run);
    DeliveriesAreBounded(s, steps);
    DeliveriesKeepOutcome(s, steps);
    rest := QuietIsReached(After(s, steps));
    SettledOutcome(After(s, steps), rest);
    if Quiescent(After(s, steps)) {
      SettledOutcome(s, steps);
    }
  }
}
