/**
 Where the handshake does not agree. The code enforces none of the premises of
 HandshakeAgreement; here is what each of them excludes, and when it matters.
 */
module HandshakeLimits {
  import opened Wrappers
  import opened PeerSession
  import opened Page
  import opened Handshake
  import opened HandshakeInvariant
  import opened HandshakeProof
  import opened HandshakeProgress
  import opened HandshakeOutcome

  // Deliveries do not seat anybody.

  lemma SeatedBefore(s: Net, step: Step, c: nat)
    requires Local(s) && Enabled(s, step) && Delivery(s, step) && c in s.members && Seated(Next(s, step), c)
    ensures Seated(s, c)
  {
    if step == Receive(c) {
      assert LinkOk(s, c) && s.links[c].down[0] in s.links[c].down;
    } else if step.Serve? && step.c == c {
      assert s.links[c].up == [s.links[c].up[0]] + s.links[c].up[1..];
    }
  }

  /** Whoever is quiet after some deliveries had settled before them. */
  lemma {:induction false} SettledBefore(s: Net, steps: seq<Step>)
    requires Local(s) && DeliveryRun(s, steps) && Quiescent(After(s, steps))
    ensures Settled(s)
    decreases |steps|
  {
    if steps == [] {
      forall c | c in s.members ensures Seated(s, c) {
        assert Quiet(s, c);
      }
    } else {
      StepLocal(s, steps[0]);
      DeliveryKeepsRoom(s, steps[0]);
      SettledBefore(Next(s, steps[0]), steps[1..]);
      forall c | c in s.members ensures Seated(s, c) {
        SeatedBefore(s, steps[0], c);
      }
    }
  }

  /** Two members whose handshake is in order will hold each other. */
  lemma PairWillHold(s: Net, c: nat, d: nat)
    requires Settled(s) && c in s.members && d in s.members && c != d && PairOk(s, c, d)
    ensures WillHold(s, d, c) && WillHold(s, c, d)
  {
    var a, b := s.links[c].owner, s.links[d].owner;
    DistinctOwners(s, c, d);
    if !Ready(Future(s, d, a)) {
      AnnouncingIsAnnounced(s, c, b);
      assert Announces(s, c, 0);
    }
    if !Ready(Future(s, c, b)) {
      if Sent(Future(s, d, a)) {
        AnnouncingIsAnnounced(s, d, a);
        assert Announces(s, d, 0);
      } else {
        assert Provokes(s, d, c) && Announces(s, c, 0);
        assert Announces(s, d, 1);
      }
    }
  }

  // Leftovers at an entry.

  lemma NewcomerHoldsExactly(s: Net, t: Net, c: nat)
    requires Local(s) && AdmitStep(s, t, c) && Owned(t, c) && LinkOk(t, c) && Seated(t, c)
    ensures HoldsNobodyElse(t, c) <==> NoLeftovers(s, c)
  {
    forall x | x != s.links[c].owner ensures x in Others(t, c) <==> Present(s, x) {
      if Present(s, x) {
        var d :| d in s.members && d < |s.links| && s.links[d].owner == x;
        assert d in t.members && t.links[d].owner == x;
      } else {
        assert x in Others(t, c) ==> Present(s, x);
      }
    }
    forall x ensures Future(t, c, x) == Future(s, c, x) {
      NewcomerAnnounces(s, t, c, x);
    }
  }

  lemma AdmittedWillAgree(s: Net, t: Net, c: nat)
    requires Inv(s) && AdmitStep(s, t, c) && Owned(t, c) && LinkOk(t, c) && Settled(t)
    ensures WillAgree(t) <==> NoLeftovers(s, c)
  {
    NewcomerHoldsExactly(s, t, c);
    if NoLeftovers(s, c) {
      AdmitKeeps(s, t, c);
      PremisesSuffice(t);
    } else {
      assert c in t.members && !HoldsNobodyElse(t, c);
    }
  }

  /**
   The relay admits connection c, whose browser may have entered it before the
   events of an earlier stay were handled. When the room has become quiet and
   nobody else has come or gone, it agrees exactly if, at the admission, neither
   tab nor downlink held a key of anybody who was not in the room. Leftover
   keys of members do no harm.
   */
  lemma EntryHarmlessExactly(s: Net, c: nat, steps: seq<Step>)
    requires Inv(s) && Enabled(s, Serve(c, true)) && s.links[c].up[0].EnterRoom? && c !in s.members
    requires DeliveryRun(Next(s, Serve(c, true)), steps) && Quiescent(After(Next(s, Serve(c, true)), steps))
    ensures Agreement(After(Next(s, Serve(c, true)), steps)) <==> NoLeftovers(s, c)
  {
    var t := Next(s, Serve(c, true));
    ServeKeepsLink(s, c, true);
    EntryIsAdmitStep(s, c);
    AdmitLocal(s, t, c);
    SettledBefore(t, steps);
    AdmittedWillAgree(s, t, c);
    SettledOutcome(t, steps);
  }

  // A departure that is noticed late.

  /** The relay takes connection c off the list and announces that its browser has left. */
  predicate Departure(s: Net, step: Step, c: nat)
    requires Enabled(s, step)
  {
    match step
    case Close(d) => d == c && s.links[c].record == Inside
    case Serve(d, _) => d == c && s.links[c].up[0].LeaveRoom? && s.links[c].record == Inside
    case _ => false
  }

  lemma DepartureIsDepartStep(s: Net, step: Step, c: nat)
    requires Local(s) && Enabled(s, step) && Departure(s, step, c)
    ensures DepartStep(s, Next(s, step), c) && Owned(Next(s, step), c) && LinkOk(Next(s, step), c)
  {
    assert LinkOk(s, c);
    if step.Serve? {
      ServeKeepsLink(s, c, step.admit);
      LeaveIsDepartStep(s, c, step.admit);
    }
  }

  /**
   The live browser of member e is still to announce its key: by itself, or in
   answer to the key of a member that it will not count as told.
   */
  ghost predicate StillAnnounces(s: Net, c: nat, e: nat)
    requires Owned(s, e)
  {
    AnnouncesYet(s, e) || exists d :: d in s.members && d != c && Provokes(s, e, d)
  }

  /** What a departure of the browser's other connection does to its live one. */
  lemma SurvivorKeeps(s: Net, t: Net, c: nat, e: nat, x: Fp)
    requires Local(s) && DepartStep(s, t, c) && e in t.members && Seated(t, e) && s.links[e].owner == s.links[c].owner
    requires x != s.links[e].owner
    ensures Owned(t, e) && Future(t, e, x) == Future(s, e, x) && (AnnouncesYet(t, e) <==> AnnouncesYet(s, e))
  {
    var a := s.links[c].owner;
    Appended(s, t, e, Left(a), x);
    AnsweringAppend(s.links[e].down, Left(a), TabOf(s, e), a);
  }

  /** What it does to anybody else: the browser's session is gone. */
  lemma OthersForget(s: Net, t: Net, c: nat, d: nat)
    requires Local(s) && DepartStep(s, t, c) && d in t.members && Seated(t, d) && s.links[d].owner != s.links[c].owner
    ensures Owned(t, d) && !Sent(Future(t, d, s.links[c].owner)) && (AnnouncesYet(s, d) ==> AnnouncesYet(t, d))
  {
    var a := s.links[c].owner;
    Appended(s, t, d, Left(a), a);
    AnsweringAppend(s.links[d].down, Left(a), TabOf(s, d), s.links[d].owner);
  }

  /** A member that the live browser does not count as told is itself still to announce its key. */
  lemma ProvokerAnnounces(s: Net, e: nat, d: nat)
    requires Inv(s) && e in s.members && d in s.members && Seated(s, e) && Seated(s, d) && Provokes(s, e, d)
    ensures AnnouncesYet(s, d)
  {
    var i, j :| 0 <= i < |s.members| && 0 <= j < |s.members| && s.members[i] == e && s.members[j] == d;
    assert LinkOk(s, e);
    if i < j {
      assert PairOk(s, s.members[i], s.members[j]);
      MetIsSent(s.links[e].down, s.links[d].owner, SessionOf(s, e, s.links[d].owner));
    } else {
      assert PairOk(s, s.members[j], s.members[i]);
      AnnouncingIsAnnounced(s, d, s.links[e].owner);
    }
  }

  /** The announcement that is to come at the departure had to come before it. */
  lemma SurvivorHadTo(s: Net, t: Net, c: nat, e: nat)
    requires Inv(s) && DepartStep(s, t, c) && Settled(t) && e in t.members && s.links[e].owner == s.links[c].owner
    requires WillAnnounce(t, e)
    ensures StillAnnounces(s, c, e)
  {
    SurvivorKeeps(s, t, c, e, s.links[e].owner + 1);
    if !AnnouncesYet(s, e) {
      assert !AnnouncesYet(t, e);
      var n: nat :| Announces(t, e, n);
      var d: nat :| Provokes(t, e, d) && Announces(t, d, n - 1);
      DistinctOwners(t, e, d);
      SurvivorKeeps(s, t, c, e, s.links[d].owner);
      assert d in s.members && d != c && Provokes(s, e, d);
    }
  }

  lemma ProvokedSurvivor(s: Net, t: Net, c: nat, e: nat, d: nat)
    requires Inv(s) && DepartStep(s, t, c) && Settled(t) && e in t.members && s.links[e].owner == s.links[c].owner
    requires d in s.members && d != c && Provokes(s, e, d)
    ensures WillAnnounce(t, e)
  {
    assert d in t.members;
    DistinctOwners(t, e, d);
    SurvivorKeeps(s, t, c, e, s.links[d].owner);
    ProvokerAnnounces(s, e, d);
    OthersForget(s, t, c, d);
    assert Provokes(t, e, d) && Announces(t, d, 0);
    assert Announces(t, e, 1);
  }

  lemma SurvivorWillAnnounceExactly(s: Net, t: Net, c: nat, e: nat)
    requires Inv(s) && DepartStep(s, t, c) && Settled(t) && e in t.members && s.links[e].owner == s.links[c].owner
    ensures WillAnnounce(t, e) <==> StillAnnounces(s, c, e)
  {
    if WillAnnounce(t, e) {
      SurvivorHadTo(s, t, c, e);
    }
    if AnnouncesYet(s, e) {
      SurvivorKeeps(s, t, c, e, s.links[e].owner + 1);
      assert Announces(t, e, 0);
    } else if StillAnnounces(s, c, e) {
      var d :| d in s.members && d != c && Provokes(s, e, d);
      ProvokedSurvivor(s, t, c, e, d);
    }
  }

  /** Once the live browser announces itself, everybody answers. */
  lemma SurvivorRecovers(s: Net, t: Net, c: nat, e: nat, d: nat)
    requires Inv(s) && DepartStep(s, t, c) && Settled(t) && e in t.members && s.links[e].owner == s.links[c].owner
    requires d in t.members && d != e
    ensures WillHold(t, d, e) <==> WillAnnounce(t, e)
    ensures WillAnnounce(t, e) ==> WillHold(t, e, d)
  {
    DistinctOwners(t, e, d);
    OthersForget(s, t, c, d);
    if WillAnnounce(t, e) {
      var n: nat :| Announces(t, e, n);
      assert Provokes(t, d, e);
      assert Announces(t, d, n + 1);
    }
  }

  lemma BystandersHold(s: Net, t: Net, c: nat, d: nat, d': nat)
    requires Inv(s) && DepartStep(s, t, c) && Settled(t) && d in t.members && d' in t.members && d != d'
    requires s.links[d].owner != s.links[c].owner && s.links[d'].owner != s.links[c].owner
    ensures WillHold(t, d, d')
  {
    var i, j :| 0 <= i < |s.members| && 0 <= j < |s.members| && s.members[i] == d && s.members[j] == d';
    if i < j {
      assert PairOk(s, s.members[i], s.members[j]);
      DepartPair(s, t, c, d, d');
      PairWillHold(t, d, d');
    } else {
      assert PairOk(s, s.members[j], s.members[i]);
      DepartPair(s, t, c, d', d);
      PairWillHold(t, d', d);
    }
  }

  lemma DepartedWillAgree(s: Net, t: Net, c: nat, e: nat)
    requires Inv(s) && DepartStep(s, t, c) && Settled(t) && e in t.members && s.links[e].owner == s.links[c].owner
    ensures WillAgree(t) <==> Others(t, e) == {} || StillAnnounces(s, c, e)
  {
    SurvivorWillAnnounceExactly(s, t, c, e);
    forall d, d' | d in t.members && d' in t.members && d != d'
      ensures d' == e ==> (WillHold(t, d, d') <==> WillAnnounce(t, e))
      ensures d' != e && (d == e ==> WillAnnounce(t, e)) ==> WillHold(t, d, d')
    {
      if d' == e {
        SurvivorRecovers(s, t, c, e, d);
      } else if d == e {
        SurvivorRecovers(s, t, c, e, d');
      } else {
        DistinctOwners(t, d, e);
        DistinctOwners(t, d', e);
        BystandersHold(s, t, c, d, d');
      }
    }
    forall d | d in t.members ensures HoldsNobodyElse(t, d) {
      DepartStrangers(s, t, c, d);
    }
    if Others(t, e) != {} {
      var x :| x in Others(t, e);
      var d :| d in t.members && d != e && t.links[d].owner == x;
      assert WillAgree(t) ==> WillHold(t, d, e);
    } else {
      OnlyMember(t, e);
    }
  }

  /**
   The relay announces the departure of a connection whose browser has another
   one, e, settled in the room. When the room has become quiet and nobody else
   has come or gone, it agrees exactly if e was alone in it, or its browser was
   still to announce its key at the departure.
   */
  lemma DepartureHarmlessExactly(s: Net, step: Step, c: nat, e: nat, steps: seq<Step>)
    requires Inv(s) && Enabled(s, step) && Departure(s, step, c)
    requires e in s.members && e != c && s.links[e].owner == s.links[c].owner
    requires DeliveryRun(Next(s, step), steps) && Quiescent(After(Next(s, step), steps))
    ensures Agreement(After(Next(s, step), steps)) <==>
            Others(Next(s, step), e) == {} || StillAnnounces(s, c, e)
  {
    var t := Next(s, step);
    DepartureIsDepartStep(s, step, c);
    DepartLocal(s, t, c);
    SettledBefore(t, steps);
    DepartedWillAgree(s, t, c, e);
    SettledOutcome(t, steps);
  }

  // A key from a connection that the relay has expelled.

  /** Whoever is in the room will hold it. */
  lemma IntruderIsHeld(s: Net, c: nat, admit: bool, d: nat)
    requires Local(s) && Enabled(s, Serve(c, admit)) && Intrudes(s, c) && d in s.members && s.links[d].open
    requires s.links[d].owner != s.links[c].owner
    ensures Owned(Next(s, Serve(c, admit)), d) && Ready(Future(Next(s, Serve(c, admit)), d, s.links[c].owner))
  {
    var t, a := Next(s, Serve(c, admit)), s.links[c].owner;
    KeyIsAnnounceStep(s, c, admit);
    Appended(s, t, d, KeyFrom(a, Some(s.links[c].up[0].key)), a);
  }

  lemma IntruderDeceives(s: Net, c: nat, admit: bool, d: nat)
    requires Local(s) && Enabled(s, Serve(c, admit)) && Intrudes(s, c) && d in s.members
    requires !Present(s, s.links[c].owner) && Settled(Next(s, Serve(c, admit)))
    ensures !WillAgree(Next(s, Serve(c, admit)))
  {
    var t := Next(s, Serve(c, admit));
    KeyIsAnnounceStep(s, c, admit);
    assert d in t.members && Seated(t, d);
    IntruderIsHeld(s, c, admit, d);
    assert !HoldsNobodyElse(t, d);
  }

  /**
   The relay forwards a key that an expelled connection had under way into a room
   of the same id that has come back. When that has become quiet and nobody else
   has come or gone, it agrees exactly if it is empty or the browser is in it.
   */
  lemma IntrusionHarmlessExactly(s: Net, c: nat, admit: bool, steps: seq<Step>)
    requires Inv(s) && Enabled(s, Serve(c, admit)) && Intrudes(s, c)
    requires DeliveryRun(Next(s, Serve(c, admit)), steps) && Quiescent(After(Next(s, Serve(c, admit)), steps))
    ensures Agreement(After(Next(s, Serve(c, admit)), steps)) <==>
            s.members == [] || Present(s, s.links[c].owner)
  {
    var t := Next(s, Serve(c, admit));
    StepLocal(s, Serve(c, admit));
    KeyIsAnnounceStep(s, c, admit);
    SettledBefore(t, steps);
    SettledOutcome(t, steps);
    if Present(s, s.links[c].owner) {
      StepKeeps(s, Serve(c, admit));
      PremisesSuffice(t);
    } else if s.members != [] {
      IntruderDeceives(s, c, admit, s.members[0]);
    }
  }

  // A member that asks to enter again.

  lemma RefusedPair(s: Net, t: Net, c: nat, d: nat, e: nat)
    requires Inv(s) && Settled(t) && RelayOnly(s, t, c) && d in s.members && e in s.members
    requires d != e && d != c && e != c
    ensures WillHold(t, d, e)
  {
    var i, j :| 0 <= i < |s.members| && 0 <= j < |s.members| && s.members[i] == d && s.members[j] == e;
    assert LinkOk(s, d) && LinkOk(s, e);
    Untouched(s, t, d);
    Untouched(s, t, e);
    if i < j {
      assert PairOk(s, s.members[i], s.members[j]);
      PairCarried(s, t, d, e);
      PairWillHold(t, d, e);
    } else {
      assert PairOk(s, s.members[j], s.members[i]);
      PairCarried(s, t, e, d);
      PairWillHold(t, e, d);
    }
  }

  lemma RefusedStrangers(s: Net, t: Net, c: nat, d: nat)
    requires Inv(s) && Settled(t) && RelayOnly(s, t, c) && d in s.members && d != c
    ensures HoldsNobodyElse(t, d)
  {
    assert LinkOk(s, d) && StrangersOk(s, d) && Others(t, d) == Others(s, d);
    Untouched(s, t, d);
    forall x | x != t.links[d].owner && x !in Others(t, d) ensures !Ready(Future(t, d, x)) {
      assert Carried(s, t, d, x);
    }
  }

  /**
   A member asks to enter without having left; the relay refuses, and its browser
   has forgotten everybody. When the room has become quiet and nobody else has
   come or gone, it agrees exactly if that browser holds or is still to get the
   key of every other member and nobody else's, and every other member holds or
   is still to get its key.
   */
  lemma RefusalHarmlessExactly(s: Net, c: nat, admit: bool, steps: seq<Step>)
    requires Inv(s) && Enabled(s, Serve(c, admit)) && s.links[c].up[0].EnterRoom? && c in s.members
    requires DeliveryRun(Next(s, Serve(c, admit)), steps) && Quiescent(After(Next(s, Serve(c, admit)), steps))
    ensures var t := Next(s, Serve(c, admit));
            && Settled(t)
            && (Agreement(After(t, steps)) <==>
                  && HoldsNobodyElse(t, c)
                  && forall d :: d in t.members && d != c ==> WillHold(t, c, d) && WillHold(t, d, c))
  {
    var t := Next(s, Serve(c, admit));
    ServeKeepsLink(s, c, admit);
    RestIsRelayOnly(s, c, admit);
    RelayOnlyLocal(s, t, c);
    SettledBefore(t, steps);
    forall d, e | d in t.members && e in t.members && d != e && d != c && e != c ensures WillHold(t, d, e) {
      RefusedPair(s, t, c, d, e);
    }
    forall d | d in t.members && d != c ensures HoldsNobodyElse(t, d) {
      RefusedStrangers(s, t, c, d);
    }
    SettledOutcome(t, steps);
  }

  /**
   In particular, when a member of a quiet room that agrees does so, the room is
   quiet again after three steps, and agrees exactly if that member was alone.
   */
  lemma EnteringTwiceExactly(s: Net, c: nat, admit: bool) returns (t: Net)
    requires Shape(s) && c in s.members && Quiescent(s) && Agreement(s)
    ensures var steps := [Enter(s.links[c].owner), Serve(c, admit), Receive(c)];
            Possible(s, steps) && After(s, steps) == t
    ensures Quiescent(t) && (Agreement(t) <==> Others(s, c) == {})
  {
    t := Reentered(s, c, admit);
    forall d | d in t.members ensures Quiet(t, d) {
      assert Quiet(s, d);
    }
    assert Owned(t, c) && ReadyPeers(TabOf(t, c).sessions) == {} && Others(t, c) == Others(s, c);
    if Others(s, c) == {} {
      OnlyMember(s, c);
      assert forall d :: d in t.members ==> d == c;
      assert AgreesAt(t, c);
    } else {
      assert !AgreesAt(t, c);
    }
  }

  /** The three steps of it. */
  lemma Reentered(s: Net, c: nat, admit: bool) returns (t: Net)
    requires Shape(s) && c in s.members && Quiet(s, c)
    ensures var steps := [Enter(s.links[c].owner), Serve(c, admit), Receive(c)];
            Possible(s, steps) && After(s, steps) == t
    ensures var a := s.links[c].owner;
            && t.links == s.links && t.members == s.members
            && t.browsers == s.browsers[a := s.browsers[a].(tab := Entered(s.browsers[a].tab, true))]
  {
    var a := s.links[c].owner;
    var m := Next(s, Enter(a));
    assert m.links[c] == s.links[c].(up := [EnterRoom]);
    var n := Next(m, Serve(c, admit));
    assert n.links[c] == s.links[c].(up := [], down := [Notice]);
    t := Next(n, Receive(c));
    assert t.links[c] == s.links[c];
    ThreeSteps(s, Enter(a), Serve(c, admit), Receive(c));
  }

  lemma ThreeSteps(s: Net, a: Step, b: Step, c: Step)
    requires Enabled(s, a) && Enabled(Next(s, a), b) && Enabled(Next(Next(s, a), b), c)
    ensures Possible(s, [a, b, c]) && After(s, [a, b, c]) == Next(Next(Next(s, a), b), c)
  {
    var n, m := Next(s, a), Next(Next(s, a), b);
    assert [a, b, c][1..] == [b, c] && [b, c][1..] == [c] && [c][1..] == [];
    assert Possible(m, [c]) && After(m, [c]) == Next(m, c);
    assert Possible(n, [b, c]) && After(n, [b, c]) == After(m, [c]);
  }

  lemma OnlyMember(s: Net, c: nat)
    requires Shape(s) && c in s.members && Others(s, c) == {}
    ensures forall d :: d in s.members ==> d == c
  {
    forall d | d in s.members ensures d == c {
      if d != c {
        OtherOwner(s, c, d);
      }
    }
  }

  lemma OtherOwner(s: Net, c: nat, d: nat)
    requires Shape(s) && d in s.members && d != c
    ensures s.links[d].owner in Others(s, c)
  {
  }

  // A rule that a browser can keep.

  /** The connection is outside the room and has nothing in flight. */
  predicate Drained(s: Net, c: nat) {
    c < |s.links| && c !in s.members && s.links[c].up == [] && s.links[c].down == []
  }

  /**
   A browser only asks to enter on a fresh or drained connection; departures are
   noticed in time, and nobody intrudes.
   */
  ghost predicate Cautious(s: Net, step: Step)
    requires Enabled(s, step)
  {
    match step
    case Enter(fp) => Drained(s, s.browsers[fp].link.value)
    case Serve(c, _) =>
      && (s.links[c].up[0].LeaveRoom? && s.links[c].record == Inside ==> !SeatedTwin(s, c))
      && (Intrudes(s, c) ==> Present(s, s.links[c].owner))
    case Close(c) => s.links[c].record == Inside ==> !SeatedTwin(s, c)
    case _ => true
  }

  ghost predicate CautiousRun(s: Net, steps: seq<Step>)
    ensures CautiousRun(s, steps) ==> Possible(s, steps)
    decreases |steps|
  {
    steps == []
    || (Enabled(s, steps[0]) && Cautious(s, steps[0]) && CautiousRun(Next(s, steps[0]), steps[1..]))
  }

  /** Members have no request pending; an engaged outsider knows nobody and has been told nothing. */
  ghost predicate TidyLink(s: Net, c: nat)
    requires Owned(s, c)
  {
    Engaged(s, c) && s.links[c].open ==>
      if c in s.members then EnterRoom !in s.links[c].up
      else
        && (s.links[c].up == [] || s.links[c].up == [EnterRoom])
        && (forall e :: e in s.links[c].down ==> e == Notice)
        && forall x :: !Sent(SessionOf(s, c, x))
  }

  ghost predicate Tidy(s: Net)
    requires Shape(s)
  {
    forall c :: 0 <= c < |s.links| ==> TidyLink(s, c)
  }

  lemma TidyEntryIsDisciplined(s: Net, step: Step)
    requires Local(s) && Tidy(s) && Enabled(s, step) && Cautious(s, step)
    ensures Disciplined(s, step)
  {
    if step.Serve? && s.links[step.c].up[0].EnterRoom? {
      assert TidyLink(s, step.c) && s.links[step.c].up[0] in s.links[step.c].up;
      forall x | step.c !in s.members && Final(s, step.c) ensures !Ready(Future(s, step.c, x)) {
        assert !Sent(SessionOf(s, step.c, x));
        SettleNotices(s.links[step.c].down, x, SessionOf(s, step.c, x));
      }
    }
  }

  lemma ReceiverStaysTidy(s: Net, c: nat)
    requires Local(s) && Enabled(s, Receive(c)) && TidyLink(s, c)
    ensures TidyLink(Next(s, Receive(c)), c)
  {
    var t, e := Next(s, Receive(c)), s.links[c].down[0];
    assert LinkOk(s, c) && e in s.links[c].down;
    assert Engaged(t, c) ==> Engaged(s, c);
    if Engaged(t, c) && s.links[c].open && c !in s.members {
      assert e == Notice && TabOf(t, c) == TabOf(s, c);
      assert forall f :: f in t.links[c].down ==> f in s.links[c].down;
      assert forall x :: SessionOf(t, c, x) == SessionOf(s, c, x);
    }
  }

  lemma SenderStaysTidy(s: Net, c: nat, admit: bool)
    requires Local(s) && Enabled(s, Serve(c, admit)) && TidyLink(s, c)
    ensures TidyLink(Next(s, Serve(c, admit)), c)
  {
    var t, up := Next(s, Serve(c, admit)), s.links[c].up;
    SenderLink(s, c, admit);
    assert LinkOk(s, c) && up[0] in up;
    assert forall x :: SessionOf(t, c, x) == SessionOf(s, c, x);
    assert forall f :: f in up[1..] ==> f in up;
    if EnterRoom !in up {
      SinceAll(up);
    }
  }

  /** A link that is not the one of the step keeps its uplink, and if it is an open outsider's, everything. */
  ghost predicate Elsewhere(s: Net, t: Net, d: nat) {
    && Owned(s, d) && Owned(t, d) && t.links[d].owner == s.links[d].owner && t.links[d].up == s.links[d].up
    && (t.links[d].open ==> s.links[d].open)
    && (t.browsers[s.links[d].owner].link == Some(d) ==> t.browsers[s.links[d].owner] == s.browsers[s.links[d].owner])
    && (t.links[d].open ==> (d in t.members <==> d in s.members) && (d !in s.members ==> t.links[d] == s.links[d]))
  }

  lemma ElsewhereStaysTidy(s: Net, t: Net, d: nat)
    requires Elsewhere(s, t, d) && TidyLink(s, d)
    ensures TidyLink(t, d)
  {
    assert Engaged(t, d) ==> forall x :: SessionOf(t, d, x) == SessionOf(s, d, x);
  }

  lemma OtherLinkIsElsewhere(s: Net, step: Step, d: nat)
    requires Local(s) && Enabled(s, step) && (step.Receive? || step.Serve? || step.Close? || step.Kick?)
    requires d != step.c && d < |s.links|
    ensures Elsewhere(s, Next(s, step), d)
  {
    if step.Serve? {
      ServedIsElsewhere(s, step.c, step.admit, d);
    }
  }

  lemma ServedIsElsewhere(s: Net, c: nat, admit: bool, d: nat)
    requires Local(s) && Enabled(s, Serve(c, admit)) && d != c && d < |s.links|
    ensures Elsewhere(s, Next(s, Serve(c, admit)), d)
  {
    var f := s.links[c].up[0];
    if f.EnterRoom? && admit && c !in s.members {
      EntryIsAdmitStep(s, c);
    } else if f.Announce? && f.inRoom && s.links[c].record == Inside {
      KeyIsAnnounceStep(s, c, admit);
    } else if f.LeaveRoom? && s.links[c].record == Inside {
      LeaveIsDepartStep(s, c, admit);
    } else {
      RestIsRelayOnly(s, c, admit);
    }
  }

  lemma BrowserStaysTidy(s: Net, step: Step, d: nat)
    requires Local(s) && Tidy(s) && Enabled(s, step) && Cautious(s, step)
    requires step.Enter? || step.Leave? || step.Drop?
    requires d < |s.links|
    ensures Owned(Next(s, step), d) && TidyLink(Next(s, step), d)
  {
    var t := Next(s, step);
    assert TidyLink(s, d);
    if s.browsers[step.fp].link.value != d {
      ElsewhereStaysTidy(s, t, d);
    }
  }

  lemma ConnectStaysTidy(s: Net, fp: Fp, restored: bool, d: nat)
    requires Local(s) && Tidy(s) && Enabled(s, Connect(fp, restored)) && d <= |s.links|
    ensures Owned(Next(s, Connect(fp, restored)), d) && TidyLink(Next(s, Connect(fp, restored)), d)
  {
    if d < |s.links| {
      assert TidyLink(s, d);
      ElsewhereStaysTidy(s, Next(s, Connect(fp, restored)), d);
    }
  }

  lemma OwnLinkStaysTidy(s: Net, step: Step)
    requires Local(s) && Enabled(s, step) && (step.Receive? || step.Serve? || step.Close? || step.Kick?)
    requires Owned(s, step.c) && TidyLink(s, step.c)
    ensures Owned(Next(s, step), step.c) && TidyLink(Next(s, step), step.c)
  {
    match step
    case Receive(c) => ReceiverStaysTidy(s, c);
    case Serve(c, admit) =>
      SenderLink(s, c, admit);
      SenderStaysTidy(s, c, admit);
    case Close(c) => assert !Next(s, step).links[c].open;
    case Kick(c, _) => assert !Next(s, step).links[c].open;
  }

  lemma RelayStaysTidy(s: Net, step: Step, d: nat)
    requires Local(s) && Tidy(s) && Enabled(s, step)
    requires (step.Receive? || step.Serve? || step.Close? || step.Kick?) && d < |s.links|
    ensures Owned(Next(s, step), d) && TidyLink(Next(s, step), d)
  {
    assert TidyLink(s, d);
    if d != step.c {
      OtherLinkIsElsewhere(s, step, d);
      ElsewhereStaysTidy(s, Next(s, step), d);
    } else {
      OwnLinkStaysTidy(s, step);
    }
  }

  lemma StepStaysTidy(s: Net, step: Step)
    requires Inv(s) && Tidy(s) && Enabled(s, step) && Cautious(s, step)
    ensures Disciplined(s, step) && Inv(Next(s, step)) && Tidy(Next(s, step))
  {
    TidyEntryIsDisciplined(s, step);
    StepKeeps(s, step);
    forall d | 0 <= d < |Next(s, step).links| ensures TidyLink(Next(s, step), d) {
      match step
      case Connect(fp, restored) => ConnectStaysTidy(s, fp, restored, d);
      case Reap =>
        assert TidyLink(s, d);
        ElsewhereStaysTidy(s, Next(s, step), d);
      case Enter(_) => BrowserStaysTidy(s, step, d);
      case Leave(_) => BrowserStaysTidy(s, step, d);
      case Drop(_, _, _) => BrowserStaysTidy(s, step, d);
      case _ => RelayStaysTidy(s, step, d);
    }
  }

  lemma {:induction false} CautiousRunIsDisciplined(s: Net, steps: seq<Step>)
    requires Inv(s) && Tidy(s) && CautiousRun(s, steps)
    ensures DisciplinedRun(s, steps)
    decreases |steps|
  {
    if steps != [] {
      StepStaysTidy(s, steps[0]);
      CautiousRunIsDisciplined(Next(s, steps[0]), steps[1..]);
    }
  }

  /** Browsers that only enter on fresh or drained connections never have leftovers, and agree in a quiet room. */
  lemma CautiousBrowsersAgree(s: Net, steps: seq<Step>)
    requires Initial(s) && CautiousRun(s, steps)
    ensures DisciplinedRun(s, steps)
    ensures Quiescent(After(s, steps)) ==> Agreement(After(s, steps))
  {
    InitialInv(s);
    CautiousRunIsDisciplined(s, steps);
    HandshakeAgreement(s, steps);
  }
}
