/** Every disciplined step keeps the invariant of the handshake. */
module HandshakeProof {
  import opened Wrappers
  import opened PeerSession
  import opened Page
  import opened Handshake
  import opened HandshakeInvariant

  // How a step treats a link that it does not concern.

  ghost predicate Alike(s: Net, t: Net) {
    && |t.browsers| == |s.browsers|
    && |t.links| >= |s.links|
    && (forall fp :: 0 <= fp < |s.browsers| ==> t.browsers[fp].pub == s.browsers[fp].pub)
    && (forall c :: 0 <= c < |s.links| ==> t.links[c].owner == s.links[c].owner)
  }

  /** If the browser is still seated, what it will hold for x is the same and nothing under way is lost. */
  ghost predicate Carried(s: Net, t: Net, c: nat, x: Fp)
    requires Owned(s, c) && Owned(t, c)
  {
    Seated(t, c) ==>
      && Seated(s, c)
      && Future(t, c, x) == Future(s, c, x)
      && (Told(s, c) ==> Told(t, c))
      && (Announcing(s, c, x) ==> Announcing(t, c, x))
      && (Acquainted(s, c, x) ==> Acquainted(t, c, x))
      && (Sent(SessionOf(t, c, x)) ==> Sent(SessionOf(s, c, x)) || Told(t, c))
  }

  lemma PairCarried(s: Net, t: Net, c: nat, d: nat)
    requires Owned(s, c) && Owned(s, d) && Owned(t, c) && Owned(t, d) && Alike(s, t)
    requires PairOk(s, c, d)
    requires Carried(s, t, c, s.links[d].owner) && Carried(s, t, d, s.links[c].owner)
    ensures PairOk(t, c, d)
  {
  }

  /** One event more in a downlink. */
  lemma Appended(s: Net, t: Net, c: nat, e: Event, x: Fp)
    requires Owned(s, c) && Owned(t, c) && Alike(s, t)
    requires t.browsers[s.links[c].owner] == s.browsers[s.links[c].owner]
    requires t.links[c].down == s.links[c].down + [e]
    ensures Engaged(t, c) == Engaged(s, c)
    ensures Future(t, c, x) == Advance(e, x, Future(s, c, x))
    ensures Owed(t.links[c].down, x, SessionOf(t, c, x)) <==>
            Owed(s.links[c].down, x, SessionOf(s, c, x)) || Prompts(e, x, Future(s, c, x))
    ensures Acquainted(t, c, x) <==> (e.Joined? && e.fp == x) || (Acquainted(s, c, x) && !(e.Left? && e.fp == x))
  {
    SettleAppend(s.links[c].down, e, x, SessionOf(s, c, x));
    MetAppend(s.links[c].down, e, x, Sent(SessionOf(s, c, x)));
  }

  /** A link whose frames did not change, and whose browser did not either if it is still attached. */
  lemma Untouched(s: Net, t: Net, c: nat)
    requires Owned(s, c) && Owned(t, c) && Alike(s, t)
    requires t.links[c] == s.links[c]
    requires s.links[c].open ==> (c in t.members <==> c in s.members)
    requires t.browsers[s.links[c].owner].link == Some(c) ==>
               t.browsers[s.links[c].owner] == s.browsers[s.links[c].owner]
    requires LinkOk(s, c)
    ensures LinkOk(t, c)
    ensures forall x :: Carried(s, t, c, x)
  {
    assert Engaged(t, c) ==> forall x :: SessionOf(t, c, x) == SessionOf(s, c, x);
  }

  // Steps that leave the member list alone.

  lemma MembersCarried(s: Net, t: Net)
    requires Shape(s) && Shape(t) && Alike(s, t) && t.members == s.members
    requires forall c, x :: c in s.members && x != s.links[c].owner ==> Carried(s, t, c, x)
    requires RoomOk(s)
    ensures RoomOk(t)
  {
    forall i, j | 0 <= i < j < |t.members| ensures PairOk(t, t.members[i], t.members[j]) {
      var c, d := s.members[i], s.members[j];
      assert PairOk(s, c, d);
      if Seated(t, c) && Seated(t, d) {
        PairCarried(s, t, c, d);
      }
    }
    forall c | c in s.members ensures StrangersOk(t, c) {
      assert StrangersOk(s, c) && Others(t, c) == Others(s, c);
      forall x | Seated(t, c) && x != t.links[c].owner && x !in Others(t, c) ensures !Ready(Future(t, c, x)) {
        assert Carried(s, t, c, x);
      }
    }
  }

  /** A step of one browser: only its tab and its link change, and the tab stays honest. */
  ghost predicate BrowserStep(s: Net, t: Net, fp: Fp, n: nat) {
    && Shape(t) && Alike(s, t) && t.members == s.members
    && fp < |s.browsers| && n < |t.links| && Owned(t, n) && t.links[n].owner == fp
    && (forall g :: 0 <= g < |s.browsers| && g != fp ==> t.browsers[g] == s.browsers[g])
    && |t.links| == (if n == |s.links| then n + 1 else |s.links|)
    && (forall c :: 0 <= c < |s.links| && c != n ==> t.links[c] == s.links[c])
    && (t.browsers[fp].link.Some? ==> t.browsers[fp].link == Some(n))
    && TabOk(s, fp, t.browsers[fp].tab)
    && LinkOk(t, n)
  }

  lemma BrowserStepLocal(s: Net, t: Net, fp: Fp, n: nat)
    requires Local(s) && BrowserStep(s, t, fp, n)
    ensures Local(t)
    ensures forall c, x :: 0 <= c < |s.links| && c != n ==> Carried(s, t, c, x)
  {
    forall g | 0 <= g < |t.browsers| ensures |t.browsers[g].pub| == KEY_LENGTH && TabOk(t, g, t.browsers[g].tab) {
      assert TabOk(s, g, s.browsers[g].tab);
    }
    forall c | 0 <= c < |s.links| && c != n ensures LinkOk(t, c) && forall x :: Carried(s, t, c, x) {
      assert LinkOk(s, c);
      Untouched(s, t, c);
    }
  }

  lemma BrowserStepKeeps(s: Net, t: Net, fp: Fp, n: nat)
    requires Inv(s) && BrowserStep(s, t, fp, n)
    requires n in s.members ==> forall x :: x != fp ==> Carried(s, t, n, x)
    ensures Inv(t)
  {
    BrowserStepLocal(s, t, fp, n);
    MembersCarried(s, t);
  }

  /** A fresh connection of a browser that is in no room, or enters one at once. */
  lemma ConnectIsBrowserStep(s: Net, fp: Fp, restored: bool)
    requires Local(s) && Enabled(s, Connect(fp, restored))
    ensures BrowserStep(s, Next(s, Connect(fp, restored)), fp, |s.links|)
  {
    var t, c := Next(s, Connect(fp, restored)), |s.links|;
    assert TabOk(s, fp, s.browsers[fp].tab);
    if s.browsers[fp].tab.active || restored {
      assert t.links[c] == Link(fp, [EnterRoom], [], true, Outside);
    } else {
      assert t.links[c] == Link(fp, [], [], true, Outside);
    }
  }

  lemma ConnectKeeps(s: Net, fp: Fp, restored: bool)
    requires Inv(s) && Enabled(s, Connect(fp, restored))
    ensures Inv(Next(s, Connect(fp, restored)))
  {
    ConnectIsBrowserStep(s, fp, restored);
    BrowserStepKeeps(s, Next(s, Connect(fp, restored)), fp, |s.links|);
  }

  lemma EnterIsBrowserStep(s: Net, fp: Fp)
    requires Local(s) && Enabled(s, Enter(fp))
    ensures BrowserStep(s, Next(s, Enter(fp)), fp, s.browsers[fp].link.value)
  {
    var n, t := s.browsers[fp].link.value, Next(s, Enter(fp));
    assert LinkOk(s, n) && t.links[n] == s.links[n].(up := s.links[n].up + [EnterRoom]);
    SinceAppended(s.links[n].up, EnterRoom);
  }

  lemma EnterKeeps(s: Net, fp: Fp)
    requires Inv(s) && Enabled(s, Enter(fp))
    ensures Inv(Next(s, Enter(fp)))
  {
    EnterIsBrowserStep(s, fp);
    BrowserStepKeeps(s, Next(s, Enter(fp)), fp, s.browsers[fp].link.value);
  }

  lemma LeaveIsBrowserStep(s: Net, fp: Fp)
    requires Local(s) && Enabled(s, Leave(fp))
    ensures BrowserStep(s, Next(s, Leave(fp)), fp, s.browsers[fp].link.value)
  {
    var n, t := s.browsers[fp].link.value, Next(s, Leave(fp));
    assert LinkOk(s, n) && t.links[n] == s.links[n].(up := s.links[n].up + [LeaveRoom]);
    SinceAppended(s.links[n].up, LeaveRoom);
  }

  lemma LeaveKeeps(s: Net, fp: Fp)
    requires Inv(s) && Enabled(s, Leave(fp))
    ensures Inv(Next(s, Leave(fp)))
  {
    LeaveIsBrowserStep(s, fp);
    BrowserStepKeeps(s, Next(s, Leave(fp)), fp, s.browsers[fp].link.value);
  }

  lemma DropIsBrowserStep(s: Net, fp: Fp, kept: nat, loss: Loss)
    requires Local(s) && Enabled(s, Drop(fp, kept, loss))
    ensures BrowserStep(s, Next(s, Drop(fp, kept, loss)), fp, s.browsers[fp].link.value)
  {
    var n, t := s.browsers[fp].link.value, Next(s, Drop(fp, kept, loss));
    assert LinkOk(s, n) && TabOk(s, fp, s.browsers[fp].tab);
    assert forall f :: f in t.links[n].up ==> f in s.links[n].up;
  }

  lemma DropKeeps(s: Net, fp: Fp, kept: nat, loss: Loss)
    requires Inv(s) && Enabled(s, Drop(fp, kept, loss))
    ensures Inv(Next(s, Drop(fp, kept, loss)))
  {
    DropIsBrowserStep(s, fp, kept, loss);
    BrowserStepKeeps(s, Next(s, Drop(fp, kept, loss)), fp, s.browsers[fp].link.value);
  }

  // What a browser shows while it is offline.

  /**
   A close event leaves every session DISCONNECTED, without key and not ready; a
   silent teardown, which takes the listeners off the socket, leaves them all as
   they were; a reload leaves nothing.
   */
  lemma LossExactly(s: Net, fp: Fp, kept: nat, loss: Loss)
    requires Enabled(s, Drop(fp, kept, loss))
    ensures var b, d := s.browsers[fp], Next(s, Drop(fp, kept, loss)).browsers[fp];
            && d.link.None? && d.pub == b.pub
            && (forall c :: 0 <= c < |s.links| ==>
                  Next(s, Drop(fp, kept, loss)).links[c]
                  == if Some(c as nat) == b.link then s.links[c].(up := s.links[c].up[..kept]) else s.links[c])
            && (loss.CloseEvent? ==>
                  && d.tab == b.tab.(sessions := d.tab.sessions) && d.tab.sessions.Keys == b.tab.sessions.Keys
                  && (forall x :: x in d.tab.sessions ==> d.tab.sessions[x] == Session(DISCONNECTED, None, false))
                  && forall x :: !Sent(Peek(d.tab.sessions, x)) && !IsReady(d.tab.sessions, x))
            && (loss.Teardown? ==> d.tab == b.tab)
            && (loss.Reload? ==> d.tab == Tab(map[], [], map[], false))
  {
  }

  /** Whatever the rest of the system does, a browser that is offline and does not connect stays as it is. */
  lemma {:induction false} OfflineStays(s: Net, fp: Fp, steps: seq<Step>)
    requires Possible(s, steps) && fp < |s.browsers| && s.browsers[fp].link.None?
    requires forall step :: step in steps ==> !(step.Connect? && step.fp == fp)
    ensures fp < |After(s, steps).browsers| && After(s, steps).browsers[fp] == s.browsers[fp]
    decreases |steps|
  {
    if steps != [] {
      assert steps[0] in steps && forall step :: step in steps[1..] ==> step in steps;
      OfflineStays(Next(s, steps[0]), fp, steps[1..]);
    }
  }

  /** So from a close event until it connects again a browser is ready for nobody, in every run. */
  lemma OfflineIsReadyForNobody(s: Net, fp: Fp, kept: nat, steps: seq<Step>)
    requires Enabled(s, Drop(fp, kept, CloseEvent)) && Possible(Next(s, Drop(fp, kept, CloseEvent)), steps)
    requires forall step :: step in steps ==> !(step.Connect? && step.fp == fp)
    ensures var t := After(Next(s, Drop(fp, kept, CloseEvent)), steps);
            fp < |t.browsers| && ReadyPeers(t.browsers[fp].tab.sessions) == {}
  {
    LossExactly(s, fp, kept, CloseEvent);
    OfflineStays(Next(s, Drop(fp, kept, CloseEvent)), fp, steps);
    var m := Next(s, Drop(fp, kept, CloseEvent)).browsers[fp].tab.sessions;
    forall x ensures x !in ReadyPeers(m) {
      assert !Sent(Peek(m, x));
    }
  }

  // A browser handles an event.

  lemma HandleAdvances(t: Tab, me: Fp, e: Event, x: Fp)
    requires x != me
    ensures Peek(Handle(t, me, e).sessions, x) == Advance(e, x, Peek(t.sessions, x))
    ensures Prompts(e, x, Peek(t.sessions, x)) ==> Answers(t, me, e)
  {
  }

  /** Nobody new counts as told without an announcement. */
  lemma UnansweredTellsNobody(t: Tab, me: Fp, e: Event, x: Fp)
    requires !Answers(t, me, e) && Sent(Peek(Handle(t, me, e).sessions, x))
    ensures Sent(Peek(t.sessions, x))
  {
  }

  lemma HandleKeepsTab(s: Net, t: Tab, me: Fp, e: Event, open: bool)
    requires TabOk(s, me, t) && EventOk(s, open, e)
    requires e.KeyFrom? ==> |s.browsers[e.fp].pub| == KEY_LENGTH
    ensures TabOk(s, me, Handle(t, me, e))
  {
    if e.Left? {
      WithoutDistinct(t.peers, e.fp);
    }
  }

  /** The future of a session with somebody else is what it was. */
  lemma ReceiveKeepsFuture(s: Net, c: nat, x: Fp)
    requires Shape(s) && LinksOk(s) && Enabled(s, Receive(c)) && x != s.links[c].owner
    ensures Future(Next(s, Receive(c)), c, x) == Future(s, c, x)
  {
    HandleAdvances(TabOf(s, c), s.links[c].owner, s.links[c].down[0], x);
  }

  lemma ReceiveKeepsTold(s: Net, c: nat)
    requires Shape(s) && Enabled(s, Receive(c)) && Seated(Next(s, Receive(c)), c) && Told(s, c)
    ensures Told(Next(s, Receive(c)), c)
  {
    var t := Next(s, Receive(c));
    if s.links[c].down[0] == Joined(s.links[c].owner) {
      assert t.links[c].up == s.links[c].up + [Announcement(t, c)];
    } else if Joined(s.links[c].owner) in s.links[c].down {
      assert s.links[c].down == [s.links[c].down[0]] + s.links[c].down[1..];
    }
  }

  lemma ReceiveCarries(s: Net, c: nat, x: Fp)
    requires Shape(s) && LinksOk(s) && Enabled(s, Receive(c)) && x != s.links[c].owner
    ensures Carried(s, Next(s, Receive(c)), c, x)
  {
    var t := Next(s, Receive(c));
    if Seated(t, c) {
      var e := s.links[c].down[0];
      ReceiveKeepsFuture(s, c, x);
      HandleAdvances(TabOf(s, c), s.links[c].owner, e, x);
      MetMonotone(s.links[c].down[1..], x);
      if Told(s, c) {
        ReceiveKeepsTold(s, c);
      }
      if Answers(TabOf(s, c), s.links[c].owner, e) {
        assert t.links[c].up == s.links[c].up + [Announcement(t, c)];
      } else {
        assert t.links[c].up == s.links[c].up;
      }
    }
  }

  lemma ReceiveKeepsStage(s: Net, c: nat)
    requires Shape(s) && LinksOk(s) && Enabled(s, Receive(c))
    ensures StageOk(Next(s, Receive(c)), c) && AwayOk(Next(s, Receive(c)), c)
  {
    var t := Next(s, Receive(c));
    var e := s.links[c].down[0];
    assert LinkOk(s, c) && e in s.links[c].down;
    SinceAppended(s.links[c].up, Announcement(s, c));
    SinceAppended(s.links[c].up, Announce(s.browsers[s.links[c].owner].pub, false));
    forall x | Engaged(t, c) && s.links[c].open && Sent(SessionOf(t, c, x)) && EnterRoom in t.links[c].up
      ensures Since(t.links[c].up) != []
    {
      if !Answers(TabOf(s, c), s.links[c].owner, e) {
        UnansweredTellsNobody(TabOf(s, c), s.links[c].owner, e, x);
        assert Sent(SessionOf(s, c, x));
      }
    }
  }

  lemma ReceiveKeepsLink(s: Net, c: nat)
    requires Shape(s) && LinksOk(s) && Enabled(s, Receive(c))
    ensures LinkOk(Next(s, Receive(c)), c)
  {
    var t := Next(s, Receive(c));
    assert LinkOk(s, c) && s.links[c].down[0] in s.links[c].down;
    assert forall f :: f in t.links[c].down ==> f in s.links[c].down;
    ReceiveKeepsStage(s, c);
  }

  lemma ReceiveIsBrowserStep(s: Net, c: nat)
    requires Local(s) && Enabled(s, Receive(c))
    ensures BrowserStep(s, Next(s, Receive(c)), s.links[c].owner, c)
  {
    var fp, e := s.links[c].owner, s.links[c].down[0];
    assert LinkOk(s, c) && e in s.links[c].down && TabOk(s, fp, s.browsers[fp].tab);
    HandleKeepsTab(s, s.browsers[fp].tab, fp, e, s.links[c].open);
    ReceiveKeepsLink(s, c);
  }

  lemma ReceiveKeeps(s: Net, c: nat)
    requires Inv(s) && Enabled(s, Receive(c))
    ensures Inv(Next(s, Receive(c)))
  {
    ReceiveIsBrowserStep(s, c);
    forall x | x != s.links[c].owner ensures Carried(s, Next(s, Receive(c)), c, x) {
      ReceiveCarries(s, c, x);
    }
    BrowserStepKeeps(s, Next(s, Receive(c)), s.links[c].owner, c);
  }

  // The relay does something that concerns one connection only.

  ghost predicate RelayOnly(s: Net, t: Net, c: nat) {
    && c < |s.links| && t.browsers == s.browsers && t.members == s.members && Shape(t)
    && |t.links| == |s.links| && t.links[c].owner == s.links[c].owner
    && (forall d :: 0 <= d < |s.links| && d != c ==> t.links[d] == s.links[d])
  }

  lemma RelayOnlyLocal(s: Net, t: Net, c: nat)
    requires Local(s) && RelayOnly(s, t, c) && LinkOk(t, c)
    ensures Local(t)
    ensures forall d, x :: 0 <= d < |s.links| && d != c ==> Carried(s, t, d, x)
  {
    forall g | 0 <= g < |t.browsers| ensures TabOk(t, g, t.browsers[g].tab) {
      assert TabOk(s, g, s.browsers[g].tab);
    }
    forall d | 0 <= d < |s.links| && d != c ensures LinkOk(t, d) && forall x :: Carried(s, t, d, x) {
      assert LinkOk(s, d);
      Untouched(s, t, d);
    }
  }

  lemma RelayOnlyKeeps(s: Net, t: Net, c: nat)
    requires Inv(s) && RelayOnly(s, t, c) && LinkOk(t, c)
    requires c in s.members ==> !Seated(t, c)
    ensures Inv(t)
  {
    RelayOnlyLocal(s, t, c);
    MembersCarried(s, t);
  }

  // The relay broadcasts.

  /** The other links after an event is broadcast to the open ones among the members. */
  ghost predicate Heard(s: Net, t: Net, c: nat, e: Event) {
    && c < |s.links| && t.browsers == s.browsers && |t.links| == |s.links| && t.links[c].owner == s.links[c].owner
    && forall d :: 0 <= d < |s.links| && d != c ==> t.links[d] == Hearing(s.links[d], d in s.members, e)
  }

  /** A link after somebody else's broadcast. */
  lemma HeardKeepsLink(s: Net, t: Net, c: nat, e: Event, d: nat)
    requires Shape(s) && LinksOk(s) && Heard(s, t, c, e) && d < |s.links| && d != c && EventOk(s, true, e)
    requires s.links[d].open ==> (d in t.members <==> d in s.members)
    ensures Owned(t, d) && LinkOk(t, d)
  {
    assert LinkOk(s, d);
    if t.links[d] == s.links[d] {
      Untouched(s, t, d);
    } else {
      assert forall x :: SessionOf(t, d, x) == SessionOf(s, d, x);
    }
  }

  lemma HeardLocal(s: Net, t: Net, c: nat, e: Event)
    requires Local(s) && Shape(t) && Heard(s, t, c, e) && EventOk(s, true, e) && LinkOk(t, c)
    requires forall d :: 0 <= d < |s.links| && d != c && s.links[d].open ==> (d in t.members <==> d in s.members)
    ensures Local(t)
  {
    forall g | 0 <= g < |t.browsers| ensures TabOk(t, g, t.browsers[g].tab) {
      assert TabOk(s, g, s.browsers[g].tab);
    }
    forall d | 0 <= d < |s.links| && d != c ensures LinkOk(t, d) {
      HeardKeepsLink(s, t, c, e, d);
    }
  }

  /** An event about one peer carries every other peer's session. */
  lemma HeardCarries(s: Net, t: Net, c: nat, e: Event, d: nat, x: Fp)
    requires Shape(s) && Heard(s, t, c, e) && d < |s.links| && d != c
    requires (e.Joined? || e.Left? || e.KeyFrom?) && e.fp != x
    ensures Owned(t, d) && Carried(s, t, d, x)
  {
    if t.links[d] != s.links[d] {
      Appended(s, t, d, e, x);
    }
  }

  // A member's key.

  /** The key of d's owner has been appended to the downlink of e, which joined later. */
  lemma KeyReachesLater(s: Net, t: Net, d: nat, e: nat, key: Key)
    requires Owned(s, d) && Owned(s, e) && Owned(t, d) && Owned(t, e) && Alike(s, t) && t.browsers == s.browsers
    requires PairOk(s, d, e) && Seated(s, d) && Seated(s, e)
    requires t.links[e] == s.links[e].(down := s.links[e].down + [KeyFrom(s.links[d].owner, Some(key))])
    requires Future(t, d, s.links[e].owner) == Future(s, d, s.links[e].owner)
    requires Acquainted(s, d, s.links[e].owner) ==> Acquainted(t, d, s.links[e].owner)
    ensures PairOk(t, d, e)
  {
    Appended(s, t, e, KeyFrom(s.links[d].owner, Some(key)), s.links[d].owner);
  }

  lemma KeyReachesEarlier(s: Net, t: Net, d: nat, e: nat, key: Key)
    requires Owned(s, d) && Owned(s, e) && Owned(t, d) && Owned(t, e) && Alike(s, t) && t.browsers == s.browsers
    requires PairOk(s, d, e) && Seated(s, d) && Seated(s, e)
    requires t.links[d] == s.links[d].(down := s.links[d].down + [KeyFrom(s.links[e].owner, Some(key))])
    requires Future(t, e, s.links[d].owner) == Future(s, e, s.links[d].owner)
    ensures PairOk(t, d, e)
  {
    Appended(s, t, d, KeyFrom(s.links[e].owner, Some(key)), s.links[e].owner);
  }

  ghost predicate AnnounceStep(s: Net, t: Net, c: nat, key: Key)
    requires Shape(s)
  {
    && c < |s.links| && s.links[c].record == Inside && t.members == s.members && Shape(t)
    && Heard(s, t, c, KeyFrom(s.links[c].owner, Some(key)))
    && t.links[c] == s.links[c].(up := t.links[c].up)
    && (Seated(t, c) ==> Seated(s, c))
  }

  /** What the sender, and another connection of its browser, will hold does not change. */
  lemma AnnouncerKeeps(s: Net, t: Net, c: nat, key: Key, d: nat, x: Fp)
    requires Shape(s) && AnnounceStep(s, t, c, key) && d < |s.links| && x != s.links[c].owner
    ensures Owned(t, d) && Future(t, d, x) == Future(s, d, x) && (Acquainted(s, d, x) ==> Acquainted(t, d, x))
  {
    if t.links[d].down != s.links[d].down {
      Appended(s, t, d, KeyFrom(s.links[c].owner, Some(key)), x);
    }
  }

  lemma AnnouncePair(s: Net, t: Net, c: nat, key: Key, d: nat, e: nat)
    requires Shape(s) && AnnounceStep(s, t, c, key) && d in s.members && e in s.members && d != e && PairOk(s, d, e)
    ensures PairOk(t, d, e)
  {
    var a := s.links[c].owner;
    if Seated(t, d) && Seated(t, e) {
      if s.links[d].owner == a {
        AnnouncerKeeps(s, t, c, key, d, s.links[e].owner);
        KeyReachesLater(s, t, d, e, key);
      } else if s.links[e].owner == a {
        AnnouncerKeeps(s, t, c, key, e, s.links[d].owner);
        KeyReachesEarlier(s, t, d, e, key);
      } else {
        HeardCarries(s, t, c, KeyFrom(a, Some(key)), d, s.links[e].owner);
        HeardCarries(s, t, c, KeyFrom(a, Some(key)), e, s.links[d].owner);
        PairCarried(s, t, d, e);
      }
    }
  }

  lemma AnnounceStrangers(s: Net, t: Net, c: nat, key: Key, d: nat)
    requires Shape(s) && AnnounceStep(s, t, c, key) && d in s.members && StrangersOk(s, d)
    requires Present(s, s.links[c].owner)
    ensures StrangersOk(t, d)
  {
    assert Others(t, d) == Others(s, d);
    forall x | Seated(t, d) && x != t.links[d].owner && x !in Others(t, d) ensures !Ready(Future(t, d, x)) {
      if d != c {
        assert s.links[c].owner in Others(s, d) || s.links[c].owner == s.links[d].owner;
        HeardCarries(s, t, c, KeyFrom(s.links[c].owner, Some(key)), d, x);
      }
      assert !Ready(Future(s, d, x));
    }
  }

  lemma AnnounceKeeps(s: Net, t: Net, c: nat, key: Key)
    requires Inv(s) && AnnounceStep(s, t, c, key) && LinkOk(t, c) && Present(s, s.links[c].owner)
    requires key == s.browsers[s.links[c].owner].pub
    ensures Inv(t)
  {
    HeardLocal(s, t, c, KeyFrom(s.links[c].owner, Some(key)));
    forall i, j | 0 <= i < j < |t.members| ensures PairOk(t, t.members[i], t.members[j]) {
      AnnouncePair(s, t, c, key, s.members[i], s.members[j]);
    }
    forall d | d in t.members ensures StrangersOk(t, d) {
      AnnounceStrangers(s, t, c, key, d);
    }
  }

  // A new member.

  ghost predicate AdmitStep(s: Net, t: Net, c: nat)
    requires Shape(s)
  {
    && c < |s.links| && c !in s.members
    && t.members == s.members + [c] && Heard(s, t, c, Joined(s.links[c].owner))
    && s.links[c].up != [] && s.links[c].up[0] == EnterRoom
    && t.links[c] == Hearing(s.links[c].(up := s.links[c].up[1..], record := Inside), true, Notice)
  }

  /** What the newcomer has from before does no harm: whoever it counts as told gets its key again. */
  lemma NewcomerAnnounces(s: Net, t: Net, c: nat, x: Fp)
    requires Local(s) && AdmitStep(s, t, c) && Owned(t, c) && LinkOk(t, c) && Seated(t, c)
    ensures Future(t, c, x) == Future(s, c, x)
    ensures Sent(SessionOf(t, c, x)) ==> Announcement(t, c) in t.links[c].up
    ensures Sent(Future(t, c, x)) ==> Announcing(t, c, x)
  {
    assert LinkOk(s, c);
    SincePopped(s.links[c].up);
    SinceAll(t.links[c].up);
    assert SessionOf(t, c, x) == SessionOf(s, c, x) && EnterRoom in s.links[c].up;
    assert Since(s.links[c].up) == t.links[c].up;
    if Sent(SessionOf(t, c, x)) {
      assert t.links[c].up[0] in t.links[c].up;
    } else if Sent(Future(t, c, x)) {
      SentOrOwed(t.links[c].down, x, SessionOf(t, c, x));
    }
    SettleAppend(s.links[c].down, Notice, x, SessionOf(s, c, x));
  }

  lemma NewcomerPair(s: Net, t: Net, d: nat, c: nat)
    requires Local(s) && AdmitStep(s, t, c) && Owned(t, c) && LinkOk(t, c) && d in s.members
    ensures PairOk(t, d, c)
  {
    if Seated(t, d) && Seated(t, c) {
      Appended(s, t, d, Joined(s.links[c].owner), s.links[c].owner);
      NewcomerAnnounces(s, t, c, s.links[d].owner);
    }
  }

  /** Another connection of d's or e's browser is admitted: its browser will announce its key anew to everybody. */
  lemma TwinPair(s: Net, t: Net, c: nat, d: nat, e: nat)
    requires Local(s) && AdmitStep(s, t, c) && Shape(t) && d in s.members && e in s.members && PairOk(s, d, e)
    requires Seated(t, d) && Seated(t, e)
    requires s.links[c].owner == s.links[d].owner || s.links[c].owner == s.links[e].owner
    requires d != e && d != c && e != c
    ensures PairOk(t, d, e)
  {
    var j := Joined(s.links[c].owner);
    Appended(s, t, d, j, s.links[e].owner);
    Appended(s, t, e, j, s.links[d].owner);
    assert j in t.links[d].down && j in t.links[e].down;
  }

  lemma AdmitPair(s: Net, t: Net, c: nat, i: nat, j: nat)
    requires Inv(s) && Shape(t) && AdmitStep(s, t, c) && LinkOk(t, c) && i < j < |t.members|
    ensures PairOk(t, t.members[i], t.members[j])
  {
    var d, e := t.members[i], t.members[j];
    assert d == s.members[i] && d in s.members;
    if e == c {
      NewcomerPair(s, t, d, c);
    } else if Seated(t, d) && Seated(t, e) {
      assert e == s.members[j] && e in s.members && PairOk(s, d, e);
      if s.links[c].owner == s.links[d].owner || s.links[c].owner == s.links[e].owner {
        TwinPair(s, t, c, d, e);
      } else {
        HeardCarries(s, t, c, Joined(s.links[c].owner), d, s.links[e].owner);
        HeardCarries(s, t, c, Joined(s.links[c].owner), e, s.links[d].owner);
        PairCarried(s, t, d, e);
      }
    }
  }

  lemma AbsentBefore(s: Net, t: Net, c: nat, x: Fp)
    requires Shape(s) && AdmitStep(s, t, c) && x !in Others(t, c)
    ensures !Present(s, x)
  {
    forall e | e in s.members && e < |s.links| ensures s.links[e].owner != x {
      assert e in t.members && t.links[e].owner in Others(t, c);
    }
  }

  lemma AdmitStrangers(s: Net, t: Net, c: nat, d: nat)
    requires Inv(s) && Shape(t) && AdmitStep(s, t, c) && LinkOk(t, c) && d in t.members
    requires Final(s, c) ==> NoLeftovers(s, c)
    ensures StrangersOk(t, d)
  {
    forall x | Seated(t, d) && x != t.links[d].owner && x !in Others(t, d) ensures !Ready(Future(t, d, x)) {
      if d == c {
        NewcomerAnnounces(s, t, c, x);
        AbsentBefore(s, t, c, x);
      } else {
        assert StrangersOk(s, d) && d in s.members && c in t.members;
        assert t.links[c].owner in Others(t, d) && Others(s, d) <= Others(t, d);
        HeardCarries(s, t, c, Joined(s.links[c].owner), d, x);
      }
    }
  }

  lemma AdmitShape(s: Net, t: Net, c: nat)
    requires Shape(s) && AdmitStep(s, t, c)
    ensures Shape(t)
  {
  }

  lemma AdmitLocal(s: Net, t: Net, c: nat)
    requires Local(s) && AdmitStep(s, t, c) && Owned(t, c) && LinkOk(t, c)
    ensures Local(t)
  {
    AdmitShape(s, t, c);
    HeardLocal(s, t, c, Joined(s.links[c].owner));
  }

  lemma AdmitKeeps(s: Net, t: Net, c: nat)
    requires Inv(s) && AdmitStep(s, t, c) && Owned(t, c) && LinkOk(t, c)
    requires Final(s, c) ==> NoLeftovers(s, c)
    ensures Inv(t)
  {
    AdmitLocal(s, t, c);
    forall i, j | 0 <= i < j < |t.members| ensures PairOk(t, t.members[i], t.members[j]) {
      AdmitPair(s, t, c, i, j);
    }
    forall d | d in t.members ensures StrangersOk(t, d) {
      AdmitStrangers(s, t, c, d);
    }
  }

  // A departure is announced.

  ghost predicate DepartStep(s: Net, t: Net, c: nat)
    requires Shape(s)
  {
    && c < |s.links| && t.members == Without(s.members, c) && Heard(s, t, c, Left(s.links[c].owner))
    && (t.links[c].open ==> t.links[c].record == Outside)
  }

  lemma DepartShape(s: Net, t: Net, c: nat)
    requires Shape(s) && DepartStep(s, t, c)
    ensures Shape(t)
  {
    forall i, j | 0 <= i < j < |t.members| ensures t.members[i] != t.members[j] {
      var k, l := WithoutOrder(s.members, c, i, j);
    }
  }

  lemma DepartLocal(s: Net, t: Net, c: nat)
    requires Local(s) && DepartStep(s, t, c) && Owned(t, c) && LinkOk(t, c)
    ensures Local(t)
  {
    DepartShape(s, t, c);
    HeardLocal(s, t, c, Left(s.links[c].owner));
  }

  lemma DepartPair(s: Net, t: Net, c: nat, d: nat, e: nat)
    requires Shape(s) && DepartStep(s, t, c) && Shape(t) && d in t.members && e in t.members && PairOk(s, d, e)
    requires s.links[d].owner != s.links[c].owner && s.links[e].owner != s.links[c].owner
    ensures PairOk(t, d, e)
  {
    HeardCarries(s, t, c, Left(s.links[c].owner), d, s.links[e].owner);
    HeardCarries(s, t, c, Left(s.links[c].owner), e, s.links[d].owner);
    PairCarried(s, t, d, e);
  }

  lemma DepartStrangers(s: Net, t: Net, c: nat, d: nat)
    requires Shape(s) && RoomOk(s) && Shape(t) && DepartStep(s, t, c) && d in t.members
    ensures StrangersOk(t, d)
  {
    var a := s.links[c].owner;
    assert StrangersOk(s, d) && Others(s, d) <= Others(t, d) + {a};
    forall x | Seated(t, d) && x != t.links[d].owner && x !in Others(t, d) ensures !Ready(Future(t, d, x)) {
      if x == a {
        Appended(s, t, d, Left(a), x);
      } else {
        HeardCarries(s, t, c, Left(a), d, x);
      }
    }
  }

  lemma DepartKeeps(s: Net, t: Net, c: nat)
    requires Inv(s) && DepartStep(s, t, c) && Owned(t, c) && LinkOk(t, c) && !SeatedTwin(s, c)
    ensures Inv(t)
  {
    DepartLocal(s, t, c);
    forall i, j | 0 <= i < j < |t.members| ensures PairOk(t, t.members[i], t.members[j]) {
      var k, l := WithoutOrder(s.members, c, i, j);
      var d, e := s.members[k], s.members[l];
      assert d in t.members && e in t.members && PairOk(s, d, e);
      if Seated(t, d) && Seated(t, e) {
        assert Seated(s, d) && Seated(s, e);
        DepartPair(s, t, c, d, e);
      }
    }
    forall d | d in t.members ensures StrangersOk(t, d) {
      DepartStrangers(s, t, c, d);
    }
  }

  // The relay's own steps.

  /** The sender's own link after its frame is taken. */
  lemma SenderLink(s: Net, c: nat, admit: bool)
    requires Enabled(s, Serve(c, admit))
    ensures var t := Next(s, Serve(c, admit));
            && Owned(t, c) && t.browsers == s.browsers && t.links[c].owner == s.links[c].owner
            && t.links[c].up == s.links[c].up[1..] && t.links[c].open == s.links[c].open
            && (t.links[c].down == s.links[c].down || t.links[c].down == s.links[c].down + [Notice])
            && (c in t.members && c !in s.members ==> s.links[c].up[0].EnterRoom?)
            && (c !in t.members && c in s.members ==> s.links[c].up[0].LeaveRoom?)
  {
  }

  lemma ServeKeepsStage(s: Net, c: nat, admit: bool)
    requires Local(s) && Enabled(s, Serve(c, admit))
    ensures StageOk(Next(s, Serve(c, admit)), c)
  {
    var t, up := Next(s, Serve(c, admit)), s.links[c].up;
    SenderLink(s, c, admit);
    assert LinkOk(s, c) && Engaged(t, c) == Engaged(s, c);
    assert forall x :: SessionOf(t, c, x) == SessionOf(s, c, x);
    SincePopped(up);
    assert forall g :: g in up[1..] ==> g in up;
    if EnterRoom !in up {
      SinceAll(up);
    }
  }

  lemma ServeKeepsAway(s: Net, c: nat, admit: bool)
    requires Local(s) && Enabled(s, Serve(c, admit))
    ensures AwayOk(Next(s, Serve(c, admit)), c)
  {
    var up := s.links[c].up;
    SenderLink(s, c, admit);
    assert LinkOk(s, c) && up[0] in up;
    SincePopped(up);
    if EnterRoom !in up {
      SinceAll(up);
    }
  }

  lemma ServeKeepsQueues(s: Net, c: nat, admit: bool)
    requires Local(s) && Enabled(s, Serve(c, admit))
    ensures DownOk(Next(s, Serve(c, admit)), c) && UpOk(Next(s, Serve(c, admit)), c)
  {
    SenderLink(s, c, admit);
    assert LinkOk(s, c) && forall g :: g in s.links[c].up[1..] ==> g in s.links[c].up;
  }

  lemma ServeKeepsLink(s: Net, c: nat, admit: bool)
    requires Local(s) && Enabled(s, Serve(c, admit))
    ensures LinkOk(Next(s, Serve(c, admit)), c)
  {
    ServeKeepsQueues(s, c, admit);
    ServeKeepsStage(s, c, admit);
    ServeKeepsAway(s, c, admit);
  }

  lemma EntryIsAdmitStep(s: Net, c: nat)
    requires Shape(s) && Enabled(s, Serve(c, true)) && s.links[c].up[0].EnterRoom? && c !in s.members
    ensures AdmitStep(s, Next(s, Serve(c, true)), c)
  {
  }

  lemma KeyIsAnnounceStep(s: Net, c: nat, admit: bool)
    requires Shape(s) && Enabled(s, Serve(c, admit)) && s.links[c].record == Inside
    requires s.links[c].up[0].Announce? && s.links[c].up[0].inRoom
    ensures AnnounceStep(s, Next(s, Serve(c, admit)), c, s.links[c].up[0].key)
  {
    assert forall f :: f in s.links[c].up[1..] ==> f in s.links[c].up;
    assert EnterRoom in s.links[c].up ==> EnterRoom in s.links[c].up[1..];
  }

  lemma LeaveIsDepartStep(s: Net, c: nat, admit: bool)
    requires Shape(s) && Enabled(s, Serve(c, admit)) && s.links[c].up[0].LeaveRoom? && s.links[c].record == Inside
    ensures DepartStep(s, Next(s, Serve(c, admit)), c)
  {
  }

  /** Anything else concerns the sender only. */
  lemma RestIsRelayOnly(s: Net, c: nat, admit: bool)
    requires Shape(s) && Enabled(s, Serve(c, admit))
    requires var f := s.links[c].up[0];
             if f.EnterRoom? then !admit || c in s.members
             else if f.Announce? then !f.inRoom || s.links[c].record != Inside
             else s.links[c].record != Inside
    ensures RelayOnly(s, Next(s, Serve(c, admit)), c)
  {
  }

  lemma ServeKeeps(s: Net, c: nat, admit: bool)
    requires Inv(s) && Enabled(s, Serve(c, admit)) && Disciplined(s, Serve(c, admit))
    ensures Inv(Next(s, Serve(c, admit)))
  {
    var t, f := Next(s, Serve(c, admit)), s.links[c].up[0];
    assert LinkOk(s, c) && f in s.links[c].up;
    ServeKeepsLink(s, c, admit);
    if f.EnterRoom? && admit && c !in s.members {
      EntryIsAdmitStep(s, c);
      AdmitKeeps(s, t, c);
    } else if f.Announce? && f.inRoom && s.links[c].record == Inside {
      KeyIsAnnounceStep(s, c, admit);
      assert c in s.members ==> Present(s, s.links[c].owner);
      AnnounceKeeps(s, t, c, f.key);
    } else if f.LeaveRoom? && s.links[c].record == Inside {
      LeaveIsDepartStep(s, c, admit);
      DepartKeeps(s, t, c);
    } else {
      if EnterRoom !in s.links[c].up {
        SinceAll(s.links[c].up);
      }
      RestIsRelayOnly(s, c, admit);
      RelayOnlyKeeps(s, t, c);
    }
  }

  lemma CloseKeeps(s: Net, c: nat)
    requires Inv(s) && Enabled(s, Close(c)) && Disciplined(s, Close(c))
    ensures Inv(Next(s, Close(c)))
  {
    assert LinkOk(s, c);
    if s.links[c].record == Inside {
      DepartKeeps(s, Next(s, Close(c)), c);
    } else {
      RelayOnlyKeeps(s, Next(s, Close(c)), c);
    }
  }

  lemma KickIsRelayOnly(s: Net, c: nat, popped: bool)
    requires Local(s) && Enabled(s, Kick(c, popped))
    ensures RelayOnly(s, Next(s, Kick(c, popped)), c) && LinkOk(Next(s, Kick(c, popped)), c)
    ensures var l := Next(s, Kick(c, popped)).links[c];
            && !l.open && l.down == s.links[c].down && l.record == s.links[c].record
            && s.links[c].up == (if popped then [s.links[c].up[0]] else []) + l.up
  {
    assert LinkOk(s, c);
    assert forall f :: f in Next(s, Kick(c, popped)).links[c].up ==> f in s.links[c].up;
  }

  lemma KickKeeps(s: Net, c: nat, popped: bool)
    requires Inv(s) && Enabled(s, Kick(c, popped))
    ensures Inv(Next(s, Kick(c, popped)))
  {
    KickIsRelayOnly(s, c, popped);
    RelayOnlyKeeps(s, Next(s, Kick(c, popped)), c);
  }

  lemma ReapLocal(s: Net)
    requires Local(s)
    ensures Local(Next(s, Reap))
  {
    var t := Next(s, Reap);
    forall g | 0 <= g < |t.browsers| ensures TabOk(t, g, t.browsers[g].tab) {
      assert TabOk(s, g, s.browsers[g].tab);
    }
    forall c | 0 <= c < |t.links| ensures LinkOk(t, c) {
      assert LinkOk(s, c);
      if t.links[c] == s.links[c] {
        Untouched(s, t, c);
      }
    }
  }

  lemma ReapKeeps(s: Net)
    requires Inv(s)
    ensures Inv(Next(s, Reap))
  {
    ReapLocal(s);
  }

  // What every step keeps, under the premises or not.

  lemma ServeLocal(s: Net, c: nat, admit: bool)
    requires Local(s) && Enabled(s, Serve(c, admit))
    ensures Local(Next(s, Serve(c, admit)))
  {
    var t, f := Next(s, Serve(c, admit)), s.links[c].up[0];
    assert LinkOk(s, c) && f in s.links[c].up;
    ServeKeepsLink(s, c, admit);
    if f.EnterRoom? && admit && c !in s.members {
      EntryIsAdmitStep(s, c);
      AdmitLocal(s, t, c);
    } else if f.Announce? && f.inRoom && s.links[c].record == Inside {
      KeyIsAnnounceStep(s, c, admit);
      HeardLocal(s, t, c, KeyFrom(s.links[c].owner, Some(f.key)));
    } else if f.LeaveRoom? && s.links[c].record == Inside {
      LeaveIsDepartStep(s, c, admit);
      DepartLocal(s, t, c);
    } else {
      RestIsRelayOnly(s, c, admit);
      RelayOnlyLocal(s, t, c);
    }
  }

  lemma CloseLocal(s: Net, c: nat)
    requires Local(s) && Enabled(s, Close(c))
    ensures Local(Next(s, Close(c)))
  {
    assert LinkOk(s, c);
    if s.links[c].record == Inside {
      DepartLocal(s, Next(s, Close(c)), c);
    } else {
      RelayOnlyLocal(s, Next(s, Close(c)), c);
    }
  }

  lemma BrowserActsLocal(s: Net, step: Step)
    requires Local(s) && Enabled(s, step) && (step.Connect? || step.Enter? || step.Leave? || step.Drop?)
    ensures Local(Next(s, step))
  {
    var fp := step.fp;
    match step {
      case Connect(_, restored) => ConnectIsBrowserStep(s, fp, restored);
      case Enter(_) => EnterIsBrowserStep(s, fp);
      case Leave(_) => LeaveIsBrowserStep(s, fp);
      case Drop(_, kept, loss) => DropIsBrowserStep(s, fp, kept, loss);
    }
    BrowserStepLocal(s, Next(s, step), fp, if step.Connect? then |s.links| else s.browsers[fp].link.value);
  }

  /** No step, whether it keeps the premises or not, leaves the local part of the invariant. */
  lemma StepLocal(s: Net, step: Step)
    requires Local(s) && Enabled(s, step)
    ensures Local(Next(s, step))
  {
    match step
    case Receive(c) =>
      ReceiveIsBrowserStep(s, c);
      BrowserStepLocal(s, Next(s, step), s.links[c].owner, c);
    case Serve(c, admit) => ServeLocal(s, c, admit);
    case Close(c) => CloseLocal(s, c);
    case Kick(c, popped) =>
      KickIsRelayOnly(s, c, popped);
      RelayOnlyLocal(s, Next(s, step), c);
    case Reap => ReapLocal(s);
    case _ => BrowserActsLocal(s, step);
  }

  lemma {:induction false} RunLocal(s: Net, steps: seq<Step>)
    requires Local(s) && Possible(s, steps)
    ensures Local(After(s, steps))
    decreases |steps|
  {
    if steps != [] {
      StepLocal(s, steps[0]);
      RunLocal(Next(s, steps[0]), steps[1..]);
    }
  }

  /** In every run from a fresh start, however the premises are broken. */
  lemma AlwaysLocal(start: Net, run: seq<Step>)
    requires Initial(start) && Possible(start, run)
    ensures Local(After(start, run))
  {
    InitialInv(start);
    RunLocal(start, run);
  }

  // The invariant.

  /** Every step that the code takes under its premises keeps the invariant. */
  lemma StepKeeps(s: Net, step: Step)
    requires Inv(s) && Enabled(s, step) && Disciplined(s, step)
    ensures Inv(Next(s, step))
  {
    match step
    case Connect(fp, restored) => ConnectKeeps(s, fp, restored);
    case Enter(fp) => EnterKeeps(s, fp);
    case Leave(fp) => LeaveKeeps(s, fp);
    case Drop(fp, kept, loss) => DropKeeps(s, fp, kept, loss);
    case Receive(c) => ReceiveKeeps(s, c);
    case Serve(c, admit) => ServeKeeps(s, c, admit);
    case Close(c) => CloseKeeps(s, c);
    case Kick(c, popped) => KickKeeps(s, c, popped);
    case Reap => ReapKeeps(s);
  }

  lemma {:induction false} RunKeeps(s: Net, steps: seq<Step>)
    requires Inv(s) && DisciplinedRun(s, steps)
    ensures Possible(s, steps) && Inv(After(s, steps))
    decreases |steps|
  {
    if steps != [] {
      StepKeeps(s, steps[0]);
      RunKeeps(Next(s, steps[0]), steps[1..]);
    }
  }

  /** Handshake agreement: after any disciplined run, a quiet room agrees on who is ready and with which keys. */
  lemma HandshakeAgreement(s: Net, steps: seq<Step>)
    requires Initial(s) && DisciplinedRun(s, steps)
    ensures Possible(s, steps)
    ensures Quiescent(After(s, steps)) ==> Agreement(After(s, steps))
  {
    InitialInv(s);
    RunKeeps(s, steps);
    if Quiescent(After(s, steps)) {
      QuiescentAgreement(After(s, steps));
    }
  }
}
