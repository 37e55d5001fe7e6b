/**
 The handshake terminates, whether or not the premises of agreement are kept.
 While no browser acts by itself, whatever is pending is handled in the end:
 every such step lowers a measure, so key announcements cannot answer each other
 for ever, and when nothing is left the room is quiet.
 */
module HandshakeProgress {
  import opened Wrappers
  import opened PeerSession
  import opened Page
  import opened Handshake
  import opened HandshakeInvariant
  import opened HandshakeProof

  /** A browser handles an event, or the relay takes a frame or the end of an abandoned or closed connection. */
  predicate Settles(s: Net, step: Step)
    requires Enabled(s, step)
  {
    match step
    case Receive(_) => true
    case Serve(_, _) => true
    case Close(c) => s.browsers[s.links[c].owner].link != Some(c) || !s.links[c].open
    case _ => false
  }

  predicate SettlingRun(s: Net, steps: seq<Step>)
    ensures SettlingRun(s, steps) ==> Possible(s, steps)
    decreases |steps|
  {
    steps == []
    || (Enabled(s, steps[0]) && Settles(s, steps[0]) && SettlingRun(Next(s, steps[0]), steps[1..]))
  }

  /** A browser handles an event, or the relay forwards a key: nobody comes, goes or intrudes. */
  predicate Delivery(s: Net, step: Step)
    requires Enabled(s, step)
  {
    step.Receive? || (step.Serve? && s.links[step.c].up[0].Announce? && !Intrudes(s, step.c))
  }

  predicate DeliveryRun(s: Net, steps: seq<Step>)
    ensures DeliveryRun(s, steps) ==> Possible(s, steps)
    decreases |steps|
  {
    steps == [] ||
    (Enabled(s, steps[0]) && Delivery(s, steps[0]) && DeliveryRun(Next(s, steps[0]), steps[1..]))
  }

  // The measure. With n connections, a broadcast adds at most n events.

  /** The number of connections, and of browsers. */
  datatype Size = Size(n: nat, k: nat)

  function EventLoad(e: Event, z: Size): nat {
    match e
    case Joined(_) => z.n + 2
    case Left(_) => 2 * z.n + 3
    case RoomClosed => z.k * (z.n + 1) + 1
    case _ => 1
  }

  function DownLoad(q: seq<Event>, z: Size): nat {
    if q == [] then 0 else EventLoad(q[0], z) + DownLoad(q[1..], z)
  }

  /** How much a broadcast about this frame may add to one downlink. */
  function Burden(f: Frame, z: Size): nat {
    match f
    case Announce(_, _) => 1
    case EnterRoom => z.n + 2
    case LeaveRoom => 2 * z.n + 3
  }

  /** A frame outweighs the events it may add. */
  function FrameLoad(f: Frame, z: Size): nat {
    z.n * Burden(f, z) + 1
  }

  function UpLoad(q: seq<Frame>, z: Size): nat {
    if q == [] then 0 else FrameLoad(q[0], z) + UpLoad(q[1..], z)
  }

  /** The end of a connection may be as heavy as its leaving. */
  function LinkLoad(l: Link, z: Size): nat {
    UpLoad(l.up, z) + DownLoad(l.down, z) + if l.record.Gone? then 0 else FrameLoad(LeaveRoom, z)
  }

  function LinksLoad(links: seq<Link>, z: Size): nat {
    if links == [] then 0 else LinkLoad(links[0], z) + LinksLoad(links[1..], z)
  }

  /** Peers below k to whom our key has not gone out weigh n + 1 each. */
  function TabLoad(m: Sessions, k: nat, n: nat): nat {
    if k == 0 then 0 else TabLoad(m, k - 1, n) + if Sent(Peek(m, k - 1)) then 0 else n + 1
  }

  function TabsLoad(bs: seq<Browser>, z: Size): nat {
    if bs == [] then 0 else TabLoad(bs[0].tab.sessions, z.k, z.n) + TabsLoad(bs[1..], z)
  }

  function SizeOf(s: Net): Size {
    Size(|s.links|, |s.browsers|)
  }

  function Measure(s: Net): nat {
    LinksLoad(s.links, SizeOf(s)) + TabsLoad(s.browsers, SizeOf(s))
  }

  // How the sums change.

  lemma {:induction false} UpLoadAppend(q: seq<Frame>, f: Frame, z: Size)
    ensures UpLoad(q + [f], z) == UpLoad(q, z) + FrameLoad(f, z)
  {
    if q == [] {
      assert q + [f] == [f];
    } else {
      assert (q + [f])[1..] == q[1..] + [f];
      UpLoadAppend(q[1..], f, z);
    }
  }

  lemma {:induction false} DownLoadAppend(q: seq<Event>, e: Event, z: Size)
    ensures DownLoad(q + [e], z) == DownLoad(q, z) + EventLoad(e, z)
  {
    if q == [] {
      assert q + [e] == [e];
    } else {
      assert (q + [e])[1..] == q[1..] + [e];
      DownLoadAppend(q[1..], e, z);
    }
  }

  lemma {:induction false} LinksLoadUpdate(links: seq<Link>, c: nat, l: Link, z: Size)
    requires c < |links|
    ensures LinksLoad(links[c := l], z) + LinkLoad(links[c], z) == LinksLoad(links, z) + LinkLoad(l, z)
  {
    if c == 0 {
      assert links[c := l][1..] == links[1..];
    } else {
      assert links[c := l][1..] == links[1..][c - 1 := l];
      LinksLoadUpdate(links[1..], c - 1, l, z);
    }
  }

  lemma OneLess(m: nat, b: nat)
    ensures m * b == (m - 1) * b + b
  {
  }

  lemma {:induction false} LinksLoadGrows(before: seq<Link>, later: seq<Link>, z: Size, b: nat)
    requires |before| == |later|
    requires forall c :: 0 <= c < |before| ==> LinkLoad(later[c], z) <= LinkLoad(before[c], z) + b
    ensures LinksLoad(later, z) <= LinksLoad(before, z) + |before| * b
  {
    if before != [] {
      LinksLoadGrows(before[1..], later[1..], z, b);
      OneLess(|before|, b);
    }
  }

  lemma {:induction false} TabLoadChanges(m: Sessions, u: Sessions, fp: Fp, k: nat, n: nat)
    requires forall x :: x != fp ==> Peek(u, x) == Peek(m, x)
    ensures fp < k ==> TabLoad(u, k, n) + (if Sent(Peek(m, fp)) then 0 else n + 1)
                       == TabLoad(m, k, n) + if Sent(Peek(u, fp)) then 0 else n + 1
    ensures fp >= k ==> TabLoad(u, k, n) == TabLoad(m, k, n)
  {
    if k > 0 {
      TabLoadChanges(m, u, fp, k - 1, n);
    }
  }

  lemma {:induction false} TabLoadBound(m: Sessions, k: nat, n: nat)
    ensures TabLoad(m, k, n) <= k * (n + 1)
  {
    if k > 0 {
      TabLoadBound(m, k - 1, n);
      OneLess(k, n + 1);
    }
  }

  lemma {:induction false} TabsLoadUpdate(bs: seq<Browser>, i: nat, b: Browser, z: Size)
    requires i < |bs|
    ensures TabsLoad(bs[i := b], z) + TabLoad(bs[i].tab.sessions, z.k, z.n)
            == TabsLoad(bs, z) + TabLoad(b.tab.sessions, z.k, z.n)
  {
    if i == 0 {
      assert bs[i := b][1..] == bs[1..];
    } else {
      assert bs[i := b][1..] == bs[1..][i - 1 := b];
      TabsLoadUpdate(bs[1..], i - 1, b, z);
    }
  }

  // Each step.

  /** Handling an event frees at least as much of the tab's load as an announcement costs, or the event pays for it. */
  lemma HandleLoad(t: Tab, me: Fp, e: Event, z: Size)
    requires e.KeyFrom? ==> e.fp < z.k
    ensures TabLoad(Handle(t, me, e).sessions, z.k, z.n) + (if Answers(t, me, e) then z.n + 1 else 0)
            < TabLoad(t.sessions, z.k, z.n) + EventLoad(e, z)
  {
    if e.Joined? || e.Left? || e.KeyFrom? {
      forall x | x != e.fp ensures Peek(Handle(t, me, e).sessions, x) == Peek(t.sessions, x) {
      }
      TabLoadChanges(t.sessions, Handle(t, me, e).sessions, e.fp, z.k, z.n);
    } else if e.RoomClosed? {
      TabLoadBound(Handle(t, me, e).sessions, z.k, z.n);
    }
  }

  lemma ReceiveLowers(s: Net, c: nat)
    requires Local(s) && Enabled(s, Receive(c))
    ensures Measure(Next(s, Receive(c))) < Measure(s)
  {
    assert LinkOk(s, c) && s.links[c].down[0] in s.links[c].down;
    var t, z := Next(s, Receive(c)), SizeOf(s);
    var fp, e := s.links[c].owner, s.links[c].down[0];
    HandleLoad(s.browsers[fp].tab, fp, e, z);
    TabsLoadUpdate(s.browsers, fp, t.browsers[fp], z);
    UpLoadAppend(s.links[c].up, Announce(s.browsers[fp].pub, s.browsers[fp].tab.active), z);
    LinksLoadUpdate(s.links, c, t.links[c], z);
    assert t.links == s.links[c := t.links[c]] && t.browsers == s.browsers[fp := t.browsers[fp]];
  }

  /** One event more at most in this downlink, and not a heavier one. */
  ghost predicate OneMore(l: Link, m: Link, z: Size, b: nat) {
    m.up == l.up && (m.record.Gone? <==> l.record.Gone?)
    && (m.down == l.down || exists e :: m.down == l.down + [e] && EventLoad(e, z) <= b)
  }

  lemma OneMoreLoad(l: Link, m: Link, z: Size, b: nat)
    requires OneMore(l, m, z, b)
    ensures LinkLoad(m, z) <= LinkLoad(l, z) + b
  {
    if m.down != l.down {
      var e :| m.down == l.down + [e] && EventLoad(e, z) <= b;
      DownLoadAppend(l.down, e, z);
    }
  }

  /** Taking something off a link lowers the sum by more than a broadcast about it adds. */
  lemma TradeLowers(links: seq<Link>, c: nat, l: Link, later: seq<Link>, f: Frame, z: Size)
    requires c < |links| && |later| == |links| == z.n
    requires LinkLoad(links[c], z) == LinkLoad(l, z) + FrameLoad(f, z)
    requires forall d :: 0 <= d < |links| ==> OneMore(links[c := l][d], later[d], z, Burden(f, z))
    ensures LinksLoad(later, z) < LinksLoad(links, z)
  {
    LinksLoadUpdate(links, c, l, z);
    forall d | 0 <= d < |links| ensures LinkLoad(later[d], z) <= LinkLoad(links[c := l][d], z) + Burden(f, z) {
      OneMoreLoad(links[c := l][d], later[d], z, Burden(f, z));
    }
    LinksLoadGrows(links[c := l], later, z, Burden(f, z));
  }

  lemma HearingAddsOne(l: Link, listed: bool, e: Event, z: Size, b: nat)
    requires EventLoad(e, z) <= b
    ensures OneMore(l, Hearing(l, listed, e), z, b)
  {
  }

  lemma DepartAddsOne(s: Net, c: nat, z: Size)
    requires c < |s.links| == z.n
    ensures |Depart(s, c).links| == |s.links|
    ensures forall d :: 0 <= d < |s.links| ==> OneMore(s.links[d], Depart(s, c).links[d], z, Burden(LeaveRoom, z))
  {
    var e := Left(s.links[c].owner);
    forall d | 0 <= d < |s.links| ensures OneMore(s.links[d], Depart(s, c).links[d], z, Burden(LeaveRoom, z)) {
      HearingAddsOne(s.links[d], d in s.members && d != c, e, z, Burden(LeaveRoom, z));
    }
  }

  lemma LeavingLinks(s: Net, c: nat, d: nat)
    requires c < |s.links| && s.links[c].record == Inside && d < |s.links|
    ensures var t, e := Served(s, c, LeaveRoom, false), Left(s.links[c].owner);
            && |t.links| == |s.links|
            && t.links[d] == if d == c then Hearing(s.links[c].(record := Outside), true, Notice)
                             else Hearing(s.links[d], d in s.members, e)
  {
  }

  lemma LeavingAddsOneAt(s: Net, c: nat, z: Size, d: nat)
    requires c < |s.links| == z.n && s.links[c].record == Inside && d < |s.links|
    ensures |Served(s, c, LeaveRoom, false).links| == |s.links|
    ensures OneMore(s.links[d], Served(s, c, LeaveRoom, false).links[d], z, Burden(LeaveRoom, z))
  {
    LeavingLinks(s, c, d);
    if d != c {
      HearingAddsOne(s.links[d], d in s.members, Left(s.links[c].owner), z, Burden(LeaveRoom, z));
    } else {
      HearingAddsOne(s.links[c].(record := Outside), true, Notice, z, Burden(LeaveRoom, z));
    }
  }

  lemma LeavingAddsOne(s: Net, c: nat, z: Size)
    requires c < |s.links| == z.n && s.links[c].record == Inside
    ensures |Served(s, c, LeaveRoom, false).links| == |s.links|
    ensures forall d :: 0 <= d < |s.links| ==>
              OneMore(s.links[d], Served(s, c, LeaveRoom, false).links[d], z, Burden(LeaveRoom, z))
  {
    LeavingAddsOneAt(s, c, z, c);
    forall d | 0 <= d < |s.links|
      ensures OneMore(s.links[d], Served(s, c, LeaveRoom, false).links[d], z, Burden(LeaveRoom, z))
    {
      LeavingAddsOneAt(s, c, z, d);
    }
  }

  lemma EnteringAddsOne(s: Net, c: nat, z: Size)
    requires c !in s.members && c < |s.links| == z.n && s.links[c].record != Gone
    ensures |Served(s, c, EnterRoom, true).links| == |s.links|
    ensures forall d :: 0 <= d < |s.links| ==>
              OneMore(s.links[d], Served(s, c, EnterRoom, true).links[d], z, Burden(EnterRoom, z))
  {
    var t, e := Served(s, c, EnterRoom, true), Joined(s.links[c].owner);
    forall d | 0 <= d < |s.links| && d != c ensures t.links[d] == Hearing(s.links[d], d in s.members, e) {
    }
    assert t.links[c] == Hearing(s.links[c].(record := Inside), true, Notice);
    forall d | 0 <= d < |s.links| ensures OneMore(s.links[d], t.links[d], z, Burden(EnterRoom, z)) {
      if d != c {
        HearingAddsOne(s.links[d], d in s.members, e, z, Burden(EnterRoom, z));
      } else {
        HearingAddsOne(s.links[c].(record := Inside), true, Notice, z, Burden(EnterRoom, z));
      }
    }
  }

  lemma NoticeAddsOne(s: Net, c: nat, z: Size, b: nat)
    requires c < |s.links| == z.n && b >= 1
    ensures |Tell(s, c, Notice).links| == |s.links|
    ensures forall d :: 0 <= d < |s.links| ==> OneMore(s.links[d], Tell(s, c, Notice).links[d], z, b)
  {
    assert EventLoad(Notice, z) <= b;
  }

  lemma KeyAddsOne(s: Net, c: nat, key: Key, z: Size, b: nat)
    requires c < |s.links| == z.n && b >= 1
    ensures |Served(s, c, Announce(key, true), false).links| == |s.links|
    ensures forall d :: 0 <= d < |s.links| ==>
              OneMore(s.links[d], Served(s, c, Announce(key, true), false).links[d], z, b)
  {
    if s.links[c].record == Inside {
      var e := KeyFrom(s.links[c].owner, Some(key));
      forall d | 0 <= d < |s.links|
        ensures OneMore(s.links[d], Served(s, c, Announce(key, true), false).links[d], z, b)
      {
        HearingAddsOne(s.links[d], d in s.members && d != c, e, z, b);
      }
    }
  }

  lemma ServedAddsOne(s: Net, c: nat, f: Frame, admit: bool, z: Size)
    requires c < |s.links| == z.n && s.links[c].record != Gone
    ensures |Served(s, c, f, admit).links| == |s.links|
    ensures forall d :: 0 <= d < |s.links| ==> OneMore(s.links[d], Served(s, c, f, admit).links[d], z, Burden(f, z))
  {
    match f
    case Announce(key, inRoom) =>
      if inRoom {
        KeyAddsOne(s, c, key, z, 1);
      } else {
        NoticeAddsOne(s, c, z, 1);
      }
    case EnterRoom =>
      if admit && c !in s.members {
        EnteringAddsOne(s, c, z);
      } else {
        NoticeAddsOne(s, c, z, Burden(f, z));
      }
    case LeaveRoom =>
      if s.links[c].record == Inside {
        LeavingAddsOne(s, c, z);
      }
  }

  lemma ServeLowers(s: Net, c: nat, admit: bool)
    requires Shape(s) && Enabled(s, Serve(c, admit))
    ensures Measure(Next(s, Serve(c, admit))) < Measure(s)
  {
    var t := Next(s, Serve(c, admit));
    var l := s.links[c].(up := s.links[c].up[1..]);
    ServedAddsOne(s.(links := s.links[c := l]), c, s.links[c].up[0], admit, SizeOf(s));
    TradeLowers(s.links, c, l, t.links, s.links[c].up[0], SizeOf(s));
  }

  lemma CloseLowers(s: Net, c: nat)
    requires Enabled(s, Close(c))
    ensures Measure(Next(s, Close(c))) < Measure(s)
  {
    var t := Next(s, Close(c));
    var l := s.links[c].(open := false, record := Gone);
    DepartAddsOne(s.(links := s.links[c := l]), c, SizeOf(s));
    TradeLowers(s.links, c, l, t.links, LeaveRoom, SizeOf(s));
  }

  lemma StepLowers(s: Net, step: Step)
    requires Local(s) && Enabled(s, step) && Settles(s, step)
    ensures Measure(Next(s, step)) < Measure(s)
  {
    match step
    case Receive(c) => ReceiveLowers(s, c);
    case Serve(c, admit) => ServeLowers(s, c, admit);
    case Close(c) => CloseLowers(s, c);
  }

  // What follows for whole runs.

  /** From any state that a run can reach, whatever premises it broke, and by steps that break any. */
  lemma {:induction false} SettlingIsBounded(s: Net, steps: seq<Step>)
    requires Local(s) && SettlingRun(s, steps)
    ensures |steps| <= Measure(s) && Local(After(s, steps))
    decreases |steps|
  {
    if steps != [] {
      StepLowers(s, steps[0]);
      StepLocal(s, steps[0]);
      SettlingIsBounded(Next(s, steps[0]), steps[1..]);
    }
  }

  ghost predicate Stuck(s: Net) {
    forall step :: Enabled(s, step) ==> !Settles(s, step)
  }

  lemma NothingPending(s: Net, step: Step)
    requires Stuck(s) && (Enabled(s, step) ==> Settles(s, step))
    ensures !Enabled(s, step)
  {
  }

  /** With nothing pending, every member is a browser that is there and has nothing left to do. */
  lemma StuckIsQuiescent(s: Net)
    requires Local(s) && Stuck(s)
    ensures Quiescent(s)
  {
    forall c | c in s.members ensures Quiet(s, c) {
      assert LinkOk(s, c);
      if s.browsers[s.links[c].owner].link != Some(c) || !s.links[c].open {
        NothingPending(s, Close(c));
      } else {
        NothingPending(s, Receive(c));
        NothingPending(s, Serve(c, true));
      }
    }
  }

  /** And nothing keeps the system from getting there. */
  lemma {:induction false} SettlingReachesStuck(s: Net) returns (steps: seq<Step>)
    requires Local(s)
    ensures SettlingRun(s, steps) && Stuck(After(s, steps))
    decreases Measure(s)
  {
    if Stuck(s) {
      steps := [];
    } else {
      var step :| Enabled(s, step) && Settles(s, step);
      StepLowers(s, step);
      StepLocal(s, step);
      var rest := SettlingReachesStuck(Next(s, step));
      steps := [step] + rest;
      assert steps[1..] == rest;
    }
  }

  /**
   Handshake termination, after every possible run: however relay and browsers
   interleave, requests to enter and leave, keys, events and the ends of
   abandoned and closed connections are all handled within Measure(s) steps,
   and once nothing is pending the room is quiet. No premise is needed for that;
   if both runs keep them, the room also agrees.
   */
  lemma HandshakeConverges(start: Net, run: seq<Step>, steps: seq<Step>)
    requires Initial(start) && Possible(start, run) && SettlingRun(After(start, run), steps)
    ensures var s := After(start, run);
            && |steps| <= Measure(s)
            && (Stuck(After(s, steps)) ==> Quiescent(After(s, steps)))
            && (Stuck(After(s, steps)) && DisciplinedRun(start, run) && DisciplinedRun(s, steps) ==>
                  Agreement(After(s, steps)))
  {
    var s := After(start, run);
    AlwaysLocal(start, run);
    SettlingIsBounded(s, steps);
    if Stuck(After(s, steps)) {
      StuckIsQuiescent(After(s, steps));
      if DisciplinedRun(start, run) && DisciplinedRun(s, steps) {
        InitialInv(start);
        RunKeeps(start, run);
        RunKeeps(s, steps);
        QuiescentAgreement(After(s, steps));
      }
    }
  }

  // While nobody comes or goes.

  lemma ReceiveKeepsRoom(s: Net, d: nat)
    requires Local(s) && Enabled(s, Receive(d))
    ensures var t := Next(s, Receive(d)); t.members == s.members && forall c :: Seated(s, c) ==> Seated(t, c)
  {
    assert LinkOk(s, d) && s.links[d].down[0] in s.links[d].down;
  }

  lemma DeliveryKeepsRoom(s: Net, step: Step)
    requires Local(s) && Enabled(s, step) && Delivery(s, step)
    ensures Disciplined(s, step)
    ensures var t := Next(s, step); t.members == s.members && forall c :: Seated(s, c) ==> Seated(t, c)
  {
    if step.Receive? {
      ReceiveKeepsRoom(s, step.c);
    } else {
      assert forall f :: f in s.links[step.c].up[1..] ==> f in s.links[step.c].up;
    }
  }

  /** Deliveries end, and leave the members as they are; if the premises were kept so far, they still are. */
  lemma {:induction false} DeliveriesAreBounded(s: Net, steps: seq<Step>)
    requires Local(s) && DeliveryRun(s, steps)
    ensures |steps| <= Measure(s) && Local(After(s, steps)) && After(s, steps).members == s.members
    ensures forall c :: Seated(s, c) ==> Seated(After(s, steps), c)
    ensures Inv(s) ==> Inv(After(s, steps))
    decreases |steps|
  {
    if steps != [] {
      DeliveryKeepsRoom(s, steps[0]);
      StepLowers(s, steps[0]);
      StepLocal(s, steps[0]);
      if Inv(s) {
        StepKeeps(s, steps[0]);
      }
      DeliveriesAreBounded(Next(s, steps[0]), steps[1..]);
    }
  }

  /** While every member is seated, some run of deliveries makes the room quiet. */
  lemma {:induction false} QuietIsReached(s: Net) returns (steps: seq<Step>)
    requires Local(s) && forall c :: c in s.members ==> Seated(s, c)
    ensures DeliveryRun(s, steps) && Quiescent(After(s, steps))
    decreases Measure(s)
  {
    if Quiescent(s) {
      steps := [];
    } else {
      var step := SomeDelivery(s);
      DeliveryKeepsRoom(s, step);
      StepLocal(s, step);
      StepLowers(s, step);
      var rest := QuietIsReached(Next(s, step));
      steps := [step] + rest;
      assert steps[1..] == rest;
    }
  }

  /** If the premises have been kept so far, that run reaches agreement, with the same members. */
  lemma AgreementIsReached(s: Net) returns (steps: seq<Step>)
    requires Inv(s) && forall c :: c in s.members ==> Seated(s, c)
    ensures DeliveryRun(s, steps)
    ensures Agreement(After(s, steps)) && After(s, steps).members == s.members
  {
    steps := QuietIsReached(s);
    DeliveriesAreBounded(s, steps);
    QuiescentAgreement(After(s, steps));
  }

  lemma SomeDelivery(s: Net) returns (step: Step)
    requires Local(s) && !Quiescent(s) && forall c :: c in s.members ==> Seated(s, c)
    ensures Enabled(s, step) && Delivery(s, step)
  {
    var c :| c in s.members && !Quiet(s, c);
    assert Seated(s, c) && LinkOk(s, c);
    if s.links[c].down != [] {
      step := Receive(c);
    } else {
      step := Serve(c, true);
      SinceAll(s.links[c].up);
      assert s.links[c].up[0] in s.links[c].up;
    }
  }
}
