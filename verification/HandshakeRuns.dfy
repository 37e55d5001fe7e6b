/** Complete runs, from browsers that are all away to a quiet room that does not agree. */
module HandshakeRuns {
  import opened Wrappers
  import opened PeerSession
  import opened Page
  import opened Handshake
  import opened HandshakeProgress

  predicate SameTab(t: Tab, u: Tab) {
    t.sessions == u.sessions && t.peers == u.peers && t.secrets == u.secrets && t.active == u.active
  }

  predicate SameLink(l: Link, m: Link) {
    l.owner == m.owner && l.up == m.up && l.down == m.down && l.open == m.open && l.record == m.record
  }

  /** Equality, spelt out field by field. */
  predicate Same(n: Net, m: Net) {
    && |n.browsers| == |m.browsers| && |n.links| == |m.links| && n.members == m.members
    && (forall i :: 0 <= i < |n.browsers| ==>
          && n.browsers[i].pub == m.browsers[i].pub && n.browsers[i].link == m.browsers[i].link
          && SameTab(n.browsers[i].tab, m.browsers[i].tab))
    && (forall c :: 0 <= c < |n.links| ==> SameLink(n.links[c], m.links[c]))
  }

  lemma SameIsEqual(n: Net, m: Net)
    requires Same(n, m)
    ensures n == m
  {
    assert n.browsers == m.browsers && n.links == m.links;
  }

  predicate Leads(n: Net, step: Step, m: Net) {
    Enabled(n, step) && Same(Next(n, step), m)
  }

  predicate Reaches(n: Net, steps: seq<Step>, m: Net) {
    Possible(n, steps) && After(n, steps) == m
  }

  /** Extends a run at its front. */
  lemma Prepend(n: Net, step: Step, m: Net, steps: seq<Step>, z: Net) returns (r: seq<Step>)
    requires Leads(n, step, m) && Reaches(m, steps, z)
    ensures Reaches(n, r, z)
  {
    SameIsEqual(Next(n, step), m);
    r := [step] + steps;
    assert r[1..] == steps;
  }

  ghost predicate ReachesWell(n: Net, steps: seq<Step>, m: Net) {
    DisciplinedRun(n, steps) && After(n, steps) == m
  }

  /** The same with a step that breaks no premise. */
  lemma PrependWell(n: Net, step: Step, m: Net, steps: seq<Step>, z: Net) returns (r: seq<Step>)
    requires Leads(n, step, m) && Disciplined(n, step) && ReachesWell(m, steps, z)
    ensures ReachesWell(n, r, z)
  {
    SameIsEqual(Next(n, step), m);
    r := [step] + steps;
    assert r[1..] == steps;
  }

  const INSIDE := Tab(map[], [], map[], true)

  function ReadyFor(fp: Fp, k: Key): Tab {
    Tab(map[fp := Session(READY, Some(k), true)], [fp], map[fp := k], true)
  }

  function Away(k: Key): Browser {
    Browser(k, None, EMPTY_TAB)
  }

  /** A live connection of a member, and of somebody else. */
  function Seat(fp: Fp, up: seq<Frame>, down: seq<Event>): Link {
    Link(fp, up, down, true, Inside)
  }

  function Guest(fp: Fp, up: seq<Frame>, down: seq<Event>): Link {
    Link(fp, up, down, true, Outside)
  }

  function Idle(fp: Fp): Link {
    Seat(fp, [], [])
  }

  function Start(k0: Key, k1: Key): Net {
    Net([Away(k0), Away(k1)], [], [])
  }

  /** Browser 0 has joined. */
  function Alone(k0: Key, k1: Key): Net {
    Net([Browser(k0, Some(0), INSIDE), Away(k1)], [Seat(0, [], [Notice])], [0])
  }

  /** Browser 0 has vanished and come back before the relay noticed. */
  function Rejoined(k0: Key, k1: Key): Net {
    Net([Browser(k0, Some(1), INSIDE), Away(k1)],
        [Seat(0, [], [Notice, Joined(0)]), Seat(0, [], [Notice])], [0, 1])
  }

  /** Browser 1 has joined. */
  function Met(k0: Key, k1: Key): Net {
    Net([Browser(k0, Some(1), INSIDE), Browser(k1, Some(2), INSIDE)],
        [Seat(0, [], [Notice, Joined(0), Joined(1)]), Seat(0, [], [Notice, Joined(1)]),
         Seat(1, [], [Notice])],
        [0, 1, 2])
  }

  /** Its arrival has reached browser 0, which announces its key. */
  function Introduced(k0: Key, k1: Key): Net {
    Net([Browser(k0, Some(1), Tab(map[1 := Session(KEY_SENT, None, false)], [1], map[], true)),
         Browser(k1, Some(2), INSIDE)],
        [Seat(0, [], [Notice, Joined(0), Joined(1)]), Seat(0, [Announce(k0, true)], []), Idle(1)],
        [0, 1, 2])
  }

  /** Browser 1 has that key and announces its own. */
  function Answered(k0: Key, k1: Key): Net {
    Net([Browser(k0, Some(1), Tab(map[1 := Session(KEY_SENT, None, false)], [1], map[], true)),
         Browser(k1, Some(2), ReadyFor(0, k0))],
        [Seat(0, [], [Notice, Joined(0), Joined(1), KeyFrom(0, Some(k0))]), Idle(0),
         Seat(1, [Announce(k1, true)], [])],
        [0, 1, 2])
  }

  function OldInbox(k0: Key, k1: Key): seq<Event> {
    [Notice, Joined(0), Joined(1), KeyFrom(0, Some(k0)), KeyFrom(1, Some(k1))]
  }

  /** Both browsers hold each other's key. */
  function Exchanged(k0: Key, k1: Key): Net {
    Net([Browser(k0, Some(1), ReadyFor(1, k1)), Browser(k1, Some(2), ReadyFor(0, k0))],
        [Seat(0, [], OldInbox(k0, k1)), Idle(0), Idle(1)], [0, 1, 2])
  }

  /** The relay has noticed the end of the old connection and everybody has been told. */
  function Torn(k0: Key, k1: Key): Net {
    Net([Browser(k0, Some(1), ReadyFor(1, k1)), Browser(k1, Some(2), Tab(map[], [], map[0 := k0], true))],
        [Link(0, [], OldInbox(k0, k1), false, Gone), Idle(0), Idle(1)], [1, 2])
  }

  lemma JoinRun(k0: Key, k1: Key) returns (n: Net)
    ensures Leads(Start(k0, k1), Connect(0, true), n) && Leads(n, Serve(0, true), Alone(k0, k1))
  {
    n := Net([Browser(k0, Some(0), INSIDE), Away(k1)], [Guest(0, [EnterRoom], [])], []);
  }

  function Vanished(k0: Key, k1: Key): Net {
    Net([Away(k0).(tab := INSIDE), Away(k1)], [Seat(0, [], [Notice])], [0])
  }

  lemma Vanishes(k0: Key, k1: Key)
    ensures Leads(Alone(k0, k1), Drop(0, 0, CloseEvent), Vanished(k0, k1))
  {
  }

  lemma RejoinRun(k0: Key, k1: Key) returns (n: Net)
    ensures Leads(Vanished(k0, k1), Connect(0, true), n)
    ensures Leads(n, Serve(1, true), Rejoined(k0, k1))
  {
    n := Net([Browser(k0, Some(1), INSIDE), Away(k1)],
             [Seat(0, [], [Notice]), Guest(0, [EnterRoom], [])], [0]);
  }

  function Knocking(k0: Key, k1: Key): Net {
    Net([Browser(k0, Some(1), INSIDE), Browser(k1, Some(2), INSIDE)],
        [Seat(0, [], [Notice, Joined(0)]), Seat(0, [], [Notice]), Guest(1, [EnterRoom], [])],
        [0, 1])
  }

  lemma Knocks(k0: Key, k1: Key)
    ensures Leads(Rejoined(k0, k1), Connect(1, true), Knocking(k0, k1))
  {
  }

  lemma Meets(k0: Key, k1: Key)
    ensures Leads(Knocking(k0, k1), Serve(2, true), Met(k0, k1))
  {
    var t := Next(Knocking(k0, k1), Serve(2, true));
    assert t.links[0] == Seat(0, [], [Notice, Joined(0), Joined(1)]);
    assert t.links[1] == Seat(0, [], [Notice, Joined(1)]) && t.links[2] == Seat(1, [], [Notice]);
  }

  /** The notices of the two live connections are handled. */
  function Noticed(k0: Key, k1: Key): Net {
    Met(k0, k1).(links := [Met(k0, k1).links[0], Seat(0, [], [Joined(1)]), Idle(1)])
  }

  lemma Notices(k0: Key, k1: Key) returns (m: Net)
    ensures Leads(Met(k0, k1), Receive(1), m) && Leads(m, Receive(2), Noticed(k0, k1))
  {
    m := Met(k0, k1).(links := [Met(k0, k1).links[0], Seat(0, [], [Joined(1)]), Seat(1, [], [Notice])]);
  }

  lemma Introduces(k0: Key, k1: Key)
    ensures Leads(Noticed(k0, k1), Receive(1), Introduced(k0, k1))
  {
  }

  function FirstKeySent(k0: Key, k1: Key): Net {
    Introduced(k0, k1).(links := [Answered(k0, k1).links[0], Idle(0), Seat(1, [], [KeyFrom(0, Some(k0))])])
  }

  function SecondKeySent(k0: Key, k1: Key): Net {
    Answered(k0, k1).(links := [Exchanged(k0, k1).links[0], Seat(0, [], [KeyFrom(1, Some(k1))]), Idle(1)])
  }

  lemma FirstKeyForwarded(k0: Key, k1: Key)
    ensures Leads(Introduced(k0, k1), Serve(1, true), FirstKeySent(k0, k1))
  {
  }

  lemma FirstKeyReceived(k0: Key, k1: Key)
    requires |k0| == KEY_LENGTH
    ensures Leads(FirstKeySent(k0, k1), Receive(2), Answered(k0, k1))
  {
  }

  lemma SecondKeyForwarded(k0: Key, k1: Key)
    ensures Leads(Answered(k0, k1), Serve(2, true), SecondKeySent(k0, k1))
  {
    var t := Next(Answered(k0, k1), Serve(2, true));
    assert t.links[0] == Seat(0, [], OldInbox(k0, k1)) && t.links[2] == Idle(1);
    assert t.links[1] == Seat(0, [], [KeyFrom(1, Some(k1))]);
  }

  lemma SecondKeyReceived(k0: Key, k1: Key)
    requires |k1| == KEY_LENGTH
    ensures Leads(SecondKeySent(k0, k1), Receive(1), Exchanged(k0, k1))
  {
    var t := Next(SecondKeySent(k0, k1), Receive(1));
    assert t.browsers[0].tab.sessions == ReadyFor(1, k1).sessions && t.links[1] == Idle(0);
  }

  function OldClosed(k0: Key, k1: Key): Net {
    Exchanged(k0, k1).(links := [Torn(k0, k1).links[0], Seat(0, [], [Left(0)]), Seat(1, [], [Left(0)])],
                       members := [1, 2])
  }

  lemma OldCloses(k0: Key, k1: Key)
    ensures Leads(Exchanged(k0, k1), Close(0), OldClosed(k0, k1))
  {
    assert Without([0, 1, 2], 0) == [1, 2] by {
      assert Without([0, 1, 2], 0) == Without([1, 2], 0) == [1] + Without([2], 0);
    }
    var s, t := Exchanged(k0, k1), Next(Exchanged(k0, k1), Close(0));
    assert t.links[0] == s.links[0].(open := false, record := Gone);
    assert t.links[1] == Seat(0, [], [] + [Left(0)]) && t.links[2] == Seat(1, [], [] + [Left(0)]);
  }

  function HalfTorn(k0: Key, k1: Key): Net {
    Torn(k0, k1).(links := [Torn(k0, k1).links[0], Seat(0, [], [Left(0)]), Idle(1)])
  }

  lemma Tears(k0: Key, k1: Key)
    ensures Leads(OldClosed(k0, k1), Receive(2), HalfTorn(k0, k1))
  {
    assert Without([0], 0) == Without([], 0);
  }

  lemma EchoesBack(k0: Key, k1: Key)
    ensures Leads(HalfTorn(k0, k1), Receive(1), Torn(k0, k1))
  {
    assert Without([1], 0) == [1] + Without([], 0);
  }

  lemma FromIntroduced(k0: Key, k1: Key) returns (steps: seq<Step>)
    requires |k0| == |k1| == KEY_LENGTH
    ensures Reaches(Introduced(k0, k1), steps, Torn(k0, k1))
  {
    var z := Torn(k0, k1);
    EchoesBack(k0, k1);
    steps := Prepend(HalfTorn(k0, k1), Receive(1), z, [], z);
    Tears(k0, k1);
    steps := Prepend(OldClosed(k0, k1), Receive(2), HalfTorn(k0, k1), steps, z);
    OldCloses(k0, k1);
    steps := Prepend(Exchanged(k0, k1), Close(0), OldClosed(k0, k1), steps, z);
    SecondKeyReceived(k0, k1);
    steps := Prepend(SecondKeySent(k0, k1), Receive(1), Exchanged(k0, k1), steps, z);
    SecondKeyForwarded(k0, k1);
    steps := Prepend(Answered(k0, k1), Serve(2, true), SecondKeySent(k0, k1), steps, z);
    FirstKeyReceived(k0, k1);
    steps := Prepend(FirstKeySent(k0, k1), Receive(2), Answered(k0, k1), steps, z);
    FirstKeyForwarded(k0, k1);
    steps := Prepend(Introduced(k0, k1), Serve(1, true), FirstKeySent(k0, k1), steps, z);
  }

  lemma FromRejoined(k0: Key, k1: Key) returns (steps: seq<Step>)
    requires |k0| == |k1| == KEY_LENGTH
    ensures Reaches(Rejoined(k0, k1), steps, Torn(k0, k1))
  {
    var z := Torn(k0, k1);
    steps := FromIntroduced(k0, k1);
    Introduces(k0, k1);
    steps := Prepend(Noticed(k0, k1), Receive(1), Introduced(k0, k1), steps, z);
    var m := Notices(k0, k1);
    steps := Prepend(m, Receive(2), Noticed(k0, k1), steps, z);
    steps := Prepend(Met(k0, k1), Receive(1), m, steps, z);
    Meets(k0, k1);
    steps := Prepend(Knocking(k0, k1), Serve(2, true), Met(k0, k1), steps, z);
    Knocks(k0, k1);
    steps := Prepend(Rejoined(k0, k1), Connect(1, true), Knocking(k0, k1), steps, z);
  }

  lemma FromStart(k0: Key, k1: Key) returns (steps: seq<Step>)
    requires |k0| == |k1| == KEY_LENGTH
    ensures Reaches(Start(k0, k1), steps, Torn(k0, k1))
  {
    var z := Torn(k0, k1);
    steps := FromRejoined(k0, k1);
    var n := RejoinRun(k0, k1);
    steps := Prepend(n, Serve(1, true), Rejoined(k0, k1), steps, z);
    steps := Prepend(Vanished(k0, k1), Connect(0, true), n, steps, z);
    Vanishes(k0, k1);
    steps := Prepend(Alone(k0, k1), Drop(0, 0, CloseEvent), Vanished(k0, k1), steps, z);
    n := JoinRun(k0, k1);
    steps := Prepend(n, Serve(0, true), Alone(k0, k1), steps, z);
    steps := Prepend(Start(k0, k1), Connect(0, true), n, steps, z);
  }

  /**
   Browser 0 reconnects before the relay has noticed that its old connection is
   gone. The late departure then removes the live session: the room is quiet,
   both browsers are members, and browser 1 does not hold browser 0.
   */
  lemma OverlapBreaksAgreement(k0: Key, k1: Key) returns (s: Net, steps: seq<Step>)
    requires |k0| == |k1| == KEY_LENGTH
    ensures Initial(s) && Possible(s, steps)
    ensures Quiescent(After(s, steps)) && !Agreement(After(s, steps))
  {
    s := Start(k0, k1);
    steps := FromStart(k0, k1);
    var z := Torn(k0, k1);
    assert Quiet(z, 1) && Quiet(z, 2) && Owned(z, 2);
    assert z.links[1].owner in Others(z, 2) && ReadyPeers(TabOf(z, 2).sessions) == {};
    assert 2 in z.members && !AgreesAt(z, 2);
  }

  // A run in which a leftover key does harm.

  /** Browser 1 has joined browser 0, which answers with its key. */
  function Greeted(k0: Key, k1: Key): Net {
    Net([Browser(k0, Some(0), Tab(map[1 := Session(KEY_SENT, None, false)], [1], map[], true)),
         Browser(k1, Some(1), INSIDE)],
        [Seat(0, [Announce(k0, true)], []), Seat(1, [], [Notice])], [0, 1])
  }

  /** Browser 1 has left and entered again before handling that key. */
  function Hurried(k0: Key, k1: Key): Net {
    Net([Greeted(k0, k1).browsers[0], Browser(k1, Some(1), INSIDE)],
        [Seat(0, [], []), Seat(1, [LeaveRoom, EnterRoom], [KeyFrom(0, Some(k0))])], [0, 1])
  }

  /** The relay has taken both browsers off the list. */
  function Emptied(k0: Key, k1: Key): Net {
    Net([Browser(k0, Some(0), EMPTY_TAB), Browser(k1, Some(1), INSIDE)],
        [Guest(0, [], [Left(1), Notice]), Guest(1, [EnterRoom], [KeyFrom(0, Some(k0)), Notice])], [])
  }

  function Readmitted(k0: Key, k1: Key): Net {
    Emptied(k0, k1).(links := [Emptied(k0, k1).links[0],
                               Seat(1, [], [KeyFrom(0, Some(k0)), Notice, Notice])],
                     members := [1])
  }

  /** Browser 1, alone in the room, is ready for browser 0. */
  function Haunted(k0: Key, k1: Key): Net {
    Net([Browser(k0, Some(0), EMPTY_TAB), Browser(k1, Some(1), ReadyFor(0, k0))],
        [Guest(0, [], [Left(1), Notice]), Idle(1)], [1])
  }

  function TwoInside(k0: Key, k1: Key, links: seq<Link>, members: seq<nat>): Net {
    Net([Browser(k0, Some(0), INSIDE), Browser(k1, Some(1), INSIDE)], links, members)
  }

  function Arrived(k0: Key, k1: Key): Net {
    TwoInside(k0, k1, [Seat(0, [], [Notice, Joined(1)]), Seat(1, [], [Notice])], [0, 1])
  }

  function Arriving(k0: Key, k1: Key): Net {
    TwoInside(k0, k1, [Seat(0, [], [Notice]), Guest(1, [EnterRoom], [])], [0])
  }

  lemma Approaches(k0: Key, k1: Key)
    ensures Leads(Alone(k0, k1), Connect(1, true), Arriving(k0, k1))
  {
  }

  lemma Arrives(k0: Key, k1: Key)
    ensures Leads(Arriving(k0, k1), Serve(1, true), Arrived(k0, k1))
  {
    var t := Next(Arriving(k0, k1), Serve(1, true));
    assert t.links[0] == Seat(0, [], [Notice, Joined(1)]) && t.links[1] == Seat(1, [], [Notice]);
  }

  lemma ArrivesClean(k0: Key, k1: Key)
    ensures Enabled(Arriving(k0, k1), Serve(1, true)) && Disciplined(Arriving(k0, k1), Serve(1, true))
  {
  }

  lemma Greets(k0: Key, k1: Key) returns (m: Net)
    ensures Leads(Arrived(k0, k1), Receive(0), m) && Leads(m, Receive(0), Greeted(k0, k1))
  {
    m := TwoInside(k0, k1, [Seat(0, [], [Joined(1)]), Seat(1, [], [Notice])], [0, 1]);
  }

  /** The key of browser 0 is at the door of browser 1. */
  function Waiting(k0: Key, k1: Key): Net {
    Greeted(k0, k1).(links := [Idle(0), Seat(1, [], [KeyFrom(0, Some(k0))])])
  }

  lemma Waits(k0: Key, k1: Key) returns (m: Net)
    ensures Leads(Greeted(k0, k1), Serve(0, true), m) && Leads(m, Receive(1), Waiting(k0, k1))
  {
    m := Greeted(k0, k1).(links := [Idle(0), Seat(1, [], [Notice, KeyFrom(0, Some(k0))])]);
  }

  lemma Hurries(k0: Key, k1: Key) returns (m: Net)
    ensures Leads(Waiting(k0, k1), Leave(1), m) && Leads(m, Enter(1), Hurried(k0, k1))
  {
    m := Net([Greeted(k0, k1).browsers[0], Browser(k1, Some(1), EMPTY_TAB)],
             [Idle(0), Seat(1, [LeaveRoom], [KeyFrom(0, Some(k0))])], [0, 1]);
  }

  /** The relay has taken browser 1 off the list. */
  function Halved(k0: Key, k1: Key): Net {
    Hurried(k0, k1).(links := [Seat(0, [], [Left(1)]), Emptied(k0, k1).links[1]], members := [0])
  }

  lemma Halves(k0: Key, k1: Key)
    ensures Leads(Hurried(k0, k1), Serve(1, true), Halved(k0, k1))
  {
    assert Without([0, 1], 1) == [0] + Without([1], 1) && Without([1], 1) == Without([], 1);
  }

  lemma Empties(k0: Key, k1: Key) returns (m: Net)
    ensures Leads(Halved(k0, k1), Leave(0), m) && Leads(m, Serve(0, true), Emptied(k0, k1))
  {
    m := Net(Emptied(k0, k1).browsers, [Seat(0, [LeaveRoom], [Left(1)]), Emptied(k0, k1).links[1]], [0]);
    assert Without([0], 0) == Without([], 0);
  }

  lemma HurriedToEmptied(k0: Key, k1: Key) returns (steps: seq<Step>)
    ensures ReachesWell(Waiting(k0, k1), steps, Emptied(k0, k1))
  {
    var z := Emptied(k0, k1);
    var m := Empties(k0, k1);
    steps := PrependWell(m, Serve(0, true), z, [], z);
    steps := PrependWell(Halved(k0, k1), Leave(0), m, steps, z);
    Halves(k0, k1);
    steps := PrependWell(Hurried(k0, k1), Serve(1, true), Halved(k0, k1), steps, z);
    m := Hurries(k0, k1);
    steps := PrependWell(m, Enter(1), Hurried(k0, k1), steps, z);
    steps := PrependWell(Waiting(k0, k1), Leave(1), m, steps, z);
  }

  /** Every run of the two may begin with their meeting. */
  lemma FromGreeted(k0: Key, k1: Key, rest: seq<Step>, z: Net) returns (steps: seq<Step>)
    requires ReachesWell(Greeted(k0, k1), rest, z)
    ensures ReachesWell(Start(k0, k1), steps, z)
  {
    var m := Greets(k0, k1);
    steps := PrependWell(m, Receive(0), Greeted(k0, k1), rest, z);
    steps := PrependWell(Arrived(k0, k1), Receive(0), m, steps, z);
    Arrives(k0, k1);
    ArrivesClean(k0, k1);
    steps := PrependWell(Arriving(k0, k1), Serve(1, true), Arrived(k0, k1), steps, z);
    Approaches(k0, k1);
    steps := PrependWell(Alone(k0, k1), Connect(1, true), Arriving(k0, k1), steps, z);
    m := JoinRun(k0, k1);
    steps := PrependWell(m, Serve(0, true), Alone(k0, k1), steps, z);
    steps := PrependWell(Start(k0, k1), Connect(0, true), m, steps, z);
  }

  lemma ToEmptied(k0: Key, k1: Key) returns (steps: seq<Step>)
    ensures ReachesWell(Start(k0, k1), steps, Emptied(k0, k1))
  {
    var z := Emptied(k0, k1);
    steps := HurriedToEmptied(k0, k1);
    var m := Waits(k0, k1);
    steps := PrependWell(m, Receive(1), Waiting(k0, k1), steps, z);
    steps := PrependWell(Greeted(k0, k1), Serve(0, true), m, steps, z);
    steps := FromGreeted(k0, k1, steps, z);
  }

  predicate Delivers(n: Net, steps: seq<Step>, z: Net) {
    DeliveryRun(n, steps) && After(n, steps) == z
  }

  lemma PrependDelivery(n: Net, step: Step, m: Net, steps: seq<Step>, z: Net) returns (r: seq<Step>)
    requires Leads(n, step, m) && Delivery(n, step) && Delivers(m, steps, z)
    ensures Delivers(n, r, z)
  {
    SameIsEqual(Next(n, step), m);
    r := [step] + steps;
    assert r[1..] == steps;
  }

  lemma Admission(k0: Key, k1: Key)
    ensures Leads(Emptied(k0, k1), Serve(1, true), Readmitted(k0, k1))
  {
  }

  /** The leftover key has been handled, and answered. */
  function Spooked(k0: Key, k1: Key): Net {
    Haunted(k0, k1).(links := [Haunted(k0, k1).links[0], Seat(1, [Announce(k1, true)], [Notice, Notice])])
  }

  lemma Spooks(k0: Key, k1: Key)
    requires |k0| == KEY_LENGTH
    ensures Leads(Readmitted(k0, k1), Receive(1), Spooked(k0, k1))
  {
  }

  lemma Haunting(k0: Key, k1: Key) returns (m: Net, n: Net)
    ensures Leads(Spooked(k0, k1), Receive(1), m) && Leads(m, Receive(1), n)
    ensures Leads(n, Serve(1, true), Haunted(k0, k1))
    ensures n.links[1].up == [Announce(k1, true)]
  {
    m := Spooked(k0, k1).(links := [Haunted(k0, k1).links[0], Seat(1, [Announce(k1, true)], [Notice])]);
    n := Spooked(k0, k1).(links := [Haunted(k0, k1).links[0], Seat(1, [Announce(k1, true)], [])]);
  }

  lemma ToHaunted(k0: Key, k1: Key) returns (steps: seq<Step>)
    requires |k0| == KEY_LENGTH
    ensures Delivers(Readmitted(k0, k1), steps, Haunted(k0, k1))
  {
    var z := Haunted(k0, k1);
    var m, n := Haunting(k0, k1);
    steps := PrependDelivery(n, Serve(1, true), z, [], z);
    steps := PrependDelivery(m, Receive(1), n, steps, z);
    steps := PrependDelivery(Spooked(k0, k1), Receive(1), m, steps, z);
    Spooks(k0, k1);
    steps := PrependDelivery(Readmitted(k0, k1), Receive(1), Spooked(k0, k1), steps, z);
  }

  lemma HauntedDisagrees(k0: Key, k1: Key)
    ensures Quiescent(Haunted(k0, k1)) && !Agreement(Haunted(k0, k1))
  {
    var z := Haunted(k0, k1);
    assert Quiet(z, 1) && Owned(z, 1) && 0 in ReadyPeers(TabOf(z, 1).sessions) && 0 !in Others(z, 1);
    assert 1 in z.members && !AgreesAt(z, 1);
  }

  /**
   Browser 1 leaves and enters again before it has handled a key of browser 0,
   which leaves too. The whole run keeps the premises up to the admission, which
   breaks only the one about leftovers. Once everything is delivered the room is
   quiet, and its one member is ready for a browser that is not in it.
   */
  lemma LeftoverBreaksAgreement(k0: Key, k1: Key) returns (start: Net, run: seq<Step>, rest: seq<Step>)
    requires |k0| == |k1| == KEY_LENGTH
    ensures Initial(start) && DisciplinedRun(start, run)
    ensures var s := After(start, run);
            && Enabled(s, Serve(1, true)) && 1 !in s.members && !Present(s, s.links[1].owner)
            && DeliveryRun(Next(s, Serve(1, true)), rest)
            && Quiescent(After(Next(s, Serve(1, true)), rest)) && !Agreement(After(Next(s, Serve(1, true)), rest))
  {
    start := Start(k0, k1);
    run := ToEmptied(k0, k1);
    rest := ToHaunted(k0, k1);
    Admission(k0, k1);
    SameIsEqual(Next(Emptied(k0, k1), Serve(1, true)), Readmitted(k0, k1));
    HauntedDisagrees(k0, k1);
  }

  // A run in which a key that an expelled connection had under way does harm.

  /** What is left of the connections when the room has been reaped. */
  function Expelled0(up: seq<Frame>): Link {
    Link(0, up, [RoomClosed], false, Inside)
  }

  const EXPELLED1 := Link(1, [], [Notice, RoomClosed], false, Inside)

  /** The room is reaped while the key of browser 0 is under way. */
  function Reaped(k0: Key, k1: Key): Net {
    Net(Greeted(k0, k1).browsers, [Expelled0([Announce(k0, true)]), EXPELLED1], [])
  }

  function Reloaded(k0: Key, k1: Key): Net {
    Reaped(k0, k1).(browsers := [Greeted(k0, k1).browsers[0], Away(k1)])
  }

  function Back(k0: Key, k1: Key, up: seq<Frame>, link: Link, members: seq<nat>): Net {
    Net([Greeted(k0, k1).browsers[0], Browser(k1, Some(2), INSIDE)], [Expelled0(up), EXPELLED1, link], members)
  }

  /** Browser 1 has reloaded and created the room anew. */
  function Reopened(k0: Key, k1: Key): Net {
    Back(k0, k1, [Announce(k0, true)], Seat(1, [], [Notice]), [2])
  }

  lemma Reaps(k0: Key, k1: Key)
    ensures Leads(Greeted(k0, k1), Reap, Reaped(k0, k1)) && Leads(Reaped(k0, k1), Drop(1, 0, Reload), Reloaded(k0, k1))
  {
  }

  lemma Reopens(k0: Key, k1: Key) returns (m: Net)
    ensures Leads(Reloaded(k0, k1), Connect(1, true), m)
    ensures Leads(m, Serve(2, true), Reopened(k0, k1)) && Disciplined(m, Serve(2, true))
  {
    m := Back(k0, k1, [Announce(k0, true)], Guest(1, [EnterRoom], []), []);
  }

  lemma ToReopened(k0: Key, k1: Key) returns (steps: seq<Step>)
    ensures ReachesWell(Start(k0, k1), steps, Reopened(k0, k1))
  {
    var z := Reopened(k0, k1);
    var m := Reopens(k0, k1);
    steps := PrependWell(m, Serve(2, true), z, [], z);
    steps := PrependWell(Reloaded(k0, k1), Connect(1, true), m, steps, z);
    Reaps(k0, k1);
    steps := PrependWell(Reaped(k0, k1), Drop(1, 0, Reload), Reloaded(k0, k1), steps, z);
    steps := PrependWell(Greeted(k0, k1), Reap, Reaped(k0, k1), steps, z);
    steps := FromGreeted(k0, k1, steps, z);
  }

  function Intruded(k0: Key, k1: Key): Net {
    Back(k0, k1, [], Seat(1, [], [Notice, KeyFrom(0, Some(k0))]), [2])
  }

  lemma Intrusion(k0: Key, k1: Key)
    ensures Leads(Reopened(k0, k1), Serve(0, true), Intruded(k0, k1)) && Intrudes(Reopened(k0, k1), 0)
  {
  }

  /** Browser 1, alone in the room, is ready for browser 0. */
  function Deceived(k0: Key, k1: Key, up: seq<Frame>): Net {
    Net([Greeted(k0, k1).browsers[0], Browser(k1, Some(2), ReadyFor(0, k0))],
        [Expelled0([]), EXPELLED1, Seat(1, up, [])], [2])
  }

  /** The notice of its admission is handled. */
  function Fooled(k0: Key, k1: Key): Net {
    Back(k0, k1, [], Seat(1, [], [KeyFrom(0, Some(k0))]), [2])
  }

  lemma Fools(k0: Key, k1: Key)
    ensures Leads(Intruded(k0, k1), Receive(2), Fooled(k0, k1))
  {
  }

  lemma Deceives(k0: Key, k1: Key)
    requires |k0| == KEY_LENGTH
    ensures Leads(Fooled(k0, k1), Receive(2), Deceived(k0, k1, [Announce(k1, true)]))
  {
  }

  lemma Believes(k0: Key, k1: Key)
    ensures Leads(Deceived(k0, k1, [Announce(k1, true)]), Serve(2, true), Deceived(k0, k1, []))
  {
  }

  lemma ToDeceived(k0: Key, k1: Key) returns (steps: seq<Step>)
    requires |k0| == KEY_LENGTH
    ensures Delivers(Intruded(k0, k1), steps, Deceived(k0, k1, []))
  {
    var z, y := Deceived(k0, k1, []), Deceived(k0, k1, [Announce(k1, true)]);
    Believes(k0, k1);
    steps := PrependDelivery(y, Serve(2, true), z, [], z);
    Deceives(k0, k1);
    steps := PrependDelivery(Fooled(k0, k1), Receive(2), y, steps, z);
    Fools(k0, k1);
    steps := PrependDelivery(Intruded(k0, k1), Receive(2), Fooled(k0, k1), steps, z);
  }

  /**
   The room is reaped while a key of browser 0 is under way, and browser 1 opens
   it anew. The whole run keeps the premises; then the relay forwards that key.
   Once everything is delivered the room is quiet, and its one member is ready
   for a browser that is not in it, until the relay notices that the connection
   of browser 0 has ended.
   */
  lemma IntrusionBreaksAgreement(k0: Key, k1: Key) returns (start: Net, run: seq<Step>, rest: seq<Step>)
    requires |k0| == |k1| == KEY_LENGTH
    ensures Initial(start) && DisciplinedRun(start, run)
    ensures var s := After(start, run);
            && Enabled(s, Serve(0, true)) && Intrudes(s, 0) && DeliveryRun(Next(s, Serve(0, true)), rest)
            && Quiescent(After(Next(s, Serve(0, true)), rest)) && !Agreement(After(Next(s, Serve(0, true)), rest))
  {
    start := Start(k0, k1);
    run := ToReopened(k0, k1);
    rest := ToDeceived(k0, k1);
    Intrusion(k0, k1);
    SameIsEqual(Next(Reopened(k0, k1), Serve(0, true)), Intruded(k0, k1));
    var z := Deceived(k0, k1, []);
    assert Quiet(z, 2) && Owned(z, 2) && 0 in ReadyPeers(TabOf(z, 2).sessions) && 0 !in Others(z, 2);
    assert 2 in z.members && !AgreesAt(z, 2);
  }
}
