/**
 Browsers and the relay of one room as a step system. Each connection has a
 first-in first-out uplink and downlink; the relay takes one uplink frame a
 step and broadcasts to the current members. The relay may close a connection
 or reap the room, still takes what a closed connection had under way, and
 notices the end of a connection at some later time. A connection is named by
 its number, a browser by its fingerprint.
 */
module Handshake {
  import opened Wrappers
  import opened PeerSession
  import opened Page

  /** `EnterRoom` stands for both room:create and room:join. A key announced outside a room names no room. */
  datatype Frame = EnterRoom | Announce(key: Key, inRoom: bool) | LeaveRoom

  /** The relay's record of a client: forgotten, in no room, or in the room, though perhaps on its list no more. */
  datatype Record = Gone | Outside | Inside

  /** `open` is the relay's side of the socket. */
  datatype Link = Link(owner: Fp, up: seq<Frame>, down: seq<Event>, open: bool, record: Record)

  datatype Browser = Browser(pub: Key, link: Option<nat>, tab: Tab)

  /** `members` lists the connections in the room in the order in which they joined. */
  datatype Net = Net(browsers: seq<Browser>, links: seq<Link>, members: seq<nat>)

  /** How a browser loses its connection: a close event, a silent teardown, or a page reload. */
  datatype Loss = CloseEvent | Teardown | Reload

  datatype Step =
    | Connect(fp: Fp, restored: bool)
    | Enter(fp: Fp)
    | Leave(fp: Fp)
    | Drop(fp: Fp, kept: nat, loss: Loss)
    | Receive(c: nat)
    | Serve(c: nat, admit: bool)
    | Close(c: nat)
    | Kick(c: nat, popped: bool)
    | Reap

  predicate Enabled(s: Net, step: Step) {
    match step
    case Connect(fp, _) => fp < |s.browsers| && s.browsers[fp].link.None?
    case Enter(fp) => Attached(s, fp)
    case Leave(fp) => Attached(s, fp)
    case Drop(fp, kept, _) => Attached(s, fp) && kept <= |s.links[s.browsers[fp].link.value].up|
    case Receive(c) => Owned(s, c) && s.browsers[s.links[c].owner].link == Some(c) && s.links[c].down != []
    case Serve(c, _) => Owned(s, c) && s.links[c].record != Gone && s.links[c].up != []
    case Close(c) => Owned(s, c) && s.links[c].record != Gone
    case Kick(c, popped) => Owned(s, c) && s.links[c].open && (popped ==> s.links[c].up != [])
    case Reap => true
  }

  predicate Owned(s: Net, c: nat) {
    c < |s.links| && s.links[c].owner < |s.browsers|
  }

  predicate Attached(s: Net, fp: Fp) {
    fp < |s.browsers| && s.browsers[fp].link.Some? && s.browsers[fp].link.value < |s.links|
  }

  // The pieces of a step.

  /** Appends an event to the downlink of every listed open connection except the sender's. */
  function Broadcast(links: seq<Link>, to: seq<nat>, sender: nat, e: Event): (r: seq<Link>)
    ensures |r| == |links|
    ensures forall c :: 0 <= c < |links| ==> r[c] == Hearing(links[c], c in to && c != sender, e)
  {
    seq(|links|, c requires 0 <= c < |links| => Hearing(links[c], c in to && c != sender, e))
  }

  function Hearing(l: Link, listed: bool, e: Event): Link {
    if listed && l.open then l.(down := l.down + [e]) else l
  }

  /** Every open member is told that the room is closed, and its socket is closed. */
  function Expelled(links: seq<Link>, members: seq<nat>): (r: seq<Link>)
    ensures |r| == |links|
    ensures forall c :: 0 <= c < |links| ==> r[c] == Expelling(links[c], c in members)
  {
    seq(|links|, c requires 0 <= c < |links| => Expelling(links[c], c in members))
  }

  function Expelling(l: Link, member: bool): Link {
    if member && l.open then l.(down := l.down + [RoomClosed], open := false) else l
  }

  function SendUp(s: Net, c: nat, f: Frame): Net
    requires c < |s.links|
  {
    s.(links := s.links[c := s.links[c].(up := s.links[c].up + [f])])
  }

  /** Nothing is written to a closed socket. */
  function Tell(s: Net, c: nat, e: Event): Net
    requires c < |s.links|
  {
    s.(links := s.links[c := Hearing(s.links[c], true, e)])
  }

  function WithTab(s: Net, fp: Fp, t: Tab): Net
    requires fp < |s.browsers|
  {
    s.(browsers := s.browsers[fp := s.browsers[fp].(tab := t)])
  }

  function Lost(t: Tab, loss: Loss): Tab {
    match loss
    case CloseEvent => t.(sessions := ResetAll(t.sessions, DISCONNECTED))
    case Teardown => t
    case Reload => EMPTY_TAB
  }

  /** The connection is off the list, whether it was on it or not, and everybody on the list is told. */
  function Depart(s: Net, c: nat): Net
    requires c < |s.links|
  {
    s.(links := Broadcast(s.links, s.members, c, Left(s.links[c].owner)), members := Without(s.members, c))
  }

  function WithRecord(s: Net, c: nat, record: Record): Net
    requires c < |s.links|
  {
    s.(links := s.links[c := s.links[c].(record := record)])
  }

  /** The relay handles the frame at the head of an uplink. It admits by its list, all else goes by its record. */
  function Served(s: Net, c: nat, f: Frame, admit: bool): Net
    requires c < |s.links|
  {
    match f
    case EnterRoom =>
      if admit && c !in s.members then
        var t := WithRecord(Tell(s, c, Notice), c, Inside);
        t.(links := Broadcast(t.links, s.members, c, Joined(s.links[c].owner)), members := s.members + [c])
      else Tell(s, c, Notice)
    case Announce(key, inRoom) =>
      if !inRoom then Tell(s, c, Notice)
      else if s.links[c].record != Inside then s
      else s.(links := Broadcast(s.links, s.members, c, KeyFrom(s.links[c].owner, Some(key))))
    case LeaveRoom =>
      if s.links[c].record != Inside then s else Tell(WithRecord(Depart(s, c), c, Outside), c, Notice)
  }

  /** The tab enters a room and asks the relay for admission. */
  function Entering(s: Net, fp: Fp, c: nat, clearPeers: bool): Net
    requires fp < |s.browsers| && c < |s.links|
  {
    SendUp(WithTab(s, fp, Entered(s.browsers[fp].tab, clearPeers)), c, EnterRoom)
  }

  function Received(s: Net, c: nat): Net
    requires Enabled(s, Receive(c))
  {
    var fp, e := s.links[c].owner, s.links[c].down[0];
    var b := s.browsers[fp];
    var popped := s.(links := s.links[c := s.links[c].(down := s.links[c].down[1..])]);
    var handled := WithTab(popped, fp, Handle(b.tab, fp, e));
    if Answers(b.tab, fp, e) then SendUp(handled, c, Announce(b.pub, b.tab.active)) else handled
  }

  function Next(s: Net, step: Step): Net
    requires Enabled(s, step)
  {
    match step
    case Connect(fp, restored) =>
      var c := |s.links|;
      var b := s.browsers[fp];
      var t := s.(links := s.links + [Link(fp, [], [], true, Outside)],
                  browsers := s.browsers[fp := b.(link := Some(c))]);
      if b.tab.active || restored then Entering(t, fp, c, false) else t
    case Enter(fp) => Entering(s, fp, s.browsers[fp].link.value, true)
    case Leave(fp) =>
      SendUp(WithTab(s, fp, Reset(s.browsers[fp].tab)), s.browsers[fp].link.value, LeaveRoom)
    case Drop(fp, kept, loss) =>
      var b := s.browsers[fp];
      var c := b.link.value;
      s.(browsers := s.browsers[fp := b.(link := None, tab := Lost(b.tab, loss))],
         links := s.links[c := s.links[c].(up := s.links[c].up[..kept])])
    case Receive(c) => Received(s, c)
    case Serve(c, admit) =>
      var f := s.links[c].up[0];
      Served(s.(links := s.links[c := s.links[c].(up := s.links[c].up[1..])]), c, f, admit)
    case Close(c) =>
      var t := s.(links := s.links[c := s.links[c].(open := false, record := Gone)]);
      if s.links[c].record == Inside then Depart(t, c) else t
    case Kick(c, popped) =>
      s.(links := s.links[c := s.links[c].(open := false, up := s.links[c].up[if popped then 1 else 0..])])
    case Reap => s.(links := Expelled(s.links, s.members), members := [])
  }

  /** Nobody is connected and no tab knows anybody. */
  predicate Initial(s: Net) {
    && s.links == [] && s.members == []
    && forall b :: b in s.browsers ==> |b.pub| == KEY_LENGTH && b.link.None? && b.tab == EMPTY_TAB
  }

  // What a tab will hold.

  /** One peer's session after an event about that or another peer. */
  function Advance(e: Event, x: Fp, o: Option<Session>): Option<Session> {
    match e
    case Joined(fp) => if fp == x then Some(Session(KEY_SENT, None, false)) else o
    case Left(fp) => if fp == x then None else o
    case KeyFrom(fp, key) => if fp == x && key.Some? then Some(Session(READY, key, true)) else o
    case RoomClosed => None
    case Notice => o
  }

  function Settle(q: seq<Event>, x: Fp, o: Option<Session>): Option<Session> {
    if q == [] then o else Settle(q[1..], x, Advance(q[0], x, o))
  }

  function SessionOf(s: Net, c: nat, x: Fp): Option<Session>
    requires Owned(s, c)
  {
    Peek(TabOf(s, c).sessions, x)
  }

  /** What the browser of connection c will hold for peer x once it has handled its downlink. */
  function Future(s: Net, c: nat, x: Fp): Option<Session>
    requires Owned(s, c)
  {
    Settle(s.links[c].down, x, SessionOf(s, c, x))
  }

  // What the code relies on and does not enforce.

  /** Whether another live connection of this one's browser has settled in the room. */
  predicate SeatedTwin(s: Net, c: nat)
    requires c < |s.links|
  {
    exists d :: d in s.members && d != c && Owned(s, d) && s.links[d].owner == s.links[c].owner && Seated(s, d)
  }

  /** The relay has closed the connection and reaped its room, but the client's record keeps the room. */
  predicate Lingers(s: Net, c: nat)
    requires c < |s.links|
  {
    s.links[c].record == Inside && c !in s.members
  }

  /** The relay is about to forward a key for a lingering connection. */
  predicate Intrudes(s: Net, c: nat)
    requires c < |s.links|
  {
    Lingers(s, c) && s.links[c].up != [] && s.links[c].up[0].Announce? && s.links[c].up[0].inRoom
  }

  predicate Present(s: Net, fp: Fp) {
    exists c :: c in s.members && c < |s.links| && s.links[c].owner == fp
  }

  /** The browser is still there, its socket open, and this request is the last it has made. */
  predicate Final(s: Net, c: nat) {
    Engaged(s, c) && s.links[c].open && s.links[c].up != [] && EnterRoom !in s.links[c].up[1..]
  }

  /** Nothing in the downlink or the tab will make the browser ready for somebody who is not in the room. */
  ghost predicate NoLeftovers(s: Net, c: nat)
    requires Owned(s, c)
  {
    forall x :: x != s.links[c].owner && Ready(Future(s, c, x)) ==> Present(s, x)
  }

  /**
   When the relay takes the last request of a browser that is still there, the
   connection is not in the room already, and nothing is left over from before.
   */
  ghost predicate EntryOk(s: Net, c: nat, admit: bool)
    requires Owned(s, c)
  {
    Final(s, c) ==> if c in s.members then false else admit ==> NoLeftovers(s, c)
  }

  /**
   The relay announces a departure only if no other connection of the same
   browser has settled in the room, and forwards a key for a connection that it
   has expelled only if the browser is in the room that has come back.
   */
  ghost predicate Disciplined(s: Net, step: Step)
    requires Enabled(s, step)
  {
    match step
    case Serve(c, admit) =>
      && (s.links[c].up[0].EnterRoom? ==> EntryOk(s, c, admit))
      && (s.links[c].up[0].LeaveRoom? && s.links[c].record == Inside ==> !SeatedTwin(s, c))
      && (Intrudes(s, c) ==> Present(s, s.links[c].owner))
    case Close(c) => s.links[c].record == Inside ==> !SeatedTwin(s, c)
    case _ => true
  }

  predicate Possible(s: Net, steps: seq<Step>)
    decreases |steps|
  {
    steps == [] || (Enabled(s, steps[0]) && Possible(Next(s, steps[0]), steps[1..]))
  }

  ghost predicate DisciplinedRun(s: Net, steps: seq<Step>)
    ensures DisciplinedRun(s, steps) ==> Possible(s, steps)
    decreases |steps|
  {
    steps == [] ||
    (Enabled(s, steps[0]) && Disciplined(s, steps[0]) && DisciplinedRun(Next(s, steps[0]), steps[1..]))
  }

  function After(s: Net, steps: seq<Step>): Net
    requires Possible(s, steps)
    decreases |steps|
  {
    if steps == [] then s else After(Next(s, steps[0]), steps[1..])
  }

  // What a run is meant to achieve.

  /** The member's browser is still there and has not left the room. */
  predicate Engaged(s: Net, c: nat) {
    Owned(s, c) && s.browsers[s.links[c].owner].link == Some(c) && s.browsers[s.links[c].owner].tab.active
  }

  predicate Quiet(s: Net, c: nat) {
    Engaged(s, c) && s.links[c].open && s.links[c].up == [] && s.links[c].down == []
  }

  /** The member's browser is there, its socket is open, and no request of it to enter is pending. */
  predicate Seated(s: Net, c: nat) {
    Engaged(s, c) && s.links[c].open && EnterRoom !in s.links[c].up
  }

  predicate Quiescent(s: Net) {
    forall c :: c in s.members ==> Quiet(s, c)
  }

  function TabOf(s: Net, c: nat): Tab
    requires Owned(s, c)
  {
    s.browsers[s.links[c].owner].tab
  }

  /** The fingerprints of the other members. */
  function Others(s: Net, c: nat): set<Fp> {
    set d | d in s.members && d != c && d < |s.links| :: s.links[d].owner
  }

  /** The tab is ready for exactly the other members, and with their real keys. */
  predicate AgreesAt(s: Net, c: nat)
    requires Owned(s, c)
  {
    var t := TabOf(s, c);
    && ReadyPeers(t.sessions) == Others(s, c)
    && forall fp :: fp in Others(s, c) ==>
         && fp < |s.browsers|
         && IsReady(t.sessions, fp)
         && t.sessions[fp].publicKeyReceived == Some(s.browsers[fp].pub)
         && fp in t.peers
         && fp in t.secrets && t.secrets[fp] == s.browsers[fp].pub
  }

  predicate Agreement(s: Net) {
    forall c :: c in s.members ==> Owned(s, c) && AgreesAt(s, c)
  }
}
