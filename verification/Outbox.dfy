/**
 The browser's WebSocket client: its bounded queue of frames, its reconnect
 timer, and the page's listener that re-enters the room on every open.
 Frames are numbered as they are submitted.
 */
module Outbox {
  datatype Kind = CreateRoom | JoinRoom | LeaveRoom | Other

  datatype Frame = Frame(number: nat, kind: Kind)

  /** The state of the current socket, if there is one. */
  datatype Socket = NoSocket | Connecting | Open | Closing | Closed

  /** A socket opened when `at` frames had been sent; `rejoins` says that a room was active. */
  datatype Opening = Opening(at: nat, rejoins: bool)

  /**
   The client with what has happened so far. `armed` is the 10-second timeout of
   the current socket, `stale` counts timeouts of abandoned attempts: tearing a
   socket down does not disarm its timeout.
   */
  datatype Client = Client(
    ws: Socket,
    reconnectTimer: bool,
    intentionalClose: bool,
    messageQueue: seq<Frame>,
    roomActive: bool,
    armed: bool,
    stale: nat,
    submitted: seq<Kind>,
    sent: seq<Frame>,
    dropped: nat,
    openings: seq<Opening>)

  const MAX_QUEUE_SIZE := 100

  const INITIAL := Client(NoSocket, false, false, [], false, false, 0, [], [], 0, [])

  // The operations.

  function TornDown(c: Client): Client {
    c.(reconnectTimer := false, ws := NoSocket, armed := false, stale := c.stale + if c.armed then 1 else 0)
  }

  function Connected(c: Client): Client {
    if c.ws == Open then c else TornDown(c).(intentionalClose := false, ws := Connecting, armed := true)
  }

  function Cleared(c: Client): Client {
    c.(messageQueue := [], dropped := c.dropped + |c.messageQueue|)
  }

  function Disconnected(c: Client): Client {
    TornDown(Cleared(c.(intentionalClose := true)))
  }

  function Resumed(c: Client): Client {
    if c.ws == Connecting then c else Connected(TornDown(c))
  }

  function Submitted(c: Client, kind: Kind): Client {
    var f := Frame(|c.submitted|, kind);
    var d := c.(submitted := c.submitted + [kind]);
    if c.ws == Open then d.(sent := c.sent + [f])
    else if |c.messageQueue| < MAX_QUEUE_SIZE then d.(messageQueue := c.messageQueue + [f])
    else d.(dropped := c.dropped + 1)
  }

  function Flushed(c: Client): Client {
    if c.ws != Open then c else c.(sent := c.sent + c.messageQueue, messageQueue := [])
  }

  /** Entering and leaving a room first clear the queue. */
  function Exchange(c: Client, kind: Kind): Client {
    Submitted(Cleared(c), kind)
  }

  /** The socket opens: the listener re-enters an active or stored room, then the queue is flushed. */
  function Opened(c: Client, stored: bool): Client {
    var rejoins := c.roomActive || stored;
    var d := c.(ws := Open, armed := false, reconnectTimer := false,
                openings := c.openings + [Opening(|c.sent|, rejoins)], roomActive := rejoins);
    Flushed(if rejoins then Exchange(d, CreateRoom) else d)
  }

  function AfterClose(c: Client): Client {
    var d := c.(armed := false);
    if c.intentionalClose then d.(ws := Closed) else d.(ws := NoSocket, reconnectTimer := true)
  }

  class WebSocketClient {
    var ws: Socket
    var reconnectTimer: bool
    var intentionalClose: bool
    var messageQueue: seq<Frame>
    var roomActive: bool
    var armed: bool
    var stale: nat
    ghost var submitted: seq<Kind>
    ghost var sent: seq<Frame>
    ghost var dropped: nat
    ghost var openings: seq<Opening>
    var counter: nat

    ghost function Contents(): Client
      reads this
    {
      Client(ws, reconnectTimer, intentionalClose, messageQueue, roomActive, armed, stale,
             submitted, sent, dropped, openings)
    }

    ghost predicate Valid()
      reads this
    {
      counter == |submitted| && Good(Contents())
    }

    constructor ()
      ensures Valid() && Contents() == INITIAL
    {
      ws, reconnectTimer, intentionalClose, messageQueue := NoSocket, false, false, [];
      roomActive, armed, stale, counter := false, false, 0, 0;
      submitted, sent, dropped, openings := [], [], 0, [];
    }

    method Teardown()
      requires counter == |submitted|
      modifies this
      ensures Contents() == TornDown(old(Contents())) && counter == old(counter)
      ensures ws == NoSocket && !reconnectTimer && !armed && stale == old(stale) + if old(armed) then 1 else 0
      ensures messageQueue == old(messageQueue) && sent == old(sent) && intentionalClose == old(intentionalClose)
    {
      if reconnectTimer {
        reconnectTimer := false;
      }
      if armed {
        stale := stale + 1;
      }
      armed := false;
      ws := NoSocket;
    }

    method Connect()
      requires Valid()
      modifies this
      ensures Valid() && Contents() == Connected(old(Contents()))
      ensures old(ws) == Open ==> Contents() == old(Contents())
      ensures old(ws) != Open ==>
                ws == Connecting && armed && !reconnectTimer && !intentionalClose
                && stale == old(stale) + if old(armed) then 1 else 0
      ensures messageQueue == old(messageQueue) && sent == old(sent)
    {
      ConnectKeeps(Contents());
      if ws == Open {
        return;
      }
      Teardown();
      intentionalClose := false;
      ws := Connecting;
      armed := true;
    }

    method SendMessage(kind: Kind)
      requires counter == |submitted|
      modifies this
      ensures Contents() == Submitted(old(Contents()), kind) && counter == |submitted|
      ensures submitted == old(submitted) + [kind] && ws == old(ws)
      ensures sent == old(sent) + if ws == Open then [Frame(old(counter), kind)] else []
      ensures messageQueue == old(messageQueue)
                              + if ws != Open && |old(messageQueue)| < 100 then [Frame(old(counter), kind)] else []
      ensures dropped == old(dropped) + if ws != Open && |old(messageQueue)| >= 100 then 1 else 0
    {
      var f := Frame(counter, kind);
      counter := counter + 1;
      submitted := submitted + [kind];
      if ws == Open {
        sent := sent + [f];
      } else if |messageQueue| < MAX_QUEUE_SIZE {
        messageQueue := messageQueue + [f];
      } else {
        dropped := dropped + 1;
      }
    }

    method ClearQueue()
      modifies this
      ensures Contents() == Cleared(old(Contents())) && counter == old(counter)
      ensures messageQueue == [] && sent == old(sent) && ws == old(ws)
    {
      dropped := dropped + |messageQueue|;
      messageQueue := [];
    }

    method FlushQueue()
      modifies this
      ensures Contents() == Flushed(old(Contents())) && counter == old(counter)
      ensures ws == old(ws) && messageQueue == if ws == Open then [] else old(messageQueue)
      ensures sent == old(sent) + if ws == Open then old(messageQueue) else []
    {
      if ws != Open {
        return;
      }
      var queue := messageQueue;
      messageQueue := [];
      for i := 0 to |queue|
        invariant Contents() == old(Contents()).(messageQueue := [], sent := old(sent) + queue[..i])
        invariant counter == old(counter)
      {
        sent := sent + [queue[i]];
        assert old(sent) + queue[..i + 1] == old(sent) + queue[..i] + [queue[i]];
      }
      assert queue[..|queue|] == queue;
    }

    /** Runs when the browser reports the current socket open. */
    method OnOpen(stored: bool)
      requires Valid() && ws == Connecting
      modifies this
      ensures Valid() && Contents() == Opened(old(Contents()), stored)
      ensures ws == Open && !armed && !reconnectTimer && messageQueue == []
      ensures roomActive <==> old(roomActive) || stored
      ensures sent == old(sent) + if roomActive then [Frame(old(counter), CreateRoom)] else old(messageQueue)
    {
      OpenKeeps(Contents(), stored);
      OpeningExactly(Contents(), stored);
      ghost var opening := Opening(|sent|, roomActive || stored);
      ghost var atOpening := Contents().(ws := Open, armed := false, reconnectTimer := false,
                                         openings := openings + [opening], roomActive := roomActive || stored);
      ws := Open;
      armed := false;
      openings := openings + [Opening(|sent|, roomActive || stored)];
      reconnectTimer := false;
      if !roomActive && stored {
        roomActive := true;
      }
      assert Contents() == atOpening;
      if roomActive {
        ClearQueue();
        SendMessage(CreateRoom);
      }
      FlushQueue();
    }

    method Disconnect()
      requires Valid()
      modifies this
      ensures Valid() && Contents() == Disconnected(old(Contents()))
      ensures ws == NoSocket && !reconnectTimer && intentionalClose && messageQueue == [] && sent == old(sent)
    {
      ClearKeeps(Contents());
      intentionalClose := true;
      ClearQueue();
      Teardown();
    }

    method Resume()
      requires Valid()
      modifies this
      ensures Valid() && Contents() == Resumed(old(Contents()))
      ensures old(ws) == Connecting ==> Contents() == old(Contents())
      ensures ws == Connecting && messageQueue == old(messageQueue) && sent == old(sent)
      ensures old(ws) != Connecting ==>
                armed && !reconnectTimer && !intentionalClose && stale == old(stale) + if old(armed) then 1 else 0
    {
      ConnectKeeps(Contents());
      if ws != NoSocket {
        if ws != Connecting {
          Teardown();
          Connect();
        }
      } else {
        Connect();
      }
    }

    /** createRoom, joinRoom and leaveRoom. */
    method EnterOrLeave(kind: Kind)
      requires Valid()
      modifies this
      ensures Valid() && Contents() == Exchange(old(Contents()), kind) && ws == old(ws)
      ensures sent == old(sent) + if ws == Open then [Frame(old(counter), kind)] else []
      ensures messageQueue == if ws == Open then [] else [Frame(old(counter), kind)]
    {
      ClearKeeps(Contents());
      SendKeeps(Cleared(Contents()), kind);
      ClearQueue();
      SendMessage(kind);
    }

    method OnClose()
      requires Valid() && ws != NoSocket && ws != Closed
      modifies this
      ensures Valid() && Contents() == AfterClose(old(Contents()))
      ensures !armed && messageQueue == old(messageQueue) && sent == old(sent)
      ensures if intentionalClose then ws == Closed && reconnectTimer == old(reconnectTimer)
              else ws == NoSocket && reconnectTimer
      ensures intentionalClose == old(intentionalClose)
    {
      CloseKeeps(Contents());
      armed := false;
      if !intentionalClose {
        ws := NoSocket;
        reconnectTimer := true;
      } else {
        ws := Closed;
      }
    }
  }

  // The invariant.

  /** Frames carry increasing numbers and are what was submitted under them. */
  ghost predicate InOrder(frames: seq<Frame>, submitted: seq<Kind>) {
    && (forall i, j :: 0 <= i < j < |frames| ==> frames[i].number < frames[j].number)
    && (forall i :: 0 <= i < |frames| ==>
          frames[i].number < |submitted| && submitted[frames[i].number] == frames[i].kind)
  }

  ghost predicate Good(c: Client) {
    && |c.messageQueue| <= MAX_QUEUE_SIZE
    && (c.ws == Open ==> c.messageQueue == [])
    && (c.reconnectTimer ==> c.ws == NoSocket && !c.intentionalClose)
    && InOrder(c.sent + c.messageQueue, c.submitted)
    && |c.submitted| == |c.sent| + |c.messageQueue| + c.dropped
    && (forall i :: 0 <= i < |c.openings| && c.openings[i].rejoins ==>
          c.openings[i].at < |c.sent| && c.sent[c.openings[i].at].kind == CreateRoom)
  }

  lemma ConnectKeeps(c: Client)
    requires Good(c)
    ensures Good(Connected(c)) && Good(TornDown(c)) && Good(Resumed(c))
  {
  }

  lemma ClearKeeps(c: Client)
    requires Good(c)
    ensures Good(Cleared(c)) && Good(Disconnected(c))
  {
    assert forall i :: 0 <= i < |c.sent| ==> c.sent[i] == (c.sent + c.messageQueue)[i];
    assert c.sent + [] == c.sent;
  }

  lemma SendKeeps(c: Client, kind: Kind)
    requires Good(c)
    ensures Good(Submitted(c, kind))
  {
    var f, d := Frame(|c.submitted|, kind), Submitted(c, kind);
    if d.sent + d.messageQueue != c.sent + c.messageQueue {
      assert d.sent + d.messageQueue == c.sent + c.messageQueue + [f];
    }
  }

  lemma OpenKeeps(c: Client, stored: bool)
    requires Good(c) && c.ws == Connecting
    ensures Good(Opened(c, stored))
  {
    var d := Opened(c, stored);
    if c.roomActive || stored {
      ClearKeeps(c);
      var f := Frame(|c.submitted|, CreateRoom);
      assert d.sent == c.sent + [f] && d.messageQueue == [];
      assert d.sent + d.messageQueue == Cleared(c).sent + Cleared(c).messageQueue + [f];
    } else {
      assert d.sent + d.messageQueue == c.sent + c.messageQueue;
    }
  }

  /** What an opening puts on the wire: the way back into the room, or else whatever was queued. */
  lemma OpeningExactly(c: Client, stored: bool)
    requires Good(c) && c.ws == Connecting
    ensures var d, rejoins := Opened(c, stored), c.roomActive || stored;
            && d.ws == Open && !d.armed && !d.reconnectTimer && d.messageQueue == []
            && (d.roomActive <==> rejoins)
            && d.openings == c.openings + [Opening(|c.sent|, rejoins)]
            && d.sent == c.sent + if rejoins then [Frame(|c.submitted|, CreateRoom)] else c.messageQueue
  {
    assert c.sent + [Frame(|c.submitted|, CreateRoom)] + [] == c.sent + [Frame(|c.submitted|, CreateRoom)];
  }

  lemma CloseKeeps(c: Client)
    requires Good(c) && c.ws != NoSocket && c.ws != Closed
    ensures Good(AfterClose(c))
  {
  }

  // Runs.

  datatype Event =
    | CallConnect
    | CallDisconnect
    | CallResume
    | Plain
    | Enter(create: bool)
    | Leave
    | SocketOpens(stored: bool)
    | SocketCloses
    | SocketStartsClosing
    | SocketErrs
    | ReconnectFires
    | TimeoutFires(own: bool)

  predicate Enabled(c: Client, e: Event) {
    match e
    case SocketOpens(_) => c.ws == Connecting
    case SocketCloses => c.ws == Connecting || c.ws == Open || c.ws == Closing
    case SocketStartsClosing => c.ws == Connecting || c.ws == Open
    case SocketErrs => c.ws != NoSocket
    case ReconnectFires => c.reconnectTimer
    case TimeoutFires(own) => if own then c.armed else c.stale > 0
    case _ => true
  }

  function Next(c: Client, e: Event): Client {
    match e
    case CallConnect => Connected(c)
    case CallDisconnect => Disconnected(c)
    case CallResume => Resumed(c)
    case Plain => Submitted(c, Other)
    case Enter(create) => Exchange(c, if create then CreateRoom else JoinRoom).(roomActive := true)
    case Leave => Exchange(c, LeaveRoom).(roomActive := false)
    case SocketOpens(stored) => Opened(c, stored)
    case SocketCloses => AfterClose(c)
    case SocketStartsClosing => c.(ws := Closing)
    case SocketErrs => if c.ws == Open then c else c.(armed := false)
    case ReconnectFires => Connected(c)
    case TimeoutFires(own) =>
      TornDown(if own then c.(armed := false) else c.(stale := if c.stale > 0 then c.stale - 1 else 0))
  }

  predicate Possible(c: Client, es: seq<Event>)
    decreases |es|
  {
    es == [] || (Enabled(c, es[0]) && Possible(Next(c, es[0]), es[1..]))
  }

  function After(c: Client, es: seq<Event>): Client
    decreases |es|
  {
    if es == [] then c else After(Next(c, es[0]), es[1..])
  }

  lemma StepKeeps(c: Client, e: Event)
    requires Good(c) && Enabled(c, e)
    ensures Good(Next(c, e))
  {
    match e
    case CallDisconnect => ClearKeeps(c);
    case Plain => SendKeeps(c, Other);
    case Enter(create) =>
      ClearKeeps(c);
      SendKeeps(Cleared(c), if create then CreateRoom else JoinRoom);
    case Leave =>
      ClearKeeps(c);
      SendKeeps(Cleared(c), LeaveRoom);
    case SocketOpens(stored) => OpenKeeps(c, stored);
    case SocketCloses => CloseKeeps(c);
    case _ =>
  }

  lemma {:induction false} RunKeeps(c: Client, es: seq<Event>)
    requires Good(c) && Possible(c, es)
    ensures Good(After(c, es))
    decreases |es|
  {
    if es != [] {
      StepKeeps(c, es[0]);
      RunKeeps(Next(c, es[0]), es[1..]);
    }
  }

  /**
   Outbox discipline over every run: what was sent is an in-order, duplicate-free
   part of what was submitted; every submission is sent, queued or counted as
   dropped; the queue stays within its bound; a socket and a reconnect timer
   never coexist; and every opening with an active room starts with room:create.
   */
  lemma OutboxDiscipline(es: seq<Event>)
    requires Possible(INITIAL, es)
    ensures var c := After(INITIAL, es);
            && InOrder(c.sent, c.submitted)
            && |c.submitted| == |c.sent| + |c.messageQueue| + c.dropped
            && |c.messageQueue| <= MAX_QUEUE_SIZE
            && (c.ws == NoSocket || !c.reconnectTimer)
            && forall i :: 0 <= i < |c.openings| && c.openings[i].rejoins ==>
                 c.openings[i].at < |c.sent| && c.sent[c.openings[i].at].kind == CreateRoom
  {
    RunKeeps(INITIAL, es);
    SentInOrder(After(INITIAL, es));
  }

  lemma SentInOrder(c: Client)
    requires Good(c)
    ensures InOrder(c.sent, c.submitted)
  {
    assert forall i :: 0 <= i < |c.sent| ==> c.sent[i] == (c.sent + c.messageQueue)[i];
  }

  // What becomes of a frame.

  /** The event empties the queue. */
  predicate Clears(c: Client, e: Event) {
    e.Enter? || e.Leave? || e.CallDisconnect? || (e.SocketOpens? && (c.roomActive || e.stored))
  }

  /** Frames are lost in two ways only: by clearing the queue, and one at a time when it is full and nothing is open. */
  lemma DropsExactly(c: Client, e: Event)
    requires Good(c) && Enabled(c, e)
    ensures Next(c, e).dropped
            == c.dropped + if Clears(c, e) then |c.messageQueue|
                           else if e.Plain? && c.ws != Open && |c.messageQueue| >= 100 then 1
                           else 0
    ensures c.sent <= Next(c, e).sent
    ensures !Clears(c, e) && !e.SocketOpens? ==> c.messageQueue <= Next(c, e).messageQueue
  {
    if e.SocketOpens? {
      OpeningExactly(c, e.stored);
    } else if e.Plain? {
      PlainDrops(c);
    }
  }

  lemma PlainDrops(c: Client)
    requires Good(c)
    ensures var d := Submitted(c, Other);
            && d.dropped == c.dropped + (if c.ws != Open && |c.messageQueue| >= 100 then 1 else 0)
            && c.sent <= d.sent && c.messageQueue <= d.messageQueue
  {
  }

  /** The room to come back to is set by entering, or by what was stored when a socket opens, and ended by leaving. */
  lemma RoomFollows(c: Client, e: Event)
    ensures Next(c, e).roomActive <==>
            if e.Enter? then true
            else if e.Leave? then false
            else if e.SocketOpens? then c.roomActive || e.stored
            else c.roomActive
  {
  }

  predicate Uncleared(c: Client, es: seq<Event>)
    decreases |es|
  {
    es == [] || (!Clears(c, es[0]) && Uncleared(Next(c, es[0]), es[1..]))
  }

  lemma {:induction false} SentStays(c: Client, es: seq<Event>)
    requires Good(c) && Possible(c, es)
    ensures c.sent <= After(c, es).sent
    decreases |es|
  {
    if es != [] {
      DropsExactly(c, es[0]);
      StepKeeps(c, es[0]);
      SentStays(Next(c, es[0]), es[1..]);
    }
  }

  /**
   In every run that does not clear the queue, a queued frame is never lost: it
   is on the wire at the end exactly if a socket has opened, and still queued
   otherwise. All that was queued goes out together and in order.
   */
  lemma {:induction false} QueuedIsSentExactly(c: Client, es: seq<Event>, f: Frame)
    requires Good(c) && Possible(c, es) && Uncleared(c, es) && f in c.messageQueue
    ensures if exists i :: 0 <= i < |es| && es[i].SocketOpens? then f in After(c, es).sent
            else f in After(c, es).messageQueue && After(c, es).sent == c.sent
    decreases |es|
  {
    if es != [] {
      var d := Next(c, es[0]);
      DropsExactly(c, es[0]);
      StepKeeps(c, es[0]);
      if es[0].SocketOpens? {
        OpeningExactly(c, es[0].stored);
        assert f in d.sent;
        SentStays(d, es[1..]);
      } else {
        NothingLeaves(c, es[0]);
        QueuedIsSentExactly(d, es[1..], f);
        assert (exists i :: 0 <= i < |es| && es[i].SocketOpens?)
            == (exists i :: 0 <= i < |es[1..]| && es[1..][i].SocketOpens?) by {
          assert forall i :: 0 < i < |es| ==> es[i] == es[1..][i - 1];
        }
      }
    }
  }

  lemma NothingLeaves(c: Client, e: Event)
    requires Good(c) && Enabled(c, e) && c.messageQueue != [] && !e.SocketOpens? && !Clears(c, e)
    ensures Next(c, e).sent == c.sent
  {
  }

  /** Whatever is submitted while nothing is open and the queue has room is queued, behind what was queued before. */
  lemma SubmissionIsQueued(c: Client, e: Event)
    requires Good(c) && (e.Plain? || e.Enter? || e.Leave?) && c.ws != Open
    requires e.Plain? ==> |c.messageQueue| < 100
    ensures Next(c, e).messageQueue
            == (if e.Plain? then c.messageQueue else [])
               + [Frame(|c.submitted|, if e.Plain? then Other else if e.Leave? then LeaveRoom
                                       else if e.create then CreateRoom else JoinRoom)]
    ensures Next(c, e).sent == c.sent
  {
  }

  /** After an asked-for close nothing brings a connection back but a call to connect or resume. */
  lemma {:induction false} DisconnectedStays(c: Client, es: seq<Event>)
    requires Good(c) && c.ws == NoSocket && !c.reconnectTimer && Possible(c, es)
    requires forall e :: e in es ==> !e.CallConnect? && !e.CallResume?
    ensures After(c, es).ws == NoSocket && !After(c, es).reconnectTimer && After(c, es).sent == c.sent
    decreases |es|
  {
    if es != [] {
      assert es[0] in es && forall e :: e in es[1..] ==> e in es;
      StepKeeps(c, es[0]);
      DisconnectedStays(Next(c, es[0]), es[1..]);
    }
  }

  /** An unasked close is followed by a new attempt by itself, with the queue as it was. */
  lemma CloseIsRepaired(c: Client)
    requires Good(c) && Enabled(c, SocketCloses) && !c.intentionalClose
    ensures var d := Next(c, SocketCloses);
            && Enabled(d, ReconnectFires) && Next(d, ReconnectFires).ws == Connecting
            && Enabled(Next(d, ReconnectFires), SocketOpens(false))
            && Next(d, ReconnectFires).messageQueue == c.messageQueue
            && Next(d, ReconnectFires).roomActive == c.roomActive
  {
  }

  // What does not hold.

  /**
   A listener that sent a plain frame on open would overtake the queue: order
   is kept exactly when nothing is queued.
   */
  lemma PlainOnOpenExactly(c: Client)
    requires Good(c) && c.ws == Connecting && !c.roomActive
    ensures var d := Flushed(Submitted(c.(ws := Open), Other));
            InOrder(d.sent, d.submitted) <==> c.messageQueue == []
  {
    var f := Frame(|c.submitted|, Other);
    var d := Flushed(Submitted(c.(ws := Open), Other));
    assert d.sent == c.sent + [f] + c.messageQueue;
    if c.messageQueue != [] {
      var n := |c.sent|;
      assert d.sent[n] == f && d.sent[n + 1] == c.messageQueue[0] == (c.sent + c.messageQueue)[n];
    } else {
      assert c.sent + [] == c.sent && d.sent == c.sent + [f];
    }
  }

  /** No socket, nothing that would bring one back, and nobody who asked for that. */
  predicate Stranded(c: Client) {
    c.ws == NoSocket && !c.reconnectTimer && !c.intentionalClose
  }

  /**
   A step strands the client exactly if it is a connect timeout, of the current
   attempt or of an abandoned one, and the close was not asked for: the timeout
   tears down whatever socket there is and arms no reconnect timer.
   */
  lemma StrandedExactly(c: Client, e: Event)
    requires Good(c) && Enabled(c, e) && !Stranded(c)
    ensures Stranded(Next(c, e)) <==> e.TimeoutFires? && !c.intentionalClose
  {
  }

  /** Frames, leaving and further timeouts do not help a stranded client; connecting anew does, or giving up. */
  lemma RescuedExactly(c: Client, e: Event)
    requires Good(c) && Enabled(c, e) && Stranded(c)
    ensures !Stranded(Next(c, e)) <==> e.CallConnect? || e.CallResume? || e.CallDisconnect?
  {
  }

  /** Whether the last step that bears on it was a connect timeout without an asked-for close. */
  predicate EndsInTimeout(c: Client, es: seq<Event>)
    decreases |es|
  {
    if es == [] then false
    else
      var e, n := es[|es| - 1], |es| - 1;
      if e.TimeoutFires? then !After(c, es[..n]).intentionalClose
      else if e.CallConnect? || e.CallResume? || e.CallDisconnect? then false
      else EndsInTimeout(c, es[..n])
  }

  lemma {:induction false} AfterSnoc(c: Client, es: seq<Event>)
    requires es != [] && Possible(c, es)
    ensures var n := |es| - 1;
            && Possible(c, es[..n]) && Enabled(After(c, es[..n]), es[n])
            && After(c, es) == Next(After(c, es[..n]), es[n])
    decreases |es|
  {
    var n := |es| - 1;
    if n > 0 {
      AfterSnoc(Next(c, es[0]), es[1..]);
      assert es[1..][..n - 1] == es[..n][1..];
    } else {
      assert es[1..] == [];
    }
  }

  /**
   Over every run from a client that is not stranded: it is stranded at the end
   exactly if, of the timeouts and of the calls that connect, resume or
   disconnect, the last was a timeout without an asked-for close.
   */
  lemma {:induction false} StrandedAfterExactly(c: Client, es: seq<Event>)
    requires Good(c) && !Stranded(c) && Possible(c, es)
    ensures Stranded(After(c, es)) <==> EndsInTimeout(c, es)
    decreases |es|
  {
    if es != [] {
      var n := |es| - 1;
      AfterSnoc(c, es);
      RunKeeps(c, es[..n]);
      StrandedAfterExactly(c, es[..n]);
      var d := After(c, es[..n]);
      if Stranded(d) {
        RescuedExactly(d, es[n]);
      } else {
        StrandedExactly(d, es[n]);
      }
    }
  }

  /** Two overlapping connects are enough. */
  lemma StaleTimeoutHappens()
    ensures var es := [CallConnect, CallConnect, SocketOpens(false), TimeoutFires(false)];
            && Possible(INITIAL, es)
            && Stranded(After(INITIAL, es))
  {
    var es := [CallConnect, CallConnect, SocketOpens(false), TimeoutFires(false)];
    assert es[1..] == [CallConnect, SocketOpens(false), TimeoutFires(false)];
    assert es[1..][1..] == [SocketOpens(false), TimeoutFires(false)];
    assert es[1..][1..][1..] == [TimeoutFires(false)];
    assert es[1..][1..][1..][1..] == [];
  }
}
