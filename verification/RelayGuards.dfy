/** What the guards on messages achieve over whole runs of the relay, with its leaving and disconnecting clients. */
module RelayGuards {
  import opened Wrappers
  import opened Rooms
  import opened Relay
  import opened RelayStructure
  import RL = RateLimit
  import RG = ReplayGuard

  /** Times do not decrease. */
  predicate Forward(es: seq<Event>, now: int)
    decreases |es|
  {
    es == [] || (now <= es[0].time && Forward(es[1..], es[0].time))
  }

  /** A message from inside its room, which the guards get to see. */
  predicate Asks(s: Relay, e: Event)
    requires Enabled(s, e)
  {
    e.Send? && s.clients[e.c].roomId == Some(e.room)
  }

  /** A client with a name goes from its room, by this kind of event. */
  predicate Goes(s: Relay, e: Event)
    requires Enabled(s, e)
  {
    (e.Leave? || e.Disconnect?) && s.clients[e.c].roomId.Some? && HasName(s.clients[e.c].fingerprint)
  }

  // Replays.

  predicate Looks(s: Relay, p: Policy, e: Event)
    requires Enabled(s, e)
  {
    Asks(s, e) && Examined(s.guards, p, s.clients[e.c].fingerprint, e.m, e.time)
  }

  /** What the event is to the replay guard: a check, a purge or nothing. */
  function Look(s: Relay, p: Policy, e: Event): seq<RG.Event>
    requires Enabled(s, e)
  {
    if Looks(s, p, e) then [RG.Check(e.m.sender, e.m.nonce, e.time)]
    else if Goes(s, e) then [RG.Purge(s.clients[e.c].fingerprint.value, e.time)]
    else []
  }

  function LooksOf(s: Relay, p: Policy, es: seq<Event>): seq<RG.Event>
    requires Possible(s, p, es)
    decreases |es|
  {
    if es == [] then [] else Look(s, p, es[0]) + LooksOf(Next(s, p, es[0]), p, es[1..])
  }

  /** Of the messages that the limiter and the file checks let through, which ones the relay takes. */
  function TakenOf(s: Relay, p: Policy, es: seq<Event>): seq<bool>
    requires Possible(s, p, es)
    decreases |es|
  {
    if es == [] then []
    else
      var e := es[0];
      (if Looks(s, p, e) then [Passes(s.guards, p, s.clients[e.c].fingerprint, e.m, e.time)] else [])
      + TakenOf(Next(s, p, e), p, es[1..])
  }

  lemma StepLooks(s: Relay, p: Policy, e: Event)
    requires Enabled(s, e) && p.replay.Some?
    ensures var looks := Look(s, p, e);
            Next(s, p, e).guards.seen
            == if looks == [] then s.guards.seen else RG.SeenAfter(s.guards.seen, looks[0], p.replay.value)
  {
    match e
    case Create(_, _, _, _, _) =>
    case Join(_, _, _, _, _) =>
    case _ =>
  }

  lemma {:induction false} TakenByTheTable(s: Relay, p: Policy, es: seq<Event>)
    requires Possible(s, p, es) && p.replay.Some?
    ensures TakenOf(s, p, es) == RG.Verdicts(s.guards.seen, LooksOf(s, p, es), p.replay.value)
    decreases |es|
  {
    if es != [] {
      var looks, rest := Look(s, p, es[0]), LooksOf(Next(s, p, es[0]), p, es[1..]);
      StepLooks(s, p, es[0]);
      TakenByTheTable(Next(s, p, es[0]), p, es[1..]);
      if looks != [] {
        assert looks == [looks[0]] && (looks + rest)[0] == looks[0] && (looks + rest)[1..] == rest;
      } else {
        assert looks + rest == rest;
      }
    }
  }

  lemma {:induction false} LooksAreTimely(s: Relay, p: Policy, es: seq<Event>, now: int, last: int)
    requires Possible(s, p, es) && Forward(es, now) && last <= now
    ensures RG.Timely(last, LooksOf(s, p, es))
    decreases |es|
  {
    if es != [] {
      var looks, rest := Look(s, p, es[0]), LooksOf(Next(s, p, es[0]), p, es[1..]);
      if looks != [] {
        LooksAreTimely(Next(s, p, es[0]), p, es[1..], es[0].time, es[0].time);
        assert (looks + rest)[0] == looks[0] && (looks + rest)[1..] == rest;
      } else {
        LooksAreTimely(Next(s, p, es[0]), p, es[1..], es[0].time, last);
        assert looks + rest == rest;
      }
    }
  }

  /**
   In every run of the relay with a clock that does not run backwards: of the
   messages that get that far, it takes exactly those whose nonce it has not
   taken from the same sender within the time to live, since a client of that
   name last left a room or was disconnected from one.
   */
  lemma RelayRefusesReplays(p: Policy, es: seq<Event>, start: int)
    requires Possible(EMPTY, p, es) && Forward(es, start) && p.replay.Some?
    ensures TakenOf(EMPTY, p, es) == RG.SpecVerdicts(map[], LooksOf(EMPTY, p, es), p.replay.value)
  {
    TakenByTheTable(EMPTY, p, es);
    LooksAreTimely(EMPTY, p, es, start, start);
    RG.ReplayRefinement(LooksOf(EMPTY, p, es), start, p.replay.value);
  }

  // Rates.

  /** What the event is to the message limiter: a request, the end of a bucket or nothing. */
  function Ask(s: Relay, e: Event): seq<RL.Event>
    requires Enabled(s, e)
  {
    if Asks(s, e) && HasName(s.clients[e.c].fingerprint) then [RL.Request(s.clients[e.c].fingerprint.value, e.time)]
    else if Goes(s, e) && e.Disconnect? then [RL.Forget(s.clients[e.c].fingerprint.value, e.time)]
    else []
  }

  function AsksOf(s: Relay, p: Policy, es: seq<Event>): seq<RL.Event>
    requires Possible(s, p, es)
    decreases |es|
  {
    if es == [] then [] else Ask(s, es[0]) + AsksOf(Next(s, p, es[0]), p, es[1..])
  }

  /** How many messages of clients of this name the relay takes with a time from lo to hi. */
  function Taken(s: Relay, p: Policy, es: seq<Event>, fp: string, lo: int, hi: int): nat
    requires Possible(s, p, es)
    decreases |es|
  {
    if es == [] then 0
    else
      var e := es[0];
      (if Asks(s, e) && s.clients[e.c].fingerprint == Some(fp) && lo <= e.time <= hi
          && Passes(s.guards, p, Some(fp), e.m, e.time) then 1 else 0)
      + Taken(Next(s, p, e), p, es[1..], fp, lo, hi)
  }

  lemma StepAsks(s: Relay, p: Policy, e: Event)
    requires Enabled(s, e)
    ensures var asks := Ask(s, e);
            Next(s, p, e).guards.buckets
            == if asks == [] then s.guards.buckets else RL.After(s.guards.buckets, asks[0], p.rate)
  {
    match e
    case Create(_, _, _, _, _) =>
    case Join(_, _, _, _, _) =>
    case _ =>
  }

  lemma {:induction false} TakenAreAccepted(s: Relay, p: Policy, es: seq<Event>, fp: string, lo: int, hi: int)
    requires Possible(s, p, es) && fp != ""
    ensures Taken(s, p, es, fp, lo, hi) <= RL.Accepted(s.guards.buckets, AsksOf(s, p, es), fp, lo, hi, p.rate)
    decreases |es|
  {
    if es != [] {
      var asks, rest := Ask(s, es[0]), AsksOf(Next(s, p, es[0]), p, es[1..]);
      StepAsks(s, p, es[0]);
      TakenAreAccepted(Next(s, p, es[0]), p, es[1..], fp, lo, hi);
      if asks != [] {
        assert (asks + rest)[0] == asks[0] && (asks + rest)[1..] == rest;
      } else {
        assert asks + rest == rest;
      }
    }
  }

  lemma {:induction false} AsksAreTimely(s: Relay, p: Policy, es: seq<Event>, now: int, last: int)
    requires Possible(s, p, es) && Forward(es, now) && last <= now
    ensures RL.Timely(last, AsksOf(s, p, es))
    decreases |es|
  {
    if es != [] {
      var asks, rest := Ask(s, es[0]), AsksOf(Next(s, p, es[0]), p, es[1..]);
      if asks != [] {
        AsksAreTimely(Next(s, p, es[0]), p, es[1..], es[0].time, es[0].time);
        assert (asks + rest)[0] == asks[0] && (asks + rest)[1..] == rest;
      } else {
        AsksAreTimely(Next(s, p, es[0]), p, es[1..], es[0].time, last);
        assert asks + rest == rest;
      }
    }
  }

  /** How many clients of this name are disconnected from a room with a time from lo to hi. */
  function Disconnections(s: Relay, p: Policy, es: seq<Event>, fp: string, lo: int, hi: int): nat
    requires Possible(s, p, es)
    decreases |es|
  {
    if es == [] then 0
    else
      var e := es[0];
      (if e.Disconnect? && Goes(s, e) && s.clients[e.c].fingerprint == Some(fp) && lo <= e.time <= hi then 1 else 0)
      + Disconnections(Next(s, p, e), p, es[1..], fp, lo, hi)
  }

  lemma {:induction false} DisconnectionsDelete(s: Relay, p: Policy, es: seq<Event>, fp: string, lo: int, hi: int)
    requires Possible(s, p, es)
    ensures RL.Deletions(AsksOf(s, p, es), fp, lo, hi) == Disconnections(s, p, es, fp, lo, hi)
    decreases |es|
  {
    if es != [] {
      var asks, rest := Ask(s, es[0]), AsksOf(Next(s, p, es[0]), p, es[1..]);
      DisconnectionsDelete(Next(s, p, es[0]), p, es[1..], fp, lo, hi);
      if asks != [] {
        assert (asks + rest)[0] == asks[0] && (asks + rest)[1..] == rest;
      } else {
        assert asks + rest == rest;
      }
    }
  }

  /**
   In every run of the relay with a clock that does not run backwards: within
   any closed interval as long as the window it takes at most
   2 * max(1, limit) - 1 messages of a name, and max(1, limit) more for each
   client of that name that is disconnected in it.
   */
  lemma RelayBoundsMessages(p: Policy, es: seq<Event>, fp: string, start: int, lo: int)
    requires Possible(EMPTY, p, es) && Forward(es, start) && fp != ""
    ensures Taken(EMPTY, p, es, fp, lo, lo + p.rate.window)
            <= 2 * RL.Quota(p.rate) - 1 + Disconnections(EMPTY, p, es, fp, lo, lo + p.rate.window) * RL.Quota(p.rate)
  {
    TakenAreAccepted(EMPTY, p, es, fp, lo, lo + p.rate.window);
    AsksAreTimely(EMPTY, p, es, start, start);
    DisconnectionsDelete(EMPTY, p, es, fp, lo, lo + p.rate.window);
    RL.FixedWindowBound(AsksOf(EMPTY, p, es), fp, start, lo, p.rate);
  }
}
