/**
 Replay protection. The guard keeps, per fingerprint, the last time of each
 nonce and drops old entries only when that fingerprint sends again. It is
 compared with a full log of what was accepted since the last purge.
 */
module ReplayGuard {
  type Times = map<string, int>

  type Seen = map<string, Times>

  datatype Entry = Entry(nonce: string, time: int)

  type Log = map<string, seq<Entry>>

  function TimesOf(seen: Seen, fp: string): Times {
    if fp in seen then seen[fp] else map[]
  }

  function LogOf(log: Log, fp: string): seq<Entry> {
    if fp in log then log[fp] else []
  }

  function Pruned(m: Times, cutoff: int): Times {
    map n | n in m && m[n] >= cutoff :: m[n]
  }

  predicate Fresh(seen: Seen, fp: string, nonce: string, now: int, ttl: nat) {
    nonce !in Pruned(TimesOf(seen, fp), now - ttl)
  }

  function Marked(seen: Seen, fp: string, nonce: string, now: int, ttl: nat): Seen {
    var m := Pruned(TimesOf(seen, fp), now - ttl);
    seen[fp := if nonce in m then m else m[nonce := now]]
  }

  /** The specification: the log has this nonce within the time to live. */
  predicate Replayed(log: seq<Entry>, nonce: string, now: int, ttl: nat) {
    exists i :: 0 <= i < |log| && log[i].nonce == nonce && log[i].time >= now - ttl
  }

  function Logged(log: Log, fp: string, nonce: string, now: int, ttl: nat): Log {
    if Replayed(LogOf(log, fp), nonce, now, ttl) then log else log[fp := LogOf(log, fp) + [Entry(nonce, now)]]
  }

  /** The table of one fingerprint stands for its log, as far as that still matters at time `last`. */
  ghost predicate Represents(m: Times, log: seq<Entry>, last: int, ttl: nat) {
    && (forall n :: n in m ==> exists i :: 0 <= i < |log| && log[i] == Entry(n, m[n]))
    && (forall i :: 0 <= i < |log| && log[i].time >= last - ttl ==> log[i].nonce in m && m[log[i].nonce] >= log[i].time)
    && (forall i :: 0 <= i < |log| ==> log[i].time <= last)
  }

  /** Accepted entries with the same nonce are more than the time to live apart. */
  ghost predicate Spaced(log: seq<Entry>, ttl: nat) {
    forall i, j :: 0 <= i < j < |log| && log[i].nonce == log[j].nonce ==> log[j].time - log[i].time > ttl
  }

  ghost predicate Refines(seen: Seen, log: Log, last: int, ttl: nat) {
    forall fp :: Represents(TimesOf(seen, fp), LogOf(log, fp), last, ttl) && Spaced(LogOf(log, fp), ttl)
  }

  class Guard {
    var enabled: bool
    var seen: Seen
    ghost var log: Log
    ghost var last: int
    const ttl: nat

    ghost predicate Valid()
      reads this
    {
      Refines(seen, log, last, ttl)
    }

    constructor (enabled: bool, ttl: nat, ghost start: int)
      ensures Valid() && this.enabled == enabled && this.ttl == ttl && seen == map[] && log == map[] && last == start
    {
      this.enabled := enabled;
      this.ttl := ttl;
      seen, log, last := map[], map[], start;
    }

    /** The loop that drops expired entries of one fingerprint. */
    method Prune(m: Times, cutoff: int) returns (kept: Times)
      ensures kept == Pruned(m, cutoff)
      ensures forall n :: n in kept <==> n in m && m[n] >= cutoff
      ensures forall n :: n in kept ==> kept[n] == m[n]
    {
      kept := m;
      var todo := m.Keys;
      while todo != {}
        invariant todo <= kept.Keys <= m.Keys
        invariant forall n :: n in kept ==> kept[n] == m[n]
        invariant forall n :: n in m && n !in todo ==> (n in kept <==> m[n] >= cutoff)
        decreases todo
      {
        var n :| n in todo;
        if kept[n] < cutoff {
          kept := kept - {n};
        }
        todo := todo - {n};
      }
    }

    /** With a clock that has not run backwards the verdict is that of the log, and stays so. */
    method CheckAndMark(fp: string, nonce: string, now: int) returns (accepted: bool)
      modifies this
      ensures enabled == old(enabled)
      ensures !old(enabled) ==> accepted && seen == old(seen) && log == old(log) && last == old(last)
      ensures old(enabled) ==> accepted == Fresh(old(seen), fp, nonce, now, ttl) && last == now
      ensures old(enabled) ==>
                seen == Marked(old(seen), fp, nonce, now, ttl) && log == Logged(old(log), fp, nonce, now, ttl)
      ensures old(Valid()) && now >= old(last) ==>
                Valid() && (old(enabled) ==> (accepted <==> !Replayed(LogOf(old(log), fp), nonce, now, ttl)))
    {
      if !enabled {
        return true;
      }
      if Valid() && now >= last {
        CheckRefines(seen, log, fp, nonce, now, last, ttl);
      }
      accepted := Record(fp, nonce, now);
    }

    /** Marks the tables and keeps the log. */
    method Record(fp: string, nonce: string, now: int) returns (unseen: bool)
      modifies this
      ensures enabled == old(enabled) && last == now && unseen == Fresh(old(seen), fp, nonce, now, ttl)
      ensures seen == Marked(old(seen), fp, nonce, now, ttl) && log == Logged(old(log), fp, nonce, now, ttl)
    {
      ghost var logged := Logged(log, fp, nonce, now, ttl);
      unseen := Mark(fp, nonce, now);
      log, last := logged, now;
    }

    /** The work of the check on the nested tables. */
    method Mark(fp: string, nonce: string, now: int) returns (unseen: bool)
      modifies this`seen
      ensures unseen == Fresh(old(seen), fp, nonce, now, ttl)
      ensures seen == Marked(old(seen), fp, nonce, now, ttl)
    {
      var perFinger := map[];
      if fp in seen {
        perFinger := seen[fp];
      } else {
        seen := seen[fp := perFinger];
      }
      perFinger := Prune(perFinger, now - ttl);
      unseen := nonce !in perFinger;
      if unseen {
        perFinger := perFinger[nonce := now];
      }
      seen := seen[fp := perFinger];
    }

    method Purge(fp: string)
      modifies this
      ensures enabled == old(enabled) && last == old(last) && (old(Valid()) ==> Valid())
      ensures seen == old(seen) - {fp} && log == old(log) - {fp}
    {
      if Valid() {
        PurgeRefines(seen, log, fp, last, ttl);
      }
      seen := seen - {fp};
      log := log - {fp};
    }
  }

  // The proof.

  lemma FreshMeansNotReplayed(m: Times, log: seq<Entry>, nonce: string, now: int, last: int, ttl: nat)
    requires Represents(m, log, last, ttl) && now >= last
    ensures nonce !in Pruned(m, now - ttl) <==> !Replayed(log, nonce, now, ttl)
  {
    if nonce in Pruned(m, now - ttl) {
      var i :| 0 <= i < |log| && log[i] == Entry(nonce, m[nonce]);
      assert Replayed(log, nonce, now, ttl);
    }
  }

  lemma PruneRepresents(m: Times, log: seq<Entry>, now: int, last: int, ttl: nat)
    requires Represents(m, log, last, ttl) && now >= last
    ensures Represents(Pruned(m, now - ttl), log, now, ttl)
  {
    var p := Pruned(m, now - ttl);
    forall n | n in p ensures exists i :: 0 <= i < |log| && log[i] == Entry(n, p[n]) {
      var i :| 0 <= i < |log| && log[i] == Entry(n, m[n]);
    }
  }

  lemma MarkRepresents(m: Times, log: seq<Entry>, nonce: string, now: int, ttl: nat)
    requires Represents(m, log, now, ttl) && nonce !in m && Spaced(log, ttl)
    ensures Represents(m[nonce := now], log + [Entry(nonce, now)], now, ttl)
    ensures Spaced(log + [Entry(nonce, now)], ttl)
  {
    var l := log + [Entry(nonce, now)];
    var p := m[nonce := now];
    forall n | n in p ensures exists i :: 0 <= i < |l| && l[i] == Entry(n, p[n]) {
      if n == nonce {
        assert l[|log|] == Entry(n, now);
      } else {
        var i :| 0 <= i < |log| && log[i] == Entry(n, m[n]);
        assert l[i] == Entry(n, m[n]);
      }
    }
  }

  /**
   One check keeps the table in step with the log and decides as the log does,
   provided the clock has not run backwards.
   */
  lemma CheckRefines(seen: Seen, log: Log, fp: string, nonce: string, now: int, last: int, ttl: nat)
    requires Refines(seen, log, last, ttl) && now >= last
    ensures Fresh(seen, fp, nonce, now, ttl) <==> !Replayed(LogOf(log, fp), nonce, now, ttl)
    ensures Refines(Marked(seen, fp, nonce, now, ttl), Logged(log, fp, nonce, now, ttl), now, ttl)
  {
    var m, l := TimesOf(seen, fp), LogOf(log, fp);
    var seen', log' := Marked(seen, fp, nonce, now, ttl), Logged(log, fp, nonce, now, ttl);
    assert Represents(m, l, last, ttl);
    FreshMeansNotReplayed(m, l, nonce, now, last, ttl);
    PruneRepresents(m, l, now, last, ttl);
    forall f ensures Represents(TimesOf(seen', f), LogOf(log', f), now, ttl) && Spaced(LogOf(log', f), ttl) {
      assert Represents(TimesOf(seen, f), LogOf(log, f), last, ttl) && Spaced(LogOf(log, f), ttl);
      if f == fp {
        if nonce !in Pruned(m, now - ttl) {
          MarkRepresents(Pruned(m, now - ttl), l, nonce, now, ttl);
        }
      }
    }
  }

  lemma PurgeRefines(seen: Seen, log: Log, fp: string, last: int, ttl: nat)
    requires Refines(seen, log, last, ttl)
    ensures Refines(seen - {fp}, log - {fp}, last, ttl)
  {
    forall f ensures Represents(TimesOf(seen - {fp}, f), LogOf(log - {fp}, f), last, ttl)
                     && Spaced(LogOf(log - {fp}, f), ttl) {
      assert Represents(TimesOf(seen, f), LogOf(log, f), last, ttl) && Spaced(LogOf(log, f), ttl);
    }
  }

  // Runs.

  datatype Event = Check(fp: string, nonce: string, time: int) | Purge(fp: string, time: int)

  predicate Timely(last: int, es: seq<Event>)
    decreases |es|
  {
    es == [] || (last <= es[0].time && Timely(es[0].time, es[1..]))
  }

  function Verdicts(seen: Seen, es: seq<Event>, ttl: nat): seq<bool>
    decreases |es|
  {
    if es == [] then []
    else
      match es[0]
      case Check(fp, nonce, t) =>
        [Fresh(seen, fp, nonce, t, ttl)] + Verdicts(Marked(seen, fp, nonce, t, ttl), es[1..], ttl)
      case Purge(fp, _) => Verdicts(seen - {fp}, es[1..], ttl)
  }

  function SeenAfter(seen: Seen, e: Event, ttl: nat): Seen {
    match e
    case Check(fp, nonce, t) => Marked(seen, fp, nonce, t, ttl)
    case Purge(fp, _) => seen - {fp}
  }

  /** The verdicts by the log alone. */
  function SpecVerdicts(log: Log, es: seq<Event>, ttl: nat): seq<bool>
    decreases |es|
  {
    if es == [] then []
    else
      match es[0]
      case Check(fp, nonce, t) =>
        [!Replayed(LogOf(log, fp), nonce, t, ttl)] + SpecVerdicts(Logged(log, fp, nonce, t, ttl), es[1..], ttl)
      case Purge(fp, _) => SpecVerdicts(log - {fp}, es[1..], ttl)
  }

  lemma {:induction false} RunRefines(seen: Seen, log: Log, es: seq<Event>, last: int, ttl: nat)
    requires Refines(seen, log, last, ttl) && Timely(last, es)
    ensures Verdicts(seen, es, ttl) == SpecVerdicts(log, es, ttl)
    decreases |es|
  {
    if es != [] {
      match es[0]
      case Check(fp, nonce, t) =>
        CheckRefines(seen, log, fp, nonce, t, last, ttl);
        RunRefines(Marked(seen, fp, nonce, t, ttl), Logged(log, fp, nonce, t, ttl), es[1..], t, ttl);
      case Purge(fp, t) =>
        forall f ensures Represents(TimesOf(seen - {fp}, f), LogOf(log - {fp}, f), t, ttl)
                         && Spaced(LogOf(log - {fp}, f), ttl) {
          assert Represents(TimesOf(seen, f), LogOf(log, f), last, ttl) && Spaced(LogOf(log, f), ttl);
        }
        RunRefines(seen - {fp}, log - {fp}, es[1..], t, ttl);
    }
  }

  /** What a run leaves in the log. */
  function LogAfter(log: Log, es: seq<Event>, ttl: nat): Log
    decreases |es|
  {
    if es == [] then log
    else
      match es[0]
      case Check(fp, nonce, t) => LogAfter(Logged(log, fp, nonce, t, ttl), es[1..], ttl)
      case Purge(fp, _) => LogAfter(log - {fp}, es[1..], ttl)
  }

  ghost predicate AllSpaced(log: Log, last: int, ttl: nat) {
    forall fp :: Spaced(LogOf(log, fp), ttl) && forall i :: 0 <= i < |LogOf(log, fp)| ==> LogOf(log, fp)[i].time <= last
  }

  /** Between two purges of a fingerprint, accepted repeats of a nonce are more than the time to live apart. */
  lemma {:induction false} RepeatsAreSpaced(log: Log, es: seq<Event>, last: int, ttl: nat)
    requires AllSpaced(log, last, ttl) && Timely(last, es)
    ensures forall fp :: Spaced(LogOf(LogAfter(log, es, ttl), fp), ttl)
    decreases |es|
  {
    if es != [] {
      match es[0]
      case Check(fp, nonce, t) =>
        LoggedKeepsSpacing(log, fp, nonce, t, last, ttl);
        RepeatsAreSpaced(Logged(log, fp, nonce, t, ttl), es[1..], t, ttl);
      case Purge(fp, t) =>
        assert forall f :: LogOf(log - {fp}, f) == if f == fp then [] else LogOf(log, f);
        RepeatsAreSpaced(log - {fp}, es[1..], t, ttl);
    }
  }

  lemma LoggedKeepsSpacing(log: Log, fp: string, nonce: string, now: int, last: int, ttl: nat)
    requires AllSpaced(log, last, ttl) && last <= now
    ensures AllSpaced(Logged(log, fp, nonce, now, ttl), now, ttl)
  {
    var l, log' := LogOf(log, fp), Logged(log, fp, nonce, now, ttl);
    if !Replayed(l, nonce, now, ttl) {
      NewEntrySpaced(l, nonce, now, last, ttl);
    }
    forall f
      ensures Spaced(LogOf(log', f), ttl) && forall i :: 0 <= i < |LogOf(log', f)| ==> LogOf(log', f)[i].time <= now
    {
      if f != fp || Replayed(l, nonce, now, ttl) {
        assert LogOf(log', f) == LogOf(log, f);
      } else {
        assert LogOf(log', f) == l + [Entry(nonce, now)];
      }
    }
  }

  lemma NewEntrySpaced(l: seq<Entry>, nonce: string, now: int, last: int, ttl: nat)
    requires Spaced(l, ttl) && last <= now && !Replayed(l, nonce, now, ttl)
    requires forall i :: 0 <= i < |l| ==> l[i].time <= last
    ensures Spaced(l + [Entry(nonce, now)], ttl)
    ensures forall i :: 0 <= i < |l + [Entry(nonce, now)]| ==> (l + [Entry(nonce, now)])[i].time <= now
  {
  }

  /** The lazily pruned guard decides every check of every run as the full log would. */
  lemma ReplayRefinement(es: seq<Event>, start: int, ttl: nat)
    requires Timely(start, es)
    ensures Verdicts(map[], es, ttl) == SpecVerdicts(map[], es, ttl)
  {
    RunRefines(map[], map[], es, start, ttl);
  }

  // Whatever the clock does.

  /** A check of one fingerprint and its verdict. */
  datatype Look = Look(nonce: string, time: int, accepted: bool)

  type History = map<string, seq<Look>>

  function HistoryOf(hist: History, fp: string): seq<Look> {
    if fp in hist then hist[fp] else []
  }

  /** An acceptance that no later check found too old. */
  predicate Kept(h: seq<Look>, i: nat, ttl: nat) {
    i < |h| && h[i].accepted && forall j :: i < j < |h| ==> h[i].time >= h[j].time - ttl
  }

  predicate Recent(h: seq<Look>, i: nat, nonce: string, now: int, ttl: nat) {
    i < |h| && h[i].accepted && h[i].nonce == nonce && h[i].time >= now - ttl
  }

  /** What the log says: the nonce was accepted within the time to live. */
  predicate AcceptedRecently(h: seq<Look>, nonce: string, now: int, ttl: nat) {
    exists i: nat :: i < |h| && Recent(h, i, nonce, now, ttl)
  }

  predicate Remembered(h: seq<Look>, nonce: string, now: int, ttl: nat) {
    exists i: nat :: i < |h| && Recent(h, i, nonce, now, ttl) && Kept(h, i, ttl)
  }

  /** The table of one fingerprint holds exactly the acceptances that were kept. */
  ghost predicate Mirrors(m: Times, h: seq<Look>, ttl: nat) {
    && (forall n :: n in m ==> exists i: nat :: Kept(h, i, ttl) && h[i].nonce == n && h[i].time == m[n])
    && (forall i: nat :: Kept(h, i, ttl) ==> h[i].nonce in m && m[h[i].nonce] == h[i].time)
  }

  function Looked(h: seq<Look>, nonce: string, now: int, ttl: nat): seq<Look> {
    h + [Look(nonce, now, !Remembered(h, nonce, now, ttl))]
  }

  lemma KeptLonger(h: seq<Look>, nonce: string, now: int, ttl: nat, i: nat)
    requires i < |h|
    ensures Kept(Looked(h, nonce, now, ttl), i, ttl) <==> Kept(h, i, ttl) && h[i].time >= now - ttl
  {
    var l := Looked(h, nonce, now, ttl);
    assert l[|h|].time == now && forall j :: 0 <= j < |h| ==> l[j] == h[j];
  }

  lemma LookMirrors(m: Times, h: seq<Look>, nonce: string, now: int, ttl: nat)
    requires Mirrors(m, h, ttl)
    ensures nonce !in Pruned(m, now - ttl) <==> !Remembered(h, nonce, now, ttl)
    ensures var p := Pruned(m, now - ttl);
            Mirrors(if nonce in p then p else p[nonce := now], Looked(h, nonce, now, ttl), ttl)
  {
    var p, l := Pruned(m, now - ttl), Looked(h, nonce, now, ttl);
    if nonce in p {
      var i: nat :| Kept(h, i, ttl) && h[i].nonce == nonce && h[i].time == m[nonce];
      assert Recent(h, i, nonce, now, ttl);
    }
    var q := if nonce in p then p else p[nonce := now];
    forall n | n in q ensures exists i: nat :: Kept(l, i, ttl) && l[i].nonce == n && l[i].time == q[n] {
      if n in p {
        var i: nat :| Kept(h, i, ttl) && h[i].nonce == n && h[i].time == m[n];
        KeptLonger(h, nonce, now, ttl, i);
      } else {
        assert Kept(l, |h|, ttl);
      }
    }
    forall i: nat | Kept(l, i, ttl) ensures l[i].nonce in q && q[l[i].nonce] == l[i].time {
      if i < |h| {
        KeptLonger(h, nonce, now, ttl, i);
        assert l[i].nonce == nonce ==> Recent(h, i, nonce, now, ttl);
      }
    }
  }

  function HistoryVerdicts(hist: History, es: seq<Event>, ttl: nat): seq<bool>
    decreases |es|
  {
    if es == [] then []
    else
      match es[0]
      case Check(fp, nonce, t) =>
        var h := HistoryOf(hist, fp);
        [!Remembered(h, nonce, t, ttl)] + HistoryVerdicts(hist[fp := Looked(h, nonce, t, ttl)], es[1..], ttl)
      case Purge(fp, _) => HistoryVerdicts(hist - {fp}, es[1..], ttl)
  }

  ghost predicate AllMirror(seen: Seen, hist: History, ttl: nat) {
    forall fp :: Mirrors(TimesOf(seen, fp), HistoryOf(hist, fp), ttl)
  }

  lemma CheckKeepsMirror(seen: Seen, hist: History, fp: string, nonce: string, now: int, ttl: nat)
    requires AllMirror(seen, hist, ttl)
    ensures Fresh(seen, fp, nonce, now, ttl) <==> !Remembered(HistoryOf(hist, fp), nonce, now, ttl)
    ensures AllMirror(Marked(seen, fp, nonce, now, ttl), hist[fp := Looked(HistoryOf(hist, fp), nonce, now, ttl)], ttl)
  {
    var m, h := TimesOf(seen, fp), HistoryOf(hist, fp);
    var seen', hist' := Marked(seen, fp, nonce, now, ttl), hist[fp := Looked(h, nonce, now, ttl)];
    assert Mirrors(m, h, ttl);
    LookMirrors(m, h, nonce, now, ttl);
    forall f ensures Mirrors(TimesOf(seen', f), HistoryOf(hist', f), ttl) {
      if f != fp {
        assert TimesOf(seen', f) == TimesOf(seen, f) && HistoryOf(hist', f) == HistoryOf(hist, f);
        assert Mirrors(TimesOf(seen, f), HistoryOf(hist, f), ttl);
      }
    }
  }

  lemma PurgeKeepsMirror(seen: Seen, hist: History, fp: string, ttl: nat)
    requires AllMirror(seen, hist, ttl)
    ensures AllMirror(seen - {fp}, hist - {fp}, ttl)
  {
    forall f ensures Mirrors(TimesOf(seen - {fp}, f), HistoryOf(hist - {fp}, f), ttl) {
      assert Mirrors(TimesOf(seen, f), HistoryOf(hist, f), ttl);
    }
  }

  /** In every run, with any clock, a nonce is refused exactly if an acceptance of it is recent and was kept. */
  lemma {:induction false} AnyClockExactly(seen: Seen, hist: History, es: seq<Event>, ttl: nat)
    requires AllMirror(seen, hist, ttl)
    ensures Verdicts(seen, es, ttl) == HistoryVerdicts(hist, es, ttl)
    decreases |es|
  {
    if es != [] {
      match es[0]
      case Check(fp, nonce, t) =>
        var h := HistoryOf(hist, fp);
        CheckKeepsMirror(seen, hist, fp, nonce, t, ttl);
        AnyClockExactly(Marked(seen, fp, nonce, t, ttl), hist[fp := Looked(h, nonce, t, ttl)], es[1..], ttl);
      case Purge(fp, _) =>
        PurgeKeepsMirror(seen, hist, fp, ttl);
        AnyClockExactly(seen - {fp}, hist - {fp}, es[1..], ttl);
    }
  }

  /** A check later than i found its acceptance too old. */
  predicate Outdated(h: seq<Look>, i: nat, ttl: nat) {
    i < |h| && exists j :: i < j < |h| && h[j].time > h[i].time + ttl
  }

  /**
   Table and log differ about a nonce accepted within the time to live exactly
   if every such acceptance was followed by a check more than the time to live
   after it. Such a check was later than now, so the clock has run backwards.
   */
  lemma ForgottenExactly(h: seq<Look>, nonce: string, now: int, ttl: nat)
    requires AcceptedRecently(h, nonce, now, ttl)
    ensures !Remembered(h, nonce, now, ttl)
            <==> forall i: nat :: Recent(h, i, nonce, now, ttl) ==> Outdated(h, i, ttl)
    ensures !Remembered(h, nonce, now, ttl) ==> exists j :: 0 <= j < |h| && h[j].time > now
  {
    forall i: nat | Recent(h, i, nonce, now, ttl) ensures Kept(h, i, ttl) <==> !Outdated(h, i, ttl) {
    }
    if !Remembered(h, nonce, now, ttl) {
      var i: nat :| i < |h| && Recent(h, i, nonce, now, ttl);
      assert Outdated(h, i, ttl);
      var j :| i < j < |h| && h[j].time > h[i].time + ttl;
    }
  }

  /** With a clock that runs backwards, pruning can forget a nonce that is still within its time to live. */
  lemma BackwardClockForgets(fp: string, a: string, b: string, ttl: nat)
    requires a != b
    ensures var s1 := Marked(map[], fp, a, 0, ttl);
            var s2 := Marked(s1, fp, b, ttl + 1, ttl);
            var l1 := Logged(map[], fp, a, 0, ttl);
            var l2 := Logged(l1, fp, b, ttl + 1, ttl);
            Fresh(s2, fp, a, 0, ttl) && Replayed(LogOf(l2, fp), a, 0, ttl)
  {
    var l1 := Logged(map[], fp, a, 0, ttl);
    var l2 := Logged(l1, fp, b, ttl + 1, ttl);
    assert LogOf(l1, fp) == [Entry(a, 0)] && LogOf(l2, fp)[0] == Entry(a, 0);
  }
}
