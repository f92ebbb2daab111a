/**
 What cleaning up, sleeping and shutting down do to each request: cleaning up forgets exactly those that are over, in
 silence; the engine sleeps only when no running request can be given work; and shutdown tells every request it
 dismisses why.
 */
module CleanupTheorems {
  import opened Types
  import opened Seqs
  import opened Blocks
  import opened State
  import opened Scheduling
  import opened Engine
  import opened VoiceLemmas
  import opened ServiceTheorems

  /** A request and its log are as they were. */
  predicate Untouched(s: Sched, s': Sched, t: Ticket) {
    && (t in s'.objs <==> t in s.objs) && (t in s.objs ==> s'.objs[t] == s.objs[t]) && LogOf(s', t) == LogOf(s, t)
  }

  /** A request is forgotten, and its client hears these last events. */
  predicate Dropped(s: Sched, s': Sched, t: Ticket, events: seq<Event>) {
    t in s.objs && t !in s'.objs && LogOf(s', t) == LogOf(s, t) + (if s.objs[t].open then events else [])
  }

  lemma UntouchedTwice(a: Sched, b: Sched, c: Sched, t: Ticket)
    requires Untouched(a, b, t)
    ensures Untouched(b, c, t) ==> Untouched(a, c, t)
    ensures forall events :: Dropped(b, c, t, events) ==> Dropped(a, c, t, events)
  {
    hide LogOf;
  }

  lemma DroppedTwice(a: Sched, b: Sched, c: Sched, t: Ticket, events: seq<Event>)
    requires Dropped(a, b, t, events) && Untouched(b, c, t)
    ensures Dropped(a, c, t, events)
  {
    hide LogOf;
  }

  // ---------------------------------------------------------------- cleaning up

  lemma ForgetEffect(s: Sched, t: Ticket, u: Ticket)
    ensures var s' := EraseRequest(ReleaseScheduling(s, t), t);
      && (if u == t && t in s.objs then Dropped(s, s', u, []) else Untouched(s, s', u))
      && s'.waiting == s.waiting && s'.skip == s.skip && s'.running == s.running
  {
    hide ReleaseTable;
  }

  lemma ReapEffect(s: Sched, t: Ticket, u: Ticket)
    ensures var s' := Reap(s, t);
      && (if u == t && t in s.objs then Dropped(s, s', u, []) else Untouched(s, s', u))
      && s'.waiting == s.waiting && s'.skip == s.skip
  {
    hide ReleaseTable, DropTicket;
  }

  lemma SpentSame(s: Sched, s': Sched, t: Ticket)
    requires Untouched(s, s', t)
    ensures Spent(s', t) == Spent(s, t) && Alive(s', t) == Alive(s, t) && Get(s', t) == Get(s, t)
  {
    hide LogOf;
  }

  lemma {:induction false} ReapAllEffect(s: Sched, ts: seq<Ticket>, u: Ticket)
    ensures var s' := ReapAll(s, ts);
      && (if u in ts && Spent(s, u) then Dropped(s, s', u, []) else Untouched(s, s', u))
      && s'.waiting == s.waiting && s'.skip == s.skip
    decreases |ts|
  {
    hide Reap, Dropped, Untouched, LogOf;
    if ts == [] {
      NothingTouched(s, u);
    } else {
      var t := ts[0];
      var s1 := if Spent(s, t) then Reap(s, t) else s;
      NothingTouched(s, u);
      ReapEffect(s, t, u);
      ReapAllEffect(s1, ts[1..], u);
      SpentKnown(s, t);
      if u == t && Spent(s, t) {
        GoneStays(s, s1, u);
        DroppedTwice(s, s1, ReapAll(s, ts), u, []);
      } else {
        SpentSame(s, s1, u);
        UntouchedTwice(s, s1, ReapAll(s, ts), u);
      }
    }
  }

  lemma NothingTouched(s: Sched, t: Ticket)
    ensures Untouched(s, s, t)
  {
  }

  lemma SpentKnown(s: Sched, t: Ticket)
    ensures Spent(s, t) ==> t in s.objs
  {
  }

  lemma GoneStays(s: Sched, s': Sched, t: Ticket)
    requires Dropped(s, s', t, [])
    ensures t !in s'.objs && !Spent(s', t) && !Alive(s', t) && Get(s', t).status != Active
  {
    hide LogOf;
  }

  /** Sweeping a queue forgets the requests of it that are not active, and keeps the others in order. */
  lemma {:induction false} SweepEffect(s: Sched, ts: seq<Ticket>, u: Ticket)
    ensures var w := Sweep(s, ts);
      && (if u in ts && u in s.objs && !Alive(s, u) then Dropped(s, w.s, u, []) else Untouched(s, w.s, u))
      && w.s.waiting == s.waiting && w.s.skip == s.skip && w.s.running == s.running
    decreases |ts|
  {
    hide EraseRequest, ReleaseScheduling, Dropped, Untouched, LogOf;
    NothingTouched(s, u);
    if ts != [] {
      var t := ts[0];
      if Get(s, t).status == Active {
        SweepEffect(s, ts[1..], u);
      } else {
        var s1 := EraseRequest(ReleaseScheduling(s, t), t);
        ForgetEffect(s, t, u);
        SweepEffect(s1, ts[1..], u);
        if u == t && t in s.objs {
          GoneStays(s, s1, u);
          DroppedTwice(s, s1, Sweep(s, ts).s, u, []);
        } else {
          SpentSame(s, s1, u);
          StillKnown(s, s1, u);
          UntouchedTwice(s, s1, Sweep(s, ts).s, u);
        }
      }
    }
  }

  lemma StillKnown(s: Sched, s': Sched, t: Ticket)
    requires Untouched(s, s', t)
    ensures t in s'.objs <==> t in s.objs
  {
  }

  /** The request is over, and nothing of it is in flight. */
  predicate Disposable(s: Sched, t: Ticket) {
    (t in s.running && Spent(s, t)) || (t in s.objs && !Alive(s, t) && (t in s.skip || t in s.waiting))
  }

  /** Cleaning up forgets exactly the running requests that are over with nothing in flight and the queued ones that are
      not active, tells nobody anything, and leaves every other request as it is. */
  lemma CleanupExact(s: Sched, u: Ticket)
    ensures var s' := CleanupTerminal(s);
      if Disposable(s, u) then Dropped(s, s', u, []) else Untouched(s, s', u)
  {
    hide ReapAll, Sweep, Dropped, Untouched, LogOf;
    ReapAllEffect(s, s.running, u);
    var s1 := ReapAll(s, s.running);
    var t1 := s1.(skip := []);
    SweepEffect(t1, s1.skip, u);
    var w := Sweep(t1, s1.skip);
    var s2 := w.s.(skip := w.kept);
    var t2 := s2.(waiting := []);
    SweepEffect(t2, s2.waiting, u);
    var v := Sweep(t2, s2.waiting);
    var s' := CleanupTerminal(s);
    QueueOnly(s1, t1, u);
    QueueOnly(w.s, t2, u);
    QueueOnly(v.s, s', u);
    Chained(s, s1, t1, w.s, u, u in s.running && Spent(s, u), u in s.skip);
    var gone := (u in s.running && Spent(s, u)) || (u in s.skip && u in s.objs && !Alive(s, u));
    Finally(s, w.s, t2, v.s, s', u, gone, u in s.waiting);
  }

  lemma QueueOnly(s: Sched, s': Sched, t: Ticket)
    requires s'.objs == s.objs && s'.log == s.log
    ensures Untouched(s, s', t)
  {
  }

  /** Forgotten by either of two passes. */
  lemma Chained(s: Sched, s1: Sched, t1: Sched, s2: Sched, u: Ticket, reaped: bool, queued: bool)
    requires if reaped then Dropped(s, s1, u, []) else Untouched(s, s1, u)
    requires Untouched(s1, t1, u)
    requires if queued && u in t1.objs && !Alive(t1, u) then Dropped(t1, s2, u, []) else Untouched(t1, s2, u)
    ensures if reaped || (queued && u in s.objs && !Alive(s, u)) then Dropped(s, s2, u, []) else Untouched(s, s2, u)
  {
    hide LogOf;
  }

  lemma Finally(s: Sched, s2: Sched, t2: Sched, s3: Sched, s': Sched, u: Ticket, gone: bool, queued: bool)
    requires if gone then Dropped(s, s2, u, []) else Untouched(s, s2, u)
    requires Untouched(s2, t2, u) && Untouched(s3, s', u)
    requires if queued && u in t2.objs && !Alive(t2, u) then Dropped(t2, s3, u, []) else Untouched(t2, s3, u)
    ensures if gone || (queued && u in s.objs && !Alive(s, u)) then Dropped(s, s', u, []) else Untouched(s, s', u)
  {
    hide LogOf;
  }

  // ---------------------------------------------------------------- sleeping

  /** With nothing in flight the engine sleeps only if admission is paused, or nobody waits and no running request
      would get an item. */
  lemma SleepsIdle(c: Config, y: Sys)
    requires y.pc == Check && y.flights == [] && NoDup(CheckStep(c, y).s.running)
    ensures var y' := CheckStep(c, y);
      y'.pc == Sleep ==>
        || y'.s.paused
        || (y'.s.waiting == [] && BuildAll(c, Stage(y'.s, [], c.tokenBudget), y'.s.running).items == [])
  {
    hide CleanupTerminal, Preempt, WantsWork, BuildAll;
    var y' := CheckStep(c, y);
    var g := Stage(y'.s, [], c.tokenBudget);
    if y'.pc == Sleep && !y'.s.paused && BuildAll(c, g, y'.s.running).items != [] {
      BuiltForList(c, g, y'.s.running, 0);
    }
  }

  // ---------------------------------------------------------------- shutting down

  lemma DismissEffect(s: Sched, t: Ticket, e: Event, u: Ticket)
    ensures var s' := Dismiss(s, t, e); if u == t && t in s.objs then Dropped(s, s', u, [e]) else Untouched(s, s', u)
  {
    hide ReleaseTable;
  }

  lemma {:induction false} WaitingTold(s: Sched, e: ErrorCode, u: Ticket)
    ensures var s' := FailWaiting(s, e);
      && (if u in s.waiting && u in s.objs then Dropped(s, s', u, [ErrorEvent(e)]) else Untouched(s, s', u))
      && s'.waiting == [] && s'.skip == s.skip
    decreases |s.waiting|
  {
    hide Dismiss, Dropped, Untouched, LogOf;
    NothingTouched(s, u);
    if s.waiting != [] {
      var t := s.waiting[0];
      var s1 := s.(waiting := s.waiting[1..]);
      var s2 := Dismiss(s1, t, ErrorEvent(e));
      QueueOnly(s, s1, u);
      DismissEffect(s1, t, ErrorEvent(e), u);
      DismissQueues(s1, t, ErrorEvent(e));
      WaitingTold(s2, e, u);
      ToldOnce(s, s1, s2, FailWaiting(s, e), u, u == t, u in s.waiting[1..], ErrorEvent(e));
    }
  }

  lemma {:induction false} SkippedTold(s: Sched, e: ErrorCode, u: Ticket)
    ensures var s' := FailSkipped(s, e);
      && (if u in s.skip && u in s.objs then Dropped(s, s', u, [ErrorEvent(e)]) else Untouched(s, s', u))
      && s'.skip == [] && s'.waiting == s.waiting
    decreases |s.skip|
  {
    hide Dismiss, Dropped, Untouched, LogOf;
    NothingTouched(s, u);
    if s.skip != [] {
      var t := s.skip[0];
      var s1 := s.(skip := s.skip[1..]);
      var s2 := Dismiss(s1, t, ErrorEvent(e));
      QueueOnly(s, s1, u);
      DismissEffect(s1, t, ErrorEvent(e), u);
      DismissQueues(s1, t, ErrorEvent(e));
      SkippedTold(s2, e, u);
      ToldOnce(s, s1, s2, FailSkipped(s, e), u, u == t, u in s.skip[1..], ErrorEvent(e));
    }
  }

  /** Dismissed now or by the rest of the queue. */
  lemma ToldOnce(s: Sched, s1: Sched, s2: Sched, s': Sched, u: Ticket, now: bool, later: bool, e: Event)
    requires Untouched(s, s1, u)
    requires if now && u in s1.objs then Dropped(s1, s2, u, [e]) else Untouched(s1, s2, u)
    requires if later && u in s2.objs then Dropped(s2, s', u, [e]) else Untouched(s2, s', u)
    ensures if (now || later) && u in s.objs then Dropped(s, s', u, [e]) else Untouched(s, s', u)
  {
    hide LogOf;
  }

  /** Shutdown dismisses every queued request, tells each of those that listen why, once, and touches no other. */
  lemma QueuedTold(s: Sched, e: ErrorCode, u: Ticket)
    ensures var s' := FailAllWaiting(s, e);
      && (if (u in s.waiting || u in s.skip) && u in s.objs then Dropped(s, s', u, [ErrorEvent(e)])
          else Untouched(s, s', u))
      && s'.waiting == [] && s'.skip == []
  {
    hide FailWaiting, FailSkipped, Dropped, Untouched, LogOf;
    var s1 := FailWaiting(s, e);
    NothingTouched(s, u);
    WaitingTold(s, e, u);
    SkippedTold(s1, e, u);
    ToldOnce(s, s, s1, FailAllWaiting(s, e), u, u in s.waiting, u in s.skip, ErrorEvent(e));
  }

  /** The request fails and its client is told. */
  lemma ErrorEffect(s: Sched, t: Ticket, e: ErrorCode, u: Ticket)
    requires t in s.objs
    ensures var s' := SendError(s, t, e);
      if u != t then Untouched(s, s', u)
      else
        && t in s'.objs && s'.objs[t].open == s.objs[t].open
        && LogOf(s', t) == LogOf(s, t) + if s.objs[t].open then [ErrorEvent(e)] else []
  {
  }

  lemma TerminateEffect(s: Sched, t: Ticket, e: ErrorCode, u: Ticket)
    ensures var s' := Terminate(s, t, e);
      if u == t && Get(s, t).sched.Some? then Dropped(s, s', u, if Alive(s, u) then [ErrorEvent(e)] else [])
      else Untouched(s, s', u)
  {
    hide SendError, ReleaseScheduling, EraseRequest, LogOf, Terminate;
    TerminateForm(s, t, e);
    NothingTouched(s, u);
    if Get(s, t).sched.Some? {
      var s1 := if s.objs[t].status == Active then SendError(s, t, e) else s;
      ErrorEffect(s, t, e, u);
      ForgetEffect(s1, t, u);
      QueueOnly(EraseRequest(ReleaseScheduling(s1, t), t), Terminate(s, t, e), u);
    }
  }

  lemma TerminateForm(s: Sched, t: Ticket, e: ErrorCode)
    ensures Get(s, t).sched.None? ==> Terminate(s, t, e) == s
    ensures Get(s, t).sched.Some? ==>
      var s1 := if s.objs[t].status == Active then SendError(s, t, e) else s;
      var s2 := EraseRequest(ReleaseScheduling(s1, t), t);
      Terminate(s, t, e).objs == s2.objs && Terminate(s, t, e).log == s2.log
  {
    hide SendError, ReleaseScheduling, DropTicket;
  }

  /** The requests that run when the engine stops are forgotten; the active ones are told why, once. */
  lemma {:induction false} RunningTold(s: Sched, ts: seq<Ticket>, e: ErrorCode, u: Ticket)
    ensures var s' := TerminateAll(s, ts, e);
      if u in ts && Get(s, u).sched.Some? then Dropped(s, s', u, if Alive(s, u) then [ErrorEvent(e)] else [])
      else Untouched(s, s', u)
    decreases |ts|
  {
    hide Terminate, Dropped, Untouched, LogOf;
    NothingTouched(s, u);
    if ts != [] {
      var s1 := Terminate(s, ts[0], e);
      TerminateEffect(s, ts[0], e, u);
      RunningTold(s1, ts[1..], e, u);
      ToldRunning(s, s1, TerminateAll(s, ts, e), u, u == ts[0], u in ts[1..], e);
    }
  }

  lemma ToldRunning(s: Sched, s1: Sched, s': Sched, u: Ticket, now: bool, later: bool, e: ErrorCode)
    requires if now && Get(s, u).sched.Some? then Dropped(s, s1, u, if Alive(s, u) then [ErrorEvent(e)] else [])
             else Untouched(s, s1, u)
    requires if later && Get(s1, u).sched.Some? then Dropped(s1, s', u, if Alive(s1, u) then [ErrorEvent(e)] else [])
             else Untouched(s1, s', u)
    ensures if (now || later) && Get(s, u).sched.Some? then
              Dropped(s, s', u, if Alive(s, u) then [ErrorEvent(e)] else [])
            else Untouched(s, s', u)
  {
    hide LogOf;
  }
}
