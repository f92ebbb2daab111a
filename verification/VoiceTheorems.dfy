/**
 What clients hear on every run, which results end a request, and that nothing that ended comes back.
 */
module VoiceTheorems {
  import opened Types
  import opened State
  import opened Scheduling
  import opened Invariant
  import opened OutLemmas
  import opened OutSteps
  import opened RetireLemmas
  import opened StepLemmas
  import opened Protocol
  import opened Engine
  import opened Marks
  import opened EngineInvariant
  import opened Faithful
  import opened SystemInvariant
  import opened Theorems
  import opened RetireTheorems
  import opened RunSteps
  import opened VoiceLemmas
  import opened RecordLemmas

  lemma RunLater(c: Config, steps: seq<Step>, more: seq<Step>)
    requires c.Valid()
    ensures Later(Run(c, steps).s, Run(c, steps + more).s)
  {
    hide Later, Wording, Run;
    RunKeeps(c, steps, more);
  }

  // ---------------------------------------------------------------- what clients hear

  lemma RunRelayed(c: Config, steps: seq<Step>, t: Ticket)
    requires c.Valid() && t < Run(c, steps).s.nextTicket
    ensures Relayed(Run(c, steps).s, t)
  {
    hide LaterFor, Relayed, Fresh;
    RunLater(c, [], steps);
    assert [] + steps == steps;
    assert Run(c, []) == Boot(c);
  }

  /** The tokens a client was told are those its request generated, in order: all of them while its channel is there,
      and all of them if it neither cancelled nor went away; otherwise the first of them. */
  lemma ClientsHear(c: Config, steps: seq<Step>, t: Ticket)
    requires c.Valid() && t < Run(c, steps).s.nextTicket
    ensures var s := Run(c, steps).s; var heard := Voice(LogOf(s, t));
      && (t in s.objs && (s.objs[t].open || t !in s.hist.excused) ==> heard == s.objs[t].generated)
      && (t in s.objs ==> heard <= s.objs[t].generated)
      && (t in s.hist.final && t !in s.objs ==>
            heard <= s.hist.final[t].generated && (t !in s.hist.excused ==> heard == s.hist.final[t].generated))
      && (t !in s.hist.final && t !in s.objs ==> heard == [])
  {
    hide Run, Voice, LogOf;
    RunRelayed(c, steps, t);
  }

  /** What was generated and what was told only grows, and a forgotten request had all it was ever seen to have. */
  lemma HearingGrows(c: Config, steps: seq<Step>, more: seq<Step>, t: Ticket)
    requires c.Valid() && t < Run(c, steps).s.nextTicket
    ensures var s, s' := Run(c, steps).s, Run(c, steps + more).s;
      LogOf(s, t) <= LogOf(s', t) && Got(s, t) <= Got(s', t)
  {
    hide Run, Got, LogOf, Over, Relayed, Fresh;
    RunLater(c, steps, more);
    assert LaterFor(Run(c, steps).s, Run(c, steps + more).s, t);
  }

  /** Why clients hear the last event they hear: they are told that an answer is done only if the request had all its
      tokens or its context was full; and a request that no batch failed with is told that it was invalid only if its
      prompt could never be admitted, and that it was cancelled only if its client called it off or left. */
  lemma HonestAnswers(c: Config, steps: seq<Step>, t: Ticket)
    requires c.Valid() && LogOf(Run(c, steps).s, t) != []
    ensures var s := Run(c, steps).s; var e := Last(LogOf(s, t), DoneEvent);
      && (t in s.objs && e.DoneEvent? ==> Exhausted(s.objs[t]))
      && (t in s.objs && e.ErrorEvent? ==> s.objs[t].status == Failed)
      && (t !in s.objs && t in s.hist.final ==>
            var r := s.hist.final[t];
            && (e.DoneEvent? ==> Exhausted(r))
            && (r.status != Failed && e == ErrorEvent(InvalidArgument) ==> Unservable(c, r))
            && (r.status != Failed && e == ErrorEvent(RequestCancelled) ==> t in s.hist.excused))
  {
    hide Run, LogOf, Exhausted, Unservable;
    RunWorded(c, steps, t);
  }

  // ---------------------------------------------------------------- which results end a request

  /** A result was retired on an active request: it has the sampled token, if any; it is finished exactly if the
      result ended it or it has all its tokens, and otherwise cancelled exactly if nobody was there to hear the token;
      and its client was told so. */
  predicate Credited(s: Sched, s': Sched, t: Ticket, result: ItemResult) {
    && t in s.objs && t in s'.objs
    && var r, r' := s.objs[t], s'.objs[t];
       var ended := result.eos || |r'.generated| >= r.maxTokens;
       && r'.generated == r.generated + (if result.sampled == [] then [] else [result.sampled[0]])
       && r'.status == (if ended then Finished else if result.sampled != [] && !r.open then Cancelled else Active)
       && LogOf(s', t) == LogOf(s, t) + if !r.open then []
                                        else if result.sampled != [] then [TokenEvent(result.sampled[0], ended)]
                                        else if ended then [DoneEvent]
                                        else []
  }

  /** The request with the reservation of a result given back. */
  lemma RetireStart(c: Config, s: Sched, x: WorkItem, t: Ticket, result: ItemResult)
    requires Retiring(s, x, t) && result.seqId == x.seqId && !result.stale
    ensures var s1 := Put(s, t, RetireReservation(s.objs[t], x));
      && RetireWork(c, s, x, result) == RetireActive(c, s1, t, x, result)
      && Alive(s1, t) && s1.objs[t].sched.Some? && s1.objs[t].sched.value.seqId == x.seqId
      && s1.objs[t] == s.objs[t].(sched := s1.objs[t].sched)
      && s1.objs[t].sched.value == s.objs[t].sched.value.(res := s1.objs[t].sched.value.res)
      && LogOf(s1, t) == LogOf(s, t)
  {
    hide RetireActive;
  }

  lemma ActiveCredited(c: Config, s: Sched, x: WorkItem, t: Ticket, result: ItemResult)
    requires Alive(s, t) && s.objs[t].sched.Some? && HasRoom(s.objs[t])
    requires x.PrefillChunk? && s.objs[t].sched.value.cursor + |x.tokens| < |s.objs[t].prompt| ==>
      result.sampled == [] && !result.eos
    ensures Credited(s, RetireActive(c, s, t, x, result), t, result)
  {
    hide HashWritten, Deliver, LogOf;
    var r := s.objs[t];
    var q := Advance(r, r.sched.value, x);
    var s' := RetireActive(c, s, t, x, result);
    if x.PrefillChunk? && q.cursor < |r.prompt| {
      PutEdits(s, t, r.(sched := Some(q)));
    } else {
      var p := HashWritten(c, s, r, q, x);
      HashRecord(c, s, r, q, x);
      LogSame(s, p.s, t);
      DeliverForm(p.s, t, p.q, result);
    }
  }

  lemma HeadCredited(c: Config, s: Sched, x: WorkItem, rest: seq<WorkItem>, t: Ticket, result: ItemResult)
    requires Steady(c, s, [x] + rest) && Retiring(s, x, t) && ResultOk(x, result) && !result.stale && HasRoom(s.objs[t])
    ensures Credited(s, RetireWork(c, s, x, result), t, result)
  {
    hide Steady, LogOf, RetireWork, RetireActive, RetireReservation;
    HeadAsserts(c, s, x, rest, t, result);
    RetireStart(c, s, x, t, result);
    var s1 := Put(s, t, RetireReservation(s.objs[t], x));
    ActiveCredited(c, s1, x, t, result);
  }

  // ---------------------------------------------------------------- in the middle of a batch

  lemma {:induction false} KeepsMidway(c: Config, y: Sys, j: nat, k: nat)
    requires Arrived(y) && Sampled(y.current.value) && j <= k <= |y.current.value.items|
    ensures Keeps(c, Midway(c, y, j), Midway(c, y, k))
    decreases k
  {
    hide Keeps, Midway, RetireWork;
    if j == k {
      KeepsSame(c, Midway(c, y, j), Midway(c, y, j));
    } else {
      KeepsMidway(c, y, j, k - 1);
      MidwayStep(c, y, k - 1);
      var f := y.current.value;
      KeepsRetireWork(c, Midway(c, y, k - 1), f.items[k - 1], f.outcome.value.results[k - 1]);
      KeepsTrans(c, Midway(c, y, j), Midway(c, y, k - 1), Midway(c, y, k));
    }
  }

  lemma MidwayRoom(c: Config, steps: seq<Step>, k: nat, t: Ticket)
    requires c.Valid() && Arrived(Run(c, steps)) && k <= |Run(c, steps).current.value.items|
    ensures var s := Midway(c, Run(c, steps), k); Alive(s, t) ==> HasRoom(s.objs[t])
  {
    hide Run, Midway, Later;
    var y := Run(c, steps);
    RunWorded(c, steps, t);
    RunSampled(c, steps);
    KeepsMidway(c, y, 0, k);
    MidwayFirst(c, y);
    assert Worded(c, Midway(c, y, k), t);
  }

  lemma MidwayFirst(c: Config, y: Sys)
    requires Arrived(y)
    ensures Midway(c, y, 0) == y.s
  {
  }

  /** Every result retired on an active request is credited to it, on every run. */
  lemma ResultCredited(c: Config, steps: seq<Step>, k: nat, t: Ticket)
    requires c.Valid() && Arrived(Run(c, steps)) && k < |Run(c, steps).current.value.items|
    requires Retiring(Midway(c, Run(c, steps), k), Run(c, steps).current.value.items[k], t)
    ensures var y := Run(c, steps);
      Credited(Midway(c, y, k), Midway(c, y, k + 1), t, y.current.value.outcome.value.results[k])
  {
    hide Run, Steady, Pact, Midway, ItemsOf, MarksOf, Credited, ResultOk, HasRoom;
    MidwayHead(c, steps, k, t);
    MidwayRoom(c, steps, k, t);
    var y := Run(c, steps);
    var f := y.current.value;
    MidwayStep(c, y, k);
    HeadCredited(c, Midway(c, y, k), f.items[k], f.items[k + 1..] + ItemsOf(y.flights), t, f.outcome.value.results[k]);
  }

  // ---------------------------------------------------------------- ended is ended

  /** A step of the engine that awaits an executed batch retires it. */
  lemma CollectKeeps(c: Config, y: Sys, raises: seq<Raise>)
    requires Arrived(y) && (y.pc == Collect || y.pc == DrainCollect)
    ensures Keeps(c, Midway(c, y, |y.current.value.items|), Next(c, y, RunEngine(raises)).s)
  {
    hide Keeps, RetireAll, CleanupTerminal;
    var f := y.current.value;
    assert f.items[..|f.items|] == f.items && f.outcome.value.results[..|f.items|] == f.outcome.value.results;
    var s := Retired(c, y.s, f);
    KeepsSame(c, s, s);
    KeepsCleanup(c, s);
  }

  /** From the middle of a batch to any later point of the run. */
  lemma MidwayLater(c: Config, steps: seq<Step>, k: nat, raises: seq<Raise>, more: seq<Step>)
    requires c.Valid() && Arrived(Run(c, steps)) && k <= |Run(c, steps).current.value.items|
    ensures Later(Midway(c, Run(c, steps), k), Run(c, steps + [RunEngine(raises)] + more).s)
  {
    hide Run, Midway, Later, Wording, Next, Flying, Tidy, Orderly;
    var y := Run(c, steps);
    var n := |y.current.value.items|;
    RunSampled(c, steps);
    KeepsMidway(c, y, k, n);
    RunRest(c, steps);
    CollectKeeps(c, y, raises);
    RunStep(c, steps, RunEngine(raises));
    var y' := Run(c, steps + [RunEngine(raises)]);
    RunKeeps(c, steps + [RunEngine(raises)], more);
    LaterTrans(Midway(c, y, k), Midway(c, y, n), y'.s);
    LaterTrans(Midway(c, y, k), y'.s, Run(c, steps + [RunEngine(raises)] + more).s);
  }

  lemma MidwayIssued(c: Config, steps: seq<Step>, k: nat, t: Ticket)
    requires c.Valid() && Arrived(Run(c, steps)) && k <= |Run(c, steps).current.value.items|
    requires t in Midway(c, Run(c, steps), k).objs
    ensures t < Midway(c, Run(c, steps), k).nextTicket
  {
    hide Run, Midway, Wording, LaterFor, Relayed;
    RunFresh(c, steps);
    RunSampled(c, steps);
    KeepsMidway(c, Run(c, steps), 0, k);
    MidwayFirst(c, Run(c, steps));
  }

  /** A result that says so ends its request for good: whatever happens later, the request is not active, and if its
      client was there, the last it heard is that token as the final one. */
  lemma EosEnds(c: Config, steps: seq<Step>, k: nat, t: Ticket, raises: seq<Raise>, more: seq<Step>)
    requires c.Valid() && Arrived(Run(c, steps)) && k < |Run(c, steps).current.value.items|
    requires Retiring(Midway(c, Run(c, steps), k), Run(c, steps).current.value.items[k], t)
    requires Run(c, steps).current.value.outcome.value.results[k].eos
    ensures var s := Midway(c, Run(c, steps), k); var s' := Run(c, steps + [RunEngine(raises)] + more).s;
      var result := Run(c, steps).current.value.outcome.value.results[k];
      && result.sampled != [] && !Alive(s', t) && Got(s', t) == s.objs[t].generated + [result.sampled[0]]
      && (s.objs[t].open ==> LogOf(s', t) == LogOf(s, t) + [TokenEvent(result.sampled[0], true)])
  {
    hide Run, Midway, Later, LogOf, Steady, Pact, MarksOf, ItemsOf;
    var y := Run(c, steps);
    var result := y.current.value.outcome.value.results[k];
    MidwayHead(c, steps, k, t);
    ResultCredited(c, steps, k, t);
    MidwayLater(c, steps, k + 1, raises, more);
    MidwayIssued(c, steps, k + 1, t);
    var s, s1, s' := Midway(c, y, k), Midway(c, y, k + 1), Run(c, steps + [RunEngine(raises)] + more).s;
    LaterOver(s1, s', t);
    if s.objs[t].open {
      var i := |LogOf(s, t)|;
      assert LogOf(s', t)[i] == LogOf(s1, t)[i] == TokenEvent(result.sampled[0], true);
      EventProtocol(c, steps + [RunEngine(raises)] + more, t, i);
      assert LogOf(s', t)[..i + 1] == LogOf(s1, t);
    }
  }

  lemma LaterOver(s: Sched, s': Sched, t: Ticket)
    requires Later(s, s') && t < s.nextTicket
    ensures LogOf(s, t) <= LogOf(s', t) && (!Alive(s, t) ==> Over(s, s', t)) && t < s'.nextTicket
  {
    hide LogOf, Over, Relayed, Got, Fresh;
    assert LaterFor(s, s', t);
  }

  // ---------------------------------------------------------------- no work for ended requests

  /** The items of a request that is not active were in flight before. */
  ghost predicate NoMoreWork(y: Sys, y': Sys, t: Ticket) {
    forall x :: x in y'.Out() && HasSeq(y'.s, t, x.seqId) ==> x in y.Out() && HasSeq(y.s, t, x.seqId)
  }

  lemma LeasesAre(c: Config, s: Sched, out: seq<WorkItem>, t: Ticket)
    requires Steady(c, s, out) && t in s.objs && s.objs[t].sched.Some?
    ensures s.objs[t].sched.value.res.leases == |Of(out, s.objs[t].sched.value.seqId)|
  {
    hide Steady, Consecutive, Of;
    ReservedExactly(c, s, out, t);
  }

  lemma StepNoWork(c: Config, y: Sys, step: Step, t: Ticket, x: WorkItem)
    requires var y' := Next(c, y, step); Steady(c, y.s, y.Out()) && Steady(c, y'.s, y'.Out()) && AwaitsHere(y)
    requires var y' := Next(c, y, step); Quieter(y.s, y'.s, t) && x in y'.Out() && HasSeq(y'.s, t, x.seqId)
    ensures x in y.Out() && HasSeq(y.s, t, x.seqId)
  {
    hide Steady, AwaitsHere, Next, Of, ItemsOf;
    var y' := Next(c, y, step);
    var q := x.seqId;
    LeasesAre(c, y'.s, y'.Out(), t);
    assert x in Of(y'.Out(), q);
    LeasesAre(c, y.s, y.Out(), t);
    NextOut(c, y, step, x);
    if step.RunEngine? && y'.Out() == y.Out() + Built(c, y, step.raises) {
      OfConcat(y.Out(), Built(c, y, step.raises), q);
      assert Of(y'.Out(), q) == Of(y.Out(), q);
    }
  }

  /** A request that is no longer active, for whatever reason, gets no token, no token event, no work item, and is
      never active again. */
  lemma {:induction false} EndedStays(c: Config, steps: seq<Step>, more: seq<Step>, t: Ticket)
    requires c.Valid() && t < Run(c, steps).s.nextTicket && !Alive(Run(c, steps).s, t)
    ensures var y, y' := Run(c, steps), Run(c, steps + more);
      && !Alive(y'.s, t) && Voice(LogOf(y'.s, t)) == Voice(LogOf(y.s, t)) && Got(y'.s, t) == Got(y.s, t)
      && NoMoreWork(y, y', t)
    decreases |more|
  {
    hide Next, Later, Steady, Paced, LogOf, Voice, Got, Tidy, Flying, Orderly, Wording;
    RunLater(c, steps, more);
    LaterOver(Run(c, steps).s, Run(c, steps + more).s, t);
    if more == [] {
      assert steps + more == steps;
    } else {
      var before, step := more[..|more| - 1], more[|more| - 1];
      EndedStays(c, steps, before, t);
      RunLater(c, steps, before);
      LaterOver(Run(c, steps).s, Run(c, steps + before).s, t);
      assert steps + more == steps + before + [step];
      RunStep(c, steps + before, step);
      RunStepNoWork(c, steps + before, step, t);
    }
  }

  lemma RunStepNoWork(c: Config, steps: seq<Step>, step: Step, t: Ticket)
    requires c.Valid() && t < Run(c, steps).s.nextTicket && !Alive(Run(c, steps).s, t)
    ensures NoMoreWork(Run(c, steps), Run(c, steps + [step]), t)
  {
    hide Next, Later, Steady, LogOf, Voice, Got, Tidy, Flying, Orderly, Run;
    var y, y' := Run(c, steps), Run(c, steps + [step]);
    RunLater(c, steps, [step]);
    LaterOver(y.s, y'.s, t);
    RunStep(c, steps, step);
    RunSteady(c, steps);
    RunSteady(c, steps + [step]);
    RunRest(c, steps);
    forall x | x in y'.Out() && HasSeq(y'.s, t, x.seqId) ensures x in y.Out() && HasSeq(y.s, t, x.seqId) {
      StepNoWork(c, y, step, t, x);
    }
  }

  // ---------------------------------------------------------------- cancelling

  /** Cancelling leaves everything as it is but the status of the named request, which is no longer active. */
  ghost predicate CalledOff(y: Sys, y': Sys, t: Ticket) {
    && y' == y.(s := y'.s) && y'.s == y.s.(objs := y'.s.objs, hist := y'.s.hist)
    && y'.s.hist == y.s.hist.(excused := y.s.hist.excused + {t})
    && t in y.s.objs && t in y'.s.objs && y'.s.objs == y.s.objs[t := y'.s.objs[t]]
    && y'.s.objs[t] ==
       y.s.objs[t].(status := if y.s.objs[t].status == Active then Cancelled else y.s.objs[t].status)
  }

  lemma CancelForm(c: Config, y: Sys, id: string)
    requires Steady(c, y.s, y.Out())
    ensures var y' := Next(c, y, CancelRequest(id));
      if id in y.s.registry then CalledOff(y, y', y.s.registry[id]) && y.s.objs[y.s.registry[id]].id == id else y' == y
  {
    hide Accounted, Sound, Sequenced, Distinct, Queued, OutIndexed, ItemsOf;
    if id in y.s.registry {
      var t := y.s.registry[id];
      assert y.s.objs[t := y.s.objs[t]] == y.s.objs;
    }
  }

  /** Cancelling a registered request ends it for good; it changes nothing else, and nothing at all if there is no
      such request. */
  lemma CancelEnds(c: Config, steps: seq<Step>, id: string, more: seq<Step>)
    requires c.Valid()
    ensures var y, y' := Run(c, steps), Run(c, steps + [CancelRequest(id)]);
      if id in y.s.registry then CalledOff(y, y', y.s.registry[id]) && y.s.objs[y.s.registry[id]].id == id else y' == y
    ensures var y, y' := Run(c, steps), Run(c, steps + [CancelRequest(id)] + more);
      id in y.s.registry ==>
        var t := y.s.registry[id];
        && !Alive(y'.s, t) && Voice(LogOf(y'.s, t)) == Voice(LogOf(y.s, t)) && Got(y'.s, t) == y.s.objs[t].generated
        && NoMoreWork(y, y', t)
  {
    hide Run, Next, Steady, LogOf, Voice, ItemsOf;
    var y := Run(c, steps);
    RunSteady(c, steps);
    CancelForm(c, y, id);
    RunStep(c, steps, CancelRequest(id));
    if id in y.s.registry {
      var t := y.s.registry[id];
      var y1 := Run(c, steps + [CancelRequest(id)]);
      RunFresh(c, steps);
      EndedStays(c, steps + [CancelRequest(id)], more, t);
      CancelQuiet(y, y1, t);
    }
  }

  lemma CancelQuiet(y: Sys, y': Sys, t: Ticket)
    requires CalledOff(y, y', t)
    ensures LogOf(y'.s, t) == LogOf(y.s, t) && Got(y'.s, t) == y.s.objs[t].generated && y'.Out() == y.Out()
    ensures forall q :: HasSeq(y'.s, t, q) <==> HasSeq(y.s, t, q)
  {
    hide ItemsOf;
  }
}
