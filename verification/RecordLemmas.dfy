/**
 What no operation forgets: lost blocks stay lost; the prompt of a request is what it was submitted with followed by
 the tokens it had generated when its sequence was admitted, except the last of them; clients hear what their requests
 generate; and requests that ended stay so.
 */
module RecordLemmas {
  import opened Types
  import opened Blocks
  import opened Hashing
  import opened State
  import opened Scheduling
  import opened Invariant
  import opened CoreLemmas
  import opened AdmitLemmas
  import opened StepLemmas
  import opened Engine
  import opened Theorems
  import opened VoiceLemmas

  /** The prompt a request is admitted with. */
  function PromptFor(initial: seq<Token>, generated: seq<Token>): seq<Token> {
    if generated == [] then initial else initial + generated[..|generated| - 1]
  }

  /** An active request has not had all its tokens. */
  predicate HasRoom(r: Request) {
    r.generated != [] || r.sched.Some? ==> |r.generated| < r.maxTokens
  }

  predicate WordsOk(starts: map<SeqId, Start>, r: Request) {
    && HasRoom(r)
    && match r.sched
       case None => r.prompt == PromptFor(r.initial, r.generated)
       case Some(q) =>
         && q.seqId in starts && starts[q.seqId].before <= |r.generated|
         && q.genInPrompt == Sub(starts[q.seqId].before, 1)
         && r.prompt == PromptFor(r.initial, r.generated[..starts[q.seqId].before])
  }

  /** The request has all its tokens, or its context is full. */
  predicate Exhausted(r: Request) {
    |r.generated| >= r.maxTokens || |r.initial| + |r.generated| >= r.maxContext
  }

  /** A prompt that can never be admitted. */
  predicate Unservable(c: Config, r: Request) {
    r.prompt == [] || |r.prompt| > r.maxContext || r.maxContext > Cap(c, c.maxBlocks)
  }

  /** The last event so far of a request that is still known. */
  predicate HonestNow(r: Request, e: Event) {
    (e.DoneEvent? ==> Exhausted(r)) && (r.status != Failed ==> !e.ErrorEvent?)
  }

  /** The last event of a request that was forgotten. */
  predicate HonestEnd(c: Config, r: Request, e: Event, excused: bool) {
    && (e.DoneEvent? ==> Exhausted(r))
    && (r.status != Failed && e == ErrorEvent(InvalidArgument) ==> Unservable(c, r))
    && (r.status != Failed && e == ErrorEvent(RequestCancelled) ==> excused)
  }

  predicate Honest(c: Config, s: Sched, t: Ticket) {
    LogOf(s, t) != [] ==>
      var e := Last(LogOf(s, t), DoneEvent);
      && (t in s.objs ==> HonestNow(s.objs[t], e))
      && (t !in s.objs && t in s.hist.final ==> HonestEnd(c, s.hist.final[t], e, t in s.hist.excused))
  }

  predicate Pardoned(s: Sched, t: Ticket) {
    t in s.objs && (s.objs[t].status == Cancelled || !s.objs[t].open) ==> t in s.hist.excused
  }

  predicate Worded(c: Config, s: Sched, t: Ticket) {
    (Alive(s, t) ==> WordsOk(s.hist.starts, s.objs[t])) && Pardoned(s, t) && Honest(c, s, t)
  }

  ghost predicate Wording(c: Config, s: Sched, s': Sched) {
    s.hist.leaked <= s'.hist.leaked && forall t :: Worded(c, s, t) ==> Worded(c, s', t)
  }

  ghost predicate Keeps(c: Config, s: Sched, s': Sched) {
    Wording(c, s, s') && Later(s, s')
  }

  lemma KeepsTrans(c: Config, s: Sched, s1: Sched, s': Sched)
    requires Keeps(c, s, s1) && Keeps(c, s1, s')
    ensures Keeps(c, s, s')
  {
    hide Worded, Later;
    LaterTrans(s, s1, s');
  }

  /** The same log and tickets. */
  predicate SameBooks(s: Sched, s': Sched) {
    && s'.log == s.log && s'.nextTicket == s.nextTicket
    && s'.hist.excused == s.hist.excused && s'.hist.final == s.hist.final
  }

  lemma SameWorded(c: Config, s: Sched, s': Sched, t: Ticket)
    requires SameFor(s, s', t) && s'.hist.starts == s.hist.starts && s.hist.excused <= s'.hist.excused
    ensures Worded(c, s, t) ==> Worded(c, s', t)
  {
    hide WordsOk, HonestNow, LogOf;
  }

  lemma KeepsSame(c: Config, s: Sched, s': Sched)
    requires s'.objs == s.objs && s'.hist.starts == s.hist.starts && s.hist.leaked <= s'.hist.leaked && SameBooks(s, s')
    ensures Keeps(c, s, s')
  {
    hide Worded, Later;
    LaterSame(s, s');
    forall t ensures Worded(c, s, t) ==> Worded(c, s', t) { SameWorded(c, s, s', t); }
  }

  /** One request changes. */
  lemma WordingAt(c: Config, s: Sched, s': Sched, t: Ticket)
    requires s'.hist.starts == s.hist.starts && s.hist.leaked <= s'.hist.leaked && s.hist.excused <= s'.hist.excused
    requires forall u :: u != t ==> SameFor(s, s', u)
    requires Worded(c, s, t) ==> Worded(c, s', t)
    ensures Wording(c, s, s')
  {
    hide Worded, SameFor;
    forall u ensures Worded(c, s, u) ==> Worded(c, s', u) {
      if u != t { SameWorded(c, s, s', u); }
    }
  }

  /** Only fields that its words do not depend on. */
  predicate SameWords(r: Request, r': Request) {
    && r' == r.(sched := r'.sched) && (r'.sched.Some? <==> r.sched.Some?)
    && (r.sched.Some? ==>
          r'.sched.value.seqId == r.sched.value.seqId && r'.sched.value.genInPrompt == r.sched.value.genInPrompt)
  }

  lemma PutOthers(s: Sched, s': Sched, t: Ticket)
    requires t in s'.objs && s'.objs == s.objs[t := s'.objs[t]] && SameBooks(s, s')
    ensures OthersSame(s, s', t) && Noted(s, s', t) && LogOf(s', t) == LogOf(s, t)
  {
  }

  lemma KeepsWords(c: Config, s: Sched, s': Sched, t: Ticket)
    requires s'.hist.starts == s.hist.starts && s.hist.leaked <= s'.hist.leaked && t in s.objs && t in s'.objs
    requires s'.objs == s.objs[t := s'.objs[t]] && SameWords(s.objs[t], s'.objs[t])
    requires SameBooks(s, s') && Alike(s.objs[t], s'.objs[t])
    ensures Keeps(c, s, s')
  {
    PutOthers(s, s', t);
    hide Wording, Later, Alike, Noted, LogOf, SameFor;
    WordingAt(c, s, s', t);
    LaterEdit(s, s', t);
  }

  // ---------------------------------------------------------------- small operations

  lemma KeepsTake(c: Config, s: Sched, n: nat)
    ensures Keeps(c, s, TakeBlocks(s, n).s) && TakeBlocks(s, n).s.objs == s.objs
    ensures TakeBlocks(s, n).s.hist.starts == s.hist.starts
  {
    hide AllocateKv, Keeps;
    KeepsSame(c, s, TakeBlocks(s, n).s);
  }

  /** Only the request and its log differ. */
  predicate EditedAt(s: Sched, s': Sched, t: Ticket) {
    && t in s'.objs && s'.hist == s.hist && s'.nextTicket == s.nextTicket && s'.objs == s.objs[t := s'.objs[t]]
    && (s'.log == s.log || s'.log == s.log[t := LogOf(s', t)])
  }

  lemma EditOthers(s: Sched, s': Sched, t: Ticket)
    requires EditedAt(s, s', t)
    ensures OthersSame(s, s', t)
  {
  }

  lemma PutEdits(s: Sched, t: Ticket, r: Request)
    ensures EditedAt(s, Put(s, t, r), t) && LogOf(Put(s, t, r), t) == LogOf(s, t) && Put(s, t, r).objs[t] == r
  {
  }

  lemma EditTwice(a: Sched, b: Sched, c: Sched, t: Ticket)
    requires EditedAt(a, b, t) && EditedAt(b, c, t)
    ensures EditedAt(a, c, t)
  {
  }

  lemma DoneForm(s: Sched, t: Ticket)
    requires t in s.objs
    ensures var r := s.objs[t]; var s' := SendDone(s, t);
      && EditedAt(s, s', t) && s'.objs[t] == r.(status := Finished)
      && LogOf(s', t) == LogOf(s, t) + if r.open then [DoneEvent] else []
  {
  }

  lemma ErrorForm(s: Sched, t: Ticket, e: ErrorCode)
    requires t in s.objs
    ensures var r := s.objs[t]; var s' := SendError(s, t, e);
      && EditedAt(s, s', t) && s'.objs[t] == r.(status := Failed)
      && LogOf(s', t) == LogOf(s, t) + if r.open then [ErrorEvent(e)] else []
  {
  }

  /** An event that tells no token. */
  lemma SendOthers(s: Sched, r: Request, t: Ticket, e: Event)
    requires t in s.objs && !e.TokenEvent?
    ensures OthersSame(s, Send(Put(s, t, r), t, e), t) && Noted(s, Send(Put(s, t, r), t, e), t)
  {
  }

  lemma KeepsDone(c: Config, s: Sched, t: Ticket)
    requires Alive(s, t) && (Worded(c, s, t) ==> Exhausted(s.objs[t]))
    ensures Keeps(c, s, SendDone(s, t))
  {
    SendOthers(s, s.objs[t].(status := Finished), t, DoneEvent);
    DoneForm(s, t);
    hide Wording, Later, Noted, LogOf, SendDone, SameFor, WordsOk, Exhausted, EditedAt;
    WordingAt(c, s, SendDone(s, t), t);
    LaterEdit(s, SendDone(s, t), t);
  }

  lemma KeepsError(c: Config, s: Sched, t: Ticket, e: ErrorCode)
    requires t in s.objs
    ensures Keeps(c, s, SendError(s, t, e))
  {
    SendOthers(s, s.objs[t].(status := Failed), t, ErrorEvent(e));
    ErrorForm(s, t, e);
    hide Wording, Later, Noted, LogOf, SendError, SameFor, WordsOk, Exhausted, EditedAt;
    WordingAt(c, s, SendError(s, t, e), t);
    LaterEdit(s, SendError(s, t, e), t);
  }

  /** A request as it is remembered. */
  predicate AsRemembered(r: Request, r': Request) {
    && r'.generated == r.generated && r'.initial == r.initial && r'.prompt == r.prompt
    && r'.maxTokens == r.maxTokens && r'.maxContext == r.maxContext && (r.status == Failed ==> r'.status == Failed)
  }

  /** The request is forgotten, perhaps after an event that tells no token. */
  lemma KeepsGone(c: Config, s: Sched, s': Sched, t: Ticket, e: Event)
    requires s'.hist.starts == s.hist.starts && s'.hist.leaked == s.hist.leaked && t in s.objs && t !in s'.objs
    requires OthersSame(s, s', t) && s'.hist.excused == s.hist.excused
    requires t in s'.hist.final && AsRemembered(s.objs[t], s'.hist.final[t])
    requires
      || LogOf(s', t) == LogOf(s, t)
      || (&& LogOf(s', t) == LogOf(s, t) + [e] && !e.TokenEvent?
          && (Worded(c, s, t) ==> HonestEnd(c, s'.hist.final[t], e, t in s.hist.excused)))
    ensures Keeps(c, s, s')
  {
    hide Wording, Later, LogOf, SameFor, WordsOk, Unservable;
    WordingAt(c, s, s', t);
    LaterGone(s, s', t);
  }

  /** What may be told to a request that is dismissed. */
  predicate Fits(c: Config, r: Request, e: Event) {
    && !e.TokenEvent? && (e.DoneEvent? ==> Exhausted(r))
    && (e == ErrorEvent(InvalidArgument) ==> Unservable(c, r))
    && (e == ErrorEvent(RequestCancelled) ==> r.status == Cancelled)
  }

  /** Released, told something and forgotten. */
  lemma ForgetForm(s: Sched, t: Ticket, e: Event)
    requires t in s.objs
    ensures var s' := Dismiss(s, t, e);
      && t !in s'.objs && OthersSame(s, s', t) && s'.hist == s.hist.(final := s'.hist.final)
      && t in s'.hist.final && s'.hist.final[t] == s.objs[t].(sched := None)
      && (LogOf(s', t) == LogOf(s, t) || LogOf(s', t) == LogOf(s, t) + [e])
  {
    hide ReleaseTable;
  }

  lemma ErasedForm(s: Sched, t: Ticket)
    requires t in s.objs
    ensures var s' := EraseRequest(ReleaseScheduling(s, t), t);
      && t !in s'.objs && OthersSame(s, s', t) && s'.hist == s.hist.(final := s'.hist.final)
      && t in s'.hist.final && s'.hist.final[t] == s.objs[t].(sched := None) && LogOf(s', t) == LogOf(s, t)
  {
    hide ReleaseTable;
  }

  lemma NoneForm(s: Sched, t: Ticket, e: Event)
    requires t !in s.objs
    ensures var s' := Dismiss(s, t, e); s'.objs == s.objs && SameBooks(s, s') && s'.hist == s.hist
    ensures var s' := EraseRequest(ReleaseScheduling(s, t), t);
      s'.objs == s.objs && SameBooks(s, s') && s'.hist == s.hist
  {
    hide ReleaseTable;
  }

  lemma KeepsDismiss(c: Config, s: Sched, t: Ticket, e: Event)
    requires t in s.objs ==> Fits(c, s.objs[t], e)
    ensures Keeps(c, s, Dismiss(s, t, e))
  {
    hide Keeps, Dismiss, OthersSame, LogOf, WordsOk;
    if t in s.objs {
      ForgetForm(s, t, e);
      KeepsGone(c, s, Dismiss(s, t, e), t, e);
    } else {
      NoneForm(s, t, e);
      KeepsSame(c, s, Dismiss(s, t, e));
    }
  }

  /** A request with all its tokens. */
  lemma KeepsFinish(c: Config, s: Sched, t: Ticket)
    requires Alive(s, t) && |s.objs[t].generated| >= s.objs[t].maxTokens
    ensures Keeps(c, s, EraseRequest(SendDone(ReleaseScheduling(s, t), t), t))
  {
    var s' := EraseRequest(SendDone(ReleaseScheduling(s, t), t), t);
    FinishForm(s, t);
    hide Keeps, EraseRequest, SendDone, ReleaseScheduling, OthersSame, LogOf, WordsOk;
    KeepsGone(c, s, s', t, DoneEvent);
  }

  lemma FinishForm(s: Sched, t: Ticket)
    requires t in s.objs
    ensures var s' := EraseRequest(SendDone(ReleaseScheduling(s, t), t), t);
      && t !in s'.objs && OthersSame(s, s', t) && s'.hist == s.hist.(final := s'.hist.final)
      && t in s'.hist.final && s'.hist.final[t] == s.objs[t].(sched := None, status := Finished)
      && (LogOf(s', t) == LogOf(s, t) || LogOf(s', t) == LogOf(s, t) + [DoneEvent])
  {
    hide ReleaseTable;
  }

  lemma KeepsTurnAway(c: Config, s: Sched, t: Ticket, table: seq<BlockId>)
    requires t in s.objs
    ensures Keeps(c, s, TurnAway(s, t, table))
  {
    TurnForm(s, t, table);
    hide Keeps, TurnAway, OthersSame, LogOf, WordsOk;
    KeepsGone(c, s, TurnAway(s, t, table), t, ErrorEvent(ServerShuttingDown));
  }

  lemma TurnForm(s: Sched, t: Ticket, table: seq<BlockId>)
    requires t in s.objs
    ensures var s' := TurnAway(s, t, table);
      && t !in s'.objs && OthersSame(s, s', t) && s'.hist == s.hist.(final := s'.hist.final)
      && t in s'.hist.final && s'.hist.final[t] == s.objs[t]
      && (LogOf(s', t) == LogOf(s, t) || LogOf(s', t) == LogOf(s, t) + [ErrorEvent(ServerShuttingDown)])
  {
    hide ReleaseTable;
  }

  /** A request goes back to waiting. */
  lemma KeepsToWait(c: Config, s: Sched, t: Ticket)
    requires t in s.objs && s.objs[t].sched.Some?
    ensures Keeps(c, s, ReleaseScheduling(Put(s, t, PrepareForWait(s.objs[t])), t))
  {
    hide ReleaseTable;
    var s' := ReleaseScheduling(Put(s, t, PrepareForWait(s.objs[t])), t);
    WaitWords(s.hist.starts, s.objs[t]);
    PutOthers(s, s', t);
    hide WordsOk, Wording, Later, Noted, SameBooks, LogOf, SameFor;
    WordingAt(c, s, s', t);
    LaterEdit(s, s', t);
  }

  lemma WaitWords(starts: map<SeqId, Start>, r: Request)
    requires r.sched.Some?
    ensures WordsOk(starts, r) ==> WordsOk(starts, PrepareForWait(r).(sched := None))
  {
    if r.generated == [] && WordsOk(starts, r) { assert r.generated[..0] == []; }
  }

  // ---------------------------------------------------------------- building work

  lemma KeepsBuildPrefill(c: Config, g: Stage, t: Ticket)
    requires Alive(g.s, t) && g.s.objs[t].sched.Some?
    ensures Keeps(c, g.s, BuildPrefill(c, g, t, g.s.objs[t], g.s.objs[t].sched.value).s)
  {
    hide Keeps, NextChunk, ChunkLength;
    var q := g.s.objs[t].sched.value;
    KeepsSame(c, g.s, g.s);
    if q.cursor + q.res.prompt < |g.s.objs[t].prompt| {
      KeepsWords(c, g.s, BuildPrefill(c, g, t, g.s.objs[t], q).s, t);
    }
  }

  lemma KeepsBuildDecode(c: Config, g: Stage, t: Ticket)
    requires Alive(g.s, t) && g.s.objs[t].sched.Some? && g.budget > 0
    ensures Keeps(c, g.s, BuildDecode(c, g, t, g.s.objs[t], g.s.objs[t].sched.value).s)
  {
    hide Keeps, TakeDecode, SendDone, Honest, Pardoned;
    KeepsSame(c, g.s, g.s);
    KeepsTakeDecode(c, g, t);
    var r := g.s.objs[t];
    if |r.prompt| + |r.generated| - r.sched.value.genInPrompt + r.sched.value.res.gen >= r.maxContext
       && r.sched.value.res.gen == 0 {
      if Worded(c, g.s, t) { ContextFull(g.s.hist.starts, r); }
      KeepsDone(c, g.s, t);
    }
  }

  /** The tokens a sequence is committed to are those submitted and those generated. */
  lemma ContextFull(starts: map<SeqId, Start>, r: Request)
    requires WordsOk(starts, r) && r.sched.Some?
    ensures |r.prompt| + |r.generated| - r.sched.value.genInPrompt == |r.initial| + |r.generated|
  {
  }

  lemma KeepsTakeDecode(c: Config, g: Stage, t: Ticket)
    requires Alive(g.s, t) && g.s.objs[t].sched.Some? && g.budget > 0
    ensures Keeps(c, g.s, TakeDecode(c, g, t, g.s.objs[t], g.s.objs[t].sched.value).s)
  {
    hide Keeps, TakeBlocks, NextDecode, MissingBlocks;
    var q := g.s.objs[t].sched.value;
    var n := MissingBlocks(c, q);
    KeepsTake(c, g.s, n);
    var k := TakeBlocks(g.s, n);
    var s' := TakeDecode(c, g, t, g.s.objs[t], q).s;
    if k.ok { KeepsWords(c, k.s, s', t); } else { KeepsSame(c, k.s, s'); }
    KeepsTrans(c, g.s, k.s, s');
  }

  lemma KeepsBuildWork(c: Config, g: Stage, t: Ticket)
    ensures Keeps(c, g.s, BuildWork(c, g, t).s)
  {
    hide BuildPrefill, BuildDecode, SendDone, Keeps;
    KeepsSame(c, g.s, g.s);
    if Alive(g.s, t) && g.s.objs[t].sched.Some? && g.budget > 0 {
      if |g.s.objs[t].generated| >= g.s.objs[t].maxTokens { KeepsDone(c, g.s, t); }
      KeepsBuildPrefill(c, g, t);
      KeepsBuildDecode(c, g, t);
    }
  }

  lemma {:induction false} KeepsBuildAll(c: Config, g: Stage, ts: seq<Ticket>)
    ensures Keeps(c, g.s, BuildAll(c, g, ts).s)
    decreases |ts|
  {
    hide BuildWork, Keeps;
    if ts == [] || g.budget == 0 {
      KeepsSame(c, g.s, g.s);
    } else {
      KeepsBuildWork(c, g, ts[0]);
      KeepsBuildAll(c, BuildWork(c, g, ts[0]), ts[1..]);
      KeepsTrans(c, g.s, BuildWork(c, g, ts[0]).s, BuildAll(c, g, ts).s);
    }
  }

  // ---------------------------------------------------------------- making room

  lemma KeepsEvictSkipped(c: Config, s: Sched)
    ensures Keeps(c, s, EvictSkipped(s).s)
  {
    hide Keeps, ReleaseScheduling, PrepareForWait;
    KeepsSame(c, s, s);
    if s.skip != [] {
      var t := s.skip[0];
      var s1 := s.(skip := s.skip[1..]);
      KeepsSame(c, s, s1);
      if Get(s1, t).sched.None? {
        KeepsSame(c, s, EvictSkipped(s).s);
      } else {
        KeepsToWait(c, s1, t);
        var s2 := ReleaseScheduling(Put(s1, t, PrepareForWait(Get(s1, t))), t);
        KeepsSame(c, s2, EvictSkipped(s).s);
        KeepsTrans(c, s, s1, s2);
        KeepsTrans(c, s, s2, EvictSkipped(s).s);
      }
    }
  }

  lemma KeepsSuspendRunning(c: Config, s: Sched)
    ensures Keeps(c, s, SuspendRunning(s).s)
  {
    hide Keeps, ReleaseScheduling, PrepareForWait, FindVictim, DropTicket;
    KeepsSame(c, s, s);
    var v := FindVictim(s);
    if v.Some? {
      KeepsToWait(c, s, v.value);
      var s1 := ReleaseScheduling(Put(s, v.value, PrepareForWait(Get(s, v.value))), v.value);
      KeepsSame(c, s1, SuspendRunning(s).s);
      KeepsTrans(c, s, s1, SuspendRunning(s).s);
    }
  }

  lemma KeepsMakeRoom(c: Config, s: Sched)
    ensures Keeps(c, s, MakeRoom(s))
  {
    hide Keeps, EvictSkipped, SuspendRunning;
    KeepsEvictSkipped(c, s);
    KeepsSuspendRunning(c, s);
  }

  // ---------------------------------------------------------------- admission

  lemma KeepsAdmitSkipped(c: Config, g: Stage, raised: bool)
    requires g.s.skip != [] ==> g.s.skip[0] in g.s.objs && Open(g.s.objs[g.s.skip[0]].status)
    ensures Keeps(c, g.s, AdmitSkipped(c, g, raised).g.s)
  {
    hide Keeps, Dismiss, BuildWork, ReleaseScheduling, SendDone, EraseRequest;
    KeepsSame(c, g.s, g.s);
    if g.budget != 0 && g.s.skip != [] && |g.s.running| < c.maxRunning {
      var t := g.s.skip[0];
      var r := g.s.objs[t];
      var s := g.s.(skip := g.s.skip[1..]);
      var s1 := s.(accepting := s.accepting && !raised);
      KeepsSame(c, g.s, s);
      KeepsSame(c, g.s, s1);
      KeepsSame(c, g.s, s.(waiting := [t] + s.waiting));
      if r.status == Cancelled {
        KeepsDismiss(c, s, t, ErrorEvent(RequestCancelled));
        KeepsTrans(c, g.s, s, Dismiss(s, t, ErrorEvent(RequestCancelled)));
      } else if r.maxTokens <= 0 {
        KeepsDismiss(c, s, t, DoneEvent);
        KeepsTrans(c, g.s, s, Dismiss(s, t, DoneEvent));
      } else if r.sched.Some? {
        KeepsResume(c, g, s1, t);
        KeepsTrans(c, g.s, s1, AdmitSkipped(c, g, raised).g.s);
      }
    }
  }

  lemma SkipOpen(c: Config, s: Sched, out: seq<WorkItem>)
    requires Steady(c, s, out) && s.skip != []
    ensures s.skip[0] in s.objs && Open(s.objs[s.skip[0]].status)
  {
    hide Queued, Named, Distinct, Accounted, Sound;
    assert s.skip[0] in s.skip;
  }

  /** A skipped request that may go on, unless it is over or shutdown was raised. */
  lemma KeepsResume(c: Config, g: Stage, s: Sched, t: Ticket)
    requires Alive(s, t) && s.objs[t].sched.Some?
    ensures Keeps(c, s, Dismiss(s, t, ErrorEvent(ServerShuttingDown)))
    ensures |s.objs[t].generated| >= s.objs[t].maxTokens ==>
      Keeps(c, s, EraseRequest(SendDone(ReleaseScheduling(s, t), t), t))
    ensures
      var s2 := s.(bySeq := s.bySeq[s.objs[t].sched.value.seqId := t], running := s.running + [t]);
      Keeps(c, s, BuildWork(c, g.(s := s2), t).s)
  {
    hide Keeps, Dismiss, BuildWork, ReleaseScheduling, SendDone, EraseRequest;
    KeepsDismiss(c, s, t, ErrorEvent(ServerShuttingDown));
    if |s.objs[t].generated| >= s.objs[t].maxTokens { KeepsFinish(c, s, t); }
    var s2 := s.(bySeq := s.bySeq[s.objs[t].sched.value.seqId := t], running := s.running + [t]);
    KeepsSame(c, s, s2);
    KeepsBuildWork(c, g.(s := s2), t);
    KeepsTrans(c, s, s2, BuildWork(c, g.(s := s2), t).s);
  }

  /** Every sequence was issued. */
  ghost predicate SeqsIssued(s: Sched) {
    forall t :: t in s.objs && s.objs[t].sched.Some? ==> s.objs[t].sched.value.seqId < s.nextSeq
  }

  lemma CoreIssued(c: Config, s: Sched, out: seq<WorkItem>, hand: set<Ticket>, held: multiset<BlockId>)
    requires Core(c, s, out, hand, held)
    ensures SeqsIssued(s)
  {
    hide Accounted, Sound;
    forall t | t in s.objs && s.objs[t].sched.Some? ensures s.objs[t].sched.value.seqId < s.nextSeq {
      assert HasSeq(s, t, s.objs[t].sched.value.seqId);
    }
  }

  lemma KeepsEnlist(c: Config, s: Sched, t: Ticket, hits: nat, parent: Hash, table: seq<BlockId>)
    requires t in s.objs && s.objs[t].sched.None? && s.objs[t].maxTokens > 0 && SeqsIssued(s)
    ensures Keeps(c, s, Enlist(c, s, t, s.objs[t], hits, parent, table))
  {
    var s' := Enlist(c, s, t, s.objs[t], hits, parent, table);
    EnlistWords(c, s, t, hits, parent, table);
    hide Enlist, PromptFor, Later, Noted, Honest;
    PutOthers(s, s', t);
    LaterEdit(s, s', t);
    hide Alike, LogOf;
    forall u | Worded(c, s, u) ensures Worded(c, s', u) {
      assert u == t || SameFor(s, s', u);
      EnlistHonest(c, s, s', t, u);
      assert s.objs[t].generated[..|s.objs[t].generated|] == s.objs[t].generated;
    }
  }

  lemma EnlistHonest(c: Config, s: Sched, s': Sched, t: Ticket, u: Ticket)
    requires t in s.objs && t in s'.objs && s'.objs == s.objs[t := s'.objs[t]] && SameBooks(s, s')
    requires s'.objs[t] == s.objs[t].(sched := s'.objs[t].sched)
    ensures Honest(c, s, u) ==> Honest(c, s', u)
  {
  }

  lemma EnlistWords(c: Config, s: Sched, t: Ticket, hits: nat, parent: Hash, table: seq<BlockId>)
    requires t in s.objs
    ensures var r := s.objs[t]; var s' := Enlist(c, s, t, r, hits, parent, table);
      && s'.hist.leaked == s.hist.leaked && SameBooks(s, s')
      && s'.objs == s.objs[t := s'.objs[t]] && s'.objs[t].sched.Some? && s'.objs[t].sched.value.seqId == s.nextSeq
      && s'.objs[t].sched.value.res == NO_RESERVATION && s'.objs[t].sched.value.genInPrompt == Sub(|r.generated|, 1)
      && s'.objs[t] == r.(sched := s'.objs[t].sched)
      && s.nextSeq in s'.hist.starts && s'.hist.starts[s.nextSeq].before == |r.generated|
      && (forall q :: q != s.nextSeq ==> (q in s'.hist.starts <==> q in s.hist.starts))
      && (forall q :: q != s.nextSeq && q in s.hist.starts ==> s'.hist.starts[q] == s.hist.starts[q])
  {
    hide Soiled, PrefixOf, FirstPhase;
  }

  lemma KeepsGranted(c: Config, g: Stage, s: Sched, t: Ticket, hits: nat, parent: Hash, table: seq<BlockId>)
    requires t in s.objs && s.objs[t].sched.None? && s.objs[t].maxTokens > 0 && SeqsIssued(s)
    ensures Keeps(c, s, AdmitGranted(c, g, s, t, s.objs[t], hits, parent, table).g.s)
  {
    hide Keeps, TurnAway, Enlist, BuildWork, SeqsIssued;
    KeepsTurnAway(c, s, t, table);
    KeepsEnlist(c, s, t, hits, parent, table);
    var s1 := Enlist(c, s, t, s.objs[t], hits, parent, table);
    KeepsBuildWork(c, g.(s := s1), t);
    KeepsTrans(c, s, s1, BuildWork(c, g.(s := s1), t).s);
  }

  lemma KeepsRebuff(c: Config, s: Sched, t: Ticket, table: seq<BlockId>)
    ensures Keeps(c, s, Rebuff(s, t, table))
  {
    hide Keeps, MakeRoom, ReleaseTable;
    var s1 := s.(blocks := ReleaseTable(s.blocks, table));
    KeepsSame(c, s, s1);
    KeepsMakeRoom(c, s1);
    KeepsTrans(c, s, s1, MakeRoom(s1));
    KeepsSame(c, MakeRoom(s1), Rebuff(s, t, table));
    KeepsTrans(c, s, MakeRoom(s1), Rebuff(s, t, table));
  }

  lemma KeepsLooked(c: Config, s: Sched, prompt: seq<Token>)
    ensures Keeps(c, s, Looked(c, s, prompt)) && Looked(c, s, prompt).objs == s.objs
        && Looked(c, s, prompt).nextSeq == s.nextSeq
  {
    hide Keeps, LookupPrefix, ChainHashes, BlockPrefixes;
    KeepsSame(c, s, Looked(c, s, prompt));
  }

  lemma TakeSeq(s: Sched, n: nat)
    ensures TakeBlocks(s, n).s.nextSeq == s.nextSeq
  {
    hide AllocateKv, Leak;
  }

  lemma KeepsAdmitPrompt(c: Config, g: Stage, t: Ticket, raised: bool)
    requires t in g.s.objs && g.s.objs[t].sched.None? && g.s.objs[t].maxTokens > 0 && SeqsIssued(g.s)
    ensures Keeps(c, g.s, AdmitPrompt(c, g, t, g.s.objs[t], raised).g.s)
  {
    hide Keeps, Looked, HitTable, ParentOf, TakeBlocks, Rebuff, AdmitGranted, Sub, BlocksFor;
    var r := g.s.objs[t];
    var hit := HitTable(c, g.s, r.prompt);
    var s1 := Looked(c, g.s, r.prompt);
    KeepsLooked(c, g.s, r.prompt);
    var n := Sub(BlocksFor(c, |r.prompt|), |hit|);
    KeepsTake(c, s1, n);
    TakeSeq(s1, n);
    var k := TakeBlocks(s1, n);
    KeepsTrans(c, g.s, s1, k.s);
    KeepsRebuff(c, k.s, t, hit);
    KeepsTrans(c, g.s, k.s, Rebuff(k.s, t, hit));
    var s2 := k.s.(accepting := k.s.accepting && !raised);
    KeepsSame(c, k.s, s2);
    KeepsTrans(c, g.s, k.s, s2);
    KeepsGranted(c, g, s2, t, |hit|, ParentOf(c, r.prompt, |hit|), hit + k.table);
    KeepsTrans(c, g.s, s2, AdmitGranted(c, g, s2, t, r, |hit|, ParentOf(c, r.prompt, |hit|), hit + k.table).g.s);
  }

  lemma KeepsAdmitWaiting(c: Config, g: Stage, base: seq<WorkItem>, raised: bool)
    requires Steady(c, g.s, base + g.items)
    ensures Keeps(c, g.s, AdmitWaiting(c, g, raised).g.s)
  {
    hide Core, Keeps, Dismiss, AdmitPrompt, Cap, SeqsIssued;
    KeepsSame(c, g.s, g.s);
    if g.s.waiting != [] {
      var t := g.s.waiting[0];
      CorePopWaiting(c, g.s, base + g.items, {}, multiset{});
      var s := g.s.(waiting := g.s.waiting[1..]);
      CoreIssued(c, s, base + g.items, {} + {t}, multiset{});
      KeepsSame(c, g.s, s);
      var r := s.objs[t];
      var e := if r.status == Cancelled then ErrorEvent(RequestCancelled)
               else if r.maxTokens <= 0 then DoneEvent else ErrorEvent(InvalidArgument);
      if e == ErrorEvent(InvalidArgument) ==> Unservable(c, r) {
        KeepsDismiss(c, s, t, e);
        KeepsTrans(c, g.s, s, Dismiss(s, t, e));
      }
      if s.objs[t].maxTokens > 0 {
        KeepsAdmitPrompt(c, g.(s := s), t, raised);
        KeepsTrans(c, g.s, s, AdmitPrompt(c, g.(s := s), t, s.objs[t], raised).g.s);
      }
    }
  }

  lemma {:induction false} KeepsAdmitLoop(c: Config, g0: Stage, base: seq<WorkItem>, raises: seq<Raise>)
    requires Steady(c, g0.s, base + g0.items)
    ensures Keeps(c, g0.s, AdmitLoop(c, g0, raises).s)
    decreases |g0.s.skip| + |g0.s.waiting|
  {
    hide Core, AdmitSkipped, AdmitWaiting, Keeps;
    var raise := if raises == [] then Raise(false, false) else raises[0];
    var later := if raises == [] then [] else raises[1..];
    var g := g0.(s := g0.s.(accepting := g0.s.accepting && !raise.head));
    CoreQuiet(c, g0.s, g.s, base + g.items, {}, multiset{});
    KeepsSame(c, g0.s, g.s);
    if !(!g.s.accepting || g.s.paused || g.budget == 0 || |g.s.running| >= c.maxRunning
         || (g.s.skip == [] && g.s.waiting == [])) {
      var a := if g.s.skip != [] then AdmitSkipped(c, g, raise.check) else Admission(g, false);
      KeepsSame(c, g.s, g.s);
      if g.s.skip != [] {
        AdmitSkippedShrinks(c, g, raise.check);
        CoreAdmitSkipped(c, g, base, raise.check);
        SkipOpen(c, g.s, base + g.items);
        KeepsAdmitSkipped(c, g, raise.check);
      }
      KeepsTrans(c, g0.s, g.s, a.g.s);
      if a.again {
        KeepsAdmitLoop(c, a.g, base, later);
        KeepsTrans(c, g0.s, a.g.s, AdmitLoop(c, a.g, later).s);
      } else if a.g.s.waiting != [] {
        AdmitWaitingShrinks(c, a.g, raise.check);
        SteadyAdmitWaiting(c, a.g, base, raise.check);
        KeepsAdmitWaiting(c, a.g, base, raise.check);
        var b := AdmitWaiting(c, a.g, raise.check);
        KeepsTrans(c, g0.s, a.g.s, b.g.s);
        if b.again {
          KeepsAdmitLoop(c, b.g, base, later);
          KeepsTrans(c, g0.s, b.g.s, AdmitLoop(c, b.g, later).s);
        }
      }
    }
  }

  lemma KeepsScheduleStep(c: Config, s: Sched, base: seq<WorkItem>, raises: seq<Raise>)
    requires Steady(c, s, base)
    ensures Keeps(c, s, ScheduleStep(c, s, raises).s)
  {
    hide Core, MakeRoom, BuildAll, AdmitLoop, Keeps;
    var s1 := s.(nextBatch := s.nextBatch + 1);
    var s0 := s1.(shortage := false);
    CoreQuiet(c, s, s1, base, {}, multiset{});
    KeepsSame(c, s, s1);
    KeepsSame(c, s, s0);
    KeepsMakeRoom(c, s0);
    KeepsTrans(c, s, s0, MakeRoom(s0));
    if s1.shortage {
      CoreQuiet(c, s1, s0, base, {}, multiset{});
      CoreMakeRoom(c, s0, base, {}, multiset{});
    }
    var s2 := if s1.shortage then MakeRoom(s0) else s1;
    assert base + [] == base;
    var g0 := Stage(s2, [], c.tokenBudget);
    SteadyBuildAll(c, g0, base, s2.running);
    KeepsBuildAll(c, g0, s2.running);
    var g1 := BuildAll(c, g0, s2.running);
    KeepsTrans(c, s, s2, g1.s);
    KeepsAdmitLoop(c, g1, base, raises);
    KeepsTrans(c, s, g1.s, AdmitLoop(c, g1, raises).s);
  }

  // ---------------------------------------------------------------- retirement

  lemma {:induction false} PublishRecord(c: Config, s: Sched, q: Sequence, i: nat)
    ensures var p := PublishPending(c, s, q, i);
      && p.s.objs == s.objs && p.s.hist.starts == s.hist.starts && p.s.hist.leaked == s.hist.leaked
      && SameBooks(s, p.s) && p.q.seqId == q.seqId && p.q.genInPrompt == q.genInPrompt
    decreases |q.pending|
  {
    hide Chain, Publish, Reliable;
    if 0 < c.blockSize <= |q.pending| && i < |q.table| {
      PublishRecord(c, PublishStep(c, s, q, i).s, PublishStep(c, s, q, i).q, i + 1);
    }
  }

  lemma HashRecord(c: Config, s: Sched, r: Request, q: Sequence, x: WorkItem)
    ensures var p := HashWritten(c, s, r, q, x);
      && p.s.objs == s.objs && p.s.hist.starts == s.hist.starts && p.s.hist.leaked == s.hist.leaked
      && SameBooks(s, p.s) && p.q.seqId == q.seqId && p.q.genInPrompt == q.genInPrompt
  {
    hide PublishPending, WrittenTokens;
    if KvCount(x) > 0 && c.blockSize > 0 {
      PublishRecord(c, s, q.(pending := q.pending + WrittenTokens(r, x)), Sub(x.context, |q.pending|) / c.blockSize);
    }
  }

  /** A result that ends a sequence comes with a token. */
  predicate EosSampled(result: ItemResult) {
    !result.stale && result.eos ==> result.sampled != []
  }

  lemma KeepsDeliver(c: Config, s: Sched, t: Ticket, q: Sequence, result: ItemResult)
    requires Alive(s, t) && s.objs[t].sched.Some? && EosSampled(result) && !result.stale
    requires q.seqId == s.objs[t].sched.value.seqId && q.genInPrompt == s.objs[t].sched.value.genInPrompt
    ensures Keeps(c, s, Deliver(s, t, s.objs[t], q, result))
  {
    var s' := Deliver(s, t, s.objs[t], q, result);
    DeliverForm(s, t, q, result);
    EditOthers(s, s', t);
    hide Wording, Later, Deliver, LogOf, SameFor, WordsOk, EditedAt;
    DeliverWorded(c, s, s', t, result);
    WordingAt(c, s, s', t);
    if result.sampled != [] {
      LaterToken(s, s', t, result.sampled[0], s'.objs[t].status == Finished);
    } else {
      LaterEdit(s, s', t);
    }
  }

  lemma DeliverWorded(c: Config, s: Sched, s': Sched, t: Ticket, result: ItemResult)
    requires Alive(s, t) && t in s'.objs && s'.hist == s.hist && s.objs[t].sched.Some? && s'.objs[t].sched.Some?
    requires s'.objs[t].sched.value.seqId == s.objs[t].sched.value.seqId
    requires s'.objs[t].sched.value.genInPrompt == s.objs[t].sched.value.genInPrompt
    requires Answered(s.objs[t], LogOf(s, t), s'.objs[t], LogOf(s', t), result) && EosSampled(result) && !result.stale
    ensures Worded(c, s, t) ==> Worded(c, s', t)
  {
    hide LogOf, WordsOk;
    if s'.objs[t].status == Active { GrownWords(s.hist.starts, s.objs[t], s'.objs[t]); }
  }

  /** A request after a result: the sampled token is the last generated, and told if the client is there. */
  predicate Answered(r: Request, log: seq<Event>, r': Request, log': seq<Event>, result: ItemResult) {
    && r'.initial == r.initial && r'.prompt == r.prompt && r'.open == r.open
    && r'.maxTokens == r.maxTokens && r'.maxContext == r.maxContext
    && (r'.status != Finished ==> r'.status == if result.sampled != [] && !r.open then Cancelled else Active)
    && (r'.status == Finished <==> result.eos || |r'.generated| >= r.maxTokens)
    && if result.sampled == [] then
         r'.generated == r.generated && log' == if r.open && r'.status == Finished then log + [DoneEvent] else log
       else
         && r'.generated == r.generated + [result.sampled[0]]
         && log' == if r.open then log + [TokenEvent(result.sampled[0], r'.status == Finished)] else log
  }

  lemma DeliverForm(s: Sched, t: Ticket, q: Sequence, result: ItemResult)
    requires Alive(s, t)
    ensures var r := s.objs[t]; var s' := Deliver(s, t, r, q, result);
      && EditedAt(s, s', t) && s'.objs[t].sched.Some? && s'.objs[t].sched.value.seqId == q.seqId
      && s'.objs[t].sched.value.genInPrompt == q.genInPrompt
      && Answered(r, LogOf(s, t), s'.objs[t], LogOf(s', t), result)
  {
    hide LogOf, EditedAt, SendToken, SendDone;
    var r := s.objs[t];
    var sampled := result.sampled != [];
    var generated := if sampled then r.generated + [result.sampled[0]] else r.generated;
    var finished := result.eos || |generated| >= r.maxTokens;
    var r1 := r.(generated := generated, status := if finished then Finished else r.status,
                 sched := Some(q.(phase := if sampled && q.phase == Bootstrap then Decode else q.phase)));
    var s1 := Put(s, t, r1);
    PutEdits(s, t, r1);
    hide Put;
    assert Last(generated, 0) == if sampled then result.sampled[0] else Last(r.generated, 0);
    if sampled {
      TokenForm(s1, t);
      EditTwice(s, s1, SendToken(s1, t), t);
    } else if finished {
      DoneForm(s1, t);
      EditTwice(s, s1, SendDone(s1, t), t);
    }
  }

  lemma TokenForm(s: Sched, t: Ticket)
    requires t in s.objs
    ensures var r := s.objs[t]; var s' := SendToken(s, t);
      && EditedAt(s, s', t) && s'.objs[t] == r.(status := s'.objs[t].status)
      && s'.objs[t].status == (if !r.open && r.status == Active then Cancelled else r.status)
      && LogOf(s', t) == LogOf(s, t) + if r.open then [TokenEvent(Last(r.generated, 0), r.status == Finished)] else []
  {
  }

  lemma GrownWords(starts: map<SeqId, Start>, r: Request, r': Request)
    requires r.sched.Some? && r'.sched.Some? && r'.sched.value.seqId == r.sched.value.seqId
    requires r'.initial == r.initial && r'.prompt == r.prompt && r.generated <= r'.generated
    requires |r'.generated| < r'.maxTokens && r'.sched.value.genInPrompt == r.sched.value.genInPrompt
    ensures WordsOk(starts, r) ==> WordsOk(starts, r')
  {
    if WordsOk(starts, r) {
      var n := starts[r.sched.value.seqId].before;
      assert r'.generated[..n] == r.generated[..n];
    }
  }

  lemma KeepsRetireActive(c: Config, s: Sched, t: Ticket, x: WorkItem, result: ItemResult)
    requires Alive(s, t) && EosSampled(result) && !result.stale
    ensures Keeps(c, s, RetireActive(c, s, t, x, result))
  {
    hide Keeps, HashWritten, Deliver, WordsOk;
    KeepsSame(c, s, s);
    var r := s.objs[t];
    if r.sched.Some? {
      var q := Advance(r, r.sched.value, x);
      assert q.seqId == r.sched.value.seqId;
      if x.PrefillChunk? && q.cursor < |r.prompt| {
        KeepsWords(c, s, Put(s, t, r.(sched := Some(q))), t);
      } else {
        var p := HashWritten(c, s, r, q, x);
        HashRecord(c, s, r, q, x);
        KeepsSame(c, s, p.s);
        KeepsDeliver(c, p.s, t, p.q, result);
        KeepsTrans(c, s, p.s, Deliver(p.s, t, r, p.q, result));
      }
    }
  }

  lemma KeepsReservation(c: Config, s: Sched, t: Ticket, x: WorkItem)
    requires t in s.objs
    ensures Keeps(c, s, Put(s, t, RetireReservation(s.objs[t], x)))
  {
    hide Keeps;
    KeepsWords(c, s, Put(s, t, RetireReservation(s.objs[t], x)), t);
  }

  lemma KeepsRetireWork(c: Config, s: Sched, x: WorkItem, result: ItemResult)
    requires EosSampled(result)
    ensures Keeps(c, s, RetireWork(c, s, x, result))
  {
    hide Keeps, RetireReservation, RetireActive;
    KeepsSame(c, s, s);
    if result.seqId in s.bySeq && s.bySeq[result.seqId] in s.objs {
      var t := s.bySeq[result.seqId];
      var s1 := Put(s, t, RetireReservation(s.objs[t], x));
      KeepsReservation(c, s, t, x);
      if Alive(s1, t) && !result.stale {
        KeepsRetireActive(c, s1, t, x, result);
        KeepsTrans(c, s, s1, RetireActive(c, s1, t, x, result));
      }
    }
  }

  lemma {:induction false} KeepsRetireAll(c: Config, s: Sched, items: seq<WorkItem>, results: seq<ItemResult>)
    requires forall r :: r in results ==> EosSampled(r)
    ensures Keeps(c, s, RetireAll(c, s, items, results))
    decreases |results|
  {
    hide Keeps, RetireWork;
    KeepsSame(c, s, s);
    if results != [] && items != [] {
      var s1 := RetireWork(c, s, items[0], results[0]);
      KeepsRetireWork(c, s, items[0], results[0]);
      KeepsRetireAll(c, s1, items[1..], results[1..]);
      KeepsTrans(c, s, s1, RetireAll(c, s1, items[1..], results[1..]));
    }
  }

  lemma KeepsFailItem(c: Config, s: Sched, x: WorkItem, e: ErrorCode)
    requires x.seqId in s.bySeq ==> s.bySeq[x.seqId] in s.objs
    ensures Keeps(c, s, FailItem(s, x, e)) && FailItem(s, x, e).bySeq == s.bySeq
    ensures forall t :: t in s.objs ==> t in FailItem(s, x, e).objs
  {
    hide Keeps, RetireReservation;
    KeepsSame(c, s, s);
    if x.seqId in s.bySeq {
      var t := s.bySeq[x.seqId];
      var s1 := Put(s, t, RetireReservation(s.objs[t], x));
      KeepsReservation(c, s, t, x);
      KeepsError(c, s1, t, e);
      KeepsTrans(c, s, s1, SendError(s1, t, e));
    }
  }

  lemma {:induction false} KeepsFailBatch(c: Config, s: Sched, items: seq<WorkItem>, e: ErrorCode)
    requires forall q :: q in s.bySeq ==> s.bySeq[q] in s.objs
    ensures Keeps(c, s, FailBatch(s, items, e))
    decreases |items|
  {
    hide Keeps, FailItem;
    KeepsSame(c, s, s);
    if items != [] {
      var s1 := FailItem(s, items[0], e);
      KeepsFailItem(c, s, items[0], e);
      KeepsFailBatch(c, s1, items[1..], e);
      KeepsTrans(c, s, s1, FailBatch(s1, items[1..], e));
    }
  }

  // ---------------------------------------------------------------- cleanup

  lemma KeepsReap(c: Config, s: Sched, t: Ticket)
    ensures Keeps(c, s, Reap(s, t))
  {
    hide Keeps, ReleaseTable, DropTicket;
    var s1 := EraseRequest(ReleaseScheduling(s, t), t);
    KeepsForget(c, s, t);
    KeepsSame(c, s1, Reap(s, t));
    KeepsTrans(c, s, s1, Reap(s, t));
  }

  lemma {:induction false} KeepsReapAll(c: Config, s: Sched, ts: seq<Ticket>)
    ensures Keeps(c, s, ReapAll(s, ts))
    decreases |ts|
  {
    hide Keeps, Reap, Spent;
    KeepsSame(c, s, s);
    if ts != [] {
      KeepsReap(c, s, ts[0]);
      var s1 := if Spent(s, ts[0]) then Reap(s, ts[0]) else s;
      KeepsReapAll(c, s1, ts[1..]);
      KeepsTrans(c, s, s1, ReapAll(s1, ts[1..]));
    }
  }

  lemma KeepsForget(c: Config, s: Sched, t: Ticket)
    ensures Keeps(c, s, EraseRequest(ReleaseScheduling(s, t), t))
  {
    hide Keeps, ReleaseTable;
    if t in s.objs {
      ErasedForm(s, t);
      hide EraseRequest, ReleaseScheduling, Dismiss, OthersSame, LogOf;
      KeepsGone(c, s, EraseRequest(ReleaseScheduling(s, t), t), t, DoneEvent);
    } else {
      NoneForm(s, t, DoneEvent);
      KeepsSame(c, s, EraseRequest(ReleaseScheduling(s, t), t));
    }
  }

  lemma {:induction false} KeepsSweep(c: Config, s: Sched, ts: seq<Ticket>)
    ensures Keeps(c, s, Sweep(s, ts).s)
    decreases |ts|
  {
    hide Keeps, EraseRequest, ReleaseScheduling;
    KeepsSame(c, s, s);
    if ts != [] {
      var s1 := EraseRequest(ReleaseScheduling(s, ts[0]), ts[0]);
      KeepsForget(c, s, ts[0]);
      KeepsSweep(c, s, ts[1..]);
      KeepsSweep(c, s1, ts[1..]);
      KeepsTrans(c, s, s1, Sweep(s1, ts[1..]).s);
    }
  }

  lemma KeepsCleanup(c: Config, s: Sched)
    ensures Keeps(c, s, CleanupTerminal(s))
  {
    hide Keeps, ReapAll, Sweep;
    var s1 := ReapAll(s, s.running);
    KeepsReapAll(c, s, s.running);
    KeepsSame(c, s1, s1.(skip := []));
    KeepsTrans(c, s, s1, s1.(skip := []));
    KeepsSweep(c, s1.(skip := []), s1.skip);
    var w := Sweep(s1.(skip := []), s1.skip);
    KeepsTrans(c, s, s1.(skip := []), w.s);
    var s2 := w.s.(skip := w.kept);
    KeepsSame(c, w.s, s2.(waiting := []));
    KeepsTrans(c, s, w.s, s2.(waiting := []));
    KeepsSweep(c, s2.(waiting := []), s2.waiting);
    var v := Sweep(s2.(waiting := []), s2.waiting);
    KeepsTrans(c, s, s2.(waiting := []), v.s);
    KeepsSame(c, v.s, CleanupTerminal(s));
    KeepsTrans(c, s, v.s, CleanupTerminal(s));
  }

  lemma KeepsPreempt(c: Config, s: Sched)
    ensures Keeps(c, s, Preempt(s))
  {
    hide Keeps, FindMovable, DropTicket;
    KeepsSame(c, s, Preempt(s));
  }

  lemma {:induction false} KeepsFailWaiting(c: Config, s: Sched, e: ErrorCode)
    requires e != InvalidArgument && e != RequestCancelled
    ensures Keeps(c, s, FailWaiting(s, e))
    decreases |s.waiting|
  {
    hide Keeps, Dismiss;
    KeepsSame(c, s, s);
    if s.waiting != [] {
      var s1 := s.(waiting := s.waiting[1..]);
      var s2 := Dismiss(s1, s.waiting[0], ErrorEvent(e));
      DismissQueues(s1, s.waiting[0], ErrorEvent(e));
      KeepsSame(c, s, s1);
      KeepsDismiss(c, s1, s.waiting[0], ErrorEvent(e));
      KeepsTrans(c, s, s1, s2);
      KeepsFailWaiting(c, s2, e);
      KeepsTrans(c, s, s2, FailWaiting(s2, e));
    }
  }

  lemma {:induction false} KeepsFailSkipped(c: Config, s: Sched, e: ErrorCode)
    requires e != InvalidArgument && e != RequestCancelled
    ensures Keeps(c, s, FailSkipped(s, e))
    decreases |s.skip|
  {
    hide Keeps, Dismiss;
    KeepsSame(c, s, s);
    if s.skip != [] {
      var s1 := s.(skip := s.skip[1..]);
      var s2 := Dismiss(s1, s.skip[0], ErrorEvent(e));
      DismissQueues(s1, s.skip[0], ErrorEvent(e));
      KeepsSame(c, s, s1);
      KeepsDismiss(c, s1, s.skip[0], ErrorEvent(e));
      KeepsTrans(c, s, s1, s2);
      KeepsFailSkipped(c, s2, e);
      KeepsTrans(c, s, s2, FailSkipped(s2, e));
    }
  }

  lemma KeepsFailAllWaiting(c: Config, s: Sched, e: ErrorCode)
    requires e != InvalidArgument && e != RequestCancelled
    ensures Keeps(c, s, FailAllWaiting(s, e))
  {
    hide Keeps, FailWaiting, FailSkipped;
    KeepsFailWaiting(c, s, e);
    KeepsFailSkipped(c, FailWaiting(s, e), e);
    KeepsTrans(c, s, FailWaiting(s, e), FailAllWaiting(s, e));
  }

  lemma KeepsTerminate(c: Config, s: Sched, t: Ticket, e: ErrorCode)
    ensures Keeps(c, s, Terminate(s, t, e))
  {
    hide Keeps, ReleaseScheduling, DropTicket, SendError, EraseRequest;
    KeepsSame(c, s, s);
    if Get(s, t).sched.Some? {
      KeepsError(c, s, t, e);
      var s1 := if Get(s, t).status == Active then SendError(s, t, e) else s;
      KeepsReleased(c, s1, t);
      KeepsTrans(c, s, s1, Terminate(s, t, e));
    }
  }

  lemma KeepsReleased(c: Config, s: Sched, t: Ticket)
    ensures var s1 := ReleaseScheduling(s, t); Keeps(c, s, EraseRequest(s1.(running := DropTicket(s1.running, t)), t))
  {
    hide Keeps, ReleaseTable, DropTicket;
    var s1 := ReleaseScheduling(s, t);
    var s2 := EraseRequest(s1, t);
    KeepsForget(c, s, t);
    KeepsSame(c, s2, EraseRequest(s1.(running := DropTicket(s1.running, t)), t));
    KeepsTrans(c, s, s2, EraseRequest(s1.(running := DropTicket(s1.running, t)), t));
  }

  lemma {:induction false} KeepsTerminateAll(c: Config, s: Sched, ts: seq<Ticket>, e: ErrorCode)
    ensures Keeps(c, s, TerminateAll(s, ts, e))
    decreases |ts|
  {
    hide Keeps, Terminate;
    KeepsSame(c, s, s);
    if ts != [] {
      KeepsTerminate(c, s, ts[0], e);
      KeepsTerminateAll(c, Terminate(s, ts[0], e), ts[1..], e);
      KeepsTrans(c, s, Terminate(s, ts[0], e), TerminateAll(s, ts, e));
    }
  }

  // ---------------------------------------------------------------- clients

  lemma KeepsSubmit(c: Config, s: Sched, id: string, prompt: seq<Token>, maxTokens: int, maxContext: int, open: bool)
    requires Fresh(s)
    ensures Keeps(c, s, Submit(c, s, id, prompt, maxTokens, maxContext, open))
  {
    hide Keeps, Refuse, Accept, Fresh;
    KeepsRefuse(c, s, open, ServerShuttingDown);
    KeepsRefuse(c, s, open, InvalidArgument);
    KeepsRefuse(c, s, open, RequestQueueFull);
    KeepsAccept(c, s, Request(id, prompt, prompt, Active, [], maxTokens,
                           if maxContext <= 0 then c.defaultContext else maxContext, open, None));
  }

  lemma KeepsRefuse(c: Config, s: Sched, open: bool, e: ErrorCode)
    requires Fresh(s)
    ensures Keeps(c, s, Refuse(s, open, e))
  {
    LaterRefuse(s, open, e);
    hide Later, WordsOk, Wording;
    var s' := Refuse(s, open, e);
    forall u | u != s.nextTicket ensures SameFor(s, s', u) {}
    WordingAt(c, s, s', s.nextTicket);
  }

  lemma KeepsAccept(c: Config, s: Sched, r: Request)
    requires r.sched.None? && r.prompt == r.initial && r.generated == [] && r.status == Active && Fresh(s)
    ensures Keeps(c, s, Accept(s, r))
  {
    LaterAccept(s, r);
    hide Later, Wording;
    var s' := Accept(s, r);
    forall u | u != s.nextTicket ensures SameFor(s, s', u) {}
    WordingAt(c, s, s', s.nextTicket);
  }

  /** A client leaves or calls its request off. */
  lemma KeepsExcused(c: Config, s: Sched, s': Sched, t: Ticket)
    requires s'.hist == s.hist.(excused := s'.hist.excused) && OthersSame(s, s', t) && LogOf(s', t) == LogOf(s, t)
    requires t in s.objs <==> t in s'.objs
    requires t in s.objs ==>
      && t in s'.hist.excused
      && s'.objs[t] == s.objs[t].(open := s'.objs[t].open, status := s'.objs[t].status)
      && (s'.objs[t].open ==> s.objs[t].open)
      && (s'.objs[t].status != s.objs[t].status ==> s.objs[t].status == Active)
    ensures Keeps(c, s, s')
  {
    hide Wording, Later, Voice, SameFor, LogOf;
    WordingAt(c, s, s', t);
    if t in s.objs { LaterExcused(s, s', t); } else { LaterGoneAlready(s, s', t); }
  }

  lemma LaterGoneAlready(s: Sched, s': Sched, t: Ticket)
    requires s'.hist == s.hist.(excused := s'.hist.excused) && OthersSame(s, s', t) && LogOf(s', t) == LogOf(s, t)
    requires t !in s.objs && t !in s'.objs
    ensures Later(s, s')
  {
    hide Later, LogOf, OthersSame;
    LaterPardoned(s, s', t);
  }

  lemma CancelOthers(s: Sched, id: string)
    requires id in s.registry
    ensures OthersSame(s, Cancel(s, id), s.registry[id])
    ensures LogOf(Cancel(s, id), s.registry[id]) == LogOf(s, s.registry[id])
  {
  }

  lemma KeepsCancel(c: Config, s: Sched, id: string)
    ensures Keeps(c, s, Cancel(s, id))
  {
    hide Keeps, OthersSame, LogOf;
    if id in s.registry {
      CancelOthers(s, id);
      KeepsExcused(c, s, Cancel(s, id), s.registry[id]);
    } else {
      KeepsSame(c, s, Cancel(s, id));
    }
  }

  lemma HangupOthers(s: Sched, t: Ticket)
    ensures OthersSame(s, Hangup(s, t), t) && LogOf(Hangup(s, t), t) == LogOf(s, t)
  {
  }

  lemma KeepsHangup(c: Config, s: Sched, t: Ticket)
    requires Fresh(s)
    ensures Keeps(c, s, Hangup(s, t))
  {
    hide Keeps, OthersSame, LogOf;
    HangupOthers(s, t);
    KeepsExcused(c, s, Hangup(s, t), t);
  }

  // ---------------------------------------------------------------- the engine

  lemma IndexKnown(c: Config, s: Sched, out: seq<WorkItem>)
    requires Steady(c, s, out)
    ensures forall q :: q in s.bySeq ==> s.bySeq[q] in s.objs
  {
    hide Accounted, Sound;
    forall q | q in s.bySeq ensures s.bySeq[q] in s.objs {
      assert HasSeq(s, s.bySeq[q], q);
    }
  }

  /** The answers of a batch. */
  ghost predicate Sampled(f: Flight) {
    f.outcome.Some? && f.outcome.value.Done? ==> forall r :: r in f.outcome.value.results ==> EosSampled(r)
  }

  lemma KeepsRetired(c: Config, s: Sched, f: Flight, out: seq<WorkItem>)
    requires Steady(c, s, out) && Sampled(f)
    ensures Keeps(c, s, Retired(c, s, f))
  {
    hide Core, Keeps, RetireAll, FailBatch;
    KeepsSame(c, s, s);
    IndexKnown(c, s, out);
    if f.outcome.Some? {
      match f.outcome.value
      case Done(results) => KeepsRetireAll(c, s, f.items, results);
      case Broken(code) => KeepsFailBatch(c, s, f.items, code);
    }
  }

  lemma KeepsFill(c: Config, y: Sys, raises: seq<Raise>)
    requires Steady(c, y.s, y.Out())
    ensures Keeps(c, y.s, FillStep(c, y, raises).s)
  {
    hide Core, Keeps, ScheduleStep, FailBatch, CleanupTerminal, ItemsOf;
    KeepsSame(c, y.s, y.s);
    var g := ScheduleStep(c, y.s, raises);
    KeepsScheduleStep(c, y.s, y.Out(), raises);
    SteadyScheduleStep(c, y.s, y.Out(), raises);
    IndexKnown(c, g.s, y.Out() + g.items);
    var s1 := FailBatch(g.s, g.items, ServerShuttingDown);
    KeepsFailBatch(c, g.s, g.items, ServerShuttingDown);
    KeepsTrans(c, y.s, g.s, s1);
    KeepsCleanup(c, s1);
    KeepsTrans(c, y.s, s1, CleanupTerminal(s1));
  }

  lemma KeepsCheck(c: Config, y: Sys)
    ensures Keeps(c, y.s, CheckStep(c, y).s)
  {
    hide Keeps, CleanupTerminal, HasSchedulableWork, Preempt;
    KeepsSame(c, y.s, y.s);
    var s := CleanupTerminal(y.s);
    KeepsCleanup(c, y.s);
    KeepsPreempt(c, s);
    KeepsTrans(c, y.s, s, Preempt(s));
  }

  lemma KeepsCollect(c: Config, s: Sched, f: Flight, out: seq<WorkItem>)
    requires Steady(c, s, out) && Sampled(f)
    ensures Keeps(c, s, CleanupTerminal(Retired(c, s, f)))
  {
    hide Core, Keeps, CleanupTerminal, Retired;
    KeepsRetired(c, s, f, out);
    KeepsCleanup(c, Retired(c, s, f));
    KeepsTrans(c, s, Retired(c, s, f), CleanupTerminal(Retired(c, s, f)));
  }

  lemma KeepsEngine(c: Config, y: Sys, raises: seq<Raise>)
    requires Steady(c, y.s, y.Out()) && (y.current.Some? ==> Sampled(y.current.value))
    ensures Keeps(c, y.s, EngineStep(c, y, raises).s)
  {
    hide Core, Keeps, FillStep, CheckStep, FailAllWaiting, CleanupTerminal, Retired, TerminateAll, ItemsOf;
    KeepsSame(c, y.s, y.s);
    KeepsFailAllWaiting(c, y.s, ServerShuttingDown);
    KeepsFill(c, y, raises);
    KeepsCheck(c, y);
    KeepsTerminateAll(c, y.s, y.s.running, ServerShuttingDown);
    if y.current.Some? {
      KeepsRetired(c, y.s, y.current.value, y.Out());
      KeepsCollect(c, y.s, y.current.value, y.Out());
    }
  }

  lemma WorkerLeaves(c: Config, y: Sys, picks: seq<Pick>, broken: bool, code: ErrorCode, junk: map<nat, Kv>)
    ensures WorkerStep(c, y, picks, broken, code, junk).s == y.s
  {
    hide Fate;
  }

  lemma KeepsNext(c: Config, y: Sys, step: Step)
    requires Steady(c, y.s, y.Out()) && Fresh(y.s) && (y.current.Some? ==> Sampled(y.current.value))
    ensures Keeps(c, y.s, Next(c, y, step).s)
  {
    hide Core, Keeps, EngineStep, WorkerStep, Submit, Cancel, Hangup, FailAllWaiting, ItemsOf, Fresh;
    KeepsSame(c, y.s, y.s);
    match step
    case Start => KeepsSame(c, y.s, y.s.(accepting := true));
    case SubmitRequest(id, prompt, maxTokens, maxContext, open) =>
      KeepsSubmit(c, y.s, id, prompt, maxTokens, maxContext, open);
    case CancelRequest(id) => KeepsCancel(c, y.s, id);
    case HangUp(t) => KeepsHangup(c, y.s, t);
    case RaiseShutdown => KeepsSame(c, y.s, y.s.(accepting := false));
    case ShutdownTask => KeepsFailAllWaiting(c, y.s, ServerShuttingDown);
    case RunEngine(raises) => KeepsEngine(c, y, raises);
    case HaltWorker =>
    case RunWorker(picks, broken, code, junk) => WorkerLeaves(c, y, picks, broken, code, junk);
  }

  lemma RunSampled(c: Config, steps: seq<Step>)
    requires c.Valid()
    ensures var y := Run(c, steps); y.current.Some? ==> Sampled(y.current.value)
  {
    hide Run, EosSampled;
    var y := Run(c, steps);
    if y.current.Some? && y.current.value.outcome.Some? && y.current.value.outcome.value.Done? {
      var f := y.current.value;
      forall r | r in f.outcome.value.results ensures EosSampled(r) {
        ResultSampled(c, steps, f, r);
      }
    }
  }

  lemma ResultSampled(c: Config, steps: seq<Step>, f: Flight, r: ItemResult)
    requires c.Valid() && Run(c, steps).current == Some(f)
    requires f.outcome.Some? && f.outcome.value.Done? && r in f.outcome.value.results
    ensures EosSampled(r)
  {
    hide Run;
    var results := f.outcome.value.results;
    assert f in Run(c, steps).Aloft();
    AnswerCount(c, steps, f);
    var i :| 0 <= i < |results| && results[i] == r;
    WorkerAnswers(c, steps, f, i);
  }

  lemma {:induction false} RunFresh(c: Config, steps: seq<Step>)
    requires c.Valid()
    ensures Fresh(Run(c, steps).s)
    decreases |steps|
  {
    hide Next, Steady;
    if steps != [] {
      var before := steps[..|steps| - 1];
      RunFresh(c, before);
      RunSteady(c, before);
      RunSampled(c, before);
      KeepsNext(c, Run(c, before), steps[|steps| - 1]);
    }
  }

  /** Whatever happens later. */
  lemma {:induction false} RunKeeps(c: Config, steps: seq<Step>, more: seq<Step>)
    requires c.Valid()
    ensures Keeps(c, Run(c, steps).s, Run(c, steps + more).s)
    decreases |more|
  {
    hide Keeps, Next, Steady, Fresh, Sampled;
    if more == [] {
      assert steps + more == steps;
      KeepsSame(c, Run(c, steps).s, Run(c, steps).s);
    } else {
      var before := more[..|more| - 1];
      RunKeeps(c, steps, before);
      assert steps + more == (steps + before) + [more[|more| - 1]];
      var all := steps + more;
      assert all[..|all| - 1] == steps + before && all[|all| - 1] == more[|more| - 1];
      RunSteady(c, steps + before);
      RunFresh(c, steps + before);
      RunSampled(c, steps + before);
      var y := Run(c, steps + before);
      KeepsNext(c, y, more[|more| - 1]);
      KeepsTrans(c, Run(c, steps).s, y.s, Run(c, all).s);
    }
  }

  /** The prompt of every active request, on every run. */
  lemma RunWorded(c: Config, steps: seq<Step>, t: Ticket)
    requires c.Valid()
    ensures Worded(c, Run(c, steps).s, t)
  {
    hide WordsOk;
    RunKeeps(c, [], steps);
    assert [] + steps == steps;
    assert Run(c, []) == Boot(c);
    assert Worded(c, Boot(c).s, t);
  }
}
