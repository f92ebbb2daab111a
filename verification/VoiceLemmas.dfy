/**
 What a client hears and what never comes back: the tokens of a request's token events are the tokens it has
 generated, and a request that is no longer active gets no token, no work and no second life.
 */
module VoiceLemmas {
  import opened Types
  import opened State
  import opened Scheduling

  /** The tokens a client was told, in order. */
  function Voice(log: seq<Event>): seq<Token> {
    if log == [] then []
    else
      var e := log[|log| - 1];
      Voice(log[..|log| - 1]) + if e.TokenEvent? then [e.token] else []
  }

  /** The tokens a request has generated, or had when it was forgotten. */
  function Got(s: Sched, t: Ticket): seq<Token> {
    if t in s.objs then s.objs[t].generated
    else if t in s.hist.final then s.hist.final[t].generated
    else []
  }

  predicate Alive(s: Sched, t: Ticket) {
    t in s.objs && s.objs[t].status == Active
  }

  /** What a client was told begins what its request generated; it is all of that if its channel is there, and always
      if it neither cancelled nor went away. */
  predicate Relayed(s: Sched, t: Ticket) {
    && Voice(LogOf(s, t)) <= Got(s, t)
    && (t in s.objs && s.objs[t].open ==> Voice(LogOf(s, t)) == Got(s, t))
    && (t !in s.hist.excused ==> Voice(LogOf(s, t)) == Got(s, t) && (t in s.objs ==> s.objs[t].open))
  }

  /** Work in flight for a request was in flight before. */
  predicate Quieter(s: Sched, s': Sched, t: Ticket) {
    t in s'.objs && s'.objs[t].sched.Some? && s'.objs[t].sched.value.res.leases > 0 ==>
      && t in s.objs && s.objs[t].sched.Some?
      && s'.objs[t].sched.value.seqId == s.objs[t].sched.value.seqId
      && s'.objs[t].sched.value.res.leases <= s.objs[t].sched.value.res.leases
  }

  /** A request that is not active stays so, and nothing more is generated, told or issued. */
  predicate Over(s: Sched, s': Sched, t: Ticket) {
    && !Alive(s', t) && Voice(LogOf(s', t)) == Voice(LogOf(s, t)) && Got(s', t) == Got(s, t) && Quieter(s, s', t)
  }

  predicate LaterFor(s: Sched, s': Sched, t: Ticket) {
    && LogOf(s, t) <= LogOf(s', t) && Got(s, t) <= Got(s', t)
    && (!Alive(s, t) ==> Over(s, s', t)) && (Relayed(s, t) ==> Relayed(s', t))
  }

  /** Only issued tickets are known. */
  ghost predicate Fresh(s: Sched) {
    forall t :: t in s.objs || t in s.hist.final ==> t < s.nextTicket
  }

  ghost predicate Later(s: Sched, s': Sched) {
    && s.nextTicket <= s'.nextTicket && s.hist.excused <= s'.hist.excused && (Fresh(s) ==> Fresh(s'))
    && (forall t: Ticket :: t < s.nextTicket ==> LaterFor(s, s', t))
    && (forall t: Ticket :: s.nextTicket <= t < s'.nextTicket ==> Relayed(s', t))
  }

  // ---------------------------------------------------------------- the relation

  lemma ForTrans(a: Sched, b: Sched, c: Sched, t: Ticket)
    requires LaterFor(a, b, t) && LaterFor(b, c, t)
    ensures LaterFor(a, c, t)
  {
    hide Relayed, Voice, LogOf, Got;
  }

  lemma LaterTrans(a: Sched, b: Sched, c: Sched)
    requires Later(a, b) && Later(b, c)
    ensures Later(a, c)
  {
    hide LaterFor, Relayed, Fresh;
    forall t: Ticket | t < a.nextTicket ensures LaterFor(a, c, t) { ForTrans(a, b, c, t); }
    forall t: Ticket | a.nextTicket <= t < c.nextTicket ensures Relayed(c, t) {
      if t < b.nextTicket { RelayedFor(b, c, t); }
    }
  }

  lemma RelayedFor(s: Sched, s': Sched, t: Ticket)
    requires LaterFor(s, s', t) && Relayed(s, t)
    ensures Relayed(s', t)
  {
  }

  /** The books of one ticket are the same. */
  predicate SameFor(s: Sched, s': Sched, t: Ticket) {
    && (t in s'.objs <==> t in s.objs) && (t in s.objs ==> s'.objs[t] == s.objs[t])
    && LogOf(s', t) == LogOf(s, t)
    && (t in s'.hist.final <==> t in s.hist.final)
    && (t in s.hist.final ==> s'.hist.final[t] == s.hist.final[t])
  }

  ghost predicate OthersSame(s: Sched, s': Sched, t: Ticket) {
    && s'.nextTicket == s.nextTicket && s.hist.excused <= s'.hist.excused
    && forall u :: u != t ==> SameFor(s, s', u)
  }

  lemma SameLater(s: Sched, s': Sched, t: Ticket)
    requires SameFor(s, s', t) && s.hist.excused <= s'.hist.excused
    ensures LaterFor(s, s', t)
  {
    hide Voice;
  }

  lemma LaterSame(s: Sched, s': Sched)
    requires s'.objs == s.objs && s'.log == s.log && s'.nextTicket == s.nextTicket
    requires s'.hist.excused == s.hist.excused && s'.hist.final == s.hist.final
    ensures Later(s, s')
  {
    hide LaterFor;
    forall t: Ticket ensures LaterFor(s, s', t) {
      SameLater(s, s', t);
    }
  }

  lemma LaterAt(s: Sched, s': Sched, t: Ticket)
    requires OthersSame(s, s', t) && LaterFor(s, s', t)
    requires t in s'.objs || t in s'.hist.final ==> t in s.objs || t in s.hist.final || t < s.nextTicket
    ensures Later(s, s')
  {
    hide LaterFor;
    forall u: Ticket ensures LaterFor(s, s', u) {
      if u != t { SameLater(s, s', u); }
    }
    forall u | Fresh(s) && (u in s'.objs || u in s'.hist.final) ensures u < s'.nextTicket {
      assert u == t || SameFor(s, s', u);
    }
  }

  // ---------------------------------------------------------------- one request

  lemma VoiceMore(log: seq<Event>, e: Event)
    ensures Voice(log + [e]) == Voice(log) + if e.TokenEvent? then [e.token] else []
  {
    assert (log + [e])[..|log|] == log;
  }

  lemma LogSame(s: Sched, s': Sched, t: Ticket)
    requires s'.log == s.log
    ensures LogOf(s', t) == LogOf(s, t)
  {
  }

  /** The log of a request stays or gets one event that tells no token. */
  predicate Noted(s: Sched, s': Sched, t: Ticket) {
    || LogOf(s', t) == LogOf(s, t)
    || (|LogOf(s', t)| == |LogOf(s, t)| + 1 && LogOf(s, t) <= LogOf(s', t) && !LogOf(s', t)[|LogOf(s, t)|].TokenEvent?)
  }

  lemma NotedVoice(s: Sched, s': Sched, t: Ticket)
    requires Noted(s, s', t)
    ensures Voice(LogOf(s', t)) == Voice(LogOf(s, t)) && LogOf(s, t) <= LogOf(s', t)
  {
    hide LogOf, Voice;
    if LogOf(s', t) != LogOf(s, t) {
      var e := LogOf(s', t)[|LogOf(s, t)|];
      VoiceMore(LogOf(s, t), e);
      assert LogOf(s', t) == LogOf(s, t) + [e];
    }
  }

  /** A request is not revived, and gets no token; if it was not active, it gets no work. */
  predicate Alike(r: Request, r': Request) {
    && r'.generated == r.generated && r'.open == r.open && (r'.status == Active ==> r.status == Active)
    && (r.status != Active && r'.sched.Some? && r'.sched.value.res.leases > 0 ==>
          && r.sched.Some? && r'.sched.value.seqId == r.sched.value.seqId
          && r'.sched.value.res.leases <= r.sched.value.res.leases)
  }

  lemma LaterEdit(s: Sched, s': Sched, t: Ticket)
    requires t in s.objs && t in s'.objs && OthersSame(s, s', t)
    requires Alike(s.objs[t], s'.objs[t]) && Noted(s, s', t)
    ensures Later(s, s')
  {
    NotedVoice(s, s', t);
    hide LogOf, Voice, OthersSame, Noted;
    LaterAt(s, s', t);
  }

  /** A request is forgotten. */
  lemma LaterGone(s: Sched, s': Sched, t: Ticket)
    requires t in s.objs && t !in s'.objs && OthersSame(s, s', t) && Noted(s, s', t)
    requires t in s'.hist.final && s'.hist.final[t].generated == s.objs[t].generated
    ensures Later(s, s')
  {
    NotedVoice(s, s', t);
    hide LogOf, Voice, OthersSame, Noted;
    LaterAt(s, s', t);
  }

  /** An active request gets a token, and its client hears of it if it is there. */
  lemma LaterToken(s: Sched, s': Sched, t: Ticket, x: Token, last: bool)
    requires Alive(s, t) && t in s'.objs && OthersSame(s, s', t)
    requires s'.objs[t].open == s.objs[t].open && s'.objs[t].generated == s.objs[t].generated + [x]
    requires LogOf(s', t) == if s.objs[t].open then LogOf(s, t) + [TokenEvent(x, last)] else LogOf(s, t)
    ensures Later(s, s')
  {
    VoiceMore(LogOf(s, t), TokenEvent(x, last));
    hide LogOf, Voice, Fresh;
    assert Got(s, t) <= Got(s', t);
    assert Relayed(s, t) ==> Relayed(s', t);
    LaterAt(s, s', t);
  }

  // ---------------------------------------------------------------- clients

  /** A request closes, or is called off by its client. */
  lemma LaterExcused(s: Sched, s': Sched, t: Ticket)
    requires t in s.objs && t in s'.objs && OthersSame(s, s', t) && LogOf(s', t) == LogOf(s, t) && t in s'.hist.excused
    requires s'.objs[t] == s.objs[t].(open := s'.objs[t].open, status := s'.objs[t].status)
    requires (s'.objs[t].open ==> s.objs[t].open) && (s'.objs[t].status == Active ==> s.objs[t].status == Active)
    ensures Later(s, s')
  {
    hide LogOf, Voice, OthersSame, Fresh;
    LaterAt(s, s', t);
  }

  /** The client of a request that is gone. */
  lemma LaterPardoned(s: Sched, s': Sched, t: Ticket)
    requires SameFor(s, s', t) && OthersSame(s, s', t)
    ensures Later(s, s')
  {
    hide LogOf, Voice, Fresh, LaterFor;
    SameLater(s, s', t);
    LaterAt(s, s', t);
  }

  /** A new ticket, whose client has heard no token. */
  lemma LaterNew(s: Sched, s': Sched)
    requires Fresh(s) && s'.nextTicket == s.nextTicket + 1 && s.hist.excused <= s'.hist.excused
    requires forall u :: u != s.nextTicket ==> SameFor(s, s', u)
    requires Relayed(s', s.nextTicket)
    ensures Later(s, s')
  {
    hide LaterFor, Relayed;
    forall u: Ticket | u < s.nextTicket ensures LaterFor(s, s', u) {
      SameLater(s, s', u);
    }
    forall u | u in s'.objs || u in s'.hist.final ensures u < s'.nextTicket {
      assert u == s.nextTicket || SameFor(s, s', u);
    }
  }

  lemma LaterRefuse(s: Sched, open: bool, e: ErrorCode)
    requires Fresh(s)
    ensures Later(s, Refuse(s, open, e))
  {
    var t, s' := s.nextTicket, Refuse(s, open, e);
    VoiceMore([], ErrorEvent(e));
    assert [] + [ErrorEvent(e)] == [ErrorEvent(e)];
    assert Relayed(s', t);
    hide Relayed, Later;
    forall u | u != t ensures SameFor(s, s', u) {}
    LaterNew(s, s');
  }

  lemma LaterAccept(s: Sched, r: Request)
    requires Fresh(s) && r.generated == []
    ensures Later(s, Accept(s, r))
  {
    var t, s' := s.nextTicket, Accept(s, r);
    assert Relayed(s', t);
    hide Relayed, Later;
    forall u | u != t ensures SameFor(s, s', u) {}
    LaterNew(s, s');
  }
}
