/** Moves of requests between queues, and what they keep. */
module PlaceLemmas {
  import opened Types
  import opened Seqs
  import opened State
  import opened Scheduling
  import opened Invariant

  lemma {:induction false} DropTicketOk(ts: seq<Ticket>, t: Ticket)
    requires NoDup(ts)
    ensures NoDup(DropTicket(ts, t))
    ensures forall u :: u in DropTicket(ts, t) <==> u in ts && u != t
    ensures t in ts ==> |DropTicket(ts, t)| == |ts| - 1
    ensures t !in ts ==> DropTicket(ts, t) == ts
  {
    if ts != [] {
      var tail := ts[1..];
      assert forall i | 0 <= i < |tail| :: tail[i] == ts[i + 1];
      assert ts == [ts[0]] + tail;
      assert NoDup(tail) && ts[0] !in tail;
      DropTicketOk(tail, t);
      if ts[0] != t {
        ConsNoDup(ts[0], DropTicket(tail, t));
      }
    }
  }

  lemma TailOk(ts: seq<Ticket>)
    requires ts != [] && NoDup(ts)
    ensures NoDup(ts[1..])
    ensures forall u :: u in ts[1..] <==> u in ts && u != ts[0]
  {
    assert ts == [ts[0]] + ts[1..];
    assert forall i | 0 <= i < |ts[1..]| :: ts[1..][i] == ts[i + 1];
  }

  /** The parts of the state that Places looks at are the same. */
  predicate SamePlaces(s: Sched, s': Sched) {
    && s'.objs == s.objs && s'.registry == s.registry && s'.bySeq == s.bySeq
    && s'.waiting == s.waiting && s'.skip == s.skip && s'.running == s.running
    && s'.nextTicket == s.nextTicket && s'.nextSeq == s.nextSeq
  }

  /** Name and sequence id of a request. */
  predicate SameIdentity(r: Request, r': Request) {
    && r'.id == r.id
    && (r'.sched.Some? <==> r.sched.Some?)
    && (r.sched.Some? ==> r'.sched.value.seqId == r.sched.value.seqId)
  }

  lemma NamedUpdate(s: Sched, s': Sched, t: Ticket, r: Request)
    requires Named(s) && t in s.objs && r.id == s.objs[t].id
    requires s'.objs == s.objs[t := r] && s'.registry == s.registry
    ensures Named(s')
  {
  }

  lemma SequencedUpdate(s: Sched, s': Sched, t: Ticket, r: Request)
    requires Sequenced(s) && t in s.objs
    requires SamePlaces(Put(s, t, r), s')
    requires SameIdentity(s.objs[t], r)
    requires t in s.waiting || t in s.skip ==> Open(r.status)
    ensures Sequenced(s')
  {
  }

  lemma NamedSame(s: Sched, s': Sched)
    requires Named(s) && s'.objs == s.objs && s'.registry == s.registry
    ensures Named(s')
  {
  }

  lemma DistinctSame(s: Sched, s': Sched)
    requires Distinct(s) && s'.objs == s.objs && s'.nextSeq == s.nextSeq
    ensures Distinct(s')
    ensures forall u: Ticket, q: SeqId :: HasSeq(s', u, q) <==> HasSeq(s, u, q)
  {
    forall u: Ticket, q: SeqId ensures HasSeq(s', u, q) <==> HasSeq(s, u, q) {}
  }

  lemma QueuedUpdate(s: Sched, s': Sched, hand: set<Ticket>, t: Ticket, r: Request)
    requires Queued(s, hand) && t in s.objs && SamePlaces(Put(s, t, r), s')
    ensures Queued(s', hand)
  {
    hide NoDup;
  }

  lemma DistinctUpdate(s: Sched, s': Sched, t: Ticket, r: Request)
    requires Distinct(s) && t in s.objs && s'.objs == s.objs[t := r] && s'.nextSeq == s.nextSeq
    requires SameIdentity(s.objs[t], r) || r.sched.None?
    ensures Distinct(s')
  {
    forall u: Ticket, q: SeqId ensures HasSeq(s', u, q) ==> HasSeq(s, u, q) {}
  }

  lemma PlacesUpdate(s: Sched, s': Sched, hand: set<Ticket>, t: Ticket, r: Request)
    requires Places(s, hand) && t in s.objs
    requires SamePlaces(Put(s, t, r), s')
    requires SameIdentity(s.objs[t], r)
    requires t in s.running || t in hand || Open(r.status)
    ensures Places(s', hand)
  {
    QueuedApart(s, hand);
    hide Queued, Named, Sequenced, Distinct;
    QueuedUpdate(s, s', hand, t, r);
    NamedUpdate(s, s', t, r);
    SequencedUpdate(s, s', t, r);
    DistinctUpdate(s, s', t, r);
  }

  lemma QueuedApart(s: Sched, hand: set<Ticket>)
    requires Queued(s, hand)
    ensures forall t :: t in s.running || t in hand ==> t !in s.waiting && t !in s.skip
    ensures forall t :: t in hand ==> t !in s.running
  {
    hide NoDup;
  }

  lemma PlacesPopWaiting(s: Sched, s': Sched, hand: set<Ticket>)
    requires Places(s, hand) && s.waiting != []
    requires SamePlaces(s.(waiting := s.waiting[1..]), s')
    ensures Places(s', hand + {s.waiting[0]})
    ensures s.waiting[0] in s.objs && s.objs[s.waiting[0]].sched.None? && Open(s.objs[s.waiting[0]].status)
  {
    hide Named, Distinct;
    NamedSame(s, s');
    DistinctSame(s, s');
    TailOk(s.waiting);
    hide NoDup;
    assert s.waiting[0] in s.waiting;
  }

  lemma PlacesPopSkip(s: Sched, s': Sched, hand: set<Ticket>)
    requires Places(s, hand) && s.skip != []
    requires SamePlaces(s.(skip := s.skip[1..]), s')
    ensures Places(s', hand + {s.skip[0]})
    ensures s.skip[0] in s.objs && s.objs[s.skip[0]].sched.Some? && Open(s.objs[s.skip[0]].status)
  {
    hide Named, Distinct;
    NamedSame(s, s');
    DistinctSame(s, s');
    TailOk(s.skip);
    hide NoDup;
    assert s.skip[0] in s.skip;
  }

  lemma QueuedDetach(s: Sched, s': Sched, hand: set<Ticket>, t: Ticket)
    requires Queued(s, hand) && t in s.running && s'.objs == s.objs && s'.waiting == s.waiting && s'.skip == s.skip
    requires s'.running == DropTicket(s.running, t) && s'.nextTicket == s.nextTicket
    ensures Queued(s', hand + {t})
  {
    DropTicketOk(s.running, t);
    hide NoDup, DropTicket;
  }

  lemma SequencedDetach(s: Sched, s': Sched, t: Ticket, q0: SeqId)
    requires Sequenced(s) && Distinct(s) && t in s.running && HasSeq(s, t, q0)
    requires s'.objs == s.objs && s'.waiting == s.waiting && s'.skip == s.skip && s'.bySeq == s.bySeq - {q0}
    requires forall u :: u in s'.running <==> u in s.running && u != t
    ensures Sequenced(s')
  {
    forall q | q in s'.bySeq ensures s'.bySeq[q] in s'.running && HasSeq(s', s'.bySeq[q], q) {
      assert HasSeq(s, s.bySeq[q], q);
    }
    forall u | u in s'.running ensures s'.objs[u].sched.value.seqId in s'.bySeq {
      assert HasSeq(s, u, s.objs[u].sched.value.seqId);
    }
  }

  lemma PlacesDetach(s: Sched, s': Sched, hand: set<Ticket>, t: Ticket)
    requires Places(s, hand) && t in s.running
    requires t in s.objs && s.objs[t].sched.Some?
    requires SamePlaces(s.(running := DropTicket(s.running, t), bySeq := s.bySeq - {s.objs[t].sched.value.seqId}), s')
    ensures Places(s', hand + {t})
  {
    assert NoDup(s.running);
    hide Queued, Named, Sequenced, Distinct, NoDup, DropTicket;
    QueuedDetach(s, s', hand, t);
    NamedSame(s, s');
    DropTicketOk(s.running, t);
    SequencedDetach(s, s', t, s.objs[t].sched.value.seqId);
    DistinctSame(s, s');
  }

  lemma QueuedPush(s: Sched, s': Sched, hand: set<Ticket>, t: Ticket)
    requires Queued(s, hand) && t in hand && s'.objs == s.objs && s'.nextTicket == s.nextTicket
    requires || (s'.waiting == [t] + s.waiting && s'.skip == s.skip && s'.running == s.running)
             || (s'.waiting == s.waiting && s'.skip == [t] + s.skip && s'.running == s.running)
             || (s'.waiting == s.waiting && s'.skip == s.skip && s'.running == s.running + [t])
    ensures Queued(s', hand - {t})
  {
    QueuedApart(s, hand);
    NoDupEnds(s.waiting, t);
    NoDupEnds(s.skip, t);
    NoDupEnds(s.running, t);
    hide NoDup;
  }

  lemma NoDupEnds(ts: seq<Ticket>, t: Ticket)
    requires NoDup(ts) && t !in ts
    ensures NoDup([t] + ts) && NoDup(ts + [t])
    ensures forall u :: u in [t] + ts <==> u == t || u in ts
    ensures forall u :: u in ts + [t] <==> u == t || u in ts
  {
  }

  lemma SequencedPush(s: Sched, s': Sched, t: Ticket)
    requires Sequenced(s) && t in s.objs && Open(s.objs[t].status)
    requires s'.objs == s.objs && s'.running == s.running && s'.bySeq == s.bySeq
    requires || (s'.waiting == [t] + s.waiting && s'.skip == s.skip && s.objs[t].sched.None?)
             || (s'.waiting == s.waiting && s'.skip == [t] + s.skip && s.objs[t].sched.Some?)
    ensures Sequenced(s')
  {
    forall q | q in s.bySeq ensures HasSeq(s', s.bySeq[q], q) {
      assert HasSeq(s, s.bySeq[q], q);
    }
  }

  lemma PlacesPushWaiting(s: Sched, s': Sched, hand: set<Ticket>, t: Ticket)
    requires Places(s, hand) && t in hand
    requires t in s.objs && s.objs[t].sched.None? && Open(s.objs[t].status)
    requires SamePlaces(s.(waiting := [t] + s.waiting), s')
    ensures Places(s', hand - {t})
  {
    hide Queued, Named, Sequenced, Distinct;
    QueuedPush(s, s', hand, t);
    NamedSame(s, s');
    SequencedPush(s, s', t);
    DistinctSame(s, s');
  }

  lemma PlacesPushSkip(s: Sched, s': Sched, hand: set<Ticket>, t: Ticket)
    requires Places(s, hand) && t in hand
    requires t in s.objs && s.objs[t].sched.Some? && Open(s.objs[t].status)
    requires SamePlaces(s.(skip := [t] + s.skip), s')
    ensures Places(s', hand - {t})
  {
    hide Queued, Named, Sequenced, Distinct;
    QueuedPush(s, s', hand, t);
    NamedSame(s, s');
    SequencedPush(s, s', t);
    DistinctSame(s, s');
  }

  lemma SequencedRun(s: Sched, s': Sched, t: Ticket)
    requires Sequenced(s) && Distinct(s) && t in s.objs && s.objs[t].sched.Some? && t !in s.running
    requires SamePlaces(s.(running := s.running + [t], bySeq := s.bySeq[s.objs[t].sched.value.seqId := t]), s')
    ensures Sequenced(s') && s.objs[t].sched.value.seqId !in s.bySeq
  {
    var q0 := s.objs[t].sched.value.seqId;
    assert HasSeq(s, t, q0);
    assert q0 !in s.bySeq by {
      assert q0 in s.bySeq ==> HasSeq(s, s.bySeq[q0], q0);
    }
    forall q | q in s'.bySeq ensures s'.bySeq[q] in s'.running && HasSeq(s', s'.bySeq[q], q) {
      assert q != q0 ==> HasSeq(s, s.bySeq[q], q);
    }
  }

  lemma PlacesPushRunning(s: Sched, s': Sched, hand: set<Ticket>, t: Ticket)
    requires Places(s, hand) && t in hand
    requires t in s.objs && s.objs[t].sched.Some?
    requires SamePlaces(s.(running := s.running + [t], bySeq := s.bySeq[s.objs[t].sched.value.seqId := t]), s')
    ensures Places(s', hand - {t})
    ensures s.objs[t].sched.value.seqId !in s.bySeq
  {
    hide Queued, Named, Sequenced, Distinct;
    QueuedApart(s, hand);
    QueuedPush(s, s', hand, t);
    NamedSame(s, s');
    SequencedRun(s, s', t);
    DistinctSame(s, s');
  }

  lemma SequencedUnschedule(s: Sched, s': Sched, t: Ticket, r: Request)
    requires Sequenced(s) && t in s.objs && t !in s.waiting && t !in s.skip && t !in s.running
    requires SamePlaces(Put(s, t, r), s')
    ensures Sequenced(s')
  {
    forall q | q in s.bySeq ensures HasSeq(s', s.bySeq[q], q) {
      assert HasSeq(s, s.bySeq[q], q);
    }
  }

  /** A request in hand gives up its sequence. */
  lemma PlacesUnschedule(s: Sched, s': Sched, hand: set<Ticket>, t: Ticket, r: Request)
    requires Places(s, hand) && t in hand && t in s.objs
    requires r.id == s.objs[t].id && r.sched.None?
    requires SamePlaces(Put(s, t, r), s')
    ensures Places(s', hand)
  {
    hide Queued, Named, Sequenced, Distinct;
    QueuedApart(s, hand);
    QueuedUpdate(s, s', hand, t, r);
    NamedUpdate(s, s', t, r);
    SequencedUnschedule(s, s', t, r);
    DistinctUpdate(s, s', t, r);
  }

  lemma SequencedEnlist(s: Sched, s': Sched, t: Ticket, r: Request)
    requires Sequenced(s) && Distinct(s)
    requires t in s.objs && t !in s.waiting && t !in s.skip && t !in s.running
    requires r.sched.Some? && r.sched.value.seqId == s.nextSeq
    requires SamePlaces(Put(s, t, r).(running := s.running + [t], bySeq := s.bySeq[s.nextSeq := t],
                                      nextSeq := s.nextSeq + 1), s')
    ensures Sequenced(s')
    ensures s.nextSeq !in s.bySeq
  {
    forall q | q in s.bySeq ensures HasSeq(s', s.bySeq[q], q) && q < s.nextSeq {
      assert HasSeq(s, s.bySeq[q], q);
    }
  }

  lemma DistinctEnlist(s: Sched, s': Sched, t: Ticket, r: Request)
    requires Distinct(s) && t in s.objs && s.objs[t].sched.None? && r.sched.Some? && r.sched.value.seqId == s.nextSeq
    requires s'.objs == s.objs[t := r] && s'.nextSeq == s.nextSeq + 1
    ensures Distinct(s')
  {
    forall u: Ticket, q: SeqId ensures HasSeq(s', u, q) <==> HasSeq(s, u, q) || (u == t && q == s.nextSeq) {}
  }

  /** A request in hand gets a new sequence and starts running. */
  lemma PlacesEnlist(s: Sched, s': Sched, hand: set<Ticket>, t: Ticket, r: Request)
    requires Places(s, hand) && t in hand && t in s.objs && s.objs[t].sched.None?
    requires r.id == s.objs[t].id && r.sched.Some? && r.sched.value.seqId == s.nextSeq
    requires SamePlaces(Put(s, t, r).(running := s.running + [t], bySeq := s.bySeq[s.nextSeq := t],
                                      nextSeq := s.nextSeq + 1), s')
    ensures Places(s', hand - {t})
    ensures s.nextSeq !in s.bySeq
  {
    hide Queued, Named, Sequenced, Distinct;
    QueuedApart(s, hand);
    QueuedUpdate(s, Put(s, t, r), hand, t, r);
    QueuedPush(Put(s, t, r), s', hand, t);
    NamedUpdate(s, s', t, r);
    SequencedEnlist(s, s', t, r);
    DistinctEnlist(s, s', t, r);
  }

  lemma NamedErase(s: Sched, s': Sched, t: Ticket)
    requires Named(s) && t in s.objs && s'.objs == s.objs - {t} && s'.registry == s.registry - {s.objs[t].id}
    ensures Named(s')
  {
  }

  lemma QueuedErase(s: Sched, s': Sched, hand: set<Ticket>, t: Ticket)
    requires Queued(s, hand) && t in hand && t in s.objs && s'.objs == s.objs - {t} && s'.nextTicket == s.nextTicket
    requires s'.waiting == s.waiting && s'.skip == s.skip && s'.running == s.running
    ensures Queued(s', hand - {t})
  {
    QueuedApart(s, hand);
    hide NoDup;
  }

  lemma SequencedErase(s: Sched, s': Sched, t: Ticket)
    requires Sequenced(s) && t !in s.waiting && t !in s.skip && t !in s.running && s'.objs == s.objs - {t}
    requires s'.waiting == s.waiting && s'.skip == s.skip && s'.running == s.running && s'.bySeq == s.bySeq
    ensures Sequenced(s')
  {
    forall q | q in s.bySeq ensures HasSeq(s', s.bySeq[q], q) {
      assert HasSeq(s, s.bySeq[q], q);
    }
  }

  lemma PlacesErase(s: Sched, s': Sched, hand: set<Ticket>, t: Ticket)
    requires Places(s, hand) && t in hand && t in s.objs
    requires SamePlaces(EraseRequest(s, t), s')
    ensures Places(s', hand - {t})
  {
    hide Queued, Named, Sequenced;
    QueuedApart(s, hand);
    QueuedErase(s, s', hand, t);
    NamedErase(s, s', t);
    SequencedErase(s, s', t);
    assert Distinct(s') by {
      forall u: Ticket, q: SeqId ensures HasSeq(s', u, q) ==> HasSeq(s, u, q) {}
    }
  }

  lemma SequencedSubmit(s: Sched, s': Sched, t: Ticket, r: Request)
    requires Sequenced(s) && t !in s.objs && r.sched.None? && Open(r.status)
    requires s'.objs == s.objs[t := r] && s'.waiting == s.waiting + [t] && s'.skip == s.skip
    requires s'.running == s.running && s'.bySeq == s.bySeq
    ensures Sequenced(s')
  {
    forall q | q in s.bySeq ensures HasSeq(s', s.bySeq[q], q) {
      assert HasSeq(s, s.bySeq[q], q);
    }
  }

  lemma NamedSubmit(s: Sched, s': Sched, t: Ticket, r: Request)
    requires Named(s) && t !in s.objs && r.id !in s.registry
    requires s'.objs == s.objs[t := r] && s'.registry == s.registry[r.id := t]
    ensures Named(s')
  {
  }

  lemma QueuedSubmit(s: Sched, s': Sched, r: Request)
    requires Queued(s, {}) && s'.objs == s.objs[s.nextTicket := r] && s'.waiting == s.waiting + [s.nextTicket]
    requires s'.skip == s.skip && s'.running == s.running && s'.nextTicket == s.nextTicket + 1
    ensures Queued(s', {}) && s.nextTicket !in s.objs
  {
    var t := s.nextTicket;
    assert t !in s.objs;
    NoDupEnds(s.waiting, t);
    hide NoDup;
  }

  lemma PlacesSubmit(s: Sched, s': Sched, r: Request)
    requires Places(s, {}) && r.id !in s.registry && r.sched.None? && Open(r.status)
    requires SamePlaces(Put(s, s.nextTicket, r).(registry := s.registry[r.id := s.nextTicket],
                          waiting := s.waiting + [s.nextTicket], nextTicket := s.nextTicket + 1), s')
    ensures Places(s', {})
    ensures s.nextTicket !in s.objs
  {
    hide Queued, Named, Sequenced;
    var t := s.nextTicket;
    QueuedSubmit(s, s', r);
    NamedSubmit(s, s', t, r);
    SequencedSubmit(s, s', t, r);
    assert Distinct(s') by {
      forall u: Ticket, q: SeqId ensures HasSeq(s', u, q) <==> HasSeq(s, u, q) {}
    }
  }

  function Elems(ts: seq<Ticket>): (r: set<Ticket>)
    ensures forall t :: t in r <==> t in ts
  {
    set t | t in ts
  }

  lemma PlacesEmptySkip(s: Sched, s': Sched)
    requires Places(s, {}) && SamePlaces(s.(skip := []), s')
    ensures Places(s', Elems(s.skip))
    ensures forall t :: t in s.skip ==> t in s.objs && s.objs[t].sched.Some? && Open(s.objs[t].status)
  {
    hide Named, Distinct;
    NamedSame(s, s');
    DistinctSame(s, s');
  }

  lemma PlacesEmptyWaiting(s: Sched, s': Sched)
    requires Places(s, {}) && SamePlaces(s.(waiting := []), s')
    ensures Places(s', Elems(s.waiting))
    ensures forall t :: t in s.waiting ==> t in s.objs && s.objs[t].sched.None? && Open(s.objs[t].status)
  {
    hide Named, Distinct;
    NamedSame(s, s');
    DistinctSame(s, s');
  }

  lemma PlacesFillSkip(s: Sched, s': Sched, kept: seq<Ticket>)
    requires Places(s, Elems(kept)) && s.skip == [] && NoDup(kept)
    requires forall t :: t in kept ==> t in s.objs && s.objs[t].sched.Some? && Open(s.objs[t].status)
    requires SamePlaces(s.(skip := kept), s')
    ensures Places(s', {})
  {
    hide Named, Distinct, NoDup;
    NamedSame(s, s');
    DistinctSame(s, s');
  }

  lemma PlacesFillWaiting(s: Sched, s': Sched, kept: seq<Ticket>)
    requires Places(s, Elems(kept)) && s.waiting == [] && NoDup(kept)
    requires forall t :: t in kept ==> t in s.objs && s.objs[t].sched.None? && Open(s.objs[t].status)
    requires SamePlaces(s.(waiting := kept), s')
    ensures Places(s', {})
  {
    hide Named, Distinct, NoDup;
    NamedSame(s, s');
    DistinctSame(s, s');
  }
}
