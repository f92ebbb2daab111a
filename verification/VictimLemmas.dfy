/** Which running sequence a shortage of blocks suspends. */
module VictimLemmas {
  import opened Types
  import opened Blocks
  import opened State
  import opened Scheduling

  /** The sequence may be moved and is being prefilled, or is not. */
  predicate OfKind(s: Sched, t: Ticket, prefill: bool) {
    Movable(s, t) && IsPrefill(Get(s, t).sched.value.phase) == prefill
  }

  /** Of the movable sequences of one kind in a list, the one at position i has the fewest blocks, and every later
      one has more. */
  predicate LeastAt(s: Sched, ts: seq<Ticket>, prefill: bool, i: nat)
    requires i < |ts|
  {
    && OfKind(s, ts[i], prefill)
    && (forall j | 0 <= j < |ts| && OfKind(s, ts[j], prefill) :: TableSize(s, ts[i]) <= TableSize(s, ts[j]))
    && (forall j | i < j < |ts| && OfKind(s, ts[j], prefill) :: TableSize(s, ts[i]) < TableSize(s, ts[j]))
  }

  ghost predicate Least(s: Sched, ts: seq<Ticket>, prefill: bool, t: Ticket) {
    exists i | 0 <= i < |ts| :: ts[i] == t && LeastAt(s, ts, prefill, i)
  }

  ghost predicate NoneOf(s: Sched, ts: seq<Ticket>, prefill: bool) {
    forall t :: t in ts ==> !OfKind(s, t, prefill)
  }

  /** What a scan from the back has found when the first n positions are left. */
  predicate Scanned(s: Sched, ts: seq<Ticket>, prefill: bool, n: nat, best: Option<Ticket>, at: nat)
    requires n <= |ts|
  {
    match best
    case None => forall j | n <= j < |ts| :: !OfKind(s, ts[j], prefill)
    case Some(t) =>
      && n <= at < |ts| && ts[at] == t && OfKind(s, t, prefill)
      && (forall j | n <= j < |ts| && OfKind(s, ts[j], prefill) :: TableSize(s, t) <= TableSize(s, ts[j]))
      && (forall j | at < j < |ts| && OfKind(s, ts[j], prefill) :: TableSize(s, t) < TableSize(s, ts[j]))
  }

  /** One position more. */
  lemma ScanStep(s: Sched, ts: seq<Ticket>, prefill: bool, n: nat, best: Option<Ticket>, at: nat)
    requires 0 < n <= |ts| && Scanned(s, ts, prefill, n, best, at)
    ensures var t := ts[n - 1];
      var better := OfKind(s, t, prefill) && (best.None? || TableSize(s, t) < TableSize(s, best.value));
      Scanned(s, ts, prefill, n - 1, if better then Some(t) else best, if better then n - 1 else at)
  {
    hide OfKind, TableSize;
  }

  lemma ScanEnd(s: Sched, ts: seq<Ticket>, prefill: bool, best: Option<Ticket>, at: nat)
    requires Scanned(s, ts, prefill, 0, best, at)
    ensures match best case None => NoneOf(s, ts, prefill) case Some(t) => Least(s, ts, prefill, t)
  {
    hide OfKind, TableSize;
    if best.Some? { assert LeastAt(s, ts, prefill, at); }
  }

  lemma {:induction false} ScanFinds(s: Sched, ts: seq<Ticket>, prefill: bool, n: nat, best: Option<Ticket>, at: nat)
    requires n <= |ts| && Scanned(s, ts, prefill, n, best, at)
    ensures var r := FindSmallest(s, ts[..n], prefill, best);
      match r case None => NoneOf(s, ts, prefill) case Some(t) => Least(s, ts, prefill, t)
    decreases n
  {
    hide Movable, TableSize, Scanned, NoneOf, Least;
    if n == 0 {
      assert ts[..0] == [];
      ScanEnd(s, ts, prefill, best, at);
    } else {
      var t := ts[n - 1];
      var better := OfKind(s, t, prefill) && (best.None? || TableSize(s, t) < TableSize(s, best.value));
      ScanStep(s, ts, prefill, n, best, at);
      ScanFinds(s, ts, prefill, n - 1, if better then Some(t) else best, if better then n - 1 else at);
      assert ts[..n][..n - 1] == ts[..n - 1] && ts[..n][n - 1] == t;
    }
  }

  lemma SmallestLeast(s: Sched, prefill: bool)
    ensures match FindSmallest(s, s.running, prefill, None)
            case None => NoneOf(s, s.running, prefill)
            case Some(t) => Least(s, s.running, prefill, t)
  {
    assert s.running[..|s.running|] == s.running;
    ScanFinds(s, s.running, prefill, |s.running|, None, 0);
  }

  /** The request that is suspended: a movable one, being prefilled if any movable one is, of its kind one with the
      fewest blocks and the last of those. */
  ghost predicate Victim(s: Sched, t: Ticket) {
    if NoneOf(s, s.running, true) then Least(s, s.running, false, t) else Least(s, s.running, true, t)
  }

  /** A shortage suspends a victim, which loses its blocks and its place among the running and waits in front; nothing
      is suspended exactly when no running sequence may be moved. */
  lemma SuspendsVictim(s: Sched)
    ensures var e := SuspendRunning(s);
      && (e.made <==> exists t :: t in s.running && Movable(s, t))
      && (!e.made ==> e.s == s)
      && (e.made ==>
            && e.s.waiting != [] && Victim(s, e.s.waiting[0]) && e.s.waiting == [e.s.waiting[0]] + s.waiting
            && Get(e.s, e.s.waiting[0]).sched.None? && e.s.running == DropTicket(s.running, e.s.waiting[0]))
  {
    hide Movable, FindSmallest, ReleaseTable, DropTicket, TableSize;
    SmallestLeast(s, true);
    SmallestLeast(s, false);
    KindsCover(s);
    LeastKind(s, true);
    LeastKind(s, false);
  }

  lemma KindsCover(s: Sched)
    ensures (exists t :: t in s.running && Movable(s, t)) <==>
      !NoneOf(s, s.running, true) || !NoneOf(s, s.running, false)
  {
    if t :| t in s.running && Movable(s, t) {
      assert OfKind(s, t, IsPrefill(Get(s, t).sched.value.phase));
    }
  }

  lemma LeastKind(s: Sched, prefill: bool)
    ensures forall t :: Least(s, s.running, prefill, t) ==> !NoneOf(s, s.running, prefill)
  {
    forall t | Least(s, s.running, prefill, t) ensures !NoneOf(s, s.running, prefill) {
      var i :| 0 <= i < |s.running| && s.running[i] == t && LeastAt(s, s.running, prefill, i);
      assert t in s.running;
    }
  }

  // ---------------------------------------------------------------- preemption

  /** The last movable one of a list. */
  predicate LastMovable(s: Sched, ts: seq<Ticket>, i: nat) {
    i < |ts| && Movable(s, ts[i]) && forall j | i < j < |ts| :: !Movable(s, ts[j])
  }

  lemma {:induction false} MovableFound(s: Sched, ts: seq<Ticket>)
    ensures match FindMovable(s, ts)
            case None => forall t :: t in ts ==> !Movable(s, t)
            case Some(t) => exists i: nat :: i < |ts| && LastMovable(s, ts, i) && ts[i] == t
    decreases |ts|
  {
    hide Movable, LastMovable;
    if ts != [] {
      var n := |ts| - 1;
      if Movable(s, ts[n]) {
        LastIsLast(s, ts);
      } else {
        MovableFound(s, ts[..n]);
        assert ts == ts[..n] + [ts[n]];
        if FindMovable(s, ts[..n]).Some? {
          var i: nat :| i < n && LastMovable(s, ts[..n], i) && ts[..n][i] == FindMovable(s, ts[..n]).value;
          LastOfMore(s, ts, i);
        }
      }
    }
  }

  lemma LastIsLast(s: Sched, ts: seq<Ticket>)
    requires ts != [] && Movable(s, ts[|ts| - 1])
    ensures LastMovable(s, ts, |ts| - 1)
  {
  }

  lemma LastOfMore(s: Sched, ts: seq<Ticket>, i: nat)
    requires ts != [] && LastMovable(s, ts[..|ts| - 1], i) && !Movable(s, ts[|ts| - 1])
    ensures LastMovable(s, ts, i) && ts[..|ts| - 1][i] == ts[i]
  {
    hide Movable;
    forall j | i < j < |ts| ensures !Movable(s, ts[j]) {
      if j < |ts| - 1 { assert ts[..|ts| - 1][j] == ts[j]; }
    }
  }

  /** Preemption sets the last movable running request aside, in front of those set aside before, with its sequence and
      blocks; without one it does nothing. */
  lemma PreemptsLast(s: Sched)
    ensures var s' := Preempt(s);
      if exists t :: t in s.running && Movable(s, t) then
        && s'.skip != [] && s'.skip[1..] == s.skip
        && (exists i: nat :: LastMovable(s, s.running, i) && s.running[i] == s'.skip[0])
        && s'.running == DropTicket(s.running, s'.skip[0])
        && s' == s.(running := s'.running, skip := s'.skip, bySeq := s'.bySeq)
      else s' == s
  {
    hide Movable, FindMovable, DropTicket;
    MovableFound(s, s.running);
  }
}
