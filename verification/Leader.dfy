/**
 Leader election over PostgreSQL session-level advisory locks, as a state machine
 of every replica's campaign loop, the connections of its pool and the lock.
 */
module LeaderElection {
  import opened Wrappers

  type Replica = nat
  type Session = nat

  /** Where a replica's campaign stands; every phase but Idle owns a connection. */
  datatype Phase =
    | Idle
    | Connected(session: Session)
    | Elected(session: Session)
    | Leading(session: Session)
    | Stopping(session: Session)   // worker cancelled, waiting for it to return
    | Returning(session: Session)  // worker has returned, unlock still to run
    | Releasing(session: Session)  // unlock attempted, connection still to be given back

  /** The advisory lock is re-entrant within one session, hence the depth. */
  datatype Lock = Free | Held(holder: Session, depth: nat)

  datatype State = State(
    phase: map<Replica, Phase>,
    running: set<Replica>,      // replicas whose worker has not returned
    cancelled: set<Replica>,    // replicas whose Run context is cancelled
    pooled: map<Session, Replica>, // open connections waiting in a replica's pool
    used: set<Session>,         // every session ever opened
    broken: set<Session>,       // closed on the client side
    alive: set<Session>,        // alive on the server side
    lock: Lock)

  datatype Step =
    | Acquire(r: Replica, s: Session)
    | TryLock(r: Replica)
    | TryLockFails(r: Replica, took: bool, closed: bool) // an error may hide that the server took the lock
    | StartWorker(r: Replica)
    | WorkerReturns(r: Replica)
    | Cancel(r: Replica)
    | SeeCancelled(r: Replica)
    | PingFails(r: Replica, closed: bool)
    | SeeDone(r: Replica)
    | Unlock(r: Replica, executed: bool, closed: bool) // an error may hide that it ran, or leave the connection open
    | Release(r: Replica)
    | SessionDies(s: Session)

  const Init: State := State(map[], {}, {}, map[], {}, {}, {}, Free)

  function PhaseOf(st: State, r: Replica): Phase { if r in st.phase then st.phase[r] else Idle }

  predicate CanLock(st: State, s: Session) { st.lock.Free? || st.lock.holder == s }

  function Locked(st: State, s: Session): Lock
    requires CanLock(st, s)
  {
    if st.lock.Free? then Held(s, 1) else Held(s, st.lock.depth + 1)
  }

  function Unlocked(st: State, s: Session): Lock {
    if st.lock.Held? && st.lock.holder == s then
      if st.lock.depth <= 1 then Free else Held(s, st.lock.depth - 1)
    else st.lock
  }

  predicate Enabled(st: State, step: Step) {
    match step
    case Acquire(r, s) =>
      PhaseOf(st, r).Idle? && r !in st.cancelled && (s !in st.used || (s in st.pooled && st.pooled[s] == r))
    case TryLock(r) => PhaseOf(st, r).Connected? && PhaseOf(st, r).session in st.alive
    case TryLockFails(r, took, closed) =>
      && PhaseOf(st, r).Connected?
      && (took ==> PhaseOf(st, r).session in st.alive && CanLock(st, PhaseOf(st, r).session))
    case StartWorker(r) => PhaseOf(st, r).Elected?
    case WorkerReturns(r) => r in st.running
    case Cancel(r) => true
    case SeeCancelled(r) => PhaseOf(st, r).Leading? && r in st.cancelled
    case PingFails(r, _) => PhaseOf(st, r).Leading?
    case SeeDone(r) => (PhaseOf(st, r).Leading? || PhaseOf(st, r).Stopping?) && r !in st.running
    case Unlock(r, executed, _) =>
      && PhaseOf(st, r).Returning?
      && (executed ==> PhaseOf(st, r).session in st.alive && PhaseOf(st, r).session !in st.broken)
    case Release(r) => PhaseOf(st, r).Releasing?
    case SessionDies(s) => s in st.alive
  }

  function Give(st: State, r: Replica, s: Session): State {
    st.(phase := st.phase[r := Idle], pooled := if s in st.broken then st.pooled else st.pooled[s := r])
  }

  function Apply(st: State, step: Step): State
    requires Enabled(st, step)
  {
    match step
    case Acquire(r, s) =>
      st.(phase := st.phase[r := Connected(s)], pooled := st.pooled - {s}, used := st.used + {s},
          alive := if s in st.used then st.alive else st.alive + {s})
    case TryLock(r) =>
      var s := PhaseOf(st, r).session;
      if CanLock(st, s) then st.(phase := st.phase[r := Elected(s)], lock := Locked(st, s)) else Give(st, r, s)
    case TryLockFails(r, took, closed) =>
      var s := PhaseOf(st, r).session;
      var st1 := if took then st.(lock := Locked(st, s)) else st;
      Give(if closed then st1.(broken := st1.broken + {s}) else st1, r, s)
    case StartWorker(r) =>
      st.(phase := st.phase[r := Leading(PhaseOf(st, r).session)], running := st.running + {r})
    case WorkerReturns(r) => st.(running := st.running - {r})
    case Cancel(r) => st.(cancelled := st.cancelled + {r})
    case SeeCancelled(r) => st.(phase := st.phase[r := Stopping(PhaseOf(st, r).session)])
    case PingFails(r, closed) =>
      var s := PhaseOf(st, r).session;
      st.(phase := st.phase[r := Stopping(s)], broken := if closed then st.broken + {s} else st.broken)
    case SeeDone(r) => st.(phase := st.phase[r := Returning(PhaseOf(st, r).session)])
    case Unlock(r, executed, closed) =>
      var s := PhaseOf(st, r).session;
      st.(phase := st.phase[r := Releasing(s)],
          lock := if executed then Unlocked(st, s) else st.lock,
          broken := if closed then st.broken + {s} else st.broken)
    case Release(r) => Give(st, r, PhaseOf(st, r).session)
    case SessionDies(s) =>
      st.(alive := st.alive - {s}, lock := if st.lock.Held? && st.lock.holder == s then Free else st.lock)
  }

  /** The state after a run, None when some step is not possible. */
  function Exec(st: State, steps: seq<Step>): Option<State>
    decreases |steps|
  {
    if steps == [] then Some(st)
    else if Enabled(st, steps[0]) then Exec(Apply(st, steps[0]), steps[1..])
    else None
  }

  // ---------------------------------------------------------------- the invariant

  /** The connection of a replica that has won the lock and not yet run its unlock. */
  predicate HoldsOffice(p: Phase) { p.Elected? || p.Leading? || p.Stopping? || p.Returning? }

  predicate Sessions(st: State) {
    && (forall r :: r in st.phase && !st.phase[r].Idle? ==>
          st.phase[r].session in st.used && st.phase[r].session !in st.pooled)
    && (forall r, q :: r in st.phase && q in st.phase && r != q && !st.phase[r].Idle? && !st.phase[q].Idle? ==>
          st.phase[r].session != st.phase[q].session)
    && st.pooled.Keys <= st.used && st.alive <= st.used && st.broken <= st.used
    && st.pooled.Keys !! st.broken
    && (forall r :: r in st.phase && st.phase[r].Connected? ==> st.phase[r].session !in st.broken)
  }

  /** The lock is free or held by a live session, and by that of any replica in office whose session lives. */
  predicate LockInv(st: State) {
    && (st.lock.Held? ==> st.lock.holder in st.alive && st.lock.depth > 0)
    && forall r :: r in st.phase && HoldsOffice(st.phase[r]) && st.phase[r].session in st.alive ==>
         st.lock.Held? && st.lock.holder == st.phase[r].session
  }

  predicate Workers(st: State) {
    forall r :: r in st.running ==> r in st.phase && (st.phase[r].Leading? || st.phase[r].Stopping?)
  }

  predicate Inv(st: State) { Sessions(st) && LockInv(st) && Workers(st) }

  lemma StepSessions(st: State, step: Step)
    requires Sessions(st) && Enabled(st, step)
    ensures Sessions(Apply(st, step))
  {}

  lemma StepLock(st: State, step: Step)
    requires Inv(st) && Enabled(st, step)
    ensures LockInv(Apply(st, step))
  {}

  lemma StepWorkers(st: State, step: Step)
    requires Inv(st) && Enabled(st, step)
    ensures Workers(Apply(st, step))
  {}

  lemma {:induction false} Invariant(st: State, steps: seq<Step>)
    requires Inv(st) && Exec(st, steps).Some?
    ensures Inv(Exec(st, steps).value)
    decreases |steps|
  {
    if steps == [] {
    } else {
      StepSessions(st, steps[0]);
      StepLock(st, steps[0]);
      StepWorkers(st, steps[0]);
      Invariant(Apply(st, steps[0]), steps[1..]);
    }
  }

  // ---------------------------------------------------------------- what every run keeps

  /** The worker of `r` runs and the session under it is still alive. */
  predicate LiveLeader(st: State, r: Replica) {
    r in st.running && r in st.phase && !st.phase[r].Idle? && st.phase[r].session in st.alive
  }

  /** In every interleaving, at most one running worker has a live lock session, and it holds the lock. */
  lemma OneLiveLeader(steps: seq<Step>, r: Replica, q: Replica)
    requires Exec(Init, steps).Some?
    requires LiveLeader(Exec(Init, steps).value, r) && LiveLeader(Exec(Init, steps).value, q)
    ensures r == q
    ensures var st := Exec(Init, steps).value; st.lock.Held? && st.lock.holder == st.phase[r].session
  {
    Invariant(Init, steps);
  }

  /** No replica runs its unlock, or gives back its connection, before its worker has returned. */
  lemma UnlockAfterWorker(steps: seq<Step>, step: Step)
    requires Exec(Init, steps).Some? && Enabled(Exec(Init, steps).value, step)
    requires step.Unlock? || step.Release?
    ensures step.r !in Exec(Init, steps).value.running
  {
    Invariant(Init, steps);
  }

  /** Only the death of its own session takes the lock from under a running worker. */
  lemma LockOutlivesWorker(steps: seq<Step>, step: Step, r: Replica)
    requires Exec(Init, steps).Some? && Enabled(Exec(Init, steps).value, step)
    requires LiveLeader(Exec(Init, steps).value, r)
    requires step != SessionDies(Exec(Init, steps).value.phase[r].session) && step != WorkerReturns(r)
    ensures var st := Exec(Init, steps).value;
            && Apply(st, step).lock == st.lock && st.lock.Held? && st.lock.holder == st.phase[r].session
            && LiveLeader(Apply(st, step), r)
  {
    var st := Exec(Init, steps).value;
    Invariant(Init, steps);
    StepLock(st, step);
    StepSessions(st, step);
  }

  lemma {:induction false} SessionsStayAlive(st: State, steps: seq<Step>)
    requires st.alive == st.used && Exec(st, steps).Some? && forall x :: x in steps ==> !x.SessionDies?
    ensures Exec(st, steps).value.alive == Exec(st, steps).value.used
    decreases |steps|
  {
    if steps == [] {
    } else {
      SessionsStayAlive(Apply(st, steps[0]), steps[1..]);
    }
  }

  /** While no session dies, at most one worker runs at all. */
  lemma OneWorkerWithoutDeaths(steps: seq<Step>, r: Replica, q: Replica)
    requires Exec(Init, steps).Some? && forall x :: x in steps ==> !x.SessionDies?
    requires r in Exec(Init, steps).value.running && q in Exec(Init, steps).value.running
    ensures r == q
  {
    Invariant(Init, steps);
    SessionsStayAlive(Init, steps);
    OneLiveLeader(steps, r, q);
  }

  lemma {:induction false} ExecConcat(st: State, a: seq<Step>, b: seq<Step>)
    requires Exec(st, a).Some?
    ensures Exec(st, a + b) == Exec(Exec(st, a).value, b)
    decreases |a|
  {
    if a == [] {
      assert a + b == b;
    } else {
      assert (a + b)[1..] == a[1..] + b;
      ExecConcat(Apply(st, a[0]), a[1..], b);
    }
  }

  /** An idle replica facing a free lock can take it with a new session and start its worker. */
  lemma TakesOffice(st: State, r: Replica, s: Session)
    requires PhaseOf(st, r).Idle? && r !in st.cancelled && s !in st.used && st.lock.Free?
    ensures var steps := [Acquire(r, s), TryLock(r), StartWorker(r)];
            && Exec(st, steps).Some?
            && var end := Exec(st, steps).value;
               && end.running == st.running + {r} && end.lock == Held(s, 1) && s in end.alive
               && end.used == st.used + {s} && end.cancelled == st.cancelled && end.phase.Keys == st.phase.Keys + {r}
  {
    var steps := [Acquire(r, s), TryLock(r), StartWorker(r)];
    var s1 := Apply(st, steps[0]);
    var s2 := Apply(s1, steps[1]);
    var s3 := Apply(s2, steps[2]);
    assert steps[1..][0] == steps[1] && steps[1..][1..][0] == steps[2] && steps[1..][1..][1..] == [];
    assert Exec(s2, steps[1..][1..]) == Some(s3);
  }

  /**
   Whenever a leader's session dies, any idle replica can start a second worker beside the one still running;
   so one worker at a time is what runs without session deaths have, and no other.
   */
  lemma DeathAdmitsSecondWorker(steps: seq<Step>, q: Replica, r: Replica, s: Session)
    requires Exec(Init, steps).Some? && LiveLeader(Exec(Init, steps).value, q)
    requires var st := Exec(Init, steps).value; r != q && PhaseOf(st, r).Idle? && r !in st.cancelled && s !in st.used
    ensures var death := SessionDies(Exec(Init, steps).value.phase[q].session);
            var end := Exec(Init, steps + [death] + [Acquire(r, s), TryLock(r), StartWorker(r)]);
            end.Some? && q in end.value.running && r in end.value.running
  {
    var st := Exec(Init, steps).value;
    var death := SessionDies(st.phase[q].session);
    OneLiveLeader(steps, q, q);
    var dead := Apply(st, death);
    assert Exec(st, [death]) == Some(dead);
    ExecConcat(Init, steps, [death]);
    TakesOffice(dead, r, s);
    ExecConcat(Init, steps + [death], [Acquire(r, s), TryLock(r), StartWorker(r)]);
  }

  /** Such runs exist: a lone replica takes office, its session dies, and another takes office. */
  lemma TwoWorkersAfterOneDeath(q: Replica, r: Replica, s: Session, t: Session) returns (steps: seq<Step>)
    requires q != r && s != t
    ensures Exec(Init, steps).Some? && Exec(Init, steps).value.running == {q, r}
  {
    var first := [Acquire(q, s), TryLock(q), StartWorker(q)];
    TakesOffice(Init, q, s);
    var st := Exec(Init, first).value;
    var dead := Apply(st, SessionDies(s));
    assert Exec(st, [SessionDies(s)]) == Some(dead);
    ExecConcat(Init, first, [SessionDies(s)]);
    TakesOffice(dead, r, t);
    ExecConcat(Init, first + [SessionDies(s)], [Acquire(r, t), TryLock(r), StartWorker(r)]);
    steps := first + [SessionDies(s)] + [Acquire(r, t), TryLock(r), StartWorker(r)];
  }

  /** An unlock that fails on an open connection leaves the lock with a pooled session that leads nothing. */
  lemma FailedUnlockKeepsLock(steps: seq<Step>, r: Replica)
    requires Exec(Init, steps).Some? && PhaseOf(Exec(Init, steps).value, r).Returning?
    requires var st := Exec(Init, steps).value; st.phase[r].session in st.alive && st.phase[r].session !in st.broken
    ensures var st := Exec(Init, steps).value;
            var end := Exec(Init, steps + [Unlock(r, false, false), Release(r)]);
            && end.Some? && PhaseOf(end.value, r).Idle? && st.phase[r].session in end.value.pooled
            && end.value.lock.Held? && end.value.lock.holder == st.phase[r].session
  {
    var st := Exec(Init, steps).value;
    Invariant(Init, steps);
    var tail := [Unlock(r, false, false), Release(r)];
    var mid := Apply(st, tail[0]);
    assert tail[1..] == [Release(r)];
    assert Exec(mid, [Release(r)]) == Some(Apply(mid, Release(r)));
    ExecConcat(Init, steps, tail);
  }

  /** A cancelled replica that is out of office starts nothing any more, whatever the others do. */
  lemma {:induction false} CancelledStaysOut(st: State, steps: seq<Step>, r: Replica)
    requires Inv(st) && r in st.cancelled && PhaseOf(st, r).Idle? && Exec(st, steps).Some?
    ensures PhaseOf(Exec(st, steps).value, r).Idle? && r !in Exec(st, steps).value.running
    decreases |steps|
  {
    if steps == [] {
    } else {
      StepSessions(st, steps[0]);
      StepLock(st, steps[0]);
      StepWorkers(st, steps[0]);
      CancelledStaysOut(Apply(st, steps[0]), steps[1..], r);
    }
  }

  /** What the leader does once its Run context is cancelled. */
  function StepsDown(r: Replica): seq<Step> {
    [Cancel(r), SeeCancelled(r), WorkerReturns(r), SeeDone(r), Unlock(r, true, false), Release(r)]
  }

  /**
   Handover: a leader on a live connection that holds the lock once, when cancelled, gives up the lock after its
   worker has returned, and any idle replica can then take office.
   */
  lemma LeadershipHandsOver(steps: seq<Step>, q: Replica, r: Replica, s: Session)
    requires Exec(Init, steps).Some? && LiveLeader(Exec(Init, steps).value, q)
    requires var st := Exec(Init, steps).value;
             && st.phase[q].Leading? && st.phase[q].session !in st.broken && st.lock.Held? && st.lock.depth == 1
             && r != q && PhaseOf(st, r).Idle? && r !in st.cancelled && s !in st.used
    ensures var down := Exec(Init, steps + StepsDown(q));
            && down.Some? && down.value.lock.Free? && PhaseOf(down.value, q).Idle? && q !in down.value.running
            && var up := Exec(Init, steps + StepsDown(q) + [Acquire(r, s), TryLock(r), StartWorker(r)]);
               up.Some? && up.value.lock == Held(s, 1)
               && up.value.running == Exec(Init, steps).value.running - {q} + {r}
  {
    var st := Exec(Init, steps).value;
    OneLiveLeader(steps, q, q);
    StepsDownRuns(st, q);
    ExecConcat(Init, steps, StepsDown(q));
    var down := Exec(st, StepsDown(q)).value;
    TakesOffice(down, r, s);
    ExecConcat(Init, steps + StepsDown(q), [Acquire(r, s), TryLock(r), StartWorker(r)]);
  }

  lemma StepsDownRuns(st: State, q: Replica)
    requires q in st.phase && st.phase[q].Leading? && q in st.running
    requires st.phase[q].session in st.alive && st.phase[q].session !in st.broken
    requires st.lock == Held(st.phase[q].session, 1)
    ensures var down := Exec(st, StepsDown(q));
            && down.Some? && down.value.lock.Free? && PhaseOf(down.value, q).Idle?
            && down.value.running == st.running - {q} && down.value.used == st.used
            && down.value.cancelled == st.cancelled + {q}
            && forall r :: r != q ==> PhaseOf(down.value, r) == PhaseOf(st, r)
  {
    var steps := StepsDown(q);
    var s1 := Apply(st, steps[0]);
    var s2 := Apply(s1, steps[1]);
    var s3 := Apply(s2, steps[2]);
    var s4 := Apply(s3, steps[3]);
    var s5 := Apply(s4, steps[4]);
    var s6 := Apply(s5, steps[5]);
    assert Exec(s5, [steps[5]]) == Some(s6);
    assert steps[4..][1..] == [steps[5]] && steps[3..][1..] == steps[4..] && steps[2..][1..] == steps[3..];
    assert steps[1..][1..] == steps[2..];
    assert Exec(s4, steps[4..]) == Exec(s5, [steps[5]]);
    assert Exec(s3, steps[3..]) == Exec(s4, steps[4..]);
    assert Exec(s2, steps[2..]) == Exec(s3, steps[3..]);
    assert Exec(s1, steps[1..]) == Exec(s2, steps[2..]);
  }

  // ---------------------------------------------------------------- a lock nobody gives back

  predicate InOffice(st: State, r: Replica, h: Session) {
    r in st.phase && HoldsOffice(st.phase[r]) && st.phase[r].session == h
  }

  /** Only `r` has or can get the connection. */
  predicate BelongsTo(st: State, h: Session, r: Replica) {
    && h in st.used && (h in st.pooled ==> st.pooled[h] == r)
    && forall q :: q in st.phase && !st.phase[q].Idle? && st.phase[q].session == h ==> q == r
  }

  /** A live session of `r` holds the lock once more than the term of `r` under way, if any, will give back. */
  predicate Leaked(st: State, h: Session, r: Replica) {
    && h in st.alive && BelongsTo(st, h, r)
    && st.lock.Held? && st.lock.holder == h && st.lock.depth > if InOffice(st, r, h) then 1 else 0
  }

  lemma StepBelongs(st: State, step: Step, h: Session, r: Replica)
    requires Sessions(st) && Enabled(st, step) && BelongsTo(st, h, r)
    ensures BelongsTo(Apply(st, step), h, r)
  {}

  lemma StepLeaked(st: State, step: Step, h: Session, r: Replica)
    requires Inv(st) && Enabled(st, step) && Leaked(st, h, r) && step != SessionDies(h)
    ensures Leaked(Apply(st, step), h, r)
  {
    StepBelongs(st, step, h, r);
  }

  /**
   A leaked lock stays with its session until that session dies, whatever steps are taken, later terms of `r` with
   their unlocks included; so no other replica leads with a live session.
   */
  lemma {:induction false} LeakedUntilDeath(st: State, steps: seq<Step>, h: Session, r: Replica)
    requires Inv(st) && Leaked(st, h, r) && Exec(st, steps).Some? && SessionDies(h) !in steps
    ensures Leaked(Exec(st, steps).value, h, r)
    ensures forall q :: LiveLeader(Exec(st, steps).value, q) ==> q == r && Exec(st, steps).value.phase[q].session == h
    decreases |steps|
  {
    if steps == [] {
    } else {
      StepLeaked(st, steps[0], h, r);
      StepSessions(st, steps[0]);
      StepLock(st, steps[0]);
      StepWorkers(st, steps[0]);
      LeakedUntilDeath(Apply(st, steps[0]), steps[1..], h, r);
    }
  }

  /** A lock taken behind an error, or an unlock that does not run although its session lives. */
  predicate Fault(st: State, step: Step) {
    || (step.TryLockFails? && step.took)
    || (step.Unlock? && !step.executed && PhaseOf(st, step.r).Returning? && PhaseOf(st, step.r).session in st.alive)
  }

  /** Every fault leaks the lock: from then on, while that session lives, only its replica leads. */
  lemma FaultLeaks(steps: seq<Step>, fault: Step, more: seq<Step>)
    requires Exec(Init, steps).Some? && Enabled(Exec(Init, steps).value, fault) && Fault(Exec(Init, steps).value, fault)
    requires SessionDies(Exec(Init, steps).value.phase[fault.r].session) !in more
    requires Exec(Init, steps + [fault] + more).Some?
    ensures var h := Exec(Init, steps).value.phase[fault.r].session;
            var end := Exec(Init, steps + [fault] + more).value;
            && Leaked(end, h, fault.r)
            && forall q :: LiveLeader(end, q) ==> q == fault.r && end.phase[q].session == h && end.lock.depth >= 2
  {
    var st := Exec(Init, steps).value;
    Invariant(Init, steps);
    var after := Apply(st, fault);
    assert Exec(st, [fault]) == Some(after);
    ExecConcat(Init, steps, [fault]);
    ExecConcat(Init, steps + [fault], more);
    assert Leaked(after, st.phase[fault.r].session, fault.r);
    Invariant(Init, steps + [fault]);
    LeakedUntilDeath(after, more, st.phase[fault.r].session, fault.r);
    Invariant(after, more);
  }

  predicate Faultless(st: State, steps: seq<Step>)
    decreases |steps|
  {
    steps == [] ||
    (Enabled(st, steps[0]) && !Fault(st, steps[0]) && Faultless(Apply(st, steps[0]), steps[1..]))
  }

  /** A held lock is held once, by a replica in office. */
  ghost predicate Clean(st: State) {
    st.lock.Held? ==> st.lock.depth == 1 && exists r :: InOffice(st, r, st.lock.holder)
  }

  lemma StepClean(st: State, step: Step)
    requires Inv(st) && Clean(st) && Enabled(st, step) && !Fault(st, step)
    ensures Clean(Apply(st, step))
  {
    if st.lock.Held? {
      var r :| InOffice(st, r, st.lock.holder);
      var st' := Apply(st, step);
      if st'.lock.Held? {
        assert InOffice(st', r, st'.lock.holder);
      }
    } else if step.TryLock? {
      assert InOffice(Apply(st, step), step.r, PhaseOf(st, step.r).session);
    }
  }

  lemma {:induction false} FaultlessStaysClean(st: State, steps: seq<Step>)
    requires Inv(st) && Clean(st) && Faultless(st, steps)
    ensures Exec(st, steps).Some? && Clean(Exec(st, steps).value)
    decreases |steps|
  {
    if steps == [] {
    } else {
      StepClean(st, steps[0]);
      StepSessions(st, steps[0]);
      StepLock(st, steps[0]);
      StepWorkers(st, steps[0]);
      FaultlessStaysClean(Apply(st, steps[0]), steps[1..]);
    }
  }

  /** And only faults leak it: without one, whenever nobody is in office the lock is free to take. */
  lemma NoFaultNoLeak(steps: seq<Step>)
    requires Faultless(Init, steps)
    ensures Exec(Init, steps).Some?
    ensures var st := Exec(Init, steps).value;
            (forall r :: r in st.phase ==> !HoldsOffice(st.phase[r])) ==> st.lock.Free?
    ensures forall h, r :: !Leaked(Exec(Init, steps).value, h, r)
  {
    FaultlessStaysClean(Init, steps);
  }
}
