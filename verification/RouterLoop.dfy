/** The executor loop over the work ledger, with ingress admitting work at any moment. */
module RouterLoop {
  import opened Basics
  import opened LedgerTables
  import opened LedgerInvariant
  import L = LedgerTheorems
  import LedgerStore

  // ---------- the loop as a transition system ----------

  datatype Phase = Idle | Executing(attempt: AttemptRef) | Reconciling | Down

  datatype Sys = Sys(tables: Tables, needsRecovery: bool, phase: Phase)

  datatype Move =
    | Ingress(op: Op)
    | RecoverOwed(now: Time)
    | ClaimWork(op: Op)
    | FinishWork(outcome: Outcome, stored: bool, now: Time)
    | Reconcile(recovers: bool, now: Time)
    | Crash
    | Restart(now: Time)

  predicate Can(s: Sys, m: Move) {
    match m
    case Ingress(op) => !s.phase.Down? && IsIngress(op)
    case RecoverOwed(_) => s.phase.Idle? && s.needsRecovery
    case ClaimWork(op) => s.phase.Idle? && !s.needsRecovery && (op.Claim? || op.Sweep?) && Enabled(s.tables, op)
    case FinishWork(_, _, _) => s.phase.Executing?
    case Reconcile(_, _) => s.phase.Reconciling?
    case Crash => true
    case Restart(_) => s.phase.Down?
  }

  /**
   `stored` and `recovers` are whether the database takes the transaction at all. A move that is not possible changes
   nothing.
   */
  function Next(s: Sys, m: Move): Sys {
    if !Can(s, m) then s else
    match m
    case Ingress(op) => s.(tables := Step(s.tables, op))
    case RecoverOwed(now) => s.(tables := Recover(s.tables, now), needsRecovery := false)
    case ClaimWork(op) =>
      var t := Step(s.tables, op);
      if op.Claim? && Take(Expire(s.tables, op.now), op.item, op.id, op.now).Some?
      then Sys(t, false, Executing(Take(Expire(s.tables, op.now), op.item, op.id, op.now).value.1))
      else s.(tables := t)
    case FinishWork(outcome, stored, now) =>
      var r := Complete(s.tables, s.phase.attempt, outcome, now);
      if stored && r.Some? then Sys(r.value, s.needsRecovery, Idle) else Sys(s.tables, true, Reconciling)
    case Reconcile(recovers, now) =>
      if recovers then Sys(Recover(s.tables, now), false, Idle) else s.(phase := Idle)
    case Crash => Sys(s.tables, false, Down)
    case Restart(now) => Sys(Recover(s.tables, now), false, Idle)
  }

  const START := Sys(EMPTY, false, Down)

  ghost predicate Legal(s: Sys, run: seq<Move>)
    decreases |run|
  {
    run == [] || (Can(s, run[0]) && Legal(Next(s, run[0]), run[1..]))
  }

  ghost function Exec(s: Sys, run: seq<Move>): Sys
    decreases |run|
  {
    if run == [] then s else Exec(Next(s, run[0]), run[1..])
  }

  // ---------- the loop's own code ----------

  class Router {
    const store: LedgerStore.Store
    var needsRecovery: bool

    constructor (store: LedgerStore.Store)
      ensures this.store == store && !needsRecovery
    {
      this.store := store;
      needsRecovery := false;
    }

    /** The loop between two transactions. */
    ghost function S(phase: Phase): Sys
      reads this, store
    {
      Sys(store.T(), needsRecovery, phase)
    }

    /**
     The first half of a pass: an owed recovery and then a claim, as moves of the loop. A recovery that does not commit
     ends the pass with nothing changed.
     */
    method Begin(id: Id, recovers: bool, now: Time) returns (r: LedgerStore.ClaimResult, item: Id)
      modifies this, store
      ensures
        var s := old(S(Idle));
        if s.needsRecovery && !recovers then r == LedgerStore.Refused && S(Idle) == s
        else
          var v := if s.needsRecovery then Next(s, RecoverOwed(now)) else s;
          var m := ClaimWork(if r.NothingDue? then Sweep(now) else Claim(item, id, now));
          Can(v, m) && Next(v, m) == S(if r.Claimed? then Executing(r.attempt) else Idle)
    {
      if needsRecovery {
        if !recovers {
          return LedgerStore.Refused, 0;
        }
        store.RecoverInterrupted(now);
        needsRecovery := false;
      }
      r, item := store.ClaimNext(id, now);
    }

    /**
     The second half: settle the attempt or, failing that, recover the ledger or owe the recovery to the next pass.
     */
    method Finish(a: AttemptRef, outcome: Outcome, stored: bool, recovers: bool, now: Time) returns (ok: bool)
      modifies this, store
      ensures ok <==> stored && old(Complete(store.T(), a, outcome, now)).Some?
      ensures
        var v := Next(old(S(Executing(a))), FinishWork(outcome, stored, now));
        if ok then S(Idle) == v else Can(v, Reconcile(recovers, now)) && S(Idle) == Next(v, Reconcile(recovers, now))
    {
      ok := false;
      if stored {
        ok := store.CompleteAttempt(a, outcome, now);
      }
      if !ok {
        needsRecovery := true;
        if recovers {
          store.RecoverInterrupted(now);
          needsRecovery := false;
        }
      }
    }
  }

  // ---------- the loop owns whatever is running ----------

  ghost predicate Ok(s: Sys) {
    && TablesOk(s.tables)
    && match s.phase
       case Idle => !s.needsRecovery ==> L.RunningAttempts(s.tables) == {}
       case Executing(a) =>
         && !s.needsRecovery && L.RunningAttempts(s.tables) <= {a}
         && Has(s.tables, a) && a.item in s.tables.items
         && (At(s.tables, a).state == Running || s.tables.items[a.item].state == Superseded)
       case Reconciling => s.needsRecovery
       case Down => true
  }

  lemma NothingRunsAfterRecovery(t: Tables, now: Time)
    requires TablesOk(t)
    ensures TablesOk(Recover(t, now)) && L.RunningAttempts(Recover(t, now)) == {}
  {
    RecoverKeeps(t, now);
    var r := Recover(t, now);
    forall a | a in L.RunningAttempts(r)
      ensures false
    {
      L.LeaseOfAttempt(r, a);
    }
  }

  lemma AdmitStartsNothing(t: Tables, s: Id, e: Event, operation: Option<string>, target: Id, now: Time)
    ensures L.RunningAttempts(Commit(t, Admit(t, s, e, operation, target, now))) <= L.RunningAttempts(t)
  {
    L.AdmitShape(t, s, e, operation, target, now);
    if s in t.snapshots {
      InsertStartsNothing(t, s, e, target, now);
    }
  }

  predicate IsIngress(op: Op) {
    op.Admission? || op.Activation? || op.Retirement?
  }

  /** Ingress never starts an attempt. */
  lemma IngressStartsNothing(t: Tables, op: Op)
    requires IsIngress(op)
    ensures L.RunningAttempts(Step(t, op)) <= L.RunningAttempts(t)
  {
    if op.Admission? {
      AdmitStartsNothing(t, op.snapshot, op.event, op.operation, op.target, op.now);
    }
  }

  lemma InsertStartsNothing(t: Tables, s: Id, e: Event, newId: Id, now: Time)
    requires s in t.snapshots
    ensures L.RunningAttempts(Insert(t, s, e, newId, now)) <= L.RunningAttempts(t)
  {
    var added := t.(items := t.items[newId := NewItem(t, s, e, now)]);
    var u := Supersede(added, newId, now);
    forall a | a in L.RunningAttempts(u)
      ensures a in L.RunningAttempts(t)
    {
      assert a.item in t.attempts && a.number in t.attempts[a.item];
    }
  }

  /** Ingress keeps the executing attempt running unless it supersedes its item. */
  lemma IngressKeepsAttempt(t: Tables, op: Op, a: AttemptRef)
    requires IsIngress(op) && Has(t, a) && a.item in t.items
    requires At(t, a).state == Running || t.items[a.item].state == Superseded
    ensures
      var u := Step(t, op);
      Has(u, a) && a.item in u.items && (At(u, a).state == Running || u.items[a.item].state == Superseded)
  {
    if op.Admission? {
      L.AdmissionOf(t, op, a.item);
      L.AdmitShape(t, op.snapshot, op.event, op.operation, op.target, op.now);
    }
  }

  lemma IngressKeeps(s: Sys, m: Move)
    requires Ok(s) && Can(s, m) && m.Ingress?
    ensures Ok(Next(s, m))
  {
    StepKeeps(s.tables, m.op);
    IngressStartsNothing(s.tables, m.op);
    if s.phase.Executing? {
      IngressKeepsAttempt(s.tables, m.op, s.phase.attempt);
    }
  }

  /** A claim that succeeds starts exactly the attempt it returns. */
  lemma TakeStarts(t: Tables, i: Id, id: Id, now: Time)
    requires i in t.items && ItemOk(t, i) && Claimable(t, i, now) && Take(t, i, id, now).Some?
    ensures
      var (u, a) := Take(t, i, id, now).value;
      && L.RunningAttempts(u) == L.RunningAttempts(t) + {a} && a.item in u.items
      && Has(u, a) && At(u, a).state == Running
  {
    TakeResult(t, i, id, now);
    var (u, a) := Take(t, i, id, now).value;
    assert u.attempts == t.attempts[i := Book(t, i)[a.number := At(u, a)]];
    OneMoreRuns(t, u, a);
  }

  lemma OneMoreRuns(t: Tables, u: Tables, a: AttemptRef)
    requires Has(u, a) && At(u, a).state == Running
    requires u.attempts == t.attempts[a.item := Book(t, a.item)[a.number := At(u, a)]]
    ensures L.RunningAttempts(u) == L.RunningAttempts(t) + {a}
  {
    forall b
      ensures b in L.RunningAttempts(u) <==> b in L.RunningAttempts(t) || b == a
    {
      assert b.item != a.item ==> Book(u, b.item) == Book(t, b.item);
    }
  }

  lemma ClaimStarts(t: Tables, op: Op)
    requires TablesOk(t) && (op.Claim? || op.Sweep?) && Enabled(t, op)
    ensures
      var x := Expire(t, op.now);
      if op.Claim? && Take(x, op.item, op.id, op.now).Some?
      then
        var (u, a) := Take(x, op.item, op.id, op.now).value;
        && u == Step(t, op) && L.RunningAttempts(u) == L.RunningAttempts(t) + {a} && a.item in u.items
        && Has(u, a) && At(u, a).state == Running
      else L.RunningAttempts(Step(t, op)) == L.RunningAttempts(t)
  {
    var x := Expire(t, op.now);
    assert L.RunningAttempts(x) == L.RunningAttempts(t);
    if op.Claim? && Take(x, op.item, op.id, op.now).Some? {
      ExpireKeeps(t, op.now);
      TakeStarts(x, op.item, op.id, op.now);
    }
  }

  lemma SettledStops(t: Tables, a: AttemptRef, outcome: Outcome, now: Time)
    requires Complete(t, a, outcome, now).Some? && L.RunningAttempts(t) <= {a}
    ensures L.RunningAttempts(Complete(t, a, outcome, now).value) == {}
  {
    var u := Complete(t, a, outcome, now).value;
    assert u.attempts == t.attempts[a.item := Book(t, a.item)[a.number := At(u, a)]];
    assert forall b | b in L.RunningAttempts(u) :: b in L.RunningAttempts(t) && b != a;
  }

  lemma MoveKeeps(s: Sys, m: Move)
    requires Ok(s) && Can(s, m)
    ensures Ok(Next(s, m))
  {
    match m
    case Ingress(_) => IngressKeeps(s, m);
    case RecoverOwed(now) => NothingRunsAfterRecovery(s.tables, now);
    case ClaimWork(op) => StepKeeps(s.tables, op); ClaimStarts(s.tables, op);
    case FinishWork(outcome, stored, now) =>
      CompleteKeeps(s.tables, s.phase.attempt, outcome, now);
      if Complete(s.tables, s.phase.attempt, outcome, now).Some? {
        SettledStops(s.tables, s.phase.attempt, outcome, now);
      }
    case Reconcile(_, now) => NothingRunsAfterRecovery(s.tables, now);
    case Crash =>
    case Restart(now) => NothingRunsAfterRecovery(s.tables, now);
  }

  lemma {:induction false} RunKeeps(s: Sys, run: seq<Move>)
    requires Ok(s) && Legal(s, run)
    ensures Ok(Exec(s, run))
    decreases |run|
  {
    if run == [] {
    } else {
      MoveKeeps(s, run[0]);
      RunKeeps(Next(s, run[0]), run[1..]);
    }
  }

  /**
   However ingress, crashes and failing transactions interleave with the executor loop, a pass that claims work starts
   from a ledger in which nothing is running, and leaves exactly its own attempt running.
   */
  lemma ClaimsStartClean(run: seq<Move>, m: Move)
    requires Legal(START, run) && Can(Exec(START, run), m) && m.ClaimWork?
    ensures
      var s := Exec(START, run);
      var u := Next(s, m);
      && L.RunningAttempts(s.tables) == {}
      && (u.phase.Executing? ==> L.RunningAttempts(u.tables) == {u.phase.attempt})
  {
    RunKeeps(START, run);
    ClaimStarts(Exec(START, run).tables, m.op);
  }

  /**
   An outcome the ledger knows how to settle at `now`: a wait must come due later than now and before its deadline.
   */
  predicate WellFormed(outcome: Outcome, now: Time) {
    match outcome
    case StillWaiting(next, deadline) =>
      var due := if next.Some? then next.value else now + POLL_INTERVAL;
      now < due < if deadline.Some? then deadline.value else now + WAIT_DEADLINE
    case _ => !outcome.Unsupported?
  }

  /**
   The ledger refuses an outcome of the executing attempt if and only if it is not well-formed or newer work superseded
   its item.
   */
  lemma RefusedOnlyWhenSuperseded(run: seq<Move>, outcome: Outcome, now: Time)
    requires Legal(START, run) && Exec(START, run).phase.Executing?
    ensures
      var s := Exec(START, run);
      var a := s.phase.attempt;
      && a.item in s.tables.items
      && (Complete(s.tables, a, outcome, now).None?
         <==> !WellFormed(outcome, now) || s.tables.items[a.item].state == Superseded)
  {
    RunKeeps(START, run);
    var s := Exec(START, run);
    assert ItemOk(s.tables, s.phase.attempt.item);
  }
}
