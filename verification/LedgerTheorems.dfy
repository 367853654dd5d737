/** What holds over every run of the work ledger. */
module LedgerTheorems {
  import opened Basics
  import opened LedgerTables
  import opened LedgerInvariant

  ghost predicate Legal(t: Tables, run: seq<Op>)
    decreases |run|
  {
    run == [] || (Enabled(t, run[0]) && Legal(Step(t, run[0]), run[1..]))
  }

  ghost function Exec(t: Tables, run: seq<Op>): Tables
    decreases |run|
  {
    if run == [] then t else Exec(Step(t, run[0]), run[1..])
  }

  lemma {:induction false} RunKeeps(t: Tables, run: seq<Op>)
    requires TablesOk(t) && Legal(t, run)
    ensures TablesOk(Exec(t, run))
    decreases |run|
  {
    if run == [] {
    } else {
      StepKeeps(t, run[0]);
      RunKeeps(Step(t, run[0]), run[1..]);
    }
  }

  // ---------- mutual exclusion ----------

  function ActiveItems(t: Tables): set<Id> {
    set i | i in t.items && t.items[i].state == Active
  }

  function RunningAttempts(t: Tables): set<AttemptRef> {
    set i, n | i in t.attempts && n in t.attempts[i] && t.attempts[i][n].state == Running :: AttemptRef(i, n)
  }

  function LeasedItems(t: Tables): set<Id> {
    set k | k in t.leases :: t.leases[k].item
  }

  lemma LeaseOfItem(t: Tables, i: Id)
    requires TablesOk(t) && i in t.items
    ensures i in LeasedItems(t) <==> t.items[i].state == Active
    ensures t.items[i].state == Active ==>
            t.items[i].key in t.leases && t.leases[t.items[i].key] == AttemptRef(i, |Book(t, i)|)
  {
    assert ItemOk(t, i);
    if i in LeasedItems(t) {
      var k :| k in t.leases && t.leases[k].item == i;
      assert LeaseOk(t, k);
    }
    if t.items[i].state == Active {
      assert t.leases[t.items[i].key].item == i;
    }
  }

  lemma LeaseOfAttempt(t: Tables, a: AttemptRef)
    requires TablesOk(t)
    ensures a in RunningAttempts(t) <==> a in t.leases.Values
    ensures a in RunningAttempts(t) ==> a.item in t.items && a.number == |Book(t, a.item)|
  {
    if a in RunningAttempts(t) {
      assert a.item in t.attempts.Keys && ItemOk(t, a.item);
      assert t.leases[t.items[a.item].key] == a;
    }
    if a in t.leases.Values {
      var k :| k in t.leases && t.leases[k] == a;
      assert LeaseOk(t, k) && ItemOk(t, a.item);
      assert a.item in t.attempts;
    }
  }

  lemma KeysAreUnique(t: Tables)
    requires TablesOk(t)
    ensures LeasedItems(t) == ActiveItems(t)
    ensures forall i, j | i in ActiveItems(t) && j in ActiveItems(t) && t.items[i].key == t.items[j].key :: i == j
  {
    forall k | k in t.leases
      ensures t.leases[k].item in t.items
    {
      assert LeaseOk(t, k);
    }
    forall i | i in t.items
      ensures i in LeasedItems(t) <==> t.items[i].state == Active
      ensures t.items[i].state == Active ==> t.leases[t.items[i].key].item == i
    {
      LeaseOfItem(t, i);
    }
  }

  /**
   Under any interleaving of admissions (superseding or not), claims, completions and recoveries, leases, active items
   and running attempts correspond one to one, so two active items never share a serialization key.
   */
  lemma LeasesAreExclusive(run: seq<Op>)
    requires Legal(EMPTY, run)
    ensures
      var t := Exec(EMPTY, run);
      && LeasedItems(t) == ActiveItems(t) && t.leases.Values == RunningAttempts(t)
      && (forall k | k in t.leases :: t.leases[k].item in t.items && t.items[t.leases[k].item].key == k)
      && (forall i, j | i in ActiveItems(t) && j in ActiveItems(t) && t.items[i].key == t.items[j].key :: i == j)
      && (forall a, b | a in RunningAttempts(t) && b in RunningAttempts(t) && a.item == b.item :: a == b)
  {
    RunKeeps(EMPTY, run);
    var t := Exec(EMPTY, run);
    KeysAreUnique(t);
    forall a
      ensures a in RunningAttempts(t) <==> a in t.leases.Values
      ensures a in RunningAttempts(t) ==> a.number == |Book(t, a.item)|
    {
      LeaseOfAttempt(t, a);
    }
    assert forall k | k in t.leases :: LeaseOk(t, k);
  }

  // ---------- crash recovery keeps identities ----------

  /** Item `i` waits for its last attempt to be resumed. */
  predicate Interrupted(t: Tables, i: Id) {
    && i in t.items && t.items[i].state == Waiting
    && |Book(t, i)| in Book(t, i) && Book(t, i)[|Book(t, i)|].state == Recoverable
  }

  predicate Finished(t: Tables, i: Id) {
    i in t.items && Terminal(t.items[i].state)
  }

  lemma TakeLeavesOthers(t: Tables, j: Id, id: Id, now: Time, i: Id)
    requires j in t.items && ItemOk(t, j) && Claimable(t, j, now) && Take(t, j, id, now).Some? && i in t.items && i != j
    ensures
      var u := Take(t, j, id, now).value.0;
      u.items.Keys == t.items.Keys && u.items[i] == t.items[i] && Book(u, i) == Book(t, i)
  {
    TakeResult(t, j, id, now);
  }

  /** A claim leaves any other item alone, or fails it because its deadline has passed. */
  lemma ClaimOfOther(t: Tables, op: Op, i: Id)
    requires TablesOk(t) && Enabled(t, op) && op.Claim? && op.item != i && i in t.items
    ensures i in Step(t, op).items && Book(Step(t, op), i) == Book(t, i)
    ensures Step(t, op).items[i] == t.items[i]
            || (Overdue(t.items[i], op.now) && Step(t, op).items[i] == Expire(t, op.now).items[i])
  {
    var x := Expire(t, op.now);
    assert Book(x, i) == Book(t, i);
    if Take(x, op.item, op.id, op.now).Some? {
      ExpireKeeps(t, op.now);
      TakeLeavesOthers(x, op.item, op.id, op.now, i);
    }
  }

  predicate StillInterrupted(t: Tables, u: Tables, i: Id) {
    Finished(u, i) || (Interrupted(u, i) && Book(u, i) == Book(t, i))
  }

  lemma CompletionOfOther(t: Tables, a: AttemptRef, outcome: Outcome, now: Time, i: Id)
    requires i in t.items && (Has(t, a) && At(t, a).state == Running ==> a.item != i)
    ensures
      var u := Commit(t, Complete(t, a, outcome, now));
      i in u.items && u.items[i] == t.items[i] && Book(u, i) == Book(t, i)
  {}

  lemma RecoveryOfIdle(t: Tables, now: Time, i: Id)
    requires i in t.items && t.items[i].state != Active && t.items[i].state != Superseded
    ensures i in Recover(t, now).items && Recover(t, now).items[i] == t.items[i]
            && Book(Recover(t, now), i) == Book(t, i)
  {}

  lemma RoutesOnly(t: Tables, op: Op)
    requires op.Activation? || op.Retirement?
    ensures Step(t, op).items == t.items && Step(t, op).attempts == t.attempts
  {}

  lemma InterruptedStays(t: Tables, op: Op, i: Id)
    requires TablesOk(t) && Enabled(t, op) && Interrupted(t, i) && !(op.Claim? && op.item == i)
    ensures StillInterrupted(t, Step(t, op), i)
  {
    assert ItemOk(t, i);
    match op
    case Claim(_, _, _) => ClaimOfOther(t, op, i);
    case Admission(_, _, _, _, _) => AdmissionOf(t, op, i);
    case Completion(a, outcome, now) => CompletionOfOther(t, a, outcome, now, i);
    case Recovery(now) => RecoveryOfIdle(t, now, i);
    case Wake(j, now) => WakeNeverApplies(t, j, now);
    case Sweep(now) => assert Book(Expire(t, now), i) == Book(t, i);
    case _ => RoutesOnly(t, op);
  }

  predicate Spared(t: Tables, u: Tables, i: Id, newer: Id)
    requires i in t.items
  {
    && i in u.items
    && ((u.items[i] == t.items[i] && Book(u, i) == Book(t, i))
        || (!Terminal(t.items[i].state) && u.items[i].state == Superseded && u.items[i].supersededBy == Some(newer)
            && u.items[i].deadline == t.items[i].deadline))
  }

  lemma InsertOf(t: Tables, s: Id, e: Event, newId: Id, now: Time, i: Id)
    requires s in t.snapshots && newId !in t.items && i in t.items
    ensures Spared(t, Insert(t, s, e, newId, now), i, newId)
  {
    var u := t.(items := t.items[newId := NewItem(t, s, e, now)]);
    assert Book(u, i) == Book(t, i);
  }

  lemma AttachOf(t: Tables, j: Id, e: Event, operation: Option<string>)
    requires Attach(t, j, e, operation).Some?
    ensures
      var u := Attach(t, j, e, operation).value;
      u.items == t.items && u.attempts == t.attempts && u.snapshots == t.snapshots && u.leases == t.leases
  {}

  lemma AdmitShape(t: Tables, s: Id, e: Event, operation: Option<string>, target: Id, now: Time)
    ensures
      var u := Commit(t, Admit(t, s, e, operation, target, now));
      && u.snapshots == t.snapshots
      && (|| (u.items == t.items && u.attempts == t.attempts)
          || (&& s in t.snapshots && target !in t.items && Twins(t, s, e) == {}
              && u.items == Insert(t, s, e, target, now).items && u.attempts == Insert(t, s, e, target, now).attempts))
  {
    if Admit(t, s, e, operation, target, now).Some? && e.Identity() !in t.receipts {
      if Twins(t, s, e) != {} {
        AttachOf(t, target, e, operation);
      } else {
        AttachOf(Insert(t, s, e, target, now), target, e, operation);
      }
    }
  }

  /** An admission leaves an existing item alone or supersedes it. */
  lemma AdmissionOf(t: Tables, op: Op, i: Id)
    requires op.Admission? && i in t.items
    ensures Spared(t, Step(t, op), i, op.target)
  {
    AdmitShape(t, op.snapshot, op.event, op.operation, op.target, op.now);
    if op.snapshot in t.snapshots && op.target !in t.items {
      InsertOf(t, op.snapshot, op.event, op.target, op.now, i);
    }
  }

  lemma {:induction false} InterruptedUntilClaimed(t: Tables, run: seq<Op>, i: Id)
    requires TablesOk(t) && Legal(t, run) && (forall k | 0 <= k < |run| :: !(run[k].Claim? && run[k].item == i))
    requires Finished(t, i) || Interrupted(t, i)
    ensures
      var u := Exec(t, run);
      Finished(u, i) || (Interrupted(t, i) && Interrupted(u, i) && Book(u, i) == Book(t, i))
    decreases |run|
  {
    if run == [] {
    } else {
      StepKeeps(t, run[0]);
      if Finished(t, i) {
        FinishedStays(t, run[0], i);
      } else {
        InterruptedStays(t, run[0], i);
      }
      InterruptedUntilClaimed(Step(t, run[0]), run[1..], i);
    }
  }

  /**
   Crash recovery never mints a new identity: take any ledger in which item `i` is being executed as attempt `n`,
   recover, and let anything but a claim of `i` happen. Unless the item was finished meanwhile, the next claim of it
   hands out attempt `n` again, with the same id and idempotency key, and makes no new attempt.
   */
  lemma RecoveryKeepsIdentity(before: seq<Op>, i: Id, recoveredAt: Time, between: seq<Op>, id: Id, now: Time)
    requires Legal(EMPTY, before)
    requires
      var t := Exec(EMPTY, before);
      i in t.items && t.items[i].state == Active && Legal(Recover(t, recoveredAt), between)
    requires forall k | 0 <= k < |between| :: !(between[k].Claim? && between[k].item == i)
    requires
      var u := Exec(Recover(Exec(EMPTY, before), recoveredAt), between);
      Claimable(Expire(u, now), i, now) && Take(Expire(u, now), i, id, now).Some?
    ensures
      var t := Exec(EMPTY, before);
      var u := Exec(Recover(t, recoveredAt), between);
      var (v, a) := Take(Expire(u, now), i, id, now).value;
      && a.item == i && Has(t, a) && At(t, a).state == Running
      && At(v, a) == At(t, a).(state := Running, started := now) && Book(v, i).Keys == Book(t, i).Keys
  {
    RunKeeps(EMPTY, before);
    var t := Exec(EMPTY, before);
    RecoverKeeps(t, recoveredAt);
    assert ItemOk(t, i);
    RecoveryInterrupts(t, recoveredAt, i);
    ResumedAfter(Recover(t, recoveredAt), i, between, id, now);
  }

  lemma ResumedAfter(r: Tables, i: Id, between: seq<Op>, id: Id, now: Time)
    requires TablesOk(r) && Interrupted(r, i) && Legal(r, between)
    requires forall k | 0 <= k < |between| :: !(between[k].Claim? && between[k].item == i)
    requires Claimable(Expire(Exec(r, between), now), i, now) && Take(Expire(Exec(r, between), now), i, id, now).Some?
    ensures
      var n := |Book(r, i)|;
      var (v, a) := Take(Expire(Exec(r, between), now), i, id, now).value;
      a == AttemptRef(i, n) && Book(v, i) == Book(r, i)[n := Book(r, i)[n].(state := Running, started := now)]
  {
    InterruptedUntilClaimed(r, between, i);
    RunKeeps(r, between);
    var u := Exec(r, between);
    ExpireKeeps(u, now);
    var x := Expire(u, now);
    assert ItemOk(x, i) && Book(x, i) == Book(u, i);
    ClaimResumes(x, i, id, now);
  }

  lemma RecoveryInterrupts(t: Tables, now: Time, i: Id)
    requires i in t.items && ItemOk(t, i) && t.items[i].state == Active
    ensures
      var r := Recover(t, now);
      var n := |Book(t, i)|;
      && n in Book(t, i) && Book(t, i)[n].state == Running
      && Book(r, i) == Book(t, i)[n := Book(t, i)[n].(state := Recoverable)] && Interrupted(r, i)
  {
    var n := |Book(t, i)|;
    var r := Recover(t, now);
    var after := Book(t, i)[n := Book(t, i)[n].(state := Recoverable)];
    assert Book(r, i) == RecoveredBook(t, i);
    assert forall k | k in Book(t, i) :: Book(t, i)[k].state == Running ==> k == n;
    assert RecoveredBook(t, i) == after;
    assert |after| == n;
  }

  lemma ClaimResumes(t: Tables, i: Id, id: Id, now: Time)
    requires i in t.items && ItemOk(t, i) && Interrupted(t, i) && Claimable(t, i, now) && Take(t, i, id, now).Some?
    ensures
      var n := |Book(t, i)|;
      var (v, a) := Take(t, i, id, now).value;
      a == AttemptRef(i, n) && Book(v, i) == Book(t, i)[n := Book(t, i)[n].(state := Running, started := now)]
  {
    TakeResult(t, i, id, now);
  }

  // ---------- terminal states are absorbing ----------

  lemma FinishedStays(t: Tables, op: Op, i: Id)
    requires TablesOk(t) && Enabled(t, op) && Finished(t, i)
    ensures i in Step(t, op).items && Step(t, op).items[i] == t.items[i]
  {
    assert ItemOk(t, i);
    match op
    case Claim(j, _, now) =>
      if j != i {
        ClaimOfOther(t, op, i);
      }
    case Admission(_, _, _, _, _) => AdmissionOf(t, op, i);
    case Completion(a, outcome, now) => CompletionOfOther(t, a, outcome, now, i);
    case Recovery(now) =>
    case Wake(j, now) => WakeNeverApplies(t, j, now);
    case Sweep(now) => assert Expire(t, now).items[i] == t.items[i];
    case _ => RoutesOnly(t, op);
  }

  lemma {:induction false} TerminalIsFinal(t: Tables, run: seq<Op>, i: Id)
    requires TablesOk(t) && Legal(t, run) && Finished(t, i)
    ensures i in Exec(t, run).items && Exec(t, run).items[i] == t.items[i]
    decreases |run|
  {
    if run == [] {
    } else {
      FinishedStays(t, run[0], i);
      StepKeeps(t, run[0]);
      TerminalIsFinal(Step(t, run[0]), run[1..], i);
    }
  }

  // ---------- retries and waits are bounded ----------

  /** The step reports a wait of item `i`. */
  predicate ReportsWait(op: Op, i: Id) {
    op.Completion? && op.attempt.item == i && op.outcome.StillWaiting?
  }

  predicate NeverWaits(run: seq<Op>, i: Id) {
    forall k | 0 <= k < |run| :: !ReportsWait(run[k], i)
  }

  predicate NoDeadline(t: Tables, i: Id) {
    i in t.items ==> t.items[i].deadline.None?
  }

  lemma CompletionSetsNone(t: Tables, a: AttemptRef, outcome: Outcome, now: Time, i: Id)
    requires NoDeadline(t, i) && (a.item == i ==> !outcome.StillWaiting?)
    ensures NoDeadline(Commit(t, Complete(t, a, outcome, now)), i)
  {}

  lemma AdmissionSetsNone(t: Tables, op: Op, i: Id)
    requires TablesOk(t) && Enabled(t, op) && op.Admission? && NoDeadline(t, i)
    ensures NoDeadline(Step(t, op), i)
  {
    if i in t.items {
      AdmissionOf(t, op, i);
    }
  }

  lemma ClaimSetsNone(t: Tables, op: Op, i: Id)
    requires TablesOk(t) && Enabled(t, op) && op.Claim? && NoDeadline(t, i)
    ensures NoDeadline(Step(t, op), i)
  {
    if op.item == i {
      OwnClaim(t, op);
    } else if i in t.items {
      ClaimOfOther(t, op, i);
    }
  }

  lemma NoDeadlineStep(t: Tables, op: Op, i: Id)
    requires TablesOk(t) && Enabled(t, op) && NoDeadline(t, i) && !ReportsWait(op, i)
    ensures NoDeadline(Step(t, op), i)
  {
    match op
    case Claim(_, _, _) => ClaimSetsNone(t, op, i);
    case Admission(_, _, _, _, _) => AdmissionSetsNone(t, op, i);
    case Completion(a, outcome, now) => CompletionSetsNone(t, a, outcome, now, i);
    case Recovery(now) =>
    case Wake(j, now) => WakeNeverApplies(t, j, now);
    case Sweep(now) =>
    case _ => RoutesOnly(t, op);
  }

  /** Without a waiting completion in the run an item has no wait deadline. */
  lemma {:induction false} OnlyWaitsSetDeadlines(t: Tables, run: seq<Op>, i: Id)
    requires TablesOk(t) && Legal(t, run) && NoDeadline(t, i) && NeverWaits(run, i)
    ensures NoDeadline(Exec(t, run), i)
    decreases |run|
  {
    if run == [] {
    } else {
      assert !ReportsWait(run[0], i);
      NoDeadlineStep(t, run[0], i);
      StepKeeps(t, run[0]);
      forall k | 0 <= k < |run[1..]|
        ensures !ReportsWait(run[1..][k], i)
      {
        assert run[1..][k] == run[k + 1];
      }
      OnlyWaitsSetDeadlines(Step(t, run[0]), run[1..], i);
    }
  }

  /**
   Every open item is scheduled, and one that no completion of the run reported as waiting has made at most
   `maxAttempts` attempts.
   */
  lemma RetriesAreBounded(run: seq<Op>, i: Id)
    requires Legal(EMPTY, run) && i in Exec(EMPTY, run).items
    ensures
      var t := Exec(EMPTY, run);
      var item := t.items[i];
      && item.snapshot in t.snapshots
      && (NeverWaits(run, i) || item.deadline.None? ==>
         |Book(t, i)| <= t.snapshots[item.snapshot].definition.maxAttempts)
      && (item.state.Admitted? || item.state.Waiting? ==> item.next.Some?)
      && (forall n :: n in Book(t, i) <==> 1 <= n <= |Book(t, i)|)
      && (forall n | n in Book(t, i) && (Book(t, i)[n].state.Running? || Book(t, i)[n].state.Recoverable?) ::
         n == |Book(t, i)|)
  {
    RunKeeps(EMPTY, run);
    assert ItemOk(Exec(EMPTY, run), i);
    if NeverWaits(run, i) {
      OnlyWaitsSetDeadlines(EMPTY, run, i);
    }
  }

  /** Only a waiting outcome sets the wait deadline, and only if there was none. */
  lemma DeadlineStep(t: Tables, op: Op, i: Id)
    requires TablesOk(t) && Enabled(t, op) && i in t.items && t.items[i].deadline.Some?
    ensures i in Step(t, op).items && Step(t, op).items[i].deadline == t.items[i].deadline
  {
    match op
    case Claim(j, _, _) =>
      if j != i {
        ClaimOfOther(t, op, i);
      } else {
        OwnClaim(t, op);
      }
    case Admission(_, _, _, _, _) => AdmissionOf(t, op, i);
    case Completion(a, outcome, now) => CompletionDeadline(t, a, outcome, now, i);
    case Recovery(now) =>
    case Wake(j, now) => WakeNeverApplies(t, j, now);
    case Sweep(now) =>
    case _ => RoutesOnly(t, op);
  }

  lemma CompletionDeadline(t: Tables, a: AttemptRef, outcome: Outcome, now: Time, i: Id)
    requires i in t.items && t.items[i].deadline.Some?
    ensures
      var u := Commit(t, Complete(t, a, outcome, now));
      i in u.items && u.items[i].deadline == t.items[i].deadline
  {}

  lemma OwnClaim(t: Tables, op: Op)
    requires TablesOk(t) && Enabled(t, op) && op.Claim?
    ensures op.item in t.items && op.item in Step(t, op).items
    ensures Step(t, op).items[op.item].deadline == t.items[op.item].deadline
    ensures Step(t, op).items[op.item].state == Active ==>
              t.items[op.item].deadline.None? || op.now < t.items[op.item].deadline.value
  {
    var x := Expire(t, op.now);
    ExpireKeeps(t, op.now);
    assert ItemOk(x, op.item) && ItemOk(t, op.item);
    if Take(x, op.item, op.id, op.now).Some? {
      TakeResult(x, op.item, op.id, op.now);
    }
  }

  lemma {:induction false} DeadlineIsFixed(t: Tables, run: seq<Op>, i: Id)
    requires TablesOk(t) && Legal(t, run) && i in t.items && t.items[i].deadline.Some?
    ensures i in Exec(t, run).items && Exec(t, run).items[i].deadline == t.items[i].deadline
    decreases |run|
  {
    if run == [] {
    } else {
      DeadlineStep(t, run[0], i);
      StepKeeps(t, run[0]);
      DeadlineIsFixed(Step(t, run[0]), run[1..], i);
    }
  }

  /** Once an item has a wait deadline, no later claim starts an attempt on it at or after that time. */
  lemma NoAttemptPastDeadline(before: seq<Op>, i: Id, deadline: Time, between: seq<Op>, claim: Op)
    requires Legal(EMPTY, before) && i in Exec(EMPTY, before).items
             && Exec(EMPTY, before).items[i].deadline == Some(deadline)
    requires Legal(Exec(EMPTY, before), between) && Enabled(Exec(Exec(EMPTY, before), between), claim)
    requires claim.Claim? && claim.item == i
    ensures
      var v := Step(Exec(Exec(EMPTY, before), between), claim);
      i in v.items && (v.items[i].state == Active ==> claim.now < deadline)
  {
    RunKeeps(EMPTY, before);
    var t := Exec(EMPTY, before);
    RunKeeps(t, between);
    DeadlineIsFixed(t, between, i);
    OwnClaim(Exec(t, between), claim);
  }

  // ---------- supersession ----------

  predicate SameTwin(a: Item, b: Item) {
    a.snapshot == b.snapshot && a.objectKey == b.objectKey && a.revision == b.revision
  }

  predicate SameSubject(a: Item, b: Item) {
    a.route == b.route && a.objectKey == b.objectKey
  }

  /** A superseded item names a newer item on the same route and object. */
  predicate SuccessorOk(t: Tables, i: Id)
    requires i in t.items
  {
    match t.items[i].supersededBy
    case None => t.items[i].state != Superseded
    case Some(j) =>
      t.items[i].state == Superseded && j in t.items && SameSubject(t.items[i], t.items[j])
          && t.items[i].row < t.items[j].row
  }

  ghost predicate HistoryOk(t: Tables) {
    && (forall i | i in t.items :: t.items[i].row < |t.items| && SuccessorOk(t, i))
    && (forall i, j | i in t.items && j in t.items && SameTwin(t.items[i], t.items[j]) :: i == j)
  }

  /** The columns that only an admission writes. */
  predicate SameHistory(a: Item, b: Item) {
    && SameTwin(a, b) && SameSubject(a, b) && a.row == b.row && a.key == b.key && a.supersededBy == b.supersededBy
    && (a.state == Superseded <==> b.state == Superseded)
  }

  lemma HistoryKept(t: Tables, u: Tables)
    requires HistoryOk(t) && u.items.Keys == t.items.Keys && forall i | i in t.items ::
             SameHistory(t.items[i], u.items[i])
    ensures HistoryOk(u)
  {
    assert |u.items| == |u.items.Keys| == |t.items.Keys| == |t.items|;
    forall i | i in u.items
      ensures SuccessorOk(u, i)
    {
      assert SuccessorOk(t, i) && SameHistory(t.items[i], u.items[i]);
    }
    forall i, j | i in u.items && j in u.items && SameTwin(u.items[i], u.items[j])
      ensures i == j
    {
      assert SameTwin(t.items[i], t.items[j]);
    }
  }

  lemma AddHistory(t: Tables, s: Id, e: Event, newId: Id, now: Time)
    requires HistoryOk(t) && s in t.snapshots && newId !in t.items && Twins(t, s, e) == {}
    ensures HistoryOk(t.(items := t.items[newId := NewItem(t, s, e, now)]))
  {
    var row := NewItem(t, s, e, now);
    var u := t.(items := t.items[newId := row]);
    assert |u.items| == |t.items| + 1;
    forall i | i in u.items
      ensures u.items[i].row < |u.items| && SuccessorOk(u, i)
    {
      assert i != newId ==> SuccessorOk(t, i);
    }
    forall i, j | i in u.items && j in u.items && SameTwin(u.items[i], u.items[j])
      ensures i == j
    {
      assert i in t.items ==> i !in Twins(t, s, e);
      assert j in t.items ==> j !in Twins(t, s, e);
    }
  }

  lemma SupersedeHistory(t: Tables, newer: Id, now: Time)
    requires HistoryOk(t) && newer in t.items && t.items[newer].state == Admitted
    requires forall i | i in t.items && i != newer :: t.items[i].row < t.items[newer].row
    ensures HistoryOk(Supersede(t, newer, now))
  {
    var u := Supersede(t, newer, now);
    assert u.items.Keys == t.items.Keys;
    assert |u.items| == |u.items.Keys| == |t.items.Keys| == |t.items|;
    forall i | i in u.items
      ensures SuccessorOk(u, i) && SameTwin(u.items[i], t.items[i]) && u.items[i].row == t.items[i].row
    {
      assert SuccessorOk(t, i);
    }
    forall i, j | i in u.items && j in u.items && SameTwin(u.items[i], u.items[j])
      ensures i == j
    {
      assert SameTwin(t.items[i], t.items[j]);
    }
  }

  lemma InsertHistory(t: Tables, s: Id, e: Event, newId: Id, now: Time)
    requires HistoryOk(t) && s in t.snapshots && newId !in t.items && Twins(t, s, e) == {}
    ensures HistoryOk(Insert(t, s, e, newId, now))
  {
    AddHistory(t, s, e, newId, now);
    SupersedeHistory(t.(items := t.items[newId := NewItem(t, s, e, now)]), newId, now);
  }

  lemma SameItemsHistory(t: Tables, u: Tables)
    requires HistoryOk(t) && u.items == t.items
    ensures HistoryOk(u)
  {
    HistoryKept(t, u);
  }

  lemma AdmitHistory(t: Tables, s: Id, e: Event, operation: Option<string>, target: Id, now: Time)
    requires HistoryOk(t)
    ensures HistoryOk(Commit(t, Admit(t, s, e, operation, target, now)))
  {
    AdmitShape(t, s, e, operation, target, now);
    var u := Commit(t, Admit(t, s, e, operation, target, now));
    if u.items == t.items {
      SameItemsHistory(t, u);
    } else {
      InsertHistory(t, s, e, target, now);
      SameItemsHistory(Insert(t, s, e, target, now), u);
    }
  }

  lemma StepHistory(t: Tables, op: Op)
    requires TablesOk(t) && HistoryOk(t) && Enabled(t, op)
    ensures HistoryOk(Step(t, op))
  {
    if op.Admission? {
      AdmitHistory(t, op.snapshot, op.event, op.operation, op.target, op.now);
    } else {
      NonAdmissionHistory(t, op, Step(t, op));
    }
  }

  lemma NonAdmissionHistory(t: Tables, op: Op, u: Tables)
    requires TablesOk(t) && HistoryOk(t) && Enabled(t, op) && !op.Admission? && u == Step(t, op)
    ensures HistoryOk(u)
  {
    forall i | i in t.items
      ensures u.items.Keys == t.items.Keys && SameHistory(t.items[i], u.items[i])
    {
      OtherStepHistory(t, op, i);
    }
    if t.items == map[] {
      NothingToClaim(t, op);
    }
    HistoryKept(t, u);
  }

  lemma NothingToClaim(t: Tables, op: Op)
    requires Enabled(t, op) && !op.Admission? && t.items == map[]
    ensures Step(t, op).items == map[]
  {}

  lemma TakeHistory(t: Tables, j: Id, id: Id, now: Time, i: Id)
    requires j in t.items && ItemOk(t, j) && Claimable(t, j, now) && Take(t, j, id, now).Some? && i in t.items
    ensures
      var u := Take(t, j, id, now).value.0;
      u.items.Keys == t.items.Keys && SameHistory(t.items[i], u.items[i])
  {
    TakeResult(t, j, id, now);
  }

  lemma ClaimHistory(t: Tables, op: Op, i: Id)
    requires TablesOk(t) && Enabled(t, op) && op.Claim? && i in t.items
    ensures Step(t, op).items.Keys == t.items.Keys && SameHistory(t.items[i], Step(t, op).items[i])
  {
    var x := Expire(t, op.now);
    assert x.items.Keys == t.items.Keys && SameHistory(t.items[i], x.items[i]);
    if Take(x, op.item, op.id, op.now).Some? {
      ExpireKeeps(t, op.now);
      TakeHistory(x, op.item, op.id, op.now, i);
    }
  }

  lemma CompleteHistory(t: Tables, a: AttemptRef, outcome: Outcome, now: Time, i: Id)
    requires i in t.items
    ensures
      var u := Commit(t, Complete(t, a, outcome, now));
      u.items.Keys == t.items.Keys && SameHistory(t.items[i], u.items[i])
  {
    var u := Complete(t, a, outcome, now);
    if u.Some? && u.value.items != t.items {
      var v := Judge(t.snapshots[t.items[a.item].snapshot].definition, a.number, outcome, now).value;
      SettleHistory(t, a, v, now, i);
    }
  }

  lemma SettleHistory(t: Tables, a: AttemptRef, v: Verdict, now: Time, i: Id)
    requires i in t.items && a.item in t.items && Has(t, a) && t.items[a.item].state == Active && v.work != Superseded
    ensures Settle(t, a, v, now).items.Keys == t.items.Keys && SameHistory(t.items[i], Settle(t, a, v, now).items[i])
  {}

  lemma OtherStepHistory(t: Tables, op: Op, i: Id)
    requires TablesOk(t) && Enabled(t, op) && !op.Admission? && i in t.items
    ensures Step(t, op).items.Keys == t.items.Keys && SameHistory(t.items[i], Step(t, op).items[i])
  {
    match op
    case Claim(_, _, _) => ClaimHistory(t, op, i);
    case Completion(a, outcome, now) => CompleteHistory(t, a, outcome, now, i);
    case Wake(j, now) => WakeNeverApplies(t, j, now);
    case Sweep(now) => assert SameHistory(t.items[i], Expire(t, now).items[i]);
    case Recovery(now) => assert SameHistory(t.items[i], Recover(t, now).items[i]);
    case _ => RoutesOnly(t, op);
  }

  lemma {:induction false} RunHistory(t: Tables, run: seq<Op>)
    requires TablesOk(t) && HistoryOk(t) && Legal(t, run)
    ensures HistoryOk(Exec(t, run))
    decreases |run|
  {
    if run == [] {
    } else {
      StepHistory(t, run[0]);
      StepKeeps(t, run[0]);
      RunHistory(Step(t, run[0]), run[1..]);
    }
  }

  /** Where the work on a superseded item went. */
  ghost function Follow(t: Tables, i: Id): Id
    requires HistoryOk(t) && i in t.items
    decreases |t.items| - t.items[i].row
  {
    if t.items[i].supersededBy.None? then i
    else
      assert SuccessorOk(t, i);
      Follow(t, t.items[i].supersededBy.value)
  }

  lemma {:induction false} FollowEnds(t: Tables, i: Id)
    requires HistoryOk(t) && i in t.items
    ensures
      var j := Follow(t, i);
      j in t.items && t.items[j].state != Superseded && SameSubject(t.items[i], t.items[j])
          && t.items[i].row <= t.items[j].row
    decreases |t.items| - t.items[i].row
  {
    assert SuccessorOk(t, i);
    if t.items[i].supersededBy.Some? {
      FollowEnds(t, t.items[i].supersededBy.value);
    }
  }

  /**
   After any run: one item per snapshot, object and revision; and following successors always ends at work that was not
   superseded.
   */
  lemma SupersessionLeadsSomewhere(run: seq<Op>, i: Id)
    requires Legal(EMPTY, run) && i in Exec(EMPTY, run).items
    ensures
      var t := Exec(EMPTY, run);
      && HistoryOk(t)
      && (forall j | j in t.items && SameTwin(t.items[i], t.items[j]) :: i == j)
      && var j := Follow(t, i);
      j in t.items && t.items[j].state != Superseded && SameSubject(t.items[i], t.items[j])
  {
    RunHistory(EMPTY, run);
    FollowEnds(Exec(EMPTY, run), i);
  }

  /**
   Right after a superseding admission creates an item, that item is the only unfinished work on its route and object.
   */
  lemma NewestStandsAlone(before: seq<Op>, admission: Op)
    requires Legal(EMPTY, before) && admission.Admission? && admission.snapshot in Exec(EMPTY, before).snapshots
    requires Exec(EMPTY, before).snapshots[admission.snapshot].definition.supersede
    requires
      var t := Exec(EMPTY, before);
      admission.target !in t.items && admission.target in Step(t, admission).items
    ensures
      var u := Step(Exec(EMPTY, before), admission);
      forall i | i in u.items && SameSubject(u.items[i], u.items[admission.target]) ::
        !Terminal(u.items[i].state) <==> i == admission.target
  {
    RunKeeps(EMPTY, before);
    var t := Exec(EMPTY, before);
    var u := Step(t, admission);
    var added := t.(items := t.items[admission.target :=
        NewItem(t, admission.snapshot, admission.event, admission.now)]);
    assert u.items == Supersede(added, admission.target, admission.now).items;
    forall i | i in u.items && SameSubject(u.items[i], u.items[admission.target])
      ensures !Terminal(u.items[i].state) <==> i == admission.target
    {
      assert i == admission.target || Replaces(added.items, admission.target, i) || Terminal(added.items[i].state);
    }
  }

  // ---------- what serialization means ----------

  /** The lease key that a route's scope gives to work on an object. */
  function KeyFor(d: Definition, o: ObjectKey): LeaseKey {
    match d.scope
    case ByObject => ObjectLease(d.route, o)
    case ByNamespace => NamespaceLease(d.route, o.namespace)
    case ByRoute => RouteLease(d.route)
  }

  predicate KeyOk(t: Tables, i: Id)
    requires i in t.items
  {
    var item := t.items[i];
    item.snapshot in t.snapshots && item.key == KeyFor(t.snapshots[item.snapshot].definition, item.objectKey)
  }

  lemma SnapshotsEndure(t: Tables, op: Op, s: Id)
    requires Enabled(t, op) && !op.Admission? && s in t.snapshots
    ensures s in Step(t, op).snapshots && Step(t, op).snapshots[s].definition == t.snapshots[s].definition
  {}

  predicate SameKey(a: Item, b: Item) {
    a.key == b.key && a.snapshot == b.snapshot && a.objectKey == b.objectKey
  }

  lemma InsertKeys(t: Tables, s: Id, e: Event, newId: Id, now: Time, i: Id)
    requires s in t.snapshots && newId !in t.items && i in Insert(t, s, e, newId, now).items
    ensures
      var row := Insert(t, s, e, newId, now).items[i];
      if i in t.items then SameKey(row, t.items[i])
      else row.snapshot == s && row.key == KeyFor(t.snapshots[s].definition, row.objectKey)
  {}

  lemma AdmitKeys(t: Tables, s: Id, e: Event, operation: Option<string>, target: Id, now: Time, i: Id)
    requires i in Commit(t, Admit(t, s, e, operation, target, now)).items && (i in t.items ==> KeyOk(t, i))
    ensures KeyOk(Commit(t, Admit(t, s, e, operation, target, now)), i)
  {
    AdmitShape(t, s, e, operation, target, now);
    if Commit(t, Admit(t, s, e, operation, target, now)).items != t.items {
      InsertKeys(t, s, e, target, now, i);
    }
  }

  lemma StepKeys(t: Tables, op: Op, i: Id)
    requires TablesOk(t) && Enabled(t, op) && i in Step(t, op).items && (i in t.items ==> KeyOk(t, i))
    ensures KeyOk(Step(t, op), i)
  {
    if op.Admission? {
      AdmitKeys(t, op.snapshot, op.event, op.operation, op.target, op.now, i);
    } else {
      NoNewItems(t, op, i);
      OtherStepHistory(t, op, i);
      SnapshotsEndure(t, op, t.items[i].snapshot);
    }
  }

  lemma NoNewItems(t: Tables, op: Op, i: Id)
    requires TablesOk(t) && Enabled(t, op) && !op.Admission? && i in Step(t, op).items
    ensures i in t.items
  {
    if j :| j in t.items {
      OtherStepHistory(t, op, j);
      assert i in t.items.Keys;
    } else {
      NothingToClaim(t, op);
    }
  }

  lemma {:induction false} RunKeys(t: Tables, run: seq<Op>)
    requires TablesOk(t) && Legal(t, run) && forall i | i in t.items :: KeyOk(t, i)
    ensures forall i | i in Exec(t, run).items :: KeyOk(Exec(t, run), i)
    decreases |run|
  {
    if run == [] {
    } else {
      forall i | i in Step(t, run[0]).items
        ensures KeyOk(Step(t, run[0]), i)
      {
        StepKeys(t, run[0], i);
      }
      StepKeeps(t, run[0]);
      RunKeys(Step(t, run[0]), run[1..]);
    }
  }

  /**
   At any moment, two different items being executed for one route under the same scope concern different objects; under
   a namespace scope they are in different namespaces; and under a route scope there are no two.
   */
  lemma ActiveWorkIsSerialized(run: seq<Op>, i: Id, j: Id)
    requires Legal(EMPTY, run) && i in ActiveItems(Exec(EMPTY, run)) && j in ActiveItems(Exec(EMPTY, run)) && i != j
    ensures
      var t := Exec(EMPTY, run);
      && t.items[i].snapshot in t.snapshots && t.items[j].snapshot in t.snapshots
      && var d, e := t.snapshots[t.items[i].snapshot].definition, t.snapshots[t.items[j].snapshot].definition;
      d.route == e.route && d.scope == e.scope ==>
        match d.scope
        case ByObject => t.items[i].objectKey != t.items[j].objectKey
        case ByNamespace => t.items[i].objectKey.namespace != t.items[j].objectKey.namespace
        case ByRoute => false
  {
    RunKeys(EMPTY, run);
    RunKeeps(EMPTY, run);
    KeysAreUnique(Exec(EMPTY, run));
    assert KeyOk(Exec(EMPTY, run), i) && KeyOk(Exec(EMPTY, run), j);
  }

  // ---------- what an outcome decides ----------

  /**
   The outcome of the running attempt decides the item's state, and a retry or wait its next time, exactly as the route
   says.
   */
  lemma OutcomeDecides(t: Tables, a: AttemptRef, outcome: Outcome, now: Time)
    requires TablesOk(t) && a.item in t.items && t.items[a.item].state == Active && Complete(t, a, outcome, now).Some?
    ensures
      var u := Complete(t, a, outcome, now).value;
      var item := t.items[a.item];
      && a.item in u.items && item.snapshot in t.snapshots && Has(u, a)
      && var d := t.snapshots[item.snapshot].definition;
      var after := u.items[a.item];
      && (after.state.Completed? <==> outcome.Done?) && (after.state.Failed? <==> outcome.PermanentFailure?)
      && (after.state.DeadLetter? <==> outcome.RetryableFailure? && a.number >= d.maxAttempts)
      && (after.state.Waiting? <==> (outcome.RetryableFailure? && a.number < d.maxAttempts) || outcome.StillWaiting?)
      && (after.state.Waiting? <==> after.next.Some?) && (after.next.Some? ==> after.next.value > now)
      && (outcome.RetryableFailure? && a.number < d.maxAttempts ==>
            0 <= a.number - 1 < |d.backoff| && after.next == Some(now + d.backoff[a.number - 1]))
      && (after.deadline.Some? && item.deadline.None? ==>
         outcome.StillWaiting? && after.deadline.value > after.next.value)
      && At(u, a).state != Running && a !in u.leases.Values
  {
    assert ItemOk(t, a.item);
  }

  // ---------- routes ----------

  predicate OneActive(t: Tables) {
    forall a, b | a in t.snapshots && b in t.snapshots && ActiveSnapshot(t, a)
        && ActiveOn(t, b, t.snapshots[a].definition.route) :: a == b
  }

  lemma SnapshotsUntouched(t: Tables, op: Op)
    requires Enabled(t, op) && !op.Activation? && !op.Retirement? && !op.Admission?
    ensures Step(t, op).snapshots == t.snapshots
  {
    if op.Completion? {
      CompleteSnapshots(t, op.attempt, op.outcome, op.now);
    }
  }

  lemma CompleteSnapshots(t: Tables, a: AttemptRef, outcome: Outcome, now: Time)
    ensures Commit(t, Complete(t, a, outcome, now)).snapshots == t.snapshots
  {}

  lemma StepRoutes(t: Tables, op: Op)
    requires Enabled(t, op) && OneActive(t)
    ensures OneActive(Step(t, op))
  {
    if op.Admission? {
      AdmitShape(t, op.snapshot, op.event, op.operation, op.target, op.now);
    } else if op.Activation? {
      ActivateRoutes(t, op.snapshot, op.definition, op.digest, op.now);
    } else if op.Retirement? {
      RetireRoutes(t, op.snapshot, op.now);
    } else {
      SnapshotsUntouched(t, op);
    }
  }

  lemma ActivateRoutes(t: Tables, s: Id, d: Definition, digest: string, now: Time)
    requires OneActive(t)
    ensures OneActive(Commit(t, Activate(t, s, d, digest, now)))
  {}

  lemma RetireRoutes(t: Tables, s: Id, now: Time)
    requires OneActive(t)
    ensures OneActive(Commit(t, Retire(t, s, now)))
  {}

  /** A route never has two active snapshots, whatever is activated and retired in whatever order. */
  lemma {:induction false} RoutesStayUnique(t: Tables, run: seq<Op>)
    requires OneActive(t) && Legal(t, run)
    ensures OneActive(Exec(t, run))
    decreases |run|
  {
    if run == [] {
    } else {
      StepRoutes(t, run[0]);
      RoutesStayUnique(Step(t, run[0]), run[1..]);
    }
  }
}
