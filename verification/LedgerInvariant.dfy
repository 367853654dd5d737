/**
 The invariant that every ledger transaction keeps, in whatever order admissions, claims, completions and recoveries
 come.
 */
module LedgerInvariant {
  import opened Basics
  import opened LedgerTables

  // ---------- the transition system ----------

  datatype Op =
    | Activation(snapshot: Id, definition: Definition, digest: string, now: Time)
    | Retirement(snapshot: Id, now: Time)
    | Admission(snapshot: Id, event: Event, operation: Option<string>, target: Id, now: Time)
    | Claim(item: Id, id: Id, now: Time)
    | Sweep(now: Time)
    | Completion(attempt: AttemptRef, outcome: Outcome, now: Time)
    | Wake(item: Id, now: Time)
    | Recovery(now: Time)

  function Commit(t: Tables, r: Option<Tables>): Tables {
    if r.Some? then r.value else t
  }

  /** A claim takes the row that its query returns first; `Sweep` is a claim whose query returns nothing. */
  predicate Enabled(t: Tables, op: Op) {
    && (op.Claim? ==> var u := Expire(t, op.now); IsFirst(DueItems(u, op.now), ItemRank(u), op.item))
    && (op.Sweep? ==> DueItems(Expire(t, op.now), op.now) == {})
  }

  function ClaimItem(t: Tables, i: Id, id: Id, now: Time): Option<Tables>
    requires i in Expire(t, now).items
  {
    var r := Take(Expire(t, now), i, id, now);
    if r.Some? then Some(r.value.0) else None
  }

  /** An operation that is not enabled changes nothing. */
  function Step(t: Tables, op: Op): Tables {
    if !Enabled(t, op) then t else
    match op
    case Activation(s, d, digest, now) => Commit(t, Activate(t, s, d, digest, now))
    case Retirement(s, now) => Commit(t, Retire(t, s, now))
    case Admission(s, e, operation, target, now) => Commit(t, Admit(t, s, e, operation, target, now))
    case Claim(i, id, now) => Commit(t, ClaimItem(t, i, id, now))
    case Sweep(now) => Expire(t, now)
    case Completion(a, outcome, now) => Commit(t, Complete(t, a, outcome, now))
    case Wake(i, now) => Commit(t, WakeWaiting(t, i, now))
    case Recovery(now) => Recover(t, now)
  }

  const EMPTY := Tables(map[], map[], map[], map[], map[], map[])

  // ---------- the invariant ----------

  /** Attempts are numbered 1..n under the item's own idempotency keys, and only the last one may be live. */
  ghost predicate BookOk(i: Id, digest: string, book: map<int, Attempt>) {
    && (forall k: int :: k in book <==> 1 <= k <= |book|)
    && (forall k | k in book ::
          && book[k].key == IdempotencyKey(i, digest, k)
          && ((book[k].state.Running? || book[k].state.Recoverable?) ==> k == |book|))
  }

  predicate NoneRunning(book: map<int, Attempt>) {
    forall k | k in book :: book[k].state != Running
  }

  /** What an item's state says about its attempts, schedule and lease. */
  ghost predicate StateOk(i: Id, item: Item, book: map<int, Attempt>, leases: map<LeaseKey, AttemptRef>) {
    var n := |book|;
    match item.state
    case Admitted => book == map[] && item.next.Some? && item.deadline.None?
    case Waiting =>
      n in book && (book[n].state.RetryScheduled? || book[n].state.Recoverable?) && item.next.Some? && NoneRunning(book)
    case Active =>
      n in book && book[n].state == Running && item.next.None? && item.key in leases
          && leases[item.key] == AttemptRef(i, n)
    case Observed => false
    case Cancelled => false
    case _ => item.next.None? && item.terminalAt.Some? && NoneRunning(book)
  }

  /** An item that never waited has used at most its retries. */
  predicate RetriesOk(item: Item, book: map<int, Attempt>, maxAttempts: int) {
    item.deadline.None? ==>
      |book| <= maxAttempts
          && (item.state == Waiting && |book| in book && book[|book|].state == RetryScheduled ==> |book| < maxAttempts)
  }

  ghost predicate ItemOk(t: Tables, i: Id)
    requires i in t.items
  {
    && RouteKnown(t, i)
    && var s := t.snapshots[t.items[i].snapshot];
    && t.items[i].route == s.definition.route
    && BookOk(i, s.digest, Book(t, i))
    && StateOk(i, t.items[i], Book(t, i), t.leases)
    && RetriesOk(t.items[i], Book(t, i), s.definition.maxAttempts)
  }

  predicate LeaseOk(t: Tables, k: LeaseKey)
    requires k in t.leases
  {
    var i := t.leases[k].item;
    i in t.items && t.items[i].state == Active && t.items[i].key == k
  }

  ghost predicate TablesOk(t: Tables) {
    && t.attempts.Keys <= t.items.Keys
    && (forall i | i in t.items :: ItemOk(t, i))
    && (forall k | k in t.leases :: LeaseOk(t, k))
    && (forall s | s in t.snapshots :: t.snapshots[s].definition.Valid())
  }

  // ---------- one item at a time ----------

  /** Everything the invariant reads about `i` is the same. */
  predicate SameItem(t: Tables, u: Tables, i: Id) {
    && i in t.items && i in u.items && u.items[i] == t.items[i] && Book(u, i) == Book(t, i)
    && (t.items[i].key in t.leases && t.leases[t.items[i].key].item == i ==>
          t.items[i].key in u.leases && u.leases[t.items[i].key] == t.leases[t.items[i].key])
  }

  /** `u` writes item `i` only; its identity columns never change. */
  ghost predicate OnlyItem(t: Tables, u: Tables, i: Id) {
    && u.snapshots == t.snapshots && u.items.Keys == t.items.Keys && i in t.items
    && (forall j | j in t.items && j != i :: SameItem(t, u, j))
    && u.items[i] == t.items[i].(state := u.items[i].state, version := u.items[i].version, next := u.items[i].next,
                                 terminalAt := u.items[i].terminalAt, deadline := u.items[i].deadline)
    && (forall k | k in u.leases :: u.leases[k].item == i || (k in t.leases && u.leases[k] == t.leases[k]))
    && u.attempts.Keys <= t.attempts.Keys + {i}
  }

  lemma Localize(t: Tables, u: Tables, i: Id)
    requires TablesOk(t) && OnlyItem(t, u, i) && ItemOk(u, i)
    requires forall k | k in u.leases && u.leases[k].item == i :: LeaseOk(u, k)
    ensures TablesOk(u)
  {
    forall j | j in u.items && j != i
      ensures ItemOk(u, j)
    {
      assert ItemOk(t, j) && SameItem(t, u, j);
    }
    forall k | k in u.leases && u.leases[k].item != i
      ensures LeaseOk(u, k)
    {
      assert LeaseOk(t, k) && SameItem(t, u, u.leases[k].item);
    }
  }

  // ---------- every transaction keeps the invariant ----------

  /** Route activation, receipts and release operations do not touch the invariant. */
  lemma Unrelated(t: Tables, u: Tables)
    requires TablesOk(t) && u.items == t.items && u.attempts == t.attempts && u.leases == t.leases
             && t.snapshots.Keys <= u.snapshots.Keys
    requires forall s | s in u.snapshots ::
               && u.snapshots[s].definition.Valid()
               && (s in t.snapshots ==>
                  u.snapshots[s].definition == t.snapshots[s].definition
                      && u.snapshots[s].digest == t.snapshots[s].digest)
    ensures TablesOk(u)
  {
    forall i | i in u.items
      ensures ItemOk(u, i)
    {
      assert ItemOk(t, i);
      assert t.items[i].snapshot in u.snapshots.Keys;
    }
    forall k | k in u.leases
      ensures LeaseOk(u, k)
    {
      assert LeaseOk(t, k);
    }
  }

  lemma NewItemOk(t: Tables, s: Id, e: Event, newId: Id, now: Time)
    requires s in t.snapshots && t.snapshots[s].definition.Valid() && newId !in t.attempts
    ensures ItemOk(t.(items := t.items[newId := NewItem(t, s, e, now)]), newId)
  {
    assert Book(t.(items := t.items[newId := NewItem(t, s, e, now)]), newId) == map[];
  }

  lemma AddKeeps(t: Tables, s: Id, e: Event, newId: Id, now: Time)
    requires TablesOk(t) && s in t.snapshots && newId !in t.items
    ensures TablesOk(t.(items := t.items[newId := NewItem(t, s, e, now)]))
  {
    var u := t.(items := t.items[newId := NewItem(t, s, e, now)]);
    assert newId !in t.attempts.Keys;
    NewItemOk(t, s, e, newId, now);
    forall i | i in u.items && i != newId
      ensures ItemOk(u, i)
    {
      OldItemOk(t, u, newId, i);
    }
    forall k | k in u.leases
      ensures LeaseOk(u, k)
    {
      assert LeaseOk(t, k);
    }
  }

  lemma OldItemOk(t: Tables, u: Tables, newId: Id, i: Id)
    requires i in t.items && ItemOk(t, i) && newId in u.items && i != newId
             && u == t.(items := t.items[newId := u.items[newId]])
    ensures ItemOk(u, i)
  {
    assert Book(u, i) == Book(t, i);
  }

  lemma SupersededBookOk(i: Id, digest: string, book: map<int, Attempt>)
    requires BookOk(i, digest, book)
    ensures BookOk(i, digest, SupersededBook(book)) && NoneRunning(SupersededBook(book))
            && |SupersededBook(book)| == |book|
  {
    assert SupersededBook(book).Keys == book.Keys;
    assert |SupersededBook(book)| == |SupersededBook(book).Keys| == |book.Keys| == |book|;
  }

  lemma SupersedeItem(t: Tables, newer: Id, now: Time, i: Id)
    requires i in t.items && ItemOk(t, i)
    ensures i in Supersede(t, newer, now).items && ItemOk(Supersede(t, newer, now), i)
  {
    var u := Supersede(t, newer, now);
    if Replaces(t.items, newer, i) {
      SupersededBookOk(i, t.snapshots[t.items[i].snapshot].digest, Book(t, i));
      assert Book(u, i) == SupersededBook(Book(t, i));
    } else {
      assert Book(u, i) == Book(t, i);
    }
  }

  lemma SupersedeKeeps(t: Tables, newer: Id, now: Time)
    requires TablesOk(t) && newer in t.items
    ensures TablesOk(Supersede(t, newer, now))
  {
    var u := Supersede(t, newer, now);
    forall i | i in u.items
      ensures ItemOk(u, i)
    {
      SupersedeItem(t, newer, now, i);
    }
    forall k | k in u.leases
      ensures LeaseOk(u, k)
    {
      assert LeaseOk(t, k);
    }
  }

  lemma InsertKeeps(t: Tables, s: Id, e: Event, newId: Id, now: Time)
    requires TablesOk(t) && s in t.snapshots && newId !in t.items
    ensures TablesOk(Insert(t, s, e, newId, now))
  {
    AddKeeps(t, s, e, newId, now);
    SupersedeKeeps(t.(items := t.items[newId := NewItem(t, s, e, now)]), newId, now);
  }

  lemma AttachKeeps(t: Tables, i: Id, e: Event, operation: Option<string>)
    requires TablesOk(t) && Attach(t, i, e, operation).Some?
    ensures TablesOk(Attach(t, i, e, operation).value)
  {
    Unrelated(t, Attach(t, i, e, operation).value);
  }

  lemma AdmitKeeps(t: Tables, s: Id, e: Event, operation: Option<string>, target: Id, now: Time)
    requires TablesOk(t)
    ensures TablesOk(Commit(t, Admit(t, s, e, operation, target, now)))
  {
    var r := Admit(t, s, e, operation, target, now);
    if r.Some? && e.Identity() !in t.receipts {
      if Twins(t, s, e) != {} {
        AttachKeeps(t, target, e, operation);
      } else {
        InsertKeeps(t, s, e, target, now);
        AttachKeeps(Insert(t, s, e, target, now), target, e, operation);
      }
    }
  }

  lemma ActivateKeeps(t: Tables, s: Id, d: Definition, digest: string, now: Time)
    requires TablesOk(t)
    ensures TablesOk(Commit(t, Activate(t, s, d, digest, now)))
  {
    var r := Activate(t, s, d, digest, now);
    if r.Some? && r.value != t {
      Unrelated(t, r.value);
    }
  }

  lemma RetireKeeps(t: Tables, s: Id, now: Time)
    requires TablesOk(t)
    ensures TablesOk(Commit(t, Retire(t, s, now)))
  {
    var r := Retire(t, s, now);
    if r.Some? {
      forall o | o in r.value.snapshots
        ensures o in t.snapshots && r.value.snapshots[o].definition == t.snapshots[o].definition
        ensures r.value.snapshots[o].digest == t.snapshots[o].digest
      {}
      Unrelated(t, r.value);
    }
  }

  lemma ExpireKeeps(t: Tables, now: Time)
    requires TablesOk(t)
    ensures TablesOk(Expire(t, now))
  {
    var u := Expire(t, now);
    forall i | i in u.items
      ensures ItemOk(u, i)
    {
      assert ItemOk(t, i);
      assert Book(u, i) == Book(t, i);
    }
    forall k | k in u.leases
      ensures LeaseOk(u, k)
    {
      assert LeaseOk(t, k);
    }
  }

  /** In a consistent ledger a claim resumes the last attempt if it is recoverable, and otherwise opens the next one. */
  lemma TakeResult(t: Tables, i: Id, id: Id, now: Time)
    requires i in t.items && ItemOk(t, i) && Claimable(t, i, now) && Take(t, i, id, now).Some?
    ensures
      var (u, a) := Take(t, i, id, now).value;
      var book := Book(t, i);
      if |book| in book && book[|book|].state == Recoverable
      then a == AttemptRef(i, |book|) && u == Lease(t, a, book[|book|].(state := Running, started := now))
      else a == AttemptRef(i, |book| + 1) && TakeNew(t, i, id, now) == Some(u) && RecoverableOf(t, i) == {}
  {
    assert forall n | n in RecoverableOf(t, i) :: n == |Book(t, i)|;
    var n := |Book(t, i)|;
    if n in Book(t, i) && Book(t, i)[n].state == Recoverable {
      assert n in RecoverableOf(t, i);
      assert TakeRecovered(t, AttemptRef(i, n), now).Some?;
    }
  }

  /** The attempt row a claim may start: the recoverable one, or the next. */
  predicate Startable(t: Tables, i: Id, n: int, row: Attempt, now: Time)
    requires RouteKnown(t, i)
  {
    var book := Book(t, i);
    || (n == |book| && n in book && book[n].state == Recoverable && row == book[n].(state := Running, started := now))
    || (n == |book| + 1 && RecoverableOf(t, i) == {}
       && row.key == IdempotencyKey(i, t.snapshots[t.items[i].snapshot].digest, n))
  }

  lemma LeaseSelf(t: Tables, i: Id, n: int, row: Attempt, now: Time)
    requires i in t.items && ItemOk(t, i) && Claimable(t, i, now) && row.state == Running
             && Startable(t, i, n, row, now)
    ensures ItemOk(Lease(t, AttemptRef(i, n), row), i)
  {
    var u := Lease(t, AttemptRef(i, n), row);
    assert Book(u, i) == Book(t, i)[n := row];
    LeasedBook(t, i, n, row, now);
  }

  lemma LeasedBook(t: Tables, i: Id, n: int, row: Attempt, now: Time)
    requires i in t.items && ItemOk(t, i) && Claimable(t, i, now) && row.state == Running
             && Startable(t, i, n, row, now)
    ensures
      var book := Book(t, i)[n := row];
      && |book| == n && n in book && BookOk(i, t.snapshots[t.items[i].snapshot].digest, book)
      && (t.items[i].deadline.None? ==> n <= t.snapshots[t.items[i].snapshot].definition.maxAttempts)
  {
    var book := Book(t, i);
    assert |book[n := row]| == n;
    assert forall k | k in book && k != n :: k !in RecoverableOf(t, i);
  }

  lemma LeaseKeeps(t: Tables, a: AttemptRef, row: Attempt, now: Time)
    requires TablesOk(t) && Claimable(t, a.item, now) && row.state == Running
             && Startable(t, a.item, a.number, row, now)
    ensures TablesOk(Lease(t, a, row))
  {
    assert ItemOk(t, a.item);
    LeaseSelf(t, a.item, a.number, row, now);
    LeaseLocal(t, a, row, now);
    LeaseSound(t, a, row, now);
    Localize(t, Lease(t, a, row), a.item);
  }

  lemma ClaimKeeps(t: Tables, i: Id, id: Id, now: Time)
    requires TablesOk(t) && Claimable(Expire(t, now), i, now)
    ensures TablesOk(Commit(t, ClaimItem(t, i, id, now)))
  {
    ExpireKeeps(t, now);
    var x := Expire(t, now);
    if Take(x, i, id, now).Some? {
      assert ItemOk(x, i);
      TakeResult(x, i, id, now);
      var (u, a) := Take(x, i, id, now).value;
      LeaseKeeps(x, a, At(u, a), now);
    }
  }

  lemma LeaseLocal(t: Tables, a: AttemptRef, row: Attempt, now: Time)
    requires TablesOk(t) && Claimable(t, a.item, now)
    ensures OnlyItem(t, Lease(t, a, row), a.item)
  {
    var u := Lease(t, a, row);
    forall j | j in t.items && j != a.item
      ensures SameItem(t, u, j)
    {
      assert ItemOk(t, j);
    }
  }

  lemma LeaseSound(t: Tables, a: AttemptRef, row: Attempt, now: Time)
    requires TablesOk(t) && Claimable(t, a.item, now)
    ensures forall k | k in Lease(t, a, row).leases && Lease(t, a, row).leases[k].item == a.item ::
            LeaseOk(Lease(t, a, row), k)
  {
    var u := Lease(t, a, row);
    forall k | k in u.leases && u.leases[k].item == a.item
      ensures LeaseOk(u, k)
    {
      assert k in t.leases ==> LeaseOk(t, k);
    }
  }

  lemma SettleSelf(t: Tables, a: AttemptRef, outcome: Outcome, now: Time)
    requires a.item in t.items && ItemOk(t, a.item) && Has(t, a) && At(t, a).state == Running
             && t.items[a.item].state == Active
    requires Judge(t.snapshots[t.items[a.item].snapshot].definition, a.number, outcome, now).Some?
    ensures
      var v := Judge(t.snapshots[t.items[a.item].snapshot].definition, a.number, outcome, now).value;
      ItemOk(Settle(t, a, v, now), a.item)
  {
    var v := Judge(t.snapshots[t.items[a.item].snapshot].definition, a.number, outcome, now).value;
    var u := Settle(t, a, v, now);
    assert Book(u, a.item) == Book(t, a.item)[a.number := At(u, a)];
    assert |Book(u, a.item)| == |Book(t, a.item)|;
  }

  lemma SettleLocal(t: Tables, a: AttemptRef, v: Verdict, now: Time)
    requires TablesOk(t) && a.item in t.items && Has(t, a) && At(t, a).state == Running
             && t.items[a.item].state == Active
    ensures OnlyItem(t, Settle(t, a, v, now), a.item)
    ensures forall k | k in Settle(t, a, v, now).leases :: Settle(t, a, v, now).leases[k].item != a.item
  {
    assert ItemOk(t, a.item);
    var u := Settle(t, a, v, now);
    forall k | k in u.leases
      ensures u.leases[k].item != a.item
    {
      assert LeaseOk(t, k);
    }
    forall j | j in t.items && j != a.item
      ensures SameItem(t, u, j)
    {
      assert Book(u, j) == Book(t, j);
    }
  }

  lemma CompleteKeeps(t: Tables, a: AttemptRef, outcome: Outcome, now: Time)
    requires TablesOk(t)
    ensures TablesOk(Commit(t, Complete(t, a, outcome, now)))
  {
    var r := Complete(t, a, outcome, now);
    if r.Some? {
      assert ItemOk(t, a.item);
      var v := Judge(t.snapshots[t.items[a.item].snapshot].definition, a.number, outcome, now);
      SettleSelf(t, a, outcome, now);
      SettleLocal(t, a, v.value, now);
      Localize(t, r.value, a.item);
    }
  }

  lemma RecoverItem(t: Tables, now: Time, i: Id)
    requires i in t.items && ItemOk(t, i)
    ensures i in Recover(t, now).items && ItemOk(Recover(t, now), i)
  {
    var u := Recover(t, now);
    var digest := t.snapshots[t.items[i].snapshot].digest;
    if t.items[i].state == Superseded {
      SupersededBookOk(i, digest, Book(t, i));
    }
    assert Book(u, i) == RecoveredBook(t, i);
    assert RecoveredBook(t, i).Keys == Book(t, i).Keys;
    assert |RecoveredBook(t, i)| == |RecoveredBook(t, i).Keys| == |Book(t, i).Keys| == |Book(t, i)|;
  }

  lemma RecoverKeeps(t: Tables, now: Time)
    requires TablesOk(t)
    ensures TablesOk(Recover(t, now))
  {
    var u := Recover(t, now);
    forall i | i in u.items
      ensures ItemOk(u, i)
    {
      RecoverItem(t, now, i);
    }
  }

  /** Every waiting item has a next attempt time, so an explicit wake-up never finds anything to do. */
  lemma WakeNeverApplies(t: Tables, i: Id, now: Time)
    requires TablesOk(t)
    ensures WakeWaiting(t, i, now).None?
  {
    if i in t.items {
      assert ItemOk(t, i);
    }
  }

  /** The invariant is inductive over all interleavings. */
  lemma StepKeeps(t: Tables, op: Op)
    requires TablesOk(t) && Enabled(t, op)
    ensures TablesOk(Step(t, op))
  {
    match op
    case Activation(s, d, digest, now) => ActivateKeeps(t, s, d, digest, now);
    case Retirement(s, now) => RetireKeeps(t, s, now);
    case Admission(s, e, operation, target, now) => AdmitKeeps(t, s, e, operation, target, now);
    case Claim(i, id, now) => ClaimKeeps(t, i, id, now);
    case Sweep(now) => ExpireKeeps(t, now);
    case Completion(a, outcome, now) => CompleteKeeps(t, a, outcome, now);
    case Wake(i, now) => WakeNeverApplies(t, i, now);
    case Recovery(now) => RecoverKeeps(t, now);
  }
}
