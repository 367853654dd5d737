/** The work ledger's store: each method is one transaction over the tables it updates in place. */
module LedgerStore {
  import opened Basics
  import opened LedgerTables
  import opened LedgerInvariant

  predicate Committed(before: Tables, after: Tables, outcome: Option<Tables>, ok: bool) {
    ok == outcome.Some? && after == Commit(before, outcome)
  }

  datatype ClaimResult = Claimed(attempt: AttemptRef) | NothingDue | Refused

  /** What a claim may do: take the first due item, find nothing due, or fail without a trace. */
  predicate ClaimDid(before: Tables, after: Tables, item: Id, id: Id, now: Time, r: ClaimResult) {
    var x := Expire(before, now);
    match r
    case NothingDue => Enabled(before, Sweep(now)) && after == Step(before, Sweep(now))
    case Claimed(a) => Enabled(before, Claim(item, id, now)) && Take(x, item, id, now) == Some((after, a))
    case Refused => Enabled(before, Claim(item, id, now)) && Take(x, item, id, now).None? && after == before
  }

  class Store {
    var snapshots: map<Id, Snapshot>
    var items: map<Id, Item>
    var attempts: map<Id, map<int, Attempt>>
    var leases: map<LeaseKey, AttemptRef>
    var receipts: map<DeliveryKey, Receipt>
    var operations: map<Id, string>

    function T(): Tables
      reads this
    {
      Tables(snapshots, items, attempts, leases, receipts, operations)
    }

    constructor ()
      ensures T() == EMPTY
    {
      snapshots, items, attempts, leases, receipts, operations := map[], map[], map[], map[], map[], map[];
    }

    method SaveRoute(s: Id, d: Definition, digest: string, now: Time) returns (ok: bool)
      modifies this
      ensures Committed(old(T()), T(), old(Activate(T(), s, d, digest, now)), ok)
    {
      if !d.Valid() {
        return false;
      }
      if exists o | o in snapshots :: ActiveOn(T(), o, d.route) && snapshots[o].digest == digest {
        return true;
      }
      if s in snapshots || exists o | o in snapshots :: ActiveOn(T(), o, d.route) && snapshots[o].activated > now {
        return false;
      }
      snapshots := map o | o in snapshots ::
        if ActiveOn(T(), o, d.route) then snapshots[o].(retired := Some(now)) else snapshots[o];
      snapshots := snapshots[s := Snapshot(d, digest, now, None)];
      return true;
    }

    method RetireRoute(s: Id, now: Time) returns (ok: bool)
      modifies this`snapshots
      ensures Committed(old(T()), T(), old(Retire(T(), s, now)), ok)
    {
      if !ActiveSnapshot(T(), s) || now < snapshots[s].activated {
        return false;
      }
      snapshots := snapshots[s := snapshots[s].(retired := Some(now))];
      return true;
    }

    /** Replaces older unfinished work on the object: its attempts, then its leases, then the items themselves. */
    method SupersedeOlder(newer: Id, now: Time)
      modifies this`attempts, this`leases, this`items
      ensures T() == old(Supersede(T(), newer, now))
    {
      attempts := SupersededAttempts(items, attempts, newer);
      leases := SupersededLeases(items, leases, newer);
      items := SupersededItems(items, newer, now);
    }

    method InsertItem(s: Id, e: Event, newId: Id, now: Time)
      requires s in snapshots
      modifies this`attempts, this`leases, this`items
      ensures T() == old(Insert(T(), s, e, newId, now))
    {
      items := items[newId := NewItem(T(), s, e, now)];
      if snapshots[s].definition.supersede {
        SupersedeOlder(newId, now);
      }
    }

    method BindDelivery(i: Id, e: Event, operation: Option<string>) returns (ok: bool)
      modifies this`operations, this`receipts
      ensures Committed(old(T()), T(), old(Attach(T(), i, e, operation)), ok)
    {
      if !OperationFits(T(), i, operation)
         || exists k | k in receipts :: receipts[k].stream == e.stream && receipts[k].sequence == e.sequence {
        return false;
      }
      if operation.Some? {
        operations := operations[i := operation.value];
      }
      receipts := receipts[e.Identity() := Receipt(i, e.Digested(), e.stream, e.sequence)];
      return true;
    }

    /** Rolls back whatever it has written when the delivery or the release operation conflicts. */
    method AdmitFirstDelivery(s: Id, e: Event, operation: Option<string>, newId: Id, now: Time)
      returns (ok: bool, target: Id)
      requires s in snapshots
      modifies this
      ensures Committed(old(T()), T(), old(AdmitFresh(T(), s, e, operation, target, now)), ok)
      ensures target == newId || target in old(Twins(T(), s, e))
    {
      target := newId;
      var wasItems, wasAttempts, wasLeases := items, attempts, leases;
      var twins := Twins(T(), s, e);
      if twins != {} {
        target := QueryFirst(twins, LatestFirst(T()));
      } else if newId in items {
        return false, newId;
      } else {
        InsertItem(s, e, newId, now);
      }
      ok := BindDelivery(target, e, operation);
      if !ok {
        items, attempts, leases := wasItems, wasAttempts, wasLeases;
      }
    }

    method AdmitEvent(s: Id, e: Event, operation: Option<string>, newId: Id, now: Time) returns (ok: bool, target: Id)
      modifies this
      ensures Committed(old(T()), T(), old(Admit(T(), s, e, operation, target, now)), ok)
      ensures target == newId || target in old(Twins(T(), s, e))
    {
      if !Admissible(T(), s, e, now) {
        return false, newId;
      }
      if e.Identity() in receipts {
        return Redelivers(T(), e, operation), newId;
      }
      ok, target := AdmitFirstDelivery(s, e, operation, newId, now);
    }

    method Acquire(a: AttemptRef, row: Attempt)
      requires a.item in items
      modifies this`attempts, this`leases, this`items
      ensures T() == old(Lease(T(), a, row))
    {
      var item := items[a.item];
      attempts := Put(T(), a, row);
      leases := leases[item.key := a];
      items := items[a.item := item.(state := Active, version := item.version + 1, next := None)];
    }

    method TakeItem(i: Id, id: Id, now: Time) returns (r: ClaimResult)
      requires i in items
      modifies this`attempts, this`leases, this`items
      ensures !r.NothingDue?
      ensures r.Claimed? ==> old(Take(T(), i, id, now)) == Some((T(), r.attempt))
      ensures r.Refused? ==> old(Take(T(), i, id, now)).None? && T() == old(T())
    {
      var was := items;
      var recoverable := RecoverableOf(T(), i);
      if recoverable != {} {
        var a := AttemptRef(i, Highest(recoverable));
        if LeaseConflict(T(), a) {
          return Refused;
        }
        Acquire(a, At(T(), a).(state := Running, started := now));
        if was[i].state != Waiting {
          items := was;
        }
        return Claimed(a);
      }
      var a := AttemptRef(i, |Book(T(), i)| + 1);
      if items[i].snapshot !in snapshots || IdUsed(T(), id) || Has(T(), a) || LeaseConflict(T(), a) {
        return Refused;
      }
      var s := snapshots[items[i].snapshot];
      Acquire(a, Attempt(id, IdempotencyKey(i, s.digest, a.number), s.definition.executor, Running, now));
      return Claimed(a);
    }

    method ClaimNext(id: Id, now: Time) returns (r: ClaimResult, item: Id)
      modifies this
      ensures ClaimDid(old(T()), T(), item, id, now, r)
    {
      var was := items;
      items := Expire(T(), now).items;
      ghost var x := T();
      assert x == Expire(old(T()), now);
      var due := DueItems(T(), now);
      if due == {} {
        return NothingDue, 0;
      }
      item := QueryFirst(due, ItemRank(T()));
      r := TakeItem(item, id, now);
      if r.Refused? {
        items := was;
      }
    }

    method SettleAttempt(a: AttemptRef, v: Verdict, now: Time)
      requires a.item in items && Has(T(), a)
      modifies this`attempts, this`items, this`leases
      ensures T() == old(Settle(T(), a, v, now))
    {
      var item := items[a.item];
      attempts := Put(T(), a, At(T(), a).(state := v.attempt));
      items := items[a.item := item.(state := v.work, version := item.version + 1, next := v.next,
                                     terminalAt := if v.work == Waiting then None else Some(now),
                                     deadline := if item.deadline.Some? then item.deadline else v.deadline)];
      leases := Unleased(leases, a);
    }

    method CompleteAttempt(a: AttemptRef, outcome: Outcome, now: Time) returns (ok: bool)
      modifies this
      ensures Committed(old(T()), T(), old(Complete(T(), a, outcome, now)), ok)
    {
      if !Has(T(), a) || At(T(), a).state != Running || a.item !in items {
        return false;
      }
      if items[a.item].state == Superseded {
        attempts := Put(T(), a, At(T(), a).(state := AttemptSuperseded));
        leases := Unleased(leases, a);
        return true;
      }
      if items[a.item].state != Active || !RouteKnown(T(), a.item) || a.number < 1 {
        return false;
      }
      var v := Judge(snapshots[items[a.item].snapshot].definition, a.number, outcome, now);
      if v.None? {
        return false;
      }
      SettleAttempt(a, v.value, now);
      return true;
    }

    method WakeItem(i: Id, now: Time) returns (ok: bool)
      modifies this`items
      ensures Committed(old(T()), T(), old(WakeWaiting(T(), i, now)), ok)
    {
      if i !in items || items[i].state != Waiting || items[i].next.Some? {
        return false;
      }
      items := items[i := items[i].(next := Some(now), version := items[i].version + 1)];
      return true;
    }

    /** The attempts are rewritten while the items still say what was active; only then are the items. */
    method RecoverInterrupted(now: Time)
      modifies this
      ensures T() == old(Recover(T(), now))
    {
      ghost var t := T();
      attempts := map i | i in attempts :: RecoveredBook(T(), i);
      items := map i | i in items ::
        if items[i].state == Active
        then items[i].(state := Waiting, version := items[i].version + 1, next := Some(now)) else items[i];
      leases := map[];
      assert attempts == Recover(t, now).attempts;
    }
  }
}
