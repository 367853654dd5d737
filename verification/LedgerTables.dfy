/**
 The work ledger: routes, work items, executor attempts and serialization leases, and the effect of every store
 transaction on them. `None` means that the transaction fails and rolls back.
 */
module LedgerTables {
  import opened Basics

  /** Generated identifiers: only their equality matters. */
  type Id = int

  // ---------- routes ----------

  datatype Scope = ByObject | ByNamespace | ByRoute

  datatype Admission = Admission(
    sources: seq<string>, namespaces: seq<string>, kinds: seq<string>, events: seq<string>, actions: seq<string>)
  {
    predicate Matches(e: Event) {
      && Allows(sources, e.source) && Allows(namespaces, e.namespace) && Allows(kinds, e.kind)
      && Allows(events, e.event) && Allows(actions, e.action)
    }
  }

  /** An empty list allows everything. */
  predicate Allows(allowed: seq<string>, value: string) {
    allowed == [] || value in allowed
  }

  datatype Definition = Definition(
    route: string, executor: string, admission: Admission, scope: Scope, supersede: bool,
    maxAttempts: int, backoff: seq<Time>)
  {
    predicate Valid() {
      && route != "" && executor != "" && admission.sources != [] && admission.kinds != [] && admission.events != []
      && 1 <= maxAttempts <= 10 && |backoff| == maxAttempts - 1
      && forall k | 0 <= k < |backoff| :: 0 < backoff[k] <= 24 * 60 * MINUTE
    }
  }

  datatype Snapshot = Snapshot(definition: Definition, digest: string, activated: Time, retired: Option<Time>)

  // ---------- events and work items ----------

  datatype Event = Event(
    source: string, namespace: string, kind: string, objectId: string, event: string, action: string, actor: string,
    revision: string, delivery: string, stream: string, sequence: nat, payload: string, evidence: string,
    hops: int, expires: Option<Time>)
  {
    predicate Complete() {
      && delivery != "" && stream != "" && sequence != 0 && namespace != "" && objectId != "" && revision != ""
      && payload != "" && evidence != ""
    }

    predicate Live(now: Time) { hops >= 0 && (expires.Some? ==> expires.value > now) }

    function Subject(): ObjectKey { ObjectKey(source, namespace, kind, objectId) }

    /** What the event digest covers. */
    function Digested(): Content {
      Content(source, namespace, kind, objectId, event, action, actor, revision, payload)
    }

    function Identity(): DeliveryKey { DeliveryKey(source, namespace, delivery) }
  }

  /** The text `<source>:<namespace>:<kind>:<id>`, taken to be injective. */
  datatype ObjectKey = ObjectKey(source: string, namespace: string, kind: string, objectId: string)

  datatype Content = Content(
    source: string, namespace: string, kind: string, objectId: string, event: string, action: string, actor: string,
    revision: string, payload: string)

  datatype DeliveryKey = DeliveryKey(source: string, namespace: string, delivery: string)

  datatype Receipt = Receipt(item: Id, content: Content, stream: string, sequence: nat)

  /** The texts `<route>:object:..`, `<route>:namespace:..` and `<route>:route`; a route id has no colon. */
  datatype LeaseKey = ObjectLease(route: string, objectKey: ObjectKey) | NamespaceLease(route: string,
      namespace: string) | RouteLease(route: string)

  function LeaseKeyOf(d: Definition, e: Event): LeaseKey {
    match d.scope
    case ByNamespace => NamespaceLease(d.route, e.namespace)
    case ByRoute => RouteLease(d.route)
    case ByObject => ObjectLease(d.route, e.Subject())
  }

  datatype WorkState = Observed | Admitted | Active | Waiting | Completed | Failed | Cancelled | Superseded | DeadLetter

  predicate Terminal(s: WorkState) {
    s.Completed? || s.Failed? || s.Cancelled? || s.Superseded? || s.DeadLetter?
  }

  /** `row` is SQLite's implicit row id: items are never deleted, so it grows with every insertion. */
  datatype Item = Item(
    snapshot: Id, route: string, objectKey: ObjectKey, revision: string, key: LeaseKey, state: WorkState, version: nat,
    supersededBy: Option<Id>, next: Option<Time>, deadline: Option<Time>, terminalAt: Option<Time>, created: Time,
        row: nat)

  datatype AttemptState =
    | Running | Recoverable | RetryScheduled | Succeeded | AttemptFailed | Interrupted | AttemptSuperseded

  predicate Open(s: AttemptState) {
    s.Running? || s.Recoverable? || s.RetryScheduled?
  }

  /** The text `executor:<item>:<digest>:<number>`. */
  datatype IdempotencyKey = IdempotencyKey(item: Id, digest: string, number: int)

  datatype Attempt = Attempt(id: Id, key: IdempotencyKey, executor: string, state: AttemptState, started: Time)

  /** `UNIQUE(work_item_id, attempt_number)`. */
  datatype AttemptRef = AttemptRef(item: Id, number: int)

  datatype Tables = Tables(
    snapshots: map<Id, Snapshot>, items: map<Id, Item>, attempts: map<Id, map<int, Attempt>>,
    leases: map<LeaseKey, AttemptRef>, receipts: map<DeliveryKey, Receipt>, operations: map<Id, string>)

  /** The attempts made on an item, by number. */
  function Book(t: Tables, i: Id): map<int, Attempt> {
    if i in t.attempts then t.attempts[i] else map[]
  }

  predicate Has(t: Tables, a: AttemptRef) {
    a.number in Book(t, a.item)
  }

  function At(t: Tables, a: AttemptRef): Attempt
    requires Has(t, a)
  {
    Book(t, a.item)[a.number]
  }

  function Put(t: Tables, a: AttemptRef, row: Attempt): map<Id, map<int, Attempt>> {
    t.attempts[a.item := Book(t, a.item)[a.number := row]]
  }

  predicate IdUsed(t: Tables, id: Id) {
    exists i | i in t.attempts :: exists n | n in t.attempts[i] :: t.attempts[i][n].id == id
  }

  // ---------- route activation ----------

  predicate ActiveSnapshot(t: Tables, s: Id) {
    s in t.snapshots && t.snapshots[s].retired.None?
  }

  predicate ActiveOn(t: Tables, s: Id, route: string) {
    ActiveSnapshot(t, s) && t.snapshots[s].definition.route == route
  }

  /** Activates a definition: an equal active snapshot is reused, any other one of the route is retired. */
  function Activate(t: Tables, s: Id, d: Definition, digest: string, now: Time): Option<Tables> {
    if !d.Valid() then None
    else if exists o | o in t.snapshots :: ActiveOn(t, o, d.route) && t.snapshots[o].digest == digest then Some(t)
    else if s in t.snapshots then None
    else if exists o | o in t.snapshots :: ActiveOn(t, o, d.route) && t.snapshots[o].activated > now then None
    else
      var others := map o | o in t.snapshots ::
        if ActiveOn(t, o, d.route) then t.snapshots[o].(retired := Some(now)) else t.snapshots[o];
      Some(t.(snapshots := others[s := Snapshot(d, digest, now, None)]))
  }

  function Retire(t: Tables, s: Id, now: Time): Option<Tables> {
    if !ActiveSnapshot(t, s) || now < t.snapshots[s].activated then None
    else Some(t.(snapshots := t.snapshots[s := t.snapshots[s].(retired := Some(now))]))
  }

  // ---------- admission ----------

  /** The items already admitted for this snapshot, object and revision. */
  function Twins(t: Tables, s: Id, e: Event): set<Id> {
    set i | i in t.items && t.items[i].snapshot == s && t.items[i].objectKey == e.Subject()
        && t.items[i].revision == e.revision
  }

  function LatestFirst(t: Tables): Id -> Rank {
    (i: Id) => if i in t.items then Rank(-t.items[i].created, 0, 0) else Rank(0, 0, 0)
  }

  function NewItem(t: Tables, s: Id, e: Event, now: Time): Item
    requires s in t.snapshots
  {
    var d := t.snapshots[s].definition;
    Item(s, d.route, e.Subject(), e.revision, LeaseKeyOf(d, e), Admitted, 1, None, Some(now), None, None, now,
        |t.items|)
  }

  /** The older unfinished work on the same object that a new item replaces. */
  predicate Replaces(items: map<Id, Item>, newer: Id, i: Id) {
    && newer in items && i in items && i != newer
    && items[i].route == items[newer].route && items[i].objectKey == items[newer].objectKey
    && !Terminal(items[i].state)
  }

  function SupersededBook(book: map<int, Attempt>): map<int, Attempt> {
    map n | n in book ::
      if Open(book[n].state) then book[n].(state := AttemptSuperseded) else book[n]
  }

  function SupersededAttempts(
    items: map<Id, Item>, attempts: map<Id, map<int, Attempt>>, newer: Id): map<Id, map<int, Attempt>> {
    map i | i in attempts :: if Replaces(items, newer, i) then SupersededBook(attempts[i]) else attempts[i]
  }

  function SupersededLeases(
    items: map<Id, Item>, leases: map<LeaseKey, AttemptRef>, newer: Id): map<LeaseKey, AttemptRef> {
    map k | k in leases && !Replaces(items, newer, leases[k].item) :: leases[k]
  }

  function SupersededItems(items: map<Id, Item>, newer: Id, now: Time): map<Id, Item> {
    map i | i in items ::
      if Replaces(items, newer, i)
      then items[i].(state := Superseded, version := items[i].version + 1, supersededBy := Some(newer),
                     terminalAt := Some(now), next := None)
      else items[i]
  }

  function Supersede(t: Tables, newer: Id, now: Time): Tables {
    t.(attempts := SupersededAttempts(t.items, t.attempts, newer), leases := SupersededLeases(t.items, t.leases, newer),
       items := SupersededItems(t.items, newer, now))
  }

  function Insert(t: Tables, s: Id, e: Event, newId: Id, now: Time): Tables
    requires s in t.snapshots
  {
    var u := t.(items := t.items[newId := NewItem(t, s, e, now)]);
    if t.snapshots[s].definition.supersede then Supersede(u, newId, now) else u
  }

  predicate OperationFits(t: Tables, i: Id, operation: Option<string>) {
    operation.Some? ==> i !in t.operations || t.operations[i] == operation.value
  }

  /** Binds the delivery (and the release operation, if any) to an item. */
  function Attach(t: Tables, i: Id, e: Event, operation: Option<string>): Option<Tables> {
    if !OperationFits(t, i, operation) then None
    else if exists k ::
        k in t.receipts && t.receipts[k].stream == e.stream && t.receipts[k].sequence == e.sequence then None
    else
      Some(t.(operations := if operation.Some? then t.operations[i := operation.value] else t.operations,
              receipts := t.receipts[e.Identity() := Receipt(i, e.Digested(), e.stream, e.sequence)]))
  }

  predicate Admissible(t: Tables, s: Id, e: Event, now: Time) {
    ActiveSnapshot(t, s) && t.snapshots[s].definition.admission.Matches(e) && e.Complete() && e.Live(now)
  }

  /** A redelivery must repeat the recorded content and operation. */
  predicate Redelivers(t: Tables, e: Event, operation: Option<string>)
    requires e.Identity() in t.receipts
  {
    var r := t.receipts[e.Identity()];
    r.content == e.Digested() && (operation.Some? ==> r.item in t.operations && t.operations[r.item] == operation.value)
  }

  /** `target` is the item the query finds, or else the id generated for a new one. */
  function AdmitFresh(t: Tables, s: Id, e: Event, operation: Option<string>, target: Id, now: Time): Option<Tables>
    requires s in t.snapshots
  {
    if Twins(t, s, e) != {} then
      (if IsFirst(Twins(t, s, e), LatestFirst(t), target) then Attach(t, target, e, operation) else None)
    else if target in t.items then None
    else Attach(Insert(t, s, e, target, now), target, e, operation)
  }

  function Admit(t: Tables, s: Id, e: Event, operation: Option<string>, target: Id, now: Time): Option<Tables> {
    if !Admissible(t, s, e, now) then None
    else if e.Identity() in t.receipts then (if Redelivers(t, e, operation) then Some(t) else None)
    else AdmitFresh(t, s, e, operation, target, now)
  }

  // ---------- claiming ----------

  predicate Overdue(item: Item, now: Time) {
    item.state == Waiting && item.deadline.Some? && item.deadline.value <= now
  }

  /** Waits past their deadline fail before anything is claimed. */
  function Expire(t: Tables, now: Time): Tables {
    t.(items := map i | i in t.items ::
         if Overdue(t.items[i], now)
         then t.items[i].(state := Failed, version := t.items[i].version + 1, terminalAt := Some(now), next := None)
         else t.items[i])
  }

  predicate Claimable(t: Tables, i: Id, now: Time) {
    && i in t.items && (t.items[i].state.Admitted? || t.items[i].state.Waiting?)
    && t.items[i].next.Some? && t.items[i].next.value <= now && t.items[i].key !in t.leases
  }

  function DueItems(t: Tables, now: Time): set<Id> {
    set i | i in t.items && Claimable(t, i, now)
  }

  function ItemRank(t: Tables): Id -> Rank {
    (i: Id) => if i in t.items && t.items[i].next.Some? then Rank(t.items[i].next.value, t.items[i].created, 0)
        else Rank(0, 0, 0)
  }

  function RecoverableOf(t: Tables, i: Id): set<int> {
    set n | n in Book(t, i) && Book(t, i)[n].state == Recoverable
  }

  predicate LeaseConflict(t: Tables, a: AttemptRef)
    requires a.item in t.items
  {
    t.items[a.item].key in t.leases || exists k :: k in t.leases && t.leases[k].item == a.item
  }

  function Lease(t: Tables, a: AttemptRef, row: Attempt): Tables
    requires a.item in t.items
  {
    var item := t.items[a.item];
    t.(attempts := Put(t, a, row), leases := t.leases[item.key := a],
       items := t.items[a.item := item.(state := Active, version := item.version + 1, next := None)])
  }

  /** Resumes the recoverable attempt with the highest number, under the same identity. */
  function TakeRecovered(t: Tables, a: AttemptRef, now: Time): Option<Tables>
    requires a.item in t.items && Has(t, a)
  {
    if LeaseConflict(t, a) then None
    else
      var u := Lease(t, a, At(t, a).(state := Running, started := now));
      Some(if t.items[a.item].state == Waiting then u else u.(items := t.items))
  }

  function TakeNew(t: Tables, i: Id, id: Id, now: Time): Option<Tables>
    requires i in t.items
  {
    var a := AttemptRef(i, |Book(t, i)| + 1);
    if t.items[i].snapshot !in t.snapshots || IdUsed(t, id) || Has(t, a) || LeaseConflict(t, a) then None
    else
      var s := t.snapshots[t.items[i].snapshot];
      Some(Lease(t, a, Attempt(id, IdempotencyKey(i, s.digest, a.number), s.definition.executor, Running, now)))
  }

  /** The attempt a claim of item `i` hands out, and the tables after it. */
  function Take(t: Tables, i: Id, id: Id, now: Time): Option<(Tables, AttemptRef)>
    requires i in t.items
  {
    var recoverable := RecoverableOf(t, i);
    if recoverable != {} then
      var a := AttemptRef(i, Highest(recoverable));
      var r := TakeRecovered(t, a, now);
      if r.Some? then Some((r.value, a)) else None
    else
      var r := TakeNew(t, i, id, now);
      if r.Some? then Some((r.value, AttemptRef(i, |Book(t, i)| + 1))) else None
  }

  function Highest(s: set<int>): (m: int)
    requires s != {}
    ensures m in s && forall x | x in s :: x <= m
  {
    HasHighest(s);
    var m :| m in s && forall x | x in s :: x <= m;
    m
  }

  lemma {:induction false} HasHighest(s: set<int>)
    requires s != {}
    ensures exists m :: m in s && forall x | x in s :: x <= m
  {
    var y := Member(s);
    var rest := s - {y};
    assert s == rest + {y};
    if rest == {} {
      assert y in s && forall x | x in s :: x <= y;
    } else {
      HasHighest(rest);
      var m :| m in rest && forall x | x in rest :: x <= m;
      var top := Max(m, y);
      assert top in s && forall x | x in s :: x <= top;
    }
  }

  // ---------- completing ----------

  const POLL_INTERVAL: Time := 5 * SECOND
  const WAIT_DEADLINE: Time := 30 * MINUTE

  datatype Outcome =
    | Done
    | PermanentFailure
    | RetryableFailure
    | StillWaiting(next: Option<Time>, deadline: Option<Time>)
    | Unsupported

  /** The states and schedule an outcome leads to. */
  datatype Verdict = Verdict(attempt: AttemptState, work: WorkState, next: Option<Time>, deadline: Option<Time>)

  function Judge(d: Definition, number: int, outcome: Outcome, now: Time): Option<Verdict>
    requires d.Valid() && number >= 1
  {
    match outcome
    case Done => Some(Verdict(Succeeded, Completed, None, None))
    case PermanentFailure => Some(Verdict(AttemptFailed, Failed, None, None))
    case RetryableFailure =>
      if number >= d.maxAttempts then Some(Verdict(AttemptFailed, DeadLetter, None, None))
      else Some(Verdict(RetryScheduled, Waiting, Some(now + d.backoff[number - 1]), None))
    case StillWaiting(next, deadline) =>
      var n := if next.Some? then next.value else now + POLL_INTERVAL;
      var dl := if deadline.Some? then deadline.value else now + WAIT_DEADLINE;
      if n <= now || dl <= n then None else Some(Verdict(RetryScheduled, Waiting, Some(n), Some(dl)))
    case Unsupported => None
  }

  function Unleased(leases: map<LeaseKey, AttemptRef>, a: AttemptRef): map<LeaseKey, AttemptRef> {
    map k | k in leases && leases[k] != a :: leases[k]
  }

  function Settle(t: Tables, a: AttemptRef, v: Verdict, now: Time): Tables
    requires a.item in t.items && Has(t, a)
  {
    var item := t.items[a.item];
    t.(attempts := Put(t, a, At(t, a).(state := v.attempt)),
       items := t.items[a.item := item.(state := v.work, version := item.version + 1, next := v.next,
                                        terminalAt := if v.work == Waiting then None else Some(now),
                                        deadline := if item.deadline.Some? then item.deadline else v.deadline)],
       leases := Unleased(t.leases, a))
  }

  predicate RouteKnown(t: Tables, i: Id) {
    i in t.items && t.items[i].snapshot in t.snapshots && t.snapshots[t.items[i].snapshot].definition.Valid()
  }

  function Complete(t: Tables, a: AttemptRef, outcome: Outcome, now: Time): Option<Tables> {
    if !Has(t, a) || At(t, a).state != Running || a.item !in t.items then None
    else if t.items[a.item].state == Superseded then
      Some(t.(attempts := Put(t, a, At(t, a).(state := AttemptSuperseded)), leases := Unleased(t.leases, a)))
    else if t.items[a.item].state != Active || !RouteKnown(t, a.item) || a.number < 1 then None
    else
      var v := Judge(t.snapshots[t.items[a.item].snapshot].definition, a.number, outcome, now);
      if v.None? then None else Some(Settle(t, a, v.value, now))
  }

  // ---------- waking and recovering ----------

  function WakeWaiting(t: Tables, i: Id, now: Time): Option<Tables> {
    if i !in t.items || t.items[i].state != Waiting || t.items[i].next.Some? then None
    else Some(t.(items := t.items[i := t.items[i].(next := Some(now), version := t.items[i].version + 1)]))
  }

  function RecoveredBook(t: Tables, i: Id): map<int, Attempt> {
    var book := Book(t, i);
    if i !in t.items then book
    else if t.items[i].state == Superseded then SupersededBook(book)
    else if t.items[i].state == Active then
      map n | n in book :: if book[n].state == Running then book[n].(state := Recoverable) else book[n]
    else book
  }

  /** After a crash: running attempts become recoverable, active items claimable, and all leases are dropped. */
  function Recover(t: Tables, now: Time): Tables {
    t.(attempts := map i | i in t.attempts :: RecoveredBook(t, i),
       items := map i | i in t.items ::
         if t.items[i].state == Active
         then t.items[i].(state := Waiting, version := t.items[i].version + 1, next := Some(now)) else t.items[i],
       leases := map[])
  }
}
