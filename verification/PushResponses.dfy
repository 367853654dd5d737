/** The push scanner's durable response queue: findings wait for the broker's response and are retried fairly. */
module PushResponses {
  import opened Basics

  /** Delivery ids, of which only the order matters. */
  type Id = int

  const BATCH := 64

  // ---------- rows ----------

  datatype Identity = Identity(repository: string, ref: string, before: string, after: string, head: Option<Time>,
      source: Option<Time>)

  /** The result columns that no update ever writes. */
  datatype Finding = Finding(
    id: string, severity: string, reason: string, fingerprint: string, profile: string, generation: int,
    worker: string, storage: string, session: string, lineage: string, fence: int)

  datatype Status = ResponsePending | Settled

  datatype Slo = NotApplicable | Awaiting | Met | Breached | NotLive

  datatype Row = Row(
    finding: Finding, status: Status, requested: Time, last: Option<Time>, attempts: nat, alert: Time,
    halted: Option<Time>, terminal: Time, deadline: Time, slo: Slo)
  {
    predicate Pending() { status.ResponsePending? }

    /** What the queue is sorted by. */
    function Key(): Time { if last.Some? then last.value else requested }
  }

  datatype Tables = Tables(receipts: map<Id, Identity>, rows: map<Id, Row>)

  // ---------- requests ----------

  datatype Action = HaltIssuance | FenceWorker

  datatype Request = Request(delivery: Id, identity: Identity, finding: Finding, actions: seq<Action>)

  /** The text `push-tripwire:<finding id>`. */
  datatype IdempotencyKey = IdempotencyKey(finding: string)

  function RequestOf(x: Id, identity: Identity, f: Finding): (IdempotencyKey, Request) {
    (IdempotencyKey(f.id), Request(x, identity, f, if f.worker != "" then [FenceWorker, HaltIssuance]
        else [HaltIssuance]))
  }

  // ---------- transactions ----------

  /** The first receipt of a delivery is kept; a replay must repeat it. */
  function RecordReceipt(t: Tables, x: Id, identity: Identity): Option<Tables> {
    if x !in t.receipts then Some(t.(receipts := t.receipts[x := identity]))
    else if t.receipts[x] == identity then Some(t) else None
  }

  /** The first result of a delivery is kept. */
  function RecordResult(t: Tables, x: Id, row: Row): Tables {
    if x in t.rows then t else t.(rows := t.rows[x := row])
  }

  function RecordAttempt(t: Tables, x: Id, now: Time): Option<Tables> {
    if x !in t.rows || !t.rows[x].Pending() then None
    else Some(t.(rows := t.rows[x := t.rows[x].(last := Some(now), attempts := t.rows[x].attempts + 1)]))
  }

  /** A validated broker response. */
  datatype Response = Response(halted: Time, fenced: Option<Time>)

  function Responded(row: Row, r: Response): Row {
    row.(status := Settled, halted := Some(r.halted),
         terminal := Max(row.terminal, Max(r.halted, if r.fenced.Some? then r.fenced.value else r.halted)),
         slo := if Max(row.alert, r.halted) > row.deadline then Breached else Met)
  }

  function CompleteResponse(t: Tables, x: Id, r: Response): Option<Tables> {
    if x !in t.rows || !t.rows[x].Pending() then None
    else Some(t.(rows := t.rows[x := Responded(t.rows[x], r)]))
  }

  predicate Overdue(row: Row, now: Time) {
    row.Pending() && !row.slo.Breached? && row.deadline < now
  }

  function MarkOverdue(t: Tables, now: Time): Tables {
    t.(rows := map x | x in t.rows ::
         if Overdue(t.rows[x], now) then t.rows[x].(slo := Breached, terminal := Max(t.rows[x].terminal, now))
             else t.rows[x])
  }

  /** One try: note the attempt, ask the broker, and settle the row if it answers properly. */
  function Try(t: Tables, x: Id, now: Time, answer: Option<Response>): Tables {
    var a := RecordAttempt(t, x, now);
    if a.None? then t
    else if answer.None? then a.value
    else
      var c := CompleteResponse(a.value, x, answer.value);
      if c.Some? then c.value else a.value
  }

  // ---------- the queue ----------

  function PendingIds(t: Tables): set<Id> {
    set x | x in t.rows && t.rows[x].Pending()
  }

  predicate Before(t: Tables, y: Id, x: Id)
    requires x in t.rows && y in t.rows
  {
    t.rows[y].Key() < t.rows[x].Key() || (t.rows[y].Key() == t.rows[x].Key() && y < x)
  }

  /** The pending deliveries that come before `x`. */
  function Ahead(t: Tables, x: Id): set<Id>
    requires x in t.rows
  {
    set y | y in t.rows && t.rows[y].Pending() && Before(t, y, x)
  }

  function Elements(ids: seq<Id>): set<Id> {
    set i | 0 <= i < |ids| :: ids[i]
  }

  predicate Distinct(ids: seq<Id>) {
    forall i, j | 0 <= i < j < |ids| :: ids[i] != ids[j]
  }

  /** The first 64 pending deliveries, or all of them. */
  ghost predicate IsBatch(t: Tables, ids: seq<Id>) {
    && Distinct(ids) && (forall i | 0 <= i < |ids| :: ids[i] in t.rows && t.rows[ids[i]].Pending())
    && |ids| <= BATCH
    && (forall x | x in t.rows && t.rows[x].Pending() && x !in ids ::
          |ids| == BATCH && forall i | 0 <= i < |ids| :: Before(t, ids[i], x))
  }

  // ---------- the transition system ----------

  datatype Ask = Ask(now: Time, answer: Option<Response>)

  datatype Move =
    | Receive(id: Id, identity: Identity, row: Row)
    | Retry(id: Id, ask: Ask)
    | Mark(now: Time)
    | Round(ids: seq<Id>, asks: seq<Ask>)

  /** Tries each delivery of a batch in turn. */
  function TryAll(t: Tables, ids: seq<Id>, asks: seq<Ask>): Tables
    requires |ids| == |asks|
    decreases |ids|
  {
    if ids == [] then t
    else TryAll(Try(t, ids[0], asks[0].now, asks[0].answer), ids[1..], asks[1..])
  }

  ghost predicate Can(t: Tables, m: Move) {
    match m
    case Receive(_, _, row) => row.last.None? && row.attempts == 0
    case Retry(_, _) => true
    case Mark(_) => true
    case Round(ids, asks) => IsBatch(t, ids) && |ids| == |asks|
  }

  function Next(t: Tables, m: Move): Tables
    requires m.Round? ==> |m.ids| == |m.asks|
  {
    match m
    case Receive(x, identity, row) =>
      var r := RecordReceipt(t, x, identity);
      if r.None? then t else RecordResult(r.value, x, row)
    case Retry(x, ask) => Try(t, x, ask.now, ask.answer)
    case Mark(now) => MarkOverdue(t, now)
    case Round(ids, asks) => TryAll(t, ids, asks)
  }

  ghost predicate Legal(t: Tables, run: seq<Move>)
    decreases |run|
  {
    run == [] || (Can(t, run[0]) && Legal(Next(t, run[0]), run[1..]))
  }

  ghost function Exec(t: Tables, run: seq<Move>): Tables
    requires Legal(t, run)
    decreases |run|
  {
    if run == [] then t else Exec(Next(t, run[0]), run[1..])
  }

  // ---------- identical requests, settled once ----------

  /** The request and idempotency key that every try of `x` sends. */
  predicate Asks(t: Tables, x: Id, request: (IdempotencyKey, Request)) {
    x in t.rows && x in t.receipts && RequestOf(x, t.receipts[x], t.rows[x].finding) == request
  }

  predicate Settles(t: Tables, u: Tables, x: Id)
    requires x in t.rows
  {
    && x in u.rows && u.rows[x].finding == t.rows[x].finding && (!t.rows[x].Pending() ==> u.rows[x] == t.rows[x])
    && t.rows[x].attempts <= u.rows[x].attempts
    && (x in t.receipts ==> x in u.receipts && u.receipts[x] == t.receipts[x])
  }

  lemma {:induction false} TryAllSettles(t: Tables, ids: seq<Id>, asks: seq<Ask>, x: Id)
    requires |ids| == |asks| && x in t.rows
    ensures Settles(t, TryAll(t, ids, asks), x)
    decreases |ids|
  {
    if ids == [] {
    } else {
      TryAllSettles(Try(t, ids[0], asks[0].now, asks[0].answer), ids[1..], asks[1..], x);
    }
  }

  lemma MoveSettles(t: Tables, m: Move, x: Id)
    requires Can(t, m) && x in t.rows
    ensures Settles(t, Next(t, m), x)
  {
    if m.Round? {
      TryAllSettles(t, m.ids, m.asks, x);
    }
  }

  /** Once a delivery has left `response_pending` its result never changes again, and all its requests are the same. */
  lemma {:induction false} SettledOnce(t: Tables, run: seq<Move>, x: Id)
    requires Legal(t, run) && x in t.rows && x in t.receipts
    ensures
      var u := Exec(t, run);
      && Settles(t, u, x)
      && Asks(u, x, RequestOf(x, t.receipts[x], t.rows[x].finding))
    decreases |run|
  {
    if run == [] {
    } else {
      MoveSettles(t, run[0], x);
      SettledOnce(Next(t, run[0]), run[1..], x);
    }
  }

  // ---------- fairness ----------

  /** Everything the move notes carries a time after `key`. */
  predicate After(m: Move, key: Time) {
    match m
    case Receive(_, _, row) => row.Pending() ==> row.requested > key
    case Retry(_, ask) => ask.now > key
    case Mark(_) => true
    case Round(_, asks) => AllAfter(asks, key)
  }

  predicate AllAfter(asks: seq<Ask>, key: Time) {
    forall i | 0 <= i < |asks| :: asks[i].now > key
  }

  lemma TryKeeps(t: Tables, y: Id, ask: Ask, x: Id)
    requires x in t.rows && t.rows[x].Pending() && x != y && ask.now > t.rows[x].Key()
    ensures
      var u := Try(t, y, ask.now, ask.answer);
      x in u.rows && u.rows[x] == t.rows[x] && Ahead(u, x) <= Ahead(t, x) - {y}
  {}

  lemma {:induction false} TryAllKeeps(t: Tables, ids: seq<Id>, asks: seq<Ask>, x: Id)
    requires |ids| == |asks| && x in t.rows && t.rows[x].Pending() && x !in ids && AllAfter(asks, t.rows[x].Key())
    ensures
      var u := TryAll(t, ids, asks);
      x in u.rows && u.rows[x] == t.rows[x] && Ahead(u, x) <= Ahead(t, x) - Elements(ids)
    decreases |ids|
  {
    if ids == [] {
    } else {
      TryKeeps(t, ids[0], asks[0], x);
      var u := Try(t, ids[0], asks[0].now, asks[0].answer);
      TryAllKeeps(u, ids[1..], asks[1..], x);
      forall y | y in Elements(ids)
        ensures y == ids[0] || y in Elements(ids[1..])
      {
        var i :| 0 <= i < |ids| && ids[i] == y;
        assert i > 0 ==> ids[1..][i - 1] == y;
      }
    }
  }

  lemma {:induction false} ElementsSize(ids: seq<Id>)
    requires Distinct(ids)
    ensures |Elements(ids)| == |ids|
    decreases |ids|
  {
    if ids == [] {
      assert Elements(ids) == {};
    } else {
      var last := ids[|ids| - 1];
      var rest := ids[..|ids| - 1];
      ElementsSize(rest);
      assert Elements(ids) == Elements(rest) + {last} by {
        forall y | y in Elements(ids)
          ensures y in Elements(rest) + {last}
        {
          var i :| 0 <= i < |ids| && ids[i] == y;
          assert i < |ids| - 1 ==> rest[i] == y;
        }
        forall y | y in Elements(rest)
          ensures y in Elements(ids)
        {
          var i :| 0 <= i < |rest| && rest[i] == y;
          assert ids[i] == y;
        }
      }
      assert last !in Elements(rest);
    }
  }

  lemma Shrinks(a: set<Id>, b: set<Id>, c: set<Id>)
    requires c <= a && b <= a - c
    ensures |b| <= |a| - |c|
  {
    SubsetSize(b, a - c);
    assert |a - c| == |a| - |c|;
  }

  /** A round that passes `x` by serves 64 of those ahead of it. */
  lemma RoundPasses(t: Tables, ids: seq<Id>, asks: seq<Ask>, x: Id)
    requires IsBatch(t, ids) && |ids| == |asks| && x in t.rows && t.rows[x].Pending() && x !in ids
    requires AllAfter(asks, t.rows[x].Key())
    ensures
      var u := TryAll(t, ids, asks);
      x in u.rows && u.rows[x] == t.rows[x] && |Ahead(u, x)| <= |Ahead(t, x)| - BATCH
  {
    TryAllKeeps(t, ids, asks, x);
    ElementsSize(ids);
    forall y | y in Elements(ids)
      ensures y in Ahead(t, x)
    {
      var i :| 0 <= i < |ids| && ids[i] == y;
    }
    Shrinks(Ahead(t, x), Ahead(TryAll(t, ids, asks), x), Elements(ids));
  }

  predicate Tries(m: Move, x: Id) {
    (m.Retry? && m.id == x) || (m.Round? && x in m.ids)
  }

  /** Any other move leaves `x` where it is and puts nobody ahead of it. */
  lemma OtherMovesKeep(t: Tables, m: Move, x: Id)
    requires Can(t, m) && !m.Round? && !Tries(m, x) && x in t.rows && t.rows[x].Pending() && After(m, t.rows[x].Key())
    ensures
      var u := Next(t, m);
      && x in u.rows && u.rows[x].Pending() && u.rows[x].Key() == t.rows[x].Key()
      && u.rows[x].attempts == t.rows[x].attempts
      && Ahead(u, x) <= Ahead(t, x)
  {
    if m.Retry? {
      TryKeeps(t, m.id, m.ask, x);
    }
  }

  /** A try of a pending delivery is counted. */
  lemma {:induction false} RoundCounts(t: Tables, ids: seq<Id>, asks: seq<Ask>, x: Id)
    requires |ids| == |asks| && Distinct(ids) && x in ids && x in t.rows && t.rows[x].Pending()
    ensures x in TryAll(t, ids, asks).rows && TryAll(t, ids, asks).rows[x].attempts > t.rows[x].attempts
    decreases |ids|
  {
    var u := Try(t, ids[0], asks[0].now, asks[0].answer);
    if ids[0] == x {
      TryAllSettles(u, ids[1..], asks[1..], x);
    } else {
      RoundCounts(u, ids[1..], asks[1..], x);
    }
  }

  lemma TryCounts(t: Tables, m: Move, x: Id)
    requires Can(t, m) && Tries(m, x) && x in t.rows && t.rows[x].Pending()
    ensures x in Next(t, m).rows && Next(t, m).rows[x].attempts > t.rows[x].attempts
  {
    if m.Round? {
      RoundCounts(t, m.ids, m.asks, x);
    }
  }

  lemma {:induction false} RunSettles(t: Tables, run: seq<Move>, x: Id)
    requires Legal(t, run) && x in t.rows
    ensures Settles(t, Exec(t, run), x)
    decreases |run|
  {
    if run == [] {
    } else {
      MoveSettles(t, run[0], x);
      RunSettles(Next(t, run[0]), run[1..], x);
    }
  }

  function Rounds(run: seq<Move>): nat
    decreases |run|
  {
    if run == [] then 0 else (if run[0].Round? then 1 else 0) + Rounds(run[1..])
  }

  /**
   A delivery with `n` pending deliveries ahead of it is tried (and the attempt counted) within `n / 64 + 1` rounds,
   whatever arrives, is retried or is marked overdue meanwhile, as long as these carry times after its own last attempt
   or request.
   */
  lemma {:induction false} ServedFairly(t: Tables, run: seq<Move>, x: Id)
    requires Legal(t, run) && x in t.rows && t.rows[x].Pending()
    requires forall k | 0 <= k < |run| :: After(run[k], t.rows[x].Key())
    requires Rounds(run) >= |Ahead(t, x)| / BATCH + 1
    ensures x in Exec(t, run).rows && Exec(t, run).rows[x].attempts > t.rows[x].attempts
    decreases |run|
  {
    var m := run[0];
    if Tries(m, x) {
      TryCounts(t, m, x);
      RunSettles(Next(t, m), run[1..], x);
    } else {
      if m.Round? {
        RoundPasses(t, m.ids, m.asks, x);
        var n := |Ahead(t, x)|;
        assert (n - BATCH) / BATCH == n / BATCH - 1;
        DivMono(|Ahead(Next(t, m), x)|, n - BATCH);
      } else {
        OtherMovesKeep(t, m, x);
        SubsetSize(Ahead(Next(t, m), x), Ahead(t, x));
        DivMono(|Ahead(Next(t, m), x)|, |Ahead(t, x)|);
      }
      forall k | 0 <= k < |run[1..]|
        ensures After(run[1..][k], t.rows[x].Key())
      {
        assert run[1..][k] == run[k + 1];
      }
      ServedFairly(Next(t, m), run[1..], x);
    }
  }

  lemma DivMono(a: int, b: int)
    requires 0 <= a <= b
    ensures a / BATCH <= b / BATCH
  {}

  /**
   The overdue mark is not sticky: after a response the verdict is `breached` if and only if the halt or the alert came
   after the deadline, whatever an earlier mark said.
   */
  lemma OverdueIsNotSticky(t: Tables, x: Id, late: Time, r: Response)
    requires x in t.rows && t.rows[x].Pending()
    ensures
      var u := CompleteResponse(MarkOverdue(t, late), x, r);
      && u.Some? && x in u.value.rows
      && (u.value.rows[x].slo.Breached? <==> Max(t.rows[x].alert, r.halted) > t.rows[x].deadline)
      && (t.rows[x].deadline < late ==> MarkOverdue(t, late).rows[x].slo.Breached?)
  {}

  const FINDING := Finding("finding", "high", "canary", "", "", 0, "", "", "", "", 0)
  const LATE_ROW := Row(FINDING, ResponsePending, 2, None, 0, 1, None, 2, 10, Awaiting)
  const LATE_RUN: seq<Move> := [
    Receive(1, Identity("org/repo", "main", "", "", None, None), LATE_ROW), Mark(20),
        Retry(1, Ask(30, Some(Response(5, None))))]

  /** A delivery marked as breached whose response then reports a halt in time ends as met. */
  lemma MarkCanBeUndone()
    ensures Legal(Tables(map[], map[]), LATE_RUN)
    ensures
      var marked := Exec(Tables(map[], map[]), LATE_RUN[..2]);
      var answered := Exec(Tables(map[], map[]), LATE_RUN);
      && 1 in marked.rows && marked.rows[1].Pending() && marked.rows[1].slo.Breached?
      && 1 in answered.rows && !answered.rows[1].Pending() && answered.rows[1].slo.Met?
  {
    var t0 := Tables(map[], map[]);
    var t1 := Next(t0, LATE_RUN[0]);
    var t2 := Next(t1, LATE_RUN[1]);
    var t3 := Next(t2, LATE_RUN[2]);
    assert LATE_RUN[2..][1..] == [] && LATE_RUN[1..][1..] == LATE_RUN[2..];
    assert Legal(t3, []) && Legal(t2, LATE_RUN[2..]) && Legal(t1, LATE_RUN[1..]);
    assert Exec(t2, LATE_RUN[2..]) == t3 && Exec(t1, LATE_RUN[1..]) == t3;
    var first := LATE_RUN[..2];
    assert first[1..] == [LATE_RUN[1]] && first[1..][1..] == [];
    assert Legal(t2, []) && Legal(t1, first[1..]) && Exec(t1, first[1..]) == t2;
  }

  // ---------- the store and the reconciliation loop ----------

  class Store {
    var receipts: map<Id, Identity>
    var rows: map<Id, Row>

    function T(): Tables
      reads this
    {
      Tables(receipts, rows)
    }

    constructor ()
      ensures T() == Tables(map[], map[])
    {
      receipts, rows := map[], map[];
    }

    method SaveReceipt(x: Id, identity: Identity) returns (ok: bool, known: bool)
      modifies this`receipts
      ensures ok == old(RecordReceipt(T(), x, identity)).Some? && known == (x in old(receipts))
      ensures T() == if ok then old(RecordReceipt(T(), x, identity)).value else old(T())
    {
      known := x in receipts;
      if !known {
        receipts := receipts[x := identity];
      }
      ok := receipts[x] == identity;
    }

    method SaveResult(x: Id, row: Row)
      modifies this`rows
      ensures T() == old(RecordResult(T(), x, row))
    {
      if x !in rows {
        rows := rows[x := row];
      }
    }

    method SaveAttempt(x: Id, now: Time) returns (ok: bool)
      modifies this`rows
      ensures ok == old(RecordAttempt(T(), x, now)).Some?
      ensures T() == if ok then old(RecordAttempt(T(), x, now)).value else old(T())
    {
      ok := x in rows && rows[x].Pending();
      if ok {
        rows := rows[x := rows[x].(last := Some(now), attempts := rows[x].attempts + 1)];
      }
    }

    method SaveResponse(x: Id, r: Response) returns (ok: bool)
      modifies this`rows
      ensures ok == old(CompleteResponse(T(), x, r)).Some?
      ensures T() == if ok then old(CompleteResponse(T(), x, r)).value else old(T())
    {
      ok := x in rows && rows[x].Pending();
      if ok {
        rows := rows[x := Responded(rows[x], r)];
      }
    }

    method TryResponse(x: Id, now: Time, answer: Option<Response>)
      modifies this`rows
      ensures T() == old(Try(T(), x, now, answer))
    {
      var ok := SaveAttempt(x, now);
      if ok && answer.Some? {
        ok := SaveResponse(x, answer.value);
      }
    }

    /** Exactly the pending deliveries past their deadline change, once: afterwards none is overdue. */
    method MarkOverdueResponses(now: Time)
      modifies this`rows
      ensures T() == old(MarkOverdue(T(), now)) && rows.Keys == old(rows.Keys)
      ensures forall x | x in rows :: rows[x] != old(rows)[x] <==> Overdue(old(rows)[x], now)
      ensures forall x | x in rows && Overdue(old(rows)[x], now) ::
                rows[x].Pending() && rows[x].slo.Breached? && now <= rows[x].terminal
                    && rows[x].Key() == old(rows)[x].Key()
      ensures forall x | x in rows :: !Overdue(rows[x], now)
    {
      rows := map x | x in rows ::
        if Overdue(rows[x], now) then rows[x].(slo := Breached, terminal := Max(rows[x].terminal, now)) else rows[x];
    }

    /** `ORDER BY COALESCE(last attempt, requested), delivery LIMIT 64`. */
    method PendingBatch() returns (ids: seq<Id>)
      ensures IsBatch(T(), ids)
    {
      ids := [];
      var rest := PendingIds(T());
      var rank := QueueRank(T());
      while |ids| < BATCH && rest != {}
        invariant Distinct(ids) && |ids| <= BATCH && rest <= PendingIds(T())
        invariant forall i | 0 <= i < |ids| :: ids[i] in PendingIds(T()) && ids[i] !in rest
        invariant forall x | x in PendingIds(T()) && x !in ids :: x in rest
        invariant forall x, i | x in rest && 0 <= i < |ids| :: Before(T(), ids[i], x)
        decreases rest
      {
        var x := QueryFirst(rest, rank);
        FirstIsBefore(T(), rest, x);
        ids, rest := ids + [x], rest - {x};
      }
    }

    /** One pass: mark what is overdue, then try each delivery of the batch, whatever happens to the others. */
    method Reconcile(now: Time, asks: seq<Ask>) returns (ids: seq<Id>)
      requires |asks| >= BATCH
      modifies this`rows
      ensures IsBatch(MarkOverdue(old(T()), now), ids)
      ensures T() == TryAll(MarkOverdue(old(T()), now), ids, asks[..|ids|])
    {
      MarkOverdueResponses(now);
      ids := PendingBatch();
      ghost var t := T();
      for i := 0 to |ids|
        invariant T() == TryAll(t, ids[..i], asks[..i])
      {
        TryResponse(ids[i], asks[i].now, asks[i].answer);
        TryMore(t, ids[..i], asks[..i], ids[i], asks[i]);
        assert ids[..i + 1] == ids[..i] + [ids[i]] && asks[..i + 1] == asks[..i] + [asks[i]];
      }
      assert ids[..|ids|] == ids;
    }
  }

  function QueueRank(t: Tables): Id -> Rank {
    (x: Id) => if x in t.rows then Rank(t.rows[x].Key(), x, 0) else Rank(0, 0, 0)
  }

  lemma FirstIsBefore(t: Tables, rest: set<Id>, x: Id)
    requires rest <= PendingIds(t) && IsFirst(rest, QueueRank(t), x)
    ensures x in t.rows && t.rows[x].Pending() && forall y | y in rest && y != x :: y in t.rows && Before(t, x, y)
  {
    assert x in PendingIds(t);
    forall y | y in rest && y != x
      ensures y in t.rows && Before(t, x, y)
    {
      assert y in PendingIds(t) && QueueRank(t)(x).Leq(QueueRank(t)(y));
    }
  }

  lemma {:induction false} TryMore(t: Tables, ids: seq<Id>, asks: seq<Ask>, x: Id, ask: Ask)
    requires |ids| == |asks|
    ensures TryAll(t, ids + [x], asks + [ask]) == Try(TryAll(t, ids, asks), x, ask.now, ask.answer)
    decreases |ids|
  {
    if ids == [] {
      assert (ids + [x])[1..] == [] && (asks + [ask])[1..] == [];
    } else {
      assert (ids + [x])[1..] == ids[1..] + [x] && (asks + [ask])[1..] == asks[1..] + [ask];
      TryMore(Try(t, ids[0], asks[0].now, asks[0].answer), ids[1..], asks[1..], x, ask);
    }
  }
}
