/**
 The push scanner's bounded decode search: a queue of values, each examined once, whose verdict is that of plain
 reachability.
 */
module PushScan {
  import opened Basics

  // ---------- what is searched ----------

  datatype Value = Value(text: string)

  const EMPTY := Value("")

  datatype Lookup = NoMatch | Issued | LookupError

  /** The patterns, decoders, fingerprint lookups and bounds of one scan. */
  datatype Rules = Rules(
    canary: Value -> bool, tokens: Value -> seq<Value>, lookup: Value -> Lookup, shape: Value -> bool,
    decodes: Value -> seq<Value>, fullyDecodes: Value -> bool, maxDepth: nat, maxCandidates: nat)

  /** The value itself and every token run in it are looked up. */
  function Candidates(r: Rules, value: Value): seq<Value> {
    [value] + r.tokens(value)
  }

  predicate Known(r: Rules, value: Value) {
    r.canary(value) || exists c | c in Candidates(r, value) :: r.lookup(c) == Issued
  }

  predicate Unknowable(r: Rules, value: Value) {
    exists c | c in Candidates(r, value) :: r.lookup(c) == LookupError
  }

  // ---------- the reference: plain reachability ----------

  /** `value` comes from an input by exactly `depth` decodings, never through an empty value. */
  ghost predicate Reach(r: Rules, inputs: seq<Value>, value: Value, depth: nat)
    decreases depth
  {
    && value != EMPTY
    && if depth == 0 then value in inputs
       else exists from :: Reach(r, inputs, from, depth - 1) && value in r.decodes(from)
  }

  ghost predicate Within(r: Rules, inputs: seq<Value>, value: Value) {
    exists d: nat | d <= r.maxDepth :: Reach(r, inputs, value, d)
  }

  ghost predicate AllWithin(r: Rules, inputs: seq<Value>, values: set<Value>) {
    forall v | v in values :: Within(r, inputs, v)
  }

  /** Reached by `maxDepth` decodings and no fewer. */
  ghost predicate AtBound(r: Rules, inputs: seq<Value>, value: Value) {
    Reach(r, inputs, value, r.maxDepth) && forall d: nat | d < r.maxDepth :: !Reach(r, inputs, value, d)
  }

  /**
   Nothing within reach is a known secret, unreadable, or still decodable at the bound, and there is not too much of it.
   */
  ghost predicate AllClear(r: Rules, inputs: seq<Value>) {
    && (forall v | Within(r, inputs, v) :: !Known(r, v) && !Unknowable(r, v))
    && (forall v | AtBound(r, inputs, v) :: !r.fullyDecodes(v))
    && (forall s: set<Value> | AllWithin(r, inputs, s) :: |s| <= r.maxCandidates)
  }

  // ---------- the search state ----------

  datatype Queued = Queued(value: Value, depth: nat)

  datatype Verdict =
    | Clean
    | Low
    | High(value: Value)
    | DepthExceeded(value: Value)
    | LookupFailed(value: Value)
    | TooManyCandidates

  /** `seen` records the depth at which each value was queued. */
  ghost predicate SeenOk(r: Rules, inputs: seq<Value>, seen: map<Value, nat>) {
    forall v | v in seen :: seen[v] <= r.maxDepth && Reach(r, inputs, v, seen[v])
  }

  /** Queued values are those seen and not yet examined, in order of depth, over at most two levels. */
  ghost predicate QueueOk(seen: map<Value, nat>, queue: seq<Queued>, done: set<Value>, level: nat) {
    && done <= seen.Keys
    && (forall v | v in seen :: v in done || exists i | 0 <= i < |queue| :: queue[i].value == v)
    && (forall i | 0 <= i < |queue| ::
       queue[i].value in seen && queue[i].value !in done && seen[queue[i].value] == queue[i].depth)
    && (forall i, j | 0 <= i < j < |queue| :: queue[i].value != queue[j].value && queue[i].depth <= queue[j].depth)
    && (forall i | 0 <= i < |queue| :: level <= queue[i].depth <= level + 1)
    && (forall v | v in seen :: seen[v] <= level + 1)
  }

  predicate Expanded(r: Rules, seen: map<Value, nat>, v: Value)
    requires v in seen
  {
    forall x | x in r.decodes(v) && x != EMPTY :: x in seen && seen[x] <= seen[v] + 1
  }

  /** What examining a value establishes. */
  predicate Examined(r: Rules, seen: map<Value, nat>, v: Value)
    requires v in seen
  {
    && !Known(r, v) && !Unknowable(r, v)
    && (seen[v] < r.maxDepth ==> Expanded(r, seen, v)) && (seen[v] == r.maxDepth ==> !r.fullyDecodes(v))
  }

  ghost predicate DoneOk(r: Rules, seen: map<Value, nat>, done: set<Value>) {
    done <= seen.Keys && forall v | v in done :: Examined(r, seen, v)
  }

  predicate InputsIn(inputs: seq<Value>, seen: map<Value, nat>) {
    InputsUpTo(inputs, |inputs|, seen)
  }

  predicate InputsUpTo(inputs: seq<Value>, n: nat, seen: map<Value, nat>)
    requires n <= |inputs|
  {
    forall i | 0 <= i < n && inputs[i] != EMPTY :: inputs[i] in seen && seen[inputs[i]] == 0
  }

  // ---------- breadth first finds least depths ----------

  /**
   If everything seen above level `k` has been expanded, then whatever is reachable in `d <= k` steps was seen at depth
   at most `d`.
   */
  lemma {:induction false} FoundEarly(r: Rules, inputs: seq<Value>, seen: map<Value, nat>, k: nat, v: Value, d: nat)
    requires InputsIn(inputs, seen) && d <= k && Reach(r, inputs, v, d)
    requires forall u | u in seen && seen[u] < k :: Expanded(r, seen, u)
    ensures v in seen && seen[v] <= d
    decreases d
  {
    if d == 0 {
      var i :| 0 <= i < |inputs| && inputs[i] == v;
    } else {
      var from :| Reach(r, inputs, from, d - 1) && v in r.decodes(from);
      FoundEarly(r, inputs, seen, k, from, d - 1);
      assert Expanded(r, seen, from);
    }
  }

  /** A value examined at the bound has no shorter way to it. */
  lemma BoundIsLeast(r: Rules, inputs: seq<Value>, seen: map<Value, nat>, v: Value)
    requires SeenOk(r, inputs, seen) && InputsIn(inputs, seen) && v in seen && seen[v] == r.maxDepth
    requires forall u | u in seen && seen[u] < r.maxDepth :: Expanded(r, seen, u)
    ensures AtBound(r, inputs, v)
  {
    forall d: nat | d < r.maxDepth
      ensures !Reach(r, inputs, v, d)
    {
      if Reach(r, inputs, v, d) {
        FoundEarly(r, inputs, seen, r.maxDepth, v, d);
      }
    }
  }

  lemma SeenIsWithin(r: Rules, inputs: seq<Value>, seen: map<Value, nat>, v: Value)
    requires SeenOk(r, inputs, seen) && v in seen
    ensures Within(r, inputs, v)
  {
    assert seen[v] <= r.maxDepth && Reach(r, inputs, v, seen[v]);
  }

  lemma WithinIsSeen(r: Rules, inputs: seq<Value>, seen: map<Value, nat>, v: Value)
    requires InputsIn(inputs, seen) && Within(r, inputs, v)
    requires forall u | u in seen && seen[u] < r.maxDepth :: Expanded(r, seen, u)
    ensures v in seen
  {
    var d: nat :| d <= r.maxDepth && Reach(r, inputs, v, d);
    FoundEarly(r, inputs, seen, r.maxDepth, v, d);
  }

  /** An exhausted queue has seen exactly what is within reach. */
  lemma ExhaustedIsClear(r: Rules, inputs: seq<Value>, seen: map<Value, nat>)
    requires SeenOk(r, inputs, seen) && InputsIn(inputs, seen) && DoneOk(r, seen, seen.Keys)
             && |seen| <= r.maxCandidates
    ensures AllClear(r, inputs) && forall v :: Within(r, inputs, v) <==> v in seen
  {
    forall v
      ensures Within(r, inputs, v) <==> v in seen
    {
      if v in seen {
        SeenIsWithin(r, inputs, seen, v);
      }
      if Within(r, inputs, v) {
        WithinIsSeen(r, inputs, seen, v);
      }
    }
    forall v | AtBound(r, inputs, v)
      ensures !r.fullyDecodes(v)
    {
      FoundEarly(r, inputs, seen, r.maxDepth, v, r.maxDepth);
      assert Reach(r, inputs, v, seen[v]);
    }
    forall s: set<Value> | AllWithin(r, inputs, s)
      ensures |s| <= r.maxCandidates
    {
      SubsetSize(s, seen.Keys);
    }
  }

  /** Each unfavourable verdict names a reachable reason. */
  ghost predicate Justified(r: Rules, inputs: seq<Value>, out: Verdict) {
    match out
    case High(v) => Within(r, inputs, v) && Known(r, v)
    case LookupFailed(v) => Within(r, inputs, v) && Unknowable(r, v)
    case DepthExceeded(v) => AtBound(r, inputs, v) && r.fullyDecodes(v)
    case TooManyCandidates => exists s: set<Value> :: AllWithin(r, inputs, s) && |s| > r.maxCandidates
    case Low => exists v :: Within(r, inputs, v) && r.shape(v)
    case Clean => forall v | Within(r, inputs, v) :: !r.shape(v)
  }

  // ---------- the search ----------

  lemma AddStaysQueued(seen: map<Value, nat>, queue: seq<Queued>, done: set<Value>, value: Value, depth: nat, v: Value)
    requires v == value || v in done || exists i | 0 <= i < |queue| :: queue[i].value == v
    ensures
      var queue' := queue + [Queued(value, depth)];
      v in done || exists i | 0 <= i < |queue'| :: queue'[i].value == v
  {
    var queue' := queue + [Queued(value, depth)];
    if v == value {
      assert queue'[|queue|].value == v;
    } else if v !in done {
      var i :| 0 <= i < |queue| && queue[i].value == v;
      assert queue'[i].value == v;
    }
  }

  lemma AddStaysOrdered(seen: map<Value, nat>, queue: seq<Queued>, value: Value, depth: nat)
    requires value !in seen && forall i | 0 <= i < |queue| :: queue[i].value in seen && queue[i].depth <= depth
    requires forall i, j | 0 <= i < j < |queue| :: queue[i].value != queue[j].value && queue[i].depth <= queue[j].depth
    ensures
      var queue' := queue + [Queued(value, depth)];
      forall i, j | 0 <= i < j < |queue'| :: queue'[i].value != queue'[j].value && queue'[i].depth <= queue'[j].depth
  {}

  lemma AddStaysSeen(seen: map<Value, nat>, queue: seq<Queued>, done: set<Value>, level: nat, value: Value, depth: nat)
    requires QueueOk(seen, queue, done, level) && value !in seen && level <= depth <= level + 1
    ensures
      var seen', queue' := seen[value := depth], queue + [Queued(value, depth)];
      forall i | 0 <= i < |queue'| ::
        && queue'[i].value in seen' && queue'[i].value !in done && seen'[queue'[i].value] == queue'[i].depth
        && level <= queue'[i].depth <= level + 1
  {}

  lemma AddKeeps(
    r: Rules, inputs: seq<Value>, seen: map<Value, nat>, queue: seq<Queued>, done: set<Value>, level: nat,
        value: Value, depth: nat)
    requires SeenOk(r, inputs, seen) && QueueOk(seen, queue, done, level) && value != EMPTY && value !in seen
    requires level <= depth <= level + 1 && depth <= r.maxDepth && Reach(r, inputs, value, depth)
    requires forall i | 0 <= i < |queue| :: queue[i].depth <= depth
    ensures SeenOk(r, inputs, seen[value := depth])
            && QueueOk(seen[value := depth], queue + [Queued(value, depth)], done, level)
  {
    var queue' := queue + [Queued(value, depth)];
    forall v | v in seen[value := depth]
      ensures v in done || exists i | 0 <= i < |queue'| :: queue'[i].value == v
    {
      AddStaysQueued(seen, queue, done, value, depth, v);
    }
    AddStaysSeen(seen, queue, done, level, value, depth);
    AddStaysOrdered(seen, queue, value, depth);
  }

  /** Adding a value never spoils what was established about others. */
  lemma GrowthKeepsDone(r: Rules, seen: map<Value, nat>, done: set<Value>, value: Value, depth: nat)
    requires DoneOk(r, seen, done) && value !in seen
    ensures DoneOk(r, seen[value := depth], done)
  {
    forall v | v in done
      ensures Examined(r, seen[value := depth], v)
    {
      assert Examined(r, seen, v);
    }
  }

  lemma OneMore(seen: map<Value, nat>, value: Value)
    requires value !in seen
    ensures |seen.Keys + {value}| == |seen| + 1
  {}

  lemma ReachIsWithin(r: Rules, inputs: seq<Value>, value: Value, depth: nat)
    requires depth <= r.maxDepth && Reach(r, inputs, value, depth)
    ensures Within(r, inputs, value)
  {}

  lemma TooMany(r: Rules, inputs: seq<Value>, seen: map<Value, nat>, value: Value, depth: nat)
    requires SeenOk(r, inputs, seen) && value !in seen && |seen| >= r.maxCandidates && depth <= r.maxDepth
             && Reach(r, inputs, value, depth)
    ensures Justified(r, inputs, TooManyCandidates)
  {
    var s := seen.Keys + {value};
    OneMore(seen, value);
    forall v | v in s
      ensures Within(r, inputs, v)
    {
      ReachIsWithin(r, inputs, v, if v == value then depth else seen[v]);
    }
    assert AllWithin(r, inputs, s);
  }

  /** The search so far is sound; `taken` left the queue and, of these, `done` are fully examined. */
  ghost predicate FrontierOk(
    r: Rules, inputs: seq<Value>, seen: map<Value, nat>, queue: seq<Queued>, taken: set<Value>, done: set<Value>,
        level: nat)
  {
    SeenOk(r, inputs, seen) && QueueOk(seen, queue, taken, level) && DoneOk(r, seen, done) && |seen| <= r.maxCandidates
  }

  predicate Grows(seen: map<Value, nat>, seen': map<Value, nat>) {
    forall v | v in seen :: v in seen' && seen'[v] == seen[v]
  }

  lemma InputsGrow(inputs: seq<Value>, n: nat, seen: map<Value, nat>, seen': map<Value, nat>)
    requires n < |inputs| && InputsUpTo(inputs, n, seen) && Grows(seen, seen')
    requires inputs[n] != EMPTY ==> inputs[n] in seen' && seen'[inputs[n]] == 0
    ensures InputsUpTo(inputs, n + 1, seen')
  {
    forall i | 0 <= i < n + 1 && inputs[i] != EMPTY
      ensures inputs[i] in seen' && seen'[inputs[i]] == 0
    {
      assert i < n ==> inputs[i] in seen;
    }
  }

  /** The first `n` decodings are in. */
  predicate Covers(decoded: seq<Value>, n: nat, seen: map<Value, nat>)
    requires n <= |decoded|
  {
    forall k | 0 <= k < n && decoded[k] != EMPTY :: decoded[k] in seen
  }

  lemma CoverGrows(decoded: seq<Value>, n: nat, seen: map<Value, nat>, seen': map<Value, nat>)
    requires n < |decoded| && Covers(decoded, n, seen) && Grows(seen, seen')
             && (decoded[n] != EMPTY ==> decoded[n] in seen')
    ensures Covers(decoded, n + 1, seen')
  {}

  /** Queues a value that is new and not empty. */
  method Add(r: Rules, ghost inputs: seq<Value>, value: Value, depth: nat, seen: map<Value, nat>, queue: seq<Queued>,
             ghost taken: set<Value>, ghost done: set<Value>, ghost level: nat)
    returns (ok: bool, seen': map<Value, nat>, queue': seq<Queued>)
    requires FrontierOk(r, inputs, seen, queue, taken, done, level)
    requires level <= depth <= level + 1 && depth <= r.maxDepth && (value != EMPTY ==> Reach(r, inputs, value, depth))
    requires forall i | 0 <= i < |queue| :: queue[i].depth <= depth
    ensures ok ==> FrontierOk(r, inputs, seen', queue', taken, done, level) && (value != EMPTY ==> value in seen')
    ensures Grows(seen, seen') && (forall v | v in seen' && v !in seen :: seen'[v] == depth)
    ensures forall i | 0 <= i < |queue'| :: queue'[i].depth <= depth
    ensures !ok ==> Justified(r, inputs, TooManyCandidates)
  {
    if value == EMPTY || value in seen {
      return true, seen, queue;
    }
    if |seen| >= r.maxCandidates {
      TooMany(r, inputs, seen, value, depth);
      return false, seen, queue;
    }
    AddKeeps(r, inputs, seen, queue, taken, level, value, depth);
    GrowthKeepsDone(r, seen, done, value, depth);
    return true, seen[value := depth], queue + [Queued(value, depth)];
  }

  method AddInputs(r: Rules, inputs: seq<Value>) returns (ok: bool, seen: map<Value, nat>, queue: seq<Queued>)
    ensures ok ==> FrontierOk(r, inputs, seen, queue, {}, {}, 0) && InputsIn(inputs, seen)
    ensures !ok ==> Justified(r, inputs, TooManyCandidates)
  {
    seen, queue := map[], [];
    for i := 0 to |inputs|
      invariant FrontierOk(r, inputs, seen, queue, {}, {}, 0) && InputsUpTo(inputs, i, seen)
      invariant forall v | v in seen :: seen[v] == 0
      invariant forall k | 0 <= k < |queue| :: queue[k].depth == 0
    {
      ghost var before := seen;
      ok, seen, queue := Add(r, inputs, inputs[i], 0, seen, queue, {}, {}, 0);
      if !ok {
        return;
      }
      InputsGrow(inputs, i, before, seen);
    }
    ok := true;
  }

  /** Looks up the value and every token run in it, in order. */
  method LookUp(r: Rules, value: Value) returns (found: Lookup)
    requires !r.canary(value)
    ensures found == Issued ==> Known(r, value)
    ensures found == LookupError ==> Unknowable(r, value)
    ensures found == NoMatch ==> !Known(r, value) && !Unknowable(r, value)
  {
    var candidates := Candidates(r, value);
    for i := 0 to |candidates|
      invariant forall k | 0 <= k < i :: r.lookup(candidates[k]) == NoMatch
    {
      found := r.lookup(candidates[i]);
      if found != NoMatch {
        assert candidates[i] in candidates;
        return;
      }
    }
    found := NoMatch;
  }

  lemma DecodedIsReached(r: Rules, inputs: seq<Value>, from: Value, depth: nat, value: Value)
    requires Reach(r, inputs, from, depth) && value in r.decodes(from)
    ensures value != EMPTY ==> Reach(r, inputs, value, depth + 1)
  {}

  /** Queues everything the current value decodes to. */
  method Expand(r: Rules, ghost inputs: seq<Value>, value: Value, depth: nat, seen: map<Value, nat>, queue: seq<Queued>,
                ghost taken: set<Value>, ghost done: set<Value>)
    returns (ok: bool, seen': map<Value, nat>, queue': seq<Queued>)
    requires FrontierOk(r, inputs, seen, queue, taken, done, depth) && value in seen
             && seen[value] == depth < r.maxDepth
    ensures Grows(seen, seen') && value in seen' && seen'[value] == depth
    ensures ok ==> Expanded(r, seen', value)
    ensures ok ==> FrontierOk(r, inputs, seen', queue', taken, done, depth)
    ensures !ok ==> Justified(r, inputs, TooManyCandidates)
  {
    seen', queue' := seen, queue;
    var decoded := r.decodes(value);
    for i := 0 to |decoded|
      invariant Grows(seen, seen') && Covers(decoded, i, seen') && value in seen' && seen'[value] == depth
      invariant FrontierOk(r, inputs, seen', queue', taken, done, depth)
    {
      ghost var before := seen';
      DecodedIsReached(r, inputs, value, depth, decoded[i]);
      ok, seen', queue' := Add(r, inputs, decoded[i], depth + 1, seen', queue', taken, done, depth);
      if !ok {
        return;
      }
      CoverGrows(decoded, i, before, seen');
    }
    ok := true;
    CoveredIsExpanded(r, seen', queue', taken, value);
  }

  lemma CoveredIsExpanded(r: Rules, seen: map<Value, nat>, queue: seq<Queued>, done: set<Value>, value: Value)
    requires value in seen && QueueOk(seen, queue, done, seen[value])
             && Covers(r.decodes(value), |r.decodes(value)|, seen)
    ensures Expanded(r, seen, value)
  {
    forall x | x in r.decodes(value) && x != EMPTY
      ensures x in seen && seen[x] <= seen[value] + 1
    {
      var k :| 0 <= k < |r.decodes(value)| && r.decodes(value)[k] == x;
    }
  }

  // ---------- the loop ----------

  lemma PopKeeps(seen: map<Value, nat>, queue: seq<Queued>, taken: set<Value>, level: nat)
    requires QueueOk(seen, queue, taken, level) && |queue| > 0
    ensures QueueOk(seen, queue[1..], taken + {queue[0].value}, queue[0].depth)
  {
    var rest := queue[1..];
    var taken' := taken + {queue[0].value};
    forall v | v in seen
      ensures v in taken' || exists i | 0 <= i < |rest| :: rest[i].value == v
    {
      if v !in taken' {
        var i :| 0 <= i < |queue| && queue[i].value == v;
        assert rest[i - 1].value == v;
      }
    }
  }

  /** When a value leaves the queue, everything seen at a smaller depth has been examined. */
  lemma EarlierAreDone(r: Rules, seen: map<Value, nat>, queue: seq<Queued>, done: set<Value>, current: Queued, k: nat)
    requires current.value in seen && seen[current.value] == current.depth && current.depth >= k && k <= r.maxDepth
    requires QueueOk(seen, queue, done + {current.value}, current.depth) && DoneOk(r, seen, done)
    ensures forall u | u in seen && seen[u] < k :: Expanded(r, seen, u)
  {
    forall u | u in seen && seen[u] < k
      ensures Expanded(r, seen, u)
    {
      assert u in done;
      assert Examined(r, seen, u);
    }
  }

  lemma ExaminedNow(r: Rules, seen: map<Value, nat>, seen': map<Value, nat>, done: set<Value>, v: Value)
    requires DoneOk(r, seen', done) && v in seen' && Examined(r, seen', v)
    ensures DoneOk(r, seen', done + {v})
  {}

  /** An unfavourable verdict with a reason rules out the all-clear. */
  lemma VerdictsExclude(r: Rules, inputs: seq<Value>, out: Verdict)
    requires Justified(r, inputs, out) && !out.Clean? && !out.Low?
    ensures !AllClear(r, inputs)
  {
    if out.TooManyCandidates? {
      var s: set<Value> :| AllWithin(r, inputs, s) && |s| > r.maxCandidates;
    }
  }

  lemma ShapesSeen(r: Rules, inputs: seq<Value>, seen: map<Value, nat>, low: bool)
    requires forall v :: Within(r, inputs, v) <==> v in seen
    requires low <==> exists v | v in seen.Keys :: r.shape(v)
    ensures Justified(r, inputs, if low then Low else Clean)
  {
    if low {
      var v :| v in seen.Keys && r.shape(v);
      assert Within(r, inputs, v) && r.shape(v);
    } else {
      forall v | Within(r, inputs, v)
        ensures !r.shape(v)
      {
        assert v in seen.Keys;
      }
    }
  }

  /** Examines one value: a reason to stop, or nothing. */
  method Examine(r: Rules, value: Value, depth: nat) returns (stop: Verdict)
    requires depth <= r.maxDepth
    ensures stop == Clean ==>
            !Known(r, value) && !Unknowable(r, value) && (depth == r.maxDepth ==> !r.fullyDecodes(value))
    ensures stop == High(value) ==> Known(r, value)
    ensures stop == LookupFailed(value) ==> Unknowable(r, value)
    ensures stop == DepthExceeded(value) ==> depth == r.maxDepth && r.fullyDecodes(value)
    ensures stop == Clean || stop == High(value) || stop == LookupFailed(value) || stop == DepthExceeded(value)
  {
    if r.canary(value) {
      return High(value);
    }
    var found := LookUp(r, value);
    match found
    case Issued => return High(value);
    case LookupError => return LookupFailed(value);
    case NoMatch =>
      if depth >= r.maxDepth && r.fullyDecodes(value) {
        return DepthExceeded(value);
      }
      return Clean;
  }

  lemma StopIsJustified(
    r: Rules, inputs: seq<Value>, seen: map<Value, nat>, queue: seq<Queued>, done: set<Value>, current: Queued,
        stop: Verdict)
    requires SeenOk(r, inputs, seen) && InputsIn(inputs, seen) && DoneOk(r, seen, done)
    requires current.value in seen && seen[current.value] == current.depth
    requires QueueOk(seen, queue, done + {current.value}, current.depth)
    requires stop == High(current.value) ==> Known(r, current.value)
    requires stop == LookupFailed(current.value) ==> Unknowable(r, current.value)
    requires stop == DepthExceeded(current.value) ==> current.depth == r.maxDepth && r.fullyDecodes(current.value)
    requires stop == High(current.value) || stop == LookupFailed(current.value) || stop == DepthExceeded(current.value)
    ensures Justified(r, inputs, stop)
  {
    SeenIsWithin(r, inputs, seen, current.value);
    if stop.DepthExceeded? {
      EarlierAreDone(r, seen, queue, done, current, r.maxDepth);
      BoundIsLeast(r, inputs, seen, current.value);
    }
  }

  /** One value taken from the queue, examined and expanded. */
  method Visit(
    r: Rules, ghost inputs: seq<Value>, seen: map<Value, nat>, queue: seq<Queued>, ghost done: set<Value>,
        ghost level: nat)
    returns (stop: Verdict, seen': map<Value, nat>, queue': seq<Queued>)
    requires FrontierOk(r, inputs, seen, queue, done, done, level) && InputsIn(inputs, seen) && |queue| > 0
    ensures stop == Clean ==>
              var v := queue[0].value;
              v !in done && InputsIn(inputs, seen')
                  && FrontierOk(r, inputs, seen', queue', done + {v}, done + {v}, queue[0].depth)
    ensures stop != Clean ==> Justified(r, inputs, stop) && stop != Low
  {
    var current := queue[0];
    seen', queue' := seen, queue[1..];
    PopKeeps(seen, queue, done, level);
    stop := Examine(r, current.value, current.depth);
    if stop != Clean {
      StopIsJustified(r, inputs, seen, queue', done, current, stop);
      return;
    }
    if current.depth < r.maxDepth {
      var ok;
      ok, seen', queue' := Expand(r, inputs, current.value, current.depth, seen', queue', done + {current.value}, done);
      if !ok {
        return TooManyCandidates, seen', queue';
      }
      InputsStay(inputs, seen, seen');
    }
    ExaminedNow(r, seen, seen', done, current.value);
  }

  lemma InputsStay(inputs: seq<Value>, seen: map<Value, nat>, seen': map<Value, nat>)
    requires InputsIn(inputs, seen) && Grows(seen, seen')
    ensures InputsIn(inputs, seen')
  {
    forall i | 0 <= i < |inputs| && inputs[i] != EMPTY
      ensures inputs[i] in seen' && seen'[inputs[i]] == 0
    {
      assert inputs[i] in seen;
    }
  }

  /**
   The search agrees with plain reachability: it ends without a high finding or an error if and only if everything
   within `maxDepth` decodings is clear; every other verdict names a reachable reason; and at most `maxCandidates`
   values are popped.
   */
  method ScanValues(r: Rules, inputs: seq<Value>) returns (out: Verdict, pops: nat)
    ensures Justified(r, inputs, out)
    ensures (out.Clean? || out.Low?) <==> AllClear(r, inputs)
    ensures pops <= r.maxCandidates
  {
    var ok, seen, queue := AddInputs(r, inputs);
    pops := 0;
    if !ok {
      VerdictsExclude(r, inputs, TooManyCandidates);
      return TooManyCandidates, 0;
    }
    ghost var done: set<Value> := {};
    ghost var level: nat := 0;
    var low := false;
    while |queue| > 0
      invariant FrontierOk(r, inputs, seen, queue, done, done, level) && InputsIn(inputs, seen)
      invariant pops == |done| <= r.maxCandidates
      invariant low <==> exists v | v in done :: r.shape(v)
      decreases r.maxCandidates - |done|
    {
      var value := queue[0].value;
      ghost var depth := queue[0].depth;
      SubsetSize(done + {value}, seen.Keys);
      pops := pops + 1;
      var stop;
      stop, seen, queue := Visit(r, inputs, seen, queue, done, level);
      if stop != Clean {
        VerdictsExclude(r, inputs, stop);
        return stop, pops;
      }
      ghost var before := done;
      done, level := done + {value}, depth;
      ShapeStep(r, before, value, low);
      low := low || r.shape(value);
    }
    assert done == seen.Keys;
    ExhaustedIsClear(r, inputs, seen);
    ShapesSeen(r, inputs, seen, low);
    return if low then Low else Clean, pops;
  }

  lemma ShapeStep(r: Rules, done: set<Value>, v: Value, low: bool)
    requires low <==> exists x | x in done :: r.shape(x)
    ensures (low || r.shape(v)) <==> exists x | x in done + {v} :: r.shape(x)
  {
    if low {
      var x :| x in done && r.shape(x);
      assert x in done + {v} && r.shape(x);
    } else if r.shape(v) {
      assert v in done + {v} && r.shape(v);
    }
  }
}
