/** Recording deliveries is idempotent: a stream may be redelivered at will. */
module DispatchReplay {
  import opened Basics
  import opened Jobs
  import opened DispatchTables

  datatype Arrival = Arrival(message: Message, at: Time)

  function RecordOne(d: Desk, a: Arrival): Desk {
    var r := Record(d, a.message, a.at);
    if r.Some? then r.value else d
  }

  /** Records a stream of deliveries in order. */
  function RecordAll(d: Desk, stream: seq<Arrival>): Desk
    decreases |stream|
  {
    if stream == [] then d else RecordAll(RecordOne(d, stream[0]), stream[1..])
  }

  lemma {:induction false} RecordParts(d: Desk, a: seq<Arrival>, b: seq<Arrival>)
    ensures RecordAll(d, a + b) == RecordAll(RecordAll(d, a), b)
    decreases |a|
  {
    if a == [] {
      assert a + b == b;
    } else {
      assert (a + b)[0] == a[0] && (a + b)[1..] == a[1..] + b;
      RecordParts(RecordOne(d, a[0]), a[1..], b);
    }
  }

  // ---------- redelivery ----------

  /** Recording the message again would change nothing. */
  predicate Seen(d: Desk, m: Message) {
    !m.Valid() || (m.sequence <= d.checkpoint && (m.delivery == "" || m.delivery in d.deliveries))
  }

  lemma SeenIsIgnored(d: Desk, a: Arrival)
    requires Seen(d, a.message)
    ensures RecordOne(d, a) == d
  {}

  lemma RecordingSees(d: Desk, a: Arrival)
    ensures Seen(RecordOne(d, a), a.message)
  {}

  lemma SeenStays(d: Desk, a: Arrival, m: Message)
    requires Seen(d, m)
    ensures Seen(RecordOne(d, a), m)
  {}

  lemma {:induction false} SeenForever(d: Desk, stream: seq<Arrival>, m: Message)
    requires Seen(d, m)
    ensures Seen(RecordAll(d, stream), m)
    decreases |stream|
  {
    if stream == [] {
    } else {
      SeenStays(d, stream[0], m);
      SeenForever(RecordOne(d, stream[0]), stream[1..], m);
    }
  }

  lemma {:induction false} StreamIsSeen(d: Desk, stream: seq<Arrival>, i: nat)
    requires i < |stream|
    ensures Seen(RecordAll(d, stream), stream[i].message)
    decreases |stream|
  {
    if i == 0 {
      RecordingSees(d, stream[0]);
      SeenForever(RecordOne(d, stream[0]), stream[1..], stream[0].message);
    } else {
      StreamIsSeen(RecordOne(d, stream[0]), stream[1..], i - 1);
    }
  }

  function Without(stream: seq<Arrival>, k: nat): seq<Arrival>
    requires k < |stream|
  {
    stream[..k] + stream[k + 1..]
  }

  /** Arrival `k` repeats the message of an earlier one, at whatever time. */
  predicate Repeats(stream: seq<Arrival>, k: nat)
    requires k < |stream|
  {
    exists i | 0 <= i < k :: stream[i].message == stream[k].message
  }

  lemma RepeatIsIgnored(d: Desk, stream: seq<Arrival>, k: nat)
    requires k < |stream| && Repeats(stream, k)
    ensures RecordAll(d, stream) == RecordAll(d, Without(stream, k))
  {
    var i :| 0 <= i < k && stream[i].message == stream[k].message;
    var before := RecordAll(d, stream[..k]);
    StreamIsSeen(d, stream[..k], i);
    SeenIsIgnored(before, stream[k]);
    assert stream == stream[..k] + ([stream[k]] + stream[k + 1..]);
    RecordParts(d, stream[..k], [stream[k]] + stream[k + 1..]);
    RecordParts(d, stream[..k], stream[k + 1..]);
    assert ([stream[k]] + stream[k + 1..])[1..] == stream[k + 1..];
  }

  /** `replayed` is `stream` with redeliveries of earlier messages inserted anywhere later. */
  ghost predicate Redelivers(stream: seq<Arrival>, replayed: seq<Arrival>)
    decreases |replayed|
  {
    || replayed == stream
    || exists k | 0 <= k < |replayed| :: Repeats(replayed, k) && Redelivers(stream, Without(replayed, k))
  }

  /** A replayed stream leaves exactly the same tables, timestamps included. */
  lemma {:induction false} ReplayChangesNothing(d: Desk, stream: seq<Arrival>, replayed: seq<Arrival>)
    requires Redelivers(stream, replayed)
    ensures RecordAll(d, replayed) == RecordAll(d, stream)
    decreases |replayed|
  {
    if replayed != stream {
      var k :| 0 <= k < |replayed| && Repeats(replayed, k) && Redelivers(stream, Without(replayed, k));
      RepeatIsIgnored(d, replayed, k);
      ReplayChangesNothing(d, stream, Without(replayed, k));
    }
  }

  // ---------- one job per semantic key, the first one ----------

  predicate JobsOk(d: Desk) {
    && (forall j | j in d.jobs :: 1 <= j <= d.lastJob)
    && (forall i, j | i in d.jobs && j in d.jobs && d.jobs[i].key == d.jobs[j].key :: i == j)
  }

  lemma RecordKeepsJobs(d: Desk, a: Arrival)
    requires JobsOk(d)
    ensures JobsOk(RecordOne(d, a))
    ensures forall j | j in d.jobs :: j in RecordOne(d, a).jobs && RecordOne(d, a).jobs[j] == d.jobs[j]
  {}

  /** The first delivery that names a key gets a job; whatever comes later leaves that job alone and adds no other. */
  lemma {:induction false} FirstJobWins(d: Desk, stream: seq<Arrival>, j: JobId)
    requires JobsOk(d) && j in d.jobs
    ensures
      var u := RecordAll(d, stream);
      && JobsOk(u) && j in u.jobs && u.jobs[j] == d.jobs[j]
      && (forall i | i in u.jobs && u.jobs[i].key == d.jobs[j].key :: i == j)
    decreases |stream|
  {
    if stream == [] {
    } else {
      RecordKeepsJobs(d, stream[0]);
      FirstJobWins(RecordOne(d, stream[0]), stream[1..], j);
    }
  }

  lemma CandidateGetsJob(d: Desk, a: Arrival)
    requires a.message.Valid() && a.message.candidate.Some? && a.message.delivery !in d.deliveries
    ensures HasKey(RecordOne(d, a), a.message.candidate.value.Key())
    ensures
      var c := a.message.candidate.value;
      !HasKey(d, c.Key()) ==>
          var j := d.lastJob + 1; j in RecordOne(d, a).jobs && RecordOne(d, a).jobs[j] == NewJob(c, a.at)
  {
    var c := a.message.candidate.value;
    var u := RecordOne(d, a);
    if !HasKey(d, c.Key()) {
      assert d.lastJob + 1 in u.jobs && u.jobs[d.lastJob + 1].key == c.Key();
    } else {
      var j :| j in d.jobs && d.jobs[j].key == c.Key();
      assert j in u.jobs && u.jobs[j].key == c.Key();
    }
  }

  // ---------- the checkpoint ----------

  /** The checkpoint is the highest sequence of any acceptable message, or what it was before if that is higher. */
  lemma {:induction false} CheckpointIsHighest(d: Desk, stream: seq<Arrival>)
    ensures
      var c := RecordAll(d, stream).checkpoint;
      && d.checkpoint <= c
      && (forall i | 0 <= i < |stream| && stream[i].message.Valid() :: stream[i].message.sequence <= c)
      && (c == d.checkpoint || exists i | 0 <= i < |stream| ::
         stream[i].message.Valid() && stream[i].message.sequence == c)
    decreases |stream|
  {
    if stream == [] {
    } else {
      var rest := stream[1..];
      CheckpointIsHighest(RecordOne(d, stream[0]), rest);
      var c := RecordAll(d, stream).checkpoint;
      forall i | 0 <= i < |stream| && stream[i].message.Valid()
        ensures stream[i].message.sequence <= c
      {
        assert i > 0 ==> stream[i] == rest[i - 1];
      }
      if c != d.checkpoint {
        if c == RecordOne(d, stream[0]).checkpoint {
          assert stream[0].message.Valid() && stream[0].message.sequence == c;
        } else {
          var i :| 0 <= i < |rest| && rest[i].message.Valid() && rest[i].message.sequence == c;
          assert stream[i + 1] == rest[i];
        }
      }
    }
  }
}
