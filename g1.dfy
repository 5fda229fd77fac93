/** The first batched pylogix service: `/insertDataToPlc` splits the
    flattened payload into batches of `BATCH_SIZE`, writes each batch once
    without retrying, and answers 500 as soon as it sees a failed batch. Its
    "reconnect" only raises the flag; `/closeConnection` is
    `Connection.Link.CloseConnection`. */
module G1 {
  import opened Driver
  import opened Payload
  import opened Writer
  import opened Connection
  import opened Replies
  import Planner

  const BatchSize: nat := 50

  /** Every batch of the flattened pairs, each written once from log
      position q. */
  function WriteBatches(F: set<nat>, q: nat, ops: seq<Op>): (f: Fold)
    ensures |f.outcomes| == |Planner.Batches(ops, BatchSize)|
  {
    RunBatches(Once, F, q, Planner.Batches(ops, BatchSize))
  }

  /** `insert_data_to_plc` from log position p under the set F of raising
      positions. The flag does not take part: whatever it was, it is up
      afterwards. There is no emptiness check, and any payload the
      comprehension cannot flatten makes the handler answer 500. */
  function HandleInsert(F: set<nat>, p: nat, body: Json): (o: Outcome)
    ensures o.connected
  {
    match Flatten(body)
    case None => Outcome(Plain(500), true, [])
    case Some(ops) =>
      var f := WriteBatches(F, p, ops);
      Outcome(Plain(if false in f.outcomes then 500 else 200), true, f.calls)
  }

  /** Without retries every call is a Write: nothing is opened, nothing
      sleeps. */
  lemma {:induction false} OnceOnlyWrites(F: set<nat>, p: nat, batches: seq<seq<Op>>)
    ensures var calls := RunBatches(Once, F, p, batches).calls;
      forall k :: 0 <= k < |calls| ==> calls[k].Write?
    decreases |batches|
  {
    if batches != [] {
      RunBatchesStep(Once, F, p, batches);
      var r := Execute(Once, F, p, batches[0]);
      var a := WriteAttempt(F, p, batches[0]);
      OnceOnlyWrites(F, p + |r.calls|, batches[1..]);
      forall k | 0 <= k < |r.calls|
        ensures r.calls[k].Write?
      {
        WriteCallsAt(batches[0][..a.issued], k);
      }
    }
  }

  /** Without retries each pair is written at most once. */
  lemma {:induction false} OnceWritesAtMostOnce(F: set<nat>, p: nat, batches: seq<seq<Op>>)
    ensures |RunBatches(Once, F, p, batches).calls| <= |Planner.Concat(batches)|
    decreases |batches|
  {
    if batches != [] {
      RunBatchesStep(Once, F, p, batches);
      var r := Execute(Once, F, p, batches[0]);
      OnceWritesAtMostOnce(F, p + |r.calls|, batches[1..]);
    }
  }

  /** The service never opens the connection, writes nothing but the pairs
      of the payload, each at most once, and leaves the flag up. */
  lemma InsertOnlyWrites(F: set<nat>, p: nat, body: Json)
    ensures var o := HandleInsert(F, p, body);
      o.connected && forall k :: 0 <= k < |o.calls| ==> o.calls[k].Write?
    ensures Flatten(body).Some? ==> |HandleInsert(F, p, body).calls| <= |Flatten(body).value|
  {
    if Flatten(body).Some? {
      var ops := Flatten(body).value;
      OnceOnlyWrites(F, p, Planner.Batches(ops, BatchSize));
      OnceWritesAtMostOnce(F, p, Planner.Batches(ops, BatchSize));
      Planner.BatchesConcat(ops, BatchSize);
    }
  }

  /** 200 exactly when the payload flattens and every batch went through;
      one failed batch is enough for 500, and every batch has run by then. */
  lemma InsertStatus(F: set<nat>, p: nat, body: Json)
    ensures var o := HandleInsert(F, p, body);
      o.reply.status in {200, 500}
      && (o.reply.status == 200 <==>
            Flatten(body).Some?
            && forall k :: 0 <= k < |WriteBatches(F, p, Flatten(body).value).outcomes| ==>
                 WriteBatches(F, p, Flatten(body).value).outcomes[k])
  {
  }

  /** An empty list (or object) is not refused: no batch, no call, 200. A
      payload that cannot be iterated (null, a number) answers 500 with no
      call. */
  lemma InsertEmptyOrScalar(F: set<nat>, p: nat, truthy: bool)
    ensures HandleInsert(F, p, Iterable([])) == Outcome(Plain(200), true, [])
    ensures HandleInsert(F, p, NotIterable(truthy)) == Outcome(Plain(500), true, [])
  {
    var none: seq<Op> := [];
    Planner.BatchesCount(none, BatchSize);
  }

  /** Against a transport that never raises, every pair is written once, in
      flattened order, and the answer is 200. */
  lemma InsertHealthyTransport(F: set<nat>, p: nat, body: Json)
    requires Flatten(body).Some?
    requires forall q: nat :: q >= p ==> q !in F
    ensures HandleInsert(F, p, body) == Outcome(Plain(200), true, WriteCalls(Flatten(body).value))
  {
    var ops := Flatten(body).value;
    RunBatchesNeverRaising(Once, F, p, Planner.Batches(ops, BatchSize));
    Planner.BatchesConcat(ops, BatchSize);
  }

  /** The loop over the finished futures, which returns at the first failed
      batch. */
  method FirstFailure(outcomes: seq<bool>) returns (failed: bool)
    ensures failed <==> false in outcomes
  {
    var i := 0;
    while i < |outcomes|
      invariant 0 <= i <= |outcomes|
      invariant false !in outcomes[..i]
    {
      if !outcomes[i] {
        return true;
      }
      assert outcomes[..i + 1] == outcomes[..i] + [outcomes[i]];
      i := i + 1;
    }
    assert outcomes[..i] == outcomes;
    failed := false;
  }

  /** Whatever order the futures complete in, the same answer comes out. */
  lemma FailureIgnoresOrder(completed: seq<bool>, submitted: seq<bool>)
    requires multiset(completed) == multiset(submitted)
    ensures false in completed <==> false in submitted
  {
    assert false in completed <==> false in multiset(completed);
    assert false in submitted <==> false in multiset(submitted);
  }

  /** The executor block and the loop over its results. */
  method WriteAll(plc: Plc, ops: seq<Op>) returns (reply: Reply)
    modifies plc
    ensures var f := WriteBatches(plc.oracle.raises, |old(plc.log)|, ops);
      reply == Plain(if false in f.outcomes then 500 else 200) && plc.log == old(plc.log) + f.calls
  {
    var outcomes := RunAll(plc, Planner.Batches(ops, BatchSize), Once);
    var failed := FirstFailure(outcomes);
    reply := Plain(if failed then 500 else 200);
  }

  /** `insert_data_to_plc`. */
  method InsertData(link: Link, body: Json) returns (reply: Reply)
    modifies link, link.plc
    ensures var o := HandleInsert(link.plc.oracle.raises, |old(link.plc.log)|, body);
      reply == o.reply && link.connected == o.connected && link.plc.log == old(link.plc.log) + o.calls
  {
    if !link.connected {
      link.connected := true;
    }
    var ops := Flatten(body);
    if ops.None? {
      return Plain(500);
    }
    reply := WriteAll(link.plc, ops.value);
  }
}
