/** The batched pylogix service with a tally: `/insertDataToPlc` splits the
    flattened payload into batches of `BATCH_SIZE`, writes each with up to
    `RETRY_ATTEMPTS` attempts, counts the batches that succeeded and failed,
    and answers 207 when any failed. */
module G2 {
  import opened Driver
  import opened Payload
  import opened Writer
  import opened Connection
  import opened Replies
  import Planner

  const BatchSize: nat := 50
  const RetryAttempts: nat := 3

  /** How many of the outcomes equal b. */
  function Count(outcomes: seq<bool>, b: bool): (n: nat)
    ensures n <= |outcomes|
    decreases |outcomes|
  {
    if outcomes == [] then 0 else (if outcomes[0] == b then 1 else 0) + Count(outcomes[1..], b)
  }

  /** Count is the multiplicity of b: it does not depend on the order in
      which the outcomes were collected. */
  lemma {:induction false} CountIsMultiplicity(outcomes: seq<bool>, b: bool)
    ensures Count(outcomes, b) == multiset(outcomes)[b]
    decreases |outcomes|
  {
    if outcomes != [] {
      CountIsMultiplicity(outcomes[1..], b);
      assert outcomes == [outcomes[0]] + outcomes[1..];
      assert multiset(outcomes) == multiset([outcomes[0]]) + multiset(outcomes[1..]);
    }
  }

  /** Every outcome is either a success or a failure. */
  lemma {:induction false} CountsCover(outcomes: seq<bool>)
    ensures Count(outcomes, true) + Count(outcomes, false) == |outcomes|
    decreases |outcomes|
  {
    if outcomes != [] {
      CountsCover(outcomes[1..]);
    }
  }

  /** `as_completed` hands the results over in completion order, which may be
      any permutation of the submission order; the counts are the same for
      all of them. */
  lemma CountsIgnoreOrder(completed: seq<bool>, submitted: seq<bool>, b: bool)
    requires multiset(completed) == multiset(submitted)
    ensures Count(completed, b) == Count(submitted, b)
  {
    CountIsMultiplicity(completed, b);
    CountIsMultiplicity(submitted, b);
  }

  /** There is a failure to count exactly when some batch failed. */
  lemma {:induction false} CountFailures(outcomes: seq<bool>)
    ensures Count(outcomes, false) > 0 <==> exists k :: 0 <= k < |outcomes| && !outcomes[k]
    decreases |outcomes|
  {
    if outcomes != [] {
      CountFailures(outcomes[1..]);
      if !outcomes[0] {
        assert !outcomes[0];
      } else if exists k :: 0 <= k < |outcomes| && !outcomes[k] {
        var k :| 0 <= k < |outcomes| && !outcomes[k];
        assert !outcomes[1..][k - 1];
      } else {
        forall k | 0 <= k < |outcomes[1..]|
          ensures outcomes[1..][k]
        {
          assert outcomes[1..][k] == outcomes[k + 1];
        }
      }
    }
  }

  /** One more collected outcome adds one to its own count only. */
  lemma CountSnoc(outcomes: seq<bool>, b: bool, x: bool)
    ensures Count(outcomes + [x], b) == Count(outcomes, b) + (if x == b then 1 else 0)
  {
    CountIsMultiplicity(outcomes + [x], b);
    CountIsMultiplicity(outcomes, b);
    assert multiset(outcomes + [x]) == multiset(outcomes) + multiset{x};
  }

  /** The loop over the finished futures. */
  method Tally(outcomes: seq<bool>) returns (successes: nat, failures: nat)
    ensures successes == Count(outcomes, true) && failures == Count(outcomes, false)
  {
    successes, failures := 0, 0;
    var i := 0;
    while i < |outcomes|
      invariant 0 <= i <= |outcomes|
      invariant successes == Count(outcomes[..i], true) && failures == Count(outcomes[..i], false)
    {
      assert outcomes[..i + 1] == outcomes[..i] + [outcomes[i]];
      CountSnoc(outcomes[..i], true, outcomes[i]);
      CountSnoc(outcomes[..i], false, outcomes[i]);
      if outcomes[i] {
        successes := successes + 1;
      } else {
        failures := failures + 1;
      }
      i := i + 1;
    }
    assert outcomes[..|outcomes|] == outcomes;
  }

  /** The answer chosen from the counts. */
  function Verdict(successes: nat, failures: nat): Reply {
    if failures > 0 then Partial(207, successes, failures) else Plain(200)
  }

  /** Every batch of the flattened pairs, written with retries from log
      position q. */
  function WriteBatches(F: set<nat>, q: nat, ops: seq<Op>): (f: Fold)
    ensures |f.outcomes| == |Planner.Batches(ops, BatchSize)|
  {
    RunBatches(Retrying(RetryAttempts), F, q, Planner.Batches(ops, BatchSize))
  }

  /** The answer for the collected outcomes. */
  function Answer(outcomes: seq<bool>): Reply {
    Verdict(Count(outcomes, true), Count(outcomes, false))
  }

  /** The handler once the connection is up, from log position q. */
  function Accept(F: set<nat>, q: nat, body: Json): Outcome
  {
    if !Truthy(body) then Outcome(Plain(400), true, [])
    else
      match Flatten(body)
      case None => Outcome(Plain(500), true, [])
      case Some(ops) =>
        var f := WriteBatches(F, q, ops);
        Outcome(Answer(f.outcomes), true, f.calls)
  }

  /** `insert_data_to_plc` from log position p under the set F of raising
      positions; the batches run one after the other. */
  function HandleInsert(F: set<nat>, p: nat, connected: bool, body: Json): Outcome
  {
    var s := Ensure(F, p, connected);
    if !s.connected then Outcome(Plain(500), false, s.calls)
    else
      var a := Accept(F, p + |s.calls|, body);
      Outcome(a.reply, true, s.calls + a.calls)
  }

  /** With the connection up, the handler is `Accept` after the calls made
      to get it up. */
  lemma HandleInsertConnected(F: set<nat>, p: nat, connected: bool, body: Json)
    requires Ensure(F, p, connected).connected
    ensures var s := Ensure(F, p, connected);
      var a := Accept(F, p + |s.calls|, body);
      HandleInsert(F, p, connected, body) == Outcome(a.reply, true, s.calls + a.calls)
  {
  }

  /** The answer is 207 exactly when a batch failed, even if every batch
      failed, and it then reports both counts, which add up to the number of
      batches; otherwise it is 200. */
  lemma AnswerMeaning(outcomes: seq<bool>)
    ensures var r := Answer(outcomes);
      (r.status == 207 <==> exists k :: 0 <= k < |outcomes| && !outcomes[k])
      && (r.status == 207 ==> r.Partial? && r.written + r.failed == |outcomes|)
      && (r.status != 207 ==> r == Plain(200))
  {
    CountFailures(outcomes);
    CountsCover(outcomes);
  }

  /** The answer is 200, 207, 400 or 500. 400 means the connection was up
      and the body falsy; 500 means the reconnect failed, or the body was
      truthy but the comprehension raised on it; the flag is what the
      connection check left. */
  lemma InsertStatus(F: set<nat>, p: nat, connected: bool, body: Json)
    ensures var o := HandleInsert(F, p, connected, body);
      var s := Ensure(F, p, connected);
      o.reply.status in {200, 207, 400, 500}
      && (o.reply.status == 400 <==> s.connected && !Truthy(body))
      && (o.reply.status == 500 <==> !s.connected || (Truthy(body) && Flatten(body).None?))
      && (o.reply.status in {200, 207} <==> s.connected && Truthy(body) && Flatten(body).Some?)
      && o.connected == s.connected
  {
    var s := Ensure(F, p, connected);
    if s.connected {
      HandleInsertConnected(F, p, connected, body);
      if Truthy(body) && Flatten(body).Some? {
        var f := WriteBatches(F, p + |s.calls|, Flatten(body).value);
        AnswerMeaning(f.outcomes);
      }
    }
  }

  /** Once the payload is accepted, the answer is 207 exactly when one of
      the ceil(len(ops) / 50) batches failed, and its counts cover them all. */
  lemma InsertCounts(F: set<nat>, p: nat, connected: bool, body: Json)
    requires Ensure(F, p, connected).connected && Truthy(body) && Flatten(body).Some?
    ensures var ops := Flatten(body).value;
      var f := WriteBatches(F, p + |Ensure(F, p, connected).calls|, ops);
      var r := HandleInsert(F, p, connected, body).reply;
      (r.status == 207 <==> exists k :: 0 <= k < |f.outcomes| && !f.outcomes[k])
      && (r.status == 207 ==> r.written + r.failed == |Planner.Batches(ops, BatchSize)|)
      && (r.status != 207 ==> r == Plain(200))
  {
    var ops := Flatten(body).value;
    var f := WriteBatches(F, p + |Ensure(F, p, connected).calls|, ops);
    HandleInsertConnected(F, p, connected, body);
    AnswerMeaning(f.outcomes);
  }

  /** Items without keys, such as `[{}]`, make no batch: nothing is written,
      both counts are zero and the answer is 200. */
  lemma InsertEmptyRecords(F: set<nat>, p: nat, items: seq<Item>)
    requires |items| > 0 && forall i :: 0 <= i < |items| ==> items[i] == Record([])
    ensures HandleInsert(F, p, true, Iterable(items)) == Outcome(Plain(200), true, [])
  {
    FlattenEmptyRecords(items);
    var none: seq<Op> := [];
    Planner.BatchesCount(none, BatchSize);
  }

  /** Against a transport that never raises, every pair is written once, in
      flattened order, and the answer is 200. */
  lemma InsertHealthyTransport(F: set<nat>, p: nat, body: Json)
    requires Truthy(body) && Flatten(body).Some?
    requires forall q: nat :: q >= p ==> q !in F
    ensures HandleInsert(F, p, true, body) == Outcome(Plain(200), true, WriteCalls(Flatten(body).value))
  {
    var ops := Flatten(body).value;
    var batches := Planner.Batches(ops, BatchSize);
    RunBatchesNeverRaising(Retrying(RetryAttempts), F, p, batches);
    Planner.BatchesConcat(ops, BatchSize);
    AnswerMeaning(WriteBatches(F, p, ops).outcomes);
  }

  /** The executor block and the tally after it. */
  method WriteAndTally(plc: Plc, ops: seq<Op>) returns (reply: Reply)
    modifies plc
    ensures var f := WriteBatches(plc.oracle.raises, |old(plc.log)|, ops);
      reply == Answer(f.outcomes) && plc.log == old(plc.log) + f.calls
  {
    var outcomes := RunAll(plc, Planner.Batches(ops, BatchSize), Retrying(RetryAttempts));
    var successes, failures := Tally(outcomes);
    reply := Verdict(successes, failures);
  }

  /** Validation, flattening, the executor block and the tally. */
  method AcceptData(plc: Plc, body: Json) returns (reply: Reply)
    modifies plc
    ensures var a := Accept(plc.oracle.raises, |old(plc.log)|, body);
      reply == a.reply && plc.log == old(plc.log) + a.calls
  {
    if !Truthy(body) {
      return Plain(400);
    }
    var ops := Flatten(body);
    if ops.None? {
      return Plain(500);
    }
    reply := WriteAndTally(plc, ops.value);
  }

  /** `insert_data_to_plc`. */
  method InsertData(link: Link, body: Json) returns (reply: Reply)
    modifies link, link.plc
    ensures var o := HandleInsert(link.plc.oracle.raises, |old(link.plc.log)|, old(link.connected), body);
      reply == o.reply && link.connected == o.connected && link.plc.log == old(link.plc.log) + o.calls
  {
    ghost var s := Ensure(link.plc.oracle.raises, |link.plc.log|, link.connected);
    var up := link.EnsureConnection();
    if !up {
      return Plain(500);
    }
    ghost var a := Accept(link.plc.oracle.raises, |link.plc.log|, body);
    HandleInsertConnected(link.plc.oracle.raises, |old(link.plc.log)|, old(link.connected), body);
    reply := AcceptData(link.plc, body);
    Regroup(old(link.plc.log), s.calls, a.calls);
  }
}
