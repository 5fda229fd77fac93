/** The per-batch write loops (`batch_write`, `batch_write_with_retry`), the
    sequential reader (`batch_read`) and the execution of every planned
    batch. Each loop is a method over the driver; the pure functions beside
    it say what it does when started at log position p under the set F of
    raising positions. */
module Writer {
  import opened Wrappers
  import opened Values
  import opened Driver
  import opened Payload
  import Planner

  /** The Write calls of one uninterrupted pass over a batch: every value is
      handed over as its `str()` text. */
  function WriteCalls(batch: seq<Op>): (calls: seq<Call>)
    ensures |calls| == |batch|
    decreases |batch|
  {
    if batch == [] then [] else [Write(batch[0].tag, PyStr(batch[0].value))] + WriteCalls(batch[1..])
  }

  lemma {:induction false} WriteCallsAt(batch: seq<Op>, i: nat)
    requires i < |batch|
    ensures |WriteCalls(batch)| == |batch|
    ensures WriteCalls(batch)[i] == Write(batch[i].tag, PyStr(batch[i].value))
    decreases |batch|
  {
    if i > 0 {
      WriteCallsAt(batch[1..], i - 1);
    } else if |batch| > 1 {
      WriteCallsAt(batch[1..], 0);
    }
  }

  lemma {:induction false} WriteCallsAppend(a: seq<Op>, b: seq<Op>)
    ensures WriteCalls(a + b) == WriteCalls(a) + WriteCalls(b)
    decreases |a|
  {
    if a != [] {
      var head := [Write(a[0].tag, PyStr(a[0].value))];
      assert (a + b)[0] == a[0];
      assert (a + b)[1..] == a[1..] + b;
      WriteCallsAppend(a[1..], b);
      assert WriteCalls(a + b) == head + (WriteCalls(a[1..]) + WriteCalls(b));
      assert head + (WriteCalls(a[1..]) + WriteCalls(b)) == (head + WriteCalls(a[1..])) + WriteCalls(b);
    } else {
      assert a + b == b;
    }
  }

  /** Issuing one more item extends the calls by that item's write. */
  lemma WriteCallsSnoc(batch: seq<Op>, i: nat)
    requires i < |batch|
    ensures WriteCalls(batch[..i + 1]) == WriteCalls(batch[..i]) + [Write(batch[i].tag, PyStr(batch[i].value))]
  {
    assert batch[..i + 1] == batch[..i] + [batch[i]];
    WriteCallsAppend(batch[..i], [batch[i]]);
    assert [batch[i]][1..] == [];
  }

  /** None of the n calls made from position p on raises. */
  predicate Clear(F: set<nat>, p: nat, n: nat) {
    forall q :: p <= q < p + n ==> q !in F
  }

  /** Index of the first of n consecutive calls from position p that raises,
      or n when none does. */
  function FirstRaise(F: set<nat>, p: nat, n: nat): (k: nat)
    ensures k <= n
    decreases n
  {
    if n == 0 then 0 else if p in F then 0 else 1 + FirstRaise(F, p + 1, n - 1)
  }

  /** The calls before the first raise all go through. */
  lemma {:induction false} FirstRaiseMeaning(F: set<nat>, p: nat, n: nat)
    ensures var k := FirstRaise(F, p, n);
      Clear(F, p, k) && (k < n ==> p + k in F)
    decreases n
  {
    if n > 0 && p !in F {
      FirstRaiseMeaning(F, p + 1, n - 1);
    }
  }

  /** What one attempt returned and how many writes it issued. */
  datatype Attempt = Attempt(ok: bool, issued: nat)

  /** One attempt `for key, value in batch: plc.Write(key, str(value))`
      inside a `try`: writes go out in batch order and the first raising
      write ends the attempt. Its calls are `WriteCalls(batch[..issued])`. */
  function WriteAttempt(F: set<nat>, p: nat, batch: seq<Op>): (a: Attempt)
    ensures a.issued <= |batch|
    ensures a.ok ==> a.issued == |batch|
    ensures !a.ok ==> 0 < a.issued
  {
    var k := FirstRaise(F, p, |batch|);
    if k == |batch| then Attempt(true, k) else Attempt(false, k + 1)
  }

  /** An attempt succeeds exactly when none of its writes raises; a failed
      attempt stops at the first raising write, the last one it issued. */
  lemma WriteAttemptMeaning(F: set<nat>, p: nat, batch: seq<Op>)
    ensures var a := WriteAttempt(F, p, batch);
      (a.ok <==> Clear(F, p, |batch|))
      && (!a.ok ==> p + a.issued - 1 in F && Clear(F, p, a.issued - 1))
  {
    FirstRaiseMeaning(F, p, |batch|);
  }

  /** The number of one-second sleeps among the calls. */
  function Sleeps(calls: seq<Call>): nat
    decreases |calls|
  {
    if calls == [] then 0 else (if calls[0] == Sleep(1) then 1 else 0) + Sleeps(calls[1..])
  }

  lemma {:induction false} SleepsAppend(a: seq<Call>, b: seq<Call>)
    ensures Sleeps(a + b) == Sleeps(a) + Sleeps(b)
    decreases |a|
  {
    if a != [] {
      assert (a + b)[0] == a[0];
      assert (a + b)[1..] == a[1..] + b;
      SleepsAppend(a[1..], b);
      assert Sleeps(a + b) == (if a[0] == Sleep(1) then 1 else 0) + Sleeps(a[1..] + b);
    } else {
      assert a + b == b;
    }
  }

  lemma {:induction false} NoSleepsInWrites(batch: seq<Op>)
    ensures Sleeps(WriteCalls(batch)) == 0
    decreases |batch|
  {
    if batch != [] {
      NoSleepsInWrites(batch[1..]);
      SleepsAppend([Write(batch[0].tag, PyStr(batch[0].value))], WriteCalls(batch[1..]));
    }
  }

  /** A failed attempt and the sleep after it add exactly one sleep. */
  lemma SleepsAfterFailedAttempt(written: seq<Op>, rest: seq<Call>)
    ensures Sleeps(WriteCalls(written) + [Sleep(1)] + rest) == 1 + Sleeps(rest)
  {
    NoSleepsInWrites(written);
    assert [Sleep(1)][1..] == [];
    SleepsAppend(WriteCalls(written), [Sleep(1)]);
    SleepsAppend(WriteCalls(written) + [Sleep(1)], rest);
  }

  /** Result, number of attempts made, and calls of the retry loop. */
  datatype Retried = Retried(ok: bool, attempts: nat, calls: seq<Call>)

  /** `for attempt in range(max)`: run an attempt; return True as soon as one
      completes; otherwise sleep one second and start over from the first
      item. False once every attempt has raised. */
  function Retry(F: set<nat>, p: nat, batch: seq<Op>, max: nat): (r: Retried)
    ensures r.attempts <= max
    ensures r.ok ==> 1 <= r.attempts
    ensures !r.ok ==> r.attempts == max
    decreases max
  {
    if max == 0 then Retried(false, 0, [])
    else
      var a := WriteAttempt(F, p, batch);
      if a.ok then Retried(true, 1, WriteCalls(batch))
      else
        var rest := Retry(F, p + a.issued + 1, batch, max - 1);
        Retried(rest.ok, rest.attempts + 1, WriteCalls(batch[..a.issued]) + [Sleep(1)] + rest.calls)
  }

  /** A sleep follows every failed attempt, the last one included. */
  lemma {:induction false} RetrySleeps(F: set<nat>, p: nat, batch: seq<Op>, max: nat)
    ensures var r := Retry(F, p, batch, max);
      Sleeps(r.calls) == if r.ok then r.attempts - 1 else r.attempts
    decreases max, 1
  {
    if max > 0 {
      if WriteAttempt(F, p, batch).ok {
        NoSleepsInWrites(batch);
      } else {
        RetrySleepsAfterFailure(F, p, batch, max);
      }
    }
  }

  lemma {:induction false} RetrySleepsAfterFailure(F: set<nat>, p: nat, batch: seq<Op>, max: nat)
    requires max > 0 && !WriteAttempt(F, p, batch).ok
    ensures var r := Retry(F, p, batch, max);
      Sleeps(r.calls) == if r.ok then r.attempts - 1 else r.attempts
    decreases max, 0
  {
    var a := WriteAttempt(F, p, batch);
    var q := p + a.issued + 1;
    var rest := Retry(F, q, batch, max - 1);
    RetrySleeps(F, q, batch, max - 1);
    SleepsJoin(Retry(F, p, batch, max), batch[..a.issued], rest);
  }

  /** A failed attempt, its sleep and a retried call that slept after each
      of its own failures: one more attempt, one more sleep. */
  lemma SleepsJoin(r: Retried, written: seq<Op>, rest: Retried)
    requires r.ok == rest.ok && r.attempts == rest.attempts + 1
    requires r.calls == WriteCalls(written) + [Sleep(1)] + rest.calls
    requires rest.ok ==> rest.attempts >= 1
    requires Sleeps(rest.calls) == if rest.ok then rest.attempts - 1 else rest.attempts
    ensures Sleeps(r.calls) == if r.ok then r.attempts - 1 else r.attempts
  {
    SleepsAfterFailedAttempt(written, rest.calls);
  }

  /** `calls` ends with `tail`. */
  predicate EndsWith(calls: seq<Call>, tail: seq<Call>) {
    |tail| <= |calls| && calls[|calls| - |tail|..] == tail
  }

  lemma EndsWithAppend(front: seq<Call>, calls: seq<Call>, tail: seq<Call>)
    requires EndsWith(calls, tail)
    ensures EndsWith(front + calls, tail)
  {
    assert (front + calls)[|front + calls| - |tail|..] == calls[|calls| - |tail|..];
  }

  /** A successful call ends with a complete pass over the batch. */
  lemma {:induction false} RetryEndsWithFullPass(F: set<nat>, p: nat, batch: seq<Op>, max: nat)
    ensures var r := Retry(F, p, batch, max);
      r.ok ==> EndsWith(r.calls, WriteCalls(batch))
    decreases max, 1
  {
    if max > 0 {
      if WriteAttempt(F, p, batch).ok {
        var calls := WriteCalls(batch);
        assert calls[|calls| - |calls|..] == calls;
      } else {
        RetryEndsWithFullPassAfterFailure(F, p, batch, max);
      }
    }
  }

  lemma {:induction false} RetryEndsWithFullPassAfterFailure(F: set<nat>, p: nat, batch: seq<Op>, max: nat)
    requires max > 0 && !WriteAttempt(F, p, batch).ok
    ensures var r := Retry(F, p, batch, max);
      r.ok ==> EndsWith(r.calls, WriteCalls(batch))
    decreases max, 0
  {
    var a := WriteAttempt(F, p, batch);
    var q := p + a.issued + 1;
    var rest := Retry(F, q, batch, max - 1);
    RetryEndsWithFullPass(F, q, batch, max - 1);
    if rest.ok {
      EndsWithAppend(WriteCalls(batch[..a.issued]) + [Sleep(1)], rest.calls, WriteCalls(batch));
    }
  }

  /** With a transport that accepts every write of the batch, the first
      attempt succeeds: exactly len(batch) writes, no sleep. */
  lemma RetryAllSucceed(F: set<nat>, p: nat, batch: seq<Op>, max: nat)
    requires max >= 1
    requires Clear(F, p, |batch|)
    ensures Retry(F, p, batch, max) == Retried(true, 1, WriteCalls(batch))
  {
    WriteAttemptMeaning(F, p, batch);
  }

  /** Every one of the n calls made from position p on raises. */
  predicate AllRaise(F: set<nat>, p: nat, n: nat) {
    forall q :: p <= q < p + n ==> q in F
  }

  /** With a transport that raises on every call the retry loop makes (two
      per attempt: the first write and the sleep, which itself never
      raises), a non-empty batch fails after exactly max attempts, each made
      of the first write and a sleep. */
  lemma {:induction false} RetryAlwaysFails(F: set<nat>, p: nat, batch: seq<Op>, max: nat)
    requires |batch| > 0 && AllRaise(F, p, 2 * max)
    ensures var r := Retry(F, p, batch, max);
      !r.ok && r.attempts == max && |r.calls| == 2 * max && Sleeps(r.calls) == max
    ensures var first := WriteCalls(batch)[0];
      forall k :: 0 <= k < max ==> Retry(F, p, batch, max).calls[2 * k] == first
    decreases max
  {
    RetrySleeps(F, p, batch, max);
    if max > 0 {
      var a := WriteAttempt(F, p, batch);
      assert p in F;
      assert a.issued == 1;
      var failed := WriteCalls(batch[..1]);
      WriteCallsSnoc(batch, 0);
      assert batch[..0] == [];
      WriteCallsAt(batch, 0);
      RetryAlwaysFails(F, p + 2, batch, max - 1);
      var rest := Retry(F, p + 2, batch, max - 1);
      var calls := failed + [Sleep(1)] + rest.calls;
      forall k | 0 <= k < max
        ensures calls[2 * k] == WriteCalls(batch)[0]
      {
        if k > 0 {
          assert calls[2 * k] == rest.calls[2 * (k - 1)];
        }
      }
    }
  }

  /** A transport whose first write raises once and then accepts the whole
      batch makes the call succeed on the second attempt. */
  lemma RetryFailsOnceThenSucceeds(F: set<nat>, p: nat, batch: seq<Op>, max: nat)
    requires |batch| > 0 && max >= 2
    requires p in F
    requires Clear(F, p + 2, |batch|)
    ensures Retry(F, p, batch, max) == Retried(true, 2, [WriteCalls(batch)[0], Sleep(1)] + WriteCalls(batch))
  {
    var a := WriteAttempt(F, p, batch);
    assert a.issued == 1;
    WriteAttemptMeaning(F, p + 2, batch);
    WriteCallsSnoc(batch, 0);
    assert batch[..0] == [];
    WriteCallsAt(batch, 0);
  }

  /** Each retry restarts the batch from its first item: whatever follows a
      sleep is the batch's first write. */
  predicate RestartsFromFirst(calls: seq<Call>, first: Call) {
    (|calls| > 0 ==> calls[0] == first)
    && forall j :: 0 <= j < |calls| - 1 && calls[j].Sleep? ==> calls[j + 1] == first
  }

  /** Joining a failed attempt (which has no sleep and starts with the first
      write), a sleep and a sequence that restarts from the first write. */
  lemma RestartsAfterFailedAttempt(failed: seq<Call>, rest: seq<Call>, first: Call)
    requires |failed| > 0 && failed[0] == first
    requires forall j :: 0 <= j < |failed| ==> !failed[j].Sleep?
    requires RestartsFromFirst(rest, first)
    ensures RestartsFromFirst(failed + [Sleep(1)] + rest, first)
  {
    var calls := failed + [Sleep(1)] + rest;
    forall j | 0 <= j < |calls| - 1 && calls[j].Sleep?
      ensures calls[j + 1] == first
    {
      if j > |failed| {
        assert calls[j] == rest[j - |failed| - 1];
        assert calls[j + 1] == rest[j - |failed|];
      }
    }
  }

  /** Each retry restarts the batch from its first item. */
  lemma {:induction false} RetryRestartsFromFirst(F: set<nat>, p: nat, batch: seq<Op>, max: nat)
    requires |batch| > 0
    ensures RestartsFromFirst(Retry(F, p, batch, max).calls, WriteCalls(batch)[0])
    decreases max, 1
  {
    if max > 0 {
      if WriteAttempt(F, p, batch).ok {
        WriteCallsAt(batch, 0);
        var calls := WriteCalls(batch);
        forall j | 0 <= j < |calls|
          ensures !calls[j].Sleep?
        {
          WriteCallsAt(batch, j);
        }
      } else {
        RetryRestartsAfterFailure(F, p, batch, max);
      }
    }
  }

  lemma {:induction false} RetryRestartsAfterFailure(F: set<nat>, p: nat, batch: seq<Op>, max: nat)
    requires |batch| > 0
    requires max > 0 && !WriteAttempt(F, p, batch).ok
    ensures RestartsFromFirst(Retry(F, p, batch, max).calls, WriteCalls(batch)[0])
    decreases max, 0
  {
    var a := WriteAttempt(F, p, batch);
    var q := p + a.issued + 1;
    var failed := WriteCalls(batch[..a.issued]);
    RetryRestartsFromFirst(F, q, batch, max - 1);
    WriteCallsAt(batch, 0);
    WriteCallsAt(batch[..a.issued], 0);
    forall j | 0 <= j < |failed|
      ensures !failed[j].Sleep?
    {
      WriteCallsAt(batch[..a.issued], j);
    }
    RestartsAfterFailedAttempt(failed, Retry(F, q, batch, max - 1).calls, WriteCalls(batch)[0]);
  }

  /** How each planned batch is written: once (`batch_write`) or with
      retries (`batch_write_with_retry`). */
  datatype Policy = Once | Retrying(max: nat)

  function Execute(policy: Policy, F: set<nat>, p: nat, batch: seq<Op>): Retried {
    match policy
    case Once =>
      var a := WriteAttempt(F, p, batch);
      Retried(a.ok, 1, WriteCalls(batch[..a.issued]))
    case Retrying(max) => Retry(F, p, batch, max)
  }

  /** The outcome of every batch, in submission order, and all calls made. */
  datatype Fold = Fold(outcomes: seq<bool>, calls: seq<Call>)

  /** Every submitted batch runs to completion, one after the other. */
  function RunBatches(policy: Policy, F: set<nat>, p: nat, batches: seq<seq<Op>>): (f: Fold)
    ensures |f.outcomes| == |batches|
    decreases |batches|
  {
    if batches == [] then Fold([], [])
    else
      var r := Execute(policy, F, p, batches[0]);
      var rest := RunBatches(policy, F, p + |r.calls|, batches[1..]);
      Fold([r.ok] + rest.outcomes, r.calls + rest.calls)
  }

  lemma Regroup<T>(a: seq<T>, b: seq<T>, c: seq<T>)
    ensures a + (b + c) == (a + b) + c
  {
  }

  lemma RunBatchesStep(policy: Policy, F: set<nat>, p: nat, batches: seq<seq<Op>>)
    requires batches != []
    ensures var r := Execute(policy, F, p, batches[0]);
      var rest := RunBatches(policy, F, p + |r.calls|, batches[1..]);
      RunBatches(policy, F, p, batches) == Fold([r.ok] + rest.outcomes, r.calls + rest.calls)
  {
  }

  /** A batch none of whose writes raises succeeds under either policy, with
      exactly its writes. */
  lemma ExecuteClear(policy: Policy, F: set<nat>, p: nat, batch: seq<Op>)
    requires policy.Retrying? ==> policy.max >= 1
    requires Clear(F, p, |batch|)
    ensures Execute(policy, F, p, batch) == Retried(true, 1, WriteCalls(batch))
  {
    WriteAttemptMeaning(F, p, batch);
    if policy.Retrying? {
      RetryAllSucceed(F, p, batch, policy.max);
    } else {
      assert batch[..|batch|] == batch;
    }
  }

  /** With a transport that never raises, every batch succeeds and the calls
      are the writes of the joined batches, in order. */
  lemma {:induction false} RunBatchesNeverRaising(policy: Policy, F: set<nat>, p: nat, batches: seq<seq<Op>>)
    requires policy.Retrying? ==> policy.max >= 1
    requires forall q: nat :: q >= p ==> q !in F
    ensures var f := RunBatches(policy, F, p, batches);
      (forall k :: 0 <= k < |f.outcomes| ==> f.outcomes[k]) && f.calls == WriteCalls(Planner.Concat(batches))
    decreases |batches|
  {
    if batches != [] {
      ExecuteClear(policy, F, p, batches[0]);
      RunBatchesStep(policy, F, p, batches);
      RunBatchesNeverRaising(policy, F, p + |batches[0]|, batches[1..]);
      WriteCallsAppend(batches[0], Planner.Concat(batches[1..]));
    }
  }

  /** `batch_write`: one attempt; True iff every write went through. */
  method BatchWrite(plc: Plc, batch: seq<Op>) returns (ok: bool)
    modifies plc
    ensures var a := WriteAttempt(plc.oracle.raises, |old(plc.log)|, batch);
      ok == a.ok && plc.log == old(plc.log) + WriteCalls(batch[..a.issued])
  {
    ghost var F := plc.oracle.raises;
    ghost var p := |plc.log|;
    var i := 0;
    while i < |batch|
      invariant 0 <= i <= |batch|
      invariant plc.log == old(plc.log) + WriteCalls(batch[..i])
      invariant Clear(F, p, i)
    {
      var written := plc.Write(batch[i].tag, PyStr(batch[i].value));
      WriteCallsSnoc(batch, i);
      if !written {
        var k := FirstRaise(F, p, |batch|);
        FirstRaiseMeaning(F, p, |batch|);
        assert p + i in F;
        assert k == i;
        assert WriteAttempt(F, p, batch).issued == i + 1;
        return false;
      }
      assert p + i !in F;
      i := i + 1;
    }
    assert batch[..i] == batch;
    WriteAttemptMeaning(F, p, batch);
    return true;
  }

  /** After a failed attempt and its sleep, the calls still to come are
      those of a fresh call with one attempt fewer. */
  lemma RetryAdvance(F: set<nat>, batch: seq<Op>, m: nat, log: seq<Call>, log': seq<Call>, done: seq<Call>, whole: Retried)
    requires m > 0 && !WriteAttempt(F, |log|, batch).ok
    requires log' == log + WriteCalls(batch[..WriteAttempt(F, |log|, batch).issued]) + [Sleep(1)]
    requires whole.ok == Retry(F, |log|, batch, m).ok
    requires whole.calls == done + Retry(F, |log|, batch, m).calls
    ensures var next := Retry(F, |log'|, batch, m - 1);
      whole.ok == next.ok
      && whole.calls == (done + WriteCalls(batch[..WriteAttempt(F, |log|, batch).issued]) + [Sleep(1)]) + next.calls
  {
  }

  /** A complete attempt ends the call with success. */
  lemma RetryFinish(F: set<nat>, batch: seq<Op>, m: nat, log: seq<Call>, done: seq<Call>, whole: Retried)
    requires m > 0 && WriteAttempt(F, |log|, batch).ok
    requires whole.ok == Retry(F, |log|, batch, m).ok
    requires whole.calls == done + Retry(F, |log|, batch, m).calls
    ensures whole.ok && whole.calls == done + WriteCalls(batch[..WriteAttempt(F, |log|, batch).issued])
  {
    assert batch[..|batch|] == batch;
  }

  /** One pass of the retry loop's body: the writes inside the `try`, and
      the one-second sleep in the `except` branch when one of them raised.
      `done` is what the loop has already issued and `whole` what the whole
      call is to issue. */
  method RetryOnce(plc: Plc, batch: seq<Op>, m: nat, ghost start: seq<Call>, ghost done: seq<Call>, ghost whole: Retried)
    returns (ok: bool, ghost done': seq<Call>)
    requires m > 0
    requires plc.log == start + done
    requires whole.ok == Retry(plc.oracle.raises, |plc.log|, batch, m).ok
    requires whole.calls == done + Retry(plc.oracle.raises, |plc.log|, batch, m).calls
    modifies plc
    ensures plc.log == start + done'
    ensures ok ==> whole.ok && whole.calls == done'
    ensures !ok ==> whole.ok == Retry(plc.oracle.raises, |plc.log|, batch, m - 1).ok
    ensures !ok ==> whole.calls == done' + Retry(plc.oracle.raises, |plc.log|, batch, m - 1).calls
  {
    ghost var F := plc.oracle.raises;
    ghost var before := plc.log;
    ghost var issued := WriteAttempt(F, |before|, batch).issued;
    ok := BatchWrite(plc, batch);
    if ok {
      RetryFinish(F, batch, m, before, done, whole);
      Regroup(start, done, WriteCalls(batch[..issued]));
      done' := done + WriteCalls(batch[..issued]);
    } else {
      plc.Sleep(1);
      RetryAdvance(F, batch, m, before, plc.log, done, whole);
      done' := done + WriteCalls(batch[..issued]) + [Sleep(1)];
    }
  }

  /** `batch_write_with_retry` with `range(max)` attempts. */
  method BatchWriteWithRetry(plc: Plc, batch: seq<Op>, max: nat) returns (ok: bool)
    modifies plc
    ensures var r := Retry(plc.oracle.raises, |old(plc.log)|, batch, max);
      ok == r.ok && plc.log == old(plc.log) + r.calls
  {
    ghost var F := plc.oracle.raises;
    ghost var start := plc.log;
    ghost var whole := Retry(F, |start|, batch, max);
    ghost var done: seq<Call> := [];
    ok := false;
    var attempt := 0;
    while attempt < max && !ok
      invariant attempt <= max
      invariant plc.oracle.raises == F
      invariant plc.log == start + done
      invariant ok ==> whole.ok && whole.calls == done
      invariant !ok ==> whole.ok == Retry(F, |plc.log|, batch, max - attempt).ok
      invariant !ok ==> whole.calls == done + Retry(F, |plc.log|, batch, max - attempt).calls
      decreases max - attempt, if ok then 0 else 1
    {
      ok, done := RetryOnce(plc, batch, max - attempt, start, done, whole);
      if !ok {
        attempt := attempt + 1;
      }
    }
  }

  /** Writes one planned batch under the policy. */
  method RunBatch(plc: Plc, batch: seq<Op>, policy: Policy) returns (ok: bool)
    modifies plc
    ensures var r := Execute(policy, plc.oracle.raises, |old(plc.log)|, batch);
      ok == r.ok && plc.log == old(plc.log) + r.calls
  {
    match policy {
      case Once =>
        ok := BatchWrite(plc, batch);
      case Retrying(max) =>
        ok := BatchWriteWithRetry(plc, batch, max);
    }
  }

  /** Running batch i moves its outcome and calls from what is still to come
      to what is done. */
  lemma RunAdvance(policy: Policy, F: set<nat>, batches: seq<seq<Op>>, i: nat, p: nat,
                   outcomes: seq<bool>, done: seq<Call>, whole: Fold)
    requires i < |batches|
    requires whole.outcomes == outcomes + RunBatches(policy, F, p, batches[i..]).outcomes
    requires whole.calls == done + RunBatches(policy, F, p, batches[i..]).calls
    ensures var r := Execute(policy, F, p, batches[i]);
      var next := RunBatches(policy, F, p + |r.calls|, batches[i + 1..]);
      whole.outcomes == (outcomes + [r.ok]) + next.outcomes
      && whole.calls == (done + r.calls) + next.calls
  {
    assert batches[i..][0] == batches[i];
    assert batches[i..][1..] == batches[i + 1..];
    var r := Execute(policy, F, p, batches[i]);
    var next := RunBatches(policy, F, p + |r.calls|, batches[i + 1..]);
    Regroup(outcomes, [r.ok], next.outcomes);
    Regroup(done, r.calls, next.calls);
  }

  /** One pass of the submission loop: batch i runs, and its outcome and
      calls move from what is still to come to what is done. */
  method RunNext(plc: Plc, batches: seq<seq<Op>>, i: nat, policy: Policy,
                 ghost start: seq<Call>, ghost outcomes: seq<bool>, ghost done: seq<Call>, ghost whole: Fold)
    returns (ok: bool, ghost done': seq<Call>)
    requires i < |batches|
    requires plc.log == start + done
    requires whole.outcomes == outcomes + RunBatches(policy, plc.oracle.raises, |plc.log|, batches[i..]).outcomes
    requires whole.calls == done + RunBatches(policy, plc.oracle.raises, |plc.log|, batches[i..]).calls
    modifies plc
    ensures plc.log == start + done'
    ensures whole.outcomes == (outcomes + [ok]) + RunBatches(policy, plc.oracle.raises, |plc.log|, batches[i + 1..]).outcomes
    ensures whole.calls == done' + RunBatches(policy, plc.oracle.raises, |plc.log|, batches[i + 1..]).calls
  {
    ghost var F := plc.oracle.raises;
    ghost var before := plc.log;
    ghost var calls := Execute(policy, F, |before|, batches[i]).calls;
    ok := RunBatch(plc, batches[i], policy);
    RunAdvance(policy, F, batches, i, |before|, outcomes, done, whole);
    Regroup(start, done, calls);
    done' := done + calls;
    assert |plc.log| == |before| + |calls|;
  }

  /** Executes every planned batch under the policy, one after the other,
      collecting outcomes in submission order. */
  method RunAll(plc: Plc, batches: seq<seq<Op>>, policy: Policy) returns (outcomes: seq<bool>)
    modifies plc
    ensures var f := RunBatches(policy, plc.oracle.raises, |old(plc.log)|, batches);
      outcomes == f.outcomes && plc.log == old(plc.log) + f.calls
  {
    ghost var F := plc.oracle.raises;
    ghost var start := plc.log;
    ghost var whole := RunBatches(policy, F, |start|, batches);
    ghost var done: seq<Call> := [];
    outcomes := [];
    var i := 0;
    while i < |batches|
      invariant 0 <= i <= |batches|
      invariant plc.oracle.raises == F
      invariant plc.log == start + done
      invariant whole.outcomes == outcomes + RunBatches(policy, F, |plc.log|, batches[i..]).outcomes
      invariant whole.calls == done + RunBatches(policy, F, |plc.log|, batches[i..]).calls
    {
      var ok;
      ok, done := RunNext(plc, batches, i, policy, start, outcomes, done, whole);
      outcomes := outcomes + [ok];
      i := i + 1;
    }
  }

  /** What a read at log position q returns: None when it raises. */
  function ReadOutcome(o: Oracle, q: nat): Option<Value> {
    if q in o.raises then None else Some(o.reading(q))
  }

  /** The calls `batch_read` makes: one `plc.Read(tag)` per tag, in order. */
  function ReadCalls(tags: seq<Tag>): seq<Call> {
    seq(|tags|, i requires 0 <= i < |tags| => Read(tags[i]))
  }

  /** The `results` dict after reading tags in order from position p; a later
      read of the same tag overwrites the earlier one. */
  function ReadResults(o: Oracle, p: nat, tags: seq<Tag>): map<Tag, Option<Value>>
    decreases |tags|
  {
    if tags == [] then map[]
    else
      var n := |tags| - 1;
      ReadResults(o, p, tags[..n])[tags[n] := ReadOutcome(o, p + n)]
  }

  /** The result has exactly the requested tags as keys. */
  lemma {:induction false} ReadKeys(o: Oracle, p: nat, tags: seq<Tag>)
    ensures ReadResults(o, p, tags).Keys == set i | 0 <= i < |tags| :: tags[i]
    decreases |tags|
  {
    if tags != [] {
      var n := |tags| - 1;
      ReadKeys(o, p, tags[..n]);
      var before := set i | 0 <= i < n :: tags[..n][i];
      assert before == set i | 0 <= i < n :: tags[i];
      assert (set i | 0 <= i < |tags| :: tags[i]) == before + {tags[n]};
    }
  }

  /** Each tag holds what its last read returned: the value, or None when
      that read raised. Earlier failures do not affect later tags. */
  lemma {:induction false} ReadLastWins(o: Oracle, p: nat, tags: seq<Tag>, i: nat)
    requires i < |tags|
    requires forall j :: i < j < |tags| ==> tags[j] != tags[i]
    ensures tags[i] in ReadResults(o, p, tags)
    ensures ReadResults(o, p, tags)[tags[i]] == ReadOutcome(o, p + i)
    decreases |tags|
  {
    var n := |tags| - 1;
    if i < n {
      ReadLastWins(o, p, tags[..n], i);
    }
  }

  /** `batch_read`: read each tag in turn, None for a read that raised. */
  method BatchRead(plc: Plc, tags: seq<Tag>) returns (results: map<Tag, Option<Value>>)
    modifies plc
    ensures results == ReadResults(plc.oracle, |old(plc.log)|, tags)
    ensures plc.log == old(plc.log) + ReadCalls(tags)
  {
    ghost var p := |plc.log|;
    results := map[];
    var i := 0;
    while i < |tags|
      invariant 0 <= i <= |tags|
      invariant plc.log == old(plc.log) + ReadCalls(tags[..i])
      invariant results == ReadResults(plc.oracle, p, tags[..i])
    {
      var r := plc.Read(tags[i]);
      results := results[tags[i] := r];
      assert tags[..i + 1][..i] == tags[..i];
      assert ReadCalls(tags[..i + 1]) == ReadCalls(tags[..i]) + [Read(tags[i])];
      i := i + 1;
    }
    assert tags[..i] == tags;
  }
}
