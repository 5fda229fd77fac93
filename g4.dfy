/** The single-batch pylogix service: `/insertDataToPlc` writes the whole
    flattened payload as one batch with up to three attempts, and
    `/readDataFromPlc` reads the requested tags one after the other. The
    connection flag and `/closeConnection` are `Connection.Link`. */
module G4 {
  import opened Wrappers
  import opened Values
  import opened Driver
  import opened Payload
  import opened Writer
  import opened Connection
  import opened Replies

  /** `for attempt in range(3)` */
  const Attempts: nat := 3

  /** The handler once the connection is up, from log position q:
      validate, flatten, then write with retries. */
  function Accept(F: set<nat>, q: nat, body: Json): Outcome
  {
    if !Truthy(body) then Outcome(Plain(400), true, [])
    else
      match Flatten(body)
      case None => Outcome(Plain(500), true, [])
      case Some(ops) =>
        var r := Retry(F, q, ops, Attempts);
        Outcome(Plain(if r.ok then 200 else 500), true, r.calls)
  }

  /** `insert_data_to_plc` from log position p under the set F of raising
      positions. */
  function HandleInsert(F: set<nat>, p: nat, connected: bool, body: Json): Outcome
  {
    var s := Ensure(F, p, connected);
    if !s.connected then Outcome(Plain(500), false, s.calls)
    else
      var a := Accept(F, p + |s.calls|, body);
      Outcome(a.reply, true, s.calls + a.calls)
  }

  /** With the connection up, the handler is `Accept` after the calls made
      to get it up. */
  lemma HandleInsertConnected(F: set<nat>, p: nat, connected: bool, body: Json)
    requires Ensure(F, p, connected).connected
    ensures var s := Ensure(F, p, connected);
      var a := Accept(F, p + |s.calls|, body);
      HandleInsert(F, p, connected, body) == Outcome(a.reply, true, s.calls + a.calls)
  {
  }

  /** The connection is checked before the payload is looked at: when it
      cannot be re-established the answer is 500 for every payload, even an
      empty one, and the only call is the failed Open. */
  lemma InsertConnectsFirst(F: set<nat>, p: nat, connected: bool, body: Json)
    requires !Ensure(F, p, connected).connected
    ensures HandleInsert(F, p, connected, body) == Outcome(Plain(500), false, [Open])
  {
  }

  /** A falsy payload (`null`, `[]`, `{}`, `""`, 0, false) is refused with 400
      before anything is written. */
  lemma InsertRejectsEmptyPayload(F: set<nat>, p: nat, connected: bool, body: Json)
    requires Ensure(F, p, connected).connected && !Truthy(body)
    ensures var o := HandleInsert(F, p, connected, body);
      o.reply.status == 400 && forall k :: 0 <= k < |o.calls| ==> !o.calls[k].Write?
  {
  }

  /** The answer is always 200, 400 or 500; it is 200 exactly when the
      connection is up, the payload is truthy, every element is an object,
      and one of the three attempts wrote every pair. */
  lemma InsertStatus(F: set<nat>, p: nat, connected: bool, body: Json)
    ensures var o := HandleInsert(F, p, connected, body);
      var s := Ensure(F, p, connected);
      o.reply.status in {200, 400, 500}
      && (o.reply.status == 200 <==>
            s.connected && Truthy(body) && Flatten(body).Some?
            && Retry(F, p + |s.calls|, Flatten(body).value, Attempts).ok)
      && (o.reply.status == 400 <==> s.connected && !Truthy(body))
      && o.connected == s.connected
  {
  }

  /** Once connected, a 200 answer means the last calls made were one
      complete pass over the flattened pairs, in flattened order, each value
      written as its `str()`. */
  lemma AcceptSuccessWritesEverything(F: set<nat>, q: nat, body: Json)
    requires Accept(F, q, body).reply.status == 200
    ensures Flatten(body).Some?
    ensures EndsWith(Accept(F, q, body).calls, WriteCalls(Flatten(body).value))
  {
    RetryEndsWithFullPass(F, q, Flatten(body).value, Attempts);
  }

  /** The same for the whole request, whose first call may be an Open. */
  lemma InsertSuccessWritesEverything(F: set<nat>, p: nat, connected: bool, body: Json)
    requires HandleInsert(F, p, connected, body).reply.status == 200
    ensures Flatten(body).Some?
    ensures EndsWith(HandleInsert(F, p, connected, body).calls, WriteCalls(Flatten(body).value))
  {
    var s := Ensure(F, p, connected);
    HandleInsertConnected(F, p, connected, body);
    var a := Accept(F, p + |s.calls|, body);
    AcceptSuccessWritesEverything(F, p + |s.calls|, body);
    EndsWithAppend(s.calls, a.calls, WriteCalls(Flatten(body).value));
  }

  /** Once connected, at most three attempts: never more than three
      one-second sleeps, and a write failure slept all three times. */
  lemma AcceptSleeps(F: set<nat>, q: nat, body: Json)
    ensures var a := Accept(F, q, body);
      Sleeps(a.calls) <= Attempts
      && (a.reply.status == 500 && Flatten(body).Some? ==> Sleeps(a.calls) == Attempts)
  {
    if Truthy(body) && Flatten(body).Some? {
      RetrySleeps(F, q, Flatten(body).value, Attempts);
    }
  }

  /** The same for the whole request: reconnecting never sleeps. */
  lemma InsertSleeps(F: set<nat>, p: nat, connected: bool, body: Json)
    ensures var o := HandleInsert(F, p, connected, body);
      Sleeps(o.calls) <= Attempts
      && (o.reply.status == 500 && o.connected && Flatten(body).Some? ==> Sleeps(o.calls) == Attempts)
  {
    var s := Ensure(F, p, connected);
    assert Sleeps(s.calls) == 0;
    if s.connected {
      HandleInsertConnected(F, p, connected, body);
      AcceptSleeps(F, p + |s.calls|, body);
      SleepsAppend(s.calls, Accept(F, p + |s.calls|, body).calls);
    }
  }

  /** Against a transport that never raises, a connected service writes each
      pair exactly once, in order, and answers 200. */
  lemma InsertHealthyTransport(F: set<nat>, p: nat, body: Json)
    requires Truthy(body) && Flatten(body).Some?
    requires Clear(F, p, |Flatten(body).value|)
    ensures HandleInsert(F, p, true, body) == Outcome(Plain(200), true, WriteCalls(Flatten(body).value))
  {
    RetryAllSucceed(F, p, Flatten(body).value, Attempts);
  }

  /** Validation, flattening and the write. */
  method AcceptData(plc: Plc, body: Json) returns (reply: Reply)
    modifies plc
    ensures var a := Accept(plc.oracle.raises, |old(plc.log)|, body);
      reply == a.reply && plc.log == old(plc.log) + a.calls
  {
    if !Truthy(body) {
      return Plain(400);
    }
    var ops := Flatten(body);
    if ops.None? {
      return Plain(500);
    }
    var ok := BatchWriteWithRetry(plc, ops.value, Attempts);
    reply := Plain(if ok then 200 else 500);
  }

  /** `insert_data_to_plc`. */
  method InsertData(link: Link, body: Json) returns (reply: Reply)
    modifies link, link.plc
    ensures var o := HandleInsert(link.plc.oracle.raises, |old(link.plc.log)|, old(link.connected), body);
      reply == o.reply && link.connected == o.connected && link.plc.log == old(link.plc.log) + o.calls
  {
    ghost var s := Ensure(link.plc.oracle.raises, |link.plc.log|, link.connected);
    var up := link.EnsureConnection();
    if !up {
      return Plain(500);
    }
    ghost var a := Accept(link.plc.oracle.raises, |link.plc.log|, body);
    HandleInsertConnected(link.plc.oracle.raises, |old(link.plc.log)|, old(link.connected), body);
    reply := AcceptData(link.plc, body);
    Regroup(old(link.plc.log), s.calls, a.calls);
  }

  /** The body of a read request, as far as the handler looks at it. */
  datatype TagsPayload =
    | NoTags           // falsy, or truthy without a 'tags' key
    | Malformed        // `'tags' in payload` or `payload['tags']` raises
    | TagsNotIterable  // `payload['tags']` is null, a number or a boolean
    | Tags(list: seq<Tag>)  // what iterating `payload['tags']` yields

  /** `read_data_from_plc` from log position p. */
  function HandleRead(o: Oracle, p: nat, connected: bool, payload: TagsPayload): (r: Outcome)
    ensures r.reply.status in {200, 400, 500}
  {
    var s := Ensure(o.raises, p, connected);
    if !s.connected then Outcome(Plain(500), false, s.calls)
    else
      match payload
      case NoTags => Outcome(Plain(400), true, s.calls)
      case Malformed => Outcome(Plain(500), true, s.calls)
      case TagsNotIterable => Outcome(Plain(500), true, s.calls)
      case Tags(list) =>
        Outcome(Data(200, ReadResults(o, p + |s.calls|, list)), true, s.calls + ReadCalls(list))
  }

  /** Reads happen only for a 200 answer; 400 means the connection was up and
      no tags were given. */
  lemma ReadStatus(o: Oracle, p: nat, connected: bool, payload: TagsPayload)
    ensures var r := HandleRead(o, p, connected, payload);
      var s := Ensure(o.raises, p, connected);
      (r.reply.status == 200 <==> s.connected && payload.Tags?)
      && (r.reply.status == 400 <==> s.connected && payload.NoTags?)
      && (r.reply.status != 200 ==> r.calls == s.calls)
      && r.connected == s.connected
  {
  }

  /** A 200 answer carries one entry per requested tag, no other key, and
      each tag's entry is what its last read returned (None when that read
      raised); a failed read does not stop the later ones. */
  lemma ReadAnswersEveryTag(o: Oracle, p: nat, connected: bool, list: seq<Tag>, i: nat)
    requires Ensure(o.raises, p, connected).connected
    requires i < |list| && forall j :: i < j < |list| ==> list[j] != list[i]
    ensures var r := HandleRead(o, p, connected, Tags(list));
      var q := p + |Ensure(o.raises, p, connected).calls|;
      r.reply.Data? && r.reply.data.Keys == (set k | 0 <= k < |list| :: list[k])
      && r.reply.data[list[i]] == Writer.ReadOutcome(o, q + i)
  {
    var q := p + |Ensure(o.raises, p, connected).calls|;
    ReadKeys(o, q, list);
    ReadLastWins(o, q, list, i);
  }

  /** `read_data_from_plc`. */
  method ReadData(link: Link, payload: TagsPayload) returns (reply: Reply)
    modifies link, link.plc
    ensures var r := HandleRead(link.plc.oracle, |old(link.plc.log)|, old(link.connected), payload);
      reply == r.reply && link.connected == r.connected && link.plc.log == old(link.plc.log) + r.calls
  {
    var up := link.EnsureConnection();
    if !up {
      return Plain(500);
    }
    match payload
    case NoTags =>
      reply := Plain(400);
    case Malformed =>
      reply := Plain(500);
    case TagsNotIterable =>
      reply := Plain(500);
    case Tags(list) =>
      var results := BatchRead(link.plc, list);
      reply := Data(200, results);
  }
}
