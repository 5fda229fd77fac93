/** The pycomm service: `/insertDataToPlc` opens the controller once,
    starts a session on every request, and walks the payload item by item
    and key by key, writing numbers with `write_tag` and strings with
    `write_string` followed by a read-back. A failed string write or
    read-back is reported and skipped; a failed numeric write, or a value
    that is neither a number nor a string, ends the request with 500. */
module Gemini {
  import opened Wrappers
  import opened Values
  import opened Driver
  import opened Payload
  import opened Writer
  import opened Connection
  import opened Replies

  /** `'REAL' if isinstance(value, float) else 'INT'` under
      `isinstance(value, (int, float))`; None for a value that takes the
      string path. A Python bool is an int, so it is written as INT. */
  function NumericType(v: Value): (t: Option<TagType>)
    ensures t == Some(REAL) <==> v.VFloat?
    ensures t == Some(INT) <==> v.VInt? || v.VBool?
  {
    match v
    case VFloat(_) => Some(REAL)
    case VInt(_) => Some(INT)
    case VBool(_) => Some(INT)
    case _ => None
  }

  /** Whether processing stopped with an exception that reached the
      handler's `try`, and the calls made (sleeps included). */
  datatype Progress = Progress(aborted: bool, calls: seq<Call>)

  /** One key of one item, from log position q. */
  function WriteField(F: set<nat>, q: nat, op: Op): (st: Progress)
  {
    match NumericType(op.value)
    case Some(t) =>
      if q in F then Progress(true, [WriteTag(op.tag, op.value, t)])
      else Progress(false, [WriteTag(op.tag, op.value, t), Sleep(1)])
    case None =>
      match op.value
      case VStr(s) =>
        if q in F then Progress(false, [WriteString(op.tag, s), Sleep(1)])
        else Progress(false, [WriteString(op.tag, s), Sleep(5), ReadString(op.tag), Sleep(1)])
      case _ => Progress(true, [])
  }

  /** The keys of one item, in order, until one aborts. */
  function WriteFields(F: set<nat>, q: nat, ops: seq<Op>): (st: Progress)
    decreases |ops|
  {
    if ops == [] then Progress(false, [])
    else
      var first := WriteField(F, q, ops[0]);
      if first.aborted then first
      else
        var rest := WriteFields(F, q + |first.calls|, ops[1..]);
        Progress(rest.aborted, first.calls + rest.calls)
  }

  /** One element of the payload: anything but an object has no `.items()`. */
  function WriteItem(F: set<nat>, q: nat, item: Item): Progress {
    match item
    case NotRecord => Progress(true, [])
    case Record(fields) => WriteFields(F, q, fields)
  }

  /** The elements of the payload, in order, until one aborts. Unlike the
      pylogix services, which flatten the whole payload first, the items
      before a bad element have already been written when it is met. */
  function WriteItems(F: set<nat>, q: nat, items: seq<Item>): (st: Progress)
    decreases |items|
  {
    if items == [] then Progress(false, [])
    else
      var first := WriteItem(F, q, items[0]);
      if first.aborted then first
      else
        var rest := WriteItems(F, q + |first.calls|, items[1..]);
        Progress(rest.aborted, first.calls + rest.calls)
  }

  /** The handler once the connection is up, from log position q:
      `forward_open`, then the payload. */
  function Accept(F: set<nat>, q: nat, body: Json): Outcome
  {
    if q in F then Outcome(Plain(500), true, [ForwardOpen])
    else
      match body
      case NotIterable(_) => Outcome(Plain(500), true, [ForwardOpen])
      case Iterable(items) =>
        var st := WriteItems(F, q + 1, items);
        Outcome(Plain(if st.aborted then 500 else 200), true, [ForwardOpen] + st.calls)
  }

  /** `insert_data_to_plc` from log position p under the set F of raising
      positions. Open is tried only while the flag is down, and the flag is
      raised only once Open has returned; the state change is that of
      `Connection.Ensure`, but a raising Open answers 500 here. */
  function HandleInsert(F: set<nat>, p: nat, connected: bool, body: Json): Outcome
  {
    var s := Ensure(F, p, connected);
    if !s.connected then Outcome(Plain(500), false, s.calls)
    else
      var a := Accept(F, p + |s.calls|, body);
      Outcome(a.reply, true, s.calls + a.calls)
  }

  lemma HandleInsertConnected(F: set<nat>, p: nat, connected: bool, body: Json)
    requires Ensure(F, p, connected).connected
    ensures var s := Ensure(F, p, connected);
      var a := Accept(F, p + |s.calls|, body);
      HandleInsert(F, p, connected, body) == Outcome(a.reply, true, s.calls + a.calls)
  {
  }

  /** A string is written, and on success read back after five seconds; a
      failure of either is swallowed, so a string key never ends the request
      and is always followed by the one-second sleep. A numeric key ends the
      request exactly when its `write_tag` raises; a value of any other kind
      ends it before any call. */
  lemma FieldOutcomes(F: set<nat>, q: nat, op: Op)
    ensures var st := WriteField(F, q, op);
      (op.value.VStr? ==>
         !st.aborted && st.calls[0] == WriteString(op.tag, op.value.s) && st.calls[|st.calls| - 1] == Sleep(1))
      && (NumericType(op.value).Some? ==>
            st.calls[0] == WriteTag(op.tag, op.value, NumericType(op.value).value)
            && (st.aborted <==> q in F))
      && (NumericType(op.value).None? && !op.value.VStr? ==> st == Progress(true, []))
  {
  }

  /** The tags handed to the driver's write calls, in order. */
  function Written(calls: seq<Call>): seq<Tag>
    decreases |calls|
  {
    if calls == [] then []
    else (if calls[0].WriteTag? || calls[0].WriteString? then [calls[0].tag] else []) + Written(calls[1..])
  }

  function TagsOf(ops: seq<Op>): (tags: seq<Tag>)
    ensures |tags| == |ops|
    decreases |ops|
  {
    if ops == [] then [] else [ops[0].tag] + TagsOf(ops[1..])
  }

  /** The pairs of the objects that come before the first element that is
      not an object: everything a walk over the body can reach. */
  function LeadingPairs(items: seq<Item>): seq<Op>
    decreases |items|
  {
    if items == [] then []
    else
      match items[0]
      case NotRecord => []
      case Record(fields) => fields + LeadingPairs(items[1..])
  }

  /** a is a prefix of b, element by element. */
  predicate Prefix<T(==)>(a: seq<T>, b: seq<T>)
    decreases |a|
  {
    a == [] || (b != [] && a[0] == b[0] && Prefix(a[1..], b[1..]))
  }

  /** Prefix is Dafny's prefix order on sequences. */
  lemma {:induction false} PrefixMeaning<T>(a: seq<T>, b: seq<T>)
    ensures Prefix(a, b) <==> a <= b
    decreases |a|
  {
    if a != [] && b != [] {
      PrefixMeaning(a[1..], b[1..]);
      if a[0] == b[0] && a[1..] <= b[1..] {
        assert a == [a[0]] + a[1..] && b == [b[0]] + b[1..];
      }
    }
  }

  lemma {:induction false} PrefixAppend<T>(x: seq<T>, a: seq<T>, b: seq<T>)
    requires Prefix(a, b)
    ensures Prefix(x + a, x + b)
    decreases |x|
  {
    if x == [] {
      assert x + a == a && x + b == b;
    } else {
      assert (x + a)[1..] == x[1..] + a && (x + b)[1..] == x[1..] + b;
      PrefixAppend(x[1..], a, b);
    }
  }

  lemma {:induction false} PrefixExtend<T>(a: seq<T>, b: seq<T>, c: seq<T>)
    requires Prefix(a, b)
    ensures Prefix(a, b + c)
    decreases |a|
  {
    if a != [] {
      assert (b + c)[1..] == b[1..] + c;
      PrefixExtend(a[1..], b[1..], c);
    }
  }

  lemma {:induction false} WrittenAppend(a: seq<Call>, b: seq<Call>)
    ensures Written(a + b) == Written(a) + Written(b)
    decreases |a|
  {
    if a != [] {
      assert (a + b)[0] == a[0];
      assert (a + b)[1..] == a[1..] + b;
      WrittenAppend(a[1..], b);
    } else {
      assert a + b == b;
    }
  }

  lemma {:induction false} TagsOfAppend(a: seq<Op>, b: seq<Op>)
    ensures TagsOf(a + b) == TagsOf(a) + TagsOf(b)
    decreases |a|
  {
    if a != [] {
      assert (a + b)[0] == a[0];
      assert (a + b)[1..] == a[1..] + b;
      TagsOfAppend(a[1..], b);
    } else {
      assert a + b == b;
    }
  }

  lemma {:induction false} WrittenNone(calls: seq<Call>)
    requires forall k :: 0 <= k < |calls| ==> !calls[k].WriteTag? && !calls[k].WriteString?
    ensures Written(calls) == []
    decreases |calls|
  {
    if calls != [] {
      WrittenNone(calls[1..]);
    }
  }

  /** A key that went through was written exactly once, under its own tag. */
  lemma FieldWritesItsTag(F: set<nat>, q: nat, op: Op)
    requires !WriteField(F, q, op).aborted
    ensures Written(WriteField(F, q, op).calls) == [op.tag]
  {
    var calls := WriteField(F, q, op).calls;
    assert calls == [calls[0]] + calls[1..];
    WrittenNone(calls[1..]);
    WrittenAppend([calls[0]], calls[1..]);
  }

  /** An item that went through wrote its keys in their order. */
  lemma {:induction false} FieldsWriteInOrder(F: set<nat>, q: nat, ops: seq<Op>)
    requires !WriteFields(F, q, ops).aborted
    ensures Written(WriteFields(F, q, ops).calls) == TagsOf(ops)
    decreases |ops|
  {
    if ops != [] {
      var first := WriteField(F, q, ops[0]);
      FieldWritesItsTag(F, q, ops[0]);
      FieldsWriteInOrder(F, q + |first.calls|, ops[1..]);
      WrittenAppend(first.calls, WriteFields(F, q + |first.calls|, ops[1..]).calls);
    }
  }

  /** A payload that went through was written key by key in flattened order:
      items in list order, keys in the order `.items()` yields them. It had only objects,
      and the tags written are those of its flattening. */
  lemma {:induction false} ItemsWriteInOrder(F: set<nat>, q: nat, items: seq<Item>)
    requires !WriteItems(F, q, items).aborted
    ensures FlattenItems(items).Some?
    ensures Written(WriteItems(F, q, items).calls) == TagsOf(FlattenItems(items).value)
    decreases |items|
  {
    if items != [] {
      var first := WriteItem(F, q, items[0]);
      var fields := items[0].fields;
      FieldsWriteInOrder(F, q, fields);
      ItemsWriteInOrder(F, q + |first.calls|, items[1..]);
      WrittenAppend(first.calls, WriteItems(F, q + |first.calls|, items[1..]).calls);
      TagsOfAppend(fields, FlattenItems(items[1..]).value);
    }
  }

  /** A key writes at most its own tag, aborted or not. */
  lemma FieldWritesAtMostItsTag(F: set<nat>, q: nat, op: Op)
    ensures Prefix(Written(WriteField(F, q, op).calls), [op.tag])
  {
    var st := WriteField(F, q, op);
    if !st.aborted {
      FieldWritesItsTag(F, q, op);
    } else if st.calls != [] {
      assert st.calls[1..] == [];
    }
  }

  /** Whether or not the walk over an object is cut short, the tags it wrote
      are a prefix of its keys, in order. */
  lemma {:induction false} FieldsWritePrefix(F: set<nat>, q: nat, ops: seq<Op>)
    ensures Prefix(Written(WriteFields(F, q, ops).calls), TagsOf(ops))
    decreases |ops|
  {
    if ops != [] {
      var first := WriteField(F, q, ops[0]);
      var tags := TagsOf(ops);
      assert tags == [ops[0].tag] + TagsOf(ops[1..]);
      if first.aborted {
        assert WriteFields(F, q, ops) == first;
        FieldWritesAtMostItsTag(F, q, ops[0]);
        PrefixExtend(Written(first.calls), [ops[0].tag], TagsOf(ops[1..]));
      } else {
        var rest := WriteFields(F, q + |first.calls|, ops[1..]);
        assert WriteFields(F, q, ops).calls == first.calls + rest.calls;
        FieldWritesItsTag(F, q, ops[0]);
        FieldsWritePrefix(F, q + |first.calls|, ops[1..]);
        WrittenAppend(first.calls, rest.calls);
        PrefixAppend([ops[0].tag], Written(rest.calls), TagsOf(ops[1..]));
      }
    }
  }

  /** A walk whose first object is cut short writes a prefix of that
      object's keys and nothing after them. */
  lemma ItemsWritePrefixAborted(F: set<nat>, q: nat, items: seq<Item>)
    requires items != [] && items[0].Record?
    requires WriteFields(F, q, items[0].fields).aborted
    ensures Prefix(Written(WriteItems(F, q, items).calls), TagsOf(LeadingPairs(items)))
  {
    var fields := items[0].fields;
    var first := WriteFields(F, q, fields);
    assert WriteItems(F, q, items) == first;
    assert LeadingPairs(items) == fields + LeadingPairs(items[1..]);
    TagsOfAppend(fields, LeadingPairs(items[1..]));
    FieldsWritePrefix(F, q, fields);
    PrefixExtend(Written(first.calls), TagsOf(fields), TagsOf(LeadingPairs(items[1..])));
  }

  /** A walk whose first object goes through writes all of its keys, then
      whatever the rest of the walk writes. */
  lemma ItemsWritePrefixThrough(F: set<nat>, q: nat, items: seq<Item>)
    requires items != [] && items[0].Record?
    requires !WriteFields(F, q, items[0].fields).aborted
    requires var n := |WriteFields(F, q, items[0].fields).calls|;
      Prefix(Written(WriteItems(F, q + n, items[1..]).calls), TagsOf(LeadingPairs(items[1..])))
    ensures Prefix(Written(WriteItems(F, q, items).calls), TagsOf(LeadingPairs(items)))
  {
    var fields := items[0].fields;
    var first := WriteFields(F, q, fields);
    var rest := WriteItems(F, q + |first.calls|, items[1..]);
    var later := TagsOf(LeadingPairs(items[1..]));
    assert WriteItems(F, q, items).calls == first.calls + rest.calls;
    assert LeadingPairs(items) == fields + LeadingPairs(items[1..]);
    TagsOfAppend(fields, LeadingPairs(items[1..]));
    FieldsWriteInOrder(F, q, fields);
    WrittenAppend(first.calls, rest.calls);
    assert Written(WriteItems(F, q, items).calls) == TagsOf(fields) + Written(rest.calls);
    PrefixAppend(TagsOf(fields), Written(rest.calls), later);
  }

  /** Whether or not the walk over the body is cut short, the tags it wrote
      are a prefix of the keys it can reach, in flattened order: a request
      that ends in 500 has written the keys before the failing one, in
      order, and nothing after it. */
  lemma {:induction false} ItemsWritePrefix(F: set<nat>, q: nat, items: seq<Item>)
    ensures Prefix(Written(WriteItems(F, q, items).calls), TagsOf(LeadingPairs(items)))
    decreases |items|
  {
    if items != [] && items[0].Record? {
      var first := WriteFields(F, q, items[0].fields);
      if first.aborted {
        ItemsWritePrefixAborted(F, q, items);
      } else {
        ItemsWritePrefix(F, q + |first.calls|, items[1..]);
        ItemsWritePrefixThrough(F, q, items);
      }
    }
  }

  lemma {:induction false} SleepsNone(calls: seq<Call>)
    requires forall k :: 0 <= k < |calls| ==> calls[k] != Sleep(1)
    ensures Sleeps(calls) == 0
    decreases |calls|
  {
    if calls != [] {
      SleepsNone(calls[1..]);
    }
  }

  /** A key that went through ends with exactly one one-second sleep. */
  lemma FieldSleepsOnce(F: set<nat>, q: nat, op: Op)
    requires !WriteField(F, q, op).aborted
    ensures Sleeps(WriteField(F, q, op).calls) == 1
  {
    var calls := WriteField(F, q, op).calls;
    var n := |calls|;
    assert calls == calls[..n - 1] + [Sleep(1)];
    SleepsNone(calls[..n - 1]);
    SleepsAppend(calls[..n - 1], [Sleep(1)]);
  }

  /** One second of sleep per key of an item that went through. */
  lemma {:induction false} FieldsSleepPerKey(F: set<nat>, q: nat, ops: seq<Op>)
    requires !WriteFields(F, q, ops).aborted
    ensures Sleeps(WriteFields(F, q, ops).calls) == |ops|
    decreases |ops|
  {
    if ops != [] {
      var first := WriteField(F, q, ops[0]);
      FieldSleepsOnce(F, q, ops[0]);
      FieldsSleepPerKey(F, q + |first.calls|, ops[1..]);
      SleepsAppend(first.calls, WriteFields(F, q + |first.calls|, ops[1..]).calls);
    }
  }

  /** A payload that went through slept one second per flattened key. */
  lemma {:induction false} ItemsSleepPerKey(F: set<nat>, q: nat, items: seq<Item>)
    requires !WriteItems(F, q, items).aborted
    ensures FlattenItems(items).Some?
    ensures Sleeps(WriteItems(F, q, items).calls) == |FlattenItems(items).value|
    decreases |items|
  {
    if items != [] {
      var first := WriteItem(F, q, items[0]);
      FieldsSleepPerKey(F, q, items[0].fields);
      ItemsSleepPerKey(F, q + |first.calls|, items[1..]);
      SleepsAppend(first.calls, WriteItems(F, q + |first.calls|, items[1..]).calls);
    }
  }

  /** Keys whose values are all strings never end the request, whatever the
      driver does: every key is attempted. */
  lemma {:induction false} StringsNeverAbort(F: set<nat>, q: nat, ops: seq<Op>)
    requires forall k :: 0 <= k < |ops| ==> ops[k].value.VStr?
    ensures !WriteFields(F, q, ops).aborted
    decreases |ops|
  {
    if ops != [] {
      var first := WriteField(F, q, ops[0]);
      StringsNeverAbort(F, q + |first.calls|, ops[1..]);
    }
  }

  /** Calls made while walking the payload never include Open. */
  lemma {:induction false} FieldsNeverOpen(F: set<nat>, q: nat, ops: seq<Op>)
    ensures Open !in WriteFields(F, q, ops).calls
    decreases |ops|
  {
    if ops != [] {
      var first := WriteField(F, q, ops[0]);
      FieldsNeverOpen(F, q + |first.calls|, ops[1..]);
    }
  }

  lemma {:induction false} ItemsNeverOpen(F: set<nat>, q: nat, items: seq<Item>)
    ensures Open !in WriteItems(F, q, items).calls
    decreases |items|
  {
    if items != [] {
      var first := WriteItem(F, q, items[0]);
      if items[0].Record? {
        FieldsNeverOpen(F, q, items[0].fields);
      }
      ItemsNeverOpen(F, q + |first.calls|, items[1..]);
    }
  }

  /** Open is called at most once and only when the flag was down; a raising
      Open answers 500 and leaves the flag down; otherwise `forward_open`
      comes next on every request, whatever the flag was. */
  lemma InsertConnection(F: set<nat>, p: nat, connected: bool, body: Json)
    ensures var o := HandleInsert(F, p, connected, body);
      (connected ==> Open !in o.calls)
      && (!connected ==> o.calls[0] == Open && Open !in o.calls[1..])
      && (!connected && p in F ==> o == Outcome(Plain(500), false, [Open]))
      && (o.connected <==> connected || p !in F)
      && (o.connected ==> o.calls[|Ensure(F, p, connected).calls|] == ForwardOpen)
  {
    var s := Ensure(F, p, connected);
    if s.connected {
      HandleInsertConnected(F, p, connected, body);
      var q := p + |s.calls|;
      if q !in F && body.Iterable? {
        ItemsNeverOpen(F, q + 1, body.elems);
      }
      var o := HandleInsert(F, p, connected, body);
      if !connected {
        assert o.calls[1..] == Accept(F, q, body).calls;
      }
    }
  }

  /** Once connected, `forward_open` writes nothing, and the walk writes a
      prefix of the keys it can reach. */
  lemma AcceptWritesPrefix(F: set<nat>, q: nat, body: Json)
    ensures var a := Accept(F, q, body);
      (body.Iterable? ==> Prefix(Written(a.calls), TagsOf(LeadingPairs(body.elems))))
      && (body.NotIterable? ==> Written(a.calls) == [])
  {
    var a := Accept(F, q, body);
    if q !in F && body.Iterable? {
      var st := WriteItems(F, q + 1, body.elems);
      assert a.calls == [ForwardOpen] + st.calls;
      WrittenAppend([ForwardOpen], st.calls);
      WrittenNone([ForwardOpen]);
      assert Written(a.calls) == Written(st.calls);
      ItemsWritePrefix(F, q + 1, body.elems);
    } else {
      assert a.calls == [ForwardOpen];
      WrittenNone(a.calls);
    }
  }

  /** Every request, whatever its answer, writes a prefix of the keys the
      walk can reach, in flattened order, and a body that cannot be iterated
      writes nothing. */
  lemma InsertWritesPrefix(F: set<nat>, p: nat, connected: bool, body: Json)
    ensures var o := HandleInsert(F, p, connected, body);
      (body.Iterable? ==> Prefix(Written(o.calls), TagsOf(LeadingPairs(body.elems))))
      && (body.NotIterable? ==> Written(o.calls) == [])
  {
    var s := Ensure(F, p, connected);
    if !s.connected {
      assert HandleInsert(F, p, connected, body).calls == [Open];
      WrittenNone([Open]);
    } else {
      InsertWritesAsAccept(F, p, connected, body);
      AcceptWritesPrefix(F, p + |s.calls|, body);
    }
  }

  /** Reconnecting writes no tag. */
  lemma InsertWritesAsAccept(F: set<nat>, p: nat, connected: bool, body: Json)
    requires Ensure(F, p, connected).connected
    ensures var s := Ensure(F, p, connected);
      Written(HandleInsert(F, p, connected, body).calls) == Written(Accept(F, p + |s.calls|, body).calls)
  {
    var s := Ensure(F, p, connected);
    var a := Accept(F, p + |s.calls|, body);
    HandleInsertConnected(F, p, connected, body);
    if !connected {
      assert HandleInsert(F, p, connected, body).calls == [Open] + a.calls;
      assert ([Open] + a.calls)[1..] == a.calls;
    } else {
      assert HandleInsert(F, p, connected, body).calls == a.calls;
    }
  }

  /** 200 exactly when the session started, the body could be iterated and
      the walk over it went through; 500 otherwise, and a 500 has still
      written a prefix of the reachable keys, in order. */
  lemma InsertStatus(F: set<nat>, p: nat, connected: bool, body: Json)
    ensures var o := HandleInsert(F, p, connected, body);
      var s := Ensure(F, p, connected);
      var q := p + |s.calls|;
      o.reply.status in {200, 500}
      && (o.reply.status == 200 <==>
            s.connected && q !in F && body.Iterable? && !WriteItems(F, q + 1, body.elems).aborted)
      && (o.reply.status == 500 && body.Iterable? ==> Prefix(Written(o.calls), TagsOf(LeadingPairs(body.elems))))
  {
    InsertWritesPrefix(F, p, connected, body);
    if Ensure(F, p, connected).connected {
      HandleInsertConnected(F, p, connected, body);
    }
  }

  /** A 200 answer wrote every key of the payload in flattened order and
      slept one second per key. */
  lemma InsertSuccess(F: set<nat>, p: nat, connected: bool, body: Json)
    requires HandleInsert(F, p, connected, body).reply.status == 200
    ensures body.Iterable? && Flatten(body).Some?
    ensures var o := HandleInsert(F, p, connected, body);
      Written(o.calls) == TagsOf(Flatten(body).value)
      && Sleeps(o.calls) == |Flatten(body).value|
  {
    var s := Ensure(F, p, connected);
    var q := p + |s.calls|;
    InsertStatus(F, p, connected, body);
    HandleInsertConnected(F, p, connected, body);
    var st := WriteItems(F, q + 1, body.elems);
    ItemsWriteInOrder(F, q + 1, body.elems);
    ItemsSleepPerKey(F, q + 1, body.elems);
    var a := Accept(F, q, body);
    assert a.calls == [ForwardOpen] + st.calls;
    WrittenAppend([ForwardOpen], st.calls);
    SleepsAppend([ForwardOpen], st.calls);
    WrittenAppend(s.calls, a.calls);
    SleepsAppend(s.calls, a.calls);
  }

  /** One key, as in the body of the inner loop. */
  method WriteValue(clx: Clx, op: Op) returns (aborted: bool)
    modifies clx
    ensures var st := WriteField(clx.oracle.raises, |old(clx.log)|, op);
      aborted == st.aborted && clx.log == old(clx.log) + st.calls
  {
    var t := NumericType(op.value);
    if t.Some? {
      var ok := clx.WriteTag(op.tag, op.value, t.value);
      if !ok {
        return true;
      }
    } else {
      if !op.value.VStr? {
        return true;
      }
      var written := clx.WriteString(op.tag, op.value.s);
      if written {
        clx.Sleep(5);
        var _ := clx.ReadString(op.tag);
      }
    }
    clx.Sleep(1);
    aborted := false;
  }

  /** What remains of the walk over the keys after `done` has been issued. */
  lemma FieldsAdvance(F: set<nat>, ops: seq<Op>, i: nat, q: nat, done: seq<Call>, whole: Progress)
    requires i < |ops|
    requires whole == Progress(WriteFields(F, q, ops[i..]).aborted, done + WriteFields(F, q, ops[i..]).calls)
    ensures var st := WriteField(F, q, ops[i]);
      var rest := WriteFields(F, q + |st.calls|, ops[i + 1..]);
      (st.aborted ==> whole == Progress(true, done + st.calls))
      && (!st.aborted ==> whole == Progress(rest.aborted, (done + st.calls) + rest.calls))
  {
    var st := WriteField(F, q, ops[i]);
    assert ops[i..][0] == ops[i];
    assert ops[i..][1..] == ops[i + 1..];
    var rest := WriteFields(F, q + |st.calls|, ops[i + 1..]);
    Regroup(done, st.calls, rest.calls);
  }

  /** One turn of the inner loop. */
  method NextField(clx: Clx, ops: seq<Op>, i: nat, ghost start: seq<Call>, ghost done: seq<Call>, ghost whole: Progress)
    returns (aborted: bool, ghost done': seq<Call>)
    modifies clx
    requires i < |ops|
    requires clx.log == start + done
    requires whole == Progress(WriteFields(clx.oracle.raises, |clx.log|, ops[i..]).aborted,
                               done + WriteFields(clx.oracle.raises, |clx.log|, ops[i..]).calls)
    ensures clx.log == start + done'
    ensures aborted ==> whole == Progress(true, done')
    ensures !aborted ==> whole == Progress(WriteFields(clx.oracle.raises, |clx.log|, ops[i + 1..]).aborted,
                                           done' + WriteFields(clx.oracle.raises, |clx.log|, ops[i + 1..]).calls)
  {
    ghost var q := |clx.log|;
    ghost var st := WriteField(clx.oracle.raises, q, ops[i]);
    FieldsAdvance(clx.oracle.raises, ops, i, q, done, whole);
    aborted := WriteValue(clx, ops[i]);
    done' := done + st.calls;
    Regroup(start, done, st.calls);
    assert |clx.log| == q + |st.calls|;
  }

  /** The inner loop `for key, value in item.items()`. */
  method WriteRecord(clx: Clx, ops: seq<Op>) returns (aborted: bool)
    modifies clx
    ensures var st := WriteFields(clx.oracle.raises, |old(clx.log)|, ops);
      aborted == st.aborted && clx.log == old(clx.log) + st.calls
  {
    ghost var whole := WriteFields(clx.oracle.raises, |clx.log|, ops);
    ghost var done: seq<Call> := [];
    aborted := false;
    var i := 0;
    assert ops[0..] == ops;
    while i < |ops| && !aborted
      invariant 0 <= i <= |ops|
      invariant clx.log == old(clx.log) + done
      invariant aborted ==> whole == Progress(true, done)
      invariant !aborted ==> whole == Progress(WriteFields(clx.oracle.raises, |clx.log|, ops[i..]).aborted,
                                               done + WriteFields(clx.oracle.raises, |clx.log|, ops[i..]).calls)
      decreases |ops| - i
    {
      aborted, done := NextField(clx, ops, i, old(clx.log), done, whole);
      i := i + 1;
    }
    if !aborted {
      assert ops[i..] == [];
    }
  }

  /** What remains of the walk over the items after `done` has been issued. */
  lemma ItemsAdvance(F: set<nat>, items: seq<Item>, i: nat, q: nat, done: seq<Call>, whole: Progress)
    requires i < |items|
    requires whole == Progress(WriteItems(F, q, items[i..]).aborted, done + WriteItems(F, q, items[i..]).calls)
    ensures var st := WriteItem(F, q, items[i]);
      var rest := WriteItems(F, q + |st.calls|, items[i + 1..]);
      (st.aborted ==> whole == Progress(true, done + st.calls))
      && (!st.aborted ==> whole == Progress(rest.aborted, (done + st.calls) + rest.calls))
  {
    var st := WriteItem(F, q, items[i]);
    assert items[i..][0] == items[i];
    assert items[i..][1..] == items[i + 1..];
    var rest := WriteItems(F, q + |st.calls|, items[i + 1..]);
    Regroup(done, st.calls, rest.calls);
  }

  /** One element of the outer loop. */
  method WriteElement(clx: Clx, item: Item) returns (aborted: bool)
    modifies clx
    ensures var st := WriteItem(clx.oracle.raises, |old(clx.log)|, item);
      aborted == st.aborted && clx.log == old(clx.log) + st.calls
  {
    match item
    case NotRecord =>
      aborted := true;
    case Record(fields) =>
      aborted := WriteRecord(clx, fields);
  }

  /** One turn of the outer loop. */
  method NextItem(clx: Clx, items: seq<Item>, i: nat, ghost start: seq<Call>, ghost done: seq<Call>, ghost whole: Progress)
    returns (aborted: bool, ghost done': seq<Call>)
    modifies clx
    requires i < |items|
    requires clx.log == start + done
    requires whole == Progress(WriteItems(clx.oracle.raises, |clx.log|, items[i..]).aborted,
                               done + WriteItems(clx.oracle.raises, |clx.log|, items[i..]).calls)
    ensures clx.log == start + done'
    ensures aborted ==> whole == Progress(true, done')
    ensures !aborted ==> whole == Progress(WriteItems(clx.oracle.raises, |clx.log|, items[i + 1..]).aborted,
                                           done' + WriteItems(clx.oracle.raises, |clx.log|, items[i + 1..]).calls)
  {
    ghost var q := |clx.log|;
    ghost var st := WriteItem(clx.oracle.raises, q, items[i]);
    ItemsAdvance(clx.oracle.raises, items, i, q, done, whole);
    aborted := WriteElement(clx, items[i]);
    done' := done + st.calls;
    Regroup(start, done, st.calls);
    assert |clx.log| == q + |st.calls|;
  }

  /** The outer loop `for item in data_list`. */
  method WriteAll(clx: Clx, items: seq<Item>) returns (aborted: bool)
    modifies clx
    ensures var st := WriteItems(clx.oracle.raises, |old(clx.log)|, items);
      aborted == st.aborted && clx.log == old(clx.log) + st.calls
  {
    ghost var whole := WriteItems(clx.oracle.raises, |clx.log|, items);
    ghost var done: seq<Call> := [];
    aborted := false;
    var i := 0;
    assert items[0..] == items;
    while i < |items| && !aborted
      invariant 0 <= i <= |items|
      invariant clx.log == old(clx.log) + done
      invariant aborted ==> whole == Progress(true, done)
      invariant !aborted ==> whole == Progress(WriteItems(clx.oracle.raises, |clx.log|, items[i..]).aborted,
                                               done + WriteItems(clx.oracle.raises, |clx.log|, items[i..]).calls)
      decreases |items| - i
    {
      aborted, done := NextItem(clx, items, i, old(clx.log), done, whole);
      i := i + 1;
    }
    if !aborted {
      assert items[i..] == [];
    }
  }

  /** The driver object and the `is_connected` global of the service. */
  class ClxLink {
    const clx: Clx
    var connected: bool

    /** `is_connected = False` */
    constructor (clx: Clx)
      ensures this.clx == clx && !connected
    {
      this.clx := clx;
      connected := false;
    }

    /** `if not is_connected: c.open(...); is_connected = True`; the answer
        is whether the request may go on. */
    method Connect() returns (ok: bool)
      modifies this, clx
      ensures var s := Ensure(clx.oracle.raises, |old(clx.log)|, old(connected));
        ok == connected && connected == s.connected && clx.log == old(clx.log) + s.calls
    {
      if !connected {
        var up := clx.Open();
        if !up {
          return false;
        }
        connected := true;
      }
      ok := true;
    }

    /** `close_connection`. A raising `close` is not caught; the framework
        answers 500 and the flag stays up, as in `Connection.Closing`. */
    method CloseConnection() returns (reply: Reply)
      modifies this, clx
      ensures var o := Closing(clx.oracle.raises, |old(clx.log)|, old(connected));
        reply == o.reply && connected == o.connected && clx.log == old(clx.log) + o.calls
    {
      if connected {
        var closed := clx.Close();
        if !closed {
          return Plain(500);
        }
        connected := false;
      }
      reply := Plain(200);
    }
  }

  /** Session start and the walk over the payload. */
  method AcceptData(clx: Clx, body: Json) returns (reply: Reply)
    modifies clx
    ensures var a := Accept(clx.oracle.raises, |old(clx.log)|, body);
      reply == a.reply && clx.log == old(clx.log) + a.calls
  {
    var ok := clx.ForwardOpen();
    if !ok {
      return Plain(500);
    }
    match body
    case NotIterable(_) =>
      reply := Plain(500);
    case Iterable(items) =>
      var aborted := WriteAll(clx, items);
      reply := Plain(if aborted then 500 else 200);
  }

  /** `insert_data_to_plc`. */
  method InsertData(link: ClxLink, body: Json) returns (reply: Reply)
    modifies link, link.clx
    ensures var o := HandleInsert(link.clx.oracle.raises, |old(link.clx.log)|, old(link.connected), body);
      reply == o.reply && link.connected == o.connected && link.clx.log == old(link.clx.log) + o.calls
  {
    ghost var s := Ensure(link.clx.oracle.raises, |link.clx.log|, link.connected);
    var up := link.Connect();
    if !up {
      return Plain(500);
    }
    ghost var a := Accept(link.clx.oracle.raises, |link.clx.log|, body);
    HandleInsertConnected(link.clx.oracle.raises, |old(link.clx.log)|, old(link.connected), body);
    reply := AcceptData(link.clx, body);
    Regroup(old(link.clx.log), s.calls, a.calls);
  }
}
