/** The insert request body and the flattening comprehension
    `[(key, value) for item in data_list for key, value in item.items()]`. */
module Payload {
  import opened Wrappers
  import opened Values

  /** One (key, value) pair of a request item. */
  datatype Op = Op(tag: Tag, value: Value)

  /** An element met while iterating the request body: a JSON object, seen
      through `.items()` as the sequence of pairs in the order that call
      yields them, or anything else (which has no
      `.items()`, so touching it raises). */
  datatype Item = Record(fields: seq<Op>) | NotRecord

  /** `request.json`. An array iterates over its elements; an object or a
      string iterates over its keys or characters, none of which has
      `.items()`, so it is an Iterable of that many NotRecord elements;
      null, numbers and booleans are not iterable at all. */
  datatype Json = Iterable(elems: seq<Item>) | NotIterable(truthy: bool)

  /** Python truthiness of the body: `not data_list` is False. */
  predicate Truthy(body: Json) {
    match body
    case Iterable(elems) => |elems| > 0
    case NotIterable(truthy) => truthy
  }

  /** The flattened pairs of a sequence of items, or None when the
      comprehension raises on an element that is not a record. */
  function FlattenItems(items: seq<Item>): (r: Option<seq<Op>>)
    ensures r.Some? <==> forall i :: 0 <= i < |items| ==> items[i].Record?
    decreases |items|
  {
    if items == [] then Some([])
    else
      match items[0]
      case NotRecord => None
      case Record(fields) =>
        match FlattenItems(items[1..])
        case None => None
        case Some(rest) => Some(fields + rest)
  }

  /** The comprehension over the whole body; None when it raises. */
  function Flatten(body: Json): Option<seq<Op>> {
    match body
    case NotIterable(_) => None
    case Iterable(elems) => FlattenItems(elems)
  }

  function Size(item: Item): nat {
    match item
    case Record(fields) => |fields|
    case NotRecord => 0
  }

  /** How many pairs the first i items contribute. */
  function Offset(items: seq<Item>, i: nat): nat
    requires i <= |items|
    decreases i
  {
    if i == 0 then 0 else Size(items[0]) + Offset(items[1..], i - 1)
  }

  /** The flattened list holds exactly the pairs of all items. */
  lemma {:induction false} FlattenLength(items: seq<Item>)
    requires FlattenItems(items).Some?
    ensures |FlattenItems(items).value| == Offset(items, |items|)
    decreases |items|
  {
    if items != [] {
      FlattenLength(items[1..]);
    }
  }

  /** Pair j of item i lands at position Offset(items, i) + j: items keep
      their list order and keys keep their order within an item. */
  lemma {:induction false} FlattenOrder(items: seq<Item>, i: nat, j: nat)
    requires FlattenItems(items).Some?
    requires i < |items| && j < Size(items[i])
    ensures Offset(items, i) + j < |FlattenItems(items).value|
    ensures FlattenItems(items).value[Offset(items, i) + j] == items[i].fields[j]
    decreases |items|
  {
    var fields := items[0].fields;
    var rest := FlattenItems(items[1..]).value;
    assert FlattenItems(items).value == fields + rest;
    if i > 0 {
      FlattenOrder(items[1..], i - 1, j);
      assert items[1..][i - 1] == items[i];
    }
  }

  /** Items with no keys contribute nothing: `[{}]` flattens to no pairs. */
  lemma {:induction false} FlattenEmptyRecords(items: seq<Item>)
    requires forall i :: 0 <= i < |items| ==> items[i] == Record([])
    ensures FlattenItems(items) == Some([])
    decreases |items|
  {
    if items != [] {
      assert items[0] == Record([]);
      assert forall i :: 0 <= i < |items[1..]| ==> items[1..][i] == items[i + 1];
      FlattenEmptyRecords(items[1..]);
      var none: seq<Op> := [];
      assert items[0].fields + FlattenItems(items[1..]).value == none;
    }
  }
}
