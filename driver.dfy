/** The two controller drivers, seen only at their call boundary: pylogix's
    `PLC` and pycomm's `ClxDriver`. Every call is appended to a log; whether
    a call raises, and what a successful read returns, is fixed in advance by
    an oracle indexed by the call's position in the log. `time.sleep` is
    recorded in the same log (it never raises), so that the number and the
    position of the sleeps are visible beside the driver calls. */
module Driver {
  import opened Wrappers
  import opened Values

  /** The data types pycomm's `write_tag` accepts. */
  datatype TagType = REAL | INT

  datatype Call =
    | Open
    | Close
    | Write(tag: Tag, text: string)
    | Read(tag: Tag)
    | ForwardOpen
    | WriteTag(tag: Tag, value: Value, typ: TagType)
    | WriteString(tag: Tag, text: string)
    | ReadString(tag: Tag)
    | Sleep(seconds: nat)

  /** `raises` holds the log positions at which a driver call raises;
      `reading` gives the value a read at a position returns when it does not. */
  datatype Oracle = Oracle(raises: set<nat>, reading: nat -> Value)

  /** pylogix's `PLC` object. */
  class Plc {
    var log: seq<Call>
    const oracle: Oracle

    constructor (oracle: Oracle)
      ensures this.oracle == oracle && log == []
    {
      this.oracle := oracle;
      log := [];
    }

    method Open() returns (ok: bool)
      modifies this
      ensures ok == (|old(log)| !in oracle.raises)
      ensures log == old(log) + [Call.Open]
    {
      ok := |log| !in oracle.raises;
      log := log + [Call.Open];
    }

    method Close() returns (ok: bool)
      modifies this
      ensures ok == (|old(log)| !in oracle.raises)
      ensures log == old(log) + [Call.Close]
    {
      ok := |log| !in oracle.raises;
      log := log + [Call.Close];
    }

    method Write(tag: Tag, text: string) returns (ok: bool)
      modifies this
      ensures ok == (|old(log)| !in oracle.raises)
      ensures log == old(log) + [Call.Write(tag, text)]
    {
      ok := |log| !in oracle.raises;
      log := log + [Call.Write(tag, text)];
    }

    /** `Read(tag).Value`, or None when the call raises. */
    method Read(tag: Tag) returns (r: Option<Value>)
      modifies this
      ensures r == if |old(log)| in oracle.raises then None else Some(oracle.reading(|old(log)|))
      ensures log == old(log) + [Call.Read(tag)]
    {
      r := if |log| in oracle.raises then None else Some(oracle.reading(|log|));
      log := log + [Call.Read(tag)];
    }

    method Sleep(seconds: nat)
      modifies this
      ensures log == old(log) + [Call.Sleep(seconds)]
    {
      log := log + [Call.Sleep(seconds)];
    }
  }

  /** pycomm's `ClxDriver` object. */
  class Clx {
    var log: seq<Call>
    const oracle: Oracle

    constructor (oracle: Oracle)
      ensures this.oracle == oracle && log == []
    {
      this.oracle := oracle;
      log := [];
    }

    method Open() returns (ok: bool)
      modifies this
      ensures ok == (|old(log)| !in oracle.raises)
      ensures log == old(log) + [Call.Open]
    {
      ok := |log| !in oracle.raises;
      log := log + [Call.Open];
    }

    method Close() returns (ok: bool)
      modifies this
      ensures ok == (|old(log)| !in oracle.raises)
      ensures log == old(log) + [Call.Close]
    {
      ok := |log| !in oracle.raises;
      log := log + [Call.Close];
    }

    method ForwardOpen() returns (ok: bool)
      modifies this
      ensures ok == (|old(log)| !in oracle.raises)
      ensures log == old(log) + [Call.ForwardOpen]
    {
      ok := |log| !in oracle.raises;
      log := log + [Call.ForwardOpen];
    }

    method WriteTag(tag: Tag, value: Value, typ: TagType) returns (ok: bool)
      modifies this
      ensures ok == (|old(log)| !in oracle.raises)
      ensures log == old(log) + [Call.WriteTag(tag, value, typ)]
    {
      ok := |log| !in oracle.raises;
      log := log + [Call.WriteTag(tag, value, typ)];
    }

    method WriteString(tag: Tag, text: string) returns (ok: bool)
      modifies this
      ensures ok == (|old(log)| !in oracle.raises)
      ensures log == old(log) + [Call.WriteString(tag, text)]
    {
      ok := |log| !in oracle.raises;
      log := log + [Call.WriteString(tag, text)];
    }

    method ReadString(tag: Tag) returns (ok: bool)
      modifies this
      ensures ok == (|old(log)| !in oracle.raises)
      ensures log == old(log) + [Call.ReadString(tag)]
    {
      ok := |log| !in oracle.raises;
      log := log + [Call.ReadString(tag)];
    }

    method Sleep(seconds: nat)
      modifies this
      ensures log == old(log) + [Call.Sleep(seconds)]
    {
      log := log + [Call.Sleep(seconds)];
    }
  }
}
