/** The connection state of the pylogix services: the module-level `plc`
    object and the global `is_connected` flag, with `ensure_plc_connection`
    and `close_connection`. Every service starts with the flag up ("assume
    connected initially"), without having opened anything. */
module Connection {
  import opened Driver
  import opened Replies

  /** The flag after an attempt to reconnect, and the calls it made. */
  datatype Session = Session(connected: bool, calls: seq<Call>)

  /** `ensure_plc_connection` from log position p under the set F of raising
      positions: Open is tried only when the flag is down, and the flag is
      raised exactly when Open returns. */
  function Ensure(F: set<nat>, p: nat, connected: bool): (s: Session)
    ensures s.connected <==> connected || p !in F
    ensures connected ==> s.calls == []
    ensures !connected ==> s.calls == [Open]
  {
    if connected then Session(true, []) else Session(p !in F, [Open])
  }

  /** `close_connection`: Close is called only while connected; if it raises
      the answer is 500 and the flag stays up, otherwise the flag goes down
      and the answer is 200. */
  function Closing(F: set<nat>, p: nat, connected: bool): (o: Outcome)
    ensures o.reply.Plain? && o.reply.status in {200, 500}
    ensures o.reply.status == 200 <==> !o.connected
    ensures o.reply.status == 500 <==> connected && p in F
    ensures o.calls == if connected then [Call.Close] else []
  {
    if !connected then Outcome(Plain(200), false, [])
    else if p in F then Outcome(Plain(500), true, [Call.Close])
    else Outcome(Plain(200), false, [Call.Close])
  }

  /** Once a close has succeeded, closing again is a no-op that answers 200. */
  lemma CloseTwice(F: set<nat>, p: nat, connected: bool)
    requires Closing(F, p, connected).reply.status == 200
    ensures var first := Closing(F, p, connected);
      Closing(F, p + |first.calls|, first.connected) == Outcome(Plain(200), false, [])
  {
  }

  /** A failed close can be retried: the flag is still up, so the next close
      calls Close again. */
  lemma CloseRetriesAfterFailure(F: set<nat>, p: nat, connected: bool)
    requires Closing(F, p, connected).reply.status == 500
    ensures Closing(F, p + 1, Closing(F, p, connected).connected).calls == [Call.Close]
  {
  }

  /** After a successful close, the next request that needs the connection
      opens it again, and only that once. */
  lemma CloseThenEnsure(F: set<nat>, p: nat, connected: bool)
    requires connected && Closing(F, p, connected).reply.status == 200
    ensures var s := Ensure(F, p + 1, Closing(F, p, connected).connected);
      s.calls == [Open] && (s.connected <==> p + 1 !in F)
      && Ensure(F, p + 2, s.connected).calls == (if s.connected then [] else [Open])
  {
  }

  /** The driver object and the `is_connected` global of one service. */
  class Link {
    const plc: Plc
    var connected: bool

    /** `is_connected = True  # Assume connected initially` */
    constructor (plc: Plc)
      ensures this.plc == plc && connected
    {
      this.plc := plc;
      connected := true;
    }

    /** `ensure_plc_connection`: the answer is the flag after the call. */
    method EnsureConnection() returns (ok: bool)
      modifies this, plc
      ensures var s := Ensure(plc.oracle.raises, |old(plc.log)|, old(connected));
        ok == connected && connected == s.connected && plc.log == old(plc.log) + s.calls
    {
      if !connected {
        var up := plc.Open();
        connected := up;
      }
      ok := connected;
    }

    /** `close_connection`. */
    method CloseConnection() returns (reply: Reply)
      modifies this, plc
      ensures var o := Closing(plc.oracle.raises, |old(plc.log)|, old(connected));
        reply == o.reply && connected == o.connected && plc.log == old(plc.log) + o.calls
    {
      if connected {
        var closed := plc.Close();
        if !closed {
          return Plain(500);
        }
        connected := false;
      }
      reply := Plain(200);
    }
  }
}
