/** The endpoint of src/server_endpoint.c: connections by peer, routing and accepting,
    timers, output and events over all of them, and the two-phase cleanup. */
module ServerEndpoint {
  import opened Common
  import opened Library
  import opened ConnectionSpec
  import opened Connection
  import opened Deadlines
  import Address
  import LifecycleTheorems

  /** The keys of `order` that are not in `dead`, in the same order. */
  function Without(order: seq<string>, dead: set<string>): seq<string> {
    if order == [] then []
    else Without(order[..|order| - 1], dead)
           + (if order[|order| - 1] in dead then [] else [order[|order| - 1]])
  }

  function KeySet(keys: seq<string>): set<string> {
    set k | k in keys
  }

  lemma KeySetSnoc(keys: seq<string>, k: string)
    ensures KeySet(keys + [k]) == KeySet(keys) + {k}
  {
  }

  lemma WithoutSnoc(order: seq<string>, k: string, dead: set<string>)
    ensures Without(order + [k], dead) == if k in dead then Without(order, dead) else Without(order, dead) + [k]
  {
    assert (order + [k])[..|order|] == order;
    assert Without(order, dead) + [] == Without(order, dead);
  }

  lemma {:induction false} WithoutTwice(order: seq<string>, a: set<string>, b: set<string>)
    ensures Without(Without(order, a), b) == Without(order, a + b)
  {
    if order != [] {
      var n := |order| - 1;
      assert order == order[..n] + [order[n]];
      WithoutTwice(order[..n], a, b);
      WithoutSnoc(order[..n], order[n], a);
      WithoutSnoc(order[..n], order[n], a + b);
      WithoutSnoc(Without(order[..n], a), order[n], b);
    }
  }

  lemma {:induction false} WithoutNothing(order: seq<string>)
    ensures Without(order, {}) == order
  {
    if order != [] {
      WithoutNothing(order[..|order| - 1]);
    }
  }

  ghost predicate Precedes(order: seq<string>, a: string, b: string) {
    exists p, q :: 0 <= p < q < |order| && order[p] == a && order[q] == b
  }

  lemma PrecedesSnoc(order: seq<string>, k: string, a: string, b: string)
    requires Precedes(order, a, b) || (a in order && b == k)
    ensures Precedes(order + [k], a, b)
  {
    var s := order + [k];
    if Precedes(order, a, b) {
      var p, q :| 0 <= p < q < |order| && order[p] == a && order[q] == b;
      assert s[p] == a && s[q] == b;
    } else {
      var p :| 0 <= p < |order| && order[p] == a;
      assert s[p] == a && s[|order|] == b;
    }
  }

  /** Removing keys is an order-preserving filter: it keeps exactly the other keys, and any
      two of them in the same order. */
  lemma {:induction false} WithoutFilters(order: seq<string>, dead: set<string>)
    requires NoDup(order)
    ensures forall k :: k in Without(order, dead) <==> k in order && k !in dead
    ensures NoDup(Without(order, dead))
    ensures forall i, j :: 0 <= i < j < |Without(order, dead)| ==>
      Precedes(order, Without(order, dead)[i], Without(order, dead)[j])
  {
    if order != [] {
      var n := |order| - 1;
      WithoutFilters(order[..n], dead);
      var w, w' := Without(order[..n], dead), Without(order, dead);
      assert order == order[..n] + [order[n]];
      WithoutSnoc(order[..n], order[n], dead);
      forall i, j | 0 <= i < j < |w'| ensures Precedes(order, w'[i], w'[j]) {
        assert w'[i] == w[i];
        if j < |w| {
          assert w'[j] == w[j];
        }
        PrecedesSnoc(order[..n], order[n], w'[i], w'[j]);
      }
    }
  }

  /** The calls that the endpoint makes on every connection in turn. */
  datatype Call = Drain | Timers

  function AllPayloads(made: seq<seq<Step>>): seq<Bytes> {
    if made == [] then [] else AllPayloads(made[..|made| - 1]) + Payloads(made[|made| - 1])
  }

  lemma AllPayloadsSnoc(made: seq<seq<Step>>, steps: seq<Step>)
    ensures AllPayloads(made + [steps]) == AllPayloads(made) + Payloads(steps)
  {
    assert (made + [steps])[..|made|] == made;
  }

  class ServerEndpoint {
    var connections: map<string, Connection>
    var order: seq<string>                  // the registry's insertion order
    var acceptedQueue: seq<Connection>
    ghost var acceptLog: seq<Connection>    // every connection ever accepted
    ghost var drainedLog: seq<Connection>   // every accepted connection handed out
    ghost var removed: map<Connection, seq<Step>>   // every one removed, with its run until then

    constructor ()
      ensures Valid() && connections == map[] && acceptLog == []
    {
      connections, order, acceptedQueue, acceptLog, drainedLog, removed := map[], [], [], [], [], map[];
    }

    ghost function Footprint(): set<object>
      reads this, connections.Values
    {
      {this as object} + (set c: Connection | c in connections.Values :: c as object)
        + (set c: Connection, e: StreamEntry | c in connections.Values && e in c.streams.Values :: e as object)
    }

    /** Each connection is filed under its peer's key, once, and stays accepted for ever;
        what was handed out and what is queued are together what was accepted. */
    ghost predicate Filed()
      reads `connections, `order, `acceptLog, `acceptedQueue, `drainedLog
    {
      && NoDup(order)
      && (forall k :: k in order <==> k in connections)
      && (forall k :: k in connections ==> connections[k].peer == k && connections[k] in acceptLog)
      && drainedLog + acceptedQueue == acceptLog
      && NoDup(acceptLog)
    }

    /** The accepted connections are the registered ones and those removed, none both; and
        each of these had closed with no close packet due when it was removed. */
    static ghost predicate IsRecord(conns: map<string, Connection>, accepted: seq<Connection>,
                                    removed: map<Connection, seq<Step>>)
    {
      && (forall c :: c in accepted ==> c in removed || c in conns.Values)
      && (forall c :: c in removed ==> c in accepted && c !in conns.Values)
      && (forall c :: c in removed ==> WasSettled(c, removed[c]))
    }

    static ghost predicate WasSettled(c: Connection, run: seq<Step>) {
      Settled(Run(Init(c.server), run).life)
    }

    ghost predicate Recorded()
      reads `connections, `acceptLog, `removed
    {
      IsRecord(connections, acceptLog, removed)
    }

    ghost predicate Valid()
      reads this, connections.Values
      reads set c: Connection, e: StreamEntry | c in connections.Values && e in c.streams.Values :: e
    {
      Filed() && Recorded() && forall k :: k in connections ==> connections[k].Valid()
    }

    static predicate Settled(l: Life) {
      l.closed && (!l.closeRequested || l.closePacketSent)
    }

    /** The test of cleanup_connections. */
    static predicate Removable(c: Connection)
      reads c
    {
      c.closed && (!c.closeRequested || c.closePacketSent)
    }

    static ghost function Dead(conns: map<string, Connection>): set<string>
      reads conns.Values
    {
      set k | k in conns && Removable(conns[k])
    }

    /** The registry is this one without the connections that may be removed, in the same
        order. */
    ghost predicate Swept(before: map<string, Connection>, keys: seq<string>)
      reads `connections, `order, before.Values
    {
      connections == before - Dead(before) && order == Without(keys, Dead(before))
    }

    static ghost function Traces(conns: map<string, Connection>): map<string, seq<Step>>
      reads conns.Values
    {
      map k | k in conns :: conns[k].trace
    }

    /** In the order of the keys, the first connections have made these steps since
        `before`, one sequence each, and the others none. */
    static ghost predicate Advanced(conns: map<string, Connection>, keys: seq<string>,
                                    before: map<string, seq<Step>>, made: seq<seq<Step>>)
      reads conns.Values
    {
      && |made| <= |keys|
      && forall j :: 0 <= j < |keys| ==>
        var k := keys[j];
        k in conns && k in before
          && conns[k].trace == if j < |made| then before[k] + made[j] else before[k]
    }

    /** Each of these step sequences is that call, made in the state that `before` had
        reached; all succeeded, except the last one if not `ok`. */
    static ghost predicate Called(call: Call, conns: map<string, Connection>, keys: seq<string>,
                                  before: map<string, seq<Step>>, made: seq<seq<Step>>, ok: bool)
      requires |made| <= |keys| && forall j :: 0 <= j < |keys| ==> keys[j] in conns && keys[j] in before
    {
      match call
      case Drain => forall j :: 0 <= j < |made| ==>
        DrainSteps(Run(Init(conns[keys[j]].server), before[keys[j]]), made[j], ok || j < |made| - 1)
      case Timers => forall j :: 0 <= j < |made| ==>
        TimerSteps(Run(Init(conns[keys[j]].server), before[keys[j]]), conns[keys[j]].library(|before[keys[j]]|),
                   made[j], ok || j < |made| - 1)
    }

    /** The connection under the next key has made these steps. */
    twostate lemma Advance(new before: map<string, seq<Step>>, new made: seq<seq<Step>>, new steps: seq<Step>)
      requires unchanged(this) && |made| < |order| && Filed()
      requires old(Advanced(connections, order, before, made))
      requires connections[order[|made|]].trace == old(connections[order[|made|]].trace) + steps
      requires forall k :: k in connections && k != order[|made|] ==> connections[k].trace == old(connections[k].trace)
      ensures Advanced(connections, order, before, made + [steps])
    {
    }

    /** The keys other than this one. */
    static method Others(keys: seq<string>, key: string) returns (kept: seq<string>)
      ensures kept == Without(keys, {key})
    {
      kept := [];
      for i := 0 to |keys|
        invariant kept == Without(keys[..i], {key})
      {
        assert keys[..i + 1] == keys[..i] + [keys[i]];
        WithoutSnoc(keys[..i], keys[i], {key});
        if keys[i] != key {
          kept := kept + [keys[i]];
        }
      }
      assert keys[..|keys|] == keys;
    }

    method Delete(key: string)
      modifies `connections, `order
      ensures connections == old(connections) - {key} && order == Without(old(order), {key})
    {
      var kept := Others(order, key);
      order, connections := kept, connections - {key};
    }

    method CollectDead() returns (removeKeys: seq<string>)
      requires Filed()
      ensures KeySet(removeKeys) == Dead(connections)
    {
      removeKeys := [];
      for i := 0 to |order|
        invariant forall k :: k in removeKeys <==> k in order[..i] && k in Dead(connections)
      {
        assert order[i] in order;
        var c := connections[order[i]];
        if c.closed && (!c.closeRequested || c.closePacketSent) {
          removeKeys := removeKeys + [order[i]];
        }
      }
      assert order[..|order|] == order;
    }

    method DeleteAll(keys: seq<string>)
      modifies `connections, `order
      ensures connections == old(connections) - KeySet(keys)
      ensures order == Without(old(order), KeySet(keys))
    {
      WithoutNothing(order);
      assert KeySet(keys[..0]) == {};
      for i := 0 to |keys|
        invariant connections == old(connections) - KeySet(keys[..i])
        invariant order == Without(old(order), KeySet(keys[..i]))
      {
        WithoutTwice(old(order), KeySet(keys[..i]), {keys[i]});
        KeySetSnoc(keys[..i], keys[i]);
        assert keys[..i + 1] == keys[..i] + [keys[i]];
        Delete(keys[i]);
      }
      assert keys[..|keys|] == keys;
    }

    /** The two phases of cleanup_connections: first collect the keys, then delete them. */
    method Sweep()
      requires Filed()
      modifies `connections, `order
      ensures Filed() && Swept(old(connections), old(order))
    {
      var removeKeys := CollectDead();
      DeleteAll(removeKeys);
      WithoutFilters(old(order), old(Dead(connections)));
    }

    method SweepAndRecord()
      requires Filed() && Recorded() && forall c :: c in Gone() ==> WasSettled(c, Gone()[c])
      modifies `connections, `order, `removed
      ensures Filed() && Recorded() && Swept(old(connections), old(order))
    {
      hide WasSettled;
      ghost var gone := Gone();
      Sweep();
      SweptIsRecord(old(connections), old(order), removed, gone);
      removed := removed + gone;
    }

    /** cleanup_connections on valid connections. */
    method Cleanup()
      requires Valid()
      modifies `connections, `order, `removed
      ensures Valid() && Swept(old(connections), old(order))
      ensures forall c :: c in old(connections.Values) ==> unchanged(c)
      ensures acceptLog == old(acceptLog) && acceptedQueue == old(acceptedQueue) && drainedLog == old(drainedLog)
    {
      hide Connection.Valid, WasSettled;
      GoneWereSettled();
      SweepAndRecord();
    }

    /** The connections that may be removed, with their runs so far. */
    ghost function Gone(): map<Connection, seq<Step>>
      reads this, connections.Values
    {
      map c | c in connections.Values && Removable(c) :: c.trace
    }

    lemma GoneWereSettled()
      requires forall k :: k in connections ==> connections[k].Valid()
      ensures forall c :: c in Gone() ==> WasSettled(c, Gone()[c])
    {
      forall c | c in Gone() ensures WasSettled(c, Gone()[c]) {
        assert c.View().life == c.LifeView();
      }
    }

    lemma SweptIsRecord(before: map<string, Connection>, keys: seq<string>, was: map<Connection, seq<Step>>,
                        gone: map<Connection, seq<Step>>)
      requires Swept(before, keys) && IsRecord(before, acceptLog, was)
      requires forall c :: c in before.Values ==> c in acceptLog
      requires forall c :: c in gone <==> c in before.Values && Removable(c)
      requires forall c :: c in gone ==> WasSettled(c, gone[c])
      ensures IsRecord(connections, acceptLog, was + gone)
    {
      hide WasSettled;
      forall c ensures c in connections.Values <==> c in before.Values && !Removable(c) {
        if c in before.Values && !Removable(c) {
          var k :| k in before && before[k] == c;
          assert k in connections && connections[k] == c;
        }
      }
    }

    /** An accepted connection that is not registered any more was removed after it had closed,
        with no close packet due, at a point of its own run. */
    lemma RemovedWereSettled(c: Connection)
      requires Valid() && c in acceptLog && c !in connections.Values
      ensures c in removed && Run(Init(c.server), removed[c]).life.closed
      ensures !CloseDue(Run(Init(c.server), removed[c]))
    {
    }

    /** A cleanup removes no connection that still has to send its close packet, and leaves
        none that may be removed. */
    lemma CloseNeverLost(before: map<string, Connection>, keys: seq<string>)
      requires Swept(before, keys)
      ensures forall k :: k in before && before[k].closeRequested && !before[k].closePacketSent ==>
        k in connections && connections[k] == before[k]
      ensures forall k :: k in connections ==> k in before && connections[k] == before[k] && !Removable(connections[k])
    {
    }

    // ----- what one connection does leaves the others alone -----

    /** After a call on one of the connections the endpoint is as before. */
    twostate lemma OthersKept(c: Connection)
      requires old(Valid()) && unchanged(this) && c in connections.Values && c.Valid()
      requires forall d :: d in connections.Values && d != c ==>
        unchanged(d) && forall e :: e in old(d.streams.Values) ==> unchanged(e)
      ensures Valid()
      ensures forall d :: d in connections.Values && d != c ==> d.trace == old(d.trace) && d.events == old(d.events)
    {
    }

    /** If one connection has made new entries, these are all that is new. */
    twostate lemma FootprintGrows(c: Connection)
      requires unchanged(this) && c in connections.Values
      requires forall d :: d in connections.Values && d != c ==> unchanged(d)
      ensures Footprint() <= old(Footprint()) + (c.Repr() - old(c.Repr()))
    {
      forall o | o in Footprint() && o !in old(Footprint()) ensures o in c.Repr() - old(c.Repr()) {
        if d: Connection, e: StreamEntry :| d in connections.Values && e in d.streams.Values && o == e {
          if d == c {
            assert e in c.Repr();
          }
        }
      }
    }

    twostate lemma FootprintSame(c: Connection)
      requires unchanged(this) && c in connections.Values && c.streams == old(c.streams)
      requires forall d :: d in connections.Values && d != c ==> unchanged(d)
      ensures Footprint() <= old(Footprint())
    {
      assert forall d :: d in connections.Values ==> d.streams == old(d.streams);
    }

    lemma InFootprint(c: Connection)
      requires c in connections.Values
      ensures c in Footprint() && forall e :: e in c.streams.Values ==> e in Footprint()
    {
    }

    /** drainOutgoingDatagrams on one registered connection. */
    method DrainOne(key: string) returns (ok: bool, datagrams: seq<Bytes>, ghost steps: seq<Step>)
      requires Valid() && key in connections
      modifies Footprint()
      ensures Valid() && unchanged(this) && Footprint() <= old(Footprint())
      ensures connections[key].trace == old(connections[key].trace) + steps
      ensures DrainSteps(old(connections[key].View()), steps, ok)
      ensures datagrams == if ok then Payloads(steps) else []
      ensures forall k :: k in connections && k != key ==>
        connections[k].trace == old(connections[k].trace)
    {
      hide Run, Lived, Connection.View, DrainSteps, TimerSteps, Payloads, WasSettled, IsRecord;
      var c := connections[key];
      InFootprint(c);
      ok, datagrams, steps := c.DrainOutgoingDatagrams();
      OthersKept(c);
      FootprintSame(c);
    }

    method DrainNext(i: nat, ghost before: map<string, seq<Step>>, ghost made: seq<seq<Step>>)
        returns (ok: bool, datagrams: seq<Bytes>, ghost made': seq<seq<Step>>)
      requires Valid() && i < |order| && i == |made|
      requires Advanced(connections, order, before, made) && Called(Drain, connections, order, before, made, true)
      modifies Footprint()
      ensures Valid() && unchanged(this) && Footprint() <= old(Footprint())
      ensures Advanced(connections, order, before, made') && Called(Drain, connections, order, before, made', ok)
      ensures |made'| == i + 1
      ensures ok ==> AllPayloads(made') == AllPayloads(made) + datagrams
    {
      ghost var steps;
      ok, datagrams, steps := DrainOne(order[i]);
      Advance(before, made, steps);
      AllPayloadsSnoc(made, steps);
      made' := made + [steps];
    }

    method DrainAll() returns (ok: bool, datagrams: seq<Bytes>, ghost made: seq<seq<Step>>)
      requires Valid()
      modifies Footprint()
      ensures Valid() && unchanged(this)
      ensures Advanced(old(connections), old(order), old(Traces(connections)), made)
      ensures Called(Drain, old(connections), old(order), old(Traces(connections)), made, ok)
      ensures if ok then |made| == |order| && datagrams == AllPayloads(made) else datagrams == [] && made != []
    {
      hide Connection.Valid, DrainSteps, TimerSteps, Payloads, WasSettled;
      ok, datagrams, made := true, [], [];
      ghost var before := Traces(connections);
      for i := 0 to |order|
        invariant Valid() && unchanged(this) && Footprint() <= old(Footprint())
        invariant |made| == i && datagrams == AllPayloads(made)
        invariant Advanced(connections, order, before, made) && Called(Drain, connections, order, before, made, true)
      {
        var more;
        ok, more, made := DrainNext(i, before, made);
        if !ok {
          datagrams := [];
          return;
        }
        datagrams := datagrams + more;
      }
      ok := true;
    }

    /** drainOutgoingDatagrams: every connection is drained once, in order, and all their
        packets are returned. After success no registered connection is closed, and every
        locally closed one has made its close-write. A failing connection ends the call. */
    method DrainOutgoingDatagrams() returns (ok: bool, datagrams: seq<Bytes>, ghost made: seq<seq<Step>>)
      requires Valid()
      modifies Footprint()
      ensures Valid() && acceptLog == old(acceptLog) && acceptedQueue == old(acceptedQueue)
      ensures Advanced(old(connections), old(order), old(Traces(connections)), made)
      ensures Called(Drain, old(connections), old(order), old(Traces(connections)), made, ok)
      ensures if ok then |made| == |old(order)| && datagrams == AllPayloads(made) && Swept(old(connections), old(order))
        else datagrams == [] && made != [] && (unchanged(this) || Swept(old(connections), old(order)))
      ensures ok ==> ClosesMade(old(connections)) && NoneClosed()
    {
      ok, datagrams, made := DrainAll();
      if ok {
        CleanupDrained(old(Traces(connections)), made);
      } else {
        CleanupPerhaps();
      }
    }

    /** After an exception in a connection the PHP runtime makes the remaining calls do
        nothing; whether it lets the endpoint's call go on to its cleanup is left open. */
    method CleanupPerhaps()
      requires Valid()
      modifies `connections, `order, `removed
      ensures Valid() && (unchanged(this) || Swept(old(connections), old(order)))
      ensures forall c :: c in old(connections.Values) ==> unchanged(c)
      ensures acceptLog == old(acceptLog) && acceptedQueue == old(acceptedQueue) && drainedLog == old(drainedLog)
    {
      var goesOn: bool := *;
      if goesOn {
        Cleanup();
      }
    }

    method CleanupDrained(ghost before: map<string, seq<Step>>, ghost made: seq<seq<Step>>)
      requires Valid() && |made| == |order| && Advanced(connections, order, before, made)
      requires Called(Drain, connections, order, before, made, true)
      modifies `connections, `order, `removed
      ensures Valid() && Swept(old(connections), old(order)) && Advanced(old(connections), old(order), before, made)
      ensures ClosesMade(old(connections)) && NoneClosed()
      ensures acceptLog == old(acceptLog) && acceptedQueue == old(acceptedQueue)
    {
      DrainsMakeCloses(before, made);
      Cleanup();
      SweptOfClosed(old(connections), old(order));
    }

    ghost predicate NoneClosed()
      reads this, connections.Values
    {
      forall k :: k in connections ==> !connections[k].closed && !connections[k].closeRequested
    }

    /** Every locally closed connection is closed and has made its close-write. */
    static ghost predicate ClosesMade(conns: map<string, Connection>)
      reads conns.Values
    {
      forall k :: k in conns && conns[k].closeRequested ==> conns[k].closePacketSent && conns[k].closed
    }

    lemma DrainsMakeCloses(before: map<string, seq<Step>>, made: seq<seq<Step>>)
      requires Valid() && |made| == |order| && Advanced(connections, order, before, made)
      requires Called(Drain, connections, order, before, made, true)
      ensures ClosesMade(connections)
    {
      forall k | k in connections && connections[k].closeRequested
        ensures connections[k].closePacketSent && connections[k].closed
      {
        var c := connections[k];
        var j :| 0 <= j < |order| && order[j] == k;
        RunConcat(Init(c.server), before[k], made[j]);
        LifecycleTheorems.DrainSettlesClose(Run(Init(c.server), before[k]), made[j]);
        assert !CloseDue(c.View());
        c.Reachable();
      }
    }

    lemma SweptOfClosed(before: map<string, Connection>, keys: seq<string>)
      requires Swept(before, keys) && ClosesMade(before)
      ensures NoneClosed()
    {
    }

    /** handleTimers on one registered connection; it may make new entries. */
    method TimeOne(key: string) returns (ok: bool, ghost steps: seq<Step>, ghost added: set<object>)
      requires Valid() && key in connections
      modifies Footprint()
      ensures Valid() && unchanged(this) && Footprint() <= old(Footprint()) + added && fresh(added)
      ensures connections[key].trace == old(connections[key].trace) + steps
      ensures TimerSteps(old(connections[key].View()), connections[key].library(|old(connections[key].trace)|), steps, ok)
      ensures forall k :: k in connections && k != key ==> connections[k].trace == old(connections[k].trace)
    {
      hide Run, Lived, Connection.View, DrainSteps, TimerSteps, Payloads, WasSettled, IsRecord;
      var c := connections[key];
      InFootprint(c);
      ghost var a;
      ok, a, steps := c.HandleTimers();
      added := c.Repr() - old(c.Repr());
      OthersKept(c);
      FootprintGrows(c);
    }

    method TimeNext(i: nat, ghost before: map<string, seq<Step>>, ghost made: seq<seq<Step>>)
        returns (ok: bool, ghost made': seq<seq<Step>>, ghost added: set<object>)
      requires Valid() && i < |order| && i == |made|
      requires Advanced(connections, order, before, made) && Called(Timers, connections, order, before, made, true)
      modifies Footprint()
      ensures Valid() && unchanged(this) && Footprint() <= old(Footprint()) + added && fresh(added)
      ensures Advanced(connections, order, before, made') && Called(Timers, connections, order, before, made', ok)
      ensures |made'| == i + 1
    {
      ghost var steps;
      ok, steps, added := TimeOne(order[i]);
      Advance(before, made, steps);
      made' := made + [steps];
    }

    method TimeAll() returns (ok: bool, ghost made: seq<seq<Step>>)
      requires Valid()
      modifies Footprint()
      ensures Valid() && unchanged(this)
      ensures Advanced(old(connections), old(order), old(Traces(connections)), made)
      ensures Called(Timers, old(connections), old(order), old(Traces(connections)), made, ok)
      ensures if ok then |made| == |order| else made != []
    {
      hide Connection.Valid, WasSettled;
      ok, made := true, [];
      ghost var before, start, added: set<object> := Traces(connections), Footprint(), {};
      for i := 0 to |order|
        invariant Valid() && unchanged(this) && Footprint() <= start + added && fresh(added) && |made| == i
        invariant Advanced(connections, order, before, made) && Called(Timers, connections, order, before, made, true)
      {
        ghost var more;
        ok, made, more := TimeNext(i, before, made);
        added := added + more;
        if !ok {
          return;
        }
      }
      ok := true;
    }

    /** handleTimers, with its aliases onTimeout and tick: the timers of every connection, in
        order, then a cleanup. */
    method HandleTimers() returns (ok: bool, ghost made: seq<seq<Step>>)
      requires Valid()
      modifies Footprint()
      ensures Valid() && acceptLog == old(acceptLog) && acceptedQueue == old(acceptedQueue)
      ensures Advanced(old(connections), old(order), old(Traces(connections)), made)
      ensures Called(Timers, old(connections), old(order), old(Traces(connections)), made, ok)
      ensures if ok then |made| == |old(order)| && Swept(old(connections), old(order))
        else made != [] && (unchanged(this) || Swept(old(connections), old(order)))
    {
      ok, made := TimeAll();
      if ok {
        Cleanup();
      } else {
        CleanupPerhaps();
      }
    }

    // ----- recv -----

    /** recv on one registered connection. */
    method RecvOne(key: string, addressesValid: bool) returns (ok: bool, ghost steps: seq<Step>)
      requires Valid() && key in connections
      modifies Footprint()
      ensures Valid() && unchanged(this)
      ensures Received(connections[key], old(connections[key].trace), addressesValid, steps, ok)
      ensures forall k :: k in connections && k != key ==> connections[k].trace == old(connections[k].trace)
    {
      hide Run, Lived, Connection.View, DrainSteps, TimerSteps, Payloads, WasSettled, IsRecord;
      var c := connections[key];
      InFootprint(c);
      ghost var a;
      ok, a, steps := c.Recv(addressesValid);
      OthersKept(c);
    }

    /** What one recv has done to its connection: exactly if the addresses are valid, the library
        was given the packet, and made its callbacks and its answer; the call fails exactly if
        they are not or that answer is a failure. */
    static ghost predicate Received(c: Connection, before: seq<Step>, addressesValid: bool, steps: seq<Step>, ok: bool)
      reads c
    {
      var s, b := Run(Init(c.server), before), c.library(|before|);
      var calls := CallsOf(s, b.calls);
      && c.trace == before + steps
      && (ok <==> addressesValid && !ReadOf(Run(s, calls).lib, b).ReadFatal?)
      && steps == if !addressesValid then [] else calls + [if ok then DoSync else DoRecvFailed]
    }

    /** How the library of a new connection answers to the client's first packet. */
    static function FirstRead(library: nat -> Behaviour): (a: ReadAnswer)
      ensures library(0).read.ReadOk? ==> a.ReadOk?
      ensures library(0).read.ReadFatal? ==> a.ReadFatal?
    {
      ReadOf(Run(Init(true), CallsOf(Init(true), library(0).calls)).lib, library(0))
    }

    /** ServerConnection::accept yields a connection exactly if the addresses are valid, its
        setup succeeds, and the new connection reads the client's first packet without error;
        `setup` is the library behind it, if it can be set up. */
    method Accept(key: string, addressesValid: bool, setup: Option<nat -> Behaviour>) returns (r: Option<Connection>)
      ensures r.Some? <==> addressesValid && setup.Some? && FirstRead(setup.value).ReadOk?
      ensures r.Some? ==> fresh(r.value) && fresh(r.value.Repr())
      ensures r.Some? ==> r.value.Valid() && r.value.peer == key && r.value.server && !r.value.closed
      ensures r.Some? ==> r.value.trace == CallsOf(Init(true), setup.value(0).calls)
    {
      if !addressesValid || setup.None? {
        return None;
      }
      var c := new Connection(true, key, setup.value);
      ghost var steps;
      var a;
      a, steps := c.LibraryRuns();
      assert [] + steps == steps;
      r := if a.ReadOk? then Some(c) else None;
    }

    method Register(key: string, c: Connection)
      requires Valid() && key !in connections
      requires c.Valid() && c.peer == key && c !in acceptLog
      modifies this
      ensures Valid()
      ensures connections == old(connections)[key := c] && order == old(order) + [key]
      ensures acceptedQueue == old(acceptedQueue) + [c] && acceptLog == old(acceptLog) + [c]
      ensures drainedLog == old(drainedLog)
    {
      hide WasSettled, Connection.Valid;
      assert key !in order;
      NoDupSnoc(order, key);
      NoDupSnoc(acceptLog, c);
      connections := connections[key := c];
      order := order + [key];
      acceptedQueue := acceptedQueue + [c];
      acceptLog := acceptLog + [c];
      assert drainedLog + acceptedQueue == (drainedLog + old(acceptedQueue)) + [c];
      ValuesAfterUpdate(old(connections), key, c);
    }

    /** The part of recv for a peer without a connection: a new connection is registered
        and queued, and the cleanup that follows does not remove it. */
    method AcceptNew(key: string, addressesValid: bool, setup: Option<nat -> Behaviour>) returns (accepted: Option<Connection>)
      requires Valid() && key !in connections
      modifies this
      ensures Valid() && drainedLog == old(drainedLog)
      ensures accepted.Some? <==> addressesValid && setup.Some? && FirstRead(setup.value).ReadOk?
      ensures accepted.None? ==> unchanged(this)
      ensures accepted.Some? ==> var c := accepted.value;
        && fresh(c) && c.server && c.peer == key && acceptLog == old(acceptLog) + [c]
        && c.trace == CallsOf(Init(true), setup.value(0).calls)
        && Swept(old(connections)[key := c], old(order) + [key])
        && key in connections && connections[key] == c
    {
      hide FirstRead, CallsOf, WasSettled;
      accepted := Accept(key, addressesValid, setup);
      if accepted.Some? {
        Register(key, accepted.value);
        Cleanup();
      }
    }

    method RouteToKnown(key: string, addressesValid: bool) returns (ok: bool, ghost steps: seq<Step>)
      requires Valid() && key in connections
      modifies Footprint()
      ensures Valid() && drainedLog == old(drainedLog) && acceptLog == old(acceptLog)
      ensures Received(old(connections)[key], old(connections[key].trace), addressesValid, steps, ok)
      ensures forall k :: k in old(connections) && k != key ==>
        old(connections)[k].trace == old(connections[k].trace)
      ensures Swept(old(connections), old(order)) || (!ok && unchanged(this))
    {
      hide Connection.Valid, DrainSteps, TimerSteps, Payloads, WasSettled;
      ok, steps := RecvOne(key, addressesValid);
      if ok {
        Cleanup();
      } else {
        CleanupPerhaps();
      }
    }

    /** recv: a datagram goes to its peer's connection and to no other, or opens a new one; what
        is registered is never overwritten. It fails exactly if the peer address has no host, an
        address is invalid, the connection's library fails, or a new connection is not accepted. */
    method Recv(host: string, port: int, addressesValid: bool, setup: Option<nat -> Behaviour>)
        returns (ok: bool, ghost accepted: Option<Connection>, ghost steps: seq<Step>)
      requires Valid()
      modifies Footprint()
      ensures Valid() && drainedLog == old(drainedLog)
      ensures Address.ConnectionKey(host, port).None? ==> !ok && unchanged(this)
      ensures forall k :: k in old(connections) && Some(k) == Address.ConnectionKey(host, port) ==>
        && accepted.None? && acceptLog == old(acceptLog)
        && Received(old(connections)[k], old(connections[k].trace), addressesValid, steps, ok)
        && (Swept(old(connections), old(order)) || (!ok && unchanged(this)))
      ensures forall k :: k in old(connections) && Some(k) != Address.ConnectionKey(host, port) ==>
        old(connections)[k].trace == old(connections[k].trace)
      ensures forall k :: k !in old(connections) && Some(k) == Address.ConnectionKey(host, port) ==>
        && (ok <==> addressesValid && setup.Some? && FirstRead(setup.value).ReadOk?)
        && if !ok then unchanged(this) else
          && accepted.Some? && fresh(accepted.value) && accepted.value.peer == k
          && accepted.value.trace == CallsOf(Init(true), setup.value(0).calls)
          && acceptLog == old(acceptLog) + [accepted.value]
          && Swept(old(connections)[k := accepted.value], old(order) + [k])
          && k in connections && connections[k] == accepted.value
    {
      hide Connection.Valid, Received, FirstRead, CallsOf, WasSettled;
      ok, accepted, steps := false, None, [];
      var key := Address.ConnectionKey(host, port);
      if key.None? {
        return;
      }
      if key.value in connections {
        ok, steps := RouteToKnown(key.value, addressesValid);
      } else {
        var c := AcceptNew(key.value, addressesValid, setup);
        accepted, ok := c, c.Some?;
      }
    }

    // ----- drainAcceptedConnections, drainEvents -----

    method DrainAcceptedConnections() returns (r: seq<Connection>)
      requires Valid()
      modifies this
      ensures Valid() && connections == old(connections) && order == old(order)
      ensures r == old(acceptedQueue) && acceptedQueue == []
      ensures acceptLog == old(acceptLog) && drainedLog == old(drainedLog) + r && drainedLog == acceptLog
    {
      hide Connection.Valid, WasSettled;
      r := acceptedQueue;
      acceptedQueue := [];
      drainedLog := drainedLog + r;
    }

    ghost function EventMap(): map<string, seq<Event>>
      reads this, connections.Values
    {
      map k | k in connections :: connections[k].events
    }

    method TakeOne(key: string) returns (r: seq<Event>)
      requires Valid() && key in connections
      modifies Footprint()
      ensures Valid() && unchanged(this) && Footprint() <= old(Footprint())
      ensures r == old(connections[key].events)
      ensures connections[key].events == [] && connections[key].trace == old(connections[key].trace) + [DoTakeEvents]
      ensures forall k :: k in connections && k != key ==>
        connections[k].events == old(connections[k].events) && connections[k].trace == old(connections[k].trace)
    {
      hide Run, Lived, Connection.View, DrainSteps, TimerSteps, Payloads, WasSettled;
      var c := connections[key];
      InFootprint(c);
      r := c.DrainEvents();
      OthersKept(c);
      FootprintSame(c);
    }

    /** The connections up to the i-th have handed out their queue, and made no other step;
        the others are as before. */
    ghost predicate TakenUpTo(i: nat, queues: map<string, seq<Event>>, before: map<string, seq<Step>>)
      reads this, connections.Values
    {
      && i <= |order| && queues.Keys == before.Keys == connections.Keys
      && forall j :: 0 <= j < |order| ==>
        (&& order[j] in connections
         && connections[order[j]].events == (if j < i then [] else queues[order[j]])
         && connections[order[j]].trace == if j < i then before[order[j]] + [DoTakeEvents] else before[order[j]])
    }

    twostate lemma TakenOneMore(i: nat, new queues: map<string, seq<Event>>, new before: map<string, seq<Step>>)
      requires unchanged(this) && Filed() && i < |order| && old(TakenUpTo(i, queues, before))
      requires connections[order[i]].events == []
      requires connections[order[i]].trace == old(connections[order[i]].trace) + [DoTakeEvents]
      requires forall k :: k in connections && k != order[i] ==>
        connections[k].events == old(connections[k].events) && connections[k].trace == old(connections[k].trace)
      ensures TakenUpTo(i + 1, queues, before)
    {
      forall j | 0 <= j < |order| && j != i ensures order[j] in connections && order[j] != order[i] {
      }
    }

    method TakeNext(i: nat, ghost queues: map<string, seq<Event>>, ghost before: map<string, seq<Step>>)
        returns (r: seq<Event>)
      requires Valid() && i < |order| && TakenUpTo(i, queues, before)
      modifies Footprint()
      ensures Valid() && unchanged(this) && Footprint() <= old(Footprint())
      ensures r == queues[order[i]] && TakenUpTo(i + 1, queues, before)
    {
      r := TakeOne(order[i]);
      TakenOneMore(i, queues, before);
    }

    lemma NoneTaken()
      requires Filed()
      ensures TakenUpTo(0, EventMap(), Traces(connections))
    {
      forall j | 0 <= j < |order| ensures order[j] in connections {
      }
    }

    method TakeAll() returns (r: seq<Event>)
      requires Valid()
      modifies Footprint()
      ensures Valid() && unchanged(this)
      ensures r == Gather(order, old(EventMap()))
      ensures TakenUpTo(|order|, old(EventMap()), old(Traces(connections)))
    {
      hide Connection.Valid, WasSettled;
      r := [];
      ghost var queues, before := EventMap(), Traces(connections);
      NoneTaken();
      for i := 0 to |order|
        invariant Valid() && unchanged(this) && Footprint() <= old(Footprint())
        invariant TakenUpTo(i, queues, before) && r == Gather(order[..i], queues)
      {
        var more := TakeNext(i, queues, before);
        r := r + more;
        GatherNext(order, i, queues);
      }
      assert order[..|order|] == order;
    }

    /** What that means for each connection. */
    static ghost predicate Taken(conns: map<string, Connection>, before: map<string, seq<Step>>)
      reads conns.Values
    {
      forall k :: k in conns ==>
        k in before && conns[k].events == [] && conns[k].trace == before[k] + [DoTakeEvents]
    }

    lemma AllTaken(queues: map<string, seq<Event>>, before: map<string, seq<Step>>)
      requires Filed() && TakenUpTo(|order|, queues, before)
      ensures Taken(connections, before)
    {
      forall k | k in connections
        ensures connections[k].events == [] && connections[k].trace == before[k] + [DoTakeEvents]
      {
        var j :| 0 <= j < |order| && order[j] == k;
        assert order[j] in connections;
      }
    }

    /** drainEvents: every event queued on a registered connection, once, in order; then
        closed connections are removed. */
    method DrainEvents() returns (r: seq<Event>)
      requires Valid()
      modifies Footprint()
      ensures Valid() && acceptLog == old(acceptLog) && acceptedQueue == old(acceptedQueue)
      ensures r == Gather(old(order), old(EventMap()))
      ensures Taken(old(connections), old(Traces(connections)))
      ensures Swept(old(connections), old(order))
      ensures forall c :: c in acceptLog && c !in old(connections.Values) ==> unchanged(c)
    {
      hide Connection.Valid, Advanced, IsRecord, Gather, Swept, Taken, TakenUpTo;
      OnlyRegistered();
      r := TakeAll();
      AllTaken(old(EventMap()), old(Traces(connections)));
      CleanupTaken(old(Traces(connections)));
    }

    method CleanupTaken(ghost before: map<string, seq<Step>>)
      requires Valid() && Taken(connections, before)
      modifies `connections, `order, `removed
      ensures Valid() && Swept(old(connections), old(order)) && Taken(old(connections), before)
      ensures acceptLog == old(acceptLog) && acceptedQueue == old(acceptedQueue)
    {
      Cleanup();
    }

    lemma OnlyRegistered()
      ensures forall c: Connection :: c in Footprint() ==> c in connections.Values
    {
    }

    /** After a cleanup, as recv and handleTimers make it: the events queued on a connection
        are returned by the next drainEvents, as one stretch of its result, exactly if the
        connection was not settled; otherwise it is not asked any more. */
    lemma NextDrainIff(before: map<string, Connection>, keys: seq<string>, k: string)
      requires Filed() && Swept(before, keys) && k in before
      ensures k in order <==> !Settled(before[k].LifeView())
      ensures !Settled(before[k].LifeView()) ==> exists i ::
        (&& 0 <= i < |order| && order[i] == k
         && Gather(order, EventMap()) == Gather(order[..i], EventMap()) + before[k].events + Gather(order[i + 1..], EventMap()))
      ensures Settled(before[k].LifeView()) ==> before[k] !in connections.Values
    {
      var c := before[k];
      assert Removable(c) == Settled(c.LifeView());
      if !Removable(c) {
        assert k in connections && connections[k] == c;
        var i :| 0 <= i < |order| && order[i] == k;
        assert forall j :: 0 <= j < |order| ==> order[j] in EventMap();
        GatherSplits(order, i, EventMap());
      }
    }

    // ----- deadlines over all connections -----

    /** The expiries of the connections that are not closed. */
    ghost function Expiries(keys: seq<string>): seq<Option<u64>>
      reads this, connections.Values
    {
      if keys == [] then []
      else
        var k := keys[|keys| - 1];
        Expiries(keys[..|keys| - 1])
          + [if k in connections && !connections[k].closed then Some(connections[k].expiry) else None]
    }

    /** `r` is the wait for the earliest of these expiries, as read on a clock that moved
        from `lo` to `hi` meanwhile, after another one that moved from `from` to `to`. */
    static ghost predicate Waits(r: Option<nat>, expiries: seq<Option<u64>>, lo: u64, hi: u64, from: nat, to: nat) {
      match Earliest(expiries)
      case None => r.None?
      case Some(e) => r.Some? && from + TimeoutMs(e, hi) <= r.value <= to + TimeoutMs(e, lo)
    }

    static function Sooner(r: Option<nat>, w: Option<nat>): Option<nat> {
      if w.Some? && (r.None? || w.value < r.value) then w else r
    }

    lemma ExpiriesSnoc(i: nat)
      requires Filed() && i < |order|
      ensures order[i] in connections
      ensures var c := connections[order[i]];
        Expiries(order[..i + 1]) == Expiries(order[..i]) + [if c.closed then None else Some(c.expiry)]
    {
      assert order[i] in order;
      assert order[..i + 1][..i] == order[..i];
    }

    /** Taking the smaller of two waits is waiting for the earlier of two expiries. */
    static lemma FoldWait(r: Option<nat>, expiries: seq<Option<u64>>, x: Option<u64>, now: u64, lo: u64, hi: u64,
                          base: nat, from: nat, to: nat)
      requires Waits(r, expiries, lo, hi, from, to) && lo <= now <= hi && from <= base <= to
      ensures var w := if x.None? then None else Some(base + TimeoutMs(x.value, now));
        Waits(Sooner(r, w), expiries + [x], lo, hi, from, to)
    {
      assert (expiries + [x])[..|expiries|] == expiries;
      if x.Some? {
        TimeoutMonotone(x.value, x.value, hi, now);
        TimeoutMonotone(x.value, x.value, now, lo);
        if Earliest(expiries).Some? {
          var e := Earliest(expiries).value;
          if e <= x.value {
            TimeoutMonotone(e, x.value, hi, hi);
            TimeoutMonotone(e, x.value, lo, lo);
          } else {
            TimeoutMonotone(x.value, e, hi, hi);
            TimeoutMonotone(x.value, e, lo, lo);
          }
        }
      }
    }

    static lemma NothingWaits(lo: u64, hi: u64, from: nat, to: nat)
      ensures Waits(None, [], lo, hi, from, to)
    {
    }

    /** These readings of a clock are all from `lo` to `hi`. */
    static predicate Within(readings: seq<nat>, lo: nat, hi: nat) {
      lo <= hi && forall i :: 0 <= i < |readings| ==> lo <= readings[i] <= hi
    }

    /** getNextTimeout: with a single clock reading (lo == hi) the rounded wait until the
        earliest expiry of the connections that are not closed; null if there are none. */
    method GetNextTimeout(readings: seq<u64>, ghost lo: u64, ghost hi: u64) returns (r: Option<nat>)
      requires Filed() && |readings| == |order| && Within(readings, lo, hi)
      ensures Waits(r, Expiries(order), lo, hi, 0, 0)
    {
      hide Waits, Earliest;
      r := None;
      NothingWaits(lo, hi, 0, 0);
      for i := 0 to |order|
        invariant Waits(r, Expiries(order[..i]), lo, hi, 0, 0)
      {
        ExpiriesSnoc(i);
        var c := connections[order[i]];
        var w := c.GetNextTimeout(readings[i]);
        FoldWait(r, Expiries(order[..i]), if c.closed then None else Some(c.expiry), readings[i], lo, hi, 0, 0, 0);
        if w.Some? && (r.None? || w.value < r.value) {
          r := w;
        }
      }
      assert order[..|order|] == order;
    }

    /** getNextExpiry, with its alias getTimeoutAt: the same, on the epoch clock, which every
        connection reads for itself, at some time from `from` to `to`. */
    method GetNextExpiry(readings: seq<u64>, epochs: seq<nat>, ghost lo: u64, ghost hi: u64, ghost from: nat, ghost to: nat)
        returns (r: Option<nat>)
      requires Filed() && |readings| == |epochs| == |order|
      requires Within(readings, lo, hi) && Within(epochs, from, to)
      ensures Waits(r, Expiries(order), lo, hi, from, to)
    {
      hide Waits, Earliest;
      r := None;
      NothingWaits(lo, hi, from, to);
      for i := 0 to |order|
        invariant Waits(r, Expiries(order[..i]), lo, hi, from, to)
      {
        ExpiriesSnoc(i);
        var c := connections[order[i]];
        var at := c.GetNextExpiry(readings[i], epochs[i]);
        FoldWait(r, Expiries(order[..i]), if c.closed then None else Some(c.expiry), readings[i], lo, hi, epochs[i], from, to);
        if at.Some? && (r.None? || at.value < r.value) {
          r := at;
        }
      }
      assert order[..|order|] == order;
    }

    /** getConnectionCount: the accepted connections that have not been removed, one for each
        registered peer. */
    method GetConnectionCount() returns (n: nat)
      requires Valid()
      ensures n == |order| && n + |removed| == |acceptLog|
    {
      n := |connections|;
      CountRegistered();
    }

    lemma RegisteredSize()
      requires Filed()
      ensures |connections.Values| == |order| == |connections|
    {
      var keys, conns := order, connections;
      assert forall i :: 0 <= i < |keys| ==> keys[i] in conns;
      var registered := seq(|keys|, i requires 0 <= i < |keys| => conns[keys[i]]);
      assert forall i :: 0 <= i < |keys| ==> registered[i] == conns[keys[i]] && conns[keys[i]].peer == keys[i];
      NoDupSize(registered);
      assert (set c | c in registered) == connections.Values by {
        forall c | c in connections.Values ensures c in registered {
          var i :| 0 <= i < |order| && order[i] == c.peer;
          assert registered[i] == c;
        }
      }
      NoDupSize(order);
      assert (set k | k in order) == connections.Keys;
    }

    lemma CountRegistered()
      requires Filed() && Recorded()
      ensures |connections| == |order| && |connections| + |removed| == |acceptLog|
    {
      hide WasSettled;
      RegisteredSize();
      NoDupSize(acceptLog);
      assert (set c | c in acceptLog) == connections.Values + removed.Keys;
      assert connections.Values !! removed.Keys;
    }
  }

  /** The queues of these connections, one after the other. */
  function Gather(keys: seq<string>, queues: map<string, seq<Event>>): seq<Event> {
    if keys == [] then []
    else
      var k := keys[|keys| - 1];
      Gather(keys[..|keys| - 1], queues) + (if k in queues then queues[k] else [])
  }

  lemma GatherNext(keys: seq<string>, i: nat, queues: map<string, seq<Event>>)
    requires i < |keys| && keys[i] in queues
    ensures Gather(keys[..i + 1], queues) == Gather(keys[..i], queues) + queues[keys[i]]
  {
    assert keys[..i + 1][..i] == keys[..i];
  }

  lemma {:induction false} GatherConcat(a: seq<string>, b: seq<string>, queues: map<string, seq<Event>>)
    ensures Gather(a + b, queues) == Gather(a, queues) + Gather(b, queues)
  {
    if b == [] {
      assert a + b == a;
    } else {
      var n := |b| - 1;
      assert (a + b)[..|a| + n] == a + b[..n];
      GatherConcat(a, b[..n], queues);
      Associate(Gather(a, queues), Gather(b[..n], queues), if b[n] in queues then queues[b[n]] else []);
    }
  }

  lemma GatherSplits(keys: seq<string>, i: nat, queues: map<string, seq<Event>>)
    requires i < |keys| && keys[i] in queues
    ensures Gather(keys, queues) == Gather(keys[..i], queues) + queues[keys[i]] + Gather(keys[i + 1..], queues)
  {
    assert keys == keys[..i + 1] + keys[i + 1..];
    GatherConcat(keys[..i + 1], keys[i + 1..], queues);
    GatherNext(keys, i, queues);
  }

  /** The exception occurs when the peer closes: one recv queues two events and leaves the
      connection settled, so that its own cleanup removes it before the events are drained. */
  lemma PeerCloseCounterexample(b: Behaviour)
    requires b.calls == [OnPeriod(false, true, 0)] && b.read == ReadStopped(ErrDraining)
    ensures var steps := [OnPeriod(false, true, 0), DoSync]; var s := Run(Init(true), steps);
      && ValidRun(Init(true), steps) && steps == CallsOf(Init(true), b.calls) + [DoSync] && !ReadFails(Init(true), b)
      && ServerEndpoint.Settled(s.life) && |s.mail.events| == 2 && s.mail.handed == []
  {
    var st1, st2 := OnPeriod(false, true, 0), DoSync;
    RunOne(Init(true), st1);
    RunSnoc(Init(true), [st1], st2);
    assert [st1] + [st2] == [st1, st2];
    assert b.calls[..0] == [] && CallsOf(Init(true), []) == [];
    assert CallsOf(Init(true), b.calls) == [st1];
  }
}
