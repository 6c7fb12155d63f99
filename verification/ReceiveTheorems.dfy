/** The receiving side and the notifications over whole runs: conservation of received
    bytes, and events that are raised on edges only. */
module ReceiveTheorems {
  import opened Common
  import opened Library
  import opened StreamSpec
  import opened ConnectionSpec
  import opened ConnectionProofs

  // ----- received bytes -----

  /** All bytes that the run's data callbacks deliver to stream `id`. */
  function Delivered(steps: seq<Step>, id: int): Bytes {
    if steps == [] then []
    else
      var st := steps[|steps| - 1];
      Delivered(steps[..|steps| - 1], id) + DataIn(st, id)
  }

  function DataIn(st: Step, id: int): Bytes {
    if st.OnData? && st.id == id then st.data else []
  }

  /** All bytes that the run's read calls return from stream `id`. */
  function ReadOut(s: Sys, steps: seq<Step>, id: int): Bytes {
    if steps == [] then []
    else
      var before := steps[..|steps| - 1];
      var st := steps[|steps| - 1];
      ReadOut(s, before, id) + ReadBy(Run(s, before), st, id)
  }

  function ReadBy(s: Sys, st: Step, id: int): Bytes {
    if st.DoRead? && st.id == id && ReadAllowed(s, id, st.length)
    then ReadChunk(s.table.At(id).e, st.length) else []
  }

  lemma RoundKeepsRx(s: Sys, connOnly: bool, open: OpenAnswer, a: WriteAnswer, id: int)
    ensures var e, r := s.table.At(id).e, Round(s, connOnly, open, a).table.At(id).e;
      r.rx == e.rx && r.readable == e.readable
  {
    RoundAt(s, connOnly, open, a, id);
  }

  lemma OtherStepsKeepRx(s: Sys, st: Step, id: int)
    requires !st.DoRead? && !st.OnData?
    ensures Apply(s, st).table.At(id).e.rx == s.table.At(id).e.rx
  {
    hide Apply, Round;
    if st.DoRound? {
      ApplyRound(s, st);
      RoundKeepsRx(s, st.connOnly, st.open, st.answer, id);
    } else {
      StepAt(s, st, id);
    }
  }

  lemma ReadSplits(x: Slot, length: nat)
    ensures ReadChunk(x.e, length) + Read(x, length).e.rx == x.e.rx
  {
  }

  lemma ReadStep(s: Sys, k: int, length: int, id: int)
    ensures s.table.At(id).e.rx == ReadBy(s, DoRead(k, length), id) + Apply(s, DoRead(k, length)).table.At(id).e.rx
  {
    hide Apply, Read, ReadChunk;
    StepAt(s, DoRead(k, length), id);
    if ReadAllowed(s, k, length) {
      ReadSplits(s.table.At(k), length);
    }
    assert [] + s.table.At(id).e.rx == s.table.At(id).e.rx;
  }

  lemma DataStep(s: Sys, k: int, data: Bytes, fin: bool, id: int)
    ensures s.table.At(id).e.rx + DataIn(OnData(k, data, fin), id) == Apply(s, OnData(k, data, fin)).table.At(id).e.rx
  {
    hide Apply;
    StepAt(s, OnData(k, data, fin), id);
    assert s.table.At(id).e.rx + [] == s.table.At(id).e.rx;
  }

  lemma ReceiveStep(s: Sys, st: Step, id: int)
    ensures s.table.At(id).e.rx + DataIn(st, id) == ReadBy(s, st, id) + Apply(s, st).table.At(id).e.rx
  {
    var rx := s.table.At(id).e.rx;
    assert rx + [] == rx == [] + rx;
    match st
    case DoRead(k, length) => ReadStep(s, k, length, id);
    case OnData(k, data, fin) =>
      DataStep(s, k, data, fin, id);
      assert [] + (rx + DataIn(st, id)) == rx + DataIn(st, id);
    case _ => OtherStepsKeepRx(s, st, id);
  }

  /** Whatever the order of callbacks and reads: what was read, followed by what is still
      buffered, is exactly what was delivered. */
  lemma {:induction false} ReceivedBytesConserved(s: Sys, steps: seq<Step>, id: int)
    ensures ReadOut(s, steps, id) + Run(s, steps).table.At(id).e.rx
      == s.table.At(id).e.rx + Delivered(steps, id)
  {
    if steps == [] {
      assert s.table.At(id).e.rx + [] == s.table.At(id).e.rx;
    } else {
      var m := |steps| - 1;
      var s' := Run(s, steps[..m]);
      ReceivedBytesConserved(s, steps[..m], id);
      ReceiveStep(s', steps[m], id);
      Regroup(ReadOut(s, steps[..m], id), s'.table.At(id).e.rx, s.table.At(id).e.rx,
              Delivered(steps[..m], id), DataIn(steps[m], id), ReadBy(s', steps[m], id),
              Apply(s', steps[m]).table.At(id).e.rx);
    }
  }

  lemma Regroup(read: Bytes, rx: Bytes, start: Bytes, delivered: Bytes, dataIn: Bytes, chunk: Bytes, rx': Bytes)
    requires read + rx == start + delivered && rx + dataIn == chunk + rx'
    ensures (read + chunk) + rx' == start + (delivered + dataIn)
  {
    assert (read + chunk) + rx' == read + (rx + dataIn);
    assert start + (delivered + dataIn) == (start + delivered) + dataIn;
  }

  /** After any run, a read returns the next bytes of the stream that the peer sent: those that
      follow what has been read before, as many as it asks for, or all that have arrived. */
  lemma {:induction false} ReadReturnsNextBytes(server: bool, steps: seq<Step>, id: int, length: int)
    requires length > 0
    ensures var sent, n := Delivered(steps, id), |ReadOut(Init(server), steps, id)|;
      && n <= |sent| && ReadOut(Init(server), steps, id) == sent[..n]
      && ReadBy(Run(Init(server), steps), DoRead(id, length), id) ==
           sent[n..if n + length < |sent| then n + length else |sent|]
  {
    hide Run, Delivered;
    var rx, sent, out := Run(Init(server), steps).table.At(id).e.rx, Delivered(steps, id), ReadOut(Init(server), steps, id);
    ReceivedBytesConserved(Init(server), steps, id);
    assert [] + sent == sent;
    assert sent[|out|..] == rx;
    ReadIsPrefix(Run(Init(server), steps), id, length);
  }

  lemma ReadIsPrefix(s: Sys, id: int, length: int)
    requires length > 0
    ensures var rx := s.table.At(id).e.rx;
      ReadBy(s, DoRead(id, length), id) == if length < |rx| then rx[..length] else rx
  {
  }

  /** Bytes wait unannounced only on a stream that was reset. */
  lemma {:induction false} BufferedIsAnnounced(server: bool, steps: seq<Step>, id: int)
    requires ValidRun(Init(server), steps)
    ensures var e := Run(Init(server), steps).table.At(id).e;
      (e.readable ==> e.rx != []) && (e.rx != [] ==> e.readable || e.reset)
  {
    InitInv(server);
    RunKeepsInv(Init(server), steps);
    assert StreamAt(Run(Init(server), steps), id);
  }

  // ----- edges -----

  /** The step raises an event of this kind about stream `id`. */
  ghost predicate Raises(s: Sys, st: Step, kind: EventKind, id: int) {
    exists e :: e in Raised(s, st) && e.kind == kind && e.stream == id
  }

  function Raised(s: Sys, st: Step): seq<Event> {
    var after := Apply(s, st).mail.log;
    if |s.mail.log| <= |after| then after[|s.mail.log|..] else []
  }

  /** The steps that withdraw a stream's readability: a read that empties the buffer, or
      a local reset. */
  predicate Empties(s: Sys, st: Step, id: int) {
    || (st.DoRead? && st.id == id && ReadAllowed(s, id, st.length)
        && ReadChunk(s.table.At(id).e, st.length) == s.table.At(id).e.rx)
    || (st.DoReset? && st.id == id && ResetAllowed(s, id, st.shutdownOk))
  }

  /** What a step outside the drain loop adds to the log. */
  function Posts(s: Sys, st: Step): seq<Event> {
    match st
    case DoReset(id, code, ok) => if ResetAllowed(s, id, ok) then [Event(StreamReset, id, code, false, None)] else []
    case DoOpen(bidi, a) =>
      if !OpenAllowed(s, a) then []
      else [OnStream(StreamOpened, OpenId(s, bidi, a), false), OnStream(StreamWritable, OpenId(s, bidi, a), false)]
    case DoClose(code, reason) =>
      if s.life.closeRequested || s.life.closeEventEmitted then []
      else [Event(ConnectionClosed, -1, code, false, if reason.Some? then Some(CString(reason.value)) else None)]
    case DoWriteClose(a) => if a.CloseStopped? then SyncPosts(s) else []
    case DoSync => SyncPosts(s)
    case OnHandshake => if s.life.established then [] else [Event(HandshakeCompleted, -1, 0, false, None)]
    case OnStreamOpen(id) => [OnStream(StreamOpened, id, true)]
    case OnData(id, data, _) =>
      if ReceiveNotifies(s.table.At(id), data) then [OnStream(StreamReadable, id, true)] else []
    case OnStreamClose(id, code) => [Event(StreamClosed, id, code, true, None)]
    case OnStreamReset(id, code) => [Event(StreamReset, id, code, true, None)]
    case OnAcked(id) =>
      if s.table.Has(id) && !AckIgnored(s.table.At(id).e) then [OnStream(StreamWritable, id, true)] else []
    case _ => []
  }

  function SyncPosts(s: Sys): seq<Event> {
    (if s.lib.draining && !s.life.drainingEventEmitted then [Event(ConnectionDraining, -1, 0, true, None)] else [])
      + (if (s.lib.closing || s.lib.draining) && !s.life.closeEventEmitted
         then [Event(ConnectionClosed, -1, s.lib.errorCode, true, None)] else [])
  }

  lemma SyncAdds(s: Sys)
    ensures Sync(s).mail.log == s.mail.log + SyncPosts(s)
  {
    hide SyncLife;
    var first := if s.lib.draining && !s.life.drainingEventEmitted then [Event(ConnectionDraining, -1, 0, true, None)] else [];
    Associate(s.mail.log, first, SyncPosts(s)[|first|..]);
  }

  lemma StepAdds(s: Sys, st: Step)
    requires !st.DoRound?
    ensures Apply(s, st).mail.log == s.mail.log + Posts(s, st)
  {
    hide Write, End, Read, Reset, Receive, Acked, OpenSlot, CloseByPeer, ResetByPeer, Sync, SyncPosts, CString,
      AckIgnored, ReceiveNotifies;
    if st.DoWriteClose? && st.close.CloseStopped? {
      SyncAdds(s.(life := s.life.(closePacketSent := true)));
      SyncPostsOf(s);
    } else if st.DoSync? {
      SyncAdds(s);
    }
    assert s.mail.log + [] == s.mail.log;
  }

  lemma SyncPostsOf(s: Sys)
    ensures SyncPosts(s.(life := s.life.(closePacketSent := true))) == SyncPosts(s)
  {
  }

  lemma RaisedIsPosted(s: Sys, st: Step)
    requires !st.DoRound?
    ensures Raised(s, st) == Posts(s, st)
  {
    hide Apply, Posts;
    StepAdds(s, st);
  }

  lemma SyncPostsKinds(s: Sys)
    ensures forall e :: e in SyncPosts(s) ==> IsConnectionKind(e.kind)
  {
  }

  lemma RoundRaises(s: Sys, connOnly: bool, open: OpenAnswer, a: WriteAnswer, e: Event)
    requires e in Raised(s, DoRound(connOnly, open, a))
    ensures IsConnectionKind(e.kind) ||
      (e.kind == StreamWritable && Offered(s, connOnly, open, a, e.stream)
       && OfferNotifies(Unblocked(s, connOnly, open, e.stream), a))
  {
    hide Round, Sync, UpdateTx, Unblocked, Target, SyncPosts;
    SyncPostsKinds(s);
    RoundLife(s, connOnly, open, a);
    SyncAdds(s);
    var log, after := s.mail.log, Round(s, connOnly, open, a).mail.log;
    assert (log + SyncPosts(s))[|log|..] == SyncPosts(s);
    if !OpenThrows(s, connOnly, open) && !a.Stopped? && Source(s, connOnly, open).Some? {
      var w := OnStream(StreamWritable, Source(s, connOnly, open).value, false);
      assert (log + [w])[|log|..] == [w];
    }
  }

  /** Outside drains only a data callback raises StreamReadable. */
  lemma DataRaises(s: Sys, st: Step, e: Event)
    requires e in Raised(s, st) && e.kind == StreamReadable && !st.DoRound?
    ensures st.OnData? && st.id == e.stream && ReceiveNotifies(s.table.At(st.id), st.data)
  {
    hide Apply, Raised, CString;
    RaisedIsPosted(s, st);
  }

  lemma ReadableEvent(s: Sys, st: Step, id: int)
    requires Raises(s, st, StreamReadable, id)
    ensures !s.table.At(id).e.readable && Apply(s, st).table.At(id).e.readable
  {
    hide Round;
    var e :| e in Raised(s, st) && e.kind == StreamReadable && e.stream == id;
    if st.DoRound? {
      RoundRaises(s, st.connOnly, st.open, st.answer, e);
    } else {
      DataRaises(s, st, e);
    }
  }

  lemma ReadableKeptBy(s: Sys, st: Step, id: int)
    requires s.table.At(id).e.readable && !Empties(s, st, id)
    ensures Apply(s, st).table.At(id).e.readable
  {
    hide Apply, Round;
    if st.DoRound? {
      ApplyRound(s, st);
      RoundKeepsRx(s, st.connOnly, st.open, st.answer, id);
    } else {
      StepAt(s, st, id);
    }
  }

  lemma {:induction false} ReadableStays(s: Sys, mid: seq<Step>, id: int)
    requires s.table.At(id).e.readable
    requires forall k :: 0 <= k < |mid| ==> !Empties(Run(s, mid[..k]), mid[k], id)
    ensures Run(s, mid).table.At(id).e.readable
  {
    hide Apply, Empties;
    if mid != [] {
      var m := |mid| - 1;
      forall k | 0 <= k < m ensures !Empties(Run(s, mid[..m][..k]), mid[..m][k], id) {
        assert mid[..m][..k] == mid[..k];
      }
      ReadableStays(s, mid[..m], id);
      ReadableKeptBy(Run(s, mid[..m]), mid[m], id);
    }
  }

  /** Between two StreamReadable events of a stream there is a read that emptied its
      buffer, or a local reset. */
  lemma {:induction false} ReadableIsEdgeTriggered(s: Sys, first: Step, mid: seq<Step>, second: Step, id: int)
    requires Raises(s, first, StreamReadable, id)
    requires Raises(Run(Apply(s, first), mid), second, StreamReadable, id)
    ensures exists k :: 0 <= k < |mid| && Empties(Run(Apply(s, first), mid[..k]), mid[k], id)
  {
    ReadableEvent(s, first, id);
    ReadableEvent(Run(Apply(s, first), mid), second, id);
    if forall k :: 0 <= k < |mid| ==> !Empties(Run(Apply(s, first), mid[..k]), mid[k], id) {
      ReadableStays(Apply(s, first), mid, id);
    }
  }

  /** The steps that withdraw a stream's writability. */
  predicate Blocks(s: Sys, st: Step, id: int) {
    match st
    case DoWrite(k, _) => k == id && WriteAllowed(s, id)
    case DoEnd(k, _) => k == id && EndAllowed(s, id)
    case DoReset(k, _, ok) => k == id && ResetAllowed(s, id, ok)
    case OnStreamClose(k, _) => k == id
    case OnStreamReset(k, _) => k == id
    case DoRound(connOnly, open, a) =>
      // the FIN went out, or the library refused further data
      Offered(s, connOnly, open, a, id) && !s.table.At(id).e.finSent
        && Offer(Unblocked(s, connOnly, open, id), a).e.finSent
    case _ => false
  }

  lemma RoundWritableEvent(s: Sys, connOnly: bool, open: OpenAnswer, a: WriteAnswer, id: int)
    requires Offered(s, connOnly, open, a, id) && OfferNotifies(Unblocked(s, connOnly, open, id), a)
    ensures !s.table.At(id).e.writable && Round(s, connOnly, open, a).table.At(id).e.writable
    ensures Round(s, connOnly, open, a).table.Has(id)
  {
    RoundAt(s, connOnly, open, a, id);
    TargetHasWork(s, connOnly);
  }

  lemma OpenRaises(s: Sys, bidi: bool, open: OpenAnswer, e: Event)
    requires e in Raised(s, DoOpen(bidi, open))
    ensures OpenAllowed(s, open) && e.stream == OpenId(s, bidi, open)
  {
    hide Apply, Raised, CString;
    RaisedIsPosted(s, DoOpen(bidi, open));
  }

  /** Outside drains and opens only an acknowledgement raises StreamWritable. */
  lemma AckRaises(s: Sys, st: Step, e: Event)
    requires e in Raised(s, st) && e.kind == StreamWritable && !st.DoRound? && !st.DoOpen?
    ensures st == OnAcked(e.stream) && s.table.Has(e.stream) && !AckIgnored(s.table.At(e.stream).e)
  {
    hide Apply, Raised, CString;
    RaisedIsPosted(s, st);
  }

  lemma WritableEvent(s: Sys, st: Step, id: int)
    requires Raises(s, st, StreamWritable, id)
    ensures Apply(s, st).table.Has(id) && Apply(s, st).table.At(id).e.writable
    ensures !s.table.Has(id) || !s.table.At(id).e.writable || Apply(s, st).reused
  {
    hide Round;
    var e :| e in Raised(s, st) && e.kind == StreamWritable && e.stream == id;
    if st.DoRound? {
      RoundRaises(s, st.connOnly, st.open, st.answer, e);
      RoundWritableEvent(s, st.connOnly, st.open, st.answer, id);
    } else if st.DoOpen? {
      OpenRaises(s, st.bidi, st.open, e);
    } else {
      AckRaises(s, st, e);
    }
  }

  lemma UpdateTxKeepsWritable(e: Entry, w: int, fin: bool, packet: bool)
    requires e.writable && !UpdateTx(e, w, fin, packet).0.finSent
    ensures UpdateTx(e, w, fin, packet).0.writable
  {
  }

  lemma OfferKeepsWritable(x: Slot, a: WriteAnswer)
    requires x.e.writable && !x.e.finSent && !Offer(x, a).e.finSent
    ensures Offer(x, a).e.writable
  {
    hide UpdateTx;
    if a.Packet? || a.Zero? || a.WriteMore? || a.DataBlocked? {
      UpdateTxKeepsWritable(x.e, a.wdatalen, x.e.finPending, a.Packet?);
    }
  }

  lemma BlocksRound(s: Sys, connOnly: bool, open: OpenAnswer, a: WriteAnswer, id: int)
    requires s.table.At(id).e.writable && WritableOpen(s.table.At(id).e)
    requires !Blocks(s, DoRound(connOnly, open, a), id)
    ensures Round(s, connOnly, open, a).table.At(id).e.writable
  {
    RoundAt(s, connOnly, open, a, id);
    if Offered(s, connOnly, open, a, id) {
      OfferKeepsWritable(Unblocked(s, connOnly, open, id), a);
    }
  }

  lemma WritableKeptBy(s: Sys, st: Step, id: int)
    requires s.table.Has(id) && s.table.At(id).e.writable && WritableAt(s, id) && !s.reused
    requires Enabled(s, st) && !Blocks(s, st, id)
    ensures Apply(s, st).table.Has(id) && Apply(s, st).table.At(id).e.writable
  {
    hide Round;
    if st.DoRound? {
      BlocksRound(s, st.connOnly, st.open, st.answer, id);
      RoundTable(s, st.connOnly, st.open, st.answer);
    }
  }

  lemma ReusedIsForever(s: Sys, st: Step)
    ensures s.reused ==> Apply(s, st).reused
  {
  }

  lemma {:induction false} WritableStays(s: Sys, mid: seq<Step>, id: int)
    requires Inv(s) && ValidRun(s, mid) && !Run(s, mid).reused
    requires s.table.Has(id) && s.table.At(id).e.writable
    requires forall k :: 0 <= k < |mid| ==> !Blocks(Run(s, mid[..k]), mid[k], id)
    ensures Run(s, mid).table.Has(id) && Run(s, mid).table.At(id).e.writable
  {
    if mid != [] {
      var m := |mid| - 1;
      forall k | 0 <= k < m ensures !Blocks(Run(s, mid[..m][..k]), mid[..m][k], id) {
        assert mid[..m][..k] == mid[..k];
      }
      var s' := Run(s, mid[..m]);
      ReusedIsForever(s', mid[m]);
      WritableStays(s, mid[..m], id);
      RunKeepsInv(s, mid[..m]);
      assert WritableAt(s', id);
      WritableKeptBy(s', mid[m], id);
    }
  }

  /** In a run in which no open returns an ID twice: between two StreamWritable events of
      a stream there is a write, an end, a reset, a close, or the end of sending. */
  lemma {:induction false} WritableIsEdgeTriggered(server: bool, pre: seq<Step>, first: Step, mid: seq<Step>, second: Step, id: int)
    requires ValidRun(Init(server), pre)
    requires var s := Run(Init(server), pre);
      && Enabled(s, first) && ValidRun(Apply(s, first), mid)
      && Raises(s, first, StreamWritable, id)
      && Raises(Run(Apply(s, first), mid), second, StreamWritable, id)
      && !Apply(Run(Apply(s, first), mid), second).reused
    ensures var s1 := Apply(Run(Init(server), pre), first);
      exists k :: 0 <= k < |mid| && Blocks(Run(s1, mid[..k]), mid[k], id)
  {
    var s := Run(Init(server), pre);
    InitInv(server);
    RunKeepsInv(Init(server), pre);
    var s1 := Apply(s, first);
    StepKeepsInv(s, first);
    WritableEvent(s, first, id);
    WritableEvent(Run(s1, mid), second, id);
    ReusedIsForever(Run(s1, mid), second);
    if forall k :: 0 <= k < |mid| ==> !Blocks(Run(s1, mid[..k]), mid[k], id) {
      WritableStays(s1, mid, id);
    }
  }
}
