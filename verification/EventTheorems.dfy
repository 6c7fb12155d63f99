/** Exactly when an event of each kind is raised, and what it says. `ReceiveTheorems` derives
    from its half of this that readable and writable events are raised on edges only. */
module EventTheorems {
  import opened Common
  import opened Library
  import opened StreamSpec
  import opened ConnectionSpec
  import opened ConnectionProofs
  import opened HistoryTheorems
  import LifecycleTheorems
  import opened ReceiveTheorems

  // ----- readable streams -----

  lemma RaisesOf(s: Sys, st: Step, e: Event)
    requires e in Raised(s, st)
    ensures Raises(s, st, e.kind, e.stream)
  {
  }

  lemma PostedIsRaised(s: Sys, st: Step, e: Event)
    requires !st.DoRound? && e in Posts(s, st)
    ensures Raises(s, st, e.kind, e.stream)
  {
    hide Posts, Raised;
    RaisedIsPosted(s, st);
    RaisesOf(s, st, e);
  }

  lemma DataAnnounced(s: Sys, st: Step)
    requires st.OnData? && ReceiveNotifies(s.table.At(st.id), st.data)
    ensures Raises(s, st, StreamReadable, st.id)
  {
    hide Apply, Raises, Raised, ReceiveNotifies;
    PostedIsRaised(s, st, OnStream(StreamReadable, st.id, true));
  }

  /** What else than data makes a stream readable. */
  lemma RisesByDataOrRead(s: Sys, st: Step, id: int)
    requires !s.table.At(id).e.readable && Apply(s, st).table.At(id).e.readable && !st.DoRead?
    ensures st.OnData? && st.id == id && ReceiveNotifies(s.table.At(id), st.data)
  {
    hide Apply, Round, ReceiveNotifies;
    if st.DoRound? {
      ApplyRound(s, st);
      RoundKeepsRx(s, st.connOnly, st.open, st.answer, id);
    } else {
      StepAt(s, st, id);
      SlotRises(s, st, id);
    }
  }

  lemma SlotRises(s: Sys, st: Step, id: int)
    requires !s.table.At(id).e.readable && SlotAfter(s, st, id).e.readable && !st.DoRead?
    ensures st.OnData? && st.id == id && ReceiveNotifies(s.table.At(id), st.data)
  {
    hide CanSend, Ended, AckIgnored, IsLocal, IsBidi, OpenId, OpenAllowed;
  }

  lemma ReadRises(s: Sys, k: int, length: int, id: int)
    requires !s.table.At(id).e.readable
    ensures Apply(s, DoRead(k, length)).table.At(id).e.readable <==> k == id && 0 < length < |s.table.At(id).e.rx|
  {
    hide Apply, Read, ReadAllowed;
    StepAt(s, DoRead(k, length), id);
    if k == id {
      ReadLeaves(s, id, length);
    }
  }

  lemma ReadLeaves(s: Sys, id: int, length: int)
    ensures ReadAllowed(s, id, length) ==>
      (StreamSpec.Read(s.table.At(id), length).e.readable <==>
         if s.table.At(id).e.rx == [] then s.table.At(id).e.readable else length < |s.table.At(id).e.rx|)
    ensures 0 < length < |s.table.At(id).e.rx| ==> ReadAllowed(s, id, length)
    ensures ReadAllowed(s, id, length) ==> length > 0
  {
  }

  lemma ReadRaisesNothing(s: Sys, st: Step, id: int)
    requires st.DoRead?
    ensures !Raises(s, st, StreamReadable, id)
  {
    hide Apply, Raised;
    RaisedIsPosted(s, st);
  }

  /** StreamReadable is raised exactly when the stream turns readable, except by a read. */
  lemma {:induction false} ReadableEventIff(s: Sys, st: Step, id: int)
    ensures Raises(s, st, StreamReadable, id) <==>
      !s.table.At(id).e.readable && Apply(s, st).table.At(id).e.readable && !st.DoRead?
  {
    hide Apply, Raises, ReceiveNotifies;
    if Raises(s, st, StreamReadable, id) {
      ReadableEvent(s, st, id);
      if st.DoRead? {
        ReadRaisesNothing(s, st, id);
      }
    } else if !s.table.At(id).e.readable && Apply(s, st).table.At(id).e.readable && !st.DoRead? {
      RisesByDataOrRead(s, st, id);
      DataAnnounced(s, st);
    }
  }

  /** A stream turns readable without an event exactly by a read that leaves bytes on a stream
      which was not readable; after any run from the start, that is one that was reset. */
  lemma {:induction false} SilentRiseIff(server: bool, steps: seq<Step>, st: Step, id: int)
    requires ValidRun(Init(server), steps)
    ensures var s := Run(Init(server), steps); var e := s.table.At(id).e;
      (!e.readable && Apply(s, st).table.At(id).e.readable && !Raises(s, st, StreamReadable, id)) <==>
        st.DoRead? && st.id == id && 0 < st.length < |e.rx| && !e.readable
    ensures var s := Run(Init(server), steps); var e := s.table.At(id).e;
      st.DoRead? && st.id == id && 0 < st.length < |e.rx| && !e.readable ==> e.reset
  {
    hide Run, Apply, Raises;
    var s := Run(Init(server), steps);
    ReadableEventIff(s, st, id);
    BufferedIsAnnounced(server, steps, id);
    if st.DoRead? && !s.table.At(id).e.readable {
      ReadRises(s, st.id, st.length, id);
    }
  }

  /** The exception occurs: bytes wait, the application resets the stream and reads one. */
  lemma SilentRiseCounterexample()
    ensures var steps := [DoOpen(true, Opened(0)), OnData(0, [1, 2], false), DoReset(0, 0, true)];
      var s := Run(Init(false), steps); var st := DoRead(0, 1);
      && ValidRun(Init(false), steps) && !s.table.At(0).e.readable
      && Apply(s, st).table.At(0).e.readable && !Raises(s, st, StreamReadable, 0)
  {
    hide Apply, Enabled, Raises;
    var steps := [DoOpen(true, Opened(0)), OnData(0, [1, 2], false), DoReset(0, 0, true)];
    DataThenReset();
    SilentRiseIff(false, steps, DoRead(0, 1), 0);
  }

  lemma DataThenReset()
    ensures var steps := [DoOpen(true, Opened(0)), OnData(0, [1, 2], false), DoReset(0, 0, true)];
      var s := Run(Init(false), steps);
      ValidRun(Init(false), steps) && !s.table.At(0).e.readable && s.table.At(0).e.rx == [1, 2]
  {
    var st1, st2, st3 := DoOpen(true, Opened(0)), OnData(0, [1, 2], false), DoReset(0, 0, true);
    RunOne(Init(false), st1);
    RunSnoc(Init(false), [st1], st2);
    RunSnoc(Init(false), [st1, st2], st3);
    assert [st1] + [st2] == [st1, st2] && [st1, st2] + [st3] == [st1, st2, st3];
  }

  /** The k-th step has raised StreamReadable, and the buffer has not been empty since. */
  ghost predicate AnnouncedAt(s: Sys, steps: seq<Step>, id: int, k: int) {
    && 0 <= k < |steps| && Raises(Run(s, steps[..k]), steps[k], StreamReadable, id)
    && forall j :: k < j <= |steps| ==> Run(s, steps[..j]).table.At(id).e.rx != []
  }

  lemma AnnouncedSnoc(s: Sys, steps: seq<Step>, id: int, k: int)
    requires steps != [] && AnnouncedAt(s, steps[..|steps| - 1], id, k) && Run(s, steps).table.At(id).e.rx != []
    ensures AnnouncedAt(s, steps, id, k)
  {
    hide Run, Raises;
    var m := |steps| - 1;
    assert steps[..|steps|] == steps && forall j :: 0 <= j <= m ==> steps[..m][..j] == steps[..j];
  }

  lemma JustAnnounced(s: Sys, steps: seq<Step>, id: int)
    requires steps != [] && Raises(Run(s, steps[..|steps| - 1]), steps[|steps| - 1], StreamReadable, id)
    requires Run(s, steps).table.At(id).e.rx != []
    ensures AnnouncedAt(s, steps, id, |steps| - 1)
  {
    hide Run, Raises;
    assert steps[..|steps|] == steps;
  }

  /** In every reachable state: if bytes wait on a stream that was not reset, their arrival was
      announced: StreamReadable has been raised since the buffer was last empty. */
  lemma {:induction false} BufferedWasAnnounced(server: bool, steps: seq<Step>, id: int)
    requires ValidRun(Init(server), steps)
    requires var e := Run(Init(server), steps).table.At(id).e; e.rx != [] && !e.reset
    ensures exists k :: AnnouncedAt(Init(server), steps, id, k)
  {
    hide Run, ValidRun, Apply, Enabled, Raises, AnnouncedAt;
    if steps == [] {
      NothingBuffered(server, id);
    } else {
      var m := |steps| - 1;
      LastStep(Init(server), steps);
      if Raises(Run(Init(server), steps[..m]), steps[m], StreamReadable, id) {
        JustAnnounced(Init(server), steps, id);
      } else {
        StillBuffered(server, steps[..m], steps[m], id);
        BufferedWasAnnounced(server, steps[..m], id);
        var k :| AnnouncedAt(Init(server), steps[..m], id, k);
        AnnouncedSnoc(Init(server), steps, id, k);
      }
    }
  }

  lemma NothingBuffered(server: bool, id: int)
    ensures Run(Init(server), []).table.At(id).e.rx == []
  {
  }

  lemma LastStep(s: Sys, steps: seq<Step>)
    requires steps != []
    ensures var m := |steps| - 1;
      Run(s, steps) == Apply(Run(s, steps[..m]), steps[m]) && ValidRun(s, steps) == (ValidRun(s, steps[..m]) && Enabled(Run(s, steps[..m]), steps[m]))
  {
  }

  /** If the last step has raised nothing, the bytes were there before. */
  lemma StillBuffered(server: bool, steps: seq<Step>, st: Step, id: int)
    requires ValidRun(Init(server), steps) && Enabled(Run(Init(server), steps), st)
    requires var e := Apply(Run(Init(server), steps), st).table.At(id).e; e.rx != [] && !e.reset
    requires !Raises(Run(Init(server), steps), st, StreamReadable, id)
    ensures var e := Run(Init(server), steps).table.At(id).e; e.rx != [] && !e.reset
  {
    hide Run, Apply, Enabled, Raises, ReceiveNotifies;
    var s := Run(Init(server), steps);
    InitInv(server);
    RunKeepsInv(Init(server), steps);
    assert StreamAt(s, id);
    FlagStep(s, st, id, ResetDone);
    BufferedIsAnnounced(server, steps, id);
    if st.OnData? {
      NotAnnounced(s, st, id);
    } else if st.DoRead? {
      StepAt(s, st, id);
    } else {
      OtherStepsKeepRx(s, st, id);
    }
  }

  lemma NotAnnounced(s: Sys, st: Step, id: int)
    requires st.OnData? && !Raises(s, st, StreamReadable, id) && ReadableKept(s.table.At(id).e)
    requires Apply(s, st).table.At(id).e.rx != []
    ensures s.table.At(id).e.rx != []
  {
    hide Apply, Raises;
    StepAt(s, st, id);
    if st.id == id && ReceiveNotifies(s.table.At(id), st.data) {
      DataAnnounced(s, st);
    }
  }

  // ----- writable streams -----

  lemma NotifiesIff(e: Entry, w: int, fin: bool, packet: bool)
    ensures var r := UpdateTx(e, w, fin, packet); r.1 <==> !e.writable && r.0.writable
  {
  }

  lemma OfferNotifiesIff(x: Slot, a: WriteAnswer)
    ensures OfferNotifies(x, a) <==> !x.e.writable && Offer(x, a).e.writable
  {
    hide UpdateTx;
    if !a.ShutWr? && !a.Stopped? && !a.Fatal? {
      NotifiesIff(x.e, a.wdatalen, x.e.finPending, a.Packet?);
    }
  }

  /** What a round that does not stop or fail adds to the log. */
  lemma RoundAdds(s: Sys, connOnly: bool, open: OpenAnswer, a: WriteAnswer, id: int)
    requires Offered(s, connOnly, open, a, id)
    ensures var r := Round(s, connOnly, open, a).mail.log;
      r == s.mail.log + if OfferNotifies(Unblocked(s, connOnly, open, id), a) then [OnStream(StreamWritable, id, false)] else []
  {
    hide Round, Unblocked, OfferNotifies, Target, NeedsOpen;
    RoundLife(s, connOnly, open, a);
    assert s.mail.log + [] == s.mail.log;
  }

  lemma RoundWritable(s: Sys, st: Step, id: int)
    requires st.DoRound?
    ensures Raises(s, st, StreamWritable, id) <==> !s.table.At(id).e.writable && Apply(s, st).table.At(id).e.writable
  {
    hide Apply, Round, Offer, OfferNotifies, Target, Source;
    ApplyRound(s, st);
    RoundAt(s, st.connOnly, st.open, st.answer, id);
    OfferNotifiesIff(Unblocked(s, st.connOnly, st.open, id), st.answer);
    if Offered(s, st.connOnly, st.open, st.answer, id) {
      RoundAdds(s, st.connOnly, st.open, st.answer, id);
      if OfferNotifies(Unblocked(s, st.connOnly, st.open, id), st.answer) {
        assert OnStream(StreamWritable, id, false) in Raised(s, st);
      }
    }
    if Raises(s, st, StreamWritable, id) {
      var e :| e in Raised(s, st) && e.kind == StreamWritable && e.stream == id;
      RoundRaises(s, st.connOnly, st.open, st.answer, e);
    }
  }

  lemma PostedWritable(s: Sys, st: Step, id: int)
    requires !st.DoRound?
    ensures Raises(s, st, StreamWritable, id) <==>
      Returned(s, st, id) || (st == OnAcked(id) && s.table.Has(id) && !AckIgnored(s.table.At(id).e))
  {
    hide Apply, Raised, ReceiveNotifies, SyncPosts, AckIgnored, Predicted, CString;
    RaisedIsPosted(s, st);
    SyncRaises(s);
    if Returned(s, st, id) {
      assert OnStream(StreamWritable, id, false) in Posts(s, st);
    } else if st == OnAcked(id) && s.table.Has(id) && !AckIgnored(s.table.At(id).e) {
      assert OnStream(StreamWritable, id, true) in Posts(s, st);
    }
  }

  lemma SyncRaises(s: Sys)
    ensures forall e :: e in SyncPosts(s) ==> e.kind == ConnectionDraining || e.kind == ConnectionClosed
  {
  }

  lemma SlotTurnsWritable(s: Sys, st: Step, id: int)
    requires !st.DoRound? && !st.DoOpen? && !st.OnStreamOpen?
    ensures !s.table.At(id).e.writable && Apply(s, st).table.At(id).e.writable <==>
      st == OnAcked(id) && s.table.Has(id) && !AckIgnored(s.table.At(id).e)
  {
    hide Apply, CanSend, Ended, IsLocal, IsBidi;
    StepAt(s, st, id);
  }

  /** StreamWritable is raised exactly when an open returns the stream, or when it turns
      writable after that; the peer's own streams start out writable without it. */
  lemma {:induction false} WritableEventIff(s: Sys, st: Step, id: int)
    ensures Raises(s, st, StreamWritable, id) <==>
      || Returned(s, st, id)
      || (!st.DoOpen? && !st.OnStreamOpen? && !s.table.At(id).e.writable && Apply(s, st).table.At(id).e.writable)
  {
    hide Apply, Raises, Returned, AckIgnored;
    if st.DoRound? {
      RoundWritable(s, st, id);
      OnlyOpensReturn(s, st, id);
    } else {
      PostedWritable(s, st, id);
      if !st.DoOpen? && !st.OnStreamOpen? {
        SlotTurnsWritable(s, st, id);
      }
    }
  }

  lemma OnlyOpensReturn(s: Sys, st: Step, id: int)
    requires !st.DoOpen?
    ensures !Returned(s, st, id)
  {
  }

  // ----- the other kinds -----

  /** All that a round raises. */
  lemma RoundRaised(s: Sys, st: Step)
    requires st.DoRound?
    ensures var r := Raised(s, st);
      || r == []
      || (st.answer.Stopped? && !OpenFails(s, st) && r == SyncPosts(s))
      || exists id :: r == [OnStream(StreamWritable, id, false)]
    ensures st.answer.Stopped? && !OpenFails(s, st) ==> Raised(s, st) == SyncPosts(s)
  {
    hide Round, Target, Unblocked, OfferNotifies, Sync;
    RoundLife(s, st.connOnly, st.open, st.answer);
    SyncAdds(s);
    var log, after := s.mail.log, Apply(s, st).mail.log;
    assert (log + SyncPosts(s))[|log|..] == SyncPosts(s);
    if Source(s, st.connOnly, st.open).Some? {
      var w := OnStream(StreamWritable, Source(s, st.connOnly, st.open).value, false);
      assert (log + [w])[|log|..] == [w];
    }
  }

  /** StreamOpened is raised exactly when an open returns the stream or the peer opens it,
      StreamClosed when the peer closes it, StreamReset when either side resets it. */
  lemma {:induction false} StreamEventsIff(s: Sys, st: Step, id: int)
    ensures Raises(s, st, StreamOpened, id) <==> Returned(s, st, id) || st == OnStreamOpen(id)
    ensures Raises(s, st, StreamClosed, id) <==> st.OnStreamClose? && st.id == id
    ensures Raises(s, st, StreamReset, id) <==> ResetAccepted(s, st, id) || (st.OnStreamReset? && st.id == id)
  {
    hide Apply, Raised, SyncPosts, ReceiveNotifies, AckIgnored, Predicted, CString, OpenFails;
    SyncRaises(s);
    if st.DoRound? {
      RoundRaised(s, st);
    } else {
      RaisedIsPosted(s, st);
      if st.DoOpen? && OpenAllowed(s, st.open) {
        assert OnStream(StreamOpened, OpenId(s, st.bidi, st.open), false) in Posts(s, st);
      } else if st.OnStreamOpen? {
        assert OnStream(StreamOpened, st.id, true) in Posts(s, st);
      } else if st.OnStreamClose? {
        assert Event(StreamClosed, st.id, st.code, true, None) in Posts(s, st);
      } else if st.OnStreamReset? {
        assert Event(StreamReset, st.id, st.code, true, None) in Posts(s, st);
      } else if st.DoReset? && ResetAllowed(s, st.id, st.shutdownOk) {
        assert Event(StreamReset, st.id, st.code, false, None) in Posts(s, st);
      }
    }
  }

  /** What an event says: who caused it, the error code that the caller or the library gave,
      and the reason that close() was given, up to its first NUL. */
  predicate Says(s: Sys, st: Step, e: Event) {
    match e.kind
    case HandshakeCompleted => e == Event(HandshakeCompleted, -1, 0, false, None)
    case ConnectionDraining => e == Event(ConnectionDraining, -1, 0, true, None)
    case ConnectionClosed =>
      if st.DoClose? then
        e == Event(ConnectionClosed, -1, st.code, false, if st.reason.None? then None else Some(CString(st.reason.value)))
      else e == Event(ConnectionClosed, -1, s.lib.errorCode, true, None)
    case StreamOpened => e == Event(StreamOpened, e.stream, 0, st.OnStreamOpen?, None)
    case StreamReadable => e == Event(StreamReadable, e.stream, 0, true, None)
    case StreamWritable => e == Event(StreamWritable, e.stream, 0, st.OnAcked?, None)
    case StreamClosed => st.OnStreamClose? && e == Event(StreamClosed, e.stream, st.code, true, None)
    case StreamReset => (st.DoReset? || st.OnStreamReset?) && e == Event(StreamReset, e.stream, st.code, st.OnStreamReset?, None)
  }

  /** Every event says what it should, and no step raises two of one kind. */
  lemma {:induction false} EventsSay(s: Sys, st: Step)
    ensures forall e :: e in Raised(s, st) ==> Says(s, st, e)
    ensures forall i, j :: 0 <= i < j < |Raised(s, st)| ==> Raised(s, st)[i].kind != Raised(s, st)[j].kind
  {
    hide Apply, Raised, ReceiveNotifies, AckIgnored, Predicted, CString, OpenFails;
    if st.DoRound? {
      RoundRaised(s, st);
    } else {
      RaisedIsPosted(s, st);
    }
  }

  lemma SyncRaisesIff(s: Sys)
    requires Lifecycle(s.life)
    ensures (exists e :: e in SyncPosts(s) && e.kind == ConnectionClosed && e.stream == -1) <==> !s.life.closed && Sync(s).life.closed
    ensures (exists e :: e in SyncPosts(s) && e.kind == ConnectionDraining && e.stream == -1) <==> !s.life.draining && Sync(s).life.draining
    ensures forall e :: e in SyncPosts(s) ==> e.kind != HandshakeCompleted
  {
    if s.lib.draining && !s.life.drainingEventEmitted {
      assert Event(ConnectionDraining, -1, 0, true, None) in SyncPosts(s);
    }
    if (s.lib.closing || s.lib.draining) && !s.life.closeEventEmitted {
      assert Event(ConnectionClosed, -1, s.lib.errorCode, true, None) in SyncPosts(s);
    }
  }

  /** Exactly these kinds of connection events are raised, each when its flag rises. */
  ghost predicate LifeEventsAre(s: Sys, st: Step) {
    && (Raises(s, st, ConnectionClosed, -1) <==> !s.life.closed && Apply(s, st).life.closed)
    && (Raises(s, st, ConnectionDraining, -1) <==> !s.life.draining && Apply(s, st).life.draining)
    && (Raises(s, st, HandshakeCompleted, -1) <==> !s.life.established && Apply(s, st).life.established)
  }

  lemma SyncStepEvents(s: Sys, st: Step)
    requires Lifecycle(s.life) && !st.DoRound? && Posts(s, st) == SyncPosts(s)
    requires Apply(s, st).life.closed == Sync(s).life.closed && Apply(s, st).life.draining == Sync(s).life.draining
    requires Apply(s, st).life.established == s.life.established
    ensures LifeEventsAre(s, st)
  {
    hide Apply, Posts, Raised, SyncPosts, Sync;
    SyncRaisesIff(s);
    RaisedIsPosted(s, st);
  }

  lemma RoundEvents(s: Sys, st: Step)
    requires Lifecycle(s.life) && st.DoRound?
    ensures LifeEventsAre(s, st)
  {
    hide Apply, Round, Raised, SyncPosts, Sync;
    SyncRaisesIff(s);
    SyncKeepsEstablished(s);
    RoundRaised(s, st);
    ApplyRound(s, st);
    RoundLife(s, st.connOnly, st.open, st.answer);
  }

  lemma SyncKeepsEstablished(s: Sys)
    ensures Sync(s).life.established == s.life.established
  {
  }

  lemma ClosingEvents(s: Sys, st: Step)
    requires Lifecycle(s.life) && Enabled(s, st) && (st.DoClose? || st.DoWriteClose? || st.OnHandshake?)
    ensures LifeEventsAre(s, st)
  {
    hide Raised, SyncPosts, CString;
    if st.DoWriteClose? && st.close.CloseStopped? {
      SyncStepEvents(s, st);
    } else {
      RaisedIsPosted(s, st);
      if st.DoClose? && Posts(s, st) != [] {
        assert Posts(s, st)[0] in Posts(s, st);
      } else if st.OnHandshake? && Posts(s, st) != [] {
        assert Posts(s, st)[0] in Posts(s, st);
      }
    }
  }

  lemma OtherEvents(s: Sys, st: Step)
    requires !st.DoRound? && !st.DoClose? && !st.DoWriteClose? && !st.DoSync? && !st.OnHandshake?
    ensures LifeEventsAre(s, st)
  {
    hide Apply, Raised, SyncPosts, ReceiveNotifies, AckIgnored, Predicted, CString;
    LifecycleTheorems.OtherStepsKeepFlags(s, st);
    RaisedIsPosted(s, st);
  }

  /** After any run, each event about the connection is raised exactly when its flag rises. */
  lemma {:induction false} LifeEventsIff(server: bool, steps: seq<Step>, st: Step)
    requires ValidRun(Init(server), steps) && Enabled(Run(Init(server), steps), st)
    ensures var s := Run(Init(server), steps); var r := Apply(s, st);
      && (Raises(s, st, ConnectionClosed, -1) <==> !s.life.closed && r.life.closed)
      && (Raises(s, st, ConnectionDraining, -1) <==> !s.life.draining && r.life.draining)
      && (Raises(s, st, HandshakeCompleted, -1) <==> !s.life.established && r.life.established)
  {
    hide Run, Apply, Enabled, Raises;
    var s := Run(Init(server), steps);
    InitInv(server);
    RunKeepsInv(Init(server), steps);
    if st.DoRound? {
      RoundEvents(s, st);
    } else if st.DoSync? {
      DoSyncEvents(s, st);
    } else if st.DoClose? || st.DoWriteClose? || st.OnHandshake? {
      ClosingEvents(s, st);
    } else {
      OtherEvents(s, st);
    }
  }

  lemma DoSyncEvents(s: Sys, st: Step)
    requires Lifecycle(s.life) && st.DoSync?
    ensures LifeEventsAre(s, st)
  {
    hide SyncPosts, Sync, Raised, LifeEventsAre;
    SyncKeepsEstablished(s);
    SyncStepEvents(s, st);
  }
}
