/** The sending side over whole runs: conservation of bytes, the final size, ends that are
    never undone, receive-only streams, senders that get stuck, and why draining stops. */
module SendTheorems {
  import opened Common
  import opened Library
  import opened StreamSpec
  import opened ConnectionSpec
  import opened ConnectionProofs

  // ----- conservation -----

  /** In every run, what the library has taken followed by what is still unsent is what
      the application wrote; only a write side shut by the library loses bytes, and then
      what it took is a prefix of what was written. */
  lemma {:induction false} SendBytesConserved(server: bool, steps: seq<Step>, id: int)
    requires ValidRun(Init(server), steps)
    ensures var s := Run(Init(server), steps);
      var x, ls := s.table.At(id), s.lib.Of(id);
      && ls.accepted <= x.h.written
      && (!x.h.discarded ==> ls.accepted + Unsent(x.e) == x.h.written)
      && (x.e.txOffset < |x.e.tx| || (x.e.txOffset == 0 && x.e.tx == []))
  {
    InitInv(server);
    RunKeepsInv(Init(server), steps);
    assert StreamAt(Run(Init(server), steps), id);
  }

  /** `written` is the concatenation of the data of all successful write and end calls. */
  function WrittenBy(s: Sys, steps: seq<Step>, id: int): Bytes {
    if steps == [] then []
    else
      var before := steps[..|steps| - 1];
      var st := steps[|steps| - 1];
      WrittenBy(s, before, id) + WrittenIn(Run(s, before), st, id)
  }

  function WrittenIn(s: Sys, st: Step, id: int): Bytes {
    if st.DoWrite? && st.id == id && WriteAllowed(s, id) then st.data
    else if st.DoEnd? && st.id == id && EndAllowed(s, id) then st.final
    else []
  }

  lemma {:induction false} WrittenIsAllWrites(s: Sys, steps: seq<Step>, id: int)
    ensures Run(s, steps).table.At(id).h.written == s.table.At(id).h.written + WrittenBy(s, steps, id)
  {
    if steps == [] {
      assert s.table.At(id).h.written + [] == s.table.At(id).h.written;
    } else {
      var m := |steps| - 1;
      var s' := Run(s, steps[..m]);
      WrittenIsAllWrites(s, steps[..m], id);
      StepWritten(s', steps[m], id);
      Associate(s.table.At(id).h.written, WrittenBy(s, steps[..m], id), WrittenIn(s', steps[m], id));
    }
  }

  lemma StepWritten(s: Sys, st: Step, id: int)
    ensures Apply(s, st).table.At(id).h.written == s.table.At(id).h.written + WrittenIn(s, st, id)
  {
    hide Apply, Round;
    if st.DoRound? {
      ApplyRound(s, st);
      RoundAt(s, st.connOnly, st.open, st.answer, id);
    } else {
      StepAt(s, st, id);
    }
  }

  /** Whatever the order of calls and answers, an iteration that offers a stream offers the bytes
      that follow what the library has taken, all of them, and what it takes of them is added. */
  lemma {:induction false} OffersNextBytes(server: bool, steps: seq<Step>, st: Step, id: int)
    requires ValidRun(Init(server), steps) && Enabled(Run(Init(server), steps), st) && st.DoRound?
    requires var s := Run(Init(server), steps);
      Offered(s, st.connOnly, st.open, st.answer, id) && !s.table.At(id).h.discarded
    ensures var s := Run(Init(server), steps);
      var written, n, e := WrittenBy(Init(server), steps, id), |s.lib.Of(id).accepted|, s.table.At(id).e;
      && n <= |written| && s.lib.Of(id).accepted == written[..n] && (n < |written| || e.finPending)
      && ValidWrite(s.lib, id, written[n..], st.answer)
      && Apply(s, st).lib.Of(id) == AfterWrite(s.lib.Of(id), written[n..], e.finPending, st.answer)
  {
    hide Run, Apply, Enabled, Round, ValidRound, AfterWrite, ValidWrite, WrittenBy;
    var s := Run(Init(server), steps);
    var x, accepted := s.table.At(id), s.lib.Of(id).accepted;
    SendBytesConserved(server, steps, id);
    WrittenIsAllWrites(Init(server), steps, id);
    assert [] + WrittenBy(Init(server), steps, id) == WrittenBy(Init(server), steps, id);
    assert (accepted + Unsent(x.e))[|accepted|..] == Unsent(x.e);
    ApplyRound(s, st);
    OfferedValid(s, st.connOnly, st.open, st.answer, id);
    RoundAt(s, st.connOnly, st.open, st.answer, id);
  }

  // ----- the final size -----

  /** Marking a FIN as sent, for the first time or again, is right about the bytes: every
      written byte has been taken. It is right about the FIN itself exactly unless the write
      offered no data and the library did not report that it took the (empty) data. */
  lemma {:induction false} FinMarkExact(canSend: bool, x: Slot, lib: Lib, id: int, a: WriteAnswer)
    requires StreamInv(canSend, x, lib.Of(id)) && HasWork(x.e)
    requires ValidWrite(lib, id, Unsent(x.e), a) && a.Packet?
    requires x.e.finPending && !Offer(x, a).e.finPending
    ensures Offer(x, a).e.finSent
    ensures var ls := AfterWrite(lib.Of(id), Unsent(x.e), x.e.finPending, a);
      && ls.accepted == x.h.written
      && (ls.finalSize == Some(|x.h.written|) <==> !(Unsent(x.e) == [] && a.wdatalen < 0))
      && (Unsent(x.e) == [] && a.wdatalen < 0 ==> ls.finalSize == None)
  {
    OfferKeepsConservation(x, lib, id, a);
    UpdateTxConsumes(x.e, a.wdatalen, x.e.finPending, true);
  }

  lemma ShutStep(s: Sys, st: Step, id: int)
    requires Enabled(s, st) && s.lib.Of(id).shut
    ensures Apply(s, st).lib.Of(id) == s.lib.Of(id)
  {
    hide Apply, Enabled, Round, ValidRound;
    if st.DoRound? {
      ApplyRound(s, st);
      RoundAt(s, st.connOnly, st.open, st.answer, id);
      if Offered(s, st.connOnly, st.open, st.answer, id) {
        OfferedValid(s, st.connOnly, st.open, st.answer, id);
      }
    } else {
      StepAt(s, st, id);
    }
  }

  /** Once the library has recorded a FIN (or shut the write side), its bytes and the
      final size never change again, whatever the application does. */
  lemma {:induction false} FinalSizeFixed(s: Sys, more: seq<Step>, id: int)
    requires ValidRun(s, more) && s.lib.Of(id).shut
    ensures Run(s, more).lib.Of(id) == s.lib.Of(id)
  {
    if more != [] {
      var m := |more| - 1;
      FinalSizeFixed(s, more[..m], id);
      ShutStep(Run(s, more[..m]), more[m], id);
    }
  }

  /** Once update_tx_entry or a SHUT_WR has marked the FIN as sent, no further byte is ever
      taken, unless the FIN was marked blindly. */
  lemma {:induction false} FinSentFreezes(server: bool, steps: seq<Step>, more: seq<Step>, id: int)
    requires ValidRun(Init(server), steps) && ValidRun(Run(Init(server), steps), more)
    requires var x := Run(Init(server), steps).table.At(id); x.e.finSent && !x.h.blindFin
    ensures var s := Run(Init(server), steps);
      Run(s, more).lib.Of(id).accepted == s.lib.Of(id).accepted
      && Run(s, more).lib.Of(id).finalSize == s.lib.Of(id).finalSize
      && (!s.table.At(id).h.discarded ==> s.lib.Of(id).finalSize == Some(|s.lib.Of(id).accepted|))
  {
    InitInv(server);
    RunKeepsInv(Init(server), steps);
    assert StreamAt(Run(Init(server), steps), id);
    FinalSizeFixed(Run(Init(server), steps), more, id);
  }

  /** Without that condition it fails: after end(), a packet that reports wdatalen -1 marks
      the FIN as sent although the library has recorded none, and a second end with data
      makes the library take a byte. */
  lemma BlindFinCounterexample(payload: Bytes)
    requires payload != []
    ensures var before := [DoOpen(true, Opened(0)), DoEnd(0, []), DoRound(false, IdBlocked, Packet(payload, -1))];
      var more := [DoEnd(0, [7]), DoRound(false, IdBlocked, Packet(payload, 1))];
      var s := Run(Init(false), before);
      && ValidRun(Init(false), before) && ValidRun(s, more)
      && s.table.At(0).e.finSent && s.lib.Of(0).finalSize == None
      && s.lib.Of(0).accepted == [] && Run(s, more).lib.Of(0).accepted == [7]
  {
    hide Apply, Enabled, Round, ValidRound;
    var s2, st3 := Run(Init(false), [DoOpen(true, Opened(0)), DoEnd(0, [])]), DoRound(false, IdBlocked, Packet(payload, -1));
    BlindFinSetup();
    BlindFinRound(s2, payload);
    ApplyRound(s2, st3);
    RunSnoc(Init(false), [DoOpen(true, Opened(0)), DoEnd(0, [])], st3);
    assert [DoOpen(true, Opened(0)), DoEnd(0, [])] + [st3] == [DoOpen(true, Opened(0)), DoEnd(0, []), st3];
    BlindFinAgain(Apply(s2, st3), payload);
  }

  lemma BlindFinSetup()
    ensures var steps := [DoOpen(true, Opened(0)), DoEnd(0, [])];
      var s := Run(Init(false), steps);
      && ValidRun(Init(false), steps) && !s.server && !CloseDue(s) && s.table.order == [0] && s.table.Has(0)
      && s.lib.Of(0) == FRESH_LIB
      && var e := s.table.At(0).e;
        e.tx == [] && e.txOffset == 0 && e.finPending && !e.closed && !e.reset && !e.pendingOpen
  {
    var st1, st2 := DoOpen(true, Opened(0)), DoEnd(0, []);
    RunOne(Init(false), st1);
    RunSnoc(Init(false), [st1], st2);
    assert [st1] + [st2] == [st1, st2];
  }

  /** A lone open stream with an empty FIN pending, offered once. */
  lemma BlindFinRound(s: Sys, payload: Bytes)
    requires payload != [] && s.table.order == [0] && s.table.Has(0) && s.lib.Of(0) == FRESH_LIB
    requires var e := s.table.At(0).e;
      e.tx == [] && e.txOffset == 0 && e.finPending && !e.closed && !e.reset && !e.pendingOpen
    ensures ValidRound(s, false, IdBlocked, Packet(payload, -1))
    ensures var r := Round(s, false, IdBlocked, Packet(payload, -1));
      && r.server == s.server && CloseDue(r) == CloseDue(s) && r.table.order == [0] && r.table.Has(0) && r.lib.Of(0) == FRESH_LIB
      && var e := r.table.At(0).e; e.tx == [] && e.txOffset == 0 && e.finSent && !e.closed && !e.reset && !e.pendingOpen
  {
    RoundAt(s, false, IdBlocked, Packet(payload, -1), 0);
  }

  lemma {:induction false} BlindFinAgain(s: Sys, payload: Bytes)
    requires payload != [] && !s.server && !CloseDue(s) && s.table.order == [0] && s.table.Has(0) && s.lib.Of(0) == FRESH_LIB
    requires var e := s.table.At(0).e; e.tx == [] && e.txOffset == 0 && !e.closed && !e.reset && !e.pendingOpen
    ensures var more := [DoEnd(0, [7]), DoRound(false, IdBlocked, Packet(payload, 1))];
      ValidRun(s, more) && Run(s, more).lib.Of(0).accepted == [7]
  {
    var st4, st5 := DoEnd(0, [7]), DoRound(false, IdBlocked, Packet(payload, 1));
    RunOne(s, st4);
    RunSnoc(s, [st4], st5);
    assert [st4] + [st5] == [st4, st5];
    RoundAt(Apply(s, st4), false, IdBlocked, Packet(payload, 1), 0);
  }

  // ----- ends are never undone -----

  lemma UpdateTxKeepsEnded(e: Entry, w: int, fin: bool, packet: bool)
    requires Ended(e)
    ensures Ended(UpdateTx(e, w, fin, packet).0)
  {
  }

  lemma OfferKeepsEnded(x: Slot, a: WriteAnswer)
    requires Ended(x.e)
    ensures Ended(Offer(x, a).e)
  {
    hide UpdateTx;
    if a.Packet? || a.Zero? || a.WriteMore? || a.DataBlocked? {
      UpdateTxKeepsEnded(x.e, a.wdatalen, x.e.finPending, a.Packet?);
    }
  }

  lemma EndedRound(s: Sys, connOnly: bool, open: OpenAnswer, a: WriteAnswer, id: int)
    requires Ended(s.table.At(id).e)
    ensures Ended(Round(s, connOnly, open, a).table.At(id).e)
  {
    RoundAt(s, connOnly, open, a, id);
    OfferKeepsEnded(Unblocked(s, connOnly, open, id), a);
  }

  lemma EndedStep(s: Sys, st: Step, id: int)
    requires Ended(s.table.At(id).e)
    ensures Ended(Apply(s, st).table.At(id).e)
  {
    hide Apply, Round;
    if st.DoRound? {
      ApplyRound(s, st);
      EndedRound(s, st.connOnly, st.open, st.answer, id);
    } else {
      StepAt(s, st, id);
    }
  }

  lemma ClosedRound(s: Sys, connOnly: bool, open: OpenAnswer, a: WriteAnswer, id: int)
    requires s.table.At(id).e.closed && ValidRound(s, connOnly, open, a)
    ensures Round(s, connOnly, open, a).table.At(id).e.closed
    ensures Round(s, connOnly, open, a).lib.Of(id) == s.lib.Of(id)
  {
    RoundAt(s, connOnly, open, a, id);
    if Offered(s, connOnly, open, a, id) {
      OfferedValid(s, connOnly, open, a, id);
    }
  }

  lemma ClosedStep(s: Sys, st: Step, id: int)
    requires s.table.At(id).e.closed && Enabled(s, st)
    ensures Apply(s, st).table.At(id).e.closed && Apply(s, st).lib.Of(id) == s.lib.Of(id)
  {
    hide Apply, Enabled, Round, ValidRound;
    if st.DoRound? {
      ApplyRound(s, st);
      ClosedRound(s, st.connOnly, st.open, st.answer, id);
    } else {
      StepAt(s, st, id);
    }
  }

  lemma {:induction false} EndsStay(s: Sys, more: seq<Step>, id: int)
    requires ValidRun(s, more)
    ensures Ended(s.table.At(id).e) ==> Ended(Run(s, more).table.At(id).e) && !WriteAllowed(Run(s, more), id)
    ensures s.table.At(id).e.closed ==>
      Run(s, more).table.At(id).e.closed && Run(s, more).lib.Of(id) == s.lib.Of(id)
  {
    if more != [] {
      var m := |more| - 1;
      EndsStay(s, more[..m], id);
      var s' := Run(s, more[..m]);
      if Ended(s'.table.At(id).e) {
        EndedStep(s', more[m], id);
      }
      if s'.table.At(id).e.closed {
        ClosedStep(s', more[m], id);
      }
    }
  }

  /** A stream whose sending side has ended, or that is closed, stays so: every later
      write is refused. A closed stream is never picked again, so nothing of it is offered
      and the library's view of it is fixed. */
  lemma {:induction false} EndsAreForever(s: Sys, more: seq<Step>, id: int)
    requires ValidRun(s, more)
    ensures Ended(s.table.At(id).e) ==> Ended(Run(s, more).table.At(id).e) && !WriteAllowed(Run(s, more), id)
    ensures s.table.At(id).e.closed ==>
      Run(s, more).table.At(id).e.closed && Run(s, more).lib.Of(id) == s.lib.Of(id)
    ensures s.table.At(id).e.closed ==> forall connOnly :: Target(Run(s, more), connOnly) != Some(id)
  {
    EndsStay(s, more, id);
    forall connOnly | Target(Run(s, more), connOnly) == Some(id) ensures !s.table.At(id).e.closed {
      TargetHasWork(Run(s, more), connOnly);
    }
  }

  /** In every run a stream that was reset, by either side, is closed; so it is not offered
      from then on. */
  lemma {:induction false} ResetMeansClosed(server: bool, steps: seq<Step>, id: int)
    requires ValidRun(Init(server), steps)
    ensures var s := Run(Init(server), steps);
      s.table.At(id).e.reset ==> s.table.At(id).e.closed && forall connOnly :: Target(s, connOnly) != Some(id)
  {
    var s := Run(Init(server), steps);
    InitInv(server);
    RunKeepsInv(Init(server), steps);
    assert StreamAt(s, id);
    EndsAreForever(s, [], id);
  }

  // ----- receive-only streams -----

  /** A stream that only the peer may send on is never picked for transmission. */
  lemma {:induction false} ReceiveOnlyNeverPicked(server: bool, steps: seq<Step>, id: int, connOnly: bool)
    requires ValidRun(Init(server), steps) && RemoteUni(server, id)
    ensures Target(Run(Init(server), steps), connOnly) != Some(id)
    ensures Run(Init(server), steps).lib.Of(id).accepted == []
  {
    var s := Run(Init(server), steps);
    InitInv(server);
    RunKeepsInv(Init(server), steps);
    assert StreamAt(s, id);
    if Target(s, connOnly) == Some(id) {
      TargetHasWork(s, connOnly);
    }
    NothingWrittenToReceiveOnly(Init(server), steps, id);
  }

  lemma SilentStep(s: Sys, st: Step, id: int)
    requires StreamAt(s, id) && RemoteUni(s.server, id) && Enabled(s, st)
    ensures Apply(s, st).lib.Of(id).accepted == s.lib.Of(id).accepted
  {
    hide Apply, Enabled, Round, ValidRound;
    if st.DoRound? {
      ApplyRound(s, st);
      RoundAt(s, st.connOnly, st.open, st.answer, id);
      if Offered(s, st.connOnly, st.open, st.answer, id) {
        OfferedValid(s, st.connOnly, st.open, st.answer, id);
      }
    } else {
      StepAt(s, st, id);
    }
  }

  lemma {:induction false} NothingWrittenToReceiveOnly(s: Sys, steps: seq<Step>, id: int)
    requires Inv(s) && ValidRun(s, steps) && RemoteUni(s.server, id)
    ensures Run(s, steps).lib.Of(id).accepted == s.lib.Of(id).accepted
  {
    if steps != [] {
      var m := |steps| - 1;
      NothingWrittenToReceiveOnly(s, steps[..m], id);
      RunKeepsInv(s, steps[..m]);
      assert StreamAt(Run(s, steps[..m]), id);
      SilentStep(Run(s, steps[..m]), steps[m], id);
    }
  }

  // ----- stuck senders -----

  /** A send-capable stream that refuses to call itself writable has bytes or a FIN on
      their way, or has ended; provided every write with nothing unsent had data. */
  lemma {:induction false} NoStuckSender(server: bool, steps: seq<Step>, id: int)
    requires ValidRun(Init(server), steps) && CanSend(server, id)
    requires !Run(Init(server), steps).table.At(id).h.emptyWrite
    ensures var e := Run(Init(server), steps).table.At(id).e;
      e.writable || Unsent(e) != [] || e.finPending || e.finSent || e.closed
  {
    InitInv(server);
    RunKeepsInv(Init(server), steps);
    assert StreamAt(Run(Init(server), steps), id);
  }

  /** Exactly the empty write with nothing unsent makes a stream stuck. */
  lemma EmptyWriteSticks(x: Slot, data: Bytes)
    requires NormalForm(x.e) && !Ended(x.e)
    ensures NotStuck(Write(x, data).e) <==> data != [] || Unsent(x.e) != []
  {
    AppendedUnsent(x.e, data);
  }

  lemma OfferKeepsNotStuck(x: Slot, lib: Lib, id: int, a: WriteAnswer)
    requires NormalForm(x.e) && HasWork(x.e) && ValidWrite(lib, id, Unsent(x.e), a)
    ensures NotStuck(Offer(x, a).e)
  {
    if a.Packet? || a.Zero? || a.WriteMore? || a.DataBlocked? {
      UpdateTxConsumes(x.e, a.wdatalen, x.e.finPending, a.Packet?);
    }
  }

  /** The step is the empty write that makes the stream stuck. */
  predicate Sticks(s: Sys, st: Step, id: int) {
    st.DoWrite? && st.id == id && WriteAllowed(s, id) && st.data == [] && Unsent(s.table.At(id).e) == []
  }

  lemma StuckStep(s: Sys, st: Step, id: int)
    requires StreamAt(s, id) && CanSend(s.server, id) && Enabled(s, st) && NotStuck(s.table.At(id).e)
    ensures NotStuck(Apply(s, st).table.At(id).e) <==> !Sticks(s, st, id)
  {
    hide Apply, Round, ValidRound, Offer;
    if st.DoRound? {
      ApplyRound(s, st);
      RoundAt(s, st.connOnly, st.open, st.answer, id);
      if Offered(s, st.connOnly, st.open, st.answer, id) {
        OfferedValid(s, st.connOnly, st.open, st.answer, id);
        OfferKeepsNotStuck(Unblocked(s, st.connOnly, st.open, id), s.lib, id, st.answer);
      }
    } else {
      StepAt(s, st, id);
      CallSticks(s, st, id);
    }
  }

  lemma CallSticks(s: Sys, st: Step, id: int)
    requires StreamAt(s, id) && CanSend(s.server, id) && NotStuck(s.table.At(id).e)
    requires !st.DoRound?
    ensures NotStuck(SlotAfter(s, st, id).e) <==> !Sticks(s, st, id)
  {
    if st.DoWrite? && st.id == id && WriteAllowed(s, id) {
      EmptyWriteSticks(s.table.At(id), st.data);
    } else if st.DoEnd? {
      AppendedUnsent(s.table.At(id).e, st.final);
    }
  }

  /** After any run, also one with empty writes, the next step makes a send-capable stream
      stuck exactly if it is a permitted write with no data and nothing unsent. */
  lemma {:induction false} StuckIff(server: bool, steps: seq<Step>, st: Step, id: int)
    requires ValidRun(Init(server), steps) && CanSend(server, id)
    requires var s := Run(Init(server), steps); Enabled(s, st) && NotStuck(s.table.At(id).e)
    ensures var s := Run(Init(server), steps);
      NotStuck(Apply(s, st).table.At(id).e) <==>
        !(st.DoWrite? && st.id == id && WriteAllowed(s, id) && st.data == [] && Unsent(s.table.At(id).e) == [])
  {
    hide Apply, Enabled, StreamInv, NotStuck;
    var s := Run(Init(server), steps);
    InitInv(server);
    RunKeepsInv(Init(server), steps);
    assert StreamAt(s, id);
    StuckStep(s, st, id);
  }

  /** ... and no drain gets it out: with no other work, every round leaves the entry as it is. */
  lemma {:induction false} EmptyWriteCounterexample()
    ensures var steps := [DoOpen(true, Opened(0)), DoWrite(0, [])];
      && ValidRun(Init(false), steps)
      && !NotStuck(Run(Init(false), steps).table.At(0).e)
      && Target(Run(Init(false), steps), false) == None
  {
    var st1, st2 := DoOpen(true, Opened(0)), DoWrite(0, []);
    RunSnoc(Init(false), [], st1);
    RunSnoc(Init(false), [st1], st2);
    assert [] + [st1] == [st1] && [st1] + [st2] == [st1, st2];
  }

  /** Unless an open has returned an ID twice, a stream that calls itself writable accepts
      a write exactly if no FIN is pending. */
  lemma {:induction false} WritableAcceptsUnlessFinPending(server: bool, steps: seq<Step>, id: int)
    requires ValidRun(Init(server), steps) && CanSend(server, id)
    requires var s := Run(Init(server), steps); !s.reused && s.table.Has(id) && s.table.At(id).e.writable
    ensures var s := Run(Init(server), steps);
      && !s.table.At(id).e.closed && !s.table.At(id).e.reset && !s.table.At(id).e.finSent
      && (WriteAllowed(s, id) <==> !s.table.At(id).e.finPending)
  {
    InitInv(server);
    RunKeepsInv(Init(server), steps);
    assert WritableAt(Run(Init(server), steps), id);
  }

  /** The exception occurs: an acknowledgement between end() and the FIN's packet. */
  lemma AckDuringFinCounterexample()
    ensures var steps := [DoOpen(true, Opened(0)), DoEnd(0, []), OnAcked(0)];
      var s := Run(Init(false), steps);
      ValidRun(Init(false), steps) && s.table.At(0).e.writable && !WriteAllowed(s, 0)
  {
    var st1, st2, st3 := DoOpen(true, Opened(0)), DoEnd(0, []), OnAcked(0);
    RunSnoc(Init(false), [], st1);
    RunSnoc(Init(false), [st1], st2);
    RunSnoc(Init(false), [st1, st2], st3);
    assert [] + [st1] == [st1] && [st1] + [st2] == [st1, st2] && [st1, st2] + [st3] == [st1, st2, st3];
  }

  // ----- why draining stops -----

  /** What one stream can still make the loop do: its unsent bytes, and its pending FIN,
      which weighs less once the library has recorded it. */
  function Weight(e: Entry, ls: LibStream): nat {
    |Unsent(e)| + (if !e.finPending then 0 else if ls.shut then 1 else 2)
  }

  function Total(t: Table, lib: Lib, order: seq<int>): nat {
    if order == [] then 0
    else Weight(t.At(order[0]).e, lib.Of(order[0])) + Total(t, lib, order[1..])
  }

  function Work(s: Sys): nat {
    Total(s.table, s.lib, s.table.order)
  }

  lemma OfferLightens(x: Slot, lib: Lib, id: int, a: WriteAnswer)
    requires NormalForm(x.e) && HasWork(x.e) && ValidWrite(lib, id, Unsent(x.e), a)
    ensures var after := Weight(Offer(x, a).e, AfterWrite(lib.Of(id), Unsent(x.e), x.e.finPending, a));
      && after <= Weight(x.e, lib.Of(id))
      && (a.WriteMore? || a.ShutWr? ==> after < Weight(x.e, lib.Of(id)))
  {
    if a.Packet? || a.Zero? || a.WriteMore? || a.DataBlocked? {
      UpdateTxConsumes(x.e, a.wdatalen, x.e.finPending, a.Packet?);
    }
  }

  lemma {:induction false} TotalFollows(t: Table, lib: Lib, t': Table, lib': Lib, order: seq<int>, id: int)
    requires NoDup(order)
    requires forall k :: k != id ==> Weight(t'.At(k).e, lib'.Of(k)) == Weight(t.At(k).e, lib.Of(k))
    ensures Total(t', lib', order) - Total(t, lib, order) ==
      if id in order then Weight(t'.At(id).e, lib'.Of(id)) - Weight(t.At(id).e, lib.Of(id)) else 0
  {
    if order != [] {
      TotalFollows(t, lib, t', lib', order[1..], id);
      assert order == [order[0]] + order[1..];
    }
  }

  lemma RoundWeights(s: Sys, connOnly: bool, open: OpenAnswer, a: WriteAnswer, id: int)
    requires StreamAt(s, id) && ValidRound(s, connOnly, open, a)
    ensures var r := Round(s, connOnly, open, a);
      var before, after := Weight(s.table.At(id).e, s.lib.Of(id)), Weight(r.table.At(id).e, r.lib.Of(id));
      && after <= before
      && (after != before ==> Source(s, connOnly, open) == Some(id))
      && (Offered(s, connOnly, open, a, id) && (a.WriteMore? || a.ShutWr?) ==> after < before)
  {
    RoundAt(s, connOnly, open, a, id);
    if Offered(s, connOnly, open, a, id) {
      OfferedValid(s, connOnly, open, a, id);
      OfferLightens(Unblocked(s, connOnly, open, id), s.lib, id, a);
    }
  }

  /** A round changes the work of the offered stream only. */
  lemma RoundWork(s: Sys, connOnly: bool, open: OpenAnswer, a: WriteAnswer, id: int)
    requires Inv(s) && ValidRound(s, connOnly, open, a)
    requires Source(s, connOnly, open).Some? ==> Source(s, connOnly, open).value == id && id in s.table.order
    ensures var r := Round(s, connOnly, open, a);
      Work(r) - Work(s) == if Source(s, connOnly, open).None? then 0
        else Weight(r.table.At(id).e, r.lib.Of(id)) - Weight(s.table.At(id).e, s.lib.Of(id))
  {
    hide Round, ValidRound, StreamAt, WritableAt, MailInv, Weight;
    var r := Round(s, connOnly, open, a);
    RoundTable(s, connOnly, open, a);
    forall k ensures Weight(r.table.At(k).e, r.lib.Of(k)) != Weight(s.table.At(k).e, s.lib.Of(k))
      ==> Source(s, connOnly, open) == Some(k)
    {
      assert StreamAt(s, k);
      RoundWeights(s, connOnly, open, a, k);
    }
    TotalFollows(s.table, s.lib, r.table, r.lib, s.table.order, id);
  }

  /** Whenever the loop goes round again without having produced a packet, there is less
      work, or it goes on without a stream for once. */
  lemma RoundMakesProgress(s: Sys, connOnly: bool, open: OpenAnswer, a: WriteAnswer)
    requires Inv(s) && ValidRound(s, connOnly, open, a)
    ensures var r := Round(s, connOnly, open, a); var flow := RoundFlow(s, connOnly, open, a);
      && Work(r) <= Work(s)
      && (flow == Again(false) ==> Work(r) < Work(s))
      && (flow == Again(true) ==> !connOnly)
  {
    hide Round, Work, Weight, MailInv, StreamInv, WritableAt;
    var source := Source(s, connOnly, open);
    var id := if source.Some? then source.value else 0;
    if source.Some? {
      TargetHasWork(s, connOnly);
      assert id in s.table.order;
    }
    RoundWork(s, connOnly, open, a, id);
    assert StreamAt(s, id);
    RoundWeights(s, connOnly, open, a, id);
  }

  /** The iteration that the last answer still asks for, or that ended the loop. */
  function Outstanding(flow: Flow): nat {
    match flow
    case Again(connOnly) => if connOnly then 1 else 0
    case Collect => 0
    case Stop => 2
    case Throw => 2
  }

  lemma LoopStep(s: Sys, st: Step)
    requires Inv(s) && Enabled(s, st) && st.DoRound?
    ensures var flow, r := FlowAfter(s, st), Apply(s, st);
      && Work(r) <= Work(s)
      && (flow == Again(false) ==> Work(r) < Work(s))
      && (flow == Again(true) ==> !st.connOnly)
      && |PayloadOf(st)| == (if st.answer.Packet? then 1 else 0)
      && (flow == Collect ==> st.answer.Packet?)
  {
    hide Inv, Work, Round;
    RoundMakesProgress(s, st.connOnly, st.open, st.answer);
  }

  /** How long the drain loop can run, whatever the library answers: twice the packets it
      returns and the work it finds, and two more iterations. */
  lemma {:induction false} LoopIsShort(s: Sys, steps: seq<Step>)
    requires Inv(s) && ValidRun(s, steps) && LoopRun(s, steps)
    ensures |steps| + 2 * Work(Run(s, steps)) <=
      2 * Work(s) + 2 * |Payloads(steps)| + Outstanding(LastFlow(s, steps))
    ensures |Payloads(steps)| <= MAX_PACKETS
  {
    hide Apply, Enabled, Inv, Work, FlowAfter, PayloadOf;
    if steps != [] {
      var m := |steps| - 1;
      LoopIsShort(s, steps[..m]);
      RunKeepsInv(s, steps[..m]);
      LoopStep(Run(s, steps[..m]), steps[m]);
    }
  }
}
