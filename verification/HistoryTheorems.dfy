/** What the flags of a stream and of its connection say about the past. Every flag, in every
    reachable state, is described by the calls, callbacks and answers that led there: it is
    set exactly if some step has set it and no later step has cleared it. */
module HistoryTheorems {
  import opened Common
  import opened Library
  import opened StreamSpec
  import opened ConnectionSpec
  import opened ConnectionProofs
  import opened StreamIdProofs
  import LifecycleTheorems
  import SendTheorems

  // ----- what happens to a stream in one step -----

  /** Stream IDs, section 2.1 of RFC 9000: both sides send on bidirectional streams (0 and 1
      modulo 4), the client alone on 2, the server alone on 3. */
  predicate MaySend(server: bool, id: int) {
    id % 4 == 0 || id % 4 == 1 || id % 4 == (if server then 3 else 2)
  }

  predicate WriteAccepted(s: Sys, st: Step, id: int) {
    && st.DoWrite? && st.id == id && s.table.Has(id) && MaySend(s.server, id)
    && var e := s.table.At(id).e; !e.closed && !e.finSent && !e.finPending
  }

  predicate EndAccepted(s: Sys, st: Step, id: int) {
    st.DoEnd? && st.id == id && s.table.Has(id) && MaySend(s.server, id)
  }

  predicate ResetAccepted(s: Sys, st: Step, id: int) {
    st.DoReset? && st.id == id && s.table.Has(id) && (s.life.closed || st.shutdownOk)
  }

  /** An open returns this ID. */
  predicate Returned(s: Sys, st: Step, id: int) {
    st.DoOpen? && !s.life.closed && (st.open == Opened(id) || (st.open.IdBlocked? && Predicted(s, st.bidi) == id))
  }

  predicate EndedByPeer(st: Step, id: int) {
    (st.OnStreamClose? || st.OnStreamReset?) && st.id == id
  }

  /** The stream's unsent bytes and FIN were offered to the library, with this answer. */
  predicate Answered(s: Sys, st: Step, id: int) {
    st.DoRound? && Offered(s, st.connOnly, st.open, st.answer, id)
  }

  /** The library took all that was offered. */
  predicate TookAll(s: Sys, st: Step, id: int) {
    && Answered(s, st, id) && !st.answer.ShutWr?
    && |Unsent(s.table.At(id).e)| == (if st.answer.wdatalen > 0 then st.answer.wdatalen else 0)
  }

  /** A packet went out with the last bytes and the FIN, or the library refused for good. */
  predicate FinGone(s: Sys, st: Step, id: int) {
    && Answered(s, st, id)
    && (st.answer.ShutWr? || (st.answer.Packet? && s.table.At(id).e.finPending && TookAll(s, st, id)))
  }

  /** The drain loop opened the pending stream. */
  predicate OpenedLate(s: Sys, st: Step, id: int) {
    && st.DoRound? && Target(s, st.connOnly) == Some(id)
    && s.table.At(id).e.pendingOpen && st.open == Opened(id)
  }

  // ----- the flags -----

  datatype Flag = Readable | Writable | Closed | ResetDone | FinSent | FinReceived | FinPending | PendingOpen

  function Get(e: Entry, f: Flag): bool {
    match f
    case Readable => e.readable
    case Writable => e.writable
    case Closed => e.closed
    case ResetDone => e.reset
    case FinSent => e.finSent
    case FinReceived => e.finRecv
    case FinPending => e.finPending
    case PendingOpen => e.pendingOpen
  }

  predicate Sets(s: Sys, st: Step, id: int, f: Flag) {
    var e := s.table.At(id).e;
    match f
    case Readable =>
      // data arrives, or a read leaves some of it
      || (st.OnData? && st.id == id && e.rx + st.data != [])
      || (st.DoRead? && st.id == id && 0 < st.length < |e.rx|)
    case Writable =>
      || Returned(s, st, id)
      || (st.OnStreamOpen? && st.id == id && MaySend(s.server, id))
      || (st.OnAcked? && st.id == id && s.table.Has(id) && !e.closed && !e.reset && !e.finSent)
      || (TookAll(s, st, id) && !e.finPending && !e.finSent)
    case Closed => ResetAccepted(s, st, id) || EndedByPeer(st, id)
    case ResetDone => ResetAccepted(s, st, id) || (EndedByPeer(st, id) && st.OnStreamReset?)
    case FinSent => FinGone(s, st, id)
    case FinReceived => st.OnData? && st.id == id && st.fin
    case FinPending => EndAccepted(s, st, id)
    case PendingOpen => Returned(s, st, id) && st.open.IdBlocked?
  }

  predicate Clears(s: Sys, st: Step, id: int, f: Flag) {
    var e := s.table.At(id).e;
    match f
    case Readable => (st.DoRead? && st.id == id && st.length > 0 && st.length >= |e.rx|) || ResetAccepted(s, st, id)
    case Writable =>
      || WriteAccepted(s, st, id) || EndAccepted(s, st, id) || ResetAccepted(s, st, id)
      || EndedByPeer(st, id) || FinGone(s, st, id)
      || (st.OnStreamOpen? && st.id == id && !MaySend(s.server, id))
    case FinPending => FinGone(s, st, id) || ResetAccepted(s, st, id)
    case PendingOpen =>
      OpenedLate(s, st, id) || ResetAccepted(s, st, id) || (Returned(s, st, id) && st.open.Opened?)
    case _ => false
  }

  lemma SendersAgree(server: bool, id: int)
    ensures CanSend(server, id) <==> MaySend(server, id)
  {
  }

  /** What a round leaves of the flags of the stream that it offers. */
  lemma OfferFlags(x: Slot, ls: LibStream, lib: Lib, id: int, a: WriteAnswer)
    requires NormalForm(x.e) && HasWork(x.e) && lib.Of(id) == ls
    requires ValidWrite(lib, id, Unsent(x.e), a) && !a.Stopped? && !a.Fatal?
    ensures var e, r := x.e, Offer(x, a).e;
      var all := !a.ShutWr? && |Unsent(e)| == (if a.wdatalen > 0 then a.wdatalen else 0);
      var gone := a.ShutWr? || (a.Packet? && e.finPending && all);
      && (r.finSent <==> e.finSent || gone)
      && (r.finPending <==> e.finPending && !gone)
      && (r.writable <==> (all && !e.finPending && !e.finSent) || (e.writable && !gone))
  {
    hide UpdateTx, NormalForm, HasWork, Unsent;
    if !a.ShutWr? {
      UpdateTxConsumes(x.e, a.wdatalen, x.e.finPending, a.Packet?);
      UpdateTxWritable(x.e, a.wdatalen, x.e.finPending, a.Packet?);
    }
  }

  lemma UpdateTxWritable(e: Entry, w: int, fin: bool, packet: bool)
    requires NormalForm(e) && HasWork(e) && w <= |Unsent(e)| && fin == e.finPending
    ensures var r := UpdateTx(e, w, fin, packet).0; var all := |Unsent(e)| == (if w > 0 then w else 0);
      r.writable <==> (all && !e.finPending && !e.finSent) || (e.writable && !(packet && e.finPending && all))
  {
    ConsumeDrops(e, w);
  }

  /** Opening a pending stream changes nothing of what it has to send. */
  lemma UnblockedSends(s: Sys, connOnly: bool, open: OpenAnswer, id: int)
    ensures var e, r := s.table.At(id).e, Unblocked(s, connOnly, open, id).e;
      Unsent(r) == Unsent(e) && HasWork(r) == HasWork(e) && NormalForm(r) == NormalForm(e)
  {
  }

  lemma RoundFlags(s: Sys, st: Step, id: int, f: Flag)
    requires StreamAt(s, id) && st.DoRound? && ValidRound(s, st.connOnly, st.open, st.answer)
    ensures Get(Round(s, st.connOnly, st.open, st.answer).table.At(id).e, f) <==>
      Sets(s, st, id, f) || (Get(s.table.At(id).e, f) && !Clears(s, st, id, f))
  {
    hide Round, ValidRound, Offer, ValidWrite, UpdateTx, AfterWrite, HasWork, NormalForm, Unsent;
    RoundAt(s, st.connOnly, st.open, st.answer, id);
    if Offered(s, st.connOnly, st.open, st.answer, id) {
      OfferedValid(s, st.connOnly, st.open, st.answer, id);
      UnblockedSends(s, st.connOnly, st.open, id);
      OfferFlags(Unblocked(s, st.connOnly, st.open, id), s.lib.Of(id), s.lib, id, st.answer);
    }
  }

  predicate IsStreamCall(st: Step) {
    st.DoWrite? || st.DoEnd? || st.DoReset? || st.DoRead?
  }

  lemma CallFlags(s: Sys, st: Step, id: int, f: Flag)
    requires ReadableKept(s.table.At(id).e) && IsStreamCall(st)
    ensures Get(Apply(s, st).table.At(id).e, f) <==>
      Sets(s, st, id, f) || (Get(s.table.At(id).e, f) && !Clears(s, st, id, f))
  {
    hide Apply, Offered, Target, Unsent;
    StepAt(s, st, id);
    SendersAgree(s.server, id);
  }

  lemma OpenFlags(s: Sys, st: Step, id: int, f: Flag)
    requires st.DoOpen?
    ensures Get(Apply(s, st).table.At(id).e, f) <==>
      Sets(s, st, id, f) || (Get(s.table.At(id).e, f) && !Clears(s, st, id, f))
  {
    hide Apply, Offered, Target, Unsent, Predicted;
    StepAt(s, st, id);
  }

  predicate IsStreamCallback(st: Step) {
    st.OnStreamOpen? || st.OnStreamClose? || st.OnStreamReset? || st.OnAcked?
  }

  lemma DataFlags(s: Sys, st: Step, id: int, f: Flag)
    requires st.OnData?
    ensures Get(Apply(s, st).table.At(id).e, f) <==>
      Sets(s, st, id, f) || (Get(s.table.At(id).e, f) && !Clears(s, st, id, f))
  {
    hide Apply, Offered, Target, Unsent, Predicted;
    StepAt(s, st, id);
  }

  lemma CallbackFlags(s: Sys, st: Step, id: int, f: Flag)
    requires IsStreamCallback(st)
    ensures Get(Apply(s, st).table.At(id).e, f) <==>
      Sets(s, st, id, f) || (Get(s.table.At(id).e, f) && !Clears(s, st, id, f))
  {
    hide Apply, Offered, Target, Unsent, Predicted;
    StepAt(s, st, id);
  }

  /** The other steps change no stream. */
  lemma OtherFlags(s: Sys, st: Step, id: int, f: Flag)
    requires !st.DoRound? && !IsStreamCall(st) && !IsStreamCallback(st) && !st.DoOpen? && !st.OnData?
    ensures Get(Apply(s, st).table.At(id).e, f) <==>
      Sets(s, st, id, f) || (Get(s.table.At(id).e, f) && !Clears(s, st, id, f))
  {
    hide Apply, Offered, Target, Unsent, Predicted, Get;
    StepAt(s, st, id);
  }

  lemma FlagStep(s: Sys, st: Step, id: int, f: Flag)
    requires StreamAt(s, id) && Enabled(s, st)
    ensures Get(Apply(s, st).table.At(id).e, f) <==>
      Sets(s, st, id, f) || (Get(s.table.At(id).e, f) && !Clears(s, st, id, f))
  {
    hide Apply, Enabled, Round, ValidRound, StreamAt, Sets, Clears;
    if st.DoRound? {
      ApplyRound(s, st);
      RoundFlags(s, st, id, f);
    } else {
      ReadableAt(s, id);
      if IsStreamCall(st) {
        CallFlags(s, st, id, f);
      } else if st.DoOpen? {
        OpenFlags(s, st, id, f);
      } else if st.OnData? {
        DataFlags(s, st, id, f);
      } else if IsStreamCallback(st) {
        CallbackFlags(s, st, id, f);
      } else {
        OtherFlags(s, st, id, f);
      }
    }
  }

  lemma ReadableAt(s: Sys, id: int)
    requires StreamAt(s, id)
    ensures ReadableKept(s.table.At(id).e)
  {
  }

  // ----- whole runs -----

  /** No step from the n-th on clears the flag. */
  ghost predicate KeptFrom(s: Sys, steps: seq<Step>, n: nat, id: int, f: Flag) {
    forall k :: n <= k < |steps| ==> !Clears(Run(s, steps[..k]), steps[k], id, f)
  }

  /** Some step sets the flag, and no later one clears it. */
  ghost predicate SetSince(s: Sys, steps: seq<Step>, id: int, f: Flag) {
    exists n :: 0 <= n < |steps| && Sets(Run(s, steps[..n]), steps[n], id, f) && KeptFrom(s, steps, n + 1, id, f)
  }

  lemma KeptSnoc(s: Sys, steps: seq<Step>, n: nat, id: int, f: Flag)
    requires n < |steps|
    ensures var m := |steps| - 1;
      KeptFrom(s, steps, n, id, f) <==> KeptFrom(s, steps[..m], n, id, f) && !Clears(Run(s, steps[..m]), steps[m], id, f)
  {
    hide Run, Clears;
    var m := |steps| - 1;
    assert forall k :: 0 <= k <= m ==> steps[..m][..k] == steps[..k];
  }

  lemma SetSnoc(s: Sys, steps: seq<Step>, id: int, f: Flag)
    requires steps != []
    ensures var m := |steps| - 1; var s' := Run(s, steps[..m]);
      SetSince(s, steps, id, f) <==>
        Sets(s', steps[m], id, f) || (SetSince(s, steps[..m], id, f) && !Clears(s', steps[m], id, f))
  {
    hide Run, Sets, Clears, KeptFrom;
    var m := |steps| - 1;
    assert KeptFrom(s, steps, m + 1, id, f) by {
      LastKept(s, steps, id, f);
    }
    forall n | 0 <= n < m
      ensures KeptFrom(s, steps, n + 1, id, f) <==>
        KeptFrom(s, steps[..m], n + 1, id, f) && !Clears(Run(s, steps[..m]), steps[m], id, f)
      ensures steps[..m][..n] == steps[..n]
    {
      KeptSnoc(s, steps, n + 1, id, f);
    }
  }

  lemma LastKept(s: Sys, steps: seq<Step>, id: int, f: Flag)
    ensures KeptFrom(s, steps, |steps|, id, f)
  {
  }

  /** In every reachable state every flag of every stream is what the past says: some step has
      set it and no later one has cleared it. A stream is writable from the start, too. */
  lemma {:induction false} FlagHistory(server: bool, steps: seq<Step>, id: int, f: Flag)
    requires ValidRun(Init(server), steps)
    ensures var s := Init(server);
      Get(Run(s, steps).table.At(id).e, f) <==> SetSince(s, steps, id, f) || (f == Writable && KeptFrom(s, steps, 0, id, f))
  {
    hide Apply, Enabled, Sets, Clears, SetSince, KeptFrom, Get, StreamAt;
    if steps == [] {
      NothingSet(server, id, f);
    } else {
      var m := |steps| - 1;
      var s' := Run(Init(server), steps[..m]);
      FlagHistory(server, steps[..m], id, f);
      SetSnoc(Init(server), steps, id, f);
      KeptSnoc(Init(server), steps, 0, id, f);
      InitInv(server);
      RunKeepsInv(Init(server), steps[..m]);
      assert StreamAt(s', id);
      FlagStep(s', steps[m], id, f);
    }
  }

  lemma NothingSet(server: bool, id: int, f: Flag)
    ensures !SetSince(Init(server), [], id, f) && KeptFrom(Init(server), [], 0, id, f)
    ensures Get(Init(server).table.At(id).e, f) <==> f == Writable
  {
  }

  // ----- what happens once and for all -----

  /** Opening the picked pending stream fails, or the library opens another one. */
  predicate OpenFails(s: Sys, st: Step) {
    && st.DoRound? && Target(s, st.connOnly).Some?
    && var id := Target(s, st.connOnly).value;
      s.table.At(id).e.pendingOpen && (st.open.OpenFailed? || (st.open.Opened? && st.open.id != id))
  }

  /** The step looks at the library's closing and draining periods. */
  predicate Syncs(s: Sys, st: Step) {
    || st.DoSync? || (st.DoWriteClose? && st.close.CloseStopped?)
    || (st.DoRound? && st.answer.Stopped? && !OpenFails(s, st))
  }

  /** Facts about a stream or its connection that, once true, stay true. */
  datatype Fact =
    InTable | SendingOver | Established | Draining | ConnectionOver | CloseCalled | CloseSettled | ErrorKept

  predicate Holds(s: Sys, id: int, fact: Fact) {
    match fact
    case InTable => s.table.Has(id)
    case SendingOver => var e := s.table.At(id).e; e.finPending || e.finSent || e.closed
    case Established => s.life.established
    case Draining => s.life.draining
    case ConnectionOver => s.life.closed
    case CloseCalled => s.life.closeRequested
    case CloseSettled => s.life.closePacketSent
    case ErrorKept => s.lastError != NoError
  }

  /** The step makes it true, or would if it were not. */
  predicate Makes(s: Sys, st: Step, id: int, fact: Fact) {
    match fact
    case InTable =>
      || Returned(s, st, id)
      || ((st.OnStreamOpen? || st.OnData? || st.OnStreamClose? || st.OnStreamReset?) && st.id == id)
    case SendingOver =>
      || EndAccepted(s, st, id) || ResetAccepted(s, st, id) || EndedByPeer(st, id)
      || (Answered(s, st, id) && st.answer.ShutWr?)
    case Established => st.OnHandshake?
    case Draining => Syncs(s, st) && s.lib.draining
    case ConnectionOver => st.DoClose? || (Syncs(s, st) && (s.lib.closing || s.lib.draining))
    case CloseCalled => st.DoClose?
    case CloseSettled => st.DoWriteClose? && !st.close.CloseFatal?
    case ErrorKept =>
      || (st.DoClose? && !s.life.closeRequested) || st.DoRecvFailed? || st.DoTimerFailed?
      || (st.DoRound? && st.answer.Fatal? && !OpenFails(s, st))
  }

  lemma TableStep(s: Sys, st: Step, id: int)
    ensures Apply(s, st).table.Has(id) <==> s.table.Has(id) || Makes(s, st, id, InTable)
    ensures s.table.order <= Apply(s, st).table.order
  {
    hide Apply, Round, Open, Predicted;
    if st.DoRound? {
      ApplyRound(s, st);
      RoundTable(s, st.connOnly, st.open, st.answer);
      assert Round(s, st.connOnly, st.open, st.answer).table.Has(id) <==> s.table.Has(id);
    } else if st.DoOpen? {
      OpenTable(s, st.bidi, st.open, id);
    } else if MayFile(st) {
      FileTable(s, st);
    } else {
      CallTable(s, st);
    }
  }

  lemma OpenTable(s: Sys, bidi: bool, a: OpenAnswer, id: int)
    ensures var t, r := s.table, Apply(s, DoOpen(bidi, a)).table;
      && (r.Has(id) <==> t.Has(id) || (OpenAllowed(s, a) && OpenId(s, bidi, a) == id))
      && t.order <= r.order
  {
    hide Open;
    if OpenAllowed(s, a) {
      OpenAt(s, bidi, a, id);
    } else {
      OpenRefused(s, bidi, a);
    }
  }

  lemma SendingStep(s: Sys, st: Step, id: int)
    requires StreamAt(s, id) && Enabled(s, st)
    ensures Holds(Apply(s, st), id, SendingOver) <==> Holds(s, id, SendingOver) || Makes(s, st, id, SendingOver)
  {
    hide Apply, Enabled, StreamAt, Answered, TookAll, EndAccepted, ResetAccepted, EndedByPeer;
    FlagStep(s, st, id, FinPending);
    FlagStep(s, st, id, FinSent);
    FlagStep(s, st, id, Closed);
  }

  /** The error kept for the close packet is touched by close() and by failures only. */
  lemma ErrorStep(s: Sys, st: Step, id: int)
    ensures Holds(Apply(s, st), id, ErrorKept) <==> Holds(s, id, ErrorKept) || Makes(s, st, id, ErrorKept)
  {
    hide Apply, Round;
    if st.DoRound? {
      ApplyRound(s, st);
      RoundKeepsError(s, st);
    } else if st.DoOpen? {
      OpenKeepsError(s, st.bidi, st.open);
    } else {
      OthersKeepError(s, st);
    }
  }

  lemma OpenKeepsError(s: Sys, bidi: bool, a: OpenAnswer)
    ensures Apply(s, DoOpen(bidi, a)).lastError == s.lastError
  {
  }

  lemma RoundKeepsError(s: Sys, st: Step)
    requires st.DoRound?
    ensures Round(s, st.connOnly, st.open, st.answer).lastError ==
      if st.answer.Fatal? && !OpenFails(s, st) then ByLibrary else s.lastError
  {
    hide Target, Offer, OfferNotifies, LibAfterWrite, SyncLife, SyncMail;
  }

  lemma OthersKeepError(s: Sys, st: Step)
    requires !st.DoRound? && !st.DoOpen?
    ensures Apply(s, st).lastError != NoError <==>
      s.lastError != NoError || (st.DoClose? && !s.life.closeRequested) || st.DoRecvFailed? || st.DoTimerFailed?
  {
    hide SyncLife, SyncMail, CString, Write, End, Read, Reset, Receive, Acked, AckIgnored, CloseByPeer, ResetByPeer,
      ReceiveNotifies, WriteAllowed, EndAllowed, ResetAllowed, ReadAllowed;
  }

  lemma RoundFacts(s: Sys, st: Step, id: int, fact: Fact)
    requires st.DoRound? && !fact.InTable? && !fact.SendingOver? && !fact.ErrorKept?
    ensures Holds(Apply(s, st), id, fact) <==> Holds(s, id, fact) || Makes(s, st, id, fact)
  {
    hide Round;
    RoundLife(s, st.connOnly, st.open, st.answer);
  }

  lemma ClosingFacts(s: Sys, st: Step, id: int, fact: Fact)
    requires st.DoWriteClose? || st.DoClose? || st.DoSync? || st.OnHandshake?
    requires !fact.InTable? && !fact.SendingOver? && !fact.ErrorKept? && Lifecycle(s.life)
    ensures Holds(Apply(s, st), id, fact) <==> Holds(s, id, fact) || Makes(s, st, id, fact)
  {
    hide CString;
  }

  lemma OtherFacts(s: Sys, st: Step, id: int, fact: Fact)
    requires !st.DoRound? && !fact.InTable? && !fact.SendingOver? && !fact.ErrorKept? && Lifecycle(s.life)
    ensures Holds(Apply(s, st), id, fact) <==> Holds(s, id, fact) || Makes(s, st, id, fact)
  {
    hide Apply, Lifecycle, CString;
    if st.DoWriteClose? || st.DoClose? || st.DoSync? || st.OnHandshake? {
      ClosingFacts(s, st, id, fact);
    } else {
      LifecycleTheorems.OtherStepsKeepFlags(s, st);
    }
  }

  lemma FactStep(s: Sys, st: Step, id: int, fact: Fact)
    requires StreamAt(s, id) && Lifecycle(s.life) && Enabled(s, st)
    ensures Holds(Apply(s, st), id, fact) <==> Holds(s, id, fact) || Makes(s, st, id, fact)
  {
    hide Apply, Enabled, StreamAt, Lifecycle, Holds, Makes;
    if fact.InTable? {
      TableStep(s, st, id);
      InTableIs(s, id);
      InTableIs(Apply(s, st), id);
    } else if fact.SendingOver? {
      SendingStep(s, st, id);
    } else if fact.ErrorKept? {
      ErrorStep(s, st, id);
    } else if st.DoRound? {
      RoundFacts(s, st, id, fact);
    } else {
      OtherFacts(s, st, id, fact);
    }
  }

  lemma InTableIs(s: Sys, id: int)
    ensures Holds(s, id, InTable) <==> s.table.Has(id)
  {
  }

  ghost predicate Happened(s: Sys, steps: seq<Step>, id: int, fact: Fact) {
    exists n :: 0 <= n < |steps| && Makes(Run(s, steps[..n]), steps[n], id, fact)
  }

  lemma HappenedSnoc(s: Sys, steps: seq<Step>, id: int, fact: Fact)
    requires steps != []
    ensures var m := |steps| - 1;
      Happened(s, steps, id, fact) <==> Happened(s, steps[..m], id, fact) || Makes(Run(s, steps[..m]), steps[m], id, fact)
  {
    hide Run, Makes;
    var m := |steps| - 1;
    assert forall n :: 0 <= n < m ==> steps[..m][..n] == steps[..n] && steps[..m][n] == steps[n];
  }

  /** In every reachable state such a fact is true exactly if a step has made it so: a stream is
      in the table if some open or callback was about it, its sending is over if it was ended,
      reset, closed or shut; the connection's flags tell of the handshake, of close() and its
      packet, and of the periods that a sync has seen; an error is kept if close() was called
      or the library has failed. */
  lemma {:induction false} FactHistory(server: bool, steps: seq<Step>, id: int, fact: Fact)
    requires ValidRun(Init(server), steps)
    ensures Holds(Run(Init(server), steps), id, fact) <==> Happened(Init(server), steps, id, fact)
  {
    hide Apply, Enabled, Holds, Makes, Happened, StreamAt, Lifecycle;
    if steps == [] {
      NothingHappened(server, id, fact);
    } else {
      var m := |steps| - 1;
      var s' := Run(Init(server), steps[..m]);
      FactHistory(server, steps[..m], id, fact);
      HappenedSnoc(Init(server), steps, id, fact);
      InitInv(server);
      RunKeepsInv(Init(server), steps[..m]);
      assert StreamAt(s', id);
      FactStep(s', steps[m], id, fact);
    }
  }

  lemma NothingHappened(server: bool, id: int, fact: Fact)
    ensures !Happened(Init(server), [], id, fact) && !Holds(Init(server), id, fact)
  {
  }

  /** After any run a write is accepted exactly if the stream is in the table, this side may
      send on it, and nothing has ended its sending: no end(), no reset by either side, no
      close by the peer, and no answer that the write side is shut. Neither the writable flag
      nor the amount of unsent data matters. */
  lemma {:induction false} WriteAcceptedIff(server: bool, steps: seq<Step>, id: int, data: Bytes)
    requires ValidRun(Init(server), steps)
    ensures var s := Init(server); var r := Run(s, steps);
      (WriteAllowed(r, id) <==>
         MaySend(server, id) && Happened(s, steps, id, InTable) && !Happened(s, steps, id, SendingOver))
    ensures var s := Init(server); var r := Run(s, steps);
      WriteAllowed(r, id) ==> Unsent(Apply(r, DoWrite(id, data)).table.At(id).e) == Unsent(r.table.At(id).e) + data
  {
    hide Run, Makes, Happened, StreamInv;
    var r := Run(Init(server), steps);
    FactHistory(server, steps, id, InTable);
    FactHistory(server, steps, id, SendingOver);
    InitInv(server);
    RunKeepsInv(Init(server), steps);
    assert StreamAt(r, id);
    SendersAgree(server, id);
    if WriteAllowed(r, id) {
      WrittenUnsent(r, id, data);
    }
  }

  lemma WrittenUnsent(s: Sys, id: int, data: Bytes)
    requires StreamAt(s, id) && WriteAllowed(s, id)
    ensures Unsent(Apply(s, DoWrite(id, data)).table.At(id).e) == Unsent(s.table.At(id).e) + data
  {
    AppendedUnsent(s.table.At(id).e, data);
  }

  /** An accepted end() leaves a FIN to send with all that is unsent, and from then on the FIN
      is pending, sent, or pointless because the stream is closed; every later write is refused. */
  lemma {:induction false} EndLeavesFin(server: bool, steps: seq<Step>, id: int, final: Bytes, more: seq<Step>)
    requires var s := Init(server); ValidRun(s, steps) && Run(s, steps).table.Has(id) && MaySend(server, id)
    requires ValidRun(Apply(Run(Init(server), steps), DoEnd(id, final)), more)
    ensures var before := Run(Init(server), steps); var s := Apply(before, DoEnd(id, final));
      && s.table.At(id).e.finPending && !s.table.At(id).e.writable
      && Unsent(s.table.At(id).e) == Unsent(before.table.At(id).e) + final
    ensures var s := Run(Apply(Run(Init(server), steps), DoEnd(id, final)), more); var e := s.table.At(id).e;
      (e.finPending || e.finSent || e.closed) && !WriteAllowed(s, id)
  {
    hide Run, ValidRun, StreamInv;
    var before := Run(Init(server), steps);
    InitInv(server);
    RunKeepsInv(Init(server), steps);
    assert StreamAt(before, id);
    FinLeft(before, id, final);
    SendTheorems.EndsStay(Apply(before, DoEnd(id, final)), more, id);
  }

  lemma FinLeft(s: Sys, id: int, final: Bytes)
    requires StreamAt(s, id) && s.table.Has(id) && MaySend(s.server, id)
    ensures var e, r := s.table.At(id).e, Apply(s, DoEnd(id, final)).table.At(id).e;
      r.finPending && !r.writable && Unsent(r) == Unsent(e) + final
  {
    AppendedUnsent(s.table.At(id).e, final);
  }

  // ----- which stream is offered -----

  predicate HasSomethingToSend(e: Entry) {
    !e.closed && !e.reset && (Unsent(e) != [] || e.finPending)
  }

  /** The table keeps the order in which the streams came: it only grows at its end. */
  lemma {:induction false} OrderGrows(s: Sys, more: seq<Step>)
    ensures s.table.order <= Run(s, more).table.order
  {
    if more != [] {
      var m := |more| - 1;
      OrderGrows(s, more[..m]);
      TableStep(Run(s, more[..m]), more[m], 0);
    }
  }

  /** In every reachable state an iteration picks the stream that came first among those that
      are neither closed nor reset and have unsent bytes or a pending FIN. */
  lemma {:induction false} PickedIff(server: bool, steps: seq<Step>, connOnly: bool, id: int)
    requires ValidRun(Init(server), steps)
    ensures var s := Run(Init(server), steps);
      Target(s, connOnly) == Some(id) <==>
        (&& !connOnly && id in s.table.order && HasSomethingToSend(s.table.At(id).e)
         && forall j, k :: 0 <= j < k < |s.table.order| && s.table.order[k] == id ==>
              !HasSomethingToSend(s.table.At(s.table.order[j]).e))
  {
    hide Run, HasWork, HasSomethingToSend, StreamAt, WritableAt, Lifecycle, MailInv;
    var s := Run(Init(server), steps);
    InitInv(server);
    RunKeepsInv(Init(server), steps);
    var k := PickIsFirst(s.table, s.table.order);
    forall i ensures HasWork(s.table.At(i).e) <==> HasSomethingToSend(s.table.At(i).e) {
      WorkIs(s.table.At(i).e);
    }
  }

  lemma WorkIs(e: Entry)
    ensures HasWork(e) <==> HasSomethingToSend(e)
  {
  }
}
