/** Stream IDs handed out while the peer's stream limit blocks opens: exactly when a predicted
    ID is the one the library assigns later, and an order of use that makes it always so. */
module StreamIdTheorems {
  import opened Common
  import opened Library
  import opened StreamSpec
  import opened ConnectionSpec
  import opened ConnectionProofs
  import opened StreamIdProofs

  // ----- exactly when the prediction fails -----

  /** An open that succeeds in the drain loop gives the picked ID exactly if the stream that
      the library opens, the first that it has not opened yet, has something to send. */
  lemma PredictionComesTrueIff(s: Sys, connOnly: bool, open: OpenAnswer, a: WriteAnswer)
    requires TrackInv(s) && ValidRound(s, connOnly, open, a) && NeedsOpen(s, connOnly) && open.Opened?
    ensures s.table.Has(open.id)
    ensures open.id == Target(s, connOnly).value <==> HasWork(s.table.At(open.id).e)
  {
    var id, lo := Target(s, connOnly).value, open.id;
    TargetHasWork(s, connOnly);
    OpenedIsNext(s, connOnly, open, a);
    assert s.table.Has(lo) && s.table.Has(id);
    if lo != id {
      var k := PickIsFirst(s.table, s.table.order);
      assert lo in s.table.order;
      var j :| 0 <= j < |s.table.order| && s.table.order[j] == lo;
      assert j < k;
      assert !HasWork(s.table.At(s.table.order[j]).e);
    }
  }

  /** After any run without a mismatch, the next open of a pending stream in the drain loop
      ends in the mismatch exactly if the stream that the library opens, the first that it
      has not opened yet, has nothing to send: no data or FIN, or it was reset. */
  lemma {:induction false} MismatchIff(server: bool, steps: seq<Step>, connOnly: bool, open: OpenAnswer, a: WriteAnswer)
    requires ValidRun(Init(server), steps) && !Run(Init(server), steps).mismatch
    requires var s := Run(Init(server), steps);
      ValidRound(s, connOnly, open, a) && NeedsOpen(s, connOnly) && open.Opened?
    ensures var s := Run(Init(server), steps);
      Round(s, connOnly, open, a).mismatch <==> !HasWork(s.table.At(open.id).e)
  {
    hide Round, ValidRound, Run, TrackInv;
    var s := Run(Init(server), steps);
    RunKeepsTracks(server, steps);
    PredictionComesTrueIff(s, connOnly, open, a);
    RoundCounters(s, connOnly, open, a, true);
  }

  /** After any run without a mismatch, the next open returns an ID that is in the table
      already exactly if it succeeds directly although an earlier open of its direction was
      blocked and the library has not opened that stream since. */
  lemma {:induction false} ReuseIff(server: bool, steps: seq<Step>, bidi: bool, a: OpenAnswer)
    requires ValidRun(Init(server), steps) && !Run(Init(server), steps).mismatch
    requires var s := Run(Init(server), steps); ValidOpen(s.lib, bidi, a) && OpenAllowed(s, a)
    ensures var s := Run(Init(server), steps);
      && (s.table.Has(OpenId(s, bidi, a)) <==> a.Opened? && s.lib.Next(bidi) < Predicted(s, bidi))
      && (Apply(s, DoOpen(bidi, a)).reused <==> s.reused || s.table.Has(OpenId(s, bidi, a)))
  {
    hide Run;
    var s := Run(Init(server), steps);
    RunKeepsTracks(server, steps);
    OpenIds(s, bidi, a);
    OpenAt(s, bidi, a, 0);
  }

  // ----- an order of use that makes it come true -----

  predicate Queued(e: Entry) {
    e.txOffset < |e.tx| || e.finPending
  }

  ghost predicate NonePending(s: Sys, bidi: bool) {
    forall id :: OwnType(s.server, bidi, id) ==> !Pending(s, id)
  }

  /** Every stream that the library has not opened yet is still waiting for it. */
  ghost predicate AllPending(s: Sys, bidi: bool) {
    forall id :: OwnType(s.server, bidi, id) && s.lib.Next(bidi) <= id < Predicted(s, bidi) ==> Pending(s, id)
  }

  ghost predicate IdInv(s: Sys) {
    TrackInv(s) && AllPending(s, true) && AllPending(s, false)
  }

  /** Pending streams have been given data or a FIN in opening order. */
  ghost predicate QueuedInOrder(s: Sys, bidi: bool) {
    forall a, b | OwnType(s.server, bidi, a) && OwnType(s.server, bidi, b) && a < b && Pending(s, a) && Pending(s, b) ::
      Queued(s.table.At(b).e) ==> Queued(s.table.At(a).e)
  }

  ghost predicate OrderInv(s: Sys) {
    QueuedInOrder(s, true) && QueuedInOrder(s, false)
  }

  /** The application does not reset a pending stream, and no open succeeds directly while
      a stream of the same direction is pending. */
  ghost predicate Gentle(s: Sys, st: Step) {
    && (st.DoReset? ==> !Pending(s, st.id))
    && (st.DoOpen? && st.open.Opened? ==> NonePending(s, st.bidi))
  }

  /** In addition it gives a pending stream data or a FIN only after all earlier pending
      streams of that direction. */
  ghost predicate Orderly(s: Sys, st: Step) {
    && Gentle(s, st)
    && ((st.DoWrite? && st.data != []) || st.DoEnd? ==>
          Pending(s, st.id) ==> EarlierQueued(s, st.id))
  }

  ghost predicate EarlierQueued(s: Sys, id: int) {
    forall k :: k < id && OwnType(s.server, IsBidi(id), k) && Pending(s, k) ==> Queued(s.table.At(k).e)
  }

  ghost predicate GentleRun(s: Sys, steps: seq<Step>) {
    forall k :: 0 <= k < |steps| ==> Gentle(Run(s, steps[..k]), steps[k])
  }

  ghost predicate OrderlyRun(s: Sys, steps: seq<Step>) {
    forall k :: 0 <= k < |steps| ==> Orderly(Run(s, steps[..k]), steps[k])
  }

  /** With all of them waiting, a direct open returns a new ID exactly if none is pending. */
  lemma DirectOpenFreshIff(s: Sys, bidi: bool, a: OpenAnswer)
    requires Tracks(s, bidi) && AllPending(s, bidi) && a.Opened? && ValidOpen(s.lib, bidi, a)
    ensures !s.table.Has(a.id) <==> NonePending(s, bidi)
  {
    if s.table.Has(a.id) {
      assert Pending(s, a.id);
    }
  }

  /** What a quiet step may do to an entry, if it does not reset a pending one: it leaves its
      pending flag; only data or a FIN newly queue it. */
  predicate QuietChange(st: Step, id: int, e: Entry, r: Entry) {
    && r.pendingOpen == e.pendingOpen
    && (e.pendingOpen && Queued(e) ==> Queued(r))
    && (e.pendingOpen && Queued(r) && !Queued(e) ==> ((st.DoWrite? && st.data != []) || st.DoEnd?) && st.id == id)
  }

  lemma GentleSlot(s: Sys, st: Step, id: int)
    requires Quiet(st) && (st.DoReset? ==> !Pending(s, st.id))
    ensures QuietChange(st, id, s.table.At(id).e, Apply(s, st).table.At(id).e)
  {
    hide Apply;
    StepAt(s, st, id);
  }

  lemma QuietKeepsAllPending(s: Sys, st: Step)
    requires IdInv(s) && Quiet(st) && Gentle(s, st)
    ensures AllPending(Apply(s, st), true) && AllPending(Apply(s, st), false)
  {
    hide Apply, TrackInv, QuietChange;
    var r := Apply(s, st);
    QuietTable(s, st);
    forall id ensures Pending(r, id) <==> Pending(s, id) {
      SlotKeepsPending(s, st, id);
    }
    assert forall bidi :: Predicted(r, bidi) == Predicted(s, bidi) && r.lib.Next(bidi) == s.lib.Next(bidi);
  }

  lemma SlotKeepsPending(s: Sys, st: Step, id: int)
    requires Quiet(st) && (st.DoReset? ==> !Pending(s, st.id))
    ensures Pending(Apply(s, st), id) <==> Pending(s, id)
  {
    hide Apply;
    GentleSlot(s, st, id);
  }

  lemma QuietKeepsOrder(s: Sys, st: Step)
    requires OrderInv(s) && Quiet(st) && Orderly(s, st)
    ensures OrderInv(Apply(s, st))
  {
    hide Apply;
    var r := Apply(s, st);
    forall bidi, a, b | OwnType(s.server, bidi, a) && OwnType(s.server, bidi, b) && a < b
      && Pending(r, a) && Pending(r, b) && Queued(r.table.At(b).e)
      ensures Queued(r.table.At(a).e)
    {
      GentleSlot(s, st, a);
      GentleSlot(s, st, b);
      assert IsBidi(b) == bidi;
    }
  }

  lemma GentleOpenIsPredicted(s: Sys, bidi: bool, a: OpenAnswer)
    requires IdInv(s) && ValidOpen(s.lib, bidi, a) && Gentle(s, DoOpen(bidi, a)) && OpenAllowed(s, a)
    ensures OpenId(s, bidi, a) == Predicted(s, bidi) && !s.table.Has(Predicted(s, bidi))
    ensures a.Opened? ==> s.lib.Next(bidi) == Predicted(s, bidi)
  {
    OpenIds(s, bidi, a);
    if a.Opened? {
      DirectOpenFreshIff(s, bidi, a);
    }
  }

  lemma OpenKeepsAllPending(s: Sys, bidi: bool, a: OpenAnswer, b: bool)
    requires IdInv(s) && ValidOpen(s.lib, bidi, a) && Gentle(s, DoOpen(bidi, a))
    ensures AllPending(Open(s, bidi, a), b) && Open(s, bidi, a).reused == s.reused
  {
    hide Open;
    if OpenAllowed(s, a) {
      var r, hi := Open(s, bidi, a), Predicted(s, bidi);
      GentleOpenIsPredicted(s, bidi, a);
      NextOwn(s.server, bidi, hi);
      OpenAt(s, bidi, a, hi);
      forall id | OwnType(s.server, b, id) && r.lib.Next(b) <= id < Predicted(r, b) ensures Pending(r, id) {
        OpenAt(s, bidi, a, id);
      }
    } else {
      OpenRefused(s, bidi, a);
    }
  }

  lemma OpenKeepsOrder(s: Sys, bidi: bool, a: OpenAnswer)
    requires IdInv(s) && OrderInv(s) && ValidOpen(s.lib, bidi, a) && Gentle(s, DoOpen(bidi, a))
    ensures OrderInv(Open(s, bidi, a))
  {
    hide Open;
    if OpenAllowed(s, a) {
      var r, hi := Open(s, bidi, a), Predicted(s, bidi);
      GentleOpenIsPredicted(s, bidi, a);
      forall id ensures r.table.At(id) == (if id == hi then OpenSlot(NEW_SLOT, a.IdBlocked?) else s.table.At(id)) {
        OpenAt(s, bidi, a, id);
      }
      OpenAt(s, bidi, a, hi);
      assert !Queued(OpenSlot(NEW_SLOT, a.IdBlocked?).e);
      forall b, x, y | OwnType(s.server, b, x) && OwnType(s.server, b, y) && x < y && Pending(r, x) && Pending(r, y)
        && Queued(r.table.At(y).e)
        ensures Queued(r.table.At(x).e)
      {
        assert y != hi && Pending(s, y);
        assert OwnType(s.server, bidi, hi) && OwnType(s.server, IsBidi(y), y) && Tracks(s, bidi);
      }
    } else {
      OpenRefused(s, bidi, a);
    }
  }

  lemma RoundKeepsAllPending(s: Sys, connOnly: bool, open: OpenAnswer, a: WriteAnswer, bidi: bool)
    requires IdInv(s) && ValidRound(s, connOnly, open, a) && !Round(s, connOnly, open, a).mismatch
    ensures AllPending(Round(s, connOnly, open, a), bidi)
  {
    hide Round, ValidRound;
    var r := Round(s, connOnly, open, a);
    RoundCounters(s, connOnly, open, a, bidi);
    if Opens(s, connOnly, open) {
      OpenedIsNext(s, connOnly, open, a);
    }
    forall id | OwnType(s.server, bidi, id) && r.lib.Next(bidi) <= id < Predicted(r, bidi) ensures Pending(r, id) {
      RoundSlots(s, connOnly, open, a, id);
    }
  }

  lemma RoundKeepsQueues(s: Sys, connOnly: bool, open: OpenAnswer, a: WriteAnswer)
    requires OrderInv(s)
    ensures OrderInv(Round(s, connOnly, open, a))
  {
    hide Round;
    var r := Round(s, connOnly, open, a);
    assert r.server == s.server;
    forall id ensures Pending(r, id) ==> Pending(s, id) && r.table.At(id).e == s.table.At(id).e {
      RoundSlots(s, connOnly, open, a, id);
    }
  }

  /** In order, the library always opens the predicted stream. */
  lemma OrderedRoundOpensPredicted(s: Sys, connOnly: bool, open: OpenAnswer, a: WriteAnswer)
    requires IdInv(s) && OrderInv(s) && !s.mismatch && ValidRound(s, connOnly, open, a)
    ensures !Round(s, connOnly, open, a).mismatch
  {
    hide Round, ValidRound;
    RoundCounters(s, connOnly, open, a, true);
    if NeedsOpen(s, connOnly) && open.Opened? {
      var id := Target(s, connOnly).value;
      TargetHasWork(s, connOnly);
      OpenedIsNext(s, connOnly, open, a);
      assert Pending(s, open.id) && Pending(s, id) && QueuedInOrder(s, IsBidi(id));
      PredictionComesTrueIff(s, connOnly, open, a);
    }
  }

  // ----- gentle and orderly runs -----

  lemma GentleStep(s: Sys, st: Step)
    requires IdInv(s) && Enabled(s, st) && Gentle(s, st) && !s.reused && !Apply(s, st).mismatch
    ensures IdInv(Apply(s, st)) && !Apply(s, st).reused
  {
    hide Round, TrackInv, AllPending;
    StepKeepsTracks(s, st);
    if st.DoOpen? {
      OpenKeepsAllPending(s, st.bidi, st.open, true);
      OpenKeepsAllPending(s, st.bidi, st.open, false);
    } else if st.DoRound? {
      RoundCounters(s, st.connOnly, st.open, st.answer, true);
      RoundKeepsAllPending(s, st.connOnly, st.open, st.answer, true);
      RoundKeepsAllPending(s, st.connOnly, st.open, st.answer, false);
    } else {
      QuietKeepsAllPending(s, st);
    }
  }

  /** If no pending stream is reset, and no open succeeds directly beside a pending stream,
      then in whatever order pending streams are given data, as long as no mismatch has
      happened: every stream that the library has not opened yet is pending. */
  lemma {:induction false} GentleRunKeepsIds(server: bool, steps: seq<Step>)
    requires ValidRun(Init(server), steps) && GentleRun(Init(server), steps) && !Run(Init(server), steps).mismatch
    ensures IdInv(Run(Init(server), steps)) && !Run(Init(server), steps).reused
  {
    hide Apply, Enabled, Gentle, IdInv;
    if steps == [] {
      InitIds(server);
    } else {
      var m := |steps| - 1;
      forall k | 0 <= k < m ensures Gentle(Run(Init(server), steps[..m][..k]), steps[..m][k]) {
        assert steps[..m][..k] == steps[..k];
      }
      MismatchStays(Run(Init(server), steps[..m]), steps[m]);
      GentleRunKeepsIds(server, steps[..m]);
      GentleStep(Run(Init(server), steps[..m]), steps[m]);
    }
  }

  lemma InitIds(server: bool)
    ensures IdInv(Init(server)) && OrderInv(Init(server))
  {
    InitTracks(server);
  }

  lemma {:induction false} OrderlyStep(s: Sys, st: Step)
    requires IdInv(s) && OrderInv(s) && Enabled(s, st) && Orderly(s, st) && !s.mismatch && !s.reused
    ensures IdInv(Apply(s, st)) && OrderInv(Apply(s, st)) && !Apply(s, st).mismatch && !Apply(s, st).reused
  {
    hide Round, IdInv, OrderInv;
    if st.DoOpen? {
      OpenKeepsOrder(s, st.bidi, st.open);
    } else if st.DoRound? {
      OrderedRoundOpensPredicted(s, st.connOnly, st.open, st.answer);
      RoundKeepsQueues(s, st.connOnly, st.open, st.answer);
    } else {
      QuietKeepsOrder(s, st);
    }
    GentleStep(s, st);
  }

  lemma {:induction false} OrderlyRunKeepsIds(server: bool, steps: seq<Step>)
    requires ValidRun(Init(server), steps) && OrderlyRun(Init(server), steps)
    ensures var r := Run(Init(server), steps); IdInv(r) && OrderInv(r) && !r.mismatch && !r.reused
  {
    hide Apply, Enabled, Orderly, IdInv, OrderInv;
    if steps == [] {
      InitIds(server);
    } else {
      var m := |steps| - 1;
      forall k | 0 <= k < m ensures Orderly(Run(Init(server), steps[..m][..k]), steps[..m][k]) {
        assert steps[..m][..k] == steps[..k];
      }
      OrderlyRunKeepsIds(server, steps[..m]);
      OrderlyStep(Run(Init(server), steps[..m]), steps[m]);
    }
  }

  /** In every orderly run the "stream id mismatch" exception never happens, no open
      returns an ID twice, and the pending IDs of each direction are exactly the library's
      next ID, that plus 4, and so on up to the prediction. */
  lemma {:induction false} OrderlyRunsPredictIds(server: bool, steps: seq<Step>, bidi: bool, id: int)
    requires ValidRun(Init(server), steps) && OrderlyRun(Init(server), steps)
    ensures var s := Run(Init(server), steps);
      && !s.mismatch && !s.reused
      && s.lib.Next(bidi) % 4 == Residue(server, bidi) && s.lib.Next(bidi) <= Predicted(s, bidi)
      && Predicted(s, bidi) % 4 == Residue(server, bidi) && !s.table.Has(Predicted(s, bidi))
      && (OwnType(server, bidi, id) ==>
            (s.table.At(id).e.pendingOpen <==> s.lib.Next(bidi) <= id < Predicted(s, bidi)))
      && (s.table.At(id).e.pendingOpen ==> OwnType(server, true, id) || OwnType(server, false, id))
  {
    hide Run;
    OrderlyRunKeepsIds(server, steps);
    var s := Run(Init(server), steps);
    assert Tracks(s, bidi) && AllPending(s, bidi);
    assert OwnType(server, bidi, Predicted(s, bidi));
    if Pending(s, id) {
      assert OwnType(server, IsBidi(id), id);
    }
  }

  // ----- no stream is offered before it is open -----

  /** The side's own streams that the library has not opened yet wait for it, or are closed. */
  ghost predicate Waiting(s: Sys, bidi: bool) {
    forall id :: OwnType(s.server, bidi, id) && s.lib.Next(bidi) <= id < Predicted(s, bidi) ==>
      Pending(s, id) || s.table.At(id).e.closed
  }

  lemma QuietWaits(s: Sys, st: Step, id: int)
    requires Quiet(st) && (Pending(s, id) || s.table.At(id).e.closed)
    ensures Pending(Apply(s, st), id) || Apply(s, st).table.At(id).e.closed
  {
    hide Apply;
    StepAt(s, st, id);
  }

  lemma QuietKeepsWaiting(s: Sys, st: Step, bidi: bool)
    requires Quiet(st) && Waiting(s, bidi)
    ensures Waiting(Apply(s, st), bidi)
  {
    hide Apply;
    var r := Apply(s, st);
    QuietTable(s, st);
    assert Predicted(r, bidi) == Predicted(s, bidi) && r.lib.Next(bidi) == s.lib.Next(bidi);
    forall id | OwnType(s.server, bidi, id) && s.lib.Next(bidi) <= id < Predicted(s, bidi)
      ensures Pending(r, id) || r.table.At(id).e.closed
    {
      QuietWaits(s, st, id);
    }
  }

  lemma OpenKeepsWaiting(s: Sys, bidi: bool, a: OpenAnswer, b: bool)
    requires TrackInv(s) && Waiting(s, b) && ValidOpen(s.lib, bidi, a)
    ensures Waiting(Open(s, bidi, a), b)
  {
    hide Open;
    if OpenAllowed(s, a) {
      var r, n := Open(s, bidi, a), OpenId(s, bidi, a);
      OpenIds(s, bidi, a);
      OpenAt(s, bidi, a, n);
      NextOwn(s.server, bidi, Predicted(s, bidi));
      NextOwn(s.server, bidi, s.lib.Next(bidi));
      forall id | OwnType(s.server, b, id) && r.lib.Next(b) <= id < Predicted(r, b)
        ensures Pending(r, id) || r.table.At(id).e.closed
      {
        OpenAt(s, bidi, a, id);
      }
    } else {
      OpenRefused(s, bidi, a);
    }
  }

  lemma RoundKeepsClosed(s: Sys, connOnly: bool, open: OpenAnswer, a: WriteAnswer, id: int)
    ensures Round(s, connOnly, open, a).table.At(id).e.closed == s.table.At(id).e.closed
  {
    RoundAt(s, connOnly, open, a, id);
  }

  lemma RoundKeepsWaiting(s: Sys, connOnly: bool, open: OpenAnswer, a: WriteAnswer, bidi: bool)
    requires TrackInv(s) && Waiting(s, bidi) && ValidRound(s, connOnly, open, a) && !Round(s, connOnly, open, a).mismatch
    ensures Waiting(Round(s, connOnly, open, a), bidi)
  {
    hide Round, ValidRound;
    var r := Round(s, connOnly, open, a);
    RoundCounters(s, connOnly, open, a, bidi);
    if Opens(s, connOnly, open) {
      OpenedIsNext(s, connOnly, open, a);
    }
    forall id | OwnType(s.server, bidi, id) && r.lib.Next(bidi) <= id < Predicted(r, bidi)
      ensures Pending(r, id) || r.table.At(id).e.closed
    {
      RoundSlots(s, connOnly, open, a, id);
      RoundKeepsClosed(s, connOnly, open, a, id);
    }
  }

  lemma StepKeepsWaiting(s: Sys, st: Step, bidi: bool)
    requires TrackInv(s) && Waiting(s, bidi) && Enabled(s, st) && !Apply(s, st).mismatch
    ensures Waiting(Apply(s, st), bidi)
  {
    hide Round, TrackInv, Waiting;
    if st.DoOpen? {
      OpenKeepsWaiting(s, st.bidi, st.open, bidi);
    } else if st.DoRound? {
      RoundKeepsWaiting(s, st.connOnly, st.open, st.answer, bidi);
    } else {
      QuietKeepsWaiting(s, st, bidi);
    }
  }

  lemma {:induction false} RunKeepsWaiting(server: bool, steps: seq<Step>, bidi: bool)
    requires ValidRun(Init(server), steps) && !Run(Init(server), steps).mismatch
    ensures Waiting(Run(Init(server), steps), bidi)
  {
    hide Apply, Enabled, TrackInv, Waiting;
    if steps == [] {
      NoneWaits(server, bidi);
    } else {
      var m := |steps| - 1;
      MismatchStays(Run(Init(server), steps[..m]), steps[m]);
      RunKeepsWaiting(server, steps[..m], bidi);
      RunKeepsTracks(server, steps[..m]);
      StepKeepsWaiting(Run(Init(server), steps[..m]), steps[m], bidi);
    }
  }

  lemma NoneWaits(server: bool, bidi: bool)
    ensures Waiting(Init(server), bidi)
  {
  }

  /** After any run without a mismatch, whatever was reset or reused: an iteration offers no
      bytes and no FIN of an own stream that the library has not opened, be it before or just now. */
  lemma {:induction false} OnlyOpenedAreOffered(server: bool, steps: seq<Step>, st: Step, id: int)
    requires ValidRun(Init(server), steps) && !Run(Init(server), steps).mismatch
    requires var s := Run(Init(server), steps);
      && Enabled(s, st) && st.DoRound? && OwnType(server, IsBidi(id), id)
      && Offered(s, st.connOnly, st.open, st.answer, id)
    ensures id < Apply(Run(Init(server), steps), st).lib.Next(IsBidi(id))
  {
    hide Run, Apply, Enabled, Round, ValidRound, TrackInv, Offered;
    var s := Run(Init(server), steps);
    RunKeepsTracks(server, steps);
    RunKeepsWaiting(server, steps, IsBidi(id));
    ApplyRound(s, st);
    OfferedIsOpen(s, st.connOnly, st.open, st.answer, id);
  }

  lemma OfferedIsOpen(s: Sys, connOnly: bool, open: OpenAnswer, a: WriteAnswer, id: int)
    requires TrackInv(s) && Waiting(s, IsBidi(id)) && ValidRound(s, connOnly, open, a)
    requires Offered(s, connOnly, open, a, id) && OwnType(s.server, IsBidi(id), id)
    ensures id < Round(s, connOnly, open, a).lib.Next(IsBidi(id))
  {
    hide Round, ValidRound;
    TargetHasWork(s, connOnly);
    RoundCounters(s, connOnly, open, a, IsBidi(id));
    assert Tracks(s, IsBidi(id)) && s.table.Has(id);
    if Pending(s, id) {
      OpenedIsNext(s, connOnly, open, a);
    }
  }

  // ----- the size of stream IDs -----

  /** A bound for all counters of stream IDs. */
  predicate IdsBelow(s: Sys, n: int) {
    s.next.bidi <= n && s.next.uni <= n && s.lib.nextBidi <= n && s.lib.nextUni <= n && n >= 3
  }

  lemma StepRaisesIds(s: Sys, st: Step, n: int)
    requires IdsBelow(s, n) && Enabled(s, st)
    ensures IdsBelow(Apply(s, st), n + 4)
    ensures st.DoOpen? && OpenAllowed(s, st.open) ==> OpenId(s, st.bidi, st.open) <= n
  {
    if st.DoRound? {
      RoundIds(s, st.connOnly, st.open, st.answer, n);
    } else if !st.DoOpen? {
      QuietTable(s, st);
      assert Apply(s, st).lib.Next(true) == s.lib.Next(true) && Apply(s, st).lib.Next(false) == s.lib.Next(false);
    }
  }

  lemma RoundIds(s: Sys, connOnly: bool, open: OpenAnswer, a: WriteAnswer, n: int)
    requires IdsBelow(s, n)
    ensures IdsBelow(Round(s, connOnly, open, a), n + 4)
  {
    var r := Round(s, connOnly, open, a);
    RoundCounters(s, connOnly, open, a, true);
    RoundCounters(s, connOnly, open, a, false);
    assert r.lib.nextBidi == r.lib.Next(true) && r.lib.nextUni == r.lib.Next(false);
  }

  /** Every step raises the counters by at most 4. So in any run of fewer than 2^61 - 1 steps
      all counters, and every ID that an open returns, fit a signed 64-bit integer. */
  lemma {:induction false} IdsFit(server: bool, steps: seq<Step>)
    requires ValidRun(Init(server), steps)
    ensures IdsBelow(Run(Init(server), steps), 4 * |steps| + 3)
    ensures |steps| < 0x1fff_ffff_ffff_ffff ==> IdsBelow(Run(Init(server), steps), 0x7fff_ffff_ffff_ffff)
  {
    if steps != [] {
      var m := |steps| - 1;
      IdsFit(server, steps[..m]);
      StepRaisesIds(Run(Init(server), steps[..m]), steps[m], 4 * m + 3);
    }
  }

  // ----- examples -----

  /** Out of order it does happen: two blocked opens, data on the second only, and a limit
      raised by one. */
  lemma MismatchCounterexample()
    ensures var steps := [DoOpen(true, IdBlocked), DoOpen(true, IdBlocked), DoWrite(4, [7]),
                          DoRound(false, Opened(0), Fatal)];
      ValidRun(Init(false), steps) && Run(Init(false), steps).mismatch
  {
    var s0 := Init(false);
    var st1, st2, st3, st4 := DoOpen(true, IdBlocked), DoOpen(true, IdBlocked), DoWrite(4, [7]),
      DoRound(false, Opened(0), Fatal);
    TwoBlockedOpens();
    RunSnoc(s0, [st1, st2], st3);
    assert [st1, st2] + [st3] == [st1, st2, st3];
    SecondGetsData(Run(s0, [st1, st2]));
    RunSnoc(s0, [st1, st2, st3], st4);
    assert [st1, st2, st3] + [st4] == [st1, st2, st3, st4];
  }

  lemma SecondGetsData(s: Sys)
    requires s.table == Table([0, 4], map[0 := OpenSlot(NEW_SLOT, true), 4 := OpenSlot(NEW_SLOT, true)])
    requires s.lib == InitLib(false) && !s.server && !CloseDue(s)
    ensures var r := Apply(s, DoWrite(4, [7]));
      Enabled(r, DoRound(false, Opened(0), Fatal)) && Apply(r, DoRound(false, Opened(0), Fatal)).mismatch
  {
    SecondOpensFirst(Apply(s, DoWrite(4, [7])));
  }

  lemma TwoBlockedOpens()
    ensures var steps := [DoOpen(true, IdBlocked), DoOpen(true, IdBlocked)];
      var s := Run(Init(false), steps);
      && ValidRun(Init(false), steps)
      && s.table == Table([0, 4], map[0 := OpenSlot(NEW_SLOT, true), 4 := OpenSlot(NEW_SLOT, true)])
      && s.lib == InitLib(false) && !CloseDue(s)
  {
    var st := DoOpen(true, IdBlocked);
    RunOne(Init(false), st);
    var s1 := Run(Init(false), [st]);
    assert s1.table == Table([0], map[0 := OpenSlot(NEW_SLOT, true)]) && Predicted(s1, true) == 4;
    RunSnoc(Init(false), [st], st);
    assert [st] + [st] == [st, st];
  }

  lemma SecondOpensFirst(s: Sys)
    requires s.table.order == [0, 4] && s.table.Has(0) && s.table.Has(4) && s.lib.nextBidi == 0
    requires !HasWork(s.table.At(0).e) && HasWork(s.table.At(4).e) && s.table.At(4).e.pendingOpen
    ensures ValidRound(s, false, Opened(0), Fatal) && Round(s, false, Opened(0), Fatal).mismatch
  {
    assert s.table.order[1..] == [4];
    assert Pick(s.table, [4]) == Some(4);
  }

  /** A direct open while a stream is pending returns the pending stream's ID again. */
  lemma ReuseCounterexample()
    ensures var steps := [DoOpen(true, IdBlocked), DoOpen(true, Opened(0))];
      ValidRun(Init(false), steps) && Run(Init(false), steps).reused
  {
    var st1, st2 := DoOpen(true, IdBlocked), DoOpen(true, Opened(0));
    RunOne(Init(false), st1);
    OpensAgain(Run(Init(false), [st1]));
    RunSnoc(Init(false), [st1], st2);
    assert [st1] + [st2] == [st1, st2];
  }

  lemma OpensAgain(s: Sys)
    requires !s.life.closed && s.lib.nextBidi == 0 && s.table.Has(0)
    ensures Enabled(s, DoOpen(true, Opened(0))) && Apply(s, DoOpen(true, Opened(0))).reused
  {
  }

  /** It also happens when no stream is pending any more: a stream whose open was blocked was
      reset, and the library opens it all the same. The entry is then writable and closed. */
  lemma ResetReuseCounterexample()
    ensures var steps := [DoOpen(true, IdBlocked), DoReset(0, 0, true)];
      var s := Run(Init(false), steps);
      && ValidRun(Init(false), steps) && NonePending(s, true) && Enabled(s, DoOpen(true, Opened(0)))
      && var r := Apply(s, DoOpen(true, Opened(0)));
        r.reused && r.table.At(0).e.writable && r.table.At(0).e.closed
  {
    var st1, st2 := DoOpen(true, IdBlocked), DoReset(0, 0, true);
    RunOne(Init(false), st1);
    RunSnoc(Init(false), [st1], st2);
    assert [st1] + [st2] == [st1, st2];
  }

  /** Likewise the mismatch: the first of two pending streams was reset, the second has data. */
  lemma ResetMismatchCounterexample()
    ensures var steps := [DoOpen(true, IdBlocked), DoOpen(true, IdBlocked), DoReset(0, 0, true), DoWrite(4, [7])];
      var s := Run(Init(false), steps);
      && ValidRun(Init(false), steps) && !Pending(s, 0) && Pending(s, 4) && Queued(s.table.At(4).e)
      && Enabled(s, DoRound(false, Opened(0), Fatal)) && Apply(s, DoRound(false, Opened(0), Fatal)).mismatch
  {
    var s0 := Init(false);
    var st1, st3, st4 := DoOpen(true, IdBlocked), DoReset(0, 0, true), DoWrite(4, [7]);
    TwoBlockedOpens();
    RunSnoc(s0, [st1, st1], st3);
    assert [st1, st1] + [st3] == [st1, st1, st3];
    RunSnoc(s0, [st1, st1, st3], st4);
    assert [st1, st1, st3] + [st4] == [st1, st1, st3, st4];
    FirstResetSecondWritten(Run(s0, [st1, st1]));
  }

  lemma FirstResetSecondWritten(s: Sys)
    requires s.table == Table([0, 4], map[0 := OpenSlot(NEW_SLOT, true), 4 := OpenSlot(NEW_SLOT, true)])
    requires s.lib == InitLib(false) && !s.server && !CloseDue(s)
    ensures var r := Apply(Apply(s, DoReset(0, 0, true)), DoWrite(4, [7]));
      && Enabled(s, DoReset(0, 0, true)) && Enabled(Apply(s, DoReset(0, 0, true)), DoWrite(4, [7]))
      && !Pending(r, 0) && Pending(r, 4) && Queued(r.table.At(4).e)
      && Enabled(r, DoRound(false, Opened(0), Fatal)) && Apply(r, DoRound(false, Opened(0), Fatal)).mismatch
  {
    SecondOpensFirst(Apply(Apply(s, DoReset(0, 0, true)), DoWrite(4, [7])));
  }
}
