/** The counters that predict stream IDs, in every reachable state: what is right about them
    whatever the application does, as long as no mismatch has happened. */
module StreamIdProofs {
  import opened Common
  import opened Library
  import opened StreamSpec
  import opened ConnectionSpec
  import opened ConnectionProofs

  predicate OwnType(server: bool, bidi: bool, id: int) {
    id >= 0 && id % 4 == Residue(server, bidi)
  }

  predicate Pending(s: Sys, id: int) {
    s.table.At(id).e.pendingOpen
  }

  ghost predicate Increasing(server: bool, bidi: bool, order: seq<int>) {
    forall i, j :: 0 <= i < j < |order| && OwnType(server, bidi, order[i]) && OwnType(server, bidi, order[j])
      ==> order[i] < order[j]
  }

  /** For one direction: the side's streams are exactly the IDs below the prediction, in
      table order; pending ones are among those that the library has not opened yet. */
  ghost predicate Tracks(s: Sys, bidi: bool) {
    var lo, hi := s.lib.Next(bidi), Predicted(s, bidi);
    && OwnType(s.server, bidi, lo) && OwnType(s.server, bidi, hi) && lo <= hi
    && (forall id :: OwnType(s.server, bidi, id) ==> (s.table.Has(id) <==> id < hi))
    && (forall id :: OwnType(s.server, bidi, id) && Pending(s, id) ==> lo <= id < hi)
    && Increasing(s.server, bidi, s.table.order)
  }

  /** The peer's streams are never pending, and no stream that has ended is. */
  ghost predicate PendingInv(s: Sys) {
    && (forall id :: id in s.table.order <==> s.table.Has(id))
    && (forall id :: Pending(s, id) ==> OwnType(s.server, IsBidi(id), id))
    && (forall id :: Pending(s, id) ==> !s.table.At(id).e.closed && !s.table.At(id).e.reset)
  }

  ghost predicate TrackInv(s: Sys) {
    PendingInv(s) && Tracks(s, true) && Tracks(s, false)
  }

  lemma LocalIsOwn(server: bool, id: int)
    requires id >= 0
    ensures OwnType(server, IsBidi(id), id) <==> IsLocal(server, id)
  {
  }

  lemma NextOwn(server: bool, bidi: bool, hi: int)
    requires OwnType(server, bidi, hi)
    ensures OwnType(server, bidi, hi + 4) && EnsureNext(server, bidi, hi + 4) == hi + 4
    ensures EnsureNext(server, bidi, hi) == hi
    ensures forall id :: OwnType(server, bidi, id) ==> (id < hi + 4 <==> id < hi || id == hi)
    ensures forall id :: OwnType(server, bidi, id) ==> (hi < id <==> hi + 4 <= id)
    ensures IsBidi(hi) == bidi && IsLocal(server, hi) && !OwnType(server, !bidi, hi)
  {
  }

  // ----- three kinds of change -----

  /** No stream of this direction is opened; at most an entry of another kind is added. */
  lemma TracksFrame(s: Sys, r: Sys, bidi: bool)
    requires Tracks(s, bidi) && r.server == s.server
    requires Predicted(r, bidi) == Predicted(s, bidi) && r.lib.Next(bidi) == s.lib.Next(bidi)
    requires forall id :: OwnType(s.server, bidi, id) ==> (r.table.Has(id) <==> s.table.Has(id))
    requires forall id :: OwnType(s.server, bidi, id) && Pending(r, id) ==> Pending(s, id)
    requires r.table.order == s.table.order
      || (|r.table.order| == |s.table.order| + 1 && r.table.order[..|s.table.order|] == s.table.order
          && !OwnType(s.server, bidi, r.table.order[|s.table.order|]))
    ensures Tracks(r, bidi)
  {
    if r.table.order != s.table.order {
      forall i, j | 0 <= i < j < |r.table.order| && OwnType(s.server, bidi, r.table.order[i]) && OwnType(s.server, bidi, r.table.order[j])
        ensures r.table.order[i] < r.table.order[j]
      {
        assert r.table.order[i] == s.table.order[i] && r.table.order[j] == s.table.order[j];
      }
    }
  }

  /** The library opens the next stream of this direction, which is in the table already. */
  lemma TracksAdvance(s: Sys, r: Sys, bidi: bool, lo: int)
    requires Tracks(s, bidi) && r.server == s.server && lo == s.lib.Next(bidi) && lo < Predicted(s, bidi)
    requires Predicted(r, bidi) == Predicted(s, bidi) && r.lib.Next(bidi) == lo + 4
    requires r.table.order == s.table.order && forall id :: r.table.Has(id) <==> s.table.Has(id)
    requires forall id :: Pending(r, id) ==> Pending(s, id) && id != lo
    ensures Tracks(r, bidi)
  {
    NextOwn(s.server, bidi, lo);
  }

  /** One more stream of this direction, filed under the predicted ID. */
  lemma TracksNew(s: Sys, r: Sys, bidi: bool, hi: int, pending: bool)
    requires Tracks(s, bidi) && hi == Predicted(s, bidi) && r.server == s.server
    requires !pending ==> s.lib.Next(bidi) == hi
    requires Predicted(r, bidi) == hi + 4
    requires r.lib.Next(bidi) == if pending then s.lib.Next(bidi) else hi + 4
    requires forall id :: id != hi && Pending(r, id) ==> Pending(s, id)
    requires Pending(r, hi) ==> pending
    requires forall id :: r.table.Has(id) <==> s.table.Has(id) || id == hi
    requires Increasing(s.server, bidi, r.table.order)
    ensures Tracks(r, bidi)
  {
    NextOwn(s.server, bidi, hi);
  }

  /** Appending the next own ID keeps the order increasing. */
  lemma AppendIncreasing(server: bool, bidi: bool, order: seq<int>, hi: int)
    requires Increasing(server, bidi, order)
    requires forall id :: id in order && OwnType(server, bidi, id) ==> id < hi
    ensures Increasing(server, bidi, order + [hi])
  {
    forall i, j | 0 <= i < j < |order| + 1 && OwnType(server, bidi, (order + [hi])[i])
      && OwnType(server, bidi, (order + [hi])[j])
      ensures (order + [hi])[i] < (order + [hi])[j]
    {
      assert (order + [hi])[i] == order[i] && order[i] in order;
    }
  }

  // ----- steps that open nothing -----

  predicate Quiet(st: Step) {
    !st.DoOpen? && !st.DoRound?
  }

  /** The library names no pending stream in a callback. */
  lemma KnownNotPending(s: Sys, id: int)
    requires TrackInv(s) && Known(s, id)
    ensures !Pending(s, id)
    ensures s.table.Has(id) || !IsLocal(s.server, id)
  {
    LocalIsOwn(s.server, id);
    if IsLocal(s.server, id) {
      assert Tracks(s, IsBidi(id));
    }
  }

  lemma QuietSlot(s: Sys, st: Step, id: int)
    requires Quiet(st)
    requires st.OnStreamClose? || st.OnStreamReset? ==> !Pending(s, st.id)
    ensures var e, r := s.table.At(id).e, Apply(s, st).table.At(id).e;
      r.pendingOpen ==> e.pendingOpen && r.closed == e.closed && r.reset == e.reset
  {
    hide Apply;
    StepAt(s, st, id);
  }

  /** The table has the same entries in the same order. */
  ghost predicate SameTable(t: Table, r: Table) {
    r.order == t.order && forall id :: r.Has(id) <==> t.Has(id)
  }

  predicate MayFile(st: Step) {
    st.OnStreamOpen? || st.OnData? || st.OnStreamClose? || st.OnStreamReset?
  }

  lemma CallTable(s: Sys, st: Step)
    requires Quiet(st) && !MayFile(st)
    ensures SameTable(s.table, Apply(s, st).table)
  {
    hide StreamSpec.Write, StreamSpec.End, StreamSpec.Read, StreamSpec.Reset, Acked, AckIgnored, SyncLife, SyncMail, CString;
  }

  lemma FileTable(s: Sys, st: Step)
    requires MayFile(st)
    ensures var t, r := s.table, Apply(s, st).table;
      if t.Has(st.id) then SameTable(t, r)
      else r.order == t.order + [st.id] && forall id :: r.Has(id) <==> t.Has(id) || id == st.id
  {
    hide Receive, CloseByPeer, ResetByPeer, ReceiveNotifies;
  }

  lemma QuietCounters(s: Sys, st: Step)
    requires Quiet(st)
    ensures Apply(s, st).next == s.next && forall b :: Apply(s, st).lib.Next(b) == s.lib.Next(b)
  {
    hide StreamSpec.Write, StreamSpec.End, StreamSpec.Read, StreamSpec.Reset, Acked, AckIgnored, Receive, CloseByPeer,
      ResetByPeer, ReceiveNotifies, SyncLife, SyncMail, CString;
  }

  /** New entries made by quiet steps belong to the peer's streams. */
  lemma QuietTable(s: Sys, st: Step)
    requires Quiet(st)
    ensures var t, r := s.table, Apply(s, st).table;
      || (r.order == t.order && forall id :: r.Has(id) <==> t.Has(id))
      || ((st.OnStreamOpen? || st.OnData? || st.OnStreamClose? || st.OnStreamReset?) && !t.Has(st.id)
          && r.order == t.order + [st.id] && forall id :: r.Has(id) <==> t.Has(id) || id == st.id)
    ensures Apply(s, st).next == s.next
    ensures forall b :: Apply(s, st).lib.Next(b) == s.lib.Next(b)
  {
    hide Apply;
    QuietCounters(s, st);
    if MayFile(st) {
      FileTable(s, st);
    } else {
      CallTable(s, st);
    }
  }

  lemma QuietPending(s: Sys, st: Step, id: int)
    requires TrackInv(s) && Quiet(st) && Enabled(s, st)
    ensures var r := Apply(s, st);
      Pending(r, id) ==>
        (&& Pending(s, id) && r.table.At(id).e.closed == s.table.At(id).e.closed
         && r.table.At(id).e.reset == s.table.At(id).e.reset)
  {
    hide Apply, Tracks, PendingInv;
    if st.OnStreamClose? || st.OnStreamReset? {
      KnownNotPending(s, st.id);
    }
    QuietSlot(s, st, id);
  }

  /** A callback that files a new entry is about a stream of the peer. */
  lemma FilesForeign(s: Sys, st: Step)
    requires TrackInv(s) && MayFile(st) && Enabled(s, st) && !s.table.Has(st.id)
    ensures forall bidi :: !OwnType(s.server, bidi, st.id)
  {
    hide Tracks, PendingInv;
    LocalIsOwn(s.server, st.id);
    if !st.OnStreamOpen? {
      KnownNotPending(s, st.id);
    }
  }

  lemma QuietKeepsTracks(s: Sys, st: Step)
    requires TrackInv(s) && Quiet(st) && Enabled(s, st)
    ensures TrackInv(Apply(s, st))
  {
    hide Apply, Enabled, Increasing, Quiet;
    var r := Apply(s, st);
    QuietTable(s, st);
    if MayFile(st) && !s.table.Has(st.id) {
      FilesForeign(s, st);
    }
    forall id ensures Pending(r, id) ==> Pending(s, id)
      ensures Pending(r, id) ==> r.table.At(id).e.closed == s.table.At(id).e.closed && r.table.At(id).e.reset == s.table.At(id).e.reset
    {
      QuietPending(s, st, id);
    }
    TracksFrame(s, r, true);
    TracksFrame(s, r, false);
  }

  // ----- opening streams -----

  /** The ID that an open returns is the predicted one, or the library's next one, which
      then is in the table already. */
  lemma OpenIds(s: Sys, bidi: bool, a: OpenAnswer)
    requires Tracks(s, bidi) && ValidOpen(s.lib, bidi, a) && OpenAllowed(s, a)
    ensures var id := OpenId(s, bidi, a);
      && (s.table.Has(id) <==> a.Opened? && s.lib.Next(bidi) < Predicted(s, bidi))
      && (!s.table.Has(id) ==> id == Predicted(s, bidi))
      && (s.table.Has(id) ==> id == s.lib.Next(bidi))
  {
  }

  lemma OpenAt(s: Sys, bidi: bool, a: OpenAnswer, id: int)
    requires OpenAllowed(s, a)
    ensures var r, n := Open(s, bidi, a), OpenId(s, bidi, a);
      && r.table.At(id) == (if id == n then OpenSlot(s.table.At(id), a.IdBlocked?) else s.table.At(id))
      && (r.table.Has(id) <==> s.table.Has(id) || id == n)
      && r.table.order == (if s.table.Has(n) then s.table.order else s.table.order + [n])
      && r.next == s.next.Set(bidi, if n >= Predicted(s, bidi) then n + 4 else Predicted(s, bidi))
      && r.lib == (if a.Opened? then s.lib.Advance(bidi) else s.lib)
      && r.reused == (s.reused || s.table.Has(n)) && r.server == s.server
  {
  }

  lemma OpenKeepsTracks(s: Sys, bidi: bool, a: OpenAnswer)
    requires TrackInv(s) && ValidOpen(s.lib, bidi, a)
    ensures TrackInv(Open(s, bidi, a))
  {
    if OpenAllowed(s, a) {
      var r, id, hi := Open(s, bidi, a), OpenId(s, bidi, a), Predicted(s, bidi);
      OpenIds(s, bidi, a);
      NextOwn(s.server, bidi, hi);
      NextOwn(s.server, bidi, s.lib.Next(bidi));
      OpenAt(s, bidi, a, id);
      forall k ensures r.table.At(k) == (if k == id then OpenSlot(s.table.At(k), a.IdBlocked?) else s.table.At(k))
        ensures r.table.Has(k) <==> s.table.Has(k) || k == id
      {
        OpenAt(s, bidi, a, k);
      }
      OpenKeepsOwn(s, r, bidi, id, a);
      TracksFrame(s, r, !bidi);
      OpenKeepsPending(s, r, bidi, id, a);
    }
  }

  lemma OpenKeepsOwn(s: Sys, r: Sys, bidi: bool, id: int, a: OpenAnswer)
    requires Tracks(s, bidi) && ValidOpen(s.lib, bidi, a) && OpenAllowed(s, a)
    requires (forall k :: k in s.table.order ==> s.table.Has(k)) && r == Open(s, bidi, a) && id == OpenId(s, bidi, a)
    requires forall k :: r.table.At(k) == (if k == id then OpenSlot(s.table.At(k), a.IdBlocked?) else s.table.At(k))
    requires forall k :: r.table.Has(k) <==> s.table.Has(k) || k == id
    ensures Tracks(r, bidi)
  {
    hide Open;
    var hi := Predicted(s, bidi);
    OpenIds(s, bidi, a);
    OpenAt(s, bidi, a, id);
    NextOwn(s.server, bidi, hi);
    if s.table.Has(id) {
      TracksAdvance(s, r, bidi, id);
    } else {
      AppendIncreasing(s.server, bidi, s.table.order, hi);
      TracksNew(s, r, bidi, hi, a.IdBlocked?);
    }
  }

  lemma OpenKeepsPending(s: Sys, r: Sys, bidi: bool, id: int, a: OpenAnswer)
    requires PendingInv(s) && Tracks(s, bidi) && ValidOpen(s.lib, bidi, a) && OpenAllowed(s, a)
    requires r == Open(s, bidi, a) && id == OpenId(s, bidi, a)
    requires forall k :: r.table.At(k) == (if k == id then OpenSlot(s.table.At(k), a.IdBlocked?) else s.table.At(k))
    requires forall k :: r.table.Has(k) <==> s.table.Has(k) || k == id
    ensures PendingInv(r)
  {
    hide Open;
    OpenIds(s, bidi, a);
    OpenAt(s, bidi, a, id);
    NextOwn(s.server, bidi, Predicted(s, bidi));
  }

  // ----- draining -----

  /** Whether this round opens the pending stream it has picked. */
  predicate Opens(s: Sys, connOnly: bool, open: OpenAnswer) {
    NeedsOpen(s, connOnly) && open == Opened(Target(s, connOnly).value)
  }

  /** A round leaves every other pending stream as it is. */
  lemma RoundSlots(s: Sys, connOnly: bool, open: OpenAnswer, a: WriteAnswer, id: int)
    ensures var e, r := s.table.At(id).e, Round(s, connOnly, open, a).table.At(id).e;
      && (r.pendingOpen <==> e.pendingOpen && !(Opens(s, connOnly, open) && Target(s, connOnly) == Some(id)))
      && (r.pendingOpen ==> r == e)
  {
    RoundAt(s, connOnly, open, a, id);
  }

  lemma {:induction false} AfterOpenCounters(s: Sys, connOnly: bool, open: OpenAnswer, bidi: bool)
    ensures var r := AfterOpen(s, connOnly, open);
      && r.next == s.next && r.reused == s.reused
      && (r.mismatch <==> s.mismatch || (NeedsOpen(s, connOnly) && open.Opened? && !Opens(s, connOnly, open)))
      && r.lib.Next(bidi) == s.lib.Next(bidi)
           + (if NeedsOpen(s, connOnly) && open.Opened? && bidi == IsBidi(Target(s, connOnly).value) then 4 else 0)
  {
  }

  lemma {:induction false} RoundCounters(s: Sys, connOnly: bool, open: OpenAnswer, a: WriteAnswer, bidi: bool)
    ensures var r := Round(s, connOnly, open, a);
      && r.next == s.next && r.reused == s.reused
      && (r.mismatch <==> s.mismatch || (NeedsOpen(s, connOnly) && open.Opened? && !Opens(s, connOnly, open)))
      && r.lib.Next(bidi) == s.lib.Next(bidi)
           + (if NeedsOpen(s, connOnly) && open.Opened? && bidi == IsBidi(Target(s, connOnly).value) then 4 else 0)
  {
    AfterOpenCounters(s, connOnly, open, bidi);
    AnswerCounters(AfterOpen(s, connOnly, open), Source(s, connOnly, open), a, bidi);
  }

  lemma AnswerCounters(s: Sys, source: Option<int>, a: WriteAnswer, bidi: bool)
    ensures var r := AfterAnswer(s, source, a);
      r.next == s.next && r.reused == s.reused && r.mismatch == s.mismatch && r.lib.Next(bidi) == s.lib.Next(bidi)
  {
  }

  lemma RoundKeepsTracks(s: Sys, connOnly: bool, open: OpenAnswer, a: WriteAnswer)
    requires TrackInv(s) && ValidRound(s, connOnly, open, a) && !Round(s, connOnly, open, a).mismatch
    ensures TrackInv(Round(s, connOnly, open, a)) && !s.mismatch
  {
    hide Round, ValidRound;
    var r := Round(s, connOnly, open, a);
    RoundTable(s, connOnly, open, a);
    assert forall k :: r.table.Has(k) <==> s.table.Has(k);
    RoundCounters(s, connOnly, open, a, true);
    RoundCounters(s, connOnly, open, a, false);
    forall id ensures
      && (Pending(r, id) ==> Pending(s, id) && !(Opens(s, connOnly, open) && Target(s, connOnly) == Some(id)))
      && (Pending(r, id) ==> r.table.At(id).e == s.table.At(id).e)
    {
      RoundSlots(s, connOnly, open, a, id);
    }
    if !Opens(s, connOnly, open) {
      TracksFrame(s, r, true);
      TracksFrame(s, r, false);
    } else {
      var lo := Target(s, connOnly).value;
      assert Pending(s, lo);
      OpenedIsNext(s, connOnly, open, a);
      NextOwn(s.server, IsBidi(lo), lo);
      TracksAdvance(s, r, IsBidi(lo), lo);
      TracksFrame(s, r, !IsBidi(lo));
    }
  }

  lemma OpenedIsNext(s: Sys, connOnly: bool, open: OpenAnswer, a: WriteAnswer)
    requires TrackInv(s) && ValidRound(s, connOnly, open, a) && NeedsOpen(s, connOnly) && open.Opened?
    ensures var bidi := IsBidi(Target(s, connOnly).value);
      open.id == s.lib.Next(bidi) && Tracks(s, bidi) && OwnType(s.server, bidi, Target(s, connOnly).value)
      && s.lib.Next(bidi) <= Target(s, connOnly).value < Predicted(s, bidi)
  {
    var id := Target(s, connOnly).value;
    assert Pending(s, id) && Tracks(s, IsBidi(id));
  }

  // ----- whole runs -----

  lemma MismatchStays(s: Sys, st: Step)
    ensures s.mismatch ==> Apply(s, st).mismatch
  {
  }

  lemma StepKeepsTracks(s: Sys, st: Step)
    requires TrackInv(s) && Enabled(s, st) && !Apply(s, st).mismatch
    ensures TrackInv(Apply(s, st))
  {
    hide Round, TrackInv;
    if st.DoOpen? {
      OpenKeepsTracks(s, st.bidi, st.open);
    } else if st.DoRound? {
      RoundKeepsTracks(s, st.connOnly, st.open, st.answer);
    } else {
      QuietKeepsTracks(s, st);
    }
  }

  /** Whatever the application does, in whatever order: as long as no mismatch has happened,
      the counters are right about which IDs are in the table. */
  lemma {:induction false} RunKeepsTracks(server: bool, steps: seq<Step>)
    requires ValidRun(Init(server), steps) && !Run(Init(server), steps).mismatch
    ensures TrackInv(Run(Init(server), steps))
  {
    hide Apply, Enabled, TrackInv;
    if steps == [] {
      InitTracks(server);
    } else {
      var m := |steps| - 1;
      MismatchStays(Run(Init(server), steps[..m]), steps[m]);
      RunKeepsTracks(server, steps[..m]);
      StepKeepsTracks(Run(Init(server), steps[..m]), steps[m]);
    }
  }

  lemma InitTracks(server: bool)
    ensures TrackInv(Init(server))
  {
    forall bidi ensures Tracks(Init(server), bidi) {
      assert Predicted(Init(server), bidi) == Residue(server, bidi);
      assert InitLib(server).Next(bidi) == Residue(server, bidi);
    }
  }
}
