/** What holds in every reachable state of a connection. */
module ConnectionProofs {
  import opened Common
  import opened Library
  import opened StreamSpec
  import opened ConnectionSpec

  // ----- one stream -----

  /** The invariant of one stream; an ID without an entry counts as a new stream. */
  predicate StreamAt(s: Sys, id: int) {
    StreamInv(CanSend(s.server, id), s.table.At(id), s.lib.Of(id))
  }

  /** As long as no open has returned an ID twice. */
  predicate WritableAt(s: Sys, id: int) {
    !s.reused ==> WritableOpen(s.table.At(id).e)
  }

  lemma {:induction false} PickIsFirst(t: Table, order: seq<int>) returns (k: nat)
    ensures Pick(t, order).None? ==> k == |order|
    ensures Pick(t, order).Some? ==> k < |order| && order[k] == Pick(t, order).value
    ensures Pick(t, order).Some? ==> t.Has(order[k]) && HasWork(t.At(order[k]).e)
    ensures forall j :: 0 <= j < k ==> !t.Has(order[j]) || !HasWork(t.At(order[j]).e)
  {
    k := 0;
    if order != [] && !(t.Has(order[0]) && HasWork(t.At(order[0]).e)) {
      var m := PickIsFirst(t, order[1..]);
      k := m + 1;
      forall j | 0 <= j < k ensures !t.Has(order[j]) || !HasWork(t.At(order[j]).e) {
        if j > 0 {
          assert order[1..][j - 1] == order[j];
        }
      }
    }
  }

  lemma TargetHasWork(s: Sys, connOnly: bool)
    requires Target(s, connOnly).Some?
    ensures var id := Target(s, connOnly).value; s.table.Has(id) && HasWork(s.table.At(id).e)
  {
    var _ := PickIsFirst(s.table, s.table.order);
  }

  /** Whether this round offers bytes of stream `id` to the library and hears about them. */
  predicate Offered(s: Sys, connOnly: bool, open: OpenAnswer, a: WriteAnswer, id: int) {
    !OpenThrows(s, connOnly, open) && Source(s, connOnly, open) == Some(id) && !a.Stopped? && !a.Fatal?
  }

  /** The entry once a pending open of it has succeeded in this round, if there is one. */
  function Unblocked(s: Sys, connOnly: bool, open: OpenAnswer, id: int): Slot {
    var x := s.table.At(id);
    if Target(s, connOnly) == Some(id) && x.e.pendingOpen && open == Opened(id)
    then x.(e := x.e.(pendingOpen := false)) else x
  }

  lemma AfterOpenAt(s: Sys, connOnly: bool, open: OpenAnswer, id: int)
    ensures AfterOpen(s, connOnly, open).table.At(id) == Unblocked(s, connOnly, open, id)
  {
  }

  lemma OfferFromAt(s: Sys, source: int, a: WriteAnswer, id: int)
    ensures OfferFrom(s, source, a).table.At(id) == if id == source then Offer(s.table.At(id), a) else s.table.At(id)
    ensures var ls, e := s.lib.Of(id), s.table.At(id).e;
      OfferFrom(s, source, a).lib.Of(id) ==
        if id == source then AfterWrite(ls, Unsent(e), e.finPending, a) else ls
  {
  }

  lemma AnswerIs(s: Sys, source: Option<int>, a: WriteAnswer)
    ensures AfterAnswer(s, source, a) ==
      if a.Stopped? then Sync(s)
      else if a.Fatal? then s.(lastError := ByLibrary)
      else if source.None? then s
      else OfferFrom(s, source.value, a)
  {
  }

  lemma OfferFromTable(s: Sys, source: int, a: WriteAnswer)
    requires s.table.Has(source)
    ensures OfferFrom(s, source, a).table.order == s.table.order
    ensures OfferFrom(s, source, a).table.streams.Keys == s.table.streams.Keys
  {
    hide Offer, OfferNotifies, AfterWrite;
  }

  /** All that a round does to a stream: the one offered gets the answer; the others are
      at most opened. */
  lemma RoundAt(s: Sys, connOnly: bool, open: OpenAnswer, a: WriteAnswer, id: int)
    ensures Round(s, connOnly, open, a).table.At(id) ==
      if Offered(s, connOnly, open, a, id) then Offer(Unblocked(s, connOnly, open, id), a)
      else Unblocked(s, connOnly, open, id)
    ensures var ls, e := s.lib.Of(id), s.table.At(id).e;
      Round(s, connOnly, open, a).lib.Of(id) ==
        if Offered(s, connOnly, open, a, id) then AfterWrite(ls, Unsent(e), e.finPending, a) else ls
  {
    hide AfterOpen, OfferFrom, Offer, AfterWrite, HasWork, Pick;
    AfterOpenAt(s, connOnly, open, id);
    if Source(s, connOnly, open).Some? {
      OfferFromAt(AfterOpen(s, connOnly, open), Source(s, connOnly, open).value, a, id);
    }
  }

  /** What any other step does to a stream, seen from that stream. */
  function SlotAfter(s: Sys, st: Step, id: int): Slot {
    var x := s.table.At(id);
    match st
    case DoWrite(k, data) => if k == id && WriteAllowed(s, id) then Write(x, data) else x
    case DoEnd(k, final) => if k == id && EndAllowed(s, id) then End(x, final) else x
    case DoReset(k, _, ok) => if k == id && ResetAllowed(s, id, ok) then Reset(x) else x
    case DoRead(k, length) => if k == id && ReadAllowed(s, id, length) then Read(x, length) else x
    case DoOpen(bidi, a) => if OpenAllowed(s, a) && OpenId(s, bidi, a) == id then OpenSlot(x, a.IdBlocked?) else x
    case OnStreamOpen(k) =>
      if k == id then x.(e := x.e.(writable := IsLocal(s.server, id) || IsBidi(id))) else x
    case OnData(k, data, fin) => if k == id then Receive(x, data, fin) else x
    case OnStreamClose(k, _) => if k == id then CloseByPeer(x) else x
    case OnStreamReset(k, _) => if k == id then ResetByPeer(x) else x
    case OnAcked(k) => if k == id && s.table.Has(id) then Acked(x) else x
    case _ => x
  }

  /** Every step but an iteration of the drain loop changes the named stream only, and what
      the library has of no stream. */
  lemma StepAt(s: Sys, st: Step, id: int)
    requires !st.DoRound?
    ensures Apply(s, st).table.At(id) == SlotAfter(s, st, id)
    ensures Apply(s, st).lib.Of(id) == s.lib.Of(id)
  {
    hide Apply, SlotAfter;
    if IsCallback(st) {
      CallbackAt(s, st, id);
    } else {
      CallAt(s, st, id);
    }
  }

  lemma CallbackAt(s: Sys, st: Step, id: int)
    requires IsCallback(st)
    ensures Apply(s, st).table.At(id) == SlotAfter(s, st, id)
    ensures Apply(s, st).lib.Of(id) == s.lib.Of(id)
  {
    hide Receive, Acked, CloseByPeer, ResetByPeer, ReceiveNotifies, AckIgnored;
  }

  lemma CallAt(s: Sys, st: Step, id: int)
    requires !IsCallback(st) && !st.DoRound?
    ensures Apply(s, st).table.At(id) == SlotAfter(s, st, id)
    ensures Apply(s, st).lib.Of(id) == s.lib.Of(id)
  {
    hide Write, End, Read, Reset, OpenSlot, Predicted, SyncLife, SyncMail, CString;
  }

  lemma ApplyRound(s: Sys, st: Step)
    requires st.DoRound?
    ensures Apply(s, st) == Round(s, st.connOnly, st.open, st.answer)
    ensures Enabled(s, st) == (!CloseDue(s) && ValidRound(s, st.connOnly, st.open, st.answer))
  {
  }

  /** A round adds no entry and keeps the table order. */
  lemma {:induction false} RoundTable(s: Sys, connOnly: bool, open: OpenAnswer, a: WriteAnswer)
    ensures Round(s, connOnly, open, a).table.order == s.table.order
    ensures Round(s, connOnly, open, a).table.streams.Keys == s.table.streams.Keys
  {
    hide AfterOpen, OfferFrom, HasWork, Pick;
    AfterOpenTable(s, connOnly, open);
    if Source(s, connOnly, open).Some? {
      TargetHasWork(s, connOnly);
      OfferFromTable(AfterOpen(s, connOnly, open), Source(s, connOnly, open).value, a);
    }
  }

  lemma AfterOpenTable(s: Sys, connOnly: bool, open: OpenAnswer)
    ensures AfterOpen(s, connOnly, open).table.order == s.table.order
    ensures AfterOpen(s, connOnly, open).table.streams.Keys == s.table.streams.Keys
  {
    if Target(s, connOnly).Some? {
      TargetHasWork(s, connOnly);
    }
  }

  lemma OfferedValid(s: Sys, connOnly: bool, open: OpenAnswer, a: WriteAnswer, id: int)
    requires ValidRound(s, connOnly, open, a) && Offered(s, connOnly, open, a, id)
    ensures ValidWrite(s.lib, id, Unsent(s.table.At(id).e), a)
    ensures s.table.Has(id) && HasWork(s.table.At(id).e)
  {
    AfterOpenAt(s, connOnly, open, id);
    TargetHasWork(s, connOnly);
  }

  lemma RoundKeepsStream(s: Sys, connOnly: bool, open: OpenAnswer, a: WriteAnswer, id: int)
    requires StreamAt(s, id) && ValidRound(s, connOnly, open, a)
    ensures StreamAt(Round(s, connOnly, open, a), id)
  {
    hide Round, ValidRound, ValidWrite, Offer, AfterWrite, StreamInv;
    RoundAt(s, connOnly, open, a, id);
    OpenedKeepsInv(CanSend(s.server, id), s.table.At(id), s.lib.Of(id), false);
    assert StreamInv(CanSend(s.server, id), Unblocked(s, connOnly, open, id), s.lib.Of(id));
    if Offered(s, connOnly, open, a, id) {
      OfferedValid(s, connOnly, open, a, id);
      OfferKeepsInv(CanSend(s.server, id), Unblocked(s, connOnly, open, id), s.lib, id, a);
    }
  }

  lemma PutPostKeepsStream(s: Sys, k: int, x: Slot, cond: bool, e: Event, id: int)
    requires StreamAt(s, id)
    requires k == id ==> StreamInv(CanSend(s.server, id), x, s.lib.Of(id))
    ensures StreamAt(PutPost(s, k, x, cond, e), id) && StreamAt(Put(s, k, x), id)
  {
  }

  lemma SendCallKeepsStream(s: Sys, st: Step, id: int)
    requires StreamAt(s, id) && (st.DoWrite? || st.DoEnd?)
    ensures StreamAt(Apply(s, st), id)
  {
    if st.id == id {
      if st.DoWrite? && WriteAllowed(s, id) {
        WriteKeepsInv(s.table.At(id), s.lib.Of(id), st.data);
      } else if st.DoEnd? && EndAllowed(s, id) {
        EndKeepsInv(s.table.At(id), s.lib.Of(id), st.final);
      }
    }
  }

  lemma ReadKeepsStream(s: Sys, k: int, length: int, id: int)
    requires StreamAt(s, id)
    ensures StreamAt(Apply(s, DoRead(k, length)), id)
  {
    if length > 0 {
      ReadKeepsInv(CanSend(s.server, id), s.table.At(id), s.lib.Of(id), length);
    }
  }

  lemma ResetKeepsStream(s: Sys, k: int, code: int, ok: bool, id: int)
    requires StreamAt(s, id)
    ensures StreamAt(Apply(s, DoReset(k, code, ok)), id)
  {
    var x := s.table.At(k);
    if k == id {
      ResetKeepsInv(CanSend(s.server, id), x, s.lib.Of(id));
    }
    PutPostKeepsStream(s, k, Reset(x), true, Event(StreamReset, k, code, false, None), id);
  }

  lemma OpenKeepsStream(s: Sys, bidi: bool, a: OpenAnswer, id: int)
    requires StreamAt(s, id)
    ensures StreamAt(Open(s, bidi, a), id)
  {
    OpenedKeepsInv(CanSend(s.server, id), s.table.At(id), s.lib.Of(id), a.IdBlocked?);
  }

  lemma StreamOpenKeepsStream(s: Sys, k: int, id: int)
    requires StreamAt(s, id) && Enabled(s, OnStreamOpen(k))
    requires s.lib.streams.Keys <= s.table.streams.Keys
    ensures StreamAt(Apply(s, OnStreamOpen(k)), id)
  {
    if k == id {
      NewStreamInv(CanSend(s.server, id));
    }
  }

  lemma DataKeepsStream(s: Sys, k: int, data: Bytes, fin: bool, id: int)
    requires StreamAt(s, id)
    ensures StreamAt(Apply(s, OnData(k, data, fin)), id)
  {
    var x := s.table.At(k);
    if k == id {
      ReceiveKeepsInv(CanSend(s.server, id), x, s.lib.Of(id), data, fin);
    }
    PutPostKeepsStream(s, k, Receive(x, data, fin), ReceiveNotifies(x, data), OnStream(StreamReadable, k, true), id);
  }

  lemma AckedKeepsStream(s: Sys, k: int, id: int)
    requires StreamAt(s, id)
    ensures StreamAt(Apply(s, OnAcked(k)), id)
  {
    var x := s.table.At(k);
    if k == id {
      AckedKeepsInv(CanSend(s.server, id), x, s.lib.Of(id));
    }
    PutPostKeepsStream(s, k, Acked(x), !AckIgnored(x.e), OnStream(StreamWritable, k, true), id);
  }

  lemma PeerEndKeepsStream(s: Sys, k: int, code: int, id: int)
    requires StreamAt(s, id)
    ensures StreamAt(Apply(s, OnStreamClose(k, code)), id)
    ensures StreamAt(Apply(s, OnStreamReset(k, code)), id)
  {
    hide StreamInv, CloseByPeer, ResetByPeer;
    var x := s.table.At(k);
    if k == id {
      PeerEndKeepsInv(CanSend(s.server, id), x, s.lib.Of(id));
    }
    PutPostKeepsStream(s, k, CloseByPeer(x), true, Event(StreamClosed, k, code, true, None), id);
    PutPostKeepsStream(s, k, ResetByPeer(x), true, Event(StreamReset, k, code, true, None), id);
  }

  lemma StepKeepsStream(s: Sys, st: Step, id: int)
    requires StreamAt(s, id) && Enabled(s, st)
    requires s.lib.streams.Keys <= s.table.streams.Keys
    ensures StreamAt(Apply(s, st), id)
  {
    hide Round, Open, StreamInv;
    match st
    case DoWrite(_, _) => SendCallKeepsStream(s, st, id);
    case DoEnd(_, _) => SendCallKeepsStream(s, st, id);
    case DoRead(k, length) => ReadKeepsStream(s, k, length, id);
    case DoReset(k, code, ok) => ResetKeepsStream(s, k, code, ok, id);
    case DoOpen(bidi, open) => OpenKeepsStream(s, bidi, open, id);
    case DoRound(connOnly, open, answer) => RoundKeepsStream(s, connOnly, open, answer, id);
    case OnStreamOpen(k) => StreamOpenKeepsStream(s, k, id);
    case OnData(k, data, fin) => DataKeepsStream(s, k, data, fin, id);
    case OnStreamClose(k, code) => PeerEndKeepsStream(s, k, code, id);
    case OnStreamReset(k, code) => PeerEndKeepsStream(s, k, code, id);
    case OnAcked(k) => AckedKeepsStream(s, k, id);
    case _ =>
  }

  lemma OpenRefused(s: Sys, bidi: bool, a: OpenAnswer)
    requires !OpenAllowed(s, a)
    ensures Open(s, bidi, a) == s
  {
  }

  // ----- the connection's life -----

  function Count(log: seq<Event>, kind: EventKind): nat {
    if log == [] then 0
    else Count(log[..|log| - 1], kind) + Once(log[|log| - 1].kind == kind)
  }

  function Once(b: bool): nat {
    if b then 1 else 0
  }

  predicate Lifecycle(l: Life) {
    && l.closed == l.closeEventEmitted
    && l.draining == l.drainingEventEmitted
    && (l.draining ==> l.closed)
    && (l.closePacketSent ==> l.closeRequested)
    && (l.closeRequested ==> l.closed)
  }

  /** Every event is queued or handed out, in order; and how often each of the three
      connection events has been raised. */
  predicate MailInv(m: Mail, l: Life) {
    && m.handed + m.events == m.log
    && Count(m.log, HandshakeCompleted) == Once(l.established)
    && Count(m.log, ConnectionClosed) == Once(l.closed)
    && Count(m.log, ConnectionDraining) == Once(l.draining)
  }

  predicate IsConnectionKind(kind: EventKind) {
    kind == HandshakeCompleted || kind == ConnectionClosed || kind == ConnectionDraining
  }

  lemma PostCounts(m: Mail, cond: bool, e: Event)
    requires m.handed + m.events == m.log
    ensures var r := m.PostIf(cond, e); r.handed + r.events == r.log
    ensures Count(m.PostIf(cond, e).log, HandshakeCompleted)
      == Count(m.log, HandshakeCompleted) + Once(cond && e.kind == HandshakeCompleted)
    ensures Count(m.PostIf(cond, e).log, ConnectionClosed)
      == Count(m.log, ConnectionClosed) + Once(cond && e.kind == ConnectionClosed)
    ensures Count(m.PostIf(cond, e).log, ConnectionDraining)
      == Count(m.log, ConnectionDraining) + Once(cond && e.kind == ConnectionDraining)
  {
    assert (m.log + [e])[..|m.log|] == m.log;
    assert m.handed + (m.events + [e]) == (m.handed + m.events) + [e];
  }

  lemma PostStreamEvent(m: Mail, l: Life, cond: bool, e: Event)
    requires MailInv(m, l) && !IsConnectionKind(e.kind)
    ensures MailInv(m.PostIf(cond, e), l)
  {
    PostCounts(m, cond, e);
  }

  lemma SyncKeepsMail(m: Mail, l: Life, first: bool, e1: Event, second: bool, e2: Event)
    requires MailInv(m, l) && e1.kind == ConnectionDraining && e2.kind == ConnectionClosed
    requires (first ==> !l.draining) && (second ==> !l.closed)
    ensures MailInv(m.PostIf(first, e1).PostIf(second, e2), l.(draining := l.draining || first, closed := l.closed || second))
  {
    hide Count;
    PostCounts(m, first, e1);
    PostCounts(m.PostIf(first, e1), second, e2);
  }

  lemma SyncKeepsLife(s: Sys)
    requires Lifecycle(s.life) && MailInv(s.mail, s.life)
    ensures Lifecycle(Sync(s).life) && MailInv(Sync(s).mail, Sync(s).life)
  {
    hide Count;
    SyncKeepsMail(s.mail, s.life,
                  s.lib.draining && !s.life.drainingEventEmitted, Event(ConnectionDraining, -1, 0, true, None),
                  (s.lib.closing || s.lib.draining) && !s.life.closeEventEmitted,
                  Event(ConnectionClosed, -1, s.lib.errorCode, true, None));
  }

  lemma OpenKeepsMail(s: Sys, bidi: bool, open: OpenAnswer)
    requires MailInv(s.mail, s.life)
    ensures MailInv(Open(s, bidi, open).mail, s.life) && Open(s, bidi, open).life == s.life
  {
    var id := OpenId(s, bidi, open);
    var e := OnStream(StreamOpened, id, false);
    PostStreamEvent(s.mail, s.life, true, e);
    PostStreamEvent(s.mail.Post(e), s.life, true, OnStream(StreamWritable, id, false));
  }

  /** These steps raise events about streams only. */
  lemma StreamEventsKeepMail(s: Sys, st: Step)
    requires MailInv(s.mail, s.life)
    requires st.DoReset? || st.OnStreamOpen? || st.OnData? || st.OnStreamClose? || st.OnStreamReset? || st.OnAcked?
    ensures MailInv(Apply(s, st).mail, s.life) && Apply(s, st).life == s.life
  {
    hide Receive, Acked, Reset, ResetByPeer, CloseByPeer, MailInv;
    var x := s.table.At(st.id);
    if st.OnData? {
      PostStreamEvent(s.mail, s.life, ReceiveNotifies(x, st.data), OnStream(StreamReadable, st.id, true));
    } else if st.OnAcked? {
      PostStreamEvent(s.mail, s.life, !AckIgnored(x.e), OnStream(StreamWritable, st.id, true));
    } else {
      var e := if st.DoReset? then Event(StreamReset, st.id, st.code, false, None)
        else if st.OnStreamOpen? then OnStream(StreamOpened, st.id, true)
        else if st.OnStreamClose? then Event(StreamClosed, st.id, st.code, true, None)
        else Event(StreamReset, st.id, st.code, true, None);
      PostStreamEvent(s.mail, s.life, true, e);
    }
  }

  function OfferMail(s: Sys, connOnly: bool, open: OpenAnswer, a: WriteAnswer): Mail {
    match Source(s, connOnly, open)
    case None => s.mail
    case Some(id) => s.mail.PostIf(OfferNotifies(Unblocked(s, connOnly, open, id), a),
                                   OnStream(StreamWritable, id, false))
  }

  /** What a round does to the flags and the event queue. */
  lemma RoundLife(s: Sys, connOnly: bool, open: OpenAnswer, a: WriteAnswer)
    ensures var r := Round(s, connOnly, open, a);
      if OpenThrows(s, connOnly, open) then r.life == s.life && r.mail == s.mail
      else if a.Stopped? then r.life == Sync(s).life && r.mail == Sync(s).mail
      else r.life == s.life && r.mail == OfferMail(s, connOnly, open, a)
  {
    if Source(s, connOnly, open).Some? {
      AfterOpenAt(s, connOnly, open, Source(s, connOnly, open).value);
    }
  }

  lemma RoundKeepsLife(s: Sys, connOnly: bool, open: OpenAnswer, a: WriteAnswer)
    requires Lifecycle(s.life) && MailInv(s.mail, s.life)
    ensures Lifecycle(Round(s, connOnly, open, a).life)
    ensures MailInv(Round(s, connOnly, open, a).mail, Round(s, connOnly, open, a).life)
  {
    RoundLife(s, connOnly, open, a);
    if a.Stopped? {
      SyncKeepsLife(s);
    } else if Source(s, connOnly, open).Some? {
      var id := Source(s, connOnly, open).value;
      PostStreamEvent(s.mail, s.life, OfferNotifies(Unblocked(s, connOnly, open, id), a),
                      OnStream(StreamWritable, id, false));
    }
  }

  lemma CloseKeepsLife(s: Sys, code: int, reason: Option<string>)
    requires Lifecycle(s.life) && MailInv(s.mail, s.life)
    ensures Lifecycle(Close(s, code, reason).life)
    ensures MailInv(Close(s, code, reason).mail, Close(s, code, reason).life)
  {
    var text := if reason.Some? then Some(CString(reason.value)) else None;
    PostCounts(s.mail, !s.life.closeEventEmitted, Event(ConnectionClosed, -1, code, false, text));
  }

  lemma WriteCloseKeepsLife(s: Sys, a: CloseAnswer)
    requires Lifecycle(s.life) && MailInv(s.mail, s.life) && CloseDue(s)
    ensures Lifecycle(WriteClose(s, a).life)
    ensures MailInv(WriteClose(s, a).mail, WriteClose(s, a).life)
  {
    if a.CloseStopped? {
      SyncKeepsLife(s.(life := s.life.(closePacketSent := true)));
    }
  }

  lemma HandshakeKeepsLife(s: Sys)
    requires Lifecycle(s.life) && MailInv(s.mail, s.life)
    ensures Lifecycle(Apply(s, OnHandshake).life)
    ensures MailInv(Apply(s, OnHandshake).mail, Apply(s, OnHandshake).life)
  {
    PostCounts(s.mail, !s.life.established, Event(HandshakeCompleted, -1, 0, false, None));
  }

  lemma StepKeepsLife(s: Sys, st: Step)
    requires Lifecycle(s.life) && MailInv(s.mail, s.life) && Enabled(s, st)
    ensures Lifecycle(Apply(s, st).life) && MailInv(Apply(s, st).mail, Apply(s, st).life)
  {
    hide Round;
    if st.DoOpen? {
      OpenKeepsMail(s, st.bidi, st.open);
    } else if st.DoClose? {
      CloseKeepsLife(s, st.code, st.reason);
    } else if st.DoWriteClose? {
      WriteCloseKeepsLife(s, st.close);
    } else if st.DoRound? {
      RoundKeepsLife(s, st.connOnly, st.open, st.answer);
    } else if st.DoSync? {
      SyncKeepsLife(s);
    } else if st.OnHandshake? {
      HandshakeKeepsLife(s);
    } else if st.DoTakeEvents? {
      assert (s.mail.handed + s.mail.events) + [] == s.mail.log;
    } else if !st.DoWrite? && !st.DoEnd? && !st.DoRead? && !st.OnPeriod? && !st.DoRecvFailed? && !st.DoTimerFailed? {
      StreamEventsKeepMail(s, st);
    }
  }

  // ----- the stream table -----

  ghost predicate TableInv(s: Sys) {
    && NoDup(s.table.order)
    && (forall id :: id in s.table.order <==> id in s.table.streams)
    && s.lib.streams.Keys <= s.table.streams.Keys
  }

  lemma PutKeepsOrder(t: Table, id: int, x: Slot)
    requires NoDup(t.order) && forall k :: k in t.order <==> k in t.streams
    ensures NoDup(t.Put(id, x).order)
    ensures forall k :: k in t.Put(id, x).order <==> k in t.Put(id, x).streams
    ensures t.streams.Keys <= t.Put(id, x).streams.Keys
  {
  }

  lemma RoundLibStreams(s: Sys, connOnly: bool, open: OpenAnswer, a: WriteAnswer)
    ensures Round(s, connOnly, open, a).lib.streams.Keys <= s.lib.streams.Keys + s.table.streams.Keys
  {
    if Target(s, connOnly).Some? {
      TargetHasWork(s, connOnly);
    }
  }

  /** A change of one entry keeps the table in order. */
  lemma PutKeepsTable(s: Sys, t: Table, lib: Lib, id: int)
    requires TableInv(s) && t == s.table.Put(id, t.At(id)) && lib.streams == s.lib.streams
    ensures NoDup(t.order) && (forall k :: k in t.order <==> k in t.streams) && lib.streams.Keys <= t.streams.Keys
  {
    PutKeepsOrder(s.table, id, t.At(id));
  }

  lemma StreamStepKeepsTable(s: Sys, st: Step)
    requires TableInv(s)
    requires st.DoWrite? || st.DoEnd? || st.DoReset? || st.DoRead? || st.OnStreamOpen? || st.OnData?
      || st.OnStreamClose? || st.OnStreamReset? || st.OnAcked?
    ensures TableInv(Apply(s, st))
  {
    var r := Apply(s, st);
    if r.table != s.table {
      PutKeepsTable(s, r.table, r.lib, st.id);
    }
  }

  lemma OpenKeepsTable(s: Sys, bidi: bool, a: OpenAnswer)
    requires TableInv(s)
    ensures TableInv(Open(s, bidi, a))
  {
    if OpenAllowed(s, a) {
      var r := Open(s, bidi, a);
      PutKeepsTable(s, r.table, r.lib, OpenId(s, bidi, a));
    }
  }

  lemma StepKeepsTable(s: Sys, st: Step)
    requires TableInv(s)
    ensures TableInv(Apply(s, st))
  {
    hide Round;
    if st.DoRound? {
      RoundTable(s, st.connOnly, st.open, st.answer);
      RoundLibStreams(s, st.connOnly, st.open, st.answer);
    } else if st.DoOpen? {
      OpenKeepsTable(s, st.bidi, st.open);
    } else if st.DoWrite? || st.DoEnd? || st.DoReset? || st.DoRead? || st.OnStreamOpen? || st.OnData?
      || st.OnStreamClose? || st.OnStreamReset? || st.OnAcked? {
      StreamStepKeepsTable(s, st);
    } else {
      assert Apply(s, st).table == s.table && Apply(s, st).lib.streams == s.lib.streams;
    }
  }

  // ----- writable streams -----

  lemma RoundKeepsWritable(s: Sys, connOnly: bool, open: OpenAnswer, a: WriteAnswer, id: int)
    requires StreamAt(s, id) && WritableAt(s, id) && ValidRound(s, connOnly, open, a)
    ensures WritableAt(Round(s, connOnly, open, a), id)
  {
    RoundAt(s, connOnly, open, a, id);
    if Offered(s, connOnly, open, a, id) && !a.ShutWr? {
      var e := Unblocked(s, connOnly, open, id).e;
      OfferedValid(s, connOnly, open, a, id);
      UpdateTxConsumes(e, a.wdatalen, e.finPending, a.Packet?);
    }
  }

  lemma OthersKeepWritable(s: Sys, st: Step, id: int)
    requires StreamAt(s, id) && WritableAt(s, id) && Enabled(s, st) && !st.DoRound?
    ensures WritableAt(Apply(s, st), id)
  {
    hide StreamInv;
    StepAt(s, st, id);
  }

  lemma StepKeepsWritable(s: Sys, st: Step, id: int)
    requires StreamAt(s, id) && WritableAt(s, id) && Enabled(s, st)
    ensures WritableAt(Apply(s, st), id)
  {
    hide Apply, Enabled, Round;
    if st.DoRound? {
      ApplyRound(s, st);
      RoundKeepsWritable(s, st.connOnly, st.open, st.answer, id);
    } else {
      OthersKeepWritable(s, st, id);
    }
  }

  // ----- every reachable state -----

  ghost predicate Inv(s: Sys) {
    && TableInv(s)
    && Lifecycle(s.life)
    && MailInv(s.mail, s.life)
    && forall id :: StreamAt(s, id) && WritableAt(s, id)
  }

  lemma StepKeepsInv(s: Sys, st: Step)
    requires Inv(s) && Enabled(s, st)
    ensures Inv(Apply(s, st))
  {
    StepKeepsTable(s, st);
    StepKeepsLife(s, st);
    forall id ensures StreamAt(Apply(s, st), id) && WritableAt(Apply(s, st), id) {
      StepKeepsStream(s, st, id);
      StepKeepsWritable(s, st, id);
    }
  }

  lemma InitInv(server: bool)
    ensures Inv(Init(server))
  {
    forall id ensures StreamAt(Init(server), id) {
      NewStreamInv(CanSend(server, id));
    }
  }

  /** The invariant holds after any run of any steps in any order. */
  lemma {:induction false} RunKeepsInv(s: Sys, steps: seq<Step>)
    requires Inv(s) && ValidRun(s, steps)
    ensures Inv(Run(s, steps))
  {
    if steps != [] {
      var m := |steps| - 1;
      RunKeepsInv(s, steps[..m]);
      StepKeepsInv(Run(s, steps[..m]), steps[m]);
    }
  }
}
