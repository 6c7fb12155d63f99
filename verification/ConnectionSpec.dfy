/** A connection as a state machine: what every API call, every callback and every
    iteration of the drain loop does to the whole state, as functions. A run is any
    interleaving of these steps in which the library keeps its contract. */
module ConnectionSpec {
  import opened Common
  import opened Library
  import opened StreamSpec
  import Deadlines

  datatype EventKind =
    | HandshakeCompleted | ConnectionClosed | ConnectionDraining
    | StreamOpened | StreamReadable | StreamWritable | StreamClosed | StreamReset

  datatype Event = Event(kind: EventKind, stream: int, code: int, byPeer: bool, reason: Option<string>)

  /** The event queue, with every event ever raised and every event handed out. */
  datatype Mail = Mail(events: seq<Event>, log: seq<Event>, handed: seq<Event>) {
    function Post(e: Event): Mail {
      Mail(events + [e], log + [e], handed)
    }

    function PostIf(cond: bool, e: Event): Mail {
      if cond then Post(e) else this
    }

    function HandOver(): Mail {
      Mail([], log, handed + events)
    }
  }

  /** The stream table: entries by ID, and the order in which they were inserted. */
  datatype Table = Table(order: seq<int>, streams: map<int, Slot>) {
    predicate Has(id: int) {
      id in streams
    }

    /** The entry, or the new entry that a lookup would create. */
    function At(id: int): Slot {
      if id in streams then streams[id] else NEW_SLOT
    }

    function Put(id: int, x: Slot): Table {
      Table(if id in streams then order else order + [id], streams[id := x])
    }
  }

  /** The connection's flags. */
  datatype Life = Life(
    established: bool, draining: bool, closed: bool,
    closeRequested: bool, closePacketSent: bool,
    closeEventEmitted: bool, drainingEventEmitted: bool)

  /** The counters that predict the next local stream IDs. */
  datatype Counters = Counters(bidi: int, uni: int) {
    function Get(b: bool): int {
      if b then bidi else uni
    }

    function Set(b: bool, id: int): Counters {
      if b then Counters(id, uni) else Counters(bidi, id)
    }
  }

  /** php_quic_connection and the library behind it. The last two fields record whether
      the library ever opened another ID than the predicted one, and whether an open ever
      returned an ID that was already in the table. */
  datatype Sys = Sys(
    server: bool, table: Table, next: Counters, life: Life, mail: Mail, lib: Lib,
    lastError: CloseError, mismatch: bool, reused: bool)

  function Init(server: bool): Sys {
    Sys(server, Table([], map[]), Counters(0, 2),
        Life(false, false, false, false, false, false, false),
        Mail([], [], []), InitLib(server), NoError, false, false)
  }

  // ----- small pieces of state change -----

  function Put(s: Sys, id: int, x: Slot): Sys {
    s.(table := s.table.Put(id, x))
  }

  function OnStream(kind: EventKind, id: int, byPeer: bool): Event {
    Event(kind, id, 0, byPeer, None)
  }

  /** Put the entry back and raise an event about it. */
  function PutPost(s: Sys, id: int, x: Slot, cond: bool, e: Event): Sys {
    s.(table := s.table.Put(id, x), mail := s.mail.PostIf(cond, e))
  }

  /** sync_state: mirrors the library's closing and draining periods. */
  function Sync(s: Sys): Sys {
    s.(life := SyncLife(s.life, s.lib), mail := SyncMail(s.life, s.lib, s.mail))
  }

  function SyncLife(l: Life, lib: Lib): Life {
    l.(draining := l.draining || lib.draining,
       drainingEventEmitted := l.drainingEventEmitted || lib.draining,
       closed := l.closed || lib.closing || lib.draining,
       closeEventEmitted := l.closeEventEmitted || lib.closing || lib.draining)
  }

  function SyncMail(l: Life, lib: Lib, m: Mail): Mail {
    m.PostIf(lib.draining && !l.drainingEventEmitted, Event(ConnectionDraining, -1, 0, true, None))
     .PostIf((lib.closing || lib.draining) && !l.closeEventEmitted,
             Event(ConnectionClosed, -1, lib.errorCode, true, None))
  }

  // ----- stream calls -----

  predicate CanSend(server: bool, id: int) {
    !RemoteUni(server, id)
  }

  predicate WriteAllowed(s: Sys, id: int) {
    s.table.Has(id) && CanSend(s.server, id) && !Ended(s.table.At(id).e)
  }

  predicate EndAllowed(s: Sys, id: int) {
    s.table.Has(id) && CanSend(s.server, id)
  }

  predicate ResetAllowed(s: Sys, id: int, shutdownOk: bool) {
    s.table.Has(id) && (s.life.closed || shutdownOk)
  }

  predicate ReadAllowed(s: Sys, id: int, length: int) {
    length > 0 && s.table.Has(id)
  }

  // ----- opening streams -----

  /** ensure_next_stream_id: the counter, moved to the side's first ID if it is not one
      of the side's IDs. */
  function EnsureNext(server: bool, bidi: bool, next: int): int {
    if next < Residue(server, bidi) || next % 4 != Residue(server, bidi)
    then Residue(server, bidi) else next
  }

  function Predicted(s: Sys, bidi: bool): int {
    EnsureNext(s.server, bidi, s.next.Get(bidi))
  }

  predicate OpenAllowed(s: Sys, a: OpenAnswer) {
    !s.life.closed && !a.OpenFailed?
  }

  function OpenId(s: Sys, bidi: bool, a: OpenAnswer): int {
    if a.Opened? then a.id else Predicted(s, bidi)
  }

  function OpenSlot(x: Slot, pending: bool): Slot {
    x.(e := x.e.(pendingOpen := pending, writable := true))
  }

  function Open(s: Sys, bidi: bool, a: OpenAnswer): Sys {
    if !OpenAllowed(s, a) then s else
    var id := OpenId(s, bidi, a);
    s.(table := s.table.Put(id, OpenSlot(s.table.At(id), a.IdBlocked?)),
       next := s.next.Set(bidi, if id >= Predicted(s, bidi) then id + 4 else Predicted(s, bidi)),
       mail := s.mail.Post(OnStream(StreamOpened, id, false)).Post(OnStream(StreamWritable, id, false)),
       lib := if a.Opened? then s.lib.Advance(bidi) else s.lib,
       reused := s.reused || s.table.Has(id))
  }

  // ----- one iteration of the drain loop -----

  /** pick_tx_stream: the first entry in table order that has work. */
  function Pick(t: Table, order: seq<int>): Option<int> {
    if order == [] then None
    else if t.Has(order[0]) && HasWork(t.At(order[0]).e) then Some(order[0])
    else Pick(t, order[1..])
  }

  function Target(s: Sys, connOnly: bool): Option<int> {
    if connOnly then None else Pick(s.table, s.table.order)
  }

  /** The picked entry must first be opened. */
  predicate NeedsOpen(s: Sys, connOnly: bool) {
    Target(s, connOnly).Some? && s.table.At(Target(s, connOnly).value).e.pendingOpen
  }

  predicate OpenThrows(s: Sys, connOnly: bool, open: OpenAnswer) {
    NeedsOpen(s, connOnly)
      && (open.OpenFailed? || (open.Opened? && open.id != Target(s, connOnly).value))
  }

  function AfterOpen(s: Sys, connOnly: bool, open: OpenAnswer): (r: Sys)
    ensures r.server == s.server && r.life == s.life && r.mail == s.mail && r.next == s.next
    ensures r.reused == s.reused && r.lib.streams == s.lib.streams
    ensures r.lib.closing == s.lib.closing && r.lib.draining == s.lib.draining
    ensures r.lib.errorCode == s.lib.errorCode
  {
    if !NeedsOpen(s, connOnly) || !open.Opened? then s
    else OpenPending(s, Target(s, connOnly).value, open.id)
  }

  /** The library opened a stream for the pending entry `id`. */
  function OpenPending(s: Sys, id: int, actual: int): Sys {
    var x := s.table.At(id);
    if actual != id then s.(lib := s.lib.Advance(IsBidi(id)), mismatch := true)
    else s.(lib := s.lib.Advance(IsBidi(id)),
            table := s.table.Put(id, x.(e := x.e.(pendingOpen := false))))
  }

  /** The entry whose data goes with the write; none after a blocked open. */
  function Source(s: Sys, connOnly: bool, open: OpenAnswer): Option<int> {
    if NeedsOpen(s, connOnly) && open.IdBlocked? then None else Target(s, connOnly)
  }

  function OfferFrom(s: Sys, id: int, a: WriteAnswer): Sys {
    var x := s.table.At(id);
    s.(table := s.table.Put(id, Offer(x, a)),
       lib := LibAfterWrite(s.lib, id, Unsent(x.e), x.e.finPending, a),
       mail := s.mail.PostIf(OfferNotifies(x, a), OnStream(StreamWritable, id, false)))
  }

  function AfterAnswer(s: Sys, source: Option<int>, a: WriteAnswer): Sys {
    if a.Stopped? then Sync(s)
    else if a.Fatal? then s.(lastError := ByLibrary)
    else if source.None? then s
    else OfferFrom(s, source.value, a)
  }

  function Round(s: Sys, connOnly: bool, open: OpenAnswer, a: WriteAnswer): (r: Sys)
    ensures r.server == s.server
  {
    var s1 := AfterOpen(s, connOnly, open);
    if OpenThrows(s, connOnly, open) then s1
    else AfterAnswer(s1, Source(s, connOnly, open), a)
  }

  /** What the loop does next. */
  datatype Flow = Again(connOnly: bool) | Collect | Stop | Throw

  function RoundFlow(s: Sys, connOnly: bool, open: OpenAnswer, a: WriteAnswer): Flow {
    if OpenThrows(s, connOnly, open) then Throw else
    match a
    case Packet(_, _) => Collect
    case Zero(_) => Stop
    case WriteMore(_) => Again(false)
    case DataBlocked(_) => if Source(s, connOnly, open).Some? then Again(true) else Stop
    case ShutWr => Again(false)
    case Stopped(_) => Stop
    case Fatal => Throw
  }

  predicate ValidAnswer(s: Sys, source: Option<int>, a: WriteAnswer) {
    match source
    case None => ValidConnWrite(s.lib, a)
    case Some(id) => ValidWrite(s.lib, id, Unsent(s.table.At(id).e), a)
  }

  predicate ValidRound(s: Sys, connOnly: bool, open: OpenAnswer, a: WriteAnswer) {
    && (NeedsOpen(s, connOnly) ==> ValidOpen(s.lib, IsBidi(Target(s, connOnly).value), open))
    && (!OpenThrows(s, connOnly, open) ==>
          ValidAnswer(AfterOpen(s, connOnly, open), Source(s, connOnly, open), a))
  }

  // ----- closing -----

  /** What the application asks the close packet to say; an empty reason is none. */
  function OwnError(code: int, reason: Option<string>): CloseError {
    ByApplication(code, if reason == Some("") then None else reason)
  }

  function Close(s: Sys, code: int, reason: Option<string>): Sys {
    if s.life.closeRequested then s else
    var text := if reason.Some? then Some(CString(reason.value)) else None;
    s.(lastError := OwnError(code, reason), life := s.life.(closeRequested := true, closed := true, closeEventEmitted := true),
       mail := s.mail.PostIf(!s.life.closeEventEmitted, Event(ConnectionClosed, -1, code, false, text)))
  }

  predicate CloseDue(s: Sys) {
    s.life.closeRequested && !s.life.closePacketSent
  }

  function WriteClose(s: Sys, a: CloseAnswer): Sys {
    match a
    case ClosePacket(_, _) => s.(life := s.life.(closePacketSent := true), lib := s.lib.(closing := true))
    case CloseNothing => s.(life := s.life.(closePacketSent := true))
    case CloseStopped(_) => Sync(s.(life := s.life.(closePacketSent := true)))
    case CloseFatal => s
  }

  // ----- steps and runs -----

  datatype Step =
    // calls by the application
    | DoWrite(id: int, data: Bytes)
    | DoEnd(id: int, final: Bytes)
    | DoReset(id: int, code: int, shutdownOk: bool)
    | DoRead(id: int, length: int)
    | DoOpen(bidi: bool, open: OpenAnswer)
    | DoClose(code: int, reason: Option<string>)
    | DoTakeEvents
    // parts of drainOutgoingDatagrams, recv and handleTimers
    | DoWriteClose(close: CloseAnswer)
    | DoRound(connOnly: bool, open: OpenAnswer, answer: WriteAnswer)
    | DoSync
    | DoRecvFailed
    | DoTimerFailed
    // the library's callbacks and its own changes of period
    | OnHandshake
    | OnStreamOpen(id: int)
    | OnData(id: int, data: Bytes, fin: bool)
    | OnStreamClose(id: int, code: int)
    | OnStreamReset(id: int, code: int)
    | OnAcked(id: int)
    | OnPeriod(closing: bool, draining: bool, code: int)

  predicate IsCallback(st: Step) {
    st.OnHandshake? || st.OnStreamOpen? || st.OnData? || st.OnStreamClose? ||
    st.OnStreamReset? || st.OnAcked? || st.OnPeriod?
  }

  function Apply(s: Sys, st: Step): (r: Sys)
    ensures r.server == s.server
  {
    match st
    case DoWrite(id, data) =>
      if WriteAllowed(s, id) then Put(s, id, Write(s.table.At(id), data)) else s
    case DoEnd(id, final) =>
      if EndAllowed(s, id) then Put(s, id, End(s.table.At(id), final)) else s
    case DoReset(id, code, ok) =>
      if ResetAllowed(s, id, ok)
      then PutPost(s, id, Reset(s.table.At(id)), true, Event(StreamReset, id, code, false, None)) else s
    case DoRead(id, length) =>
      if ReadAllowed(s, id, length) then Put(s, id, Read(s.table.At(id), length)) else s
    case DoOpen(bidi, open) => Open(s, bidi, open)
    case DoClose(code, reason) => Close(s, code, reason)
    case DoTakeEvents => s.(mail := s.mail.HandOver())
    case DoWriteClose(close) => WriteClose(s, close)
    case DoRound(connOnly, open, answer) => Round(s, connOnly, open, answer)
    case DoSync => Sync(s)
    case DoRecvFailed => s.(lastError := if s.lastError.Stays() then s.lastError else ByLibrary)
    case DoTimerFailed => s.(lastError := ByLibrary)
    case OnHandshake =>
      s.(life := s.life.(established := true),
         mail := s.mail.PostIf(!s.life.established, Event(HandshakeCompleted, -1, 0, false, None)))
    case OnStreamOpen(id) =>
      var x := s.table.At(id);
      PutPost(s, id, x.(e := x.e.(writable := IsLocal(s.server, id) || IsBidi(id))), true,
              OnStream(StreamOpened, id, true))
    case OnData(id, data, fin) =>
      PutPost(s, id, Receive(s.table.At(id), data, fin), ReceiveNotifies(s.table.At(id), data),
              OnStream(StreamReadable, id, true))
    case OnStreamClose(id, code) =>
      PutPost(s, id, CloseByPeer(s.table.At(id)), true, Event(StreamClosed, id, code, true, None))
    case OnStreamReset(id, code) =>
      PutPost(s, id, ResetByPeer(s.table.At(id)), true, Event(StreamReset, id, code, true, None))
    case OnAcked(id) =>
      if !s.table.Has(id) then s else
      PutPost(s, id, Acked(s.table.At(id)), !AckIgnored(s.table.At(id).e),
              OnStream(StreamWritable, id, true))
    case OnPeriod(closing, draining, code) =>
      s.(lib := s.lib.(closing := s.lib.closing || closing, draining := s.lib.draining || draining,
                       errorCode := code))
  }

  /** A stream the library can name in a callback: the peer's, or one it has opened. */
  predicate Known(s: Sys, id: int) {
    id >= 0 && (IsLocal(s.server, id) ==> id < s.lib.Next(IsBidi(id)))
  }

  /** The library keeps its contract in this step; and the step has its place in the code: a
      due close packet comes before the drain loop, and a closed connection has no timers. */
  predicate Enabled(s: Sys, st: Step) {
    match st
    case DoOpen(bidi, open) => ValidOpen(s.lib, bidi, open)
    case DoWriteClose(close) => CloseDue(s) && ValidClose(s.lib, s.lastError, close)
    case DoRound(connOnly, open, answer) => !CloseDue(s) && ValidRound(s, connOnly, open, answer)
    case DoTimerFailed => !s.life.closed
    case OnStreamOpen(id) => id >= 0 && !IsLocal(s.server, id) && !s.table.Has(id)
    case OnData(id, _, _) => Known(s, id)
    case OnStreamClose(id, _) => Known(s, id)
    case OnStreamReset(id, _) => Known(s, id)
    case OnAcked(id) => Known(s, id)
    case _ => true
  }

  function Run(s: Sys, steps: seq<Step>): (r: Sys)
    ensures r.server == s.server
  {
    if steps == [] then s else Apply(Run(s, steps[..|steps| - 1]), steps[|steps| - 1])
  }

  predicate ValidRun(s: Sys, steps: seq<Step>) {
    steps == [] ||
    (ValidRun(s, steps[..|steps| - 1]) &&
     Enabled(Run(s, steps[..|steps| - 1]), steps[|steps| - 1]))
  }

  lemma RunOne(s: Sys, a: Step)
    ensures Run(s, [a]) == Apply(s, a)
    ensures ValidRun(s, [a]) == Enabled(s, a)
  {
    assert [a][..0] == [];
  }

  lemma RunSnoc(s: Sys, steps: seq<Step>, st: Step)
    ensures Run(s, steps + [st]) == Apply(Run(s, steps), st)
    ensures ValidRun(s, steps + [st]) == (ValidRun(s, steps) && Enabled(Run(s, steps), st))
  {
    assert (steps + [st])[..|steps|] == steps;
  }

  lemma {:induction false} RunConcat(s: Sys, a: seq<Step>, b: seq<Step>)
    ensures Run(s, a + b) == Run(Run(s, a), b)
    ensures ValidRun(s, a + b) == (ValidRun(s, a) && ValidRun(Run(s, a), b))
  {
    if b == [] {
      assert a + b == a;
    } else {
      var m := |b| - 1;
      assert a + b == (a + b[..m]) + [b[m]];
      RunConcat(s, a, b[..m]);
      RunSnoc(s, a + b[..m], b[m]);
    }
  }

  // ----- a given library -----

  /** What the library behind a connection does when it is asked at some moment; each question
      uses its own part, corrected where it would break the contract. */
  datatype Behaviour = Behaviour(
    open: OpenAnswer, write: WriteAnswer, close: CloseAnswer, shutdownOk: bool,
    calls: seq<Step>,        // callbacks while it reads a packet or handles a timer,
    read: ReadAnswer,        // its answer to that,
    expiry: Deadlines.u64)   // and when it wants to be called next

  /** An answer that keeps the contract is given as it is; else the call fails. */
  function OpenOf(lib: Lib, bidi: bool, b: Behaviour): (a: OpenAnswer)
    ensures ValidOpen(lib, bidi, a) && (b.open.Opened? <==> a.Opened?) && (!a.Opened? ==> a == b.open)
  {
    if b.open.Opened? then Opened(lib.Next(bidi)) else b.open
  }

  function WriteOf(lib: Lib, source: Option<int>, data: Bytes, b: Behaviour): (a: WriteAnswer)
    ensures source.None? ==> ValidConnWrite(lib, a) && (ValidConnWrite(lib, b.write) ==> a == b.write)
    ensures source.Some? ==>
      ValidWrite(lib, source.value, data, a) && (ValidWrite(lib, source.value, data, b.write) ==> a == b.write)
  {
    if (if source.None? then ValidConnWrite(lib, b.write) else ValidWrite(lib, source.value, data, b.write))
    then b.write else Fatal
  }

  function CloseOf(lib: Lib, error: CloseError, b: Behaviour): (a: CloseAnswer)
    ensures ValidClose(lib, error, a) && (ValidClose(lib, error, b.close) ==> a == b.close)
  {
    if ValidClose(lib, error, b.close) then b.close else CloseFatal
  }

  function ReadOf(lib: Lib, b: Behaviour): (a: ReadAnswer)
    ensures ValidRead(lib, a) && (ValidRead(lib, b.read) ==> a == b.read)
  {
    if ValidRead(lib, b.read) then b.read else ReadFatal
  }

  /** The iteration of the drain loop with this library. */
  function RoundOf(s: Sys, connOnly: bool, b: Behaviour): Step {
    var open := if NeedsOpen(s, connOnly) then OpenOf(s.lib, IsBidi(Target(s, connOnly).value), b) else IdBlocked;
    var s1, source := AfterOpen(s, connOnly, open), Source(s, connOnly, open);
    DoRound(connOnly, open,
            if OpenThrows(s, connOnly, open) then Fatal
            else WriteOf(s1.lib, source, if source.None? then [] else Unsent(s1.table.At(source.value).e), b))
  }

  /** The callbacks that the library makes, as far as its contract allows them. */
  function CallsOf(s: Sys, calls: seq<Step>): seq<Step> {
    if calls == [] then []
    else CallsOf(s, calls[..|calls| - 1])
           + CallOf(Run(s, CallsOf(s, calls[..|calls| - 1])), calls[|calls| - 1])
  }

  function CallOf(s: Sys, call: Step): seq<Step> {
    if IsCallback(call) && Enabled(s, call) then [call] else []
  }

  lemma CallsSnoc(s: Sys, calls: seq<Step>, call: Step)
    ensures CallsOf(s, calls + [call]) == CallsOf(s, calls) + CallOf(Run(s, CallsOf(s, calls)), call)
  {
    hide Run, CallOf;
    assert (calls + [call])[..|calls|] == calls;
  }

  /** Callbacks that the contract allows are all made. */
  lemma {:induction false} AllowedCallsAreMade(s: Sys, calls: seq<Step>)
    requires ValidRun(s, calls) && forall k :: 0 <= k < |calls| ==> IsCallback(calls[k])
    ensures CallsOf(s, calls) == calls
  {
    hide Run, ValidRun, CallsOf, Enabled, IsCallback;
    if calls == [] {
      NothingCalled(s);
    } else {
      var m := |calls| - 1;
      var front, call := calls[..m], calls[m];
      assert calls == front + [call];
      RunSnoc(s, front, call);
      AllowedCallsAreMade(s, front);
      CallsSnoc(s, front, call);
    }
  }

  lemma CallAllowed(s: Sys, made: seq<Step>, call: Step)
    requires ValidRun(s, made)
    ensures ValidRun(s, made + CallOf(Run(s, made), call))
  {
    hide Run, ValidRun, Enabled, IsCallback;
    RunSnoc(s, made, call);
    assert made + [] == made;
  }

  /** None is made that it does not allow. */
  lemma {:induction false} CallsAreAllowed(s: Sys, calls: seq<Step>)
    ensures ValidRun(s, CallsOf(s, calls))
  {
    hide Run, ValidRun, CallsOf, CallOf;
    if calls == [] {
      NothingCalled(s);
    } else {
      var m := |calls| - 1;
      CallsAreAllowed(s, calls[..m]);
      CallsSnoc(s, calls[..m], calls[m]);
      assert calls == calls[..m] + [calls[m]];
      CallAllowed(s, CallsOf(s, calls[..m]), calls[m]);
    }
  }

  lemma NothingCalled(s: Sys)
    ensures CallsOf(s, []) == [] && ValidRun(s, [])
  {
  }

  /** The library's part in the step is what `b` says. */
  predicate Answers(s: Sys, st: Step, b: Behaviour) {
    match st
    case DoRound(connOnly, _, _) => st == RoundOf(s, connOnly, b)
    case DoWriteClose(a) => a == CloseOf(s.lib, s.lastError, b)
    case DoOpen(bidi, a) => a == OpenOf(s.lib, bidi, b)
    case DoReset(_, _, ok) => ok == b.shutdownOk
    case _ => true
  }

  /** A valid run in which the library has answered as it does at each moment. */
  predicate Lived(s: Sys, steps: seq<Step>, library: nat -> Behaviour) {
    steps == [] ||
    (var m := |steps| - 1; var before := Run(s, steps[..m]);
     Lived(s, steps[..m], library) && Enabled(before, steps[m]) && Answers(before, steps[m], library(m)))
  }

  lemma LivedSnoc(s: Sys, steps: seq<Step>, st: Step, library: nat -> Behaviour)
    ensures Lived(s, steps + [st], library) ==
      (Lived(s, steps, library) && Enabled(Run(s, steps), st) && Answers(Run(s, steps), st, library(|steps|)))
  {
    assert (steps + [st])[..|steps|] == steps;
  }

  lemma {:induction false} LivedIsValid(s: Sys, steps: seq<Step>, library: nat -> Behaviour)
    requires Lived(s, steps, library)
    ensures ValidRun(s, steps)
  {
    hide Enabled, Answers;
    if steps != [] {
      LivedIsValid(s, steps[..|steps| - 1], library);
    }
  }

  // ----- one call of drainOutgoingDatagrams -----

  /** The packets that the library produced in these steps, in order. */
  function Payloads(steps: seq<Step>): seq<Bytes> {
    if steps == [] then []
    else Payloads(steps[..|steps| - 1]) + PayloadOf(steps[|steps| - 1])
  }

  function PayloadOf(st: Step): seq<Bytes> {
    if st.DoRound? && st.answer.Packet? then [st.answer.payload]
    else if st.DoWriteClose? && st.close.ClosePacket? then [st.close.payload]
    else []
  }

  /** What the loop does after these iterations from state `s`; it starts with a pick. */
  function LastFlow(s: Sys, steps: seq<Step>): Flow {
    if steps == [] then Again(false)
    else FlowAfter(Run(s, steps[..|steps| - 1]), steps[|steps| - 1])
  }

  function FlowAfter(s: Sys, st: Step): Flow {
    if st.DoRound? then RoundFlow(s, st.connOnly, st.open, st.answer) else Throw
  }

  /** The loop goes on with an iteration of this kind. */
  predicate GoesOn(flow: Flow, connOnly: bool) {
    flow == Again(connOnly) || (flow == Collect && !connOnly)
  }

  const MAX_PACKETS: nat := 256

  /** These steps are iterations of one drain loop: each is the one that its predecessor
      asks for, and none follows the last packet. */
  predicate LoopRun(s: Sys, steps: seq<Step>) {
    steps == [] ||
    var m := |steps| - 1;
    && LoopRun(s, steps[..m])
    && |Payloads(steps[..m])| < MAX_PACKETS
    && steps[m].DoRound? && GoesOn(LastFlow(s, steps[..m]), steps[m].connOnly)
  }

  /** The loop ends normally here. */
  predicate LoopEnds(s: Sys, steps: seq<Step>) {
    LastFlow(s, steps) == Stop || (LastFlow(s, steps) == Collect && |Payloads(steps)| == MAX_PACKETS)
  }

  /** The steps of one call of drainOutgoingDatagrams, and whether it succeeds. */
  predicate DrainSteps(s: Sys, steps: seq<Step>, ok: bool) {
    if CloseDue(s) then |steps| == 1 && steps[0].DoWriteClose? && ok == !steps[0].close.CloseFatal?
    else if !ok then LoopRun(s, steps) && LastFlow(s, steps) == Throw
    else
      var m := |steps| - 1;
      m >= 0 && steps[m] == DoSync && LoopRun(s, steps[..m]) && LoopEnds(s, steps[..m])
  }

  lemma LoopSnoc(s: Sys, steps: seq<Step>, st: Step)
    requires LoopRun(s, steps) && |Payloads(steps)| < MAX_PACKETS
    requires st.DoRound? && GoesOn(LastFlow(s, steps), st.connOnly)
    ensures LoopRun(s, steps + [st]) && LastFlow(s, steps + [st]) == FlowAfter(Run(s, steps), st)
    ensures Payloads(steps + [st]) == Payloads(steps) + PayloadOf(st)
  {
    hide Run, FlowAfter, GoesOn, PayloadOf;
    assert (steps + [st])[..|steps|] == steps;
  }

  lemma DrainEnds(s: Sys, steps: seq<Step>)
    requires !CloseDue(s) && LoopRun(s, steps)
    ensures LoopEnds(s, steps) ==> DrainSteps(s, steps + [DoSync], true)
    ensures LastFlow(s, steps) == Throw ==> DrainSteps(s, steps, false)
    ensures Payloads(steps + [DoSync]) == Payloads(steps)
  {
    assert (steps + [DoSync])[..|steps|] == steps;
    assert Payloads(steps) + [] == Payloads(steps);
  }

  /** Whether the library fails to read a packet, or to handle its timer, from this state on. */
  predicate ReadFails(s: Sys, b: Behaviour) {
    ReadOf(Run(s, CallsOf(s, b.calls)).lib, b).ReadFatal?
  }

  /** The steps of handleTimers: callbacks and a sync, or the library's failure; nothing at all on
      a closed connection. */
  predicate TimerSteps(s: Sys, b: Behaviour, steps: seq<Step>, ok: bool) {
    && ok == (s.life.closed || !ReadFails(s, b))
    && steps == if s.life.closed then [] else CallsOf(s, b.calls) + [if ok then DoSync else DoTimerFailed]
  }
}
