/** One stream entry: its fields, what has happened to it, and what every operation on a
    single entry does, as functions. `ConnectionSpec` composes them; the methods of
    `Connection` are proved to compute them. */
module StreamSpec {
  import opened Common
  import opened Library
  import Buffer

  /** Two entries that agree on everything outside the sending side. */
  predicate SameReceiver(e: Entry, r: Entry) {
    && r.rx == e.rx && r.readable == e.readable && r.finRecv == e.finRecv
    && r.closed == e.closed && r.reset == e.reset && r.pendingOpen == e.pendingOpen
  }

  /** The fields of php_quic_stream_entry, except its ID. */
  datatype Entry = Entry(
    rx: Bytes, tx: Bytes, txOffset: nat,
    readable: bool, writable: bool, closed: bool, reset: bool,
    finSent: bool, finRecv: bool, finPending: bool, pendingOpen: bool)

  /** What has happened to the stream so far. The last three record that one of the
      situations has arisen in which a property of the sending side is lost. */
  datatype History = History(
    written: Bytes,      // all bytes given to write and end
    discarded: bool,     // unsent bytes were dropped after SHUT_WR
    blindFin: bool,      // an empty FIN write produced a packet but reported wdatalen < 0
    emptyWrite: bool)    // write was called with no bytes while none were unsent

  datatype Slot = Slot(e: Entry, h: History)

  const NEW_ENTRY := Entry([], [], 0, false, true, false, false, false, false, false, false)
  const NEW_HISTORY := History([], false, false, false)
  const NEW_SLOT := Slot(NEW_ENTRY, NEW_HISTORY)

  function Unsent(e: Entry): Bytes {
    if e.txOffset <= |e.tx| then e.tx[e.txOffset..] else []
  }

  /** The test by which the drain loop picks an entry. */
  predicate HasWork(e: Entry) {
    !e.closed && !e.reset && (e.txOffset < |e.tx| || e.finPending)
  }

  // ----- sending -----

  /** The offset moves past what was taken, but never past the end. */
  function Consume(e: Entry, w: int): Entry {
    var offset := if w > 0 then e.txOffset + w else e.txOffset;
    e.(txOffset := if offset > |e.tx| then |e.tx| else offset)
  }

  /** A FIN counts as sent once a packet came out and no byte is left. */
  function MarkFin(e: Entry, finAttempted: bool, packetEmitted: bool): Entry {
    if finAttempted && packetEmitted && e.finPending && e.txOffset >= |e.tx|
    then e.(finPending := false, finSent := true, writable := false)
    else e
  }

  function ReleaseSent(e: Entry): Entry {
    if e.txOffset >= |e.tx| && |e.tx| > 0 then e.(tx := [], txOffset := 0) else e
  }

  predicate BecomesWritable(e: Entry) {
    !e.finPending && !e.finSent && !e.closed && !e.writable && e.txOffset == 0 && |e.tx| == 0
  }

  /** The entry after `update_tx_entry`, and whether a StreamWritable event is due. */
  function UpdateTx(e: Entry, w: int, finAttempted: bool, packetEmitted: bool): (r: (Entry, bool))
    ensures SameReceiver(e, r.0)
    ensures r.1 ==> !e.writable && r.0.writable
  {
    var r := ReleaseSent(MarkFin(Consume(e, w), finAttempted, packetEmitted));
    if BecomesWritable(r) then (r.(writable := true), true) else (r, false)
  }

  function DiscardTx(e: Entry): Entry {
    e.(tx := [], txOffset := 0, finPending := false, finSent := true, writable := false)
  }

  /** The entry offered its unsent bytes (and its pending FIN) and got this answer. */
  function Offer(x: Slot, a: WriteAnswer): (r: Slot)
    ensures SameReceiver(x.e, r.e) && r.h.written == x.h.written && r.h.emptyWrite == x.h.emptyWrite
  {
    match a
    case Packet(_, w) =>
      Slot(UpdateTx(x.e, w, x.e.finPending, true).0,
           x.h.(blindFin := x.h.blindFin || (x.e.finPending && Unsent(x.e) == [] && w < 0)))
    case Zero(w) => x.(e := UpdateTx(x.e, w, x.e.finPending, false).0)
    case WriteMore(w) => x.(e := UpdateTx(x.e, w, x.e.finPending, false).0)
    case DataBlocked(w) => x.(e := UpdateTx(x.e, w, x.e.finPending, false).0)
    case ShutWr => Slot(DiscardTx(x.e), x.h.(discarded := true))
    case Stopped(_) => x
    case Fatal => x
  }

  /** Whether that raises a StreamWritable event. */
  predicate OfferNotifies(x: Slot, a: WriteAnswer) {
    match a
    case Packet(_, w) => UpdateTx(x.e, w, x.e.finPending, true).1
    case Zero(w) => UpdateTx(x.e, w, x.e.finPending, false).1
    case WriteMore(w) => UpdateTx(x.e, w, x.e.finPending, false).1
    case DataBlocked(w) => UpdateTx(x.e, w, x.e.finPending, false).1
    case _ => false
  }

  /** Stream::write refuses when the sending side has ended or is ending. */
  predicate Ended(e: Entry) {
    e.finPending || e.finSent || e.closed
  }

  function Write(x: Slot, data: Bytes): Slot {
    Slot(x.e.(tx := x.e.tx + data, writable := false),
         x.h.(written := x.h.written + data,
              emptyWrite := x.h.emptyWrite || (data == [] && Unsent(x.e) == [])))
  }

  function End(x: Slot, data: Bytes): Slot {
    Slot(x.e.(tx := x.e.tx + data, finPending := true, writable := false),
         x.h.(written := x.h.written + data))
  }

  function Reset(x: Slot): Slot {
    x.(e := x.e.(reset := true, closed := true, readable := false, writable := false,
                 finPending := false, pendingOpen := false))
  }

  function Acked(x: Slot): Slot {
    if AckIgnored(x.e) then x else x.(e := x.e.(writable := true))
  }

  predicate AckIgnored(e: Entry) {
    e.closed || e.reset || e.finSent || e.writable
  }

  // ----- receiving -----

  function Receive(x: Slot, data: Bytes, fin: bool): Slot {
    var rx := x.e.rx + data;
    x.(e := x.e.(rx := rx, readable := x.e.readable || rx != [], finRecv := x.e.finRecv || fin))
  }

  predicate ReceiveNotifies(x: Slot, data: Bytes) {
    !x.e.readable && x.e.rx + data != []
  }

  function ReadChunk(e: Entry, length: nat): Bytes {
    e.rx[..Buffer.ReadLen(length, |e.rx|)]
  }

  function Read(x: Slot, length: nat): Slot {
    if x.e.rx == [] then x else
    var n := Buffer.ReadLen(length, |x.e.rx|);
    x.(e := x.e.(rx := x.e.rx[n..], readable := n < |x.e.rx|))
  }

  // ----- ends announced by the peer -----

  function CloseByPeer(x: Slot): Slot {
    x.(e := x.e.(closed := true, writable := false))
  }

  function ResetByPeer(x: Slot): Slot {
    x.(e := x.e.(reset := true, closed := true, writable := false))
  }

  // ----- what always holds of one stream -----

  /** The clamps in the send path never act. */
  predicate NormalForm(e: Entry) {
    e.txOffset < |e.tx| || (e.txOffset == 0 && e.tx == [])
  }

  /** Nothing is skipped, repeated or reordered on the way to the library. */
  predicate SendConserved(x: Slot, ls: LibStream) {
    if x.h.discarded then ls.shut && ls.accepted <= x.h.written
    else ls.accepted + Unsent(x.e) == x.h.written
  }

  predicate FinalSizeKept(ls: LibStream) {
    ls.finalSize.Some? ==> ls.shut && ls.finalSize.value == |ls.accepted|
  }

  predicate FinSound(x: Slot, ls: LibStream) {
    x.e.finSent ==> ls.finalSize.Some? || x.h.blindFin || x.h.discarded
  }

  /** What is buffered is announced, except after a reset. */
  predicate ReadableKept(e: Entry) {
    && (e.readable ==> e.rx != [])
    && (e.rx != [] && !e.readable ==> e.reset)
  }

  /** A sender that is told to wait has something that will end the wait. */
  predicate NotStuck(e: Entry) {
    !e.writable ==> Unsent(e) != [] || Ended(e)
  }

  /** A receive-only stream has nothing to transmit. */
  predicate Silent(e: Entry) {
    e.tx == [] && !e.finPending
  }

  /** A stream reported writable can still be written, up to a pending FIN. */
  predicate WritableOpen(e: Entry) {
    e.writable ==> !e.closed && !e.reset && !e.finSent
  }

  predicate StreamInv(canSend: bool, x: Slot, ls: LibStream) {
    && NormalForm(x.e)
    && SendConserved(x, ls)
    && FinalSizeKept(ls)
    && FinSound(x, ls)
    && ReadableKept(x.e)
    && (x.e.reset ==> x.e.closed)
    && (canSend && !x.h.emptyWrite ==> NotStuck(x.e))
    && (!canSend ==> Silent(x.e))
  }

  lemma ConsumeDrops(e: Entry, w: int)
    requires NormalForm(e) && w <= |Unsent(e)|
    ensures var r := Consume(e, w);
      && r.txOffset <= |r.tx|
      && Unsent(r) == Unsent(e)[if w > 0 then w else 0..]
      && r == e.(txOffset := r.txOffset)
  {
  }

  lemma MarkFinKeepsBytes(e: Entry, fin: bool, packet: bool)
    requires e.txOffset <= |e.tx|
    ensures var r := MarkFin(e, fin, packet);
      && Unsent(r) == Unsent(e)
      && r.finSent == (e.finSent || (fin && packet && e.finPending && Unsent(e) == []))
      && r.finPending == (e.finPending && !(fin && packet && Unsent(e) == []))
      && (r.writable ==> e.writable)
      && r == e.(finSent := r.finSent, finPending := r.finPending, writable := r.writable)
  {
  }

  lemma ReleaseKeepsBytes(e: Entry)
    requires e.txOffset <= |e.tx|
    ensures var r := ReleaseSent(e);
      && NormalForm(r)
      && Unsent(r) == Unsent(e)
      && r == e.(tx := r.tx, txOffset := r.txOffset)
  {
  }

  /** `update_tx_entry` consumes exactly the reported prefix of the unsent bytes, settles
      a pending FIN exactly when a packet went out with nothing left, and touches no
      field outside the sending side. */
  lemma UpdateTxConsumes(e: Entry, w: int, fin: bool, packet: bool)
    requires NormalForm(e) && w <= |Unsent(e)|
    ensures var r := UpdateTx(e, w, fin, packet).0;
      && NormalForm(r)
      && Unsent(r) == Unsent(e)[if w > 0 then w else 0..]
      && r.finSent == (e.finSent || (fin && packet && e.finPending && Unsent(r) == []))
      && r.finPending == (e.finPending && !(fin && packet && Unsent(r) == []))
      && (r.writable && r.finSent ==> e.writable && e.finSent)
      && (Unsent(r) == [] ==> r.writable || Ended(r))
      && r == e.(tx := r.tx, txOffset := r.txOffset, finSent := r.finSent,
                 finPending := r.finPending, writable := r.writable)
  {
    var e1 := Consume(e, w);
    var e2 := MarkFin(e1, fin, packet);
    ConsumeDrops(e, w);
    MarkFinKeepsBytes(e1, fin, packet);
    ReleaseKeepsBytes(e2);
  }

  /** What the library takes and what stays unsent are together what was unsent. */
  lemma AcceptedPlusUnsent(ls: LibStream, data: Bytes, fin: bool, a: WriteAnswer)
    requires !a.ShutWr? && !a.Stopped? && !a.Fatal? && a.wdatalen <= |data|
    ensures AfterWrite(ls, data, fin, a).accepted + data[if a.wdatalen > 0 then a.wdatalen else 0..]
      == ls.accepted + data
  {
    if a.wdatalen > 0 {
      assert data == data[..a.wdatalen] + data[a.wdatalen..];
    }
  }

  lemma {:induction false} OfferKeepsConservation(x: Slot, lib: Lib, id: int, a: WriteAnswer)
    requires NormalForm(x.e) && SendConserved(x, lib.Of(id))
    requires ValidWrite(lib, id, Unsent(x.e), a)
    ensures NormalForm(Offer(x, a).e)
    ensures SendConserved(Offer(x, a), AfterWrite(lib.Of(id), Unsent(x.e), x.e.finPending, a))
  {
    if a.Packet? || a.Zero? || a.WriteMore? || a.DataBlocked? {
      UpdateTxConsumes(x.e, a.wdatalen, x.e.finPending, a.Packet?);
      AcceptedPlusUnsent(lib.Of(id), Unsent(x.e), x.e.finPending, a);
    }
  }

  lemma OfferKeepsInv(canSend: bool, x: Slot, lib: Lib, id: int, a: WriteAnswer)
    requires StreamInv(canSend, x, lib.Of(id))
    requires ValidWrite(lib, id, Unsent(x.e), a) && HasWork(x.e)
    ensures StreamInv(canSend, Offer(x, a), AfterWrite(lib.Of(id), Unsent(x.e), x.e.finPending, a))
  {
    OfferKeepsConservation(x, lib, id, a);
    if a.Packet? || a.Zero? || a.WriteMore? || a.DataBlocked? {
      UpdateTxConsumes(x.e, a.wdatalen, x.e.finPending, a.Packet?);
    }
  }

  /** Every other operation on a stream keeps its invariant as well. */
  lemma WriteKeepsInv(x: Slot, ls: LibStream, data: Bytes)
    requires StreamInv(true, x, ls) && !Ended(x.e)
    ensures StreamInv(true, Write(x, data), ls)
  {
    AppendedUnsent(x.e, data);
  }

  lemma EndKeepsInv(x: Slot, ls: LibStream, data: Bytes)
    requires StreamInv(true, x, ls)
    ensures StreamInv(true, End(x, data), ls)
  {
    AppendedUnsent(x.e, data);
  }

  lemma AppendedUnsent(e: Entry, data: Bytes)
    requires NormalForm(e)
    ensures Unsent(e.(tx := e.tx + data)) == Unsent(e) + data
  {
  }

  lemma ResetKeepsInv(canSend: bool, x: Slot, ls: LibStream)
    requires StreamInv(canSend, x, ls)
    ensures StreamInv(canSend, Reset(x), ls)
  {
  }

  lemma AckedKeepsInv(canSend: bool, x: Slot, ls: LibStream)
    requires StreamInv(canSend, x, ls)
    ensures StreamInv(canSend, Acked(x), ls)
  {
  }

  lemma PeerEndKeepsInv(canSend: bool, x: Slot, ls: LibStream)
    requires StreamInv(canSend, x, ls)
    ensures StreamInv(canSend, CloseByPeer(x), ls)
    ensures StreamInv(canSend, ResetByPeer(x), ls)
  {
  }

  lemma OpenedKeepsInv(canSend: bool, x: Slot, ls: LibStream, pending: bool)
    requires StreamInv(canSend, x, ls)
    ensures StreamInv(canSend, x.(e := x.e.(pendingOpen := pending)), ls)
    ensures StreamInv(canSend, x.(e := x.e.(pendingOpen := pending, writable := true)), ls)
  {
  }

  lemma ReceiveKeepsInv(canSend: bool, x: Slot, ls: LibStream, data: Bytes, fin: bool)
    requires StreamInv(canSend, x, ls)
    ensures StreamInv(canSend, Receive(x, data, fin), ls)
  {
  }

  lemma ReadKeepsInv(canSend: bool, x: Slot, ls: LibStream, length: nat)
    requires StreamInv(canSend, x, ls) && length > 0
    ensures StreamInv(canSend, Read(x, length), ls)
  {
  }

  lemma NewStreamInv(canSend: bool)
    ensures StreamInv(canSend, NEW_SLOT, FRESH_LIB)
    ensures StreamInv(canSend, NEW_SLOT.(e := NEW_ENTRY.(writable := canSend)), FRESH_LIB)
  {
  }
}
