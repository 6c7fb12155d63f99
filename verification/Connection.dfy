/** The connection object of src/connection.c, src/stream.c and src/callbacks.c: fields
    changed step by step. Every method is proved to extend the connection's run (the ghost
    field `trace`) by the step it stands for, so all that is proved about runs holds of it. */
module Connection {
  import opened Common
  import opened Library
  import opened StreamSpec
  import opened ConnectionSpec
  import opened ConnectionProofs
  import Buffer
  import Deadlines
  import LifecycleTheorems
  import SendTheorems

  class StreamEntry {
    const owner: object
    const id: int
    var rx: Bytes
    var tx: Bytes
    var txOffset: nat
    var readable: bool
    var writable: bool
    var closed: bool
    var reset: bool
    var finSent: bool
    var finRecv: bool
    var finPending: bool
    var pendingOpen: bool
    ghost var history: History

    constructor (owner: object, id: int)
      ensures this.owner == owner && this.id == id && View() == NEW_SLOT
    {
      this.owner, this.id := owner, id;
      rx, tx, txOffset := [], [], 0;
      readable, writable, closed, reset := false, true, false, false;
      finSent, finRecv, finPending, pendingOpen := false, false, false, false;
      history := NEW_HISTORY;
    }

    ghost function View(): Slot
      reads this
    {
      Slot(Entry(rx, tx, txOffset, readable, writable, closed, reset, finSent, finRecv,
                 finPending, pendingOpen), history)
    }

    /** discard_tx_entry */
    method DiscardTx()
      modifies this
      ensures View() == Offer(old(View()), ShutWr)
    {
      tx := [];
      txOffset := 0;
      finPending := false;
      finSent := true;
      writable := false;
      history := history.(discarded := true);
    }

    method AppendTx(data: Bytes)
      modifies `tx
      ensures tx == old(tx) + data
    {
      var buffer := Buffer.Store(tx);
      buffer := Buffer.Append(buffer, data);
      tx := buffer[..];
    }

    method WriteTx(data: Bytes)
      modifies this
      ensures View() == StreamSpec.Write(old(View()), data)
    {
      history := StreamSpec.Write(View(), data).h;
      AppendTx(data);
      writable := false;
    }

    method EndTx(final: Bytes)
      modifies this
      ensures View() == StreamSpec.End(old(View()), final)
    {
      history := StreamSpec.End(View(), final).h;
      AppendTx(final);
      finPending := true;
      writable := false;
    }

    method ResetEntry()
      modifies this
      ensures View() == StreamSpec.Reset(old(View()))
    {
      reset := true;
      closed := true;
      readable := false;
      writable := false;
      finPending := false;
      pendingOpen := false;
    }

    method ReadRx(length: nat) returns (chunk: Bytes)
      requires rx != []
      modifies this
      ensures View() == StreamSpec.Read(old(View()), length)
      ensures chunk == ReadChunk(old(View().e), length)
    {
      var buffer := Buffer.Store(rx);
      ghost var n := Buffer.ReadLen(length, buffer.Length);
      chunk, buffer := Buffer.Read(buffer, length);
      assert rx[..n] + rx[n..] == chunk + buffer[..];
      assert rx[n..] == (chunk + buffer[..])[n..] == buffer[..];
      rx := buffer[..];
      readable := buffer.Length > 0;
    }

    method SetWritable(w: bool)
      modifies `writable
      ensures View() == Slot(old(View().e).(writable := w), history)
    {
      writable := w;
    }

    method MarkOpened(pending: bool)
      modifies `pendingOpen, `writable
      ensures View() == OpenSlot(old(View()), pending)
    {
      pendingOpen := pending;
      writable := true;
    }

    method EndByPeer(withReset: bool)
      modifies this
      ensures View() == if withReset then ResetByPeer(old(View())) else CloseByPeer(old(View()))
    {
      if withReset {
        reset := true;
      }
      closed := true;
      writable := false;
    }

    method ReceiveRx(data: Bytes, fin: bool) returns (notify: bool)
      modifies this
      ensures View() == Receive(old(View()), data, fin)
      ensures notify == ReceiveNotifies(old(View()), data)
    {
      if |data| > 0 {
        var buffer := Buffer.Store(rx);
        buffer := Buffer.Append(buffer, data);
        rx := buffer[..];
      }
      notify := !readable && |rx| > 0;
      if notify {
        readable := true;
      }
      if fin {
        finRecv := true;
      }
    }

    method AdvanceOffset(w: int)
      modifies this`txOffset
      ensures View() == Slot(Consume(old(View().e), w), history)
    {
      if w > 0 {
        txOffset := txOffset + w;
      }
      if txOffset > |tx| {
        txOffset := |tx|;
      }
    }

    method SettleFin(finAttempted: bool, packetEmitted: bool)
      modifies this`finPending, this`finSent, this`writable
      ensures View() == Slot(MarkFin(old(View().e), finAttempted, packetEmitted), history)
    {
      if finAttempted && packetEmitted && finPending && txOffset >= |tx| {
        finPending := false;
        finSent := true;
        writable := false;
      }
    }

    method ReleaseBuffer()
      modifies this`tx, this`txOffset
      ensures View() == Slot(ReleaseSent(old(View().e)), history)
    {
      if txOffset >= |tx| && |tx| > 0 {
        tx := [];
        txOffset := 0;
      }
    }

    /** update_tx_entry, except that raising the event is left to the connection. */
    method UpdateTxEntry(w: int, finAttempted: bool, packetEmitted: bool) returns (notify: bool)
      modifies this
      ensures (View().e, notify) == UpdateTx(old(View().e), w, finAttempted, packetEmitted)
      ensures history == old(history)
    {
      AdvanceOffset(w);
      SettleFin(finAttempted, packetEmitted);
      ReleaseBuffer();
      ghost var e := View().e;
      notify := !finPending && !finSent && !closed && !writable && txOffset == 0 && |tx| == 0;
      assert notify == BecomesWritable(e);
      if notify {
        writable := true;
      }
    }
  }

  class Connection {
    const server: bool
    const peer: string      // the endpoint's key for the peer address
    var streams: map<int, StreamEntry>
    var order: seq<int>
    var events: seq<Event>
    var nextBidi: int
    var nextUni: int
    var established: bool
    var draining: bool
    var closed: bool
    var closeRequested: bool
    var closePacketSent: bool
    var closeEventEmitted: bool
    var drainingEventEmitted: bool
    var lastError: CloseError

    // The library behind the connection: what it does at each moment, and the state it is in,
    // as far as its contract speaks of it. The clock counts the connection's steps.
    const library: nat -> Behaviour
    var clock: nat
    var lib: Lib
    var expiry: Deadlines.u64

    ghost var log: seq<Event>
    ghost var handed: seq<Event>
    ghost var mismatch: bool
    ghost var reused: bool
    ghost var trace: seq<Step>

    constructor (server: bool, peer: string, library: nat -> Behaviour)
      ensures Valid() && trace == [] && this.server == server && this.peer == peer && this.library == library
      ensures fresh(Repr()) && View() == Init(server)
    {
      this.server, this.peer, this.library, clock := server, peer, library, 0;
      streams, order, events := map[], [], [];
      nextBidi, nextUni := 0, 2;
      established, draining, closed := false, false, false;
      closeRequested, closePacketSent := false, false;
      closeEventEmitted, drainingEventEmitted, lastError := false, false, NoError;
      lib, expiry := InitLib(server), 0;
      log, handed, mismatch, reused, trace := [], [], false, false, [];
      new;
      hide Run, Lived;
      EmptyTable();
      NoSteps(server, library);
    }

    lemma EmptyTable()
      requires streams == map[] && order == []
      ensures TableView() == Table([], map[]) && Owned()
    {
    }

    ghost function Repr(): set<object>
      reads `streams
    {
      {this as object} + set e: StreamEntry | e in streams.Values :: e as object
    }

    ghost function TableView(): Table
      reads `streams, `order, streams.Values
    {
      Table(order, map id | id in streams :: streams[id].View())
    }

    ghost function LifeView(): Life
      reads `established, `draining, `closed, `closeRequested, `closePacketSent,
            `closeEventEmitted, `drainingEventEmitted
    {
      Life(established, draining, closed, closeRequested, closePacketSent, closeEventEmitted,
           drainingEventEmitted)
    }

    ghost function View(): Sys
      reads this, streams.Values
    {
      Sys(server, TableView(), Counters(nextBidi, nextUni), LifeView(), Mail(events, log, handed),
          lib, lastError, mismatch, reused)
    }

    /** Every entry belongs to this connection and is filed under its own ID. */
    ghost predicate Owned()
      reads `streams, streams.Values
    {
      && (forall id :: id in streams ==> streams[id].id == id)
      && (forall e :: e in streams.Values ==> e.owner == this)
    }

    /** The object is in a state that some run of the state machine reaches. */
    ghost predicate Valid()
      reads this, streams.Values
    {
      Owned() && clock == |trace| && Lived(Init(server), trace, library) && View() == Run(Init(server), trace)
    }

    lemma Reachable()
      requires Valid()
      ensures Inv(View())
    {
      InitInv(server);
      LivedIsValid(Init(server), trace, library);
      RunKeepsInv(Init(server), trace);
    }

    /** The state is one step further; the run is extended by that step. */
    method Record(ghost before: Sys, ghost st: Step)
      requires Owned() && Lived(Init(server), trace, library) && before == Run(Init(server), trace)
      requires clock == |trace| && View() == Apply(before, st)
      requires Enabled(before, st) && Answers(before, st, library(clock))
      modifies `trace, `clock
      ensures Valid() && trace == old(trace) + [st] && View() == old(View())
    {
      hide TableView, Apply, Enabled, Answers;
      RunSnoc(Init(server), trace, st);
      LivedSnoc(Init(server), trace, st, library);
      trace := trace + [st];
      clock := clock + 1;
    }

    /** The same for a step in which the library has nothing to answer. */
    method Note(ghost before: Sys, ghost st: Step)
      requires Owned() && Lived(Init(server), trace, library) && before == Run(Init(server), trace)
      requires clock == |trace| && View() == Apply(before, st) && Enabled(before, st)
      requires !st.DoRound? && !st.DoWriteClose? && !st.DoOpen? && !st.DoReset?
      modifies `trace, `clock
      ensures Valid() && trace == old(trace) + [st] && View() == old(View())
    {
      hide TableView, Run, Lived, Apply, Enabled;
      Record(before, st);
    }

    /** When one entry alone has changed, so has the table. */
    twostate lemma OneEntry(e: StreamEntry)
      requires old(Owned()) && streams == old(streams) && order == old(order)
      requires e.id in streams && streams[e.id] == e
      requires forall id :: id in streams && id != e.id ==> streams[id].View() == old(streams[id].View())
      ensures TableView() == old(TableView()).Put(e.id, e.View())
      ensures Owned()
    {
      var m, m' := TableView().streams, old(TableView()).streams[e.id := e.View()];
      assert m.Keys == m'.Keys;
      forall id | id in m ensures m[id] == m'[id] {
      }
    }

    /** The entry found or made by a lookup now holds `x`; all others are as in `t`. */
    lemma FiledEntry(e: StreamEntry, x: Slot, t: Table)
      requires Owned() && e.id in streams && streams[e.id] == e && e.View() == x
      requires order == if t.Has(e.id) then t.order else t.order + [e.id]
      requires streams.Keys == t.streams.Keys + {e.id}
      requires forall id :: id in streams && id != e.id ==> streams[id].View() == t.streams[id]
      ensures TableView() == t.Put(e.id, x)
    {
      assert TableView().streams == t.streams[e.id := x];
    }

    method PushEvent(e: Event)
      modifies this`events, this`log
      ensures View() == old(View()).(mail := old(View()).mail.Post(e))
    {
      hide TableView;
      events := events + [e];
      log := log + [e];
    }

    // ----- stream calls -----

    method WriteEntry(id: int, data: Bytes)
      requires Owned() && id in streams
      modifies streams[id]
      ensures Owned() && View() == Put(old(View()), id, StreamSpec.Write(old(TableView()).At(id), data))
    {
      streams[id].WriteTx(data);
      OneEntry(streams[id]);
    }

    method EndEntry(id: int, final: Bytes)
      requires Owned() && id in streams
      modifies streams[id]
      ensures Owned() && View() == Put(old(View()), id, StreamSpec.End(old(TableView()).At(id), final))
    {
      streams[id].EndTx(final);
      OneEntry(streams[id]);
    }

    method ReadEntry(id: int, length: nat) returns (chunk: Bytes)
      requires Owned() && id in streams && streams[id].rx != []
      modifies streams[id]
      ensures Owned() && View() == Put(old(View()), id, StreamSpec.Read(old(TableView()).At(id), length))
      ensures var rx := old(streams[id].rx); chunk == if length < |rx| then rx[..length] else rx
    {
      chunk := streams[id].ReadRx(length);
      OneEntry(streams[id]);
    }

    method TryWrite(id: int, data: Bytes) returns (r: Result<int, string>)
      requires Owned()
      modifies streams.Values
      ensures Owned() && View() == Apply(old(View()), DoWrite(id, data))
      ensures r.Ok? <==> WriteAllowed(old(View()), id)
      ensures r.Ok? ==> r.value == |data|
    {
      hide Apply, StreamSpec.Write;
      CallsAre(View(), id, data);
      if id !in streams {
        r := Err("Stream entry does not exist");
      } else if RemoteUni(server, id) {
        r := Err("Cannot write to a remote unidirectional stream");
      } else {
        var e := streams[id];
        if e.closed || e.finSent || e.finPending {
          r := Err("Stream is not writable");
        } else {
          WriteEntry(id, data);
          r := Ok(|data|);
        }
      }
    }

    method Write(id: int, data: Bytes) returns (r: Result<int, string>)
      requires Valid()
      modifies this, streams.Values
      ensures Valid() && trace == old(trace) + [DoWrite(id, data)] && streams == old(streams)
      ensures r.Ok? <==> WriteAllowed(old(View()), id)
      ensures r.Ok? ==> r.value == |data|
    {
      hide Run, Lived, Apply, WriteAllowed, TableView;
      ghost var s := View();
      CallsAre(s, id, data);
      r := TryWrite(id, data);
      Note(s, DoWrite(id, data));
    }

    method TryEnd(id: int, final: Bytes) returns (r: Result<(), string>)
      requires Owned()
      modifies streams.Values
      ensures Owned() && View() == Apply(old(View()), DoEnd(id, final))
      ensures r.Ok? <==> id in streams && !RemoteUni(server, id)
    {
      hide Apply, StreamSpec.End;
      CallsAre(View(), id, final);
      if id !in streams {
        r := Err("Stream entry does not exist");
      } else if RemoteUni(server, id) {
        r := Err("Cannot end a remote unidirectional stream");
      } else {
        EndEntry(id, final);
        r := Ok(());
      }
    }

    method End(id: int, final: Bytes) returns (r: Result<(), string>)
      requires Valid()
      modifies this, streams.Values
      ensures Valid() && trace == old(trace) + [DoEnd(id, final)] && streams == old(streams)
      ensures r.Ok? <==> id in streams && !RemoteUni(server, id)
    {
      hide Run, Lived, Apply, TableView;
      ghost var s := View();
      CallsAre(s, id, final);
      r := TryEnd(id, final);
      Note(s, DoEnd(id, final));
    }

    method ResetLocally(id: int, code: int)
      requires Owned() && id in streams
      modifies `events, `log, streams[id]
      ensures Owned() && View() == PutPost(old(View()), id, StreamSpec.Reset(old(View()).table.At(id)),
                                           true, Event(StreamReset, id, code, false, None))
    {
      streams[id].ResetEntry();
      OneEntry(streams[id]);
      PushEvent(Event(StreamReset, id, code, false, None));
    }

    /** reset; unless the connection is closed, ngtcp2_conn_shutdown_stream is asked, and may fail. */
    method Reset(id: int, code: int) returns (r: Result<(), string>)
      requires Valid()
      modifies this, streams.Values
      ensures Valid() && streams == old(streams)
      ensures trace == old(trace) + [DoReset(id, code, library(old(clock)).shutdownOk)]
      ensures r.Ok? <==> id in streams && (old(closed) || library(old(clock)).shutdownOk)
    {
      hide Run, Lived, StreamSpec.Reset;
      ghost var s := View();
      if id !in streams {
        r := Err("Stream entry does not exist");
      } else if !closed && !library(clock).shutdownOk {
        r := Err("ngtcp2_conn_shutdown_stream failed");
      } else {
        ResetLocally(id, code);
        r := Ok(());
      }
      ghost var st := DoReset(id, code, library(clock).shutdownOk);
      Record(s, st);
    }

    method Read(id: int, length: int) returns (r: Result<Bytes, string>)
      requires Valid()
      modifies this, streams.Values
      ensures Valid() && trace == old(trace) + [DoRead(id, length)] && streams == old(streams)
      ensures r.Ok? <==> length > 0
      ensures r.Ok? ==> var rx := if id in streams then old(streams[id].rx) else [];
        r.value == if length < |rx| then rx[..length] else rx
    {
      hide Run, Lived, Apply, StreamSpec.Read;
      ghost var s := View();
      if length <= 0 {
        r := Err("must be greater than 0");
      } else if id !in streams || |streams[id].rx| == 0 {
        r := Ok([]);
      } else {
        var chunk := ReadEntry(id, length);
        r := Ok(chunk);
      }
      ReadIs(s, id, length);
      Note(s, DoRead(id, length));
    }

    // ----- opening streams -----

    /** The library's answer to an attempt to open a stream. */
    method OpenNative(bidi: bool) returns (a: OpenAnswer)
      modifies this`lib
      ensures a == OpenOf(old(lib), bidi, library(clock)) && ValidOpen(old(lib), bidi, a)
      ensures View() == old(View()).(lib := if a.Opened? then old(lib).Advance(bidi) else old(lib))
    {
      hide TableView;
      a := library(clock).open;
      if a.Opened? {
        a := Opened(lib.Next(bidi));
        lib := lib.Advance(bidi);
      }
    }

    method EnsureNextStreamId(bidi: bool) returns (next: int)
      modifies this`nextBidi, this`nextUni
      ensures next == Predicted(old(View()), bidi)
      ensures View() == old(View()).(next := old(View()).next.Set(bidi, next))
    {
      hide TableView;
      var minimum := if server then (if bidi then 1 else 3) else (if bidi then 0 else 2);
      next := if bidi then nextBidi else nextUni;
      if next < minimum || next % 4 != minimum % 4 {
        next := minimum;
      }
      if bidi {
        nextBidi := next;
      } else {
        nextUni := next;
      }
    }

    /** open_stream_entry: the entry of this ID, made and filed if there is none. */
    method OpenStreamEntry(id: int) returns (e: StreamEntry)
      requires Owned()
      modifies this`streams, this`order
      ensures Owned() && id in streams && streams[id] == e
      ensures e.View() == old(TableView()).At(id)
      ensures TableView() == if id in old(streams) then old(TableView()) else old(TableView()).Put(id, NEW_SLOT)
      ensures streams == old(streams)[id := e]
      ensures if id in old(streams) then e == old(streams[id]) else fresh(e)
      ensures fresh(Repr() - old(Repr()))
    {
      if id in streams {
        return streams[id];
      }
      e := new StreamEntry(this, id);
      streams := streams[id := e];
      order := order + [id];
      forall x | x in streams.Values ensures x == e || x in old(streams.Values) {
      }
      assert TableView().streams == old(TableView()).streams[id := NEW_SLOT];
    }

    lemma TableHas(id: int)
      ensures TableView().Has(id) <==> id in streams
    {
    }

    method FileOpened(id: int, pending: bool)
      requires Owned()
      modifies `streams, `order, streams.Values
      ensures Owned() && fresh(Repr() - old(Repr()))
      ensures TableView() == old(TableView()).Put(id, OpenSlot(old(TableView()).At(id), pending))
    {
      hide OpenSlot;
      ghost var t := TableView();
      var e := OpenStreamEntry(id);
      e.MarkOpened(pending);
      FiledEntry(e, OpenSlot(t.At(id), pending), t);
    }

    method FileNew(id: int, pending: bool)
      requires Owned()
      modifies `streams, `order, `reused, streams.Values
      ensures Owned() && fresh(Repr() - old(Repr()))
      ensures var s := old(View()); View() == s.(reused := s.reused || s.table.Has(id),
        table := s.table.Put(id, OpenSlot(s.table.At(id), pending)))
    {
      hide OpenSlot, TableView;
      TableHas(id);
      reused := reused || id in streams;
      FileOpened(id, pending);
    }

    method AnnounceOpened(id: int)
      modifies `events, `log
      ensures View() == old(View()).(mail := old(View()).mail
        .Post(OnStream(StreamOpened, id, false)).Post(OnStream(StreamWritable, id, false)))
    {
      hide TableView;
      PushEvent(OnStream(StreamOpened, id, false));
      PushEvent(OnStream(StreamWritable, id, false));
    }

    /** The ID of the new stream; the prediction moves past it. */
    method ChooseId(bidi: bool, a: OpenAnswer) returns (id: int)
      modifies `nextBidi, `nextUni
      ensures id == OpenId(old(View()), bidi, a)
      ensures View() == old(View()).(next := old(View()).next.Set(bidi,
        if id >= Predicted(old(View()), bidi) then id + 4 else Predicted(old(View()), bidi)))
    {
      hide TableView;
      var next := EnsureNextStreamId(bidi);
      id := if a.Opened? then a.id else next;
      if id >= next {
        if bidi {
          nextBidi := id + 4;
        } else {
          nextUni := id + 4;
        }
      }
    }

    /** What openStream and openUniStream do once the library has answered. */
    method OpenAnswered(ghost s: Sys, bidi: bool, a: OpenAnswer) returns (id: int)
      requires Owned() && OpenAllowed(s, a)
      requires View() == s.(lib := if a.Opened? then s.lib.Advance(bidi) else s.lib)
      modifies `nextBidi, `nextUni, `streams, `order, `events, `log, `reused, streams.Values
      ensures Owned() && fresh(Repr() - old(Repr()))
      ensures View() == Open(s, bidi, a) && id == OpenId(s, bidi, a)
    {
      id := ChooseId(bidi, a);
      FileNew(id, a.IdBlocked?);
      AnnounceOpened(id);
    }

    /** The library is asked to open a stream, and if it does or the stream has to wait, the
        stream is filed. */
    method AskAndFile(ghost s: Sys, bidi: bool) returns (r: Result<int, string>)
      requires Owned() && View() == s && !closed
      modifies `lib, `nextBidi, `nextUni, `streams, `order, `events, `log, `reused, streams.Values
      ensures Owned() && fresh(Repr() - old(Repr()))
      ensures var a := OpenOf(s.lib, bidi, library(clock));
        && View() == Open(s, bidi, a) && (r.Ok? <==> !a.OpenFailed?)
        && (r.Ok? ==> r.value == if a.Opened? then a.id else Predicted(s, bidi))
    {
      hide Open, OpenOf, Predicted, TableView;
      var a := OpenNative(bidi);
      if a.OpenFailed? {
        OpenRefused(s, bidi, a);
        r := Err("ngtcp2_conn_open_stream failed");
      } else {
        var id := OpenAnswered(s, bidi, a);
        r := Ok(id);
      }
    }

    /** openStream and openUniStream; on a closed connection the library is not asked. */
    method OpenStream(bidi: bool) returns (r: Result<int, string>)
      requires Valid()
      modifies this, streams.Values
      ensures Valid() && fresh(Repr() - old(Repr()))
      ensures var a := OpenOf(old(lib), bidi, library(old(clock)));
        && trace == old(trace) + [DoOpen(bidi, a)]
        && (r.Ok? <==> !old(closed) && !a.OpenFailed?)
        && (r.Ok? ==> r.value == if a.Opened? then a.id else Predicted(old(View()), bidi))
    {
      hide Run, Lived, Open, OpenOf, Predicted, TableView;
      ghost var s, a := View(), OpenOf(lib, bidi, library(clock));
      if closed {
        OpenRefused(s, bidi, a);
        r := Err("Connection is closed");
      } else {
        r := AskAndFile(s, bidi);
      }
      Record(s, DoOpen(bidi, a));
    }

    // ----- closing, events -----

    method Close(code: int, reason: Option<string>)
      requires Valid()
      modifies this
      ensures Valid() && trace == old(trace) + [DoClose(code, reason)] && streams == old(streams)
    {
      hide Run, Lived;
      ghost var s := View();
      if !closeRequested {
        CloseOnce(code, reason);
      }
      Note(s, DoClose(code, reason));
    }

    method CloseOnce(code: int, reason: Option<string>)
      requires !closeRequested
      modifies `closeRequested, `closed, `closeEventEmitted, `lastError, `events, `log
      ensures View() == ConnectionSpec.Close(old(View()), code, reason)
    {
      hide TableView, CString;
      lastError := ByApplication(code, if reason.Some? && |reason.value| > 0 then reason else None);
      closeRequested := true;
      closed := true;
      if !closeEventEmitted {
        PushEvent(Event(ConnectionClosed, -1, code, false,
                        if reason.Some? then Some(CString(reason.value)) else None));
        closeEventEmitted := true;
      }
    }

    /** sync_state */
    method SyncState()
      modifies `draining, `drainingEventEmitted, `closed, `closeEventEmitted, `events, `log
      ensures View() == Sync(old(View()))
    {
      hide TableView;
      if lib.draining {
        NoteDraining();
      }
      if lib.closing || lib.draining {
        NoteClosed();
      }
    }

    method NoteDraining()
      modifies `draining, `drainingEventEmitted, `events, `log
      ensures var s := old(View()); View() == s.(life := s.life.(draining := true, drainingEventEmitted := true),
        mail := s.mail.PostIf(!s.life.drainingEventEmitted, Event(ConnectionDraining, -1, 0, true, None)))
    {
      hide TableView;
      draining := true;
      if !drainingEventEmitted {
        drainingEventEmitted := true;
        PushEvent(Event(ConnectionDraining, -1, 0, true, None));
      }
    }

    method NoteClosed()
      modifies `closed, `closeEventEmitted, `events, `log
      ensures var s := old(View()); View() == s.(life := s.life.(closed := true, closeEventEmitted := true),
        mail := s.mail.PostIf(!s.life.closeEventEmitted, Event(ConnectionClosed, -1, s.lib.errorCode, true, None)))
    {
      hide TableView;
      if !closeEventEmitted {
        PushEvent(Event(ConnectionClosed, -1, lib.errorCode, true, None));
      }
      closed, closeEventEmitted := true, true;
    }

    method PopEvent() returns (e: Event)
      requires events != []
      modifies `events, `handed
      ensures old(events) == [e] + events && handed == old(handed) + [e]
    {
      e := events[0];
      events := events[1..];
      handed := handed + [e];
    }

    method PopAllEvents() returns (r: seq<Event>)
      modifies `events, `handed
      ensures r == old(events) && events == [] && handed == old(handed) + r
    {
      r := [];
      while |events| > 0
        invariant r + events == old(events) && handed == old(handed) + r
        decreases |events|
      {
        var e := PopEvent();
        r := r + [e];
      }
    }

    method DrainEvents() returns (r: seq<Event>)
      requires Valid()
      modifies this
      ensures Valid() && trace == old(trace) + [DoTakeEvents] && streams == old(streams)
      ensures r == old(events) && events == []
      ensures handed == old(handed) + r && handed == log
    {
      ghost var s := View();
      r := PopAllEvents();
      Note(s, DoTakeEvents);
      Reachable();
    }

    // ----- callbacks -----

    method HandshakeCompletedCb()
      requires Valid()
      modifies this
      ensures Valid() && trace == old(trace) + [OnHandshake] && streams == old(streams)
    {
      hide Run, Lived, TableView;
      ghost var s := View();
      if !established {
        established := true;
        PushEvent(Event(HandshakeCompleted, -1, 0, false, None));
      }
      Note(s, OnHandshake);
    }

    method FileOpenedByPeer(id: int)
      requires Owned()
      modifies `streams, `order, streams.Values
      ensures Owned() && fresh(Repr() - old(Repr()))
      ensures var x := old(TableView()).At(id);
        TableView() == old(TableView()).Put(id, x.(e := x.e.(writable := IsLocal(server, id) || IsBidi(id))))
    {
      hide IsLocal, IsBidi;
      ghost var t := TableView();
      var e := OpenStreamEntry(id);
      e.SetWritable(IsLocal(server, id) || IsBidi(id));
      FiledEntry(e, e.View(), t);
    }

    method AddPeerStream(id: int)
      requires Owned()
      modifies `streams, `order, `events, `log, streams.Values
      ensures Owned() && fresh(Repr() - old(Repr()))
      ensures var s, x := old(View()), old(TableView()).At(id);
        View() == PutPost(s, id, x.(e := x.e.(writable := IsLocal(server, id) || IsBidi(id))), true,
                          OnStream(StreamOpened, id, true))
    {
      FileOpenedByPeer(id);
      PushEvent(OnStream(StreamOpened, id, true));
    }

    /** For every ID the entry is found or made; the run grows if the library keeps its
        contract, by which the stream is a new one of the peer. */
    method StreamOpenCb(id: int)
      requires Valid()
      modifies this, streams.Values
      ensures Owned() && View() == Apply(old(View()), OnStreamOpen(id)) && fresh(Repr() - old(Repr()))
      ensures Enabled(old(View()), OnStreamOpen(id)) ==> Valid() && trace == old(trace) + [OnStreamOpen(id)]
    {
      hide Run, Lived, Apply, PutPost, TableView;
      ghost var s := View();
      var expected := id >= 0 && !IsLocal(server, id) && id !in streams;
      TableHas(id);
      AddPeerStream(id);
      PeerStreamAdded(s, id);
      if expected {
        Note(s, OnStreamOpen(id));
      }
    }

    method FileData(id: int, data: Bytes, fin: bool) returns (notify: bool)
      requires Owned()
      modifies `streams, `order, streams.Values
      ensures Owned() && fresh(Repr() - old(Repr()))
      ensures TableView() == old(TableView()).Put(id, Receive(old(TableView()).At(id), data, fin))
      ensures notify == ReceiveNotifies(old(TableView()).At(id), data)
    {
      hide Receive, ReceiveNotifies;
      ghost var t := TableView();
      var e := OpenStreamEntry(id);
      notify := e.ReceiveRx(data, fin);
      FiledEntry(e, e.View(), t);
    }

    method DeliverData(id: int, data: Bytes, fin: bool)
      requires Owned()
      modifies `streams, `order, `events, `log, streams.Values
      ensures Owned() && fresh(Repr() - old(Repr()))
      ensures var s, x := old(View()), old(TableView()).At(id);
        View() == PutPost(s, id, Receive(x, data, fin), ReceiveNotifies(x, data), OnStream(StreamReadable, id, true))
    {
      var notify := FileData(id, data, fin);
      if notify {
        PushEvent(OnStream(StreamReadable, id, true));
      }
    }

    method RecvStreamDataCb(id: int, data: Bytes, fin: bool)
      requires Valid() && Known(View(), id)
      modifies this, streams.Values
      ensures Valid() && trace == old(trace) + [OnData(id, data, fin)] && fresh(Repr() - old(Repr()))
    {
      hide Run, Lived;
      ghost var s := View();
      DeliverData(id, data, fin);
      Note(s, OnData(id, data, fin));
    }

    method FileEnded(id: int, reset: bool)
      requires Owned()
      modifies `streams, `order, streams.Values
      ensures Owned() && fresh(Repr() - old(Repr()))
      ensures var x := old(TableView()).At(id);
        TableView() == old(TableView()).Put(id, if reset then ResetByPeer(x) else CloseByPeer(x))
    {
      hide ResetByPeer, CloseByPeer;
      ghost var t := TableView();
      var e := OpenStreamEntry(id);
      e.EndByPeer(reset);
      FiledEntry(e, e.View(), t);
    }

    method EndPeerStream(id: int, reset: bool, e: Event)
      requires Owned()
      modifies `streams, `order, `events, `log, streams.Values
      ensures Owned() && fresh(Repr() - old(Repr()))
      ensures var s, x := old(View()), old(TableView()).At(id);
        View() == PutPost(s, id, if reset then ResetByPeer(x) else CloseByPeer(x), true, e)
    {
      FileEnded(id, reset);
      PushEvent(e);
    }

    method StreamCloseCb(id: int, code: int)
      requires Valid() && Known(View(), id)
      modifies this, streams.Values
      ensures Valid() && trace == old(trace) + [OnStreamClose(id, code)] && fresh(Repr() - old(Repr()))
    {
      hide Run, Lived;
      ghost var s := View();
      EndPeerStream(id, false, Event(StreamClosed, id, code, true, None));
      Note(s, OnStreamClose(id, code));
    }

    method StreamResetCb(id: int, code: int)
      requires Valid() && Known(View(), id)
      modifies this, streams.Values
      ensures Valid() && trace == old(trace) + [OnStreamReset(id, code)] && fresh(Repr() - old(Repr()))
    {
      hide Run, Lived;
      ghost var s := View();
      EndPeerStream(id, true, Event(StreamReset, id, code, true, None));
      Note(s, OnStreamReset(id, code));
    }

    method AckedStreamDataCb(id: int)
      requires Valid() && Known(View(), id)
      modifies this, streams.Values
      ensures Valid() && trace == old(trace) + [OnAcked(id)] && streams == old(streams)
    {
      hide Run, Lived;
      ghost var s := View();
      if id in streams {
        AckedEntry(id);
      }
      Note(s, OnAcked(id));
    }

    method AckedEntry(id: int)
      requires Owned() && id in streams
      modifies `events, `log, streams[id]
      ensures Owned()
      ensures var x := old(View()).table.At(id);
        View() == PutPost(old(View()), id, Acked(x), !AckIgnored(x.e), OnStream(StreamWritable, id, true))
    {
      var e := streams[id];
      var notify := !(e.closed || e.reset || e.finSent) && !e.writable;
      if notify {
        e.writable := true;
      }
      OneEntry(e);
      if notify {
        PushEvent(OnStream(StreamWritable, id, true));
      }
    }

    method SetPeriod(closing: bool, draining: bool, code: int)
      modifies `lib
      ensures View() == old(View()).(lib := old(lib).(closing := old(lib).closing || closing,
        draining := old(lib).draining || draining, errorCode := code))
    {
      hide TableView;
      lib := lib.(closing := lib.closing || closing, draining := lib.draining || draining, errorCode := code);
    }

    /** The library enters its closing or draining period, or notes an error. */
    method ChangePeriod(closing: bool, draining: bool, code: int)
      requires Valid()
      modifies this
      ensures Valid() && trace == old(trace) + [OnPeriod(closing, draining, code)] && streams == old(streams)
    {
      hide Run, Lived;
      ghost var s := View();
      SetPeriod(closing, draining, code);
      Note(s, OnPeriod(closing, draining, code));
    }

    // ----- draining -----

    /** pick_tx_stream. The clamp of the offset is kept; it never acts on entries in
        normal form. */
    method PickTxStream() returns (e: StreamEntry?, data: Bytes, fin: bool)
      requires Owned() && forall i :: 0 <= i < |order| ==> order[i] in streams
      ensures e == null ==> Pick(TableView(), order) == None && data == [] && !fin
      ensures e != null ==> Pick(TableView(), order) == Some(e.id) && e.id in streams && streams[e.id] == e
      ensures e != null ==> data == Unsent(e.View().e) && fin == e.finPending
    {
      for i := 0 to |order|
        invariant forall j :: 0 <= j < i ==> !HasWork(TableView().At(order[j]).e)
      {
        e := streams[order[i]];
        if !e.closed && !e.reset && (e.txOffset < |e.tx| || e.finPending) {
          PickSkips(TableView(), order, i);
          var offset := if e.txOffset > |e.tx| then |e.tx| else e.txOffset;
          return e, e.tx[offset..], e.finPending;
        }
      }
      PickSkips(TableView(), order, |order|);
      return null, [], false;
    }

    ghost method NoteMismatch()
      modifies `mismatch
      ensures View() == old(View()).(mismatch := true)
    {
      hide TableView;
      mismatch := true;
    }

    method ClearPending(e: StreamEntry)
      requires Owned() && e.id in streams && streams[e.id] == e
      modifies e`pendingOpen
      ensures Owned()
      ensures View() == Put(old(View()), e.id, old(e.View()).(e := old(e.View().e).(pendingOpen := false)))
    {
      e.pendingOpen := false;
      OneEntry(e);
    }

    /** The library's answer to opening a pending stream. */
    method OpenPicked(ghost s: Sys, e: StreamEntry) returns (open: OpenAnswer)
      requires View() == s && Owned() && e.id in streams && streams[e.id] == e && e.pendingOpen
      requires Target(s, false) == Some(e.id)
      modifies `lib, `mismatch, e`pendingOpen
      ensures Owned() && View() == AfterOpen(s, false, open)
      ensures open == OpenOf(s.lib, IsBidi(e.id), library(clock)) && ValidOpen(s.lib, IsBidi(e.id), open)
    {
      hide HasWork, Pick, AfterOpen;
      assert s.table.At(e.id) == e.View();
      open := OpenNative(IsBidi(e.id));
      AfterOpenOf(s, e.id, open);
      if open.Opened? {
        if open.id != e.id {
          NoteMismatch();
        } else {
          ClearPending(e);
        }
      }
    }

    /** The library's answer to a write; what it takes, it remembers. */
    method WritevStream(source: Option<int>, data: Bytes, fin: bool) returns (a: WriteAnswer)
      modifies `lib
      ensures a == WriteOf(old(lib), source, data, library(clock))
      ensures match source case None => ValidConnWrite(old(lib), a) case Some(id) => ValidWrite(old(lib), id, data, a)
      ensures lib == if source.None? || a.Stopped? || a.Fatal? then old(lib)
        else LibAfterWrite(old(lib), source.value, data, fin, a)
    {
      a := WriteOf(lib, source, data, library(clock));
      if source.Some? && !a.Stopped? && !a.Fatal? {
        lib := LibAfterWrite(lib, source.value, data, fin, a);
      }
    }

    method UpdateTx(e: StreamEntry, finAttempted: bool, a: WriteAnswer)
      requires Owned() && e.id in streams && streams[e.id] == e && finAttempted == e.finPending
      requires !a.ShutWr? && !a.Stopped? && !a.Fatal?
      modifies `events, `log, e
      ensures Owned()
      ensures var s, x := old(View()), old(e.View());
        View() == PutPost(s, e.id, Offer(x, a), OfferNotifies(x, a), OnStream(StreamWritable, e.id, false))
    {
      hide StreamSpec.UpdateTx, Unsent, Offer, OfferNotifies;
      ghost var x := e.View();
      OfferIsUpdate(x, a);
      var notify := e.UpdateTxEntry(a.wdatalen, finAttempted, a.Packet?);
      e.history := Offer(x, a).h;
      OneEntry(e);
      if notify {
        PushEvent(OnStream(StreamWritable, e.id, false));
      }
    }

    method DropTx(e: StreamEntry)
      requires Owned() && e.id in streams && streams[e.id] == e
      modifies e
      ensures Owned()
      ensures View() == old(View()).(table := old(TableView()).Put(e.id, Offer(old(e.View()), ShutWr)))
    {
      e.DiscardTx();
      OneEntry(e);
    }

    /** What the loop body does with the answer when an entry was offered. */
    method ReactWithEntry(ghost s: Sys, e: StreamEntry, fin: bool, a: WriteAnswer)
      requires Owned() && e.id in streams && streams[e.id] == e && fin == e.finPending
      requires !a.Stopped? && !a.Fatal?
      requires View() == s.(lib := LibAfterWrite(s.lib, e.id, Unsent(e.View().e), fin, a))
      modifies `events, `log, e
      ensures Owned() && View() == OfferFrom(s, e.id, a)
    {
      assert s.table.At(e.id) == e.View();
      if a.ShutWr? {
        DropTx(e);
      } else {
        UpdateTx(e, fin, a);
      }
    }

    method NoteFailure()
      modifies `lastError
      ensures View() == old(View()).(lastError := ByLibrary)
    {
      hide TableView;
      lastError := ByLibrary;
    }

    /** One write to the library and the reaction to its answer. */
    method WriteAndReact(ghost s: Sys, e: StreamEntry?, data: Bytes, fin: bool) returns (a: WriteAnswer)
      requires Owned() && View() == s
      requires e == null ==> data == []
      requires e != null ==> e.id in streams && streams[e.id] == e && fin == e.finPending && data == Unsent(e.View().e)
      modifies `lib, `lastError, `events, `log, `draining, `drainingEventEmitted, `closed, `closeEventEmitted, e
      ensures Owned()
      ensures var source := if e == null then None else Some(e.id);
        && a == WriteOf(s.lib, source, data, library(clock))
        && ValidAnswer(s, source, a) && View() == AfterAnswer(s, source, a)
    {
      hide AfterAnswer, OfferFrom, Sync, Unsent, ValidWrite, ValidConnWrite, AfterWrite;
      var source := if e == null then None else Some(e.id);
      a := WritevStream(source, data, fin);
      AnswerIs(s, source, a);
      if a.Stopped? {
        SyncState();
      } else if a.Fatal? {
        NoteFailure();
      } else if e != null {
        ReactWithEntry(s, e, fin, a);
      }
    }

    /** The first half of the drain loop's body: pick an entry, and open it if need be. */
    method PickAndOpen(connOnly: bool) returns (e: StreamEntry?, data: Bytes, fin: bool, failed: bool, ghost open: OpenAnswer)
      requires Owned() && forall i :: 0 <= i < |order| ==> order[i] in streams
      modifies `lib, `mismatch, streams.Values
      ensures Owned() && View() == AfterOpen(old(View()), connOnly, open)
      ensures open == if NeedsOpen(old(View()), connOnly)
        then OpenOf(old(lib), IsBidi(Target(old(View()), connOnly).value), library(clock)) else IdBlocked
      ensures failed == OpenThrows(old(View()), connOnly, open)
      ensures !failed ==> Source(old(View()), connOnly, open) == if e == null then None else Some(e.id)
      ensures !failed && e == null ==> data == []
      ensures !failed && e != null ==>
        e.id in streams && streams[e.id] == e && fin == e.finPending && data == Unsent(e.View().e)
    {
      hide HasWork, Pick;
      ghost var s := View();
      e, data, fin, failed, open := null, [], false, false, IdBlocked;
      if !connOnly {
        e, data, fin := PickTxStream();
      }
      if e != null && e.pendingOpen {
        var rv := OpenPicked(s, e);
        open := rv;
        failed := rv.OpenFailed? || (rv.Opened? && rv.id != e.id);
        if rv.IdBlocked? {
          e, data, fin := null, [], false;
        }
      }
    }

    /** The body of the drain loop. */
    method RoundBody(connOnly: bool) returns (flow: Flow, payload: Bytes, ghost open: OpenAnswer, ghost a: WriteAnswer)
      requires Owned() && forall i :: 0 <= i < |order| ==> order[i] in streams
      modifies `lib, `mismatch, `lastError, `events, `log, `draining, `drainingEventEmitted, `closed, `closeEventEmitted, streams.Values
      ensures Owned()
      ensures View() == Round(old(View()), connOnly, open, a) && ValidRound(old(View()), connOnly, open, a)
      ensures DoRound(connOnly, open, a) == RoundOf(old(View()), connOnly, library(clock))
      ensures flow == RoundFlow(old(View()), connOnly, open, a)
      ensures flow == Collect ==> a.Packet? && a.payload == payload
      ensures flow == Throw ==> a.Fatal?
    {
      hide Round, ValidRound, RoundOf, RoundFlow, AfterOpen, AfterAnswer, Target, NeedsOpen, ValidAnswer, OpenThrows, Source;
      var e, data, fin, failed;
      e, data, fin, failed, open := PickAndOpen(connOnly);
      payload := [];
      if failed {
        a := Fatal;
        RoundPieces(old(View()), connOnly, open, a, library(clock));
        return Throw, payload, open, a;
      }
      var answer := WriteAndReact(View(), e, data, fin);
      a := answer;
      RoundPieces(old(View()), connOnly, open, a, library(clock));
      match answer {
        case Packet(bytes, _) => flow, payload := Collect, bytes;
        case Zero(_) => flow := Stop;
        case WriteMore(_) => flow := Again(false);
        case DataBlocked(_) => flow := if e != null then Again(true) else Stop;
        case ShutWr => flow := Again(false);
        case Stopped(_) => flow := Stop;
        case Fatal => flow := Throw;
      }
    }

    lemma OrderFiled()
      requires Valid()
      ensures forall i :: 0 <= i < |order| ==> order[i] in streams
    {
      Reachable();
      var t := View().table;
      assert t.order == order && t.streams.Keys == streams.Keys;
      forall i | 0 <= i < |order| ensures order[i] in streams {
        var id := order[i];
        assert id in t.order;
      }
    }

    method TxRound(connOnly: bool) returns (flow: Flow, payload: Bytes, ghost st: Step)
      requires closeRequested ==> closePacketSent
      requires Valid()
      modifies `lib, `mismatch, `lastError, `events, `log, `draining, `drainingEventEmitted, `closed, `closeEventEmitted, `trace, `clock, streams.Values
      ensures Valid() && streams == old(streams) && trace == old(trace) + [st]
      ensures st.DoRound? && st.connOnly == connOnly
      ensures st == RoundOf(old(View()), connOnly, library(old(clock)))
      ensures flow == RoundFlow(old(View()), connOnly, st.open, st.answer)
      ensures flow == Collect ==> st.answer.Packet? && st.answer.payload == payload
      ensures flow == Throw ==> st.answer.Fatal?
      ensures ValidRound(old(View()), connOnly, st.open, st.answer)
      ensures View() == Round(old(View()), connOnly, st.open, st.answer)
    {
      hide Run, Lived, Round, ValidRound, RoundFlow, RoundOf;
      ghost var s := View();
      OrderFiled();
      ghost var open, a;
      flow, payload, open, a := RoundBody(connOnly);
      st := DoRound(connOnly, open, a);
      Record(s, st);
    }

    // ----- drainOutgoingDatagrams -----

    /** Writes a CONNECTION_CLOSE packet that carries this error. */
    method WriteConnectionClose(error: CloseError) returns (a: CloseAnswer)
      ensures a == CloseOf(lib, error, library(clock)) && ValidClose(lib, error, a)
    {
      a := CloseOf(lib, error, library(clock));
    }

    method SendClose() returns (a: CloseAnswer)
      requires CloseDue(View())
      modifies `lib, `closePacketSent, `draining, `drainingEventEmitted, `closed, `closeEventEmitted, `events, `log
      ensures a == CloseOf(old(lib), lastError, library(clock)) && ValidClose(old(lib), lastError, a)
      ensures View() == WriteClose(old(View()), a) && (!a.CloseFatal? ==> closePacketSent)
    {
      hide SyncLife, SyncMail, TableView;
      a := WriteConnectionClose(lastError);
      match a {
        case ClosePacket(_, _) =>
          lib := lib.(closing := true);
          closePacketSent := true;
        case CloseNothing =>
          closePacketSent := true;
        case CloseStopped(_) =>
          closePacketSent := true;
          SyncState();
        case CloseFatal =>
      }
    }

    method SendCloseAndRecord() returns (a: CloseAnswer)
      requires Valid() && CloseDue(View())
      modifies `lib, `closePacketSent, `draining, `drainingEventEmitted, `closed, `closeEventEmitted, `events, `log, `trace, `clock
      ensures Valid() && streams == old(streams) && trace == old(trace) + [DoWriteClose(a)]
      ensures !a.CloseFatal? ==> closePacketSent
    {
      hide Run, Lived, CloseOf, WriteClose, ValidClose, TableView;
      ghost var s := View();
      a := SendClose();
      Record(s, DoWriteClose(a));
    }

    /** The branch of drainOutgoingDatagrams for a connection closed locally. */
    method DrainClose() returns (ok: bool, datagrams: seq<Bytes>, ghost steps: seq<Step>)
      requires Valid() && CloseDue(View())
      modifies `lib, `closePacketSent, `draining, `drainingEventEmitted, `closed, `closeEventEmitted, `events, `log, `trace, `clock
      ensures Valid() && streams == old(streams) && trace == old(trace) + steps
      ensures DrainSteps(old(View()), steps, ok) && datagrams == Payloads(steps) && |datagrams| <= 1
      ensures ok ==> closePacketSent
    {
      var a := SendCloseAndRecord();
      ok := !a.CloseFatal?;
      datagrams := if a.ClosePacket? then [a.payload] else [];
      steps := [DoWriteClose(a)];
      assert steps[..0] == [];
    }

    method SyncAndRecord()
      requires Valid()
      modifies `draining, `drainingEventEmitted, `closed, `closeEventEmitted, `events, `log, `trace, `clock
      ensures Valid() && streams == old(streams) && trace == old(trace) + [DoSync]
      ensures closed <==> old(closed) || lib.closing || lib.draining
    {
      hide Run, Lived;
      ghost var s := View();
      SyncState();
      Note(s, DoSync);
    }

    ghost function Work(): nat
      reads this, streams.Values
    {
      SendTheorems.Work(View())
    }

    /** A round that lets the loop go on without a packet leaves less work, or asks for one
        round without a stream. */
    method MeasuredRound(connOnly: bool) returns (flow: Flow, payload: Bytes, ghost st: Step)
      requires closeRequested ==> closePacketSent
      requires Valid()
      modifies `lib, `mismatch, `lastError, `events, `log, `draining, `drainingEventEmitted, `closed, `closeEventEmitted, `trace, `clock, streams.Values
      ensures Valid() && streams == old(streams) && trace == old(trace) + [st]
      ensures st.DoRound? && st.connOnly == connOnly && flow == FlowAfter(old(View()), st)
      ensures PayloadOf(st) == if flow == Collect then [payload] else []
      ensures flow == Again(false) ==> Work() < old(Work())
      ensures flow == Again(true) ==> Work() <= old(Work()) && !connOnly
    {
      hide Run, Lived, Apply;
      ghost var s := View();
      Reachable();
      flow, payload, st := TxRound(connOnly);
      SendTheorems.RoundMakesProgress(s, connOnly, st.open, st.answer);
    }

    /** Since `start` the loop has made these iterations, with these packets. */
    ghost predicate Drained(start: seq<Step>, steps: seq<Step>, datagrams: seq<Bytes>)
      reads `trace
    {
      trace == start + steps && datagrams == Payloads(steps) && LoopRun(Run(Init(server), start), steps)
    }

    method CollectRound(connOnly: bool, datagrams: seq<Bytes>, ghost start: seq<Step>, ghost steps: seq<Step>)
        returns (flow: Flow, more: seq<Bytes>, ghost steps': seq<Step>)
      requires closeRequested ==> closePacketSent
      requires Valid() && Drained(start, steps, datagrams) && |datagrams| < MAX_PACKETS
      requires GoesOn(LastFlow(Run(Init(server), start), steps), connOnly)
      modifies `lib, `mismatch, `lastError, `events, `log, `draining, `drainingEventEmitted, `closed, `closeEventEmitted, `trace, `clock, streams.Values
      ensures Valid() && Drained(start, steps', more) && flow == LastFlow(Run(Init(server), start), steps')
      ensures |more| == |datagrams| + (if flow == Collect then 1 else 0)
      ensures flow == Again(false) ==> Work() < old(Work())
      ensures flow == Again(true) ==> Work() <= old(Work()) && !connOnly
    {
      hide Run, Lived, Apply;
      RunConcat(Init(server), start, steps);
      var payload;
      ghost var st;
      flow, payload, st := MeasuredRound(connOnly);
      LoopSnoc(Run(Init(server), start), steps, st);
      steps' := steps + [st];
      more := if flow == Collect then datagrams + [payload] else datagrams;
    }

    /** The drain loop: it stops for every behaviour of the library, after at most 256
        packets, makes exactly the iterations that the answers ask for, and hands out
        every packet the library produced, in order. */
    method DrainLoop() returns (ok: bool, datagrams: seq<Bytes>, ghost steps: seq<Step>)
      requires closeRequested ==> closePacketSent
      requires Valid()
      modifies `lib, `mismatch, `lastError, `events, `log, `draining, `drainingEventEmitted, `closed, `closeEventEmitted, `trace, `clock, streams.Values
      ensures Valid() && streams == old(streams) && trace == old(trace) + steps
      ensures LoopRun(old(View()), steps) && datagrams == Payloads(steps) && |datagrams| <= MAX_PACKETS
      ensures if ok then LoopEnds(old(View()), steps) else LastFlow(old(View()), steps) == Throw
    {
      hide Run, Lived, Apply;
      ok, datagrams, steps := true, [], [];
      var connOnly := false;
      while true
        invariant Valid() && Drained(old(trace), steps, datagrams) && |datagrams| < MAX_PACKETS && ok
        invariant GoesOn(LastFlow(Run(Init(server), old(trace)), steps), connOnly)
        decreases MAX_PACKETS - |datagrams|, Work(), if connOnly then 0 else 1
      {
        var flow;
        flow, datagrams, steps := CollectRound(connOnly, datagrams, old(trace), steps);
        match flow {
          case Again(force) =>
            connOnly := force;
          case Collect =>
            connOnly := false;
            if |datagrams| >= MAX_PACKETS {
              break;
            }
          case Stop =>
            break;
          case Throw =>
            ok := false;
            break;
        }
      }
    }

    /** The branch of drainOutgoingDatagrams for everything else. */
    method DrainPackets() returns (ok: bool, datagrams: seq<Bytes>, ghost steps: seq<Step>)
      requires Valid() && !CloseDue(View())
      modifies `lib, `mismatch, `lastError, `events, `log, `draining, `drainingEventEmitted, `closed, `closeEventEmitted, `trace, `clock, streams.Values
      ensures Valid() && streams == old(streams) && trace == old(trace) + steps
      ensures DrainSteps(old(View()), steps, ok) && datagrams == Payloads(steps) && |datagrams| <= MAX_PACKETS
      ensures ok ==> lib.closing || lib.draining ==> closed
    {
      hide Run, Lived, Apply, LoopRun, LoopEnds, LastFlow, Payloads, DrainSteps;
      ghost var s := View();
      ok, datagrams, steps := DrainLoop();
      DrainEnds(s, steps);
      if ok {
        SyncAndRecord();
        steps := steps + [DoSync];
      }
    }

    method DrainOutgoingDatagrams() returns (ok: bool, datagrams: seq<Bytes>, ghost steps: seq<Step>)
      requires Valid()
      modifies this, streams.Values
      ensures Valid() && streams == old(streams) && trace == old(trace) + steps
      ensures DrainSteps(old(View()), steps, ok)
      ensures datagrams == if ok then Payloads(steps) else []
      ensures |datagrams| <= if CloseDue(old(View())) then 1 else MAX_PACKETS
      ensures ok ==> closeRequested ==> closePacketSent
    {
      if closeRequested && !closePacketSent {
        ok, datagrams, steps := DrainClose();
      } else {
        ok, datagrams, steps := DrainPackets();
      }
      if !ok {
        datagrams := [];
      }
    }

    // ----- recv, handleTimers, deadlines -----

    /** The library makes some callback about a stream it can name. */
    method RunStreamCallback(cb: Step)
      requires Valid() && (cb.OnData? || cb.OnStreamClose? || cb.OnStreamReset? || cb.OnAcked?)
      requires Known(View(), cb.id)
      modifies this, streams.Values
      ensures Valid() && trace == old(trace) + [cb] && fresh(Repr() - old(Repr()))
    {
      if cb.OnData? {
        RecvStreamDataCb(cb.id, cb.data, cb.fin);
      } else if cb.OnStreamClose? {
        StreamCloseCb(cb.id, cb.code);
      } else if cb.OnStreamReset? {
        StreamResetCb(cb.id, cb.code);
      } else {
        AckedStreamDataCb(cb.id);
      }
    }

    /** The contract allows the library to make this callback now. */
    predicate Allows(cb: Step)
      reads `streams, `lib
    {
      || cb.OnHandshake? || cb.OnPeriod?
      || (cb.OnStreamOpen? && cb.id >= 0 && !IsLocal(server, cb.id) && cb.id !in streams)
      || ((cb.OnData? || cb.OnStreamClose? || cb.OnStreamReset? || cb.OnAcked?)
          && cb.id >= 0 && (IsLocal(server, cb.id) ==> cb.id < lib.Next(IsBidi(cb.id))))
    }

    lemma AllowsIs(cb: Step)
      ensures CallOf(View(), cb) == if Allows(cb) then [cb] else []
      ensures Allows(cb) && cb.OnStreamOpen? ==> Enabled(View(), cb)
      ensures Allows(cb) && !cb.OnStreamOpen? && !cb.OnHandshake? && !cb.OnPeriod? ==> Known(View(), cb.id)
      ensures Allows(cb) ==> IsCallback(cb)
    {
    }

    /** The library makes this callback, or changes its period, if its contract allows it. */
    method RunCallback(cb: Step) returns (ghost steps: seq<Step>)
      requires Valid()
      modifies this, streams.Values
      ensures Valid() && trace == old(trace) + steps && fresh(Repr() - old(Repr()))
      ensures steps == CallOf(old(View()), cb) && closed == old(closed)
    {
      hide Run, Lived, Apply, Enabled, IsCallback, Known, CallOf;
      AllowsIs(cb);
      if !Allows(cb) {
        return [];
      }
      steps := [cb];
      if cb.OnHandshake? {
        HandshakeCompletedCb();
      } else if cb.OnPeriod? {
        ChangePeriod(cb.closing, cb.draining, cb.code);
      } else if cb.OnStreamOpen? {
        StreamOpenCb(cb.id);
      } else {
        RunStreamCallback(cb);
      }
      RunSnoc(Init(server), old(trace), cb);
      LifecycleTheorems.CallbackKeepsClosed(old(View()), cb);
    }

    /** The library handles a packet or an expired timer: its callbacks, then its answer. */
    method LibraryRuns() returns (a: ReadAnswer, ghost steps: seq<Step>)
      requires Valid()
      modifies this, streams.Values
      ensures Valid() && trace == old(trace) + steps && fresh(Repr() - old(Repr()))
      ensures steps == CallsOf(old(View()), library(old(clock)).calls) && a == ReadOf(lib, library(old(clock)))
      ensures closed == old(closed)
    {
      hide Run, Lived, Apply, CallOf, CallsOf;
      var b := library(clock);
      NothingCalled(old(View()));
      steps := [];
      for i := 0 to |b.calls|
        invariant Valid() && trace == old(trace) + steps && fresh(Repr() - old(Repr())) && closed == old(closed)
        invariant steps == CallsOf(old(View()), b.calls[..i]) && b == old(library(clock))
      {
        RunConcat(Init(server), old(trace), steps);
        ghost var made := RunCallback(b.calls[i]);
        CallsSnoc(old(View()), b.calls[..i], b.calls[i]);
        assert b.calls[..i + 1] == b.calls[..i] + [b.calls[i]];
        steps := steps + made;
      }
      assert b.calls[..|b.calls|] == b.calls;
      expiry := b.expiry;
      a := ReadOf(lib, b);
    }

    /** What follows the library's answer: sync_state, or its failure is recorded, by recv only
        if no error is recorded yet. */
    method ReceiveAndRecord(timer: bool) returns (a: ReadAnswer, ghost steps: seq<Step>)
      requires Valid() && (timer ==> !closed)
      modifies this, streams.Values
      ensures Valid() && trace == old(trace) + steps && fresh(Repr() - old(Repr()))
      ensures a == ReadOf(Run(old(View()), CallsOf(old(View()), library(old(clock)).calls)).lib, library(old(clock)))
      ensures ValidRead(lib, a)
      ensures steps == CallsOf(old(View()), library(old(clock)).calls)
        + [if !a.ReadFatal? then DoSync else if timer then DoTimerFailed else DoRecvFailed]
      ensures !a.ReadFatal? ==> (closed <==> old(closed) || lib.closing || lib.draining)
    {
      hide Run, Lived, Apply, CallsOf;
      a, steps := LibraryRuns();
      RunConcat(Init(server), old(trace), steps);
      if !a.ReadFatal? {
        SyncAndRecord();
        steps := steps + [DoSync];
      } else if timer {
        NoteTimerFailure();
        steps := steps + [DoTimerFailed];
      } else {
        NoteRecvFailure();
        steps := steps + [DoRecvFailed];
      }
    }

    method NoteTimerFailure()
      requires Valid() && !closed
      modifies `lastError, `trace, `clock
      ensures Valid() && trace == old(trace) + [DoTimerFailed]
    {
      hide Run, Lived, TableView;
      ghost var s := View();
      lastError := ByLibrary;
      Note(s, DoTimerFailed);
    }

    method NoteRecvFailure()
      requires Valid()
      modifies `lastError, `trace, `clock
      ensures Valid() && trace == old(trace) + [DoRecvFailed]
    {
      hide Run, Lived, TableView;
      ghost var s := View();
      if !lastError.Stays() {
        lastError := ByLibrary;
      }
      Note(s, DoRecvFailed);
    }

    /** recv: refuses an invalid address, else lets the library read the datagram. An error
        that is not treated as a failure leaves the connection closed, an idle timeout only
        if it was closed or the library is in its closing or draining period. */
    method Recv(addressesValid: bool) returns (ok: bool, ghost a: ReadAnswer, ghost steps: seq<Step>)
      requires Valid()
      modifies this, streams.Values
      ensures Valid() && trace == old(trace) + steps && fresh(Repr() - old(Repr()))
      ensures ok <==> addressesValid && !a.ReadFatal?
      ensures addressesValid ==> var calls := CallsOf(old(View()), library(old(clock)).calls);
        && a == ReadOf(Run(old(View()), calls).lib, library(old(clock)))
        && steps == calls + [if ok then DoSync else DoRecvFailed]
      ensures !addressesValid ==> steps == []
      ensures ok ==> (closed <==> old(closed) || lib.closing || lib.draining)
      ensures ok && a.ReadStopped? ==>
        (closed <==> a.kind != ErrIdleClose || old(closed) || lib.closing || lib.draining)
    {
      if !addressesValid {
        return false, ReadFatal, [];
      }
      var answer;
      answer, steps := ReceiveAndRecord(false);
      ok := !answer.ReadFatal?;
      a := answer;
    }

    /** handleTimers, with its aliases onTimeout and tick */
    method HandleTimers() returns (ok: bool, ghost a: ReadAnswer, ghost steps: seq<Step>)
      requires Valid()
      modifies this, streams.Values
      ensures Valid() && trace == old(trace) + steps && fresh(Repr() - old(Repr()))
      ensures TimerSteps(old(View()), library(old(clock)), steps, ok) && (!old(closed) ==> ok == !a.ReadFatal?)
      ensures !old(closed) ==> var calls := CallsOf(old(View()), library(old(clock)).calls);
        && a == ReadOf(Run(old(View()), calls).lib, library(old(clock)))
        && steps == calls + [if ok then DoSync else DoTimerFailed]
      ensures old(closed) ==> ok && steps == []
      ensures !old(closed) && ok ==> (closed <==> lib.closing || lib.draining)
      ensures !old(closed) && ok && a.ReadStopped? ==>
        (closed <==> a.kind != ErrIdleClose || lib.closing || lib.draining)
    {
      if closed {
        return true, ReadOk, [];
      }
      var answer;
      answer, steps := ReceiveAndRecord(true);
      ok := !answer.ReadFatal?;
      a := answer;
    }

    /** getNextTimeout at one reading of the monotonic clock */
    method GetNextTimeout(now: Deadlines.u64) returns (r: Option<nat>)
      ensures r == if closed then None else Some(Deadlines.TimeoutMs(expiry, now))
    {
      if closed {
        r := None;
      } else if expiry <= now {
        r := Some(0);
      } else {
        r := Some((expiry - now) / Deadlines.MILLISECONDS);
      }
    }

    /** getNextExpiry, with its alias getTimeoutAt */
    method GetNextExpiry(now: Deadlines.u64, epochMs: nat) returns (r: Option<nat>)
      ensures r == if closed then None else Some(epochMs + Deadlines.TimeoutMs(expiry, now))
    {
      var wait := GetNextTimeout(now);
      r := if wait.None? then None else Some(epochMs + wait.value);
    }
  }

  lemma NoSteps(server: bool, library: nat -> Behaviour)
    ensures Lived(Init(server), [], library) && Run(Init(server), []) == Init(server)
  {
  }

  lemma PeerStreamAdded(s: Sys, id: int)
    ensures Apply(s, OnStreamOpen(id)) ==
      PutPost(s, id, s.table.At(id).(e := s.table.At(id).e.(writable := IsLocal(s.server, id) || IsBidi(id))), true,
              OnStream(StreamOpened, id, true))
  {
  }

  /** An iteration, put together from its two halves. */
  lemma RoundPieces(s: Sys, connOnly: bool, open: OpenAnswer, a: WriteAnswer, b: Behaviour)
    requires open == if NeedsOpen(s, connOnly) then OpenOf(s.lib, IsBidi(Target(s, connOnly).value), b) else IdBlocked
    requires OpenThrows(s, connOnly, open) ==> a.Fatal?
    requires var s1, source := AfterOpen(s, connOnly, open), Source(s, connOnly, open);
      !OpenThrows(s, connOnly, open) ==>
        && ValidAnswer(s1, source, a)
        && a == WriteOf(s1.lib, source, if source.None? then [] else Unsent(s1.table.At(source.value).e), b)
    ensures ValidRound(s, connOnly, open, a) && DoRound(connOnly, open, a) == RoundOf(s, connOnly, b)
    ensures Round(s, connOnly, open, a) ==
      if OpenThrows(s, connOnly, open) then AfterOpen(s, connOnly, open)
      else AfterAnswer(AfterOpen(s, connOnly, open), Source(s, connOnly, open), a)
    ensures RoundFlow(s, connOnly, open, a) ==
      if OpenThrows(s, connOnly, open) then Throw else
      match a
      case Packet(_, _) => Collect
      case Zero(_) => Stop
      case WriteMore(_) => Again(false)
      case DataBlocked(_) => if Source(s, connOnly, open).Some? then Again(true) else Stop
      case ShutWr => Again(false)
      case Stopped(_) => Stop
      case Fatal => Throw
  {
    hide AfterOpen, AfterAnswer, OpenOf, WriteOf, Unsent, ValidAnswer, Pick;
  }

  lemma CallsAre(s: Sys, id: int, data: Bytes)
    ensures Apply(s, DoWrite(id, data)) ==
      if WriteAllowed(s, id) then Put(s, id, StreamSpec.Write(s.table.At(id), data)) else s
    ensures Apply(s, DoEnd(id, data)) == if EndAllowed(s, id) then Put(s, id, StreamSpec.End(s.table.At(id), data)) else s
    ensures Enabled(s, DoWrite(id, data)) && Enabled(s, DoEnd(id, data))
  {
  }

  lemma ReadIs(s: Sys, id: int, length: int)
    ensures Apply(s, DoRead(id, length)) ==
      if length > 0 && s.table.Has(id) && s.table.At(id).e.rx != [] then Put(s, id, StreamSpec.Read(s.table.At(id), length))
      else s
    ensures Enabled(s, DoRead(id, length))
  {
    if length > 0 && s.table.Has(id) && s.table.At(id).e.rx == [] {
      assert s.table.streams[id := s.table.At(id)] == s.table.streams;
    }
  }

  lemma OfferIsUpdate(x: Slot, a: WriteAnswer)
    requires !a.ShutWr? && !a.Stopped? && !a.Fatal?
    ensures (Offer(x, a).e, OfferNotifies(x, a)) == UpdateTx(x.e, a.wdatalen, x.e.finPending, a.Packet?)
  {
  }

  lemma AfterOpenOf(s: Sys, id: int, open: OpenAnswer)
    requires Target(s, false) == Some(id) && s.table.At(id).e.pendingOpen
    ensures AfterOpen(s, false, open) == if open.Opened? then OpenPending(s, id, open.id) else s
  {
  }

  lemma {:induction false} PickSkips(t: Table, order: seq<int>, k: nat)
    requires k <= |order|
    requires forall j :: 0 <= j < k ==> !HasWork(t.At(order[j]).e)
    requires k < |order| ==> t.Has(order[k]) && HasWork(t.At(order[k]).e)
    ensures Pick(t, order) == if k < |order| then Some(order[k]) else None
  {
    if k > 0 {
      PickSkips(t, order[1..], k - 1);
    }
  }
}
