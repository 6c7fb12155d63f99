/** The contract of the QUIC library (ngtcp2) as the extension relies on it. Nothing here
    is the library's code: the library is a nondeterministic environment whose answers
    are constrained by the predicates of this module. */
module Library {
  import opened Common

  /** What the library knows about the sending side of one stream. */
  datatype LibStream = LibStream(
    accepted: Bytes,          // every byte it has taken, in order
    finalSize: Option<nat>,   // the size at which it recorded a FIN
    shut: bool)               // it will take nothing more (FIN recorded, or write side shut)

  const FRESH_LIB := LibStream([], None, false)

  datatype Lib = Lib(
    streams: map<int, LibStream>,
    nextBidi: int, nextUni: int,   // the next local stream IDs it will hand out
    closing: bool, draining: bool,
    errorCode: int)                // of its connection error, 0 if it has none
  {
    function Of(id: int): LibStream {
      if id in streams then streams[id] else FRESH_LIB
    }

    function Next(bidi: bool): int {
      if bidi then nextBidi else nextUni
    }

    function Advance(bidi: bool): Lib {
      if bidi then this.(nextBidi := nextBidi + 4) else this.(nextUni := nextUni + 4)
    }
  }

  /** The three error codes that the extension does not treat as failures. */
  datatype StopKind = ErrClosing | ErrDraining | ErrIdleClose

  datatype WriteAnswer =
    | Packet(payload: Bytes, wdatalen: int)   // nwrite > 0
    | Zero(wdatalen: int)                     // nwrite == 0
    | WriteMore(wdatalen: int)
    | DataBlocked(wdatalen: int)
    | ShutWr
    | Stopped(kind: StopKind)
    | Fatal

  datatype OpenAnswer = Opened(id: int) | IdBlocked | OpenFailed

  /** The error kept for the close packet: none, the application's own, or some failure of the
      library. */
  datatype CloseError = NoError | ByApplication(code: int, reason: Option<string>) | ByLibrary {
    /** A failing recv does not replace it, or only by another failure of the library. */
    predicate Stays() {
      ByLibrary? || (ByApplication? && code != 0)
    }
  }

  /** A close packet is written with its error. */
  datatype CloseAnswer =
    | ClosePacket(payload: Bytes, error: CloseError)
    | CloseNothing
    | CloseStopped(kind: StopKind)
    | CloseFatal

  /** Result of reading a packet or handling a timer expiry. */
  datatype ReadAnswer = ReadOk | ReadStopped(kind: StopKind) | ReadFatal

  /** Stream IDs, section 2.1 of RFC 9000: bit 0 is the initiator, bit 1 the direction. */
  predicate IsBidi(id: int) {
    id % 4 < 2
  }

  predicate IsLocal(server: bool, id: int) {
    (id % 4 == 1 || id % 4 == 3) == server
  }

  function Residue(server: bool, bidi: bool): (r: int)
    ensures 0 <= r < 4 && IsBidi(r) == bidi && IsLocal(server, r)
  {
    (if bidi then 0 else 2) + (if server then 1 else 0)
  }

  predicate RemoteUni(server: bool, id: int) {
    !IsBidi(id) && !IsLocal(server, id)
  }

  function InitLib(server: bool): Lib {
    Lib(map[], Residue(server, true), Residue(server, false), false, false, 0)
  }

  predicate ValidStop(lib: Lib, kind: StopKind) {
    && (kind == ErrClosing ==> lib.closing)
    && (kind == ErrDraining ==> lib.draining)
  }

  predicate ValidOpen(lib: Lib, bidi: bool, a: OpenAnswer) {
    a.Opened? ==> a.id == lib.Next(bidi)
  }

  /** Answers to a write that names a stream and offers `data`. */
  predicate ValidWrite(lib: Lib, id: int, data: Bytes, a: WriteAnswer) {
    match a
    case Packet(payload, w) => payload != [] && w <= |data| && !lib.Of(id).shut
    case Zero(w) => w <= |data| && !lib.Of(id).shut
    case WriteMore(w) => 0 <= w <= |data| && (data != [] ==> w > 0) && !lib.Of(id).shut
    case DataBlocked(w) => w <= |data| && !lib.Of(id).shut
    case ShutWr => true
    case Stopped(kind) => ValidStop(lib, kind)
    case Fatal => true
  }

  /** Answers to a write with stream ID -1. */
  predicate ValidConnWrite(lib: Lib, a: WriteAnswer) {
    match a
    case Packet(payload, w) => payload != [] && w <= 0
    case Zero(w) => w <= 0
    case WriteMore(_) => false
    case DataBlocked(w) => w <= 0
    case ShutWr => false
    case Stopped(kind) => ValidStop(lib, kind)
    case Fatal => true
  }

  /** Answers to writing a close packet for this error: the packet carries it. */
  predicate ValidClose(lib: Lib, error: CloseError, a: CloseAnswer) {
    match a
    case ClosePacket(payload, carried) => payload != [] && carried == error
    case CloseStopped(kind) => ValidStop(lib, kind)
    case _ => true
  }

  predicate ValidRead(lib: Lib, a: ReadAnswer) {
    a.ReadStopped? ==> ValidStop(lib, a.kind)
  }

  /** How an answer changes the library's view of the stream: it takes `wdatalen` bytes,
      and records a FIN exactly when a FIN was offered and every offered byte was taken. */
  function AfterWrite(ls: LibStream, data: Bytes, fin: bool, a: WriteAnswer): LibStream {
    match a
    case ShutWr => ls.(shut := true)
    case Stopped(_) => ls
    case Fatal => ls
    case _ =>
      var got := ls.accepted + (if 0 < a.wdatalen <= |data| then data[..a.wdatalen] else []);
      if fin && a.wdatalen == |data| then LibStream(got, Some(|got|), true)
      else ls.(accepted := got)
  }

  /** `AfterWrite` for a whole library state. */
  function LibAfterWrite(lib: Lib, id: int, data: Bytes, fin: bool, a: WriteAnswer): Lib {
    lib.(streams := lib.streams[id := AfterWrite(lib.Of(id), data, fin, a)])
  }
}
