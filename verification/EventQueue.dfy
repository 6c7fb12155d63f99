/** The event queue of src/queue.c: a linked list with head, tail and size, whose events
    hold reference-counted strings; and the two places that feed and empty it. */
module EventQueue {
  import opened Common
  import opened ConnectionSpec

  /** A reference-counted string. */
  class PhpString {
    const text: string
    var refs: nat

    constructor (text: string)
      ensures this.text == text && refs == 1
    {
      this.text, refs := text, 1;
    }

    method AddRef()
      modifies this
      ensures refs == old(refs) + 1
    {
      refs := refs + 1;
    }

    /** The last release frees the string; here the count just reaches 0. */
    method Release()
      requires refs > 0
      modifies this
      ensures refs == old(refs) - 1
    {
      refs := refs - 1;
    }
  }

  datatype NativeEvent = NativeEvent(
    kind: EventKind, stream: int, code: int, byPeer: bool, reason: PhpString?, timestamp: nat)

  class Node {
    const event: NativeEvent
    var next: Node?

    constructor (event: NativeEvent)
      ensures this.event == event && next == null
    {
      this.event, next := event, null;
    }
  }

  /** The strings that these events hold, each as often as it is held. */
  ghost function Reasons(events: seq<NativeEvent>): multiset<PhpString> {
    if events == [] then multiset{}
    else Reasons(events[..|events| - 1]) + Held(events[|events| - 1])
  }

  ghost function Held(e: NativeEvent): multiset<PhpString> {
    if e.reason == null then multiset{} else multiset{e.reason}
  }

  lemma ReasonsSnoc(events: seq<NativeEvent>, e: NativeEvent)
    ensures Reasons(events + [e]) == Reasons(events) + Held(e)
  {
    assert (events + [e])[..|events|] == events;
  }

  lemma {:induction false} ReasonsCons(e: NativeEvent, events: seq<NativeEvent>)
    ensures Reasons([e] + events) == Held(e) + Reasons(events)
  {
    if events == [] {
      assert [e] + events == [] + [e];
      ReasonsSnoc([], e);
    } else {
      var n := |events| - 1;
      var front, last := events[..n], events[n];
      ReasonsCons(e, front);
      assert [e] + events == ([e] + front) + [last];
      ReasonsSnoc([e] + front, last);
      assert (Held(e) + Reasons(front)) + Held(last) == Held(e) + (Reasons(front) + Held(last));
    }
  }

  /** The events of these nodes. */
  ghost function Events(nodes: seq<Node>): (r: seq<NativeEvent>)
    ensures |r| == |nodes|
  {
    seq(|nodes|, i requires 0 <= i < |nodes| => nodes[i].event)
  }

  class Queue {
    var head: Node?
    var tail: Node?
    var size: nat
    ghost var nodes: seq<Node>

    constructor ()
      ensures Valid() && Contents() == [] && nodes == []
    {
      head, tail, size := null, null, 0;
      nodes := [];
    }

    /** The list is the chain of `nodes`: it starts at head, ends at tail, never revisits a
        node, and size is its length in 32 bits. */
    ghost predicate Valid()
      reads this, nodes
    {
      && size == |nodes| % 0x1_0000_0000
      && (if nodes == [] then head == null && tail == null
          else head == nodes[0] && tail == nodes[|nodes| - 1] && nodes[|nodes| - 1].next == null)
      && (forall i, j :: 0 <= i && j == i + 1 && j < |nodes| ==> nodes[i].next == nodes[j])
      && NoDup(nodes)
    }

    ghost function Contents(): seq<NativeEvent>
      reads `nodes
    {
      Events(nodes)
    }

    method Link(node: Node)
      requires Valid() && node !in nodes && node.next == null
      modifies this, nodes
      ensures Valid() && nodes == old(nodes) + [node]
    {
      ghost var ns := nodes;
      if tail != null {
        tail.next := node;
      } else {
        head := node;
      }
      tail := node;
      size := (size + 1) % 0x1_0000_0000;
      nodes := nodes + [node];
      forall i, j | 0 <= i && j == i + 1 && j < |nodes| ensures nodes[i].next == nodes[j] {
        assert nodes[i] == ns[i] && (j < |ns| ==> nodes[j] == ns[j]);
      }
    }

    method Push(e: NativeEvent)
      requires Valid()
      modifies this, nodes, if e.reason == null then {} else {e.reason}
      ensures Valid() && Contents() == old(Contents()) + [e]
      ensures old(nodes) <= nodes && |nodes| == |old(nodes)| + 1 && fresh(nodes[|old(nodes)|])
      ensures e.reason != null ==> e.reason.refs == old(e.reason.refs) + 1
    {
      var node := new Node(e);
      if e.reason != null {
        e.reason.AddRef();
      }
      Link(node);
    }

    /** The event's reference passes to the caller. */
    method Pop() returns (e: Option<NativeEvent>)
      requires Valid()
      modifies this
      ensures Valid()
      ensures old(nodes) == [] ==> e == None && unchanged(this)
      ensures old(nodes) != [] ==> e.Some? && old(Contents()) == [e.value] + Contents() && nodes == old(nodes[1..])
    {
      if head == null {
        return None;
      }
      ghost var ns := nodes;
      assert |nodes| > 1 ==> nodes[0].next == nodes[1];
      var node := head;
      head := node.next;
      if head == null {
        tail := null;
      }
      e := Some(node.event);
      size := if size == 0 then 0xffff_ffff else size - 1;
      nodes := nodes[1..];
      forall i, j | 0 <= i && j == i + 1 && j < |nodes| ensures nodes[i].next == nodes[j] {
        assert nodes[i] == ns[i + 1] && nodes[j] == ns[j + 1];
      }
      forall i, j | 0 <= i < j < |nodes| ensures nodes[i] != nodes[j] {
        assert nodes[i] == ns[i + 1] && nodes[j] == ns[j + 1];
      }
    }
  }

  // ----- the connection's mail -----

  /** A queued event as `ConnectionSpec` speaks of it: its reason by value, no time. */
  ghost function Abstract(e: NativeEvent): Event {
    Event(e.kind, e.stream, e.code, e.byPeer, if e.reason == null then None else Some(e.reason.text))
  }

  ghost function AbstractAll(events: seq<NativeEvent>): (r: seq<Event>)
    ensures |r| == |events| && forall i :: 0 <= i < |r| ==> r[i] == Abstract(events[i])
  {
    seq(|events|, i requires 0 <= i < |events| => Abstract(events[i]))
  }

  lemma AbstractSnoc(events: seq<NativeEvent>, e: NativeEvent)
    ensures AbstractAll(events + [e]) == AbstractAll(events) + [Abstract(e)]
  {
  }

  /** The list holds what the connection's mail has queued. */
  ghost predicate Stores(q: Queue, m: Mail)
    reads q`nodes
  {
    AbstractAll(q.Contents()) == m.events
  }

  // ----- strings and their holders -----

  /** Every string's count is the number of its holders, and only these strings are held. */
  ghost predicate Counted(strings: set<PhpString>, held: multiset<PhpString>)
    reads strings
  {
    (forall s :: s in strings ==> s.refs == held[s]) && (forall s :: s in held ==> s in strings)
  }

  /** A new string, held once, by the caller. */
  method MakeString(text: string, ghost strings: set<PhpString>, ghost held: multiset<PhpString>)
      returns (str: PhpString)
    requires Counted(strings, held)
    ensures fresh(str) && str.text == text && Counted(strings + {str}, held + multiset{str})
  {
    str := new PhpString(text);
    assert str !in held;
  }

  method Share(str: PhpString, ghost strings: set<PhpString>, ghost held: multiset<PhpString>)
    requires Counted(strings, held) && str in held
    modifies str
    ensures Counted(strings, held + multiset{str})
  {
    str.AddRef();
  }

  /** php_quic_event_release: the caller gives up its reference to the reason. */
  method ReleaseEvent(e: NativeEvent, ghost strings: set<PhpString>, ghost held: multiset<PhpString>)
    requires Counted(strings, held + Held(e))
    modifies if e.reason == null then {} else {e.reason}
    ensures Counted(strings, held)
  {
    if e.reason != null {
      assert e.reason in held + Held(e);
      e.reason.Release();
    }
  }

  // ----- event objects -----

  /** The event object handed to the application; it holds one reference to its reason. */
  class EventObject {
    const kind: EventKind
    const stream: int
    const code: int
    const byPeer: bool
    const timestamp: nat
    const reason: PhpString

    constructor (e: NativeEvent, reason: PhpString)
      ensures kind == e.kind && stream == e.stream && code == e.code && byPeer == e.byPeer
      ensures timestamp == e.timestamp && this.reason == reason
    {
      kind, stream, code, byPeer := e.kind, e.stream, e.code, e.byPeer;
      timestamp := e.timestamp;
      this.reason := reason;
    }
  }

  /** The object shows this event; an event without a reason shows the empty one. */
  ghost predicate Shows(o: EventObject, e: NativeEvent) {
    && o.kind == e.kind && o.stream == e.stream && o.code == e.code && o.byPeer == e.byPeer
    && o.timestamp == e.timestamp
    && (if e.reason == null then o.reason.text == "" else o.reason == e.reason)
  }

  /** php_quic_event_create_from_native */
  method CreateFromNative(e: NativeEvent, ghost strings: set<PhpString>, ghost held: multiset<PhpString>)
      returns (o: EventObject, ghost strings': set<PhpString>)
    requires Counted(strings, held) && Held(e) <= held
    modifies if e.reason == null then {} else {e.reason}
    ensures Shows(o, e) && strings <= strings' && fresh(strings' - strings)
    ensures Counted(strings', held + multiset{o.reason})
  {
    if e.reason == null {
      var str := MakeString("", strings, held);
      strings' := strings + {str};
      o := new EventObject(e, str);
    } else {
      assert e.reason in Held(e);
      Share(e.reason, strings, held);
      strings' := strings;
      o := new EventObject(e, e.reason);
    }
  }

  /** The caller's own reference to the reason passes to the new object. */
  method ConvertOwned(e: NativeEvent, ghost strings: set<PhpString>, ghost held: multiset<PhpString>)
      returns (o: EventObject, ghost strings': set<PhpString>)
    requires Counted(strings, held + Held(e))
    modifies if e.reason == null then {} else {e.reason}
    ensures Shows(o, e) && strings <= strings' && fresh(strings' - strings)
    ensures Counted(strings', held + multiset{o.reason})
  {
    o, strings' := CreateFromNative(e, strings, held + Held(e));
    assert (held + Held(e)) + multiset{o.reason} == (held + multiset{o.reason}) + Held(e);
    ReleaseEvent(e, strings', held + multiset{o.reason});
  }

  // ----- reference counts over the whole life of a queue -----

  /** Every string's count is the number of queued events that hold it plus the number of
      holders outside the queue. */
  ghost predicate Balanced(q: Queue, strings: set<PhpString>, outside: multiset<PhpString>)
    reads q`nodes, strings
  {
    Counted(strings, Reasons(q.Contents()) + outside)
  }

  lemma Regroup(a: multiset<PhpString>, b: multiset<PhpString>, c: multiset<PhpString>)
    ensures (a + b) + c == a + (b + c) == a + (c + b) == (a + c) + b
  {
  }

  /** Changes of counts leave the list alone. */
  twostate lemma ListKept(q: Queue)
    requires old(q.Valid()) && unchanged(q) && forall i :: 0 <= i < |q.nodes| ==> unchanged(q.nodes[i])
    ensures q.Valid()
  {
  }

  method ReleaseBeside(q: Queue, e: NativeEvent, ghost strings: set<PhpString>, ghost held: multiset<PhpString>)
    requires q.Valid() && Counted(strings, held + Held(e))
    modifies if e.reason == null then {} else {e.reason}
    ensures q.Valid() && unchanged(q) && Counted(strings, held)
  {
    ReleaseEvent(e, strings, held);
    ListKept(q);
  }

  method ConvertBeside(q: Queue, e: NativeEvent, ghost strings: set<PhpString>, ghost held: multiset<PhpString>)
      returns (o: EventObject, ghost strings': set<PhpString>)
    requires q.Valid() && Counted(strings, held + Held(e))
    modifies if e.reason == null then {} else {e.reason}
    ensures q.Valid() && unchanged(q)
    ensures Shows(o, e) && strings <= strings' && fresh(strings' - strings)
    ensures Counted(strings', held + multiset{o.reason})
  {
    o, strings' := ConvertOwned(e, strings, held);
    ListKept(q);
  }

  /** Pushing an event makes the queue one more holder of its reason. */
  method PushShared(q: Queue, e: NativeEvent, ghost strings: set<PhpString>, ghost outside: multiset<PhpString>)
    requires q.Valid() && Balanced(q, strings, outside) && Held(e) <= outside
    modifies q, q.nodes, if e.reason == null then {} else {e.reason}
    ensures q.Valid() && Balanced(q, strings, outside)
    ensures q.Contents() == old(q.Contents()) + [e]
    ensures old(q.nodes) <= q.nodes && |q.nodes| == |old(q.nodes)| + 1 && fresh(q.nodes[|old(q.nodes)|])
  {
    ghost var before := q.Contents();
    ghost var held := Reasons(before) + outside;
    assert e.reason != null ==> e.reason in Held(e);
    q.Push(e);
    assert Counted(strings, held + Held(e));
    ReasonsSnoc(before, e);
    Regroup(Reasons(before), outside, Held(e));
  }

  /** The caller's own reference to the reason passes to the queue. */
  method PushOwned(q: Queue, e: NativeEvent, ghost strings: set<PhpString>, ghost outside: multiset<PhpString>)
    requires q.Valid() && Balanced(q, strings, outside + Held(e))
    modifies q, q.nodes, if e.reason == null then {} else {e.reason}
    ensures q.Valid() && Balanced(q, strings, outside)
    ensures q.Contents() == old(q.Contents()) + [e]
    ensures old(q.nodes) <= q.nodes && |q.nodes| == |old(q.nodes)| + 1 && fresh(q.nodes[|old(q.nodes)|])
  {
    PushShared(q, e, strings, outside + Held(e));
    Regroup(Reasons(q.Contents()), outside, Held(e));
    ReleaseBeside(q, e, strings, Reasons(q.Contents()) + outside);
  }

  /** push_event of src/connection.c: the new string belongs to the queue alone. */
  method EnqueueEvent(q: Queue, kind: EventKind, stream: int, code: int, byPeer: bool, reason: Option<string>,
                      now: nat, ghost strings: set<PhpString>, ghost outside: multiset<PhpString>)
      returns (e: NativeEvent, ghost strings': set<PhpString>)
    requires q.Valid() && Balanced(q, strings, outside)
    modifies q, q.nodes
    ensures q.Valid() && Balanced(q, strings', outside)
    ensures old(q.nodes) <= q.nodes && |q.nodes| == |old(q.nodes)| + 1 && fresh(q.nodes[|old(q.nodes)|])
    ensures strings <= strings' && fresh(strings' - strings)
    ensures q.Contents() == old(q.Contents()) + [e] && e.timestamp == now
    ensures Abstract(e) == Event(kind, stream, code, byPeer, if reason.Some? then Some(CString(reason.value)) else None)
  {
    hide Counted, Reasons;
    var str: PhpString? := null;
    strings' := strings;
    ghost var held := Reasons(q.Contents()) + outside;
    if reason.Some? {
      str := MakeString(CString(reason.value), strings, held);
      strings' := strings + {str};
    }
    e := NativeEvent(kind, stream, code, byPeer, str, now);
    assert held + Held(e) == Reasons(q.Contents()) + (outside + Held(e));
    assert reason.None? ==> held + Held(e) == held;
    PushOwned(q, e, strings', outside);
  }

  /** The same on the connection's mail: posting there is pushing here. */
  method PushEvent(q: Queue, kind: EventKind, stream: int, code: int, byPeer: bool, reason: Option<string>,
                   now: nat, ghost strings: set<PhpString>, ghost outside: multiset<PhpString>, ghost mail: Mail)
      returns (e: NativeEvent, ghost strings': set<PhpString>)
    requires q.Valid() && Balanced(q, strings, outside) && Stores(q, mail)
    modifies q, q.nodes
    ensures q.Valid() && Balanced(q, strings', outside)
    ensures strings <= strings' && fresh(strings' - strings)
    ensures q.Contents() == old(q.Contents()) + [e] && e.timestamp == now
    ensures var text := if reason.Some? then Some(CString(reason.value)) else None;
      Stores(q, mail.Post(Event(kind, stream, code, byPeer, text)))
  {
    hide Balanced;
    ghost var before := q.Contents();
    e, strings' := EnqueueEvent(q, kind, stream, code, byPeer, reason, now, strings, outside);
    AbstractSnoc(before, e);
  }

  /** Popping moves one holder of the event's string from the queue to the outside. */
  method PopOwned(q: Queue, ghost strings: set<PhpString>, ghost outside: multiset<PhpString>)
      returns (e: NativeEvent)
    requires q.Valid() && Balanced(q, strings, outside) && q.nodes != []
    modifies q
    ensures q.Valid() && q.nodes == old(q.nodes[1..]) && old(q.Contents()) == [e] + q.Contents()
    ensures Counted(strings, (Reasons(q.Contents()) + outside) + Held(e))
    ensures e.reason != null ==> e.reason in strings
  {
    var popped := q.Pop();
    e := popped.value;
    ReasonsCons(e, q.Contents());
    assert Reasons(old(q.Contents())) + outside == (Reasons(q.Contents()) + outside) + Held(e);
    assert e.reason != null ==> e.reason in (Reasons(q.Contents()) + outside) + Held(e);
  }

  method PopAndRelease(q: Queue, ghost strings: set<PhpString>, ghost outside: multiset<PhpString>)
    requires q.Valid() && Balanced(q, strings, outside) && q.nodes != []
    modifies q, strings
    ensures q.Valid() && q.nodes == old(q.nodes[1..]) && Balanced(q, strings, outside)
  {
    var e := PopOwned(q, strings, outside);
    ReleaseBeside(q, e, strings, Reasons(q.Contents()) + outside);
  }

  /** php_quic_event_queue_destroy: the queue holds nothing any more, and the counts are
      those of the outside holders. */
  method Destroy(q: Queue, ghost strings: set<PhpString>, ghost outside: multiset<PhpString>)
    requires q.Valid() && Balanced(q, strings, outside)
    modifies q, strings
    ensures q.Valid() && q.Contents() == [] && q.head == null
    ensures Balanced(q, strings, outside)
    ensures forall s :: s in strings ==> s.refs == outside[s]
  {
    while q.head != null
      invariant q.Valid() && Balanced(q, strings, outside)
      decreases |q.nodes|
    {
      PopAndRelease(q, strings, outside);
    }
    assert q.Contents() == [];
  }

  /** One turn of drainEvents: the queue's hold on the reason passes to the new object. */
  method TakeEvent(q: Queue, ghost strings: set<PhpString>, ghost outside: multiset<PhpString>)
      returns (o: EventObject, ghost e: NativeEvent, ghost strings': set<PhpString>)
    requires q.Valid() && Balanced(q, strings, outside) && q.nodes != []
    modifies q, strings
    ensures q.Valid() && q.nodes == old(q.nodes[1..]) && old(q.Contents()) == [e] + q.Contents()
    ensures Shows(o, e) && strings <= strings' && fresh(strings' - strings)
    ensures Balanced(q, strings', outside + multiset{o.reason})
  {
    hide Counted, Shows, Reasons;
    var native := PopOwned(q, strings, outside);
    e := native;
    o, strings' := ConvertBeside(q, native, strings, Reasons(q.Contents()) + outside);
    Regroup(Reasons(q.Contents()), outside, multiset{o.reason});
  }

  /** What these objects hold outside the queue. */
  ghost function Holders(os: seq<EventObject>): multiset<PhpString> {
    if os == [] then multiset{} else Holders(os[..|os| - 1]) + multiset{os[|os| - 1].reason}
  }

  lemma HoldersSnoc(os: seq<EventObject>, o: EventObject, outside: multiset<PhpString>)
    ensures outside + Holders(os + [o]) == (outside + Holders(os)) + multiset{o.reason}
  {
    assert (os + [o])[..|os|] == os;
  }

  /** These objects show the first of these events, in order. */
  ghost predicate ShowsFirst(os: seq<EventObject>, events: seq<NativeEvent>) {
    |os| <= |events| && forall i :: 0 <= i < |os| ==> Shows(os[i], events[i])
  }

  /** So far these objects have been made of the first events; the rest is queued. */
  ghost predicate Halfway(q: Queue, os: seq<EventObject>, events: seq<NativeEvent>)
    reads q`nodes
  {
    ShowsFirst(os, events) && events[|os|..] == q.Contents()
  }

  method DrainNext(q: Queue, os: seq<EventObject>, ghost events: seq<NativeEvent>,
                   ghost strings: set<PhpString>, ghost outside: multiset<PhpString>)
      returns (os': seq<EventObject>, ghost strings': set<PhpString>)
    requires q.Valid() && q.nodes != [] && Halfway(q, os, events)
    requires Balanced(q, strings, outside + Holders(os))
    modifies q, strings
    ensures q.Valid() && |q.nodes| < |old(q.nodes)| && Halfway(q, os', events)
    ensures strings <= strings' && fresh(strings' - strings)
    ensures Balanced(q, strings', outside + Holders(os'))
  {
    var o;
    ghost var e;
    o, e, strings' := TakeEvent(q, strings, outside + Holders(os));
    HoldersSnoc(os, o, outside);
    os' := os + [o];
    assert events[|os|..] == [e] + q.Contents();
    assert events[|os|..][1..] == events[|os'|..];
  }

  /** The objects of all queued events, in order; the queue is empty then. */
  method DrainObjects(q: Queue, ghost strings: set<PhpString>, ghost outside: multiset<PhpString>)
      returns (os: seq<EventObject>, ghost strings': set<PhpString>)
    requires q.Valid() && Balanced(q, strings, outside)
    modifies q, strings
    ensures q.Valid() && q.Contents() == []
    ensures |os| == |old(q.Contents())| && ShowsFirst(os, old(q.Contents()))
    ensures Balanced(q, strings', outside + Holders(os))
  {
    hide Counted, Reasons, ShowsFirst;
    os, strings' := [], strings;
    ghost var events := q.Contents();
    NothingYet(q, outside);
    while q.head != null
      invariant q.Valid() && fresh(strings' - strings) && Halfway(q, os, events)
      invariant Balanced(q, strings', outside + Holders(os))
      decreases |q.nodes|
    {
      os, strings' := DrainNext(q, os, events, strings', outside);
    }
    AllShown(q, os, events);
  }

  lemma NothingYet(q: Queue, outside: multiset<PhpString>)
    ensures Halfway(q, [], q.Contents()) && outside + Holders([]) == outside
  {
  }

  lemma AllShown(q: Queue, os: seq<EventObject>, events: seq<NativeEvent>)
    requires q.Valid() && q.head == null && Halfway(q, os, events)
    ensures q.Contents() == [] && |os| == |events| && ShowsFirst(os, events)
  {
  }

  /** What the application reads from the object. */
  ghost predicate Presents(o: EventObject, e: Event) {
    && o.kind == e.kind && o.stream == e.stream && o.code == e.code && o.byPeer == e.byPeer
    && o.reason.text == if e.reason.Some? then e.reason.value else ""
  }

  lemma ShownIsPresented(os: seq<EventObject>, events: seq<NativeEvent>, i: nat)
    requires ShowsFirst(os, events) && i < |os|
    ensures Presents(os[i], AbstractAll(events)[i])
  {
  }

  /** drainEvents: the objects show the queued events, in order, and the queue is empty; so
      the mail's events are handed over. Every count is then the number of outside holders,
      the new objects among them. */
  method DrainEvents(q: Queue, ghost strings: set<PhpString>, ghost outside: multiset<PhpString>, ghost mail: Mail)
      returns (os: seq<EventObject>, ghost strings': set<PhpString>)
    requires q.Valid() && Balanced(q, strings, outside) && Stores(q, mail)
    modifies q, strings
    ensures q.Valid() && q.Contents() == [] && Stores(q, mail.HandOver())
    ensures |os| == |old(q.Contents())| && ShowsFirst(os, old(q.Contents()))
    ensures |os| == |mail.events| && forall i :: 0 <= i < |os| ==> Presents(os[i], mail.events[i])
    ensures Balanced(q, strings', outside + Holders(os))
  {
    hide Balanced, ShowsFirst, Presents;
    ghost var events := q.Contents();
    os, strings' := DrainObjects(q, strings, outside);
    forall i | 0 <= i < |os| ensures Presents(os[i], mail.events[i]) {
      ShownIsPresented(os, events, i);
    }
  }
}
