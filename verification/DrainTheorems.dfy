/** What a call of drainOutgoingDatagrams does, said by the library's answers alone: when the
    loop goes round again, and how; when it stops, and when it fails; which packets it returns. */
module DrainTheorems {
  import opened Common
  import opened Library
  import opened StreamSpec
  import opened ConnectionSpec
  import opened ConnectionProofs
  import opened HistoryTheorems

  /** The iteration's write names a stream, the picked one, unless its open was blocked. */
  predicate NamesStream(s: Sys, st: Step) {
    && st.DoRound? && Target(s, st.connOnly).Some?
    && !(s.table.At(Target(s, st.connOnly).value).e.pendingOpen && st.open.IdBlocked?)
  }

  function PacketCount(rounds: seq<Step>): nat {
    if rounds == [] then 0
    else
      var st := rounds[|rounds| - 1];
      PacketCount(rounds[..|rounds| - 1]) + (if st.DoRound? && st.answer.Packet? then 1 else 0)
  }

  /** After this iteration another one follows: without a stream, if the data of a stream was
      blocked; else with a new pick, for the packet is not finished, the refused stream has been
      discarded, or the packet has been collected. */
  predicate FollowedBy(s: Sys, st: Step, connOnly: bool) {
    && st.DoRound? && !OpenFails(s, st)
    && match st.answer
       case Packet(_, _) => !connOnly
       case WriteMore(_) => !connOnly
       case ShutWr => !connOnly
       case DataBlocked(_) => NamesStream(s, st) && connOnly
       case _ => false
  }

  /** After this iteration, the loop is over and the call goes on to its sync. */
  predicate StopsLoop(s: Sys, st: Step, packets: nat) {
    && st.DoRound? && !OpenFails(s, st)
    && match st.answer
       case Packet(_, _) => packets == 256
       case Zero(_) => true
       case DataBlocked(_) => !NamesStream(s, st)
       case Stopped(_) => true
       case _ => false
  }

  predicate FailsLoop(s: Sys, st: Step) {
    st.DoRound? && (OpenFails(s, st) || st.answer.Fatal?)
  }

  /** Iterations of one loop: a pick comes first, each is the one that its predecessor asks
      for, and none comes after the 256th packet. */
  ghost predicate IsLoop(s: Sys, rounds: seq<Step>) {
    && (forall k :: 0 <= k < |rounds| ==> rounds[k].DoRound? && PacketCount(rounds[..k]) < 256)
    && (rounds != [] ==> !rounds[0].connOnly)
    && forall j, k :: 0 <= j && k == j + 1 && k < |rounds| ==> FollowedBy(Run(s, rounds[..j]), rounds[j], rounds[k].connOnly)
  }

  lemma FlowIs(s: Sys, st: Step)
    requires st.DoRound?
    ensures forall c :: GoesOn(FlowAfter(s, st), c) <==> FollowedBy(s, st, c)
    ensures FlowAfter(s, st) == Throw <==> FailsLoop(s, st)
    ensures FlowAfter(s, st) == Stop <==> !st.answer.Packet? && StopsLoop(s, st, 0)
    ensures FlowAfter(s, st) == Collect <==> !OpenFails(s, st) && st.answer.Packet?
  {
    hide Pick;
  }

  lemma {:induction false} PayloadsCounted(s: Sys, rounds: seq<Step>)
    requires LoopRun(s, rounds) || forall k :: 0 <= k < |rounds| ==> rounds[k].DoRound?
    ensures |Payloads(rounds)| == PacketCount(rounds)
  {
    hide Run, LastFlow;
    if rounds != [] {
      PayloadsCounted(s, rounds[..|rounds| - 1]);
    }
  }

  lemma LoopPrefix(s: Sys, rounds: seq<Step>)
    requires IsLoop(s, rounds) && rounds != []
    ensures IsLoop(s, rounds[..|rounds| - 1])
  {
    hide Run, FollowedBy, PacketCount;
    var m := |rounds| - 1;
    assert forall k :: 0 <= k <= m ==> rounds[..m][..k] == rounds[..k];
  }

  lemma LoopExtend(s: Sys, rounds: seq<Step>)
    requires rounds != [] && var m := |rounds| - 1;
      && IsLoop(s, rounds[..m]) && PacketCount(rounds[..m]) < 256 && rounds[m].DoRound?
      && (if m == 0 then !rounds[0].connOnly else FollowedBy(Run(s, rounds[..m - 1]), rounds[m - 1], rounds[m].connOnly))
    ensures IsLoop(s, rounds)
  {
    hide Run, FollowedBy, PacketCount;
    var m := |rounds| - 1;
    assert forall k :: 0 <= k <= m ==> rounds[..m][..k] == rounds[..k];
  }

  lemma {:induction false} LoopIff(s: Sys, rounds: seq<Step>)
    ensures LoopRun(s, rounds) <==> IsLoop(s, rounds)
  {
    hide Run, FollowedBy, FlowAfter, GoesOn;
    if rounds != [] {
      var m := |rounds| - 1;
      LoopIff(s, rounds[..m]);
      assert m > 0 ==> rounds[..m][..m - 1] == rounds[..m - 1];
      if LoopRun(s, rounds) {
        PayloadsCounted(s, rounds[..m]);
        LastFlowIs(s, rounds[..m], rounds[m].connOnly);
        LoopExtend(s, rounds);
      } else if IsLoop(s, rounds) {
        LoopPrefix(s, rounds);
        PayloadsCounted(s, rounds[..m]);
        LastFlowIs(s, rounds[..m], rounds[m].connOnly);
      }
    }
  }

  /** The loop asks for this iteration next. */
  lemma LastFlowIs(s: Sys, rounds: seq<Step>, connOnly: bool)
    requires forall k :: 0 <= k < |rounds| ==> rounds[k].DoRound?
    ensures GoesOn(LastFlow(s, rounds), connOnly) <==>
      if rounds == [] then !connOnly else FollowedBy(Run(s, rounds[..|rounds| - 1]), rounds[|rounds| - 1], connOnly)
  {
    hide Run, FollowedBy, FlowAfter;
    if rounds != [] {
      FlowIs(Run(s, rounds[..|rounds| - 1]), rounds[|rounds| - 1]);
    }
  }

  lemma LoopOver(s: Sys, rounds: seq<Step>)
    requires LoopRun(s, rounds)
    ensures var m := |rounds| - 1;
      && (LoopEnds(s, rounds) <==> m >= 0 && StopsLoop(Run(s, rounds[..m]), rounds[m], PacketCount(rounds)))
      && (LastFlow(s, rounds) == Throw <==> m >= 0 && FailsLoop(Run(s, rounds[..m]), rounds[m]))
  {
    hide Run, FailsLoop, FlowAfter;
    PayloadsCounted(s, rounds);
    if rounds != [] {
      FlowIs(Run(s, rounds[..|rounds| - 1]), rounds[|rounds| - 1]);
    }
  }

  /** The steps of a call are exactly these. If close() was called and its packet is still to be
      written: one attempt to write it, which alone decides on success. Otherwise: iterations of
      one loop; after success the last one is answered with nothing to send, a closing error,
      blocked data without a stream, or the 256th packet, and a sync follows; after failure it
      fails to open the picked stream or gets a fatal answer. So no started packet is left
      unfinished, and blocked data never ends the loop before a try without it. */
  lemma {:induction false} DrainIff(s: Sys, steps: seq<Step>, ok: bool)
    ensures DrainSteps(s, steps, ok) <==>
      if s.life.closeRequested && !s.life.closePacketSent then
        |steps| == 1 && steps[0].DoWriteClose? && (ok <==> !steps[0].close.CloseFatal?)
      else
        var rounds := if ok && steps != [] then steps[..|steps| - 1] else steps; var m := |rounds| - 1;
        && (ok ==> steps != [] && steps[|steps| - 1] == DoSync)
        && IsLoop(s, rounds) && m >= 0
        && (if ok then StopsLoop(Run(s, rounds[..m]), rounds[m], PacketCount(rounds))
            else FailsLoop(Run(s, rounds[..m]), rounds[m]))
  {
    hide Run, IsLoop, StopsLoop, FailsLoop, LoopRun, LoopEnds, LastFlow;
    var rounds := if ok && steps != [] then steps[..|steps| - 1] else steps;
    LoopIff(s, rounds);
    if LoopRun(s, rounds) {
      LoopOver(s, rounds);
    }
  }

  lemma {:induction false} PayloadsConcat(a: seq<Step>, b: seq<Step>)
    ensures Payloads(a + b) == Payloads(a) + Payloads(b)
  {
    hide PayloadOf;
    if b == [] {
      assert a + b == a;
    } else {
      var n := |b| - 1;
      assert (a + b)[..|a| + n] == a + b[..n];
      PayloadsConcat(a, b[..n]);
      Associate(Payloads(a), Payloads(b[..n]), PayloadOf(b[n]));
    }
  }

  lemma PayloadsOne(st: Step)
    ensures Payloads([st]) ==
      if st.DoRound? && st.answer.Packet? then [st.answer.payload]
      else if st.DoWriteClose? && st.close.ClosePacket? then [st.close.payload]
      else []
  {
    assert [st][..0] == [];
  }

  /** A call of drainOutgoingDatagrams returns the packets of the library's answers, each once,
      in the order of the answers: wherever its steps are cut, the packet of the step at the cut
      stands between those of the steps before and after it. */
  lemma {:induction false} PayloadsInOrder(steps: seq<Step>, k: nat)
    requires k < |steps|
    ensures var st := steps[k];
      Payloads(steps) == Payloads(steps[..k])
        + (if st.DoRound? && st.answer.Packet? then [st.answer.payload]
           else if st.DoWriteClose? && st.close.ClosePacket? then [st.close.payload] else [])
        + Payloads(steps[k + 1..])
  {
    assert steps == steps[..k] + ([steps[k]] + steps[k + 1..]);
    PayloadsConcat(steps[..k], [steps[k]] + steps[k + 1..]);
    PayloadsConcat([steps[k]], steps[k + 1..]);
    PayloadsOne(steps[k]);
  }
}
