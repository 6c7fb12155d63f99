/** The life of a connection over whole runs: its flags, its once-only events, its single
    close packet, and the delivery of events. */
module LifecycleTheorems {
  import opened Common
  import opened Library
  import opened ConnectionSpec
  import opened ConnectionProofs

  /** The relations between the flags hold in every reachable state, and the three
      connection events have been raised exactly as often as their flags say. */
  lemma {:induction false} LifecycleInEveryState(server: bool, steps: seq<Step>)
    requires ValidRun(Init(server), steps)
    ensures var l := Run(Init(server), steps).life;
      && (l.closed <==> l.closeEventEmitted)
      && (l.draining <==> l.drainingEventEmitted)
      && (l.draining ==> l.closed)
      && (l.closePacketSent ==> l.closeRequested)
      && (l.closeRequested ==> l.closed)
    ensures var s := Run(Init(server), steps);
      && Count(s.mail.log, ConnectionClosed) == (if s.life.closed then 1 else 0)
      && Count(s.mail.log, ConnectionDraining) == (if s.life.draining then 1 else 0)
      && Count(s.mail.log, HandshakeCompleted) == (if s.life.established then 1 else 0)
  {
    InitInv(server);
    RunKeepsInv(Init(server), steps);
  }

  /** The events handed out so far, followed by the queued ones, are all events ever
      raised, in the order in which they were raised. */
  lemma {:induction false} EventsDeliveredInOrder(server: bool, steps: seq<Step>)
    requires ValidRun(Init(server), steps)
    ensures var m := Run(Init(server), steps).mail; m.handed + m.events == m.log
  {
    InitInv(server);
    RunKeepsInv(Init(server), steps);
  }

  /** The log only ever grows: what has been raised stays raised, at its place. */
  lemma {:induction false} LogGrows(s: Sys, more: seq<Step>)
    ensures s.mail.log <= Run(s, more).mail.log
    ensures s.mail.handed <= Run(s, more).mail.handed
  {
    if more != [] {
      var m := |more| - 1;
      LogGrows(s, more[..m]);
      LogStep(Run(s, more[..m]), more[m]);
    }
  }

  lemma LogStep(s: Sys, st: Step)
    ensures s.mail.log <= Apply(s, st).mail.log
    ensures s.mail.handed <= Apply(s, st).mail.handed
  {
    hide Round, SyncLife;
    if st.DoRound? {
      RoundLife(s, st.connOnly, st.open, st.answer);
    }
  }

  lemma OnlyTakingHandsOut(s: Sys, st: Step)
    requires !st.DoTakeEvents?
    ensures Apply(s, st).mail.handed == s.mail.handed && s.mail.events <= Apply(s, st).mail.events
  {
    hide Round, SyncLife;
    if st.DoRound? {
      RoundLife(s, st.connOnly, st.open, st.answer);
    }
  }

  /** Until the connection's own events are drained nothing leaves its queue; so what a
      connection had queued when the endpoint removed it is still there to be drained. */
  lemma {:induction false} UndrainedEventsStay(s: Sys, more: seq<Step>)
    requires forall k :: 0 <= k < |more| ==> !more[k].DoTakeEvents?
    ensures Run(s, more).mail.handed == s.mail.handed
    ensures s.mail.events <= Run(s, more).mail.events
  {
    if more != [] {
      var m := |more| - 1;
      UndrainedEventsStay(s, more[..m]);
      OnlyTakingHandsOut(Run(s, more[..m]), more[m]);
    }
  }

  predicate NoFlagFell(l: Life, r: Life) {
    && (l.established ==> r.established) && (l.draining ==> r.draining) && (l.closed ==> r.closed)
    && (l.closeRequested ==> r.closeRequested) && (l.closePacketSent ==> r.closePacketSent)
    && (l.closeEventEmitted ==> r.closeEventEmitted)
    && (l.drainingEventEmitted ==> r.drainingEventEmitted)
  }

  lemma SyncRaisesFlags(s: Sys)
    ensures NoFlagFell(s.life, Sync(s).life)
  {
  }

  lemma WriteCloseRaisesFlags(s: Sys, a: CloseAnswer)
    ensures NoFlagFell(s.life, WriteClose(s, a).life)
  {
    hide Sync;
    SyncRaisesFlags(s.(life := s.life.(closePacketSent := true)));
  }

  lemma OtherStepsKeepFlags(s: Sys, st: Step)
    requires !st.DoRound? && !st.DoWriteClose? && !st.DoClose? && !st.DoSync? && !st.OnHandshake?
    ensures Apply(s, st).life == s.life
  {
  }

  lemma FlagStep(s: Sys, st: Step)
    ensures NoFlagFell(s.life, Apply(s, st).life)
  {
    hide Round, Sync;
    SyncRaisesFlags(s);
    if st.DoRound? {
      RoundLife(s, st.connOnly, st.open, st.answer);
    } else if st.DoWriteClose? {
      WriteCloseRaisesFlags(s, st.close);
    } else if !st.DoClose? && !st.DoSync? && !st.OnHandshake? {
      OtherStepsKeepFlags(s, st);
    }
  }

  lemma {:induction false} FlagsNeverFall(s: Sys, more: seq<Step>)
    ensures NoFlagFell(s.life, Run(s, more).life)
  {
    if more != [] {
      FlagsNeverFall(s, more[..|more| - 1]);
      FlagStep(Run(s, more[..|more| - 1]), more[|more| - 1]);
    }
  }

  /** Close packets produced by the drains of a run. */
  function ClosePackets(steps: seq<Step>): nat {
    if steps == [] then 0
    else
      var st := steps[|steps| - 1];
      ClosePackets(steps[..|steps| - 1]) + Once(st.DoWriteClose? && st.close.ClosePacket?)
  }

  /** However often the connection is drained, at most one close packet comes out
      (section 10.2 of RFC 9000), and only after close() was called. */
  lemma {:induction false} OneClosePacket(server: bool, steps: seq<Step>)
    requires ValidRun(Init(server), steps)
    ensures ClosePackets(steps) <= Once(Run(Init(server), steps).life.closePacketSent)
    ensures ClosePackets(steps) > 0 ==> Run(Init(server), steps).life.closeRequested
  {
    if steps != [] {
      var m := |steps| - 1;
      OneClosePacket(server, steps[..m]);
      FlagStep(Run(Init(server), steps[..m]), steps[m]);
    }
  }

  lemma SyncCloses(s: Sys)
    ensures Sync(s).life.closed <==> s.life.closed || s.lib.closing || s.lib.draining
  {
  }

  /** A write answered with an error that is not treated as a failure leaves the connection
      closed, except that an idle timeout does so only if the connection was closed already
      or the library is in its closing or draining period. */
  lemma {:induction false} StoppedMeansClosedIff(s: Sys, connOnly: bool, open: OpenAnswer, kind: StopKind)
    requires Enabled(s, DoRound(connOnly, open, Stopped(kind))) && !OpenThrows(s, connOnly, open)
    ensures Apply(s, DoRound(connOnly, open, Stopped(kind))).life.closed <==>
      kind != ErrIdleClose || s.life.closed || s.lib.closing || s.lib.draining
  {
    RoundLife(s, connOnly, open, Stopped(kind));
    SyncCloses(s);
  }

  /** The same for the error with which the library answers recv or an expired timer, after
      any callbacks: this is the sync that follows it. */
  lemma {:induction false} StoppedReadMeansClosedIff(s: Sys, calls: seq<Step>, kind: StopKind)
    requires (forall k :: 0 <= k < |calls| ==> IsCallback(calls[k])) && ValidStop(Run(s, calls).lib, kind)
    ensures var r := Run(s, calls + [DoSync]);
      r.life.closed <==> kind != ErrIdleClose || s.life.closed || r.lib.closing || r.lib.draining
  {
    RunSnoc(s, calls, DoSync);
    CallbacksKeepClosed(s, calls);
    SyncCloses(Run(s, calls));
  }

  /** The exception occurs: a new connection whose first write is answered with an idle
      timeout stays open. */
  lemma {:induction false} IdleCloseCounterexample(server: bool)
    ensures var steps := [DoRound(false, IdBlocked, Stopped(ErrIdleClose))];
      ValidRun(Init(server), steps) && !Run(Init(server), steps).life.closed
  {
    var s := Init(server);
    RunOne(s, DoRound(false, IdBlocked, Stopped(ErrIdleClose)));
    StoppedMeansClosedIff(s, false, IdBlocked, ErrIdleClose);
  }

  lemma CallbackKeepsClosed(s: Sys, st: Step)
    requires IsCallback(st)
    ensures Apply(s, st).life.closed == s.life.closed
  {
  }

  /** Callbacks alone neither close a connection nor open it again. */
  lemma {:induction false} CallbacksKeepClosed(s: Sys, steps: seq<Step>)
    requires forall k :: 0 <= k < |steps| ==> IsCallback(steps[k])
    ensures Run(s, steps).life.closed == s.life.closed
  {
    if steps != [] {
      var m := |steps| - 1;
      CallbacksKeepClosed(s, steps[..m]);
      CallbackKeepsClosed(Run(s, steps[..m]), steps[m]);
    }
  }

  lemma {:induction false} RoundsKeepCloseDue(s: Sys, steps: seq<Step>)
    requires LoopRun(s, steps)
    ensures CloseDue(Run(s, steps)) == CloseDue(s)
  {
    if steps != [] {
      var m := |steps| - 1;
      RoundsKeepCloseDue(s, steps[..m]);
      RoundLife(Run(s, steps[..m]), steps[m].connOnly, steps[m].open, steps[m].answer);
    }
  }

  lemma CloseWriteSettles(s: Sys, a: CloseAnswer)
    ensures a.CloseFatal? || !CloseDue(WriteClose(s, a))
    ensures CloseDue(Sync(s)) == CloseDue(s)
  {
  }

  /** After a call of drainOutgoingDatagrams that does not fail no close packet is due. */
  lemma {:induction false} DrainSettlesClose(s: Sys, steps: seq<Step>)
    requires DrainSteps(s, steps, true)
    ensures !CloseDue(Run(s, steps))
  {
    var m := |steps| - 1;
    if CloseDue(s) {
      CloseWriteSettles(s, steps[0].close);
      assert steps == [steps[0]];
      RunOne(s, steps[0]);
    } else {
      RoundsKeepCloseDue(s, steps[..m]);
      CloseWriteSettles(Run(s, steps[..m]), CloseFatal);
    }
  }

  // ----- the error in the close packet -----

  /** While the close packet is due after the application's close(), only a failing recv can
      change the recorded error, and only if the application's code is 0. */
  lemma DueStep(s: Sys, st: Step)
    requires Lifecycle(s.life) && s.life.closeRequested && Enabled(s, st) && CloseDue(Apply(s, st))
    ensures CloseDue(s)
    ensures Apply(s, st).lastError ==
      if st.DoRecvFailed? && !s.lastError.Stays() then ByLibrary else s.lastError
  {
    hide Round;
    FlagStep(s, st);
  }

  ghost predicate RecvFailed(steps: seq<Step>) {
    exists k :: 0 <= k < |steps| && steps[k].DoRecvFailed?
  }

  lemma NoRecvFailed()
    ensures !RecvFailed([])
  {
  }

  lemma RecvFailedSnoc(steps: seq<Step>)
    requires steps != []
    ensures RecvFailed(steps) <==> RecvFailed(steps[..|steps| - 1]) || steps[|steps| - 1].DoRecvFailed?
  {
    var m := |steps| - 1;
    if k :| 0 <= k < m && steps[..m][k].DoRecvFailed? {
      assert steps[k].DoRecvFailed?;
    }
  }

  lemma {:induction false} DueRun(s: Sys, mid: seq<Step>)
    requires Inv(s) && s.life.closeRequested && ValidRun(s, mid) && CloseDue(Run(s, mid))
    ensures Run(s, mid).lastError == if !s.lastError.Stays() && RecvFailed(mid) then ByLibrary else s.lastError
  {
    hide Apply, Enabled, TableInv, StreamAt, WritableAt, MailInv, RecvFailed;
    if mid == [] {
      NoRecvFailed();
    } else {
      var m := |mid| - 1;
      RunKeepsInv(s, mid[..m]);
      FlagsNeverFall(s, mid[..m]);
      DueStep(Run(s, mid[..m]), mid[m]);
      DueRun(s, mid[..m]);
      RecvFailedSnoc(mid);
    }
  }

  /** In any run in which the application has called close(), the close packet that a drain then
      writes carries the application's code and its reason, if that is not empty; except exactly
      if the code is 0 and a recv has failed since: then it carries the library's error. */
  lemma {:induction false} CloseErrorIff(server: bool, pre: seq<Step>, code: int, reason: Option<string>, mid: seq<Step>,
                                         payload: Bytes, error: CloseError)
    requires ValidRun(Init(server), pre) && !Run(Init(server), pre).life.closeRequested
    requires var s := Apply(Run(Init(server), pre), DoClose(code, reason));
      ValidRun(s, mid) && Enabled(Run(s, mid), DoWriteClose(ClosePacket(payload, error)))
    ensures code == 0 && RecvFailed(mid) ==> error == ByLibrary
    ensures !(code == 0 && RecvFailed(mid)) ==>
      && error.ByApplication? && error.code == code
      && error.reason == (if reason.Some? && |reason.value| > 0 then reason else None)
  {
    hide Run, ValidRun, Inv, RecvFailed;
    var s := Run(Init(server), pre);
    InitInv(server);
    RunKeepsInv(Init(server), pre);
    StepKeepsInv(s, DoClose(code, reason));
    DueRun(Apply(s, DoClose(code, reason)), mid);
  }

  /** The exception occurs: close() with code 0, then a packet that cannot be read. */
  lemma CloseErrorCounterexample(server: bool)
    ensures var steps := [DoClose(0, Some("done")), DoRecvFailed]; var s := Run(Init(server), steps);
      ValidRun(Init(server), steps) && Enabled(s, DoWriteClose(ClosePacket([1], ByLibrary)))
  {
    var st1, st2 := DoClose(0, Some("done")), DoRecvFailed;
    RunOne(Init(server), st1);
    RunSnoc(Init(server), [st1], st2);
    assert [st1] + [st2] == [st1, st2];
  }
}
