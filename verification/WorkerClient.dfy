/**
 * The client of the worker protocol as the object whose fields its callbacks
 * update in place. Every method makes exactly its step of the protocol.
 */
module WorkerClient {
  import opened Prelude
  import opened Protocol
  import ProtocolInvariant
  import ProtocolSafety

  class Compiler {
    const shared: bool
    var created: bool
    var disposed: bool
    var busy: bool
    var sequence: nat
    var session: Option<nat>
    var sessions: seq<Session>
    var exchanges: map<nat, Exchange>
    var cancel: Option<Cancel>
    var job: Job

    constructor (shared: bool)
      ensures View() == Initial(shared)
    {
      this.shared := shared;
      created, disposed, busy, sequence := false, false, false, 0;
      session, sessions, exchanges, cancel, job := None, [], map[], None, NoJob;
    }

    function View(): Client
      reads this
    {
      Client(shared, created, disposed, busy, sequence, session, sessions, exchanges, cancel, job)
    }

    /** do sequence++; while ((sequence | 0) === 0) */
    method FreshId() returns (id: nat)
      modifies `sequence
      ensures id == sequence == NextId(old(sequence))
    {
      ghost var last := sequence;
      sequence := sequence + 1;
      while Token(sequence) == 0
        invariant last < sequence <= NextId(last)
        decreases NextId(last) - sequence
      {
        sequence := sequence + 1;
      }
      id := sequence;
    }

    method OpenSession() returns (s: nat)
      requires Typed(View())
      modifies `session, `sessions
      ensures View() == Open(old(View())) && session == Some(s)
    {
      if session.None? {
        var cell := if shared then Some(0) else None;
        session := Some(|sessions|);
        sessions := sessions + [Session(false, false, cell, None, Worker([], None, [], false, 0))];
      }
      s := session.value;
    }

    method SetSession(s: nat, t: Session)
      requires s < |sessions|
      modifies `sessions
      ensures sessions == old(sessions)[s := t]
    {
      sessions := sessions[s := t];
    }

    method SetExchange(x: nat, e: Exchange)
      modifies `exchanges
      ensures exchanges == old(exchanges)[x := e]
    {
      exchanges := exchanges[x := e];
    }

    /** The caller can no longer cancel this exchange. */
    method Release(x: nat)
      modifies `cancel
      ensures cancel == Without(old(cancel), OfExchange(x))
    {
      if cancel == Some(OfExchange(x)) {
        cancel := None;
      }
    }

    /** The exchange ends: nothing of it waits any more, and neither does a job behind it. */
    method Close(x: nat)
      requires x in exchanges && exchanges[x].session < |sessions|
      modifies `cancel, `sessions, `exchanges
      ensures cancel == Without(old(cancel), OfExchange(x))
      ensures var e := old(exchanges)[x];
              exchanges == old(exchanges)[x := e.(phase := Closed, grace := false,
                                                  unwound := if e.unwound.Pending? then Resolved else e.unwound)]
      ensures var e := old(exchanges)[x]; var t := old(sessions)[e.session];
              sessions == old(sessions)[e.session := if t.settle == Some(x) then t.(settle := None) else t]
    {
      var e := exchanges[x];
      SetExchange(x, e.(phase := Closed));
      Release(x);
      SetExchange(x, exchanges[x].(grace := false));
      var t := sessions[e.session];
      if t.settle == Some(x) {
        SetSession(e.session, t.(settle := None));
      } else {
        SetSession(e.session, t);
      }
      if e.unwound.Pending? {
        SetExchange(x, exchanges[x].(unwound := Resolved));
      }
    }

    /** The worker dies; the session is dead from now on, and detached if it was attached. */
    method StopSession(s: nat)
      requires s < |sessions|
      requires var x := sessions[s].settle;
               x.Some? ==> x.value in exchanges && exchanges[x.value].phase == Stopping && exchanges[x.value].session == s
      modifies `cancel, `session, `sessions, `exchanges
      ensures old(Typed(View())) ==> View() == Stop(old(View()), s)
      ensures old(sessions)[s].settle.None? ==>
                && sessions == old(sessions)[s := Dead(old(sessions)[s])]
                && exchanges == old(exchanges) && cancel == old(cancel)
                && session == Detached(old(View()), s)
    {
      var settle := sessions[s].settle;
      SetSession(s, sessions[s].(terminated := true, ready := false));
      if session == Some(s) {
        session := None;
      }
      if settle.Some? && exchanges[settle.value].phase == Stopping {
        Close(settle.value);
      }
    }

    method Settle(x: nat, o: Outcome)
      requires x in exchanges
      modifies `exchanges
      ensures var e := old(exchanges)[x];
              exchanges == old(exchanges)[x := e.(settlements := e.settlements + 1, outcome := Some(o))]
    {
      SetExchange(x, exchanges[x].(settlements := exchanges[x].settlements + 1, outcome := Some(o)));
    }

    /** The exchange of a worker closes, and the worker stops. */
    method CloseAndStop(x: nat)
      requires x in exchanges && exchanges[x].session < |sessions|
      requires var t := sessions[exchanges[x].session]; t.settle.None? || t.settle == Some(x)
      modifies `cancel, `session, `sessions, `exchanges
      ensures cancel == Without(old(cancel), OfExchange(x))
      ensures session == Detached(old(View()), old(exchanges)[x].session)
      ensures var s := old(exchanges)[x].session; sessions == old(sessions)[s := Dead(old(sessions)[s])]
      ensures var e := old(exchanges)[x];
              exchanges == old(exchanges)[x := e.(phase := Closed, grace := false,
                                                  unwound := if e.unwound.Pending? then Resolved else e.unwound)]
    {
      hide Typed, Stop;
      var s := exchanges[x].session;
      ghost var before := sessions;
      Close(x);
      assert sessions[s] == before[s].(settle := None);
      StopSession(s);
      assert sessions == before[s := Dead(before[s])];
    }

    /** A worker that failed, or that nothing else stops, takes its exchange with it. */
    method TerminateWorker(x: nat, o: Outcome)
      requires ProtocolInvariant.Usable(View(), x)
      modifies `cancel, `session, `sessions, `exchanges
      ensures View() == Terminate(old(View()), x, o)
    {
      var e := exchanges[x];
      if e.phase == Closed {
        return;
      }
      TerminateIs(View(), x, o);
      hide Typed, Terminate, Ends, Dead, Detached, Without;
      EndAndStop(x, o);
    }

    /** The caller has its rejection when the exchange still ran. */
    method EndAndStop(x: nat, o: Outcome)
      requires x in exchanges && exchanges[x].phase != Closed && exchanges[x].session < |sessions|
      requires var t := sessions[exchanges[x].session]; t.settle.None? || t.settle == Some(x)
      modifies `cancel, `session, `sessions, `exchanges
      ensures cancel == Without(old(cancel), OfExchange(x))
      ensures session == Detached(old(View()), old(exchanges)[x].session)
      ensures var s := old(exchanges)[x].session; sessions == old(sessions)[s := Dead(old(sessions)[s])]
      ensures exchanges == old(exchanges)[x := Ends(old(exchanges)[x], o)]
    {
      hide Dead, Detached, Without;
      var running := exchanges[x].phase == Running;
      CloseAndStop(x);
      if running {
        Settle(x, o);
      }
    }

    method InterruptExchange(x: nat, timedOut: bool)
      requires ProtocolInvariant.Usable(View(), x)
      modifies `cancel, `session, `sessions, `exchanges
      ensures View() == Interrupt(old(View()), x, timedOut)
    {
      var e := exchanges[x];
      if e.phase != Running {
        return;
      }
      if e.init || (sessions[e.session].cell.None? && !timedOut) {
        TerminateWorker(x, Interrupted);
        return;
      }
      ghost var c := View();
      hide Typed, Terminate;
      Unwind(x);
      assert exchanges == Interrupt(c, x, timedOut).exchanges;
    }

    /** Reject the caller, store the token, and give the worker its grace. */
    method Unwind(x: nat)
      requires x in exchanges && exchanges[x].session < |sessions|
      modifies `cancel, `sessions, `exchanges
      ensures cancel == Without(old(cancel), OfExchange(x))
      ensures var e := old(exchanges)[x];
              exchanges == old(exchanges)[x := e.(phase := Stopping, grace := true, unwound := Pending,
                                                  settlements := e.settlements + 1, outcome := Some(Interrupted))]
      ensures var s := old(exchanges)[x].session; var t := old(sessions)[s];
              sessions == old(sessions)[s := t.(settle := Some(x), cell := if t.cell.Some? then Some(Token(x)) else None)]
    {
      var s := exchanges[x].session;
      SetExchange(x, exchanges[x].(phase := Stopping));
      Release(x);
      Settle(x, Interrupted);
      if sessions[s].cell.Some? {
        SetSession(s, sessions[s].(cell := Some(Token(x))));
      }
      SetExchange(x, exchanges[x].(unwound := Pending));
      SetSession(s, sessions[s].(settle := Some(x)));
      SetExchange(x, exchanges[x].(grace := true));
    }

    /** A message event reaches the listener of exchange x. */
    method ReceiveReply(x: nat, reply: Reply)
      requires ProtocolInvariant.Usable(View(), x)
      modifies `cancel, `sessions, `exchanges
      ensures View() == if reply.id == x then Receive(old(View()), x, reply.ok) else old(View())
    {
      if reply.id != x || exchanges[x].phase == Closed {
        return;
      }
      ghost var c := View();
      Report(x, reply.ok);
      ReceiveIs(c, x, reply.ok);
      hide Typed, Receive, Ends, Without, Reported;
    }

    /** The worker reported the exchange: its cell is free again, or its caller has an answer. */
    method Report(x: nat, ok: bool)
      requires ProtocolInvariant.Usable(View(), x) && exchanges[x].phase != Closed
      modifies `cancel, `sessions, `exchanges
      ensures cancel == Without(old(cancel), OfExchange(x))
      ensures exchanges == old(exchanges)[x := Ends(old(exchanges)[x], if ok then Result else ReplyError)]
      ensures sessions == old(sessions)[old(exchanges)[x].session := Reported(old(View()), old(exchanges)[x])]
    {
      var e := exchanges[x];
      assert e.session < |sessions|;
      hide Typed, Without;
      if e.phase == Stopping {
        if sessions[e.session].cell.Some? {
          SetSession(e.session, sessions[e.session].(cell := Some(0)));
        }
        Close(x);
      } else {
        Close(x);
        Settle(x, if ok then Result else ReplyError);
      }
    }

    method FinishWait(ok: bool)
      requires Typed(View())
      modifies `cancel, `job
      ensures View() == Finish(old(View()), ok)
    {
      if job.Waiting? && job.finished.None? {
        job := Waiting(job.on, Some(ok));
        if cancel == Some(OfWait) {
          cancel := None;
        }
      }
    }

    method Dispose()
      requires Inv(View()) && created
      modifies this
      ensures View() == Disposed(old(View())) && Inv(View())
      ensures session.None? && forall x <- exchanges :: exchanges[x].phase == Closed
    {
      ghost var c := View();
      DisposeSafe(c);
      hide Inv, Typed, Stop, Cancelled, Disposed, ProtocolInvariant.Usable;
      CancelPending();
      if session.Some? {
        StopSession(session.value);
      }
      disposed := true;
    }

    /** cancel?.(disposedError()) */
    method CancelPending()
      requires Typed(View())
      requires cancel.Some? && cancel.value.OfExchange? ==> ProtocolInvariant.Usable(View(), cancel.value.id)
      modifies `cancel, `session, `sessions, `exchanges, `job
      ensures View() == Cancelled(old(View()))
    {
      hide Typed, Interrupt, ProtocolInvariant.Usable;
      if cancel.Some? {
        if cancel.value.OfExchange? {
          InterruptExchange(cancel.value.id, false);
        } else {
          FinishWait(false);
        }
      }
    }

    /** Post a message; the exchange's id, unless it rejects at once. */
    method Exchange(init: bool, aborted: bool, refused: bool) returns (id: Option<nat>)
      requires ProtocolInvariant.AtRest(View())
      modifies `cancel, `sequence, `session, `sessions, `exchanges
      ensures id.None? <==> old(disposed) || aborted
      ensures id.None? ==> View() == old(View())
      ensures id.Some? ==>
                var c := Open(old(View()));
                id.value == NextId(c.sequence) && View() == if refused then Refused(c, id.value, init) else Posted(c, id.value, init)
    {
      if disposed || aborted {
        return None;
      }
      ProtocolInvariant.RestIsIdling(View());
      hide ProtocolInvariant.AtRest;
      var s := OpenSession();
      ghost var c := View();
      var x := FreshId();
      id := Some(x);
      SetExchange(x, Protocol.Exchange(s, init, Running, false, NoPromise, 0, None));
      cancel := Some(OfExchange(x));
      if refused {
        RefuseNew(x, init, c);
      } else {
        var w := sessions[s].worker;
        SetSession(s, sessions[s].(worker := w.(inbox := w.inbox + [x], last := x)));
      }
    }

    /** postMessage threw: terminate the exchange that was just set up. */
    method RefuseNew(x: nat, ghost init: bool, ghost c: Client)
      requires Typed(c) && c.session.Some?
      requires c.sessions[c.session.value].settle.None? && !c.sessions[c.session.value].terminated
      requires var e := Protocol.Exchange(c.session.value, init, Running, false, NoPromise, 0, None);
               View() == c.(sequence := x, exchanges := c.exchanges[x := e], cancel := Some(OfExchange(x)))
      modifies `cancel, `session, `sessions, `exchanges
      ensures View() == Refused(c, x, init)
    {
      hide Typed;
      TerminateNew(c, x, init);
      hide Terminate, Refused;
      TerminateWorker(x, WorkerFailed);
    }
  }

  /** The session of an exchange whose worker reported. */
  function Reported(c: Client, e: Protocol.Exchange): Session
    requires e.session < |c.sessions|
  {
    var t := c.sessions[e.session].(settle := None);
    t.(cell := if e.phase == Stopping && t.cell.Some? then Some(0) else t.cell)
  }

  lemma ReceiveIs(c: Client, x: nat, ok: bool)
    requires Typed(c) && x in c.exchanges && c.exchanges[x].phase != Closed
    ensures var e := c.exchanges[x];
            e.session < |c.sessions|
            && Receive(c, x, ok) == c.(
                 exchanges := c.exchanges[x := Ends(e, if ok then Result else ReplyError)],
                 sessions := c.sessions[e.session := Reported(c, e)], cancel := Without(c.cancel, OfExchange(x)))
  {
    hide Without;
  }

  lemma TerminateIs(c: Client, x: nat, o: Outcome)
    requires Typed(c) && x in c.exchanges && c.exchanges[x].phase != Closed
    ensures var e := c.exchanges[x];
            e.session < |c.sessions|
            && Terminate(c, x, o) == c.(
                 exchanges := c.exchanges[x := Ends(e, o)], sessions := c.sessions[e.session := Dead(c.sessions[e.session])],
                 session := Detached(c, e.session), cancel := Without(c.cancel, OfExchange(x)))
  {
    hide Dead, Detached, Without;
  }

  lemma CancelUsable(c: Client)
    requires Inv(c)
    ensures Typed(c)
    ensures c.cancel.Some? && c.cancel.value.OfExchange? ==> ProtocolInvariant.Usable(c, c.cancel.value.id)
  {
    if c.cancel.Some? && c.cancel.value.OfExchange? {
      ProtocolInvariant.ReachableUsable(c, c.cancel.value.id);
    }
  }

  /** What the two calls of `dispose` find, and what they leave. */
  lemma DisposeSafe(c: Client)
    requires Inv(c) && c.created
    ensures Typed(c) && (c.cancel.Some? && c.cancel.value.OfExchange? ==> ProtocolInvariant.Usable(c, c.cancel.value.id))
    ensures Typed(Cancelled(c)) && (Cancelled(c).session.Some? ==>
              var s := Cancelled(c).session.value;
              && s < |Cancelled(c).sessions|
              && var x := Cancelled(c).sessions[s].settle;
                 x.Some? ==> x.value in Cancelled(c).exchanges && Cancelled(c).exchanges[x.value].phase == Stopping
                             && Cancelled(c).exchanges[x.value].session == s)
    ensures Disposed(c) == (if Cancelled(c).session.Some? then Stop(Cancelled(c), Cancelled(c).session.value)
                            else Cancelled(c)).(disposed := true)
    ensures Inv(Disposed(c)) && Disposed(c).session.None?
    ensures forall x <- Disposed(c).exchanges :: Disposed(c).exchanges[x].phase == Closed
  {
    CancelUsable(c);
    ProtocolInvariant.CancelledInv(c);
    SettleStopping(Cancelled(c));
    assert Cancelled(c).session.Some? ==> Cancelled(c).session.value < |Cancelled(c).sessions|;
    hide Inv, Typed, Stop, Cancelled, ProtocolInvariant.Usable;
    ProtocolSafety.DisposeEndsAll(c);
    ProtocolInvariant.DisposedInv(c);
  }

  lemma SettleStopping(c: Client)
    requires Inv(c)
    ensures Typed(c)
    ensures c.session.Some? ==>
              var s := c.session.value;
              var x := c.sessions[s].settle;
              x.Some? ==> x.value in c.exchanges && c.exchanges[x.value].phase == Stopping && c.exchanges[x.value].session == s
  {
    if c.session.Some? {
      ProtocolInvariant.SessionAt(c, c.session.value);
    }
  }

  lemma TerminateNew(c: Client, x: nat, init: bool)
    requires Typed(c) && c.session.Some?
    requires c.sessions[c.session.value].settle.None? && !c.sessions[c.session.value].terminated
    ensures
      var e := Protocol.Exchange(c.session.value, init, Running, false, NoPromise, 0, None);
      var c' := c.(sequence := x, exchanges := c.exchanges[x := e], cancel := Some(OfExchange(x)));
      ProtocolInvariant.Usable(c', x) && Terminate(c', x, WorkerFailed) == Refused(c, x, init)
  {
    var e := Protocol.Exchange(c.session.value, init, Running, false, NoPromise, 0, None);
    var c' := c.(sequence := x, exchanges := c.exchanges[x := e], cancel := Some(OfExchange(x)));
    assert Typed(c');
    hide Typed;
    assert Terminate(c', x, WorkerFailed).exchanges == Refused(c, x, init).exchanges;
  }
}
