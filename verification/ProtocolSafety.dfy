/** What the worker protocol promises its callers, in every run. */
module ProtocolSafety {
  import opened Prelude
  import opened Protocol
  import opened ProtocolInvariant

  /** A run goes on from where the run before its last event led. */
  lemma {:induction false} RunSnoc(c: Client, events: seq<Event>, e: Event)
    requires Typed(c)
    ensures Run(c, events + [e]) == Step(Run(c, events), e)
    decreases |events|
  {
    hide Typed, Step;
    if events == [] {
      assert Run(Step(c, e), []) == Step(c, e) && ([] + [e])[1..] == [];
    } else {
      assert (events + [e])[1..] == events[1..] + [e];
      RunSnoc(Step(c, events[0]), events[1..], e);
    }
  }

  lemma Reachable(shared: bool, events: seq<Event>)
    ensures Inv(Run(Initial(shared), events))
  {
    hide Inv;
    InitialInv(shared);
    RunInv(Initial(shared), events);
  }

  /**
   * A token stops only the job it was stored for: whenever the guest of any
   * worker, live or terminated, finds its token in the cell, its own caller
   * was already told that the job is cancelled. The cell of a live worker is
   * nonzero only while the exchange whose token it holds is stopping. This
   * holds for ids of any size, so also after tokens wrap around.
   */
  lemma CancellationHitsItsOwnJob(shared: bool, events: seq<Event>, s: nat)
    requires s < |Run(Initial(shared), events).sessions|
    ensures
      var c := Run(Initial(shared), events);
      var t := c.sessions[s];
      && (Hit(t) ==> t.worker.working.value in c.exchanges
                     && c.exchanges[t.worker.working.value].session == s
                     && c.exchanges[t.worker.working.value].outcome == Some(Interrupted))
      && (!t.terminated && t.cell.Some? && t.cell.value != 0 ==>
            exists x :: x in c.exchanges && c.exchanges[x].session == s && c.exchanges[x].phase == Stopping
                        && Token(x) == t.cell.value)
  {
    var c := Run(Initial(shared), events);
    Reachable(shared, events);
    var t := c.sessions[s];
    SessionAt(c, s);
    if t.worker.last != 0 {
      ExchangeAt(c, t.worker.last);
    }
  }

  /**
   * A live worker has at most one message it has not reported, exactly while
   * an exchange with it is open, and every job it serves finds an engine.
   */
  lemma OneUnreportedMessage(shared: bool, events: seq<Event>, s: nat)
    requires s < |Run(Initial(shared), events).sessions|
    ensures
      var c := Run(Initial(shared), events);
      var t := c.sessions[s];
      !t.terminated ==>
        && c.session == Some(s)
        && Unreported(t.worker) <= 1
        && (Unreported(t.worker) == 1 <==> exists x :: x in c.exchanges && c.exchanges[x].phase != Closed)
        && (t.worker.working.Some? ==>
              var x := t.worker.working.value;
              x in c.exchanges && (c.exchanges[x].init || t.worker.engine))
  {
    var c := Run(Initial(shared), events);
    Reachable(shared, events);
    var t := c.sessions[s];
    SessionAt(c, s);
    forall x | x in c.exchanges && c.exchanges[x].phase != Closed
      ensures c.session == Some(s) && !t.terminated ==> x == t.worker.last && x != 0
    {
      ExchangeAt(c, x);
    }
  }

  /** Every promise settles exactly once: when its exchange stops running. */
  lemma SettlesOnce(shared: bool, events: seq<Event>, x: nat)
    requires x in Run(Initial(shared), events).exchanges
    ensures var e := Run(Initial(shared), events).exchanges[x];
            && e.settlements == (if e.phase == Running then 0 else 1)
            && (e.outcome.None? <==> e.phase == Running)
  {
    Reachable(shared, events);
    ExchangeAt(Run(Initial(shared), events), x);
  }

  /** A waiting job waits for an exchange that still has to leave, or already woke it. */
  lemma WaiterWakes(shared: bool, events: seq<Event>)
    ensures
      var c := Run(Initial(shared), events);
      c.job.Waiting? && c.job.on.Some? ==>
        var e := c.exchanges[c.job.on.value];
        (e.phase == Stopping && e.grace) || (e.phase == Closed && e.unwound.Resolved?)
  {
    var c := Run(Initial(shared), events);
    Reachable(shared, events);
    if c.job.Waiting? && c.job.on.Some? {
      ExchangeAt(c, c.job.on.value);
    }
  }

  // ------------------------------------------------------- from step to step

  /** The ways in which one event may change an exchange from b to a. */
  predicate Moves(c: Client, e: Event, x: nat, b: Exchange, a: Exchange) {
    || a == b
    // cancelled by its own timer, its own signal, or dispose
    || (b.phase == Running && a.phase != Running && a.outcome == Some(Interrupted)
        && (e == EvTimeout(x) || e == EvAbort(x) || e.EvDispose?))
    // failed with its worker
    || (b.phase == Running && a.phase == Closed && a.outcome == Some(WorkerFailed) && e == EvError(x))
    // answered by the reply that carries its id, from its own worker
    || (b.phase == Running && a.phase == Closed && Report(c, e, x, b) == Some(a.outcome == Some(Result))
        && (a.outcome == Some(Result) || a.outcome == Some(ReplyError)))
    // unwound: reported, out of grace, or its worker stopped
    || (b.phase == Stopping && a.phase == Closed && a.unwound == Resolved && a.outcome == b.outcome
        && (e == EvGrace(x) || e == EvError(x) || e.EvDispose? || Report(c, e, x, b).Some?))
  }

  /** The reply for x that the event delivers. */
  function Report(c: Client, e: Event, x: nat, b: Exchange): Option<bool> {
    if e.EvDeliver? && e.s == b.session && e.s < |c.sessions| && |c.sessions[e.s].worker.outbox| > 0
       && c.sessions[e.s].worker.outbox[0].id == x
    then Some(c.sessions[e.s].worker.outbox[0].ok) else None
  }

  lemma TerminateMoves(c: Client, y: nat, o: Outcome, x: nat)
    requires Typed(c) && y in c.exchanges && x in c.exchanges
    ensures Terminate(c, y, o).exchanges[x]
         == if x == y && c.exchanges[y].phase != Closed then Ends(c.exchanges[y], o) else c.exchanges[x]
  {
    hide Typed, Ends;
  }

  lemma ReceiveMoves(c: Client, c': Client, y: nat, ok: bool, x: nat)
    requires Typed(c) && Typed(c') && c'.exchanges == c.exchanges && y in c.exchanges && x in c.exchanges
    ensures Receive(c', y, ok).exchanges.Keys == c.exchanges.Keys
    ensures Receive(c', y, ok).exchanges[x]
         == if x == y && c.exchanges[y].phase != Closed then Ends(c.exchanges[y], if ok then Result else ReplyError)
            else c.exchanges[x]
  {
    hide Typed, Ends;
  }

  lemma StopMoves(c: Client, s: nat, x: nat)
    requires Typed(c) && s < |c.sessions| && x in c.exchanges
    ensures var a, b := Stop(c, s).exchanges[x], c.exchanges[x];
            a == b || (b.phase == Stopping && a == Ends(b, WorkerFailed))
  {
    hide Terminate, Ends;
    if c.sessions[s].settle.Some? {
      TerminateMoves(c, c.sessions[s].settle.value, WorkerFailed, x);
    }
  }

  lemma BegunMoves(c: Client, init: bool, aborted: bool, refused: bool, otherwise: Job, x: nat)
    requires Typed(c) && JobTyped(c, otherwise)
    requires x in c.exchanges && NextId(c.sequence) !in c.exchanges
    ensures x in Begun(c, init, aborted, refused, otherwise).exchanges
    ensures Begun(c, init, aborted, refused, otherwise).exchanges[x] == c.exchanges[x]
  {
    hide NextId, Typed;
  }

  lemma DisposedMoves(c: Client, x: nat)
    requires Inv(c) && x in c.exchanges
    ensures x in Disposed(c).exchanges && Moves(c, EvDispose, x, c.exchanges[x], Disposed(c).exchanges[x])
  {
    ExchangeAt(c, x);
    if c.created {
      var c1 := Cancelled(c);
      CancelledMoves(c, x);
      if c1.session.Some? {
        StopMoves(c1, c1.session.value, x);
      }
      assert c1.exchanges[x].phase == Stopping ==> c1.exchanges[x].unwound.Pending? && c1.exchanges[x].outcome == Some(Interrupted) by {
        CancelledInv(c);
        ExchangeAt(c1, x);
      }
      hide Inv, Stop, Cancelled, ExchangeOk;
    }
  }

  lemma CancelledMoves(c: Client, x: nat)
    requires Inv(c) && x in c.exchanges
    ensures x in Cancelled(c).exchanges
    ensures var a, b := Cancelled(c).exchanges[x], c.exchanges[x];
            a == b || (b.phase == Running && a.phase != Running && a.outcome == Some(Interrupted))
  {
    if c.cancel.Some? && c.cancel.value.OfExchange? {
      hide Inv, Interrupt;
      InterruptEffect(c, c.cancel.value.id, false, x);
    }
  }

  lemma InitializedMoves(c: Client, late: bool, aborted: bool, refused: bool, x: nat)
    requires Inv(c) && x in c.exchanges
    ensures x in Initialized(c, late, aborted, refused).exchanges
    ensures Initialized(c, late, aborted, refused).exchanges[x] == c.exchanges[x]
  {
    if c.job.Initializing? && c.exchanges[c.job.id].outcome.Some? {
      FreshId(c, NextId(c.sequence));
      InitClosed(c);
      var e := c.exchanges[c.job.id];
      hide Inv, Stop, Post, NextId;
      if e.outcome != Some(Result) {
        StopMoves(c, e.session, x);
      } else {
        var c' := PutSession(c, e.session, c.sessions[e.session].(ready := true), c.session);
        hide Typed;
        PostMoves(c', late, aborted, refused, x);
      }
    }
  }

  lemma ConcludedMoves(c: Client, x: nat)
    requires Inv(c) && x in c.exchanges
    ensures x in Concluded(c).exchanges && Concluded(c).exchanges[x] == c.exchanges[x]
  {
    if c.job.Failing? && c.job.session.Some? {
      assert OthersClosed(c, None);
      hide Inv, Stop;
      StopMoves(c, c.job.session.value, x);
    }
  }

  lemma StartMoves(c: Client, aborted: bool, refused: bool, x: nat)
    requires Inv(c) && x in c.exchanges
    ensures x in Initialize(c, aborted, refused).exchanges
    ensures Initialize(c, aborted, refused).exchanges[x] == c.exchanges[x]
  {
    FreshId(c, NextId(c.sequence));
    hide Inv, Begun, NextId;
    var c1 := Open(c);
    assert c1.sequence == c.sequence;
    BegunMoves(c1, true, aborted, refused, Failing(c1.session), x);
  }

  lemma PostMoves(c: Client, late: bool, aborted: bool, refused: bool, x: nat)
    requires Typed(c) && x in c.exchanges && NextId(c.sequence) !in c.exchanges
    ensures x in Post(c, late, aborted, refused).exchanges
    ensures Post(c, late, aborted, refused).exchanges[x] == c.exchanges[x]
  {
    hide Typed, Begun, NextId;
    BegunMoves(c, false, aborted, refused, Failing(None), x);
  }

  lemma ResumedMoves(c: Client, late: bool, aborted: bool, refused: bool, x: nat)
    requires Inv(c) && x in c.exchanges
    ensures x in Resumed(c, late, aborted, refused).exchanges
    ensures Resumed(c, late, aborted, refused).exchanges[x] == c.exchanges[x]
  {
    assert Typed(c);
    FreshId(c, NextId(c.sequence));
    hide Inv, Typed, Post, NextId, Initialize;
    StartMoves(c, aborted, refused, x);
    PostMoves(c, late, aborted, refused, x);
  }

  /** A reply for x ends it, unless it has ended. */
  lemma ReportMoves(c: Client, s: nat, x: nat, ok: bool, b: Exchange, a: Exchange)
    requires s < |c.sessions| && b.session == s
    requires |c.sessions[s].worker.outbox| > 0 && c.sessions[s].worker.outbox[0] == Reply(x, ok)
    requires b.phase == Stopping ==> b.unwound.Pending?
    requires a == if b.phase != Closed then Ends(b, if ok then Result else ReplyError) else b
    ensures Moves(c, EvDeliver(s), x, b, a)
  {
  }

  lemma DeliverMoves(c: Client, s: nat, x: nat)
    requires Inv(c) && x in c.exchanges
    ensures x in Deliver(c, s).exchanges && Moves(c, EvDeliver(s), x, c.exchanges[x], Deliver(c, s).exchanges[x])
  {
    ExchangeAt(c, x);
    hide Inv, Receive, Token, Moves, Ends;
    if s < |c.sessions| && c.sessions[s].worker.outbox != [] {
      var w := c.sessions[s].worker;
      var y, ok := w.outbox[0].id, w.outbox[0].ok;
      if y in c.exchanges && c.exchanges[y].session == s {
        var c' := WithWorker(c, s, w.(outbox := w.outbox[1..]));
        ReceiveMoves(c, c', y, ok, x);
        hide ExchangeOk;
        if x == y {
          assert c.exchanges[x].phase == Stopping ==> c.exchanges[x].unwound.Pending? by {
            ExchangeUnwinds(c, x);
          }
          ReportMoves(c, s, x, ok, c.exchanges[x], Receive(c', y, ok).exchanges[x]);
        } else {
          Still(c, EvDeliver(s), x, c.exchanges[x]);
        }
      } else {
        Still(c, EvDeliver(s), x, c.exchanges[x]);
      }
    } else {
      Still(c, EvDeliver(s), x, c.exchanges[x]);
    }
  }

  lemma Still(c: Client, e: Event, x: nat, b: Exchange)
    ensures Moves(c, e, x, b, b)
  {
  }

  lemma ExchangeUnwinds(c: Client, x: nat)
    requires Inv(c) && x in c.exchanges
    ensures c.exchanges[x].phase == Stopping ==> c.exchanges[x].unwound.Pending?
  {
    ExchangeAt(c, x);
  }

  lemma ErrorMoves(c: Client, e: Event, y: nat, x: nat)
    requires Inv(c) && x in c.exchanges && y in c.exchanges
    requires e == EvError(y) || (e == EvGrace(y) && c.exchanges[y].phase == Stopping)
    ensures Moves(c, e, x, c.exchanges[x], Terminate(c, y, WorkerFailed).exchanges[x])
  {
    ExchangeAt(c, x);
    hide Inv, Token, Terminate;
    TerminateMoves(c, y, WorkerFailed, x);
  }

  lemma InterruptMoves(c: Client, e: Event, y: nat, timedOut: bool, x: nat)
    requires Typed(c) && x in c.exchanges && y in c.exchanges && e == (if timedOut then EvTimeout(y) else EvAbort(y))
    ensures Moves(c, e, x, c.exchanges[x], Interrupt(c, y, timedOut).exchanges[x])
  {
    hide Typed, Interrupt;
    InterruptEffect(c, y, timedOut, x);
  }

  lemma JobStepMoves(c: Client, e: Event, x: nat)
    requires Inv(c) && x in c.exchanges
    requires e.EvCreate? || e.EvResume? || e.EvInitialized? || e.EvConclude?
    ensures x in Step(c, e).exchanges && Step(c, e).exchanges[x] == c.exchanges[x]
  {
    assert Typed(c);
    hide Inv, Typed, Resumed, Initialized, Concluded, Initialize;
    match e
    case EvCreate(aborted, refused) => StartMoves(c, aborted, refused, x);
    case EvResume(late, aborted, refused) => ResumedMoves(c, late, aborted, refused, x);
    case EvInitialized(late, aborted, refused) => InitializedMoves(c, late, aborted, refused, x);
    case EvConclude => ConcludedMoves(c, x);
  }

  lemma QuietStepMoves(c: Client, e: Event, x: nat)
    requires Inv(c) && x in c.exchanges
    requires e.EvBegin? || e.EvUnwound? || e.EvGiveUp? || e.EvTake? || e.EvAnswer?
    ensures x in Step(c, e).exchanges && Step(c, e).exchanges[x] == c.exchanges[x]
  {
    assert Typed(c);
    hide Inv, Typed, Begin, Take, Answer, Finish;
    QuietMoves(c, x);
    if e.EvTake? || e.EvAnswer? {
      WorkerMoves(c, e.s, e.EvAnswer? && e.ok);
    }
  }

  lemma ExchangeStep(c: Client, y: nat)
    requires Typed(c)
    ensures Step(c, EvTimeout(y)) == if y in c.exchanges then Interrupt(c, y, true) else c
    ensures Step(c, EvAbort(y)) == if y in c.exchanges then Interrupt(c, y, false) else c
    ensures Step(c, EvError(y)) == if y in c.exchanges then Terminate(c, y, WorkerFailed) else c
    ensures Step(c, EvGrace(y))
         == if y in c.exchanges && c.exchanges[y].phase == Stopping then Terminate(c, y, WorkerFailed) else c
  {
    hide Typed, Interrupt, Terminate;
  }

  lemma ExchangeStepMoves(c: Client, e: Event, x: nat)
    requires Inv(c) && x in c.exchanges
    requires e.EvTimeout? || e.EvAbort? || e.EvError? || e.EvGrace?
    ensures x in Step(c, e).exchanges && Moves(c, e, x, c.exchanges[x], Step(c, e).exchanges[x])
  {
    assert Typed(c);
    Still(c, e, x, c.exchanges[x]);
    ExchangeStep(c, e.x);
    hide *;
    if e.x in c.exchanges {
      if e.EvTimeout? || e.EvAbort? {
        InterruptMoves(c, e, e.x, e.EvTimeout?, x);
      } else if e.EvError? || c.exchanges[e.x].phase == Stopping {
        ErrorMoves(c, e, e.x, x);
      }
    }
  }

  /**
   * Every event moves every exchange along its protocol: a promise settles
   * with the reply that carries its id, or because its own exchange was
   * cancelled or lost its worker; once cancelled, an exchange ends only by its
   * report, the end of its grace or the stop of its worker, which resolves the
   * promise a following job waits for.
   */
  lemma StepMoves(c: Client, e: Event, x: nat)
    requires Inv(c) && x in c.exchanges
    ensures x in Step(c, e).exchanges
    ensures Moves(c, e, x, c.exchanges[x], Step(c, e).exchanges[x])
  {
    assert Typed(c);
    Still(c, e, x, c.exchanges[x]);
    hide *;
    match e
    case EvDeliver(s) =>
      DeliverMoves(c, s, x);
      assert Step(c, e) == Deliver(c, s) by {
        StepDelivers(c, s);
      }
    case EvDispose =>
      DisposedMoves(c, x);
      StepDelivers(c, 0);
    case EvCreate(_, _) => JobStepMoves(c, e, x);
    case EvResume(_, _, _) => JobStepMoves(c, e, x);
    case EvInitialized(_, _, _) => JobStepMoves(c, e, x);
    case EvConclude => JobStepMoves(c, e, x);
    case EvTimeout(_) => ExchangeStepMoves(c, e, x);
    case EvAbort(_) => ExchangeStepMoves(c, e, x);
    case EvError(_) => ExchangeStepMoves(c, e, x);
    case EvGrace(_) => ExchangeStepMoves(c, e, x);
    case _ => QuietStepMoves(c, e, x);
  }

  lemma StepDelivers(c: Client, s: nat)
    requires Typed(c)
    ensures Step(c, EvDeliver(s)) == Deliver(c, s) && Step(c, EvDispose) == Disposed(c)
  {
    hide Typed, Deliver, Disposed;
  }

  lemma WorkerMoves(c: Client, s: nat, ok: bool)
    requires Typed(c)
    ensures Take(c, s).exchanges == c.exchanges && Answer(c, s, ok).exchanges == c.exchanges
  {
    hide Typed;
  }

  lemma QuietMoves(c: Client, x: nat)
    requires Typed(c) && x in c.exchanges
    ensures Begin(c).exchanges == c.exchanges
    ensures forall ok :: Finish(c, ok).exchanges == c.exchanges
  {
    hide Typed;
  }

  /**
   * What cancelling does to a running exchange: the start-up, and an abort
   * that no cell can carry to the guest, cost the worker at once; otherwise
   * the exchange gets its grace, and a shared cell holds its token.
   */
  lemma InterruptEnds(c: Client, x: nat, timedOut: bool)
    requires Inv(c) && x in c.exchanges && c.exchanges[x].phase == Running
    ensures
      var c' := Step(c, if timedOut then EvTimeout(x) else EvAbort(x));
      var s := c.exchanges[x].session;
      && c'.exchanges[x].outcome == Some(Interrupted) && c'.cancel != Some(OfExchange(x))
      && if c.exchanges[x].init || (c.sessions[s].cell.None? && !timedOut) then
           && c'.exchanges[x].phase == Closed && c'.session.None? && c'.sessions[s].terminated && !c'.sessions[s].ready
         else
           && c'.exchanges[x].phase == Stopping && c'.exchanges[x].grace && c'.exchanges[x].unwound == Pending
           && c'.session == Some(s) && !c'.sessions[s].terminated && c'.sessions[s].settle == Some(x)
           && c'.sessions[s].cell == (if c.sessions[s].cell.Some? then Some(Token(x)) else None)
  {
    ExchangeAt(c, x);
    SessionAt(c, c.exchanges[x].session);
    hide Inv, Token, OthersClosed;
  }

  /**
   * What a report does: the promise of a running exchange takes its answer,
   * and a cancelled one unwinds. Either way the worker stays, with a clear
   * cell and nothing that holds up the next job.
   */
  lemma ReportEnds(c: Client, s: nat)
    requires Inv(c) && s < |c.sessions| && !c.sessions[s].terminated && c.sessions[s].worker.outbox != []
    ensures
      var reply, c' := c.sessions[s].worker.outbox[0], Step(c, EvDeliver(s));
      && reply.id in c.exchanges && c.exchanges[reply.id].phase != Closed
      && c'.exchanges[reply.id].phase == Closed
      && c'.exchanges[reply.id].outcome
         == Some(if c.exchanges[reply.id].phase == Stopping then Interrupted else if reply.ok then Result else ReplyError)
      && c'.session == Some(s) && !c'.sessions[s].terminated && c'.sessions[s].ready == c.sessions[s].ready
      && c'.sessions[s].settle.None? && c'.sessions[s].cell == (if c.shared then Some(0) else None)
      && c'.sessions[s].worker.engine == c.sessions[s].worker.engine
  {
    SessionAt(c, s);
    var x := c.sessions[s].worker.outbox[0].id;
    ExchangeAt(c, x);
    hide Inv, Token, OthersClosed;
  }

  /** A worker that fails takes its open exchange with it, and the next job starts another. */
  lemma FailureEnds(c: Client, x: nat)
    requires Inv(c) && x in c.exchanges && c.exchanges[x].phase != Closed
    ensures
      var c' := Step(c, EvError(x));
      && c'.exchanges[x].phase == Closed
      && c'.exchanges[x].outcome == Some(if c.exchanges[x].phase == Stopping then Interrupted else WorkerFailed)
      && c'.session.None? && c'.sessions[c.exchanges[x].session].terminated && !c'.sessions[c.exchanges[x].session].ready
  {
    ExchangeAt(c, x);
    hide Inv, Token, OthersClosed;
  }

  /** The token is the one 32-bit signed integer that is congruent to the id: what a shared cell can hold. */
  lemma TokenIs(id: nat, t: int)
    ensures t == Token(id) <==> -0x8000_0000 <= t < 0x8000_0000 && (id - t) % 0x1_0000_0000 == 0
  {
  }

  /** A cell holds the token of the cancelled job until that has left, so its guest finds it. */
  lemma CancellationReaches(shared: bool, events: seq<Event>, x: nat)
    requires x in Run(Initial(shared), events).exchanges && Run(Initial(shared), events).exchanges[x].phase == Stopping
    ensures
      var c := Run(Initial(shared), events);
      var t := c.sessions[c.exchanges[x].session];
      && c.session == Some(c.exchanges[x].session) && (t.cell.Some? <==> c.shared)
      && (t.cell.Some? ==> t.cell == Some(Token(x)) && (t.worker.working == Some(x) ==> Hit(t)))
  {
    var c := Run(Initial(shared), events);
    Reachable(shared, events);
    ExchangeAt(c, x);
    SessionAt(c, c.exchanges[x].session);
    hide Inv, Token;
  }

  /** A new job waits for the cancelled one, if one is still stopping. */
  lemma BeginWaits(c: Client)
    requires Inv(c) && c.created && !c.disposed && !c.busy
    ensures
      var c' := Step(c, EvBegin);
      && c'.busy && c'.exchanges == c.exchanges && c'.sessions == c.sessions
      && (forall x <- c.exchanges :: c.exchanges[x].phase == Stopping ==>
            c'.job == Waiting(Some(x), None) && c'.cancel == Some(OfWait))
      && ((forall x <- c.exchanges :: c.exchanges[x].phase != Stopping) ==> c'.job == Waiting(None, Some(true)))
  {
    forall x | x in c.exchanges && c.exchanges[x].phase == Stopping
      ensures c.session == Some(c.exchanges[x].session) && c.sessions[c.exchanges[x].session].settle == Some(x) {
      ExchangeAt(c, x);
    }
    if c.session.Some? {
      SessionAt(c, c.session.value);
    }
    hide Inv;
  }

  /** The wait succeeds once the cancelled job has left; given up, it ends the new job and leaves all else alone. */
  lemma WaitEnds(c: Client)
    requires Inv(c) && c.job.Waiting? && c.job.finished.None?
    ensures c.job.on.Some?
    ensures Step(c, EvUnwound).job
         == Waiting(c.job.on, if c.exchanges[c.job.on.value].phase == Closed then Some(true) else None)
    ensures var c' := Step(Step(c, EvGiveUp), EvResume(false, false, false));
            c' == c.(job := NoJob, busy := false, cancel := None)
  {
    JobAt(c);
    ExchangeAt(c, c.job.on.value);
    hide Inv, OthersClosed, Typed;
  }

  /** A job goes on once nothing holds it up: to a ready worker its message is posted, no other is started. */
  lemma ReadyServes(c: Client)
    requires Inv(c) && c.job.Waiting? && c.job.finished == Some(true) && !c.disposed
    requires c.session.Some? && c.sessions[c.session.value].ready
    ensures
      var s, c' := c.session.value, Step(c, EvResume(false, false, false));
      && c'.session == c.session && |c'.sessions| == |c.sessions| && c'.job.Exchanging?
      && c'.job.id !in c.exchanges && c'.exchanges == c.exchanges[c'.job.id := c'.exchanges[c'.job.id]]
      && c'.exchanges[c'.job.id] == Exchange(s, false, Running, false, NoPromise, 0, None)
      && c'.sessions[s].worker.inbox == c.sessions[s].worker.inbox + [c'.job.id]
      && c'.cancel == Some(OfExchange(c'.job.id))
  {
    FreshId(c, NextId(c.sequence));
    hide Inv, NextId, Typed;
  }

  /** Without one, a worker is started first: a fresh one, unless one is attached already. */
  lemma UnreadyStarts(c: Client)
    requires Inv(c) && c.job.Waiting? && c.job.finished == Some(true) && !c.disposed
    requires c.session.None? || !c.sessions[c.session.value].ready
    ensures
      var c' := Step(c, EvResume(false, false, false));
      && c'.job.Initializing? && c'.job.id !in c.exchanges && c'.session.Some?
      && c'.exchanges[c'.job.id] == Exchange(c'.session.value, true, Running, false, NoPromise, 0, None)
      && (c.session.Some? ==> c'.session == c.session && |c'.sessions| == |c.sessions|)
      && (c.session.None? ==> c'.session == Some(|c.sessions|) && |c'.sessions| == |c.sessions| + 1
                              && !c'.sessions[|c.sessions|].terminated
                              && c'.sessions[|c.sessions|].cell == if c.shared then Some(0) else None)
  {
    FreshId(c, NextId(c.sequence));
    hide Inv, NextId, Typed;
  }

  /** Once started, the worker is ready and takes the job; a failed start stops it and ends the job. */
  lemma StartEnds(c: Client)
    requires Inv(c) && c.job.Initializing? && c.exchanges[c.job.id].outcome.Some? && !c.disposed && c.created
    ensures
      var s, c' := c.exchanges[c.job.id].session, Step(c, EvInitialized(false, false, false));
      if c.exchanges[c.job.id].outcome == Some(Result) then
        && c'.job.Exchanging? && c'.job.id !in c.exchanges && c'.exchanges[c'.job.id].session == s
        && c'.session == Some(s) && c'.sessions[s].ready && c'.sessions[s].worker.engine
      else
        c'.job.NoJob? && !c'.busy && c'.session != Some(s) && c'.sessions[s].terminated
  {
    ExchangeAt(c, c.job.id);
    FreshId(c, NextId(c.sequence));
    JobAt(c);
    hide Inv, NextId, Typed;
  }

  /** A job that is late or aborted by then posts nothing; when posting fails, the worker goes with the job's exchange. */
  lemma ReadyRefuses(c: Client, late: bool, aborted: bool)
    requires Inv(c) && c.job.Waiting? && c.job.finished == Some(true) && !c.disposed
    requires c.session.Some? && c.sessions[c.session.value].ready
    ensures late || aborted ==>
              forall refused :: Step(c, EvResume(late, aborted, refused)) == c.(job := Failing(None))
    ensures var s, c' := c.session.value, Step(c, EvResume(false, false, true));
            && c'.session.None? && c'.sessions[s].terminated && c'.job.Exchanging? && c'.job.id !in c.exchanges
            && c'.exchanges[c'.job.id] == Exchange(s, false, Closed, false, NoPromise, 1, Some(WorkerFailed))
            && c'.sessions[s].worker == c.sessions[s].worker
  {
    FreshId(c, NextId(c.sequence));
    hide Inv, NextId, Typed;
  }

  /** A job ends with its exchange; one that was rejected before it ends at once, and its start-up stops its worker. */
  lemma JobEnds(c: Client)
    requires Inv(c)
    ensures var c' := Step(c, EvConclude);
            && (c.job.Exchanging? && c.exchanges[c.job.id].outcome.Some? ==> c' == c.(job := NoJob, busy := false))
            && (c.job == Failing(None) ==> c' == c.(job := NoJob, busy := false))
            && (c.job.Failing? && c.job.session.Some? ==>
                  c'.job.NoJob? && !c'.busy && c'.sessions[c.job.session.value].terminated && c'.session != c.job.session)
  {
    if c.job.Failing? && c.job.session.Some? {
      StopTerminates(c, c.job.session.value);
    }
    hide Inv, Stop, Typed;
  }

  lemma StopTerminates(c: Client, s: nat)
    requires Typed(c) && s < |c.sessions|
    ensures Stop(c, s).sessions[s].terminated && Stop(c, s).session != Some(s)
  {
    assert Names(c, c.sessions[s].settle);
    hide Typed, Ends;
    var t := c.sessions[s];
    if t.settle.Some? && c.exchanges[t.settle.value].phase == Stopping && c.exchanges[t.settle.value].session == s {
      assert Stop(c, s) == Terminate(c, t.settle.value, WorkerFailed);
      assert Terminate(c, t.settle.value, WorkerFailed).sessions[s] == Dead(t);
    }
  }

  /** The factory ends with its worker's start, and only then are there jobs. */
  lemma FactoryEnds(c: Client, late: bool, aborted: bool, refused: bool)
    requires Inv(c) && c.job.Initializing? && c.exchanges[c.job.id].outcome.Some? && !c.created
    ensures var s, c' := c.exchanges[c.job.id].session, Step(c, EvInitialized(late, aborted, refused));
            && c'.job.NoJob? && !c'.busy && (c'.created <==> c.exchanges[c.job.id].outcome == Some(Result))
            && (c'.created ==> c'.session == Some(s) && c'.sessions[s].ready && c'.sessions[s].worker.engine)
            && (!c'.created ==> c'.session != Some(s) && c'.sessions[s].terminated)
  {
    ExchangeAt(c, c.job.id);
    JobAt(c);
    StopTerminates(c, c.exchanges[c.job.id].session);
    hide Inv, Stop, Typed, Post;
  }

  /** A worker takes its messages in order. */
  lemma WorkerTakes(c: Client, s: nat)
    requires Typed(c) && s < |c.sessions|
    ensures var w, c' := c.sessions[s].worker, Step(c, EvTake(s));
            w.working.None? && w.inbox != [] ==>
              && c'.exchanges == c.exchanges && c'.session == c.session
              && c'.sessions[s].worker == w.(inbox := w.inbox[1..], working := Some(w.inbox[0]))
              && c'.sessions[s].cell == c.sessions[s].cell
  {
    hide Typed;
  }

  /** It answers the message it took; a start-up that succeeds gives it its engine. */
  lemma WorkerAnswers(c: Client, s: nat, ok: bool)
    requires Typed(c) && s < |c.sessions|
    ensures var w, c' := c.sessions[s].worker, Step(c, EvAnswer(s, ok));
            w.working.Some? && w.working.value in c.exchanges ==>
              var init := c.exchanges[w.working.value].init;
              && c'.exchanges == c.exchanges && c'.session == c.session
              && c'.sessions[s].worker.working.None? && c'.sessions[s].worker.inbox == w.inbox
              && c'.sessions[s].worker.outbox == w.outbox + [Reply(w.working.value, ok && (init || w.engine))]
              && (c'.sessions[s].worker.engine <==> w.engine || (ok && init))
  {
    hide Typed;
  }

  /** The end of a grace period always ends the exchange and stops its worker. */
  lemma GraceEnds(c: Client, x: nat)
    requires Inv(c) && x in c.exchanges && c.exchanges[x].phase == Stopping
    ensures
      var c' := Step(c, EvGrace(x));
      && c'.exchanges[x].phase == Closed && c'.exchanges[x].unwound == Resolved
      && c'.session.None? && c'.sessions[c.exchanges[x].session].terminated
  {
    ExchangeAt(c, x);
  }

  // ----------------------------------------------------------- after dispose

  lemma DisposedStep(c: Client, e: Event)
    requires Inv(c) && c.disposed
    ensures Step(c, e).disposed && |Step(c, e).sessions| == |c.sessions| && Step(c, e).exchanges.Keys == c.exchanges.Keys
  {
    hide Inv, ExchangeOk, SessionOk, OthersClosed, JobTyped, Token, NextId, Typed, Stop, Interrupt, Terminate, Receive, Begun,
      Put, Names;
    JobAt(c);
    match e
    case EvInitialized(late, aborted, refused) => DisposedInitialized(c, late, aborted, refused);
    case EvDispose => DisposedAgain(c);
    case _ =>
  }

  lemma DisposedInitialized(c: Client, late: bool, aborted: bool, refused: bool)
    requires Typed(c) && c.disposed && c.session.None? && c.created
    ensures var c' := Initialized(c, late, aborted, refused);
            c'.disposed && |c'.sessions| == |c.sessions| && c'.exchanges.Keys == c.exchanges.Keys
  {
    hide Stop, NextId;
  }

  lemma DisposedAgain(c: Client)
    requires Typed(c)
    ensures c.disposed && c.session.None? && c.created ==>
              var c' := Disposed(c);
              c'.disposed && |c'.sessions| == |c.sessions| && c'.exchanges.Keys == c.exchanges.Keys
  {
    hide Typed, Stop, Interrupt;
  }

  /**
   * Once disposed, whatever else happens: no worker is created, none is left
   * alive or attached, and no exchange is open.
   */
  lemma {:induction false} NoWorkerAfterDispose(c: Client, events: seq<Event>)
    requires Inv(c) && c.disposed
    ensures
      var c' := Run(c, events);
      && c'.disposed && c'.session.None? && |c'.sessions| == |c.sessions|
      && (forall s | 0 <= s < |c'.sessions| :: c'.sessions[s].terminated)
      && (forall x <- c'.exchanges :: c'.exchanges[x].phase == Closed)
    decreases |events|
  {
    if events == [] {
      forall s | 0 <= s < |c.sessions| ensures c.sessions[s].terminated {
        SessionAt(c, s);
      }
      forall x | x in c.exchanges ensures c.exchanges[x].phase == Closed {
        ExchangeAt(c, x);
      }
    } else {
      assert Typed(c);
      hide Inv, Step;
      StepInv(c, events[0]);
      DisposedStep(c, events[0]);
      NoWorkerAfterDispose(Step(c, events[0]), events[1..]);
    }
  }

  /** dispose itself: everything pending ends at once. */
  lemma DisposeEndsAll(c: Client)
    requires Inv(c) && c.created
    ensures var c' := Step(c, EvDispose);
            c'.disposed && c'.session.None? && (c'.job.Waiting? ==> c'.job.finished.Some?)
            && forall x <- c'.exchanges :: c'.exchanges[x].phase == Closed
  {
    var c' := Step(c, EvDispose);
    DisposedInv(c);
    NoWorkerAfterDispose(c', []);
    assert JobOk(c');
    assert c'.cancel != Some(OfWait) by {
      DisposeCancels(c);
    }
  }

  lemma DisposeCancels(c: Client)
    requires Inv(c) && c.created
    ensures Disposed(c).cancel != Some(OfWait)
  {
    hide Inv, ExchangeOk, SessionOk, OthersClosed, JobTyped, Token, Typed, Stop, Interrupt;
    JobAt(c);
  }
}
