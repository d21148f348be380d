/** Every event of the worker protocol keeps its invariant. */
module ProtocolInvariant {
  import opened Prelude
  import opened Protocol

  // ------------------------------------------------------------ ingredients

  lemma InitialInv(shared: bool)
    ensures Inv(Initial(shared))
  {
  }

  lemma ExchangeAt(c: Client, x: nat)
    requires Inv(c) && x in c.exchanges
    ensures Typed(c) && ExchangeOk(c, x, c.exchanges[x], c.sessions[c.exchanges[x].session])
  {
  }

  lemma SessionAt(c: Client, s: nat)
    requires Inv(c) && s < |c.sessions|
    ensures Typed(c) && SessionOk(c, s, c.sessions[s])
  {
  }

  lemma JobAt(c: Client)
    requires Inv(c)
    ensures Typed(c) && JobOk(c)
  {
    hide Typed, JobOk, ExchangeOk, SessionOk;
  }

  /** At most one exchange is open, and its session is the attached one. */
  lemma OneOpen(c: Client, x: nat, y: nat)
    requires Inv(c)
    requires x in c.exchanges && y in c.exchanges
    requires c.exchanges[x].phase != Closed && c.exchanges[y].phase != Closed
    ensures x == y
  {
    hide Inv, Token;
    ExchangeAt(c, x);
    ExchangeAt(c, y);
  }

  /** What holds of an open exchange, without the rest of the invariant. */
  lemma OpenAt(c: Client, x: nat)
    requires Inv(c)
    requires x in c.exchanges && c.exchanges[x].phase != Closed
    ensures OthersClosed(c, Some(x)) && JobOk(c)
    ensures Typed(c) && ExchangeOk(c, x, c.exchanges[x], c.sessions[c.exchanges[x].session])
    ensures SessionOk(c, c.exchanges[x].session, c.sessions[c.exchanges[x].session])
  {
    assert JobOk(c);
    ExchangeAt(c, x);
    SessionAt(c, c.exchanges[x].session);
    hide Inv, JobOk, ExchangeOk, SessionOk;
    forall y | y in c.exchanges && c.exchanges[y].phase != Closed ensures y == x {
      OneOpen(c, x, y);
    }
  }

  /** What the steps of one exchange rely on; part of the invariant. */
  predicate Usable(c: Client, x: nat) {
    && Typed(c)
    && x in c.exchanges
    && var e := c.exchanges[x];
       var t := c.sessions[e.session];
       && (e.phase != Closed ==> c.session == Some(e.session) && !t.terminated)
       && (e.phase == Running ==> e.outcome.None? && t.settle.None?)
       && (e.phase == Stopping ==> t.settle == Some(x))
  }

  /** What `exchange` relies on: nothing on the attached session waits to unwind. */
  predicate Idling(c: Client) {
    && Typed(c)
    && (c.session.Some? ==> c.sessions[c.session.value].settle.None? && !c.sessions[c.session.value].terminated)
  }

  lemma ReachableUsable(c: Client, x: nat)
    requires Inv(c) && x in c.exchanges
    ensures Usable(c, x)
  {
    ExchangeAt(c, x);
    SessionAt(c, c.exchanges[x].session);
    hide Inv, Token;
  }

  /** A closed exchange does not notice what happens to the open one. */
  lemma ClosedStays(c: Client, c': Client, y: nat, e: Exchange, t: Session, t': Session)
    requires ExchangeOk(c, y, e, t) && e.phase == Closed
    requires c'.sequence >= c.sequence
    requires c'.cancel != Some(OfExchange(y))
    requires t'.settle != Some(y)
    requires t.worker.engine ==> t'.worker.engine
    ensures ExchangeOk(c', y, e, t')
  {
  }

  /** Another session does not notice it either. */
  lemma SessionStays(c: Client, c': Client, s: nat, t: Session)
    requires SessionOk(c, s, t)
    requires c'.shared == c.shared
    requires c'.session == Some(s) <==> c.session == Some(s)
    requires forall x | x in c.exchanges && c.exchanges[x].session == s :: x in c'.exchanges && c'.exchanges[x] == c.exchanges[x]
    ensures SessionOk(c', s, t)
  {
    hide LastOk, OnlyLast, Unused;
  }

  lemma PutExchanges(c: Client, x: nat, e: Exchange, t: Session, session: Option<nat>, cancel: Option<Cancel>)
    requires Inv(c)
    requires Fits(c, x, e, t, session, cancel)
    requires OthersClosed(c, Some(x))
    requires c.sessions[e.session].worker.engine ==> t.worker.engine
    requires session.None? ==> c.session == None || c.session == Some(e.session)
    requires var c' := Put(c, x, e, t, session, cancel);
             ExchangeOk(c', x, e, t)
    ensures var c' := Put(c, x, e, t, session, cancel);
            forall y | y in c'.exchanges :: ExchangeOk(c', y, c'.exchanges[y], c'.sessions[c'.exchanges[y].session])
  {
    var c' := Put(c, x, e, t, session, cancel);
    forall y | y in c'.exchanges ensures ExchangeOk(c', y, c'.exchanges[y], c'.sessions[c'.exchanges[y].session]) {
      if y != x {
        ExchangeAt(c, y);
        hide ExchangeOk, SessionOk, JobOk, Inv;
        assert ExchangeOk(c, y, c.exchanges[y], c.sessions[c.exchanges[y].session]);
        ClosedPut(c, x, e, t, session, cancel, y);
      }
    }
  }

  lemma PutSessions(c: Client, x: nat, e: Exchange, t: Session, session: Option<nat>, cancel: Option<Cancel>)
    requires Inv(c)
    requires Fits(c, x, e, t, session, cancel)
    requires OthersClosed(c, Some(x))
    requires c.sessions[e.session].worker.engine ==> t.worker.engine
    requires session.None? ==> c.session == None || c.session == Some(e.session)
    requires var c' := Put(c, x, e, t, session, cancel);
             SessionOk(c', e.session, t)
    ensures var c' := Put(c, x, e, t, session, cancel);
            forall s | 0 <= s < |c'.sessions| :: SessionOk(c', s, c'.sessions[s])
  {
    var c' := Put(c, x, e, t, session, cancel);
    forall s | 0 <= s < |c'.sessions| ensures SessionOk(c', s, c'.sessions[s]) {
      if s != e.session {
        SessionAt(c, s);
        hide ExchangeOk, SessionOk, JobOk, Inv;
        SessionStays(c, c', s, c.sessions[s]);
      }
    }
  }

  lemma PutInv(c: Client, x: nat, e: Exchange, t: Session, session: Option<nat>, cancel: Option<Cancel>)
    requires Inv(c)
    requires Fits(c, x, e, t, session, cancel)
    requires OthersClosed(c, Some(x))
    requires c.sessions[e.session].worker.engine ==> t.worker.engine
    requires session.None? ==> c.session == None || c.session == Some(e.session)
    requires var c' := Put(c, x, e, t, session, cancel);
             ExchangeOk(c', x, e, t) && SessionOk(c', e.session, t) && JobOk(c')
    ensures Inv(Put(c, x, e, t, session, cancel))
  {
    hide ExchangeOk, SessionOk, JobOk, Put, Fits;
    PutExchanges(c, x, e, t, session, cancel);
    PutSessions(c, x, e, t, session, cancel);
  }

  lemma ClosedPut(c: Client, x: nat, e: Exchange, t: Session, session: Option<nat>, cancel: Option<Cancel>, y: nat)
    requires Typed(c) && Fits(c, x, e, t, session, cancel)
    requires y in c.exchanges && y != x && c.exchanges[y].phase == Closed
    requires c.sessions[e.session].worker.engine ==> t.worker.engine
    requires ExchangeOk(c, y, c.exchanges[y], c.sessions[c.exchanges[y].session])
    ensures var c' := Put(c, x, e, t, session, cancel);
            ExchangeOk(c', y, c'.exchanges[y], c'.sessions[c'.exchanges[y].session])
  {
    var c' := Put(c, x, e, t, session, cancel);
    var t', u := c'.sessions[c.exchanges[y].session], c.sessions[c.exchanges[y].session];
    assert c.cancel != Some(OfExchange(y)) && u.settle != Some(y);
    ClosedStays(c, c', y, c.exchanges[y], u, t');
  }

  // -------------------------------------------------------- client's steps

  lemma TerminateInv(c: Client, x: nat, o: Outcome)
    requires Inv(c)
    requires x in c.exchanges
    requires o == Interrupted || o == WorkerFailed
    ensures Inv(Terminate(c, x, o))
  {
    var e := c.exchanges[x];
    if e.phase != Closed {
      OpenAt(c, x);
      hide Inv, Token, ExchangeOk, SessionOk, JobOk;
      var e', t, cancel := Ends(e, o), Dead(c.sessions[e.session]), Without(c.cancel, OfExchange(x));
      EndsOk(c, x, o);
      EndsJob(c, x, o);
      PutInv(c, x, e', t, None, cancel);
    }
  }

  lemma EndsOk(c: Client, x: nat, o: Outcome)
    requires o == Interrupted || o == WorkerFailed
    requires Typed(c) && x in c.exchanges && c.exchanges[x].phase != Closed
    requires var e := c.exchanges[x]; var t := c.sessions[e.session]; ExchangeOk(c, x, e, t) && SessionOk(c, e.session, t)
    ensures
      var e := c.exchanges[x];
      var t := c.sessions[e.session];
      && Fits(c, x, Ends(e, o), Dead(t), None, Without(c.cancel, OfExchange(x)))
      && Detached(c, e.session) == None
      && (c.session == None || c.session == Some(e.session))
      && var c' := Put(c, x, Ends(e, o), Dead(t), None, Without(c.cancel, OfExchange(x)));
         ExchangeOk(c', x, Ends(e, o), Dead(t)) && SessionOk(c', e.session, Dead(t))
  {
    hide Token;
  }

  lemma EndsJob(c: Client, x: nat, o: Outcome)
    requires o != Result
    requires Typed(c) && x in c.exchanges && c.exchanges[x].phase != Closed
    requires OthersClosed(c, Some(x)) && JobOk(c)
    requires var e := c.exchanges[x];
             && (e.phase == Running ==> e.outcome.None?)
             && (e.phase == Stopping ==> e.outcome == Some(Interrupted))
             && Fits(c, x, Ends(e, o), Dead(c.sessions[e.session]), None, Without(c.cancel, OfExchange(x)))
    ensures var e := c.exchanges[x];
            JobOk(Put(c, x, Ends(e, o), Dead(c.sessions[e.session]), None, Without(c.cancel, OfExchange(x))))
  {
    hide Token, Typed;
  }

  function Halted(e: Exchange): Exchange {
    e.(phase := Stopping, grace := true, unwound := Pending, settlements := e.settlements + 1, outcome := Some(Interrupted))
  }

  function Telling(t: Session, x: nat): Session {
    t.(settle := Some(x), cell := if t.cell.Some? then Some(Token(x)) else None)
  }

  predicate Stoppable(c: Client, x: nat, timedOut: bool)
    requires Typed(c)
  {
    && x in c.exchanges && c.exchanges[x].phase == Running
    && var e := c.exchanges[x];
       !e.init && (c.sessions[e.session].cell.Some? || timedOut)
  }

  lemma StoppingIs(c: Client, x: nat, timedOut: bool)
    requires Typed(c) && Stoppable(c, x, timedOut) && c.cancel == Some(OfExchange(x))
    ensures var e := c.exchanges[x];
            && Fits(c, x, Halted(e), Telling(c.sessions[e.session], x), c.session, None)
            && Interrupt(c, x, timedOut) == Put(c, x, Halted(e), Telling(c.sessions[e.session], x), c.session, None)
  {
    hide Typed, Token;
  }

  lemma StoppingOk(c: Client, x: nat, timedOut: bool)
    requires Typed(c) && Stoppable(c, x, timedOut)
    requires var e := c.exchanges[x]; var t := c.sessions[e.session]; ExchangeOk(c, x, e, t) && SessionOk(c, e.session, t)
    ensures
      var e := c.exchanges[x];
      var t := c.sessions[e.session];
      && Fits(c, x, Halted(e), Telling(t, x), c.session, None)
      && var c' := Put(c, x, Halted(e), Telling(t, x), c.session, None);
         ExchangeOk(c', x, Halted(e), Telling(t, x)) && SessionOk(c', e.session, Telling(t, x))
  {
    hide Typed, Token;
  }

  lemma StoppingJob(c: Client, x: nat, timedOut: bool)
    requires Typed(c) && Stoppable(c, x, timedOut) && JobOk(c)
    requires ExchangeOk(c, x, c.exchanges[x], c.sessions[c.exchanges[x].session]) && OthersClosed(c, Some(x))
    requires var e := c.exchanges[x]; Fits(c, x, Halted(e), Telling(c.sessions[e.session], x), c.session, None)
    ensures var e := c.exchanges[x];
            JobOk(Put(c, x, Halted(e), Telling(c.sessions[e.session], x), c.session, None))
  {
    hide Typed, Token, Telling;
  }

  lemma StoppingInv(c: Client, x: nat, timedOut: bool)
    requires Inv(c) && Typed(c) && Stoppable(c, x, timedOut)
    ensures Inv(Interrupt(c, x, timedOut))
  {
    OpenAt(c, x);
    CancelsOpen(c, x);
    var e := c.exchanges[x];
    hide Inv, Typed, ExchangeOk, SessionOk, JobOk, OthersClosed, Fits, Put, Interrupt, Halted, Telling;
    StoppingOk(c, x, timedOut);
    StoppingJob(c, x, timedOut);
    StoppingIs(c, x, timedOut);
    SameWorker(c.sessions[e.session], e, x);
    PutInv(c, x, Halted(e), Telling(c.sessions[e.session], x), c.session, None);
  }

  lemma SameWorker(t: Session, e: Exchange, x: nat)
    ensures Telling(t, x).worker == t.worker && Halted(e).session == e.session
  {
    hide Token;
  }

  lemma CancelsOpen(c: Client, x: nat)
    requires Inv(c) && x in c.exchanges && c.exchanges[x].phase == Running
    ensures c.cancel == Some(OfExchange(x)) && c.session == Some(c.exchanges[x].session)
  {
    ExchangeAt(c, x);
    hide Token;
  }

  lemma InterruptInv(c: Client, x: nat, timedOut: bool)
    requires Inv(c)
    requires x in c.exchanges
    ensures Inv(Interrupt(c, x, timedOut))
  {
    assert Typed(c);
    var e := c.exchanges[x];
    hide Inv, Typed, Terminate, Put;
    if e.phase == Running {
      if e.init || (c.sessions[e.session].cell.None? && !timedOut) {
        TerminateInv(c, x, Interrupted);
      } else {
        hide Interrupt;
        StoppingInv(c, x, timedOut);
      }
    }
  }

  /** A reply has left the worker's queues, and is for the open exchange, if any. */
  predicate Reporting(c: Client, c': Client, x: nat, ok: bool) {
    && x in c.exchanges
    && c.exchanges[x].session < |c.sessions|
    && var s := c.exchanges[x].session;
       && var t := c.sessions[s];
          && t.worker.outbox == [Reply(x, ok)]
          && c' == c.(sessions := c.sessions[s := t.(worker := t.worker.(outbox := []))])
  }

  lemma ReceiveInv(c: Client, c': Client, x: nat, ok: bool)
    requires Inv(c)
    requires Reporting(c, c', x, ok)
    ensures Typed(c') && Inv(Receive(c', x, ok))
  {
    var e := c.exchanges[x];
    if e.phase == Closed {
      LateInv(c, c', x, ok);
    } else {
      OpenAt(c, x);
      hide Inv, Token, ExchangeOk, SessionOk, JobOk, Put;
      ReportedOk(c, x, ok);
      var t' := Reported(e, c.sessions[e.session]);
      var e', cancel := Ends(e, if ok then Result else ReplyError), Without(c.cancel, OfExchange(x));
      PutInv(c, x, e', t', c.session, cancel);
      ReportingTyped(c, c', x, ok);
      hide Receive;
      ReceiveIs(c, c', x, ok);
    }
  }

  lemma ReportingTyped(c: Client, c': Client, x: nat, ok: bool)
    requires Typed(c) && Reporting(c, c', x, ok)
    ensures Typed(c')
  {
  }

  /** A reply for an exchange that ended is dropped. */
  lemma LateInv(c: Client, c': Client, x: nat, ok: bool)
    requires Inv(c)
    requires Reporting(c, c', x, ok) && c.exchanges[x].phase == Closed
    ensures Typed(c') && Inv(c')
  {
    var s := c.exchanges[x].session;
    var w := c.sessions[s].worker.(outbox := []);
    SessionAt(c, s);
    hide Inv, Token;
    assert SessionOk(c, s, c.sessions[s].(worker := w));
    hide SessionOk;
    WorkerInv(c, s, w);
  }

  function Reported(e: Exchange, t: Session): Session {
    var cell := if e.phase == Stopping && t.cell.Some? then Some(0) else t.cell;
    Session(t.terminated, t.ready, cell, None, t.worker.(outbox := []))
  }

  lemma ReportedOk(c: Client, x: nat, ok: bool)
    requires Typed(c) && x in c.exchanges && c.exchanges[x].phase != Closed
    requires OthersClosed(c, Some(x)) && JobOk(c)
    requires var e := c.exchanges[x]; var t := c.sessions[e.session]; ExchangeOk(c, x, e, t) && SessionOk(c, e.session, t)
    requires c.sessions[c.exchanges[x].session].worker.outbox == [Reply(x, ok)]
    ensures
      var e := c.exchanges[x];
      var t := Reported(e, c.sessions[e.session]);
      var e', cancel := Ends(e, if ok then Result else ReplyError), Without(c.cancel, OfExchange(x));
      && Fits(c, x, e', t, c.session, cancel)
      && t.worker.engine == c.sessions[e.session].worker.engine
      && var c' := Put(c, x, e', t, c.session, cancel);
         ExchangeOk(c', x, e', t) && SessionOk(c', e.session, t) && JobOk(c')
  {
    hide Token;
  }

  lemma ReceiveIs(c: Client, c': Client, x: nat, ok: bool)
    requires Typed(c) && Typed(c') && Reporting(c, c', x, ok)
    requires c.exchanges[x].phase != Closed
    requires var e := c.exchanges[x];
             Fits(c, x, Ends(e, if ok then Result else ReplyError), Reported(e, c.sessions[e.session]), c.session,
                  Without(c.cancel, OfExchange(x)))
    ensures var e := c.exchanges[x];
            Receive(c', x, ok)
            == Put(c, x, Ends(e, if ok then Result else ReplyError), Reported(e, c.sessions[e.session]), c.session,
                   Without(c.cancel, OfExchange(x)))
  {
    hide Typed;
    var e := c.exchanges[x];
    assert Receive(c', x, ok).sessions == c.sessions[e.session := Reported(e, c.sessions[e.session])];
  }

  // ------------------------------------------------------------ the workers

  /** One session changed, but not which exchange it holds or serves. */
  predicate Quietly(c: Client, s: nat, t: Session, session: Option<nat>)
    requires Typed(c) && s < |c.sessions|
  {
    var u := c.sessions[s];
    && t.settle == u.settle
    && t.worker.last == u.worker.last
    && (u.worker.engine ==> t.worker.engine)
    && (session == c.session
        || (session.None? && c.session == Some(s)
            && forall x <- c.exchanges :: c.exchanges[x].session == s ==> c.exchanges[x].phase == Closed))
  }

  lemma QuietExchange(c: Client, s: nat, t: Session, session: Option<nat>, y: nat)
    requires Typed(c) && s < |c.sessions| && Quietly(c, s, t, session)
    requires y in c.exchanges
    requires ExchangeOk(c, y, c.exchanges[y], c.sessions[c.exchanges[y].session])
    ensures var c' := PutSession(c, s, t, session);
            ExchangeOk(c', y, c.exchanges[y], c'.sessions[c.exchanges[y].session])
  {
    hide Token;
  }

  lemma PutSessionInv(c: Client, s: nat, t: Session, session: Option<nat>)
    requires Inv(c)
    requires s < |c.sessions| && Quietly(c, s, t, session)
    requires var c' := PutSession(c, s, t, session); SessionOk(c', s, t) && JobOk(c')
    ensures Inv(PutSession(c, s, t, session))
  {
    var c' := PutSession(c, s, t, session);
    forall y | y in c'.exchanges ensures ExchangeOk(c', y, c'.exchanges[y], c'.sessions[c'.exchanges[y].session]) {
      ExchangeAt(c, y);
      hide *;
      QuietExchange(c, s, t, session, y);
    }
    forall r | 0 <= r < |c'.sessions| ensures SessionOk(c', r, c'.sessions[r]) {
      if r != s {
        SessionAt(c, r);
        hide ExchangeOk, SessionOk, JobOk, Inv;
        SessionStays(c, c', r, c.sessions[r]);
      }
    }
    hide ExchangeOk, SessionOk, JobOk;
  }

  /** A worker's own steps, seen from outside. */
  lemma WorkerInv(c: Client, s: nat, w: Worker)
    requires Inv(c)
    requires s < |c.sessions|
    requires var t := c.sessions[s];
             && w.last == t.worker.last
             && (t.worker.engine ==> w.engine)
             && SessionOk(c, s, t.(worker := w))
    ensures Typed(WithWorker(c, s, w)) && Inv(WithWorker(c, s, w))
  {
    var t := c.sessions[s].(worker := w);
    assert JobOk(PutSession(c, s, t, c.session)) && SessionOk(PutSession(c, s, t, c.session), s, t);
    hide Inv, SessionOk, JobOk;
    PutSessionInv(c, s, t, c.session);
  }

  lemma TakeInv(c: Client, s: nat)
    requires Inv(c)
    ensures Inv(Take(c, s))
  {
    if s < |c.sessions| && c.sessions[s].worker.working.None? && c.sessions[s].worker.inbox != [] {
      var w := c.sessions[s].worker;
      SessionAt(c, s);
      hide Inv, Token;
      WorkerInv(c, s, w.(inbox := w.inbox[1..], working := Some(w.inbox[0])));
    }
  }

  lemma AnswerInv(c: Client, s: nat, ok: bool)
    requires Inv(c)
    ensures Inv(Answer(c, s, ok))
  {
    if s < |c.sessions| && c.sessions[s].worker.working.Some? {
      var w := c.sessions[s].worker;
      SessionAt(c, s);
      var x := w.working.value;
      hide Inv, Token;
      var init := c.exchanges[x].init;
      var done := ok && (init || w.engine);
      WorkerInv(c, s, w.(working := None, outbox := w.outbox + [Reply(x, done)], engine := w.engine || (init && done)));
    }
  }

  lemma DeliverInv(c: Client, s: nat)
    requires Inv(c)
    ensures Inv(Deliver(c, s))
  {
    if s < |c.sessions| && c.sessions[s].worker.outbox != [] {
      var w := c.sessions[s].worker;
      SessionAt(c, s);
      hide Inv, Receive, Token;
      assert w.outbox == [Reply(w.outbox[0].id, w.outbox[0].ok)] && w.outbox[1..] == [];
      var c' := WithWorker(c, s, w.(outbox := w.outbox[1..]));
      ReceiveInv(c, c', w.outbox[0].id, w.outbox[0].ok);
    }
  }

  // -------------------------------------------------------------- the jobs

  /** No open exchange runs on the session, unless it is stopping. */
  lemma StopInv(c: Client, s: nat)
    requires Inv(c)
    requires s < |c.sessions|
    requires forall x | x in c.exchanges && c.exchanges[x].session == s :: c.exchanges[x].phase != Running
    requires c.job.Initializing? && !c.disposed ==> c.exchanges[c.job.id].outcome != Some(Result)
    ensures Inv(Stop(c, s))
  {
    var t := c.sessions[s];
    SessionAt(c, s);
    if t.settle.Some? {
      hide Inv, Terminate, Token;
      TerminateInv(c, t.settle.value, WorkerFailed);
    } else {
      forall x | x in c.exchanges && c.exchanges[x].session == s ensures c.exchanges[x].phase == Closed {
        ExchangeAt(c, x);
      }
      DeadOk(c, s);
      hide *;
      DeadInv(c, s);
    }
  }

  lemma DeadOk(c: Client, s: nat)
    requires Inv(c)
    requires s < |c.sessions| && c.sessions[s].settle.None?
    requires c.job.Initializing? && !c.disposed ==> c.exchanges[c.job.id].outcome != Some(Result)
    requires forall x <- c.exchanges :: c.exchanges[x].session == s ==> c.exchanges[x].phase == Closed
    ensures var c' := PutSession(c, s, Dead(c.sessions[s]), Detached(c, s));
            SessionOk(c', s, Dead(c.sessions[s])) && JobOk(c')
  {
    SessionAt(c, s);
    hide Token;
  }

  lemma DeadInv(c: Client, s: nat)
    requires Inv(c)
    requires s < |c.sessions| && c.sessions[s].settle.None?
    requires forall x <- c.exchanges :: c.exchanges[x].session == s ==> c.exchanges[x].phase == Closed
    requires var c' := PutSession(c, s, Dead(c.sessions[s]), Detached(c, s));
             SessionOk(c', s, Dead(c.sessions[s])) && JobOk(c')
    ensures Inv(Stop(c, s))
  {
    hide Inv, SessionOk, JobOk;
    PutSessionInv(c, s, Dead(c.sessions[s]), Detached(c, s));
  }

  lemma OpenInv(c: Client)
    requires Inv(c) && !c.disposed
    requires OthersClosed(c, None)
    requires c.job.Initializing? ==> c.exchanges[c.job.id].outcome != Some(Result) || c.session.Some?
    ensures Inv(Open(c))
  {
    if c.session.None? {
      var c' := Open(c);
      assert JobOk(c');
      var n := |c.sessions|;
      assert SessionOk(c', n, c'.sessions[n]);
      forall y | y in c'.exchanges ensures ExchangeOk(c', y, c'.exchanges[y], c'.sessions[c'.exchanges[y].session]) {
        ExchangeAt(c, y);
      }
      forall r | 0 <= r < |c'.sessions| ensures SessionOk(c', r, c'.sessions[r]) {
        if r < n {
          SessionAt(c, r);
          hide Inv, ExchangeOk, JobOk, SessionOk;
          SessionStays(c, c', r, c.sessions[r]);
        }
      }
      hide ExchangeOk, SessionOk, JobOk;
    }
  }

  /** A message may go out: the worker has reported everything else. */
  ghost predicate Idle(c: Client) {
    && Inv(c)
    && c.session.Some?
    && !c.disposed
    && OthersClosed(c, None)
    && (c.created ==> c.busy)
  }

  /** The attached worker of an idle client has nothing left to report. */
  lemma IdleSession(c: Client)
    requires Idle(c)
    ensures var s := c.session.value; var t := c.sessions[s];
            && SessionOk(c, s, t) && !t.terminated
            && t.settle.None? && Unreported(t.worker) == 0
            && (t.cell.Some? ==> t.cell.value == 0)
  {
    SessionAt(c, c.session.value);
    hide Token;
  }

  /** A client between two exchanges, with or without a worker. */
  ghost predicate AtRest(c: Client) {
    Inv(c) && (c.session.Some? ==> Idle(c))
  }

  lemma RestIsIdling(c: Client)
    requires AtRest(c)
    ensures Idling(c)
  {
    if c.session.Some? {
      IdleSession(c);
    }
  }

  lemma FreshId(c: Client, x: nat)
    requires Inv(c) && x > c.sequence
    ensures x !in c.exchanges
  {
    if x in c.exchanges {
      ExchangeAt(c, x);
      assert false;
    }
  }

  lemma IdleExchange(c: Client, y: nat)
    requires Idle(c) && y in c.exchanges
    ensures c.exchanges[y].phase == Closed
    ensures ExchangeOk(c, y, c.exchanges[y], c.sessions[c.exchanges[y].session])
  {
    ExchangeAt(c, y);
  }

  lemma PostedInv(c: Client, init: bool)
    requires Idle(c)
    requires init || (c.created && c.sessions[c.session.value].worker.engine)
    ensures var x := NextId(c.sequence);
            Inv(WithJob(Posted(c, x, init), if init then Initializing(x) else Exchanging(x)))
  {
    var x := NextId(c.sequence);
    var s := c.session.value;
    var c' := WithJob(Posted(c, x, init), if init then Initializing(x) else Exchanging(x));
    IdleSession(c);
    FreshId(c, x);
    assert JobOk(c') by {
      assert OthersClosed(c', Some(x));
      hide ExchangeOk, SessionOk, Token, NextId;
    }
    PostedParts(c, init, x, c');
    hide JobOk, NextId, Posted;
    BeganRest(c, c', x);
  }

  lemma PostedParts(c: Client, init: bool, x: nat, c': Client)
    requires Idle(c) && x == NextId(c.sequence)
    requires c' == WithJob(Posted(c, x, init), if init then Initializing(x) else Exchanging(x))
    requires init || c.sessions[c.session.value].worker.engine
    ensures var s := c.session.value;
            && ExchangeOk(c', x, c'.exchanges[x], c'.sessions[s])
            && SessionOk(c', s, c'.sessions[s])
            && Began(c, c', x)
  {
    IdleSession(c);
    hide Idle, Token;
  }

  /** c' has one more exchange than c, x on the attached session. */
  predicate Began(c: Client, c': Client, x: nat) {
    && Typed(c) && Typed(c') && c.session.Some?
    && c'.shared == c.shared
    && c'.sequence == x > c.sequence
    && (c'.session == c.session || c'.session.None?)
    && (c'.cancel == Some(OfExchange(x)) || c'.cancel.None?)
    && x in c'.exchanges && c'.exchanges[x].session == c.session.value
    && c'.exchanges == c.exchanges[x := c'.exchanges[x]]
    && c'.sessions == c.sessions[c.session.value := c'.sessions[c.session.value]]
    && (c'.sessions[c.session.value].settle.None? || c'.sessions[c.session.value].settle == Some(x))
    && (c.sessions[c.session.value].worker.engine ==> c'.sessions[c.session.value].worker.engine)
  }

  lemma BeganExchanges(c: Client, c': Client, x: nat)
    requires Idle(c) && Began(c, c', x) && x !in c.exchanges
    requires ExchangeOk(c', x, c'.exchanges[x], c'.sessions[c.session.value])
    ensures forall y | y in c'.exchanges :: ExchangeOk(c', y, c'.exchanges[y], c'.sessions[c'.exchanges[y].session])
  {
    hide JobOk, Token;
    forall y | y in c'.exchanges ensures ExchangeOk(c', y, c'.exchanges[y], c'.sessions[c'.exchanges[y].session]) {
      if y != x {
        IdleExchange(c, y);
        hide Idle, Inv, ExchangeOk, SessionOk, Typed;
        ClosedStays(c, c', y, c.exchanges[y], c.sessions[c.exchanges[y].session], c'.sessions[c.exchanges[y].session]);
      }
    }
  }

  lemma BeganSessions(c: Client, c': Client, x: nat)
    requires Idle(c) && Began(c, c', x) && x !in c.exchanges
    requires SessionOk(c', c.session.value, c'.sessions[c.session.value])
    ensures forall r | 0 <= r < |c'.sessions| :: SessionOk(c', r, c'.sessions[r])
  {
    hide JobOk, Token;
    var s := c.session.value;
    forall r | 0 <= r < |c'.sessions| ensures SessionOk(c', r, c'.sessions[r]) {
      if r != s {
        SessionAt(c, r);
        hide Idle, Inv, ExchangeOk, SessionOk, Typed;
        SessionStays(c, c', r, c.sessions[r]);
      }
    }
  }

  lemma BeganRest(c: Client, c': Client, x: nat)
    requires Idle(c) && Began(c, c', x) && x !in c.exchanges
    requires JobOk(c')
    requires ExchangeOk(c', x, c'.exchanges[x], c'.sessions[c.session.value])
    requires SessionOk(c', c.session.value, c'.sessions[c.session.value])
    ensures Inv(c')
  {
    hide JobOk, Idle, ExchangeOk, SessionOk;
    BeganExchanges(c, c', x);
    BeganSessions(c, c', x);
  }

  lemma RefusedParts(c: Client, init: bool, x: nat, c': Client)
    requires Idle(c) && x == NextId(c.sequence)
    requires c' == WithJob(Refused(c, x, init), if init then Initializing(x) else Exchanging(x))
    ensures var s := c.session.value;
            && ExchangeOk(c', x, c'.exchanges[x], c'.sessions[s])
            && SessionOk(c', s, c'.sessions[s])
            && Began(c, c', x)
  {
    IdleSession(c);
    FreshId(c, x);
    hide Idle, Token;
  }

  lemma RefusedInv(c: Client, init: bool)
    requires Idle(c)
    requires init || c.created
    ensures var x := NextId(c.sequence);
            Inv(WithJob(Refused(c, x, init), if init then Initializing(x) else Exchanging(x)))
  {
    var x := NextId(c.sequence);
    var c' := WithJob(Refused(c, x, init), if init then Initializing(x) else Exchanging(x));
    FreshId(c, x);
    assert JobOk(c') by {
      assert OthersClosed(c', Some(x));
      hide ExchangeOk, SessionOk, Token, NextId;
    }
    RefusedParts(c, init, x, c');
    hide JobOk, NextId, Refused;
    BeganRest(c, c', x);
  }

  /** Before an exchange begins: everything is reported, and the job is under way. */
  ghost predicate Prepared(c: Client) {
    && Inv(c)
    && OthersClosed(c, None)
    && (c.created ==> c.busy)
    && (c.job.Waiting? ==> c.job.finished.Some?)
    && (c.job.Initializing? ==> c.exchanges[c.job.id].outcome != Some(Result) || c.disposed || c.session.Some?)
  }

  lemma FailingInv(c: Client, s: Option<nat>)
    requires Prepared(c)
    requires s.Some? ==> s.value < |c.sessions|
    ensures Inv(WithJob(c, Failing(s)))
  {
    var c' := WithJob(c, Failing(s));
    forall y | y in c'.exchanges ensures ExchangeOk(c', y, c'.exchanges[y], c'.sessions[c'.exchanges[y].session]) {
      ExchangeAt(c, y);
    }
    forall r | 0 <= r < |c'.sessions| ensures SessionOk(c', r, c'.sessions[r]) {
      SessionAt(c, r);
    }
  }

  lemma BegunInv(c: Client, init: bool, aborted: bool, refused: bool, otherwise: Job)
    requires Prepared(c) && JobTyped(c, otherwise) && otherwise.Failing?
    requires init || (c.created && (c.disposed || (c.session.Some? && c.sessions[c.session.value].worker.engine)))
    ensures Inv(Begun(c, init, aborted, refused, otherwise))
  {
    if c.disposed || aborted {
      hide Inv;
      FailingInv(c, otherwise.session);
    } else {
      OpenInv(c);
      var c1 := Open(c);
      hide Inv, Refused, Posted, ExchangeOk, SessionOk;
      if refused {
        RefusedInv(c1, init);
      } else {
        PostedInv(c1, init);
      }
    }
  }

  lemma PostInv(c: Client, late: bool, aborted: bool, refused: bool)
    requires Prepared(c) && c.created
    requires c.disposed || (c.session.Some? && c.sessions[c.session.value].worker.engine)
    ensures Inv(Post(c, late, aborted, refused))
  {
    hide Inv, Begun;
    if late {
      FailingInv(c, None);
    } else {
      BegunInv(c, false, aborted, refused, Failing(None));
    }
  }

  lemma InitializeInv(c: Client, aborted: bool, refused: bool)
    requires Prepared(c) && !c.disposed
    ensures Inv(Initialize(c, aborted, refused))
  {
    hide Begun;
    var c1 := Open(c);
    OpenInv(c);
    hide Inv;
    BegunInv(c1, true, aborted, refused, Failing(c1.session));
  }

  /** A job whose exchanges are all closed, except one that is stopping, may end. */
  lemma EndedInv(c: Client, created: bool)
    requires Inv(c)
    requires forall x <- c.exchanges :: c.exchanges[x].phase != Running
    requires c.job.Waiting? ==> c.job.finished.Some?
    requires c.created ==> created
    requires created ==> c.sequence > 0
    ensures Inv(Ended(c, created))
  {
    var c' := Ended(c, created);
    forall y | y in c'.exchanges ensures ExchangeOk(c', y, c'.exchanges[y], c'.sessions[c'.exchanges[y].session]) {
      ExchangeAt(c, y);
      hide Inv, SessionOk, JobOk, Token;
    }
    forall r | 0 <= r < |c'.sessions| ensures SessionOk(c', r, c'.sessions[r]) {
      SessionAt(c, r);
      hide Inv, ExchangeOk, JobOk, Token;
    }
    hide ExchangeOk, SessionOk;
  }

  lemma NoneRunning(c: Client)
    requires Inv(c)
    requires !c.job.Initializing? && !c.job.Exchanging?
    ensures forall x <- c.exchanges :: c.exchanges[x].phase != Running
  {
    forall x | x in c.exchanges ensures c.exchanges[x].phase != Running {
      ExchangeAt(c, x);
    }
  }

  lemma FinishInv(c: Client, ok: bool)
    requires Inv(c)
    requires ok && c.job.Waiting? && c.job.on.Some? ==> c.exchanges[c.job.on.value].phase == Closed
    ensures Inv(Finish(c, ok))
  {
    if c.job.Waiting? && c.job.finished.None? {
      var c' := Finish(c, ok);
      forall y | y in c'.exchanges ensures ExchangeOk(c', y, c'.exchanges[y], c'.sessions[c'.exchanges[y].session]) {
        ExchangeAt(c, y);
        hide Inv, SessionOk, JobOk, Token;
      }
      forall r | 0 <= r < |c'.sessions| ensures SessionOk(c', r, c'.sessions[r]) {
        SessionAt(c, r);
        hide Inv, ExchangeOk, JobOk, Token;
      }
      hide ExchangeOk, SessionOk;
    }
  }

  lemma BeginInv(c: Client)
    requires Inv(c)
    ensures Inv(Begin(c))
  {
    if c.created && !c.disposed && !c.busy {
      var c' := Begin(c);
      NoneRunning(c);
      forall y | y in c'.exchanges ensures ExchangeOk(c', y, c'.exchanges[y], c'.sessions[c'.exchanges[y].session]) {
        ExchangeAt(c, y);
        hide Inv, SessionOk, Token;
      }
      forall r | 0 <= r < |c'.sessions| ensures SessionOk(c', r, c'.sessions[r]) {
        SessionAt(c, r);
        hide Inv, ExchangeOk, JobOk, Token;
      }
      assert JobOk(c') by {
        BeginWaits(c);
        hide ExchangeOk, SessionOk, Token;
      }
      hide ExchangeOk, SessionOk, JobOk;
    }
  }

  /** What a new job waits for is the only exchange still open. */
  lemma BeginWaits(c: Client)
    requires Inv(c) && c.job.NoJob?
    ensures OthersClosed(c, if c.session.Some? then c.sessions[c.session.value].settle else None)
    ensures c.session.Some? && c.sessions[c.session.value].settle.Some? ==>
              c.exchanges[c.sessions[c.session.value].settle.value].unwound.Pending?
  {
    NoneRunning(c);
    if c.session.Some? && c.sessions[c.session.value].settle.Some? {
      SessionAt(c, c.session.value);
      ExchangeAt(c, c.sessions[c.session.value].settle.value);
    }
    forall y | y in c.exchanges && c.exchanges[y].phase != Closed
      ensures c.session.Some? && c.sessions[c.session.value].settle == Some(y)
    {
      ExchangeAt(c, y);
    }
  }

  lemma AllClosed(c: Client)
    requires Inv(c)
    requires c.job.Waiting? && c.job.finished == Some(true)
    ensures OthersClosed(c, None)
  {
  }

  lemma ResumedInv(c: Client, late: bool, aborted: bool, refused: bool)
    requires Inv(c)
    ensures Inv(Resumed(c, late, aborted, refused))
  {
    if c.job.Waiting? && c.job.finished.Some? {
      if !c.job.finished.value || c.disposed {
        NoneRunning(c);
        hide Inv;
        EndedInv(c, true);
      } else {
        AllClosed(c);
        assert JobOk(c);
        if c.session.None? || !c.sessions[c.session.value].ready {
          hide Inv, Initialize;
          InitializeInv(c, aborted, refused);
        } else {
          SessionAt(c, c.session.value);
          hide Inv, Post, Token;
          PostInv(c, late, aborted, refused);
        }
      }
    }
  }

  /** The start-up's exchange has ended: nothing else is open. */
  lemma InitClosed(c: Client)
    requires Inv(c)
    requires c.job.Initializing? && c.exchanges[c.job.id].outcome.Some?
    ensures OthersClosed(c, None) && JobOk(c) && c.sequence > 0
  {
    ExchangeAt(c, c.job.id);
    hide Token;
  }

  lemma ReadyInv(c: Client)
    requires Inv(c)
    requires c.job.Initializing? && c.exchanges[c.job.id].outcome == Some(Result)
    ensures var s := c.exchanges[c.job.id].session;
            && c.sessions[s].worker.engine
            && Inv(PutSession(c, s, c.sessions[s].(ready := true), c.session))
  {
    var s := c.exchanges[c.job.id].session;
    var t := c.sessions[s].(ready := true);
    ExchangeAt(c, c.job.id);
    SessionAt(c, s);
    var c' := PutSession(c, s, t, c.session);
    assert JobOk(c');
    hide Inv, Token;
    assert SessionOk(c', s, t);
    hide ExchangeOk, SessionOk, JobOk;
    PutSessionInv(c, s, t, c.session);
  }

  /** The start-up succeeded: the session is ready, and the factory or the job goes on. */
  lemma StartedInv(c: Client, late: bool, aborted: bool, refused: bool)
    requires Inv(c)
    requires c.job.Initializing? && c.exchanges[c.job.id].outcome == Some(Result)
    ensures Inv(Initialized(c, late, aborted, refused))
  {
    var e := c.exchanges[c.job.id];
    InitClosed(c);
    ReadyInv(c);
    var c' := PutSession(c, e.session, c.sessions[e.session].(ready := true), c.session);
    hide Inv, Post;
    if !c.created {
      EndedInv(c', true);
    } else {
      PostInv(c', late, aborted, refused);
    }
  }

  lemma InitializedInv(c: Client, late: bool, aborted: bool, refused: bool)
    requires Inv(c)
    ensures Inv(Initialized(c, late, aborted, refused))
  {
    assert Typed(c);
    if c.job.Initializing? && c.exchanges[c.job.id].outcome.Some? {
      InitClosed(c);
      hide Inv, Stop, Post, JobOk;
      if c.exchanges[c.job.id].outcome != Some(Result) {
        StopEndedInv(c, c.exchanges[c.job.id].session);
      } else {
        hide Initialized;
        StartedInv(c, late, aborted, refused);
      }
    }
  }

  /** The session's start-up or job failed: it is stopped, and the job ends. */
  lemma StopEndedInv(c: Client, s: nat)
    requires Inv(c) && s < |c.sessions|
    requires OthersClosed(c, None)
    requires c.job.Failing? || (c.job.Initializing? && c.exchanges[c.job.id].outcome != Some(Result))
    ensures Inv(Ended(Stop(c, s), c.created))
  {
    assert JobOk(c) && Typed(c);
    assert c.created ==> c.sequence > 0;
    assert forall x <- c.exchanges :: c.exchanges[x].phase == Closed;
    hide *;
    StopInv(c, s);
    StopCloses(c, s);
    EndedInv(Stop(c, s), c.created);
  }

  lemma StopCloses(c: Client, s: nat)
    requires Typed(c) && s < |c.sessions|
    ensures forall x <- Stop(c, s).exchanges :: x in c.exchanges
              && (c.exchanges[x].phase == Closed ==> Stop(c, s).exchanges[x] == c.exchanges[x])
              && (c.exchanges[x].phase != Running ==> Stop(c, s).exchanges[x].phase != Running)
    ensures Stop(c, s).job == c.job && Stop(c, s).created == c.created && Stop(c, s).sequence == c.sequence
  {
  }

  lemma ConcludedInv(c: Client)
    requires Inv(c)
    ensures Inv(Concluded(c))
  {
    match c.job
    case Exchanging(x) =>
      if c.exchanges[x].outcome.Some? {
        forall y | y in c.exchanges ensures c.exchanges[y].phase != Running {
          ExchangeAt(c, y);
        }
        hide Inv;
        EndedInv(c, c.created);
      }
    case Failing(s) =>
      NoneRunning(c);
      if s.Some? {
        StopEndedInv(c, s.value);
      } else {
        hide Inv;
        EndedInv(c, c.created);
      }
    case _ =>
  }

  /** Only x changes, and only if it runs: it runs no more. */
  lemma InterruptEffect(c: Client, x: nat, timedOut: bool, y: nat)
    requires Typed(c) && x in c.exchanges && y in c.exchanges
    ensures
      var c' := Interrupt(c, x, timedOut);
      && y in c'.exchanges
      && if x == y && c.exchanges[x].phase == Running
         then c'.exchanges[y].phase != Running && c'.exchanges[y].outcome == Some(Interrupted)
         else c'.exchanges[y] == c.exchanges[y]
  {
    hide Typed, Token, Dead, Detached, Without;
  }

  lemma InterruptCloses(c: Client, x: nat)
    requires Inv(c)
    requires c.cancel == Some(OfExchange(x))
    ensures forall y <- Interrupt(c, x, false).exchanges :: Interrupt(c, x, false).exchanges[y].phase != Running
    ensures Interrupt(c, x, false).job == c.job && Interrupt(c, x, false).created == c.created
  {
    ExchangeAt(c, x);
    hide Inv, Interrupt, Token, Typed;
    forall y | y in c.exchanges ensures Interrupt(c, x, false).exchanges[y].phase != Running {
      ExchangeAt(c, y);
      InterruptEffect(c, x, false, y);
    }
  }

  lemma CancelledInv(c: Client)
    requires Inv(c)
    ensures Inv(Cancelled(c))
    ensures forall y <- Cancelled(c).exchanges :: Cancelled(c).exchanges[y].phase != Running
    ensures Cancelled(c).created == c.created
    ensures Cancelled(c).job.Initializing? ==> Cancelled(c).job == c.job
  {
    match c.cancel
    case Some(OfExchange(x)) =>
      InterruptCloses(c, x);
      hide Inv, Interrupt;
      InterruptInv(c, x, false);
    case Some(OfWait) =>
      NotRunning(c);
      hide Inv;
      FinishInv(c, false);
    case None => NotRunning(c);
  }

  lemma NotRunning(c: Client)
    requires Inv(c)
    requires c.cancel == None || c.cancel == Some(OfWait)
    ensures forall y <- c.exchanges :: c.exchanges[y].phase != Running
  {
    forall y | y in c.exchanges ensures c.exchanges[y].phase != Running {
      ExchangeAt(c, y);
    }
  }

  /** The job, and whether the client is disposed, concern only JobOk. */
  lemma JobOnly(c: Client, job: Job, disposed: bool)
    requires Inv(c)
    requires forall y <- c.exchanges :: c.exchanges[y].phase != Running
    requires var c' := c.(job := job, disposed := disposed); JobTyped(c, job) && JobOk(c')
    ensures Inv(c.(job := job, disposed := disposed))
  {
    var c' := c.(job := job, disposed := disposed);
    forall y | y in c'.exchanges ensures ExchangeOk(c', y, c'.exchanges[y], c'.sessions[c'.exchanges[y].session]) {
      ExchangeAt(c, y);
      hide Inv, SessionOk, JobOk, Token;
    }
    forall r | 0 <= r < |c'.sessions| ensures SessionOk(c', r, c'.sessions[r]) {
      SessionAt(c, r);
      hide Inv, ExchangeOk, JobOk, Token;
    }
    hide ExchangeOk, SessionOk, JobOk;
  }

  /** With nothing running, stopping the attached session disposes of the client. */
  lemma StopForGood(c: Client)
    requires Inv(c) && c.created
    requires forall y <- c.exchanges :: c.exchanges[y].phase != Running
    ensures Inv((if c.session.Some? then Stop(c, c.session.value) else c).(disposed := true))
  {
    if c.session.None? {
      assert JobOk(c.(disposed := true));
      hide Inv;
      JobOnly(c, c.job, true);
    } else if c.job.Initializing? && c.exchanges[c.job.id].outcome == Some(Result) {
      InitClosed(c);
      assert JobOk(c.(job := Failing(None)));
      hide Inv, Stop;
      JobOnly(c, Failing(None), c.disposed);
      StopJob(c, Failing(None));
    } else {
      assert JobOk(c);
      hide Inv, Stop;
      StopJob(c, c.job);
    }
  }

  /** `job` is what the client awaits, or a stand-in while the start-up's result is pending. */
  lemma StopJob(c: Client, job: Job)
    requires Typed(c) && JobTyped(c, job)
    requires Inv(c.(job := job)) && c.created && c.session.Some? && JobOk(c)
    requires forall y <- c.exchanges :: c.exchanges[y].phase != Running
    requires job == c.job || (job == Failing(None) && OthersClosed(c, None) && c.job.Initializing?)
    requires job.Initializing? ==> c.exchanges[job.id].outcome != Some(Result)
    ensures Inv(Stop(c, c.session.value).(disposed := true))
  {
    var s, c1 := c.session.value, c.(job := job);
    StopCloses(c, s);
    StopsAs(c, s, job);
    StopInv(c1, s);
    StopCloses(c1, s);
    assert JobOk(Stop(c1, s));
    StoppedJob(c, s, job);
    hide Inv, Stop, JobOk, Typed;
    JobOnly(Stop(c1, s), c.job, true);
  }

  lemma StopsAs(c: Client, s: nat, job: Job)
    requires Typed(c) && s < |c.sessions| && JobTyped(c, job)
    ensures Typed(c.(job := job)) && Stop(c.(job := job), s).(job := c.job) == Stop(c, s)
  {
    assert Names(c, c.sessions[s].settle);
    RetypedJob(c, job);
    DetachedAs(c, s, job);
    DeadSettles(c.sessions[s]);
    hide Typed, Terminate, Dead, Detached, JobTyped, SameShape, PutSession, Names;
    PutsSessionAs(c, s, Dead(c.sessions[s]), Detached(c, s), job);
    if c.sessions[s].settle.Some? {
      TerminatesAs(c, c.sessions[s].settle.value, job);
    }
  }

  lemma DeadSettles(t: Session)
    ensures Dead(t).settle.None?
  {
  }

  lemma PutsSessionAs(c: Client, s: nat, t: Session, session: Option<nat>, job: Job)
    requires Typed(c) && Typed(c.(job := job)) && s < |c.sessions| && t.settle.None?
    requires session == c.session || session.None?
    ensures PutSession(c.(job := job), s, t, session).(job := c.job) == PutSession(c, s, t, session)
  {
    hide Typed;
  }

  lemma TerminatesAs(c: Client, x: nat, job: Job)
    requires Typed(c) && x in c.exchanges && JobTyped(c, job)
    ensures Typed(c.(job := job)) && Terminate(c.(job := job), x, WorkerFailed).(job := c.job) == Terminate(c, x, WorkerFailed)
  {
    RetypedJob(c, job);
    hide Typed, Ends, Dead, Detached, Without, Fits, Put, JobTyped;
    var e := c.exchanges[x];
    if e.phase != Closed {
      DetachedAs(c, e.session, job);
      EndsFits(c, x);
      PutsAs(c, x, Ends(e, WorkerFailed), Dead(c.sessions[e.session]), Detached(c, e.session), Without(c.cancel, OfExchange(x)), job);
    }
  }

  lemma RetypedJob(c: Client, job: Job)
    requires Typed(c) && JobTyped(c, job)
    ensures Typed(c.(job := job))
  {
  }

  lemma DetachedAs(c: Client, s: nat, job: Job)
    ensures Detached(c.(job := job), s) == Detached(c, s)
  {
  }

  lemma EndsFits(c: Client, x: nat)
    requires Typed(c) && x in c.exchanges
    ensures var e := c.exchanges[x];
            Fits(c, x, Ends(e, WorkerFailed), Dead(c.sessions[e.session]), Detached(c, e.session), Without(c.cancel, OfExchange(x)))
  {
    hide Typed;
  }

  lemma PutsAs(c: Client, x: nat, e: Exchange, t: Session, session: Option<nat>, cancel: Option<Cancel>, job: Job)
    requires Typed(c) && Typed(c.(job := job)) && Fits(c, x, e, t, session, cancel)
    ensures Fits(c.(job := job), x, e, t, session, cancel)
    ensures Put(c.(job := job), x, e, t, session, cancel).(job := c.job) == Put(c, x, e, t, session, cancel)
  {
    hide Typed;
  }

  lemma StoppedJob(c: Client, s: nat, job: Job)
    requires Typed(c) && c.session == Some(s) && JobOk(c) && c.created && JobTyped(c, job)
    requires job == c.job || (job == Failing(None) && OthersClosed(c, None) && c.job.Initializing?)
    requires Typed(c.(job := job)) && JobOk(Stop(c.(job := job), s))
    requires forall x <- Stop(c, s).exchanges :: x in c.exchanges
               && (c.exchanges[x].phase == Closed ==> Stop(c, s).exchanges[x] == c.exchanges[x])
    requires Stop(c.(job := job), s).(job := c.job) == Stop(c, s)
    ensures JobTyped(Stop(c.(job := job), s), c.job)
    ensures JobOk(Stop(c.(job := job), s).(job := c.job, disposed := true))
  {
  }

  lemma DisposedInv(c: Client)
    requires Inv(c)
    ensures Inv(Disposed(c))
  {
    assert Typed(c);
    hide Inv, Stop, Cancelled;
    if c.created {
      CancelledInv(c);
      StopForGood(Cancelled(c));
    }
  }

  // ------------------------------------------------------------- every run

  lemma UnwoundInv(c: Client)
    requires Inv(c)
    requires c.job.Waiting? && c.job.on.Some? && c.exchanges[c.job.on.value].unwound.Resolved?
    ensures Inv(Finish(c, true))
  {
    ExchangeAt(c, c.job.on.value);
    NotRunningWaiting(c);
    hide Inv, Token;
    FinishInv(c, true);
  }

  lemma NotRunningWaiting(c: Client)
    requires Inv(c) && c.job.Waiting?
    ensures forall y <- c.exchanges :: c.exchanges[y].phase != Running
  {
    NoneRunning(c);
  }

  lemma StepInv(c: Client, e: Event)
    requires Inv(c)
    ensures Inv(Step(c, e))
  {
    match e
    case EvCreate(aborted, refused) => CreateInv(c, aborted, refused);
    case EvBegin => BeginInv(c);
    case EvUnwound =>
      if c.job.Waiting? && c.job.on.Some? && c.exchanges[c.job.on.value].unwound.Resolved? {
        UnwoundInv(c);
      }
    case EvGiveUp => FinishInv(c, false);
    case EvResume(late, aborted, refused) => ResumedInv(c, late, aborted, refused);
    case EvInitialized(late, aborted, refused) => InitializedInv(c, late, aborted, refused);
    case EvConclude => ConcludedInv(c);
    case EvTimeout(x) => if x in c.exchanges { InterruptInv(c, x, true); }
    case EvAbort(x) => if x in c.exchanges { InterruptInv(c, x, false); }
    case EvError(x) => if x in c.exchanges { TerminateInv(c, x, WorkerFailed); }
    case EvGrace(x) => if x in c.exchanges { TerminateInv(c, x, WorkerFailed); }
    case EvTake(s) => TakeInv(c, s);
    case EvAnswer(s, ok) => AnswerInv(c, s, ok);
    case EvDeliver(s) => DeliverInv(c, s);
    case EvDispose => DisposedInv(c);
  }

  lemma CreateInv(c: Client, aborted: bool, refused: bool)
    requires Inv(c)
    ensures Inv(Step(c, EvCreate(aborted, refused)))
  {
    if c.sequence == 0 && c.sessions == [] && c.job.NoJob? {
      forall y | y in c.exchanges ensures false {
        ExchangeAt(c, y);
      }
      assert c.created ==> !c.busy;
      hide Inv, Initialize;
      if !c.created && !c.disposed {
        InitializeInv(c, aborted, refused);
      }
    }
  }

  lemma {:induction false} RunInv(c: Client, events: seq<Event>)
    requires Inv(c)
    ensures Inv(Run(c, events))
    decreases |events|
  {
    assert Typed(c);
    hide Inv, Step;
    if events != [] {
      StepInv(c, events[0]);
      RunInv(Step(c, events[0]), events[1..]);
    }
  }
}
