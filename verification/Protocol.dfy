/**
 * The worker cancellation protocol: a client, its workers, their message
 * queues and the shared cell, as a state machine over the events that may
 * interleave in any order. `WorkerClient` runs the client's steps in place.
 */
module Protocol {
  import opened Prelude

  // ----------------------------------------------------------------- state

  datatype Phase = Running | Stopping | Closed

  /** How the promise of an exchange ended. */
  datatype Outcome = Result | ReplyError | Interrupted | WorkerFailed

  /** The promise that a following job waits for. */
  datatype Promise = NoPromise | Pending | Resolved

  /** `settlements` counts the calls of resolve and reject. */
  datatype Exchange = Exchange(
    session: nat,
    init: bool,
    phase: Phase,
    grace: bool,
    unwound: Promise,
    settlements: nat,
    outcome: Option<Outcome>)

  datatype Reply = Reply(id: nat, ok: bool)

  /**
   * A worker: its queue, the message it serves, its replies under way,
   * whether it has an engine, and the last id posted to it.
   */
  datatype Worker = Worker(inbox: seq<nat>, working: Option<nat>, outbox: seq<Reply>, engine: bool, last: nat)

  /** `settle` is the exchange whose settling promise the session holds. */
  datatype Session = Session(terminated: bool, ready: bool, cell: Option<int>, settle: Option<nat>, worker: Worker)

  datatype Cancel = OfExchange(id: nat) | OfWait

  /** Where the one pending runJob, or the factory, awaits. */
  datatype Job =
    | NoJob
    | Waiting(on: Option<nat>, finished: Option<bool>) // in `settled`; true once it may go on
    | Initializing(id: nat)
    | Exchanging(id: nat)
    | Failing(session: Option<nat>) // rejected at once; `initialize` still has to stop its session

  datatype Client = Client(
    shared: bool,
    created: bool,
    disposed: bool,
    busy: bool,
    sequence: nat,
    session: Option<nat>,
    sessions: seq<Session>,
    exchanges: map<nat, Exchange>,
    cancel: Option<Cancel>,
    job: Job)

  // ------------------------------------------------------------------- ids

  const TWO32: int := 0x1_0000_0000

  /** The Int32 that `id | 0` is, and that Atomics.store keeps of an id. */
  function Token(id: nat): int {
    var r := id % TWO32;
    if r >= 0x8000_0000 then r - TWO32 else r
  }

  function NextId(sequence: nat): (id: nat)
    ensures id > sequence && Token(id) != 0
    ensures forall k | sequence < k < id :: Token(k) == 0
  {
    if Token(sequence + 1) == 0 then sequence + 2 else sequence + 1
  }

  // ---------------------------------------------------------- well-formedness

  predicate Names(c: Client, x: Option<nat>) {
    x.Some? ==> x.value in c.exchanges
  }

  predicate JobTyped(c: Client, job: Job) {
    match job
    case Initializing(x) => x in c.exchanges
    case Exchanging(x) => x in c.exchanges
    case Waiting(on, _) => Names(c, on)
    case Failing(s) => s.Some? ==> s.value < |c.sessions|
    case NoJob => true
  }

  /** Every exchange belongs to a session, and every reference is in range. */
  predicate Typed(c: Client) {
    && (c.session.Some? ==> c.session.value < |c.sessions|)
    && (forall x <- c.exchanges :: c.exchanges[x].session < |c.sessions|)
    && (forall s | 0 <= s < |c.sessions| :: Names(c, c.sessions[s].settle))
    && (c.cancel.Some? && c.cancel.value.OfExchange? ==> c.cancel.value.id in c.exchanges)
    && JobTyped(c, c.job)
  }

  // --------------------------------------------------- what one step changes

  /** No exchange or session came or went. */
  predicate SameShape(c: Client, r: Client) {
    && r.exchanges.Keys == c.exchanges.Keys
    && |r.sessions| == |c.sessions|
    && r.job == c.job && r.disposed == c.disposed && r.created == c.created
    && (r.cancel == c.cancel || r.cancel.None?)
  }

  predicate Fits(c: Client, x: nat, e: Exchange, t: Session, session: Option<nat>, cancel: Option<Cancel>)
    requires Typed(c)
  {
    && x in c.exchanges
    && c.exchanges[x].session == e.session
    && (t.settle == None || t.settle == Some(x))
    && (session == c.session || session.None?)
    && (cancel == c.cancel || cancel.None?)
  }

  /** Exchange x and its session changed, and with them what is attached. */
  function Put(c: Client, x: nat, e: Exchange, t: Session, session: Option<nat>, cancel: Option<Cancel>): (r: Client)
    requires Typed(c) && Fits(c, x, e, t, session, cancel)
    ensures Typed(r)
    ensures SameShape(c, r) && r.session == session
  {
    var r := c.(exchanges := c.exchanges[x := e], sessions := c.sessions[e.session := t], session := session, cancel := cancel);
    assert r.exchanges.Keys == c.exchanges.Keys;
    r
  }

  function PutSession(c: Client, s: nat, t: Session, session: Option<nat>): (r: Client)
    requires Typed(c) && s < |c.sessions| && Names(c, t.settle)
    requires session == c.session || session.None?
    ensures Typed(r)
  {
    c.(sessions := c.sessions[s := t], session := session)
  }

  function Without(cancel: Option<Cancel>, k: Cancel): Option<Cancel> {
    if cancel == Some(k) then None else cancel
  }

  /** An exchange that ends: its caller's promise settles unless it has. */
  function Ends(e: Exchange, o: Outcome): Exchange {
    var e' := e.(phase := Closed, grace := false, unwound := if e.unwound.Pending? then Resolved else e.unwound);
    if e.phase == Running then e'.(settlements := e.settlements + 1, outcome := Some(o)) else e'
  }

  function Dead(t: Session): Session {
    t.(terminated := true, ready := false, settle := None)
  }

  function Detached(c: Client, s: nat): Option<nat> {
    if c.session == Some(s) then None else c.session
  }

  // ------------------------------------------------------- the client's steps

  /** `terminate`: the exchange ends and its worker is stopped. */
  function Terminate(c: Client, x: nat, o: Outcome): (r: Client)
    requires Typed(c) && x in c.exchanges
    ensures Typed(r)
    ensures SameShape(c, r)
  {
    var e := c.exchanges[x];
    if e.phase == Closed then c
    else Put(c, x, Ends(e, o), Dead(c.sessions[e.session]), Detached(c, e.session), Without(c.cancel, OfExchange(x)))
  }

  /** `stop` of a session: a cancelled job that waits to unwind is let go. */
  function Stop(c: Client, s: nat): (r: Client)
    requires Typed(c) && s < |c.sessions|
    ensures Typed(r)
    ensures SameShape(c, r)
    ensures r.session == Detached(c, s)
  {
    var t := c.sessions[s];
    if t.settle.Some? && c.exchanges[t.settle.value].phase == Stopping && c.exchanges[t.settle.value].session == s then
      Terminate(c, t.settle.value, WorkerFailed)
    else PutSession(c, s, Dead(t), Detached(c, s))
  }

  /** `interrupt`: the caller's promise rejects, and the guest is told. */
  function Interrupt(c: Client, x: nat, timedOut: bool): (r: Client)
    requires Typed(c) && x in c.exchanges
    ensures Typed(r)
    ensures SameShape(c, r)
  {
    var e := c.exchanges[x];
    var t := c.sessions[e.session];
    if e.phase != Running then c
    else if e.init || (t.cell.None? && !timedOut) then Terminate(c, x, Interrupted)
    else
      var e' := e.(phase := Stopping, grace := true, unwound := Pending, settlements := e.settlements + 1,
                   outcome := Some(Interrupted));
      var t' := t.(settle := Some(x), cell := if t.cell.Some? then Some(Token(x)) else None);
      Put(c, x, e', t', c.session, Without(c.cancel, OfExchange(x)))
  }

  /** A reply for exchange x; the report of a cancelled job frees its worker. */
  function Receive(c: Client, x: nat, ok: bool): (r: Client)
    requires Typed(c) && x in c.exchanges
    ensures Typed(r)
    ensures SameShape(c, r)
  {
    var e := c.exchanges[x];
    if e.phase == Closed then c
    else
      var t := c.sessions[e.session].(settle := None);
      var cell := if e.phase == Stopping && t.cell.Some? then Some(0) else t.cell;
      Put(c, x, Ends(e, if ok then Result else ReplyError), t.(cell := cell), c.session, Without(c.cancel, OfExchange(x)))
  }

  function Open(c: Client): (r: Client)
    requires Typed(c)
    ensures Typed(r)
    ensures r.session.Some? && r.exchanges == c.exchanges && r.job == c.job
  {
    if c.session.Some? then c
    else
      var cell := if c.shared then Some(0) else None;
      c.(session := Some(|c.sessions|),
         sessions := c.sessions + [Session(false, false, cell, None, Worker([], None, [], false, 0))])
  }

  /** A fresh exchange on the attached session, whose message is in the queue. */
  function Posted(c: Client, x: nat, init: bool): (r: Client)
    requires Typed(c) && c.session.Some?
    ensures Typed(r) && x in r.exchanges
  {
    var s := c.session.value;
    var w := c.sessions[s].worker;
    c.(sequence := x,
       exchanges := c.exchanges[x := Exchange(s, init, Running, false, NoPromise, 0, None)],
       cancel := Some(OfExchange(x)),
       sessions := c.sessions[s := c.sessions[s].(worker := w.(inbox := w.inbox + [x], last := x))])
  }

  /** postMessage throws: the exchange ends before its message got anywhere. */
  function Refused(c: Client, x: nat, init: bool): (r: Client)
    requires Typed(c) && c.session.Some?
    ensures Typed(r) && x in r.exchanges
  {
    var s := c.session.value;
    c.(sequence := x,
       exchanges := c.exchanges[x := Exchange(s, init, Closed, false, NoPromise, 1, Some(WorkerFailed))],
       cancel := None,
       session := None,
       sessions := c.sessions[s := Dead(c.sessions[s])])
  }

  // ------------------------------------------------------------- the jobs

  function WithJob(c: Client, job: Job): (r: Client)
    requires Typed(c) && JobTyped(c, job)
    ensures Typed(r)
  {
    c.(job := job)
  }

  /** `exchange`, awaited as the start-up or as the job. */
  function Begun(c: Client, init: bool, aborted: bool, refused: bool, otherwise: Job): (r: Client)
    requires Typed(c) && JobTyped(c, otherwise)
    ensures Typed(r)
  {
    if c.disposed || aborted then WithJob(c, otherwise)
    else
      var c1, x := Open(c), NextId(c.sequence);
      WithJob(if refused then Refused(c1, x, init) else Posted(c1, x, init),
              if init then Initializing(x) else Exchanging(x))
  }

  /** runJob from `remaining` on. */
  function Post(c: Client, late: bool, aborted: bool, refused: bool): (r: Client)
    requires Typed(c)
    ensures Typed(r)
  {
    if late then WithJob(c, Failing(None)) else Begun(c, false, aborted, refused, Failing(None))
  }

  function Initialize(c: Client, aborted: bool, refused: bool): (r: Client)
    requires Typed(c)
    ensures Typed(r)
  {
    var c1 := Open(c);
    Begun(c1, true, aborted, refused, Failing(c1.session))
  }

  /** The end of a job, or of the factory, whose promise settles now. */
  function Ended(c: Client, created: bool): (r: Client)
    requires Typed(c)
    ensures Typed(r)
  {
    c.(job := NoJob, busy := false, created := created)
  }

  /** A call of compile or generate, up to its first await. */
  function Begin(c: Client): (r: Client)
    requires Typed(c)
    ensures Typed(r)
  {
    if !c.created || c.disposed || c.busy then c
    else
      var on := if c.session.Some? then c.sessions[c.session.value].settle else None;
      c.(busy := true,
         cancel := if on.Some? then Some(OfWait) else c.cancel,
         job := Waiting(on, if on.Some? then None else Some(true)))
  }

  /** `finish` of the wait for a cancelled job; `ok` says that it reported. */
  function Finish(c: Client, ok: bool): (r: Client)
    requires Typed(c)
    ensures Typed(r)
  {
    if c.job.Waiting? && c.job.finished.None?
    then c.(job := Waiting(c.job.on, Some(ok)), cancel := Without(c.cancel, OfWait))
    else c
  }

  /** runJob goes on after `settled`. */
  function Resumed(c: Client, late: bool, aborted: bool, refused: bool): (r: Client)
    requires Typed(c)
    ensures Typed(r)
  {
    if !c.job.Waiting? || c.job.finished.None? then c
    else if !c.job.finished.value || c.disposed then Ended(c, true)
    else if c.session.None? || !c.sessions[c.session.value].ready then Initialize(c, aborted, refused)
    else Post(c, late, aborted, refused)
  }

  /** `initialize` goes on after its exchange; the factory ends there. */
  function Initialized(c: Client, late: bool, aborted: bool, refused: bool): (r: Client)
    requires Typed(c)
    ensures Typed(r)
  {
    if !c.job.Initializing? || c.exchanges[c.job.id].outcome.None? then c
    else
      var e := c.exchanges[c.job.id];
      if e.outcome != Some(Result) then Ended(Stop(c, e.session), c.created)
      else
        var c' := PutSession(c, e.session, c.sessions[e.session].(ready := true), c.session);
        if !c.created then Ended(c', true) else Post(c', late, aborted, refused)
  }

  /** runJob ends, with its exchange or with a rejection. */
  function Concluded(c: Client): (r: Client)
    requires Typed(c)
    ensures Typed(r)
  {
    match c.job
    case Exchanging(x) => if c.exchanges[x].outcome.Some? then Ended(c, c.created) else c
    case Failing(s) => Ended(if s.Some? then Stop(c, s.value) else c, c.created)
    case _ => c
  }

  /** `cancel?.(disposedError())` */
  function Cancelled(c: Client): (r: Client)
    requires Typed(c)
    ensures Typed(r)
  {
    match c.cancel
    case Some(OfExchange(x)) => Interrupt(c, x, false)
    case Some(OfWait) => Finish(c, false)
    case None => c
  }

  function Disposed(c: Client): (r: Client)
    requires Typed(c)
    ensures Typed(r)
  {
    if !c.created then c
    else
      var c' := Cancelled(c);
      (if c'.session.Some? then Stop(c', c'.session.value) else c').(disposed := true)
  }

  // ----------------------------------------------------------- the workers

  function WithWorker(c: Client, s: nat, w: Worker): (r: Client)
    requires Typed(c) && s < |c.sessions|
    ensures Typed(r)
  {
    PutSession(c, s, c.sessions[s].(worker := w), c.session)
  }

  /** The worker takes the next message. */
  function Take(c: Client, s: nat): (r: Client)
    requires Typed(c)
    ensures Typed(r)
  {
    if s >= |c.sessions| || c.sessions[s].worker.working.Some? || c.sessions[s].worker.inbox == [] then c
    else
      var w := c.sessions[s].worker;
      WithWorker(c, s, w.(inbox := w.inbox[1..], working := Some(w.inbox[0])))
  }

  /** Whether the guest of the worker's job finds its token in the cell. */
  predicate Hit(t: Session) {
    t.worker.working.Some? && t.cell == Some(Token(t.worker.working.value))
  }

  /** The worker replies; a job without an engine only gets an error. */
  function Answer(c: Client, s: nat, ok: bool): (r: Client)
    requires Typed(c)
    ensures Typed(r)
  {
    if s >= |c.sessions| || c.sessions[s].worker.working.None? || c.sessions[s].worker.working.value !in c.exchanges then c
    else
      var w := c.sessions[s].worker;
      var x, init := w.working.value, c.exchanges[w.working.value].init;
      var done := ok && (init || w.engine);
      WithWorker(c, s, w.(working := None, outbox := w.outbox + [Reply(x, done)], engine := w.engine || (init && done)))
  }

  /** A reply reaches the client: every listener of the worker sees it. */
  function Deliver(c: Client, s: nat): (r: Client)
    requires Typed(c)
    ensures Typed(r)
  {
    if s >= |c.sessions| || c.sessions[s].worker.outbox == [] then c
    else
      var w := c.sessions[s].worker;
      var reply := w.outbox[0];
      var c' := WithWorker(c, s, w.(outbox := w.outbox[1..]));
      if reply.id in c.exchanges && c.exchanges[reply.id].session == s then Receive(c', reply.id, reply.ok) else c'
  }

  // ---------------------------------------------------------------- events

  /**
   * Anything that can happen next. Timers, abort events and error events may
   * fire for any exchange at any time, even after they were removed.
   */
  datatype Event =
    | EvCreate(aborted: bool, refused: bool)
    | EvBegin
    | EvUnwound // the cancelled job's promise resolved
    | EvGiveUp // the waiting job times out or is aborted
    | EvResume(late: bool, aborted: bool, refused: bool)
    | EvInitialized(late: bool, aborted: bool, refused: bool)
    | EvConclude
    | EvTimeout(x: nat)
    | EvAbort(x: nat)
    | EvError(x: nat)
    | EvGrace(x: nat)
    | EvTake(s: nat)
    | EvAnswer(s: nat, ok: bool)
    | EvDeliver(s: nat)
    | EvDispose

  function Step(c: Client, e: Event): (r: Client)
    requires Typed(c)
    ensures Typed(r)
  {
    match e
    case EvCreate(aborted, refused) =>
      if c.sequence == 0 && c.sessions == [] && c.job.NoJob? then Initialize(c, aborted, refused) else c
    case EvBegin => Begin(c)
    case EvUnwound =>
      if c.job.Waiting? && c.job.on.Some? && c.exchanges[c.job.on.value].unwound.Resolved? then Finish(c, true) else c
    case EvGiveUp => Finish(c, false)
    case EvResume(late, aborted, refused) => Resumed(c, late, aborted, refused)
    case EvInitialized(late, aborted, refused) => Initialized(c, late, aborted, refused)
    case EvConclude => Concluded(c)
    case EvTimeout(x) => if x in c.exchanges then Interrupt(c, x, true) else c
    case EvAbort(x) => if x in c.exchanges then Interrupt(c, x, false) else c
    case EvError(x) => if x in c.exchanges then Terminate(c, x, WorkerFailed) else c
    case EvGrace(x) =>
      if x in c.exchanges && c.exchanges[x].phase == Stopping then Terminate(c, x, WorkerFailed) else c
    case EvTake(s) => Take(c, s)
    case EvAnswer(s, ok) => Answer(c, s, ok)
    case EvDeliver(s) => Deliver(c, s)
    case EvDispose => Disposed(c)
  }

  function Initial(shared: bool): (c: Client)
    ensures Typed(c)
  {
    Client(shared, false, false, false, 0, None, [], map[], None, NoJob)
  }

  function Run(c: Client, events: seq<Event>): (r: Client)
    requires Typed(c)
    ensures Typed(r)
    decreases |events|
  {
    if events == [] then c else Run(Step(c, events[0]), events[1..])
  }

  // -------------------------------------------------------------- invariant

  /** How many of the worker's messages are not reported yet. */
  function Unreported(w: Worker): nat {
    |w.inbox| + (if w.working.Some? then 1 else 0) + |w.outbox|
  }

  /** They all are the last message posted. */
  predicate OnlyLast(w: Worker) {
    && Unreported(w) <= 1
    && (|w.inbox| > 0 ==> w.inbox[0] == w.last)
    && (w.working.Some? ==> w.working.value == w.last)
    && (|w.outbox| > 0 ==> w.outbox[0].id == w.last)
  }

  /** What an exchange promises about itself and its session. */
  predicate ExchangeOk(c: Client, x: nat, e: Exchange, t: Session) {
    && 0 < x <= c.sequence && Token(x) != 0
    && (e.phase == Running <==> e.outcome.None?)
    && e.settlements == (if e.phase == Running then 0 else 1)
    && (e.phase == Running <==> c.cancel == Some(OfExchange(x)))
    && (e.phase == Stopping <==> t.settle == Some(x))
    && (e.phase == Stopping <==> e.unwound.Pending?)
    && (e.phase == Stopping <==> e.grace)
    && (e.phase == Stopping ==> !e.init && e.outcome == Some(Interrupted))
    && (e.phase == Running ==> e.unwound.NoPromise? && c.job == if e.init then Initializing(x) else Exchanging(x))
    && (e.phase != Closed ==> c.session == Some(e.session) && t.worker.last == x)
    && (e.init && e.outcome == Some(Result) ==> t.worker.engine)
  }

  /** What the cell and the worker say about the last message, exchange e. */
  predicate LastOk(t: Session, e: Exchange) {
    var w := t.worker;
    && (!t.terminated ==> (Unreported(w) == 1 <==> e.phase != Closed))
    && (t.cell.Some? && t.cell.value != 0 ==>
          t.cell.value == Token(w.last) && e.outcome == Some(Interrupted) && (!t.terminated ==> e.phase == Stopping))
    && (t.cell.Some? && e.phase == Stopping ==> t.cell.value == Token(w.last))
    && (!e.init && Unreported(w) > 0 ==> w.engine)
    && (e.init && |w.outbox| > 0 && w.outbox[0].ok ==> w.engine)
  }

  predicate Unused(t: Session) {
    Unreported(t.worker) == 0 && (t.cell.Some? ==> t.cell.value == 0) && !t.worker.engine
  }

  predicate SessionOk(c: Client, s: nat, t: Session) {
    && (!t.terminated <==> c.session == Some(s))
    && (t.cell.Some? <==> c.shared)
    && (t.settle.Some? ==> 0 < t.settle.value == t.worker.last && t.settle.value in c.exchanges
                           && c.exchanges[t.settle.value].phase == Stopping)
    && (t.ready ==> t.worker.engine)
    && OnlyLast(t.worker)
    && if t.worker.last == 0 then Unused(t)
       else
         && t.worker.last in c.exchanges
         && c.exchanges[t.worker.last].session == s
         && LastOk(t, c.exchanges[t.worker.last])
  }

  /** Every exchange but x is closed. */
  predicate OthersClosed(c: Client, x: Option<nat>) {
    forall y <- c.exchanges :: c.exchanges[y].phase != Closed ==> x == Some(y)
  }

  predicate JobOk(c: Client) {
    && (c.disposed ==> c.session.None? && c.created)
    && (c.created ==> c.sequence > 0)
    && (c.busy ==> !c.job.NoJob?)
    && (c.created ==> (c.busy <==> !c.job.NoJob?))
    && (c.cancel == Some(OfWait) <==> c.job.Waiting? && c.job.finished.None?)
    && JobTyped(c, c.job)
    && match c.job
       case NoJob => true
       case Waiting(on, finished) =>
         && c.created
         && OthersClosed(c, on)
         && (on.None? ==> finished == Some(true))
         && (on.Some? ==> !c.exchanges[on.value].unwound.NoPromise?)
         && (finished == Some(true) && on.Some? ==> c.exchanges[on.value].phase == Closed)
       case Initializing(x) =>
         && c.exchanges[x].init
         && OthersClosed(c, Some(x))
         && (c.exchanges[x].outcome == Some(Result) ==> c.disposed || c.session == Some(c.exchanges[x].session))
       case Exchanging(x) => !c.exchanges[x].init && OthersClosed(c, Some(x)) && c.created
       case Failing(s) => OthersClosed(c, None)
  }

  ghost predicate Inv(c: Client) {
    && Typed(c)
    && (forall x <- c.exchanges :: ExchangeOk(c, x, c.exchanges[x], c.sessions[c.exchanges[x].session]))
    && (forall s | 0 <= s < |c.sessions| :: SessionOk(c, s, c.sessions[s]))
    && JobOk(c)
  }
}
