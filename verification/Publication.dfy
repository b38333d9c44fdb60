/** Delivery of notifications by many workers at once: claims, publications that stop at their deadline,
    finalizations and retries, interleaved in any order with the passing of time. */
module Publication {
  import opened Wrappers
  import opened Domain
  import opened Outbox

  /** A publication runs from `from` until before `until`, in database time. */
  datatype Window = Window(from: Time, until: Time)

  /** The work of one worker on one claim, in the order of deliverNotification: it takes the claim, may publish
      once, then closes or reschedules the row and is done. */
  datatype Job = Job(notice: Notice, takenAt: Time, window: Option<Window>, done: bool)

  datatype Ticket = Ticket(id: Uuid, generation: nat)

  datatype Board = Board(clock: Time, rows: Table, jobs: map<Ticket, Job>)

  /** GiveUp is the end of a worker whose closing statement failed on the connection: its row stays leased. The
      clock of a worker may differ from the database clock by `skew`; `firstReading` is the reading that
      the publisher timeout is added to. */
  datatype Event =
    | Elapse(time: nat)
    | Enqueue(id: Uuid, row: OutboxRow)
    | Take(id: Uuid, token: Uuid, duration: int)
    | Publish(ticket: Ticket, timeout: int, firstReading: Time, skew: int)
    | Stop(ticket: Ticket)
    | Deliver(ticket: Ticket, obsolete: bool)
    | PutBack(ticket: Ticket, error: Text, base: int, limit: int)
    | GiveUp(ticket: Ticket)

  function EarlierTime(first: Time, second: Time): Time { if first < second then first else second }

  /** The deadline the worker gives its publisher, on the worker's clock. */
  function Deadline(n: Notice, timeout: int, firstReading: Time): Time {
    EarlierTime(firstReading + timeout, n.leaseUntil - timeout)
  }

  predicate IsNew(row: OutboxRow) {
    row.status.Pending? && row.generation == 0 && row.attemptCount == 0 && row.token.None? && row.leaseUntil.None?
  }

  /** A worker acts on its row after its publication has ended, and only once. */
  predicate Idle(b: Board, j: Job) { !j.done && (j.window.Some? ==> j.window.value.until <= b.clock) }

  function Step(b: Board, e: Event): Board {
    match e
    case Elapse(time) => b.(clock := b.clock + time)
    case Enqueue(id, row) => if id !in b.rows && IsNew(row) then b.(rows := b.rows[id := row]) else b
    case Take(id, token, duration) =>
      if id in b.rows && Due(b.rows[id], b.clock) && duration > 0 then
        var row := Lease(b.rows[id], token, b.clock, duration);
        b.(rows := b.rows[id := row],
           jobs := b.jobs[Ticket(id, row.generation) := Job(NoticeOf(id, row), b.clock, None, false)])
      else b
    case Publish(t, timeout, firstReading, skew) =>
      if t in b.jobs && !b.jobs[t].done && b.jobs[t].window.None? && skew >= -timeout then
        var deadline := Deadline(b.jobs[t].notice, timeout, firstReading);
        if deadline > b.clock + skew then
          b.(jobs := b.jobs[t := b.jobs[t].(window := Some(Window(b.clock, deadline - skew)))])
        else b
      else b
    case Stop(t) =>
      if t in b.jobs && b.jobs[t].window.Some? && b.clock < b.jobs[t].window.value.until then
        b.(jobs := b.jobs[t := b.jobs[t].(window := Some(Window(b.jobs[t].window.value.from, b.clock)))])
      else b
    case Deliver(t, obsolete) =>
      if t in b.jobs && Idle(b, b.jobs[t]) && (obsolete <==> b.jobs[t].window.None?) then
        b.(rows := Finalize(b.rows, b.jobs[t].notice, if obsolete then Some(MarkedObsolete) else None, b.clock),
           jobs := b.jobs[t := b.jobs[t].(done := true)])
      else b
    case PutBack(t, error, base, limit) =>
      if t in b.jobs && Idle(b, b.jobs[t]) && 0 < base <= limit then
        b.(rows := Postpone(b.rows, b.jobs[t].notice, PublicationError(Bounded(error)), base, limit, b.clock),
           jobs := b.jobs[t := b.jobs[t].(done := true)])
      else b
    case GiveUp(t) =>
      if t in b.jobs && Idle(b, b.jobs[t]) then b.(jobs := b.jobs[t := b.jobs[t].(done := true)]) else b
  }

  function Run(b: Board, events: seq<Event>): Board
    decreases |events|
  {
    if |events| == 0 then b else Run(Step(b, events[0]), events[1..])
  }

  function Start(now: Time): Board { Board(now, map[], map[]) }

  // ---------------------------------------------------------------------------------------------
  // The invariant
  // ---------------------------------------------------------------------------------------------

  predicate RowOk(row: OutboxRow) {
    && (row.status.Leased? <==> row.token.Some?) && (row.status.Leased? <==> row.leaseUntil.Some?)
    && row.attemptCount == row.generation
  }

  /** The job stays within its lease, and has either been done or its lease has run out once the row has
      gone on without it. */
  predicate JobOk(b: Board, t: Ticket)
    requires t in b.jobs
  {
    var j := b.jobs[t];
    && t.id in b.rows && j.notice.id == t.id && j.notice.generation == t.generation <= b.rows[t.id].generation
    && j.takenAt <= b.clock
    && (j.window.Some? ==>
          j.takenAt <= j.window.value.from <= j.window.value.until <= j.notice.leaseUntil
              && j.window.value.from <= b.clock)
    && (j.done && j.window.Some? ==> j.window.value.until <= b.clock)
    && (!HoldsLease(b.rows, j.notice) ==> j.done || j.notice.leaseUntil <= b.clock)
  }

  /** The lease on a row belongs to the job with its generation. */
  predicate LeaseOk(b: Board, id: Uuid)
    requires id in b.rows
  {
    var row, t := b.rows[id], Ticket(id, b.rows[id].generation);
    row.status.Leased? ==> t in b.jobs && RowOk(row) && b.jobs[t].notice == NoticeOf(id, row)
  }

  /** A row closed as sent was published under its last lease. */
  predicate SentOk(b: Board, id: Uuid)
    requires id in b.rows
  {
    var row, t := b.rows[id], Ticket(id, b.rows[id].generation);
    row.status.Sent? && row.note.None? ==> t in b.jobs && b.jobs[t].window.Some?
  }

  predicate InOrder(t: Job, u: Job) { t.window.Some? ==> t.window.value.until <= u.takenAt }

  ghost predicate RowsOk(b: Board) {
    forall id :: id in b.rows ==> RowOk(b.rows[id]) && LeaseOk(b, id) && SentOk(b, id)
  }

  ghost predicate JobsOk(b: Board) { forall t :: t in b.jobs ==> JobOk(b, t) }

  ghost predicate OrderOk(b: Board) {
    forall t, u :: t in b.jobs && u in b.jobs && t.id == u.id && t.generation < u.generation ==>
      InOrder(b.jobs[t], b.jobs[u])
  }

  ghost predicate BoardOk(b: Board) { RowsOk(b) && JobsOk(b) && OrderOk(b) }

  /** Generations only rise; a row under the same lease is untouched; a row that was given back or closed needs
      a new lease; a sent row stays as it is. */
  predicate RowEvolves(r: OutboxRow, s: OutboxRow) {
    && r.generation <= s.generation
    && (r.status.Sent? ==> s == r)
    && (s.status.Leased? && s.generation == r.generation ==> s == r)
  }

  ghost predicate BoardEvolves(a: Board, b: Board) {
    && a.clock <= b.clock
    && (forall id :: id in a.rows ==> id in b.rows && RowEvolves(a.rows[id], b.rows[id]))
    && (forall t :: t in a.jobs ==>
          t in b.jobs && b.jobs[t].notice == a.jobs[t].notice && b.jobs[t].takenAt == a.jobs[t].takenAt)
  }

  lemma TakeKeepsJob(b: Board, id: Uuid, token: Uuid, duration: int, t: Ticket)
    requires RowsOk(b) && t in b.jobs && JobOk(b, t)
    ensures var c := Step(b, Take(id, token, duration)); t in c.jobs && c.jobs[t] == b.jobs[t] && JobOk(c, t)
  {
    var j := b.jobs[t];
    if t.id == id && HoldsLease(b.rows, j.notice) {
      assert LeaseOk(b, id);
    }
  }

  lemma TakeKeepsBoard(b: Board, id: Uuid, token: Uuid, duration: int)
    requires BoardOk(b)
    ensures BoardOk(Step(b, Take(id, token, duration))) && BoardEvolves(b, Step(b, Take(id, token, duration)))
  {
    var c := Step(b, Take(id, token, duration));
    forall t | t in b.jobs ensures t in c.jobs && c.jobs[t] == b.jobs[t] && JobOk(c, t) {
      TakeKeepsJob(b, id, token, duration, t);
    }
    TakeKeepsRows(b, id, token, duration);
    TakeKeepsOrder(b, id, token, duration);
    hide RowsOk, OrderOk;
    assert forall t :: t in c.jobs && t !in b.jobs ==> JobOk(c, t);
  }

  lemma TakeKeepsRows(b: Board, id: Uuid, token: Uuid, duration: int)
    requires RowsOk(b) && JobsOk(b)
    ensures RowsOk(Step(b, Take(id, token, duration)))
    ensures forall x :: x in b.rows ==>
              x in Step(b, Take(id, token, duration)).rows
                  && RowEvolves(b.rows[x], Step(b, Take(id, token, duration)).rows[x])
  {
    hide JobOk;
    var c := Step(b, Take(id, token, duration));
    forall x | x in c.rows ensures RowOk(c.rows[x]) && LeaseOk(c, x) && SentOk(c, x) {
      assert RowOk(b.rows[x]) && LeaseOk(b, x) && SentOk(b, x);
    }
  }

  lemma TakeKeepsOrder(b: Board, id: Uuid, token: Uuid, duration: int)
    requires BoardOk(b)
    ensures OrderOk(Step(b, Take(id, token, duration)))
  {
    var c := Step(b, Take(id, token, duration));
    forall t, u | t in c.jobs && u in c.jobs && t.id == u.id && t.generation < u.generation
      ensures InOrder(c.jobs[t], c.jobs[u])
    {
      if t in b.jobs {
        TakeKeepsJob(b, id, token, duration, t);
      }
      if u in b.jobs {
        assert JobOk(b, u);
      }
    }
  }

  /** A step that changes one job and, if it changes a row at all, the row that this job leases. */
  predicate JobMoves(b: Board, t: Ticket, c: Board) {
    && t in b.jobs && t in c.jobs && c == b.(rows := c.rows, jobs := b.jobs[t := c.jobs[t]])
    && c.jobs[t].notice == b.jobs[t].notice && c.jobs[t].takenAt == b.jobs[t].takenAt
    && (c.rows == b.rows || (&& HoldsLease(b.rows, b.jobs[t].notice) && t.id in b.rows && t.id in c.rows
                             && c.rows == b.rows[t.id := c.rows[t.id]]
                             && !c.rows[t.id].status.Leased? && RowOk(c.rows[t.id])
                             && c.rows[t.id].generation == b.rows[t.id].generation && c.jobs[t].done))
  }

  lemma JobMoveKeepsJobs(b: Board, t: Ticket, c: Board)
    requires BoardOk(b) && JobMoves(b, t, c) && JobOk(c, t)
    ensures JobsOk(c)
  {
    assert JobOk(b, t);
    forall u | u in c.jobs ensures JobOk(c, u) {
      assert JobOk(b, u);
    }
  }

  lemma JobMoveKeepsRows(b: Board, t: Ticket, c: Board)
    requires BoardOk(b) && JobMoves(b, t, c)
    requires b.jobs[t].window.Some? ==> c.jobs[t].window.Some?
    requires t.id in c.rows ==> SentOk(c, t.id)
    ensures RowsOk(c) && BoardEvolves(b, c)
  {
    assert JobOk(b, t);
    forall id | id in c.rows ensures RowOk(c.rows[id]) && LeaseOk(c, id) && SentOk(c, id) {
      assert RowOk(b.rows[id]) && LeaseOk(b, id) && SentOk(b, id);
    }
  }

  lemma JobMoveKeepsOrder(b: Board, t: Ticket, c: Board)
    requires BoardOk(b) && JobMoves(b, t, c)
    requires c.jobs[t].window.Some? ==>
               || (b.jobs[t].window.Some? && c.jobs[t].window.value.until <= b.jobs[t].window.value.until)
               || HoldsLease(b.rows, b.jobs[t].notice)
    ensures OrderOk(c)
  {
    assert JobOk(b, t);
    forall v, u | v in c.jobs && u in c.jobs && v.id == u.id && v.generation < u.generation
      ensures InOrder(c.jobs[v], c.jobs[u])
    {
      assert JobOk(b, u) && InOrder(b.jobs[v], b.jobs[u]);
    }
  }

  lemma JobMoveKeepsBoard(b: Board, t: Ticket, c: Board)
    requires BoardOk(b) && JobMoves(b, t, c) && JobOk(c, t)
    requires b.jobs[t].window.Some? ==> c.jobs[t].window.Some?
    requires t.id in c.rows ==> SentOk(c, t.id)
    requires c.jobs[t].window.Some? ==>
               || (b.jobs[t].window.Some? && c.jobs[t].window.value.until <= b.jobs[t].window.value.until)
               || HoldsLease(b.rows, b.jobs[t].notice)
    ensures BoardOk(c) && BoardEvolves(b, c)
  {
    JobMoveKeepsJobs(b, t, c);
    JobMoveKeepsRows(b, t, c);
    JobMoveKeepsOrder(b, t, c);
  }

  lemma PublishKeepsBoard(b: Board, t: Ticket, timeout: int, firstReading: Time, skew: int)
    requires BoardOk(b)
    ensures BoardOk(Step(b, Publish(t, timeout, firstReading, skew)))
    ensures BoardEvolves(b, Step(b, Publish(t, timeout, firstReading, skew)))
  {
    var c := Step(b, Publish(t, timeout, firstReading, skew));
    if c == b {
      BoardStands(b);
    } else {
      assert JobOk(b, t) && SentOk(b, t.id);
      JobMoveKeepsBoard(b, t, c);
    }
  }

  lemma StopKeepsBoard(b: Board, t: Ticket)
    requires BoardOk(b)
    ensures BoardOk(Step(b, Stop(t))) && BoardEvolves(b, Step(b, Stop(t)))
  {
    var c := Step(b, Stop(t));
    if c == b {
      BoardStands(b);
    } else {
      assert JobOk(b, t) && SentOk(b, t.id);
      JobMoveKeepsBoard(b, t, c);
    }
  }

  lemma FinishKeepsBoard(b: Board, e: Event)
    requires BoardOk(b) && (e.Deliver? || e.PutBack? || e.GiveUp?)
    ensures BoardOk(Step(b, e)) && BoardEvolves(b, Step(b, e))
  {
    hide ExponentialBackoff;
    var c := Step(b, e);
    if c == b {
      BoardStands(b);
    } else {
      assert JobOk(b, e.ticket) && SentOk(b, e.ticket.id) && RowOk(b.rows[e.ticket.id]);
      JobMoveKeepsBoard(b, e.ticket, c);
    }
  }

  lemma BoardStands(b: Board)
    ensures BoardEvolves(b, b)
  {
  }

  lemma ElapseKeepsBoard(b: Board, time: nat)
    requires BoardOk(b)
    ensures BoardOk(Step(b, Elapse(time))) && BoardEvolves(b, Step(b, Elapse(time)))
  {
    var c := Step(b, Elapse(time));
    forall u | u in c.jobs ensures JobOk(c, u) {
      assert JobOk(b, u);
    }
    forall id | id in c.rows ensures LeaseOk(c, id) && SentOk(c, id) {
      assert LeaseOk(b, id) && SentOk(b, id);
    }
  }

  lemma EnqueueKeepsBoard(b: Board, id: Uuid, row: OutboxRow)
    requires BoardOk(b)
    ensures BoardOk(Step(b, Enqueue(id, row))) && BoardEvolves(b, Step(b, Enqueue(id, row)))
  {
    var c := Step(b, Enqueue(id, row));
    forall u | u in c.jobs ensures JobOk(c, u) {
      assert JobOk(b, u);
    }
    forall x | x in c.rows ensures LeaseOk(c, x) && SentOk(c, x) {
      assert x in b.rows ==> LeaseOk(b, x) && SentOk(b, x);
    }
  }

  lemma StepKeepsBoard(b: Board, e: Event)
    requires BoardOk(b)
    ensures BoardOk(Step(b, e)) && BoardEvolves(b, Step(b, e))
  {
    hide BoardOk, BoardEvolves, Step;
    match e
    case Elapse(time) => ElapseKeepsBoard(b, time);
    case Enqueue(id, row) => EnqueueKeepsBoard(b, id, row);
    case Take(id, token, duration) => TakeKeepsBoard(b, id, token, duration);
    case Publish(t, timeout, firstReading, skew) => PublishKeepsBoard(b, t, timeout, firstReading, skew);
    case Stop(t) => StopKeepsBoard(b, t);
    case _ => FinishKeepsBoard(b, e);
  }

  lemma {:induction false} RunKeepsBoard(b: Board, events: seq<Event>)
    requires BoardOk(b)
    ensures BoardOk(Run(b, events)) && BoardEvolves(b, Run(b, events))
    decreases |events|
  {
    if |events| == 0 {
      BoardStands(b);
    } else {
      hide BoardOk, Step;
      var next := Step(b, events[0]);
      StepKeepsBoard(b, events[0]);
      RunKeepsBoard(next, events[1..]);
      EvolvesTransitively(b, next, Run(next, events[1..]));
    }
  }

  lemma EvolvesTransitively(a: Board, b: Board, c: Board)
    requires BoardEvolves(a, b) && BoardEvolves(b, c)
    ensures BoardEvolves(a, c)
  {
  }

  // ---------------------------------------------------------------------------------------------
  // Guarantees
  // ---------------------------------------------------------------------------------------------

  /** Publications of one row under different leases never overlap, although a worker whose lease has run out
      may still be publishing for all it knows, and although the workers' clocks may lag behind the database
      by up to the publisher timeout: the later lease is not even taken before the earlier publication is over. */
  lemma PublicationsNeverOverlap(now: Time, events: seq<Event>, t: Ticket, u: Ticket)
    requires var b := Run(Start(now), events);
             t in b.jobs && u in b.jobs && t.id == u.id && t.generation < u.generation
             && b.jobs[t].window.Some? && b.jobs[u].window.Some?
    ensures var b := Run(Start(now), events);
            b.jobs[t].window.value.until <= b.jobs[u].takenAt <= b.jobs[u].window.value.from
  {
    RunKeepsBoard(Start(now), events);
    var b := Run(Start(now), events);
    assert JobOk(b, u) && InOrder(b.jobs[t], b.jobs[u]);
  }

  /** Only the holder of the current lease closes or reschedules a row. Once that lease is over no claim under
      its generation, issued or made up, changes the table in any later state. */
  lemma OldLeasesAreInert(now: Time, before: seq<Event>, after: seq<Event>, n: Notice, note: Note, base: int,
      limit: int)
    requires var b := Run(Start(now), before);
             n.id in b.rows && n.generation <= b.rows[n.id].generation && !HoldsLease(b.rows, n)
    ensures var later := Run(Run(Start(now), before), after);
            && Finalize(later.rows, n, None, later.clock) == later.rows
            && Finalize(later.rows, n, Some(MarkedObsolete), later.clock) == later.rows
            && Postpone(later.rows, n, note, base, limit, later.clock) == later.rows
  {
    RunKeepsBoard(Start(now), before);
    RunKeepsBoard(Run(Start(now), before), after);
    hide Run;
    var b := Run(Start(now), before);
    assert RowEvolves(b.rows[n.id], Run(b, after).rows[n.id]);
  }

  /** No row is forgotten or taken early: in every reachable state a row can be taken exactly when it is not
      sent and its lease, or without a lease the time it was put off to, has passed. */
  lemma UnsentRowsComeDue(now: Time, events: seq<Event>, id: Uuid, token: Uuid, duration: int)
    requires id in Run(Start(now), events).rows && duration > 0
    ensures var b := Run(Start(now), events);
            var row := b.rows[id];
            var from := if row.leaseUntil.Some? then row.leaseUntil.value else row.availableAt;
            && (Step(b, Take(id, token, duration)) != b <==> !row.status.Sent? && from <= b.clock)
  {
    RunKeepsBoard(Start(now), events);
    hide Run;
    var b := Run(Start(now), events);
    assert RowOk(b.rows[id]);
    var taken := Step(b, Take(id, token, duration));
    if Due(b.rows[id], b.clock) {
      assert taken.rows[id].generation == b.rows[id].generation + 1;
    }
  }

  /** A sent row stays exactly as it is, and it was either published under its last lease or marked obsolete. */
  lemma SentIsFinal(now: Time, before: seq<Event>, after: seq<Event>, id: Uuid)
    requires var b := Run(Start(now), before); id in b.rows && b.rows[id].status.Sent?
    ensures var b := Run(Start(now), before); var later := Run(b, after);
            && id in later.rows && later.rows[id] == b.rows[id]
            && var t := Ticket(id, b.rows[id].generation);
               b.rows[id].note.Some? || (t in b.jobs && b.jobs[t].window.Some?)
  {
    RunKeepsBoard(Start(now), before);
    RunKeepsBoard(Run(Start(now), before), after);
    hide Run;
    var b := Run(Start(now), before);
    assert RowEvolves(b.rows[id], Run(b, after).rows[id]) && SentOk(b, id);
  }
}
