/** deliverNotification as a program, amid the steps of every other worker. */
module Delivery {
  import opened Wrappers
  import opened Domain
  import R = Reconciliation
  import opened Outbox
  import opened Publication

  /** What the surroundings answer during one delivery, and what others do between its calls: the queue as the
      classification finds it, or None when its query fails; whether the publication succeeds; and whether the
      closing statement reaches the database. `cause` is the text of whichever error there is. */
  datatype Script = Script(
    products: Option<map<Uuid, R.Product>>, afterClassification: seq<Event>, firstReading: Time, skew: int,
    duringPublication: seq<Event>, published: bool, closes: bool, cause: Text)

  /** The notice was found to be current. */
  predicate Current(n: Notice, script: Script, now: Time) {
    script.products.Some? && !Stale(n, script.products.value, now)
  }

  /** There is time left for a publication on the worker's clock. */
  predicate WindowOpen(n: Notice, script: Script, timeout: int, now: Time) {
    Deadline(n, timeout, script.firstReading) > now + script.skew
  }

  predicate Concerns(e: Event, t: Ticket) {
    match e
    case Publish(u, _, _, _) => u == t
    case Stop(u) => u == t
    case Deliver(u, _) => u == t
    case PutBack(u, _, _, _) => u == t
    case GiveUp(u) => u == t
    case _ => false
  }

  /** The events of others: a claim is worked on by the worker it was given to, and by nobody else. */
  predicate OfOthers(events: seq<Event>, t: Ticket) { forall e :: e in events ==> !Concerns(e, t) }

  lemma OtherLeavesJob(b: Board, e: Event, t: Ticket)
    requires t in b.jobs && JobOk(b, t) && !Concerns(e, t)
    ensures t in Step(b, e).jobs && Step(b, e).jobs[t] == b.jobs[t]
  {
  }

  lemma {:induction false} OthersLeaveJob(b: Board, events: seq<Event>, t: Ticket)
    requires BoardOk(b) && t in b.jobs && OfOthers(events, t)
    ensures t in Run(b, events).jobs && Run(b, events).jobs[t] == b.jobs[t]
    decreases |events|
  {
    if |events| > 0 {
      StepKeepsBoard(b, events[0]);
      OtherLeavesJob(b, events[0], t);
      hide BoardOk, BoardEvolves, JobOk, Step, Concerns;
      OthersLeaveJob(Step(b, events[0]), events[1..], t);
    }
  }

  lemma {:induction false} RunAppends(b: Board, first: seq<Event>, second: seq<Event>)
    ensures Run(Run(b, first), second) == Run(b, first + second)
    decreases |first|
  {
    hide Step;
    if |first| == 0 {
      assert first + second == second;
    } else {
      assert (first + second)[0] == first[0] && (first + second)[1..] == first[1..] + second;
      RunAppends(Step(b, first[0]), first[1..], second);
    }
  }

  lemma NoSteps(a: Board)
    ensures Run(a, []) == a
  {
  }

  lemma OneMore(a: Board, trace: seq<Event>, e: Event)
    ensures Run(a, trace + [e]) == Step(Run(a, trace), e)
  {
    hide Step;
    RunAppends(a, trace, [e]);
    assert [e][1..] == [];
  }

  /** Which of its own steps a delivery takes, given whether the notice was current and time was left. */
  predicate TakesItsSteps(trace: seq<Event>, t: Ticket, script: Script, timeout: int, base: int, limit: int,
      current: bool, open: bool) {
    var stale, sent := script.products.Some? && !current, current && open && script.published;
    && (Publish(t, timeout, script.firstReading, script.skew) in trace <==> current && open)
    && (Deliver(t, true) in trace <==> stale && script.closes)
    && (Deliver(t, false) in trace <==> sent && script.closes)
    && (PutBack(t, script.cause, base, limit) in trace <==> !stale && !sent && script.closes)
    && (GiveUp(t) in trace <==> !script.closes)
  }

  /** The step that closes a delivery. */
  function Closing(t: Ticket, script: Script, base: int, limit: int, current: bool, open: bool): Event {
    if !script.closes then GiveUp(t)
    else if script.products.Some? && !current then Deliver(t, true)
    else if current && open && script.published then Deliver(t, false)
    else PutBack(t, script.cause, base, limit)
  }

  lemma StepsTaken(trace: seq<Event>, t: Ticket, script: Script, timeout: int, base: int, limit: int,
      current: bool, open: bool)
    requires OfOthers(script.afterClassification, t) && OfOthers(script.duringPublication, t)
    requires current ==> script.products.Some?
    requires var publication := [Publish(t, timeout, script.firstReading, script.skew)] + script.duringPublication
        + [Stop(t)];
             trace == script.afterClassification + (if current && open then publication else [])
                      + [Closing(t, script, base, limit, current, open)]
    ensures TakesItsSteps(trace, t, script, timeout, base, limit, current, open)
  {
    var published := Publish(t, timeout, script.firstReading, script.skew);
    var closing := Closing(t, script, base, limit, current, open);
    forall e | Concerns(e, t)
      ensures e in trace <==> e == closing || (current && open && (e == published || e == Stop(t)))
    {
    }
  }

  class Courier {
    const outbox: NotificationOutboxRepository
    const timeout: int
    const base: int
    const limit: int
    /** The shared state: the table of `outbox`, the clock, and the work of all workers. */
    var world: Board

    ghost predicate Valid()
      reads this, outbox
    {
      world.rows == outbox.rows && BoardOk(world) && 0 < timeout && 0 < base <= limit
    }

    constructor (outbox: NotificationOutboxRepository, timeout: int, base: int, limit: int, world: Board)
      requires world.rows == outbox.rows && BoardOk(world) && 0 < timeout && 0 < base <= limit
      ensures Valid() && this.outbox == outbox && this.world == world
    {
      this.outbox, this.timeout, this.base, this.limit, this.world := outbox, timeout, base, limit, world;
    }

    /** Lets others act. */
    method Yield(events: seq<Event>, t: Ticket)
      requires Valid() && t in world.jobs && OfOthers(events, t)
      modifies this`world, outbox
      ensures Valid() && world == Run(old(world), events)
      ensures t in world.jobs && world.jobs[t] == old(world.jobs[t])
    {
      RunKeepsBoard(world, events);
      OthersLeaveJob(world, events, t);
      world := Run(world, events);
      outbox.rows := world.rows;
    }

    /** The closing statement of a worker that puts its row back, or its failure. */
    method PutRowBack(t: Ticket, error: Text, closes: bool) returns (ghost e: Event)
      requires Valid() && t in world.jobs && Idle(world, world.jobs[t])
      modifies this`world, outbox
      ensures e == (if closes then PutBack(t, error, base, limit) else GiveUp(t))
      ensures Valid() && world == Step(old(world), e)
      ensures t in world.jobs && world.jobs[t] == old(world.jobs[t]).(done := true)
    {
      hide ExponentialBackoff;
      if closes {
        e := PutBack(t, error, base, limit);
        StepKeepsBoard(world, e);
        var _ := outbox.RetryNotification(world.jobs[t].notice, error, base, limit, world.clock);
        world := Step(world, PutBack(t, error, base, limit));
      } else {
        e := GiveUp(t);
        StepKeepsBoard(world, e);
        world := Step(world, GiveUp(t));
      }
    }

    /** The closing statement of a worker that is through with its row, or its failure. */
    method CloseRow(t: Ticket, obsolete: bool, closes: bool) returns (ghost e: Event)
      requires Valid() && t in world.jobs && Idle(world, world.jobs[t]) && (obsolete <==> world.jobs[t].window.None?)
      modifies this`world, outbox
      ensures e == (if closes then Deliver(t, obsolete) else GiveUp(t))
      ensures Valid() && world == Step(old(world), e)
      ensures t in world.jobs && world.jobs[t] == old(world.jobs[t]).(done := true)
    {
      if closes {
        e := Deliver(t, obsolete);
        StepKeepsBoard(world, e);
        var _ := outbox.FinalizeNotification(
          world.jobs[t].notice, if obsolete then Some(MarkedObsolete) else None, world.clock);
        world := Step(world, Deliver(t, obsolete));
      } else {
        e := GiveUp(t);
        StepKeepsBoard(world, e);
        world := Step(world, GiveUp(t));
      }
    }

    /** deliverNotification. Its calls, with the others' steps in between, are a run of the protocol in
        Publication.dfy. It publishes exactly when its invitation is in force at the classification and time is
        left; it marks the row sent exactly after a publication that succeeded, obsolete exactly when the
        invitation is not in force, and puts it back in every other case, unless the closing statement itself
        fails; and it is always through with its claim. */
    method DeliverNotification(t: Ticket, script: Script) returns (ghost trace: seq<Event>)
      requires Valid() && t in world.jobs && !world.jobs[t].done && world.jobs[t].window.None?
      requires OfOthers(script.afterClassification, t) && OfOthers(script.duringPublication, t)
      requires script.skew >= -timeout
      modifies this`world, outbox
      ensures Valid() && world == Run(old(world), trace)
      ensures t in world.jobs && world.jobs[t].done
      ensures var n := old(world.jobs[t].notice);
              var current := Current(n, script, old(world.clock));
              var open := WindowOpen(n, script, timeout, Run(old(world), script.afterClassification).clock);
              && TakesItsSteps(trace, t, script, timeout, base, limit, current, open)
              && (world.jobs[t].window.Some? <==> current && open)
    {
      hide BoardOk, Step, Run, Stale, OfOthers, TakesItsSteps;
      ghost var a, e := world, Elapse(0);
      var n := world.jobs[t].notice;
      var obsolete := false;
      if script.products.Some? {
        obsolete := outbox.ClassifyInvitation(n, script.products.value, world.clock);
      }
      ghost var current := Current(n, script, world.clock);
      trace := script.afterClassification;
      Yield(script.afterClassification, t);
      var publicationDeadline := EarlierTime(script.firstReading + timeout, n.leaseUntil - timeout);
      ghost var open := WindowOpen(n, script, timeout, world.clock);
      assert open <==> publicationDeadline > world.clock + script.skew;
      ghost var part: seq<Event> := [];
      if script.products.None? {
        e := PutRowBack(t, script.cause, script.closes);
      } else if obsolete {
        e := CloseRow(t, true, script.closes);
      } else if publicationDeadline <= world.clock + script.skew {
        e := PutRowBack(t, script.cause, script.closes);
      } else {
        part := PublishUntilDeadline(t, script);
        RunAppends(a, trace, part);
        if script.published {
          e := CloseRow(t, false, script.closes);
        } else {
          e := PutRowBack(t, script.cause, script.closes);
        }
      }
      assert trace + [] == trace;
      trace := trace + part;
      OneMore(a, trace, e);
      trace := trace + [e];
      StepsTaken(trace, t, script, timeout, base, limit, current, open);
    }

    /** The publication: begun, interleaved with the steps of others, and ended at its deadline at the latest. */
    method PublishUntilDeadline(t: Ticket, script: Script) returns (ghost part: seq<Event>)
      requires Valid() && t in world.jobs && !world.jobs[t].done && world.jobs[t].window.None?
      requires OfOthers(script.duringPublication, t) && script.skew >= -timeout
      requires WindowOpen(world.jobs[t].notice, script, timeout, world.clock)
      modifies this`world, outbox
      ensures part == [Publish(t, timeout, script.firstReading, script.skew)] + script.duringPublication + [Stop(t)]
      ensures Valid() && world == Run(old(world), part)
      ensures t in world.jobs && Idle(world, world.jobs[t]) && world.jobs[t].window.Some?
    {
      hide BoardOk, Step, Run, OfOthers;
      ghost var a := world;
      OneMore(a, [], Publish(t, timeout, script.firstReading, script.skew));
      part := [] + [Publish(t, timeout, script.firstReading, script.skew)];
      NoSteps(a);
      BeginPublication(t, script.firstReading, script.skew);
      RunAppends(a, part, script.duringPublication);
      part := part + script.duringPublication;
      Yield(script.duringPublication, t);
      OneMore(a, part, Stop(t));
      part := part + [Stop(t)];
      EndPublication(t);
    }

    method BeginPublication(t: Ticket, firstReading: Time, skew: int)
      requires Valid() && t in world.jobs && !world.jobs[t].done && world.jobs[t].window.None? && skew >= -timeout
      requires EarlierTime(firstReading + timeout, world.jobs[t].notice.leaseUntil - timeout) > world.clock + skew
      modifies this`world
      ensures Valid() && world == Step(old(world), Publish(t, timeout, firstReading, skew))
      ensures t in world.jobs && !world.jobs[t].done && world.jobs[t].window.Some?
    {
      StepKeepsBoard(world, Publish(t, timeout, firstReading, skew));
      world := Step(world, Publish(t, timeout, firstReading, skew));
    }

    method EndPublication(t: Ticket)
      requires Valid() && t in world.jobs && !world.jobs[t].done && world.jobs[t].window.Some?
      modifies this`world
      ensures Valid() && world == Step(old(world), Stop(t))
      ensures t in world.jobs && Idle(world, world.jobs[t]) && world.jobs[t].window.Some?
    {
      StepKeepsBoard(world, Stop(t));
      world := Step(world, Stop(t));
    }
  }
}
