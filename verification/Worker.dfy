/** The background supervisor: when a product has work, and what one reconciliation cycle does. */
module Worker {
  import opened Wrappers
  import opened Domain
  import opened Reconciliation
  import opened Database
  import opened Runs
  import Repository
  import Queue

  // ---------------------------------------------------------------------------------------------
  // Work
  // ---------------------------------------------------------------------------------------------

  lemma EligibleHasWork(p: Product, now: Time)
    ensures Queue.IsEligible(p, now) <==> HasWork(p, now)
  {
    if HasWork(p, now) {
      var i :| 0 <= i < |p.attempts|
        && (Is(p.attempts[i], Overdue(now)) || (Is(p.attempts[i], Queued) && WaitingCanMove(p)));
      assert Queue.IsEligible(p, now);
    }
  }

  /** The worker selects a product exactly when a batch of any positive limit would make a transition. The
      batch does that much of the remaining work, so selection at a fixed time comes to an end. */
  lemma EligibleMeansProgress(p: Product, cfg: Config, now: Time, limit: int)
    requires ReservedOk(p) && limit > 0
    ensures var batch := Queue.ReconcileBatch(p, cfg, now, limit);
            && batch.result.Ok?
            && (Queue.IsEligible(p, now) <==> batch.result.value.transitions > 0)
            && (Queue.IsEligible(p, now) <==> batch.product != p)
            && 0 <= Work(batch.product, now) == Work(p, now) - batch.result.value.transitions
            && batch.result.value.transitions <= limit
            && (batch.result.value.moreWork <==> Queue.IsEligible(batch.product, now))
            && (batch.result.value.moreWork ==> batch.result.value.transitions == limit)
  {
    var q := Iterate(p, cfg, now, limit);
    EligibleHasWork(p, now);
    EligibleHasWork(q, now);
    WorkIsSomething(p, now);
    IterateWork(p, cfg, now, limit);
    WorkIsSomething(q, now);
  }

  /** The selection reads the clock before the product is locked; whatever was due then is still due. */
  lemma EligibilityLasts(p: Product, now: Time, later: Time)
    requires now <= later && Queue.IsEligible(p, now)
    ensures HasWork(p, later)
  {
    var i :| 0 <= i < |p.attempts|
      && var a := p.attempts[i];
         || (a.state.Invited? && a.invitationDeadline.Some? && a.invitationDeadline.value <= now)
         || (a.state.Checkout? && a.checkoutDeadline.Some? && a.checkoutDeadline.value <= now)
         || (a.state.Waiting? && (p.stock == 0 || p.stock - p.reserved > 0));
    assert Is(p.attempts[i], Overdue(later)) || (Is(p.attempts[i], Queued) && WaitingCanMove(p));
  }

  // ---------------------------------------------------------------------------------------------
  // One reconciliation cycle
  // ---------------------------------------------------------------------------------------------

  /** What the surroundings do during one pass of the loop: whether the context is cancelled, what others
      commit before the selection, the rows they hold, the time that passes, and the connection. */
  datatype Turn = Turn(cancelled: bool, others: seq<Event>, locked: set<Uuid>, elapsed: nat, fault: Repository.Fault)

  datatype CycleOutcome = CycleOutcome(immediate: bool, failed: bool)

  predicate Distinct(s: seq<Uuid>) { forall i, j :: 0 <= i < j < |s| ==> s[i] != s[j] }

  /** The events of one pass that picked `x`: those of the others, then the supervisor's own batch. */
  function TurnEvents(t: Turn, x: Uuid, limit: int): seq<Event> {
    t.others + [Tick(t.elapsed)] + (if t.fault.Healthy? then [BackgroundBatch(x, limit)] else [])
  }

  function PassEvents(turns: seq<Turn>, picks: seq<Uuid>, limit: int): seq<Event>
    requires |picks| <= |turns|
  {
    if |picks| == 0 then []
    else
      PassEvents(turns, picks[..|picks| - 1], limit) + TurnEvents(turns[|picks| - 1], picks[|picks| - 1], limit)
  }

  /** What the selection that follows `picks` finds. */
  function Met(a: Db, cfg: Config, turns: seq<Turn>, picks: seq<Uuid>, limit: int): Db
    requires |picks| < |turns|
  {
    Run(Run(a, cfg, PassEvents(turns, picks, limit)), cfg, turns[|picks|].others)
  }

  /** The transaction on `x` when it is picked after `picks`. */
  function Attempted(a: Db, cfg: Config, turns: seq<Turn>, picks: seq<Uuid>, x: Uuid, limit: int): Reply<Queue.Progress>
    requires |picks| < |turns|
  {
    var met, turn := Met(a, cfg, turns, picks, limit), turns[|picks|];
    var later := met.(clock := met.clock + turn.elapsed);
    if turn.fault.Healthy? then ReconcileBatch(later, cfg, x, limit) else Reply(later, Err(Unavailable))
  }

  function PassResult(a: Db, cfg: Config, turns: seq<Turn>, picks: seq<Uuid>, limit: int,
      k: nat): Result<Queue.Progress>
    requires k < |picks| <= |turns|
  {
    Attempted(a, cfg, turns, picks[..k], picks[k], limit).result
  }

  /** Pick `k` was eligible, free and new when it was picked. */
  ghost predicate PickOk(a: Db, cfg: Config, turns: seq<Turn>, picks: seq<Uuid>, limit: int, k: nat)
    requires k < |picks| <= |turns|
  {
    var met, turn, x := Met(a, cfg, turns, picks[..k], limit), turns[k], picks[k];
    && !turn.cancelled && !turn.fault.BeforeSelection?
    && x in met.products && x !in turn.locked && x !in picks[..k] && Queue.IsEligible(met.products[x], met.clock)
  }

  ghost predicate PicksOk(a: Db, cfg: Config, turns: seq<Turn>, picks: seq<Uuid>, limit: int)
    requires |picks| <= |turns|
  {
    forall k :: 0 <= k < |picks| ==> PickOk(a, cfg, turns, picks, limit, k)
  }

  ghost predicate SomePassFailed(a: Db, cfg: Config, turns: seq<Turn>, picks: seq<Uuid>, limit: int)
    requires |picks| <= |turns|
  {
    exists k :: 0 <= k < |picks| && PassResult(a, cfg, turns, picks, limit, k).Err?
  }

  ghost predicate SomeWorkReported(a: Db, cfg: Config, turns: seq<Turn>, picks: seq<Uuid>, limit: int)
    requires |picks| <= |turns|
  {
    exists k :: 0 <= k < |picks|
      && PassResult(a, cfg, turns, picks, limit, k).Ok? && PassResult(a, cfg, turns, picks, limit, k).value.moreWork
  }

  ghost predicate NothingEligible(db: Db, picks: seq<Uuid>, locked: set<Uuid>) {
    forall x :: x in db.products && x !in picks && x !in locked ==> !Queue.IsEligible(db.products[x], db.clock)
  }

  // ---------------------------------------------------------------------------------------------
  // A cycle that is left alone, but for failures of single products
  // ---------------------------------------------------------------------------------------------

  /** Nobody else acts and no time passes; transactions may fail once their product is selected. */
  predicate Calm(t: Turn) {
    !t.cancelled && t.others == [] && t.locked == {} && t.elapsed == 0 && !t.fault.BeforeSelection?
  }

  /** What a batch makes of a product: due transitions, or nothing when its counter is broken. */
  function Serviced(p: Product, cfg: Config, now: Time, limit: nat): Product {
    if ReservedOk(p) then Iterate(p, cfg, now, limit) else p
  }

  /** The batch did not finish the work of the product. */
  predicate Leftover(p: Product, cfg: Config, now: Time, limit: nat) {
    ReservedOk(p) && HasWork(Serviced(p, cfg, now, limit), now)
  }

  /** Pick `k` fails: on the connection, or because its counter is broken. */
  predicate PickFails(a: Db, turns: seq<Turn>, picks: seq<Uuid>, k: nat)
    requires k < |picks| <= |turns| && picks[k] in a.products
  {
    !turns[k].fault.Healthy? || !ReservedOk(a.products[picks[k]])
  }

  /** The batch of pick `k` went through and did not finish the work. */
  predicate WorkRemains(a: Db, cfg: Config, turns: seq<Turn>, picks: seq<Uuid>, limit: nat, k: nat)
    requires k < |picks| <= |turns| && picks[k] in a.products
  {
    turns[k].fault.Healthy? && Leftover(a.products[picks[k]], cfg, a.clock, limit)
  }

  /** Every pick had work and was serviced, or left as it was when its transaction failed; nothing else changed. */
  ghost predicate CycleEffect(a: Db, b: Db, cfg: Config, limit: nat, turns: seq<Turn>, picks: seq<Uuid>)
    requires |picks| <= |turns|
  {
    && b == a.(products := b.products) && b.products.Keys == a.products.Keys
    && (forall k :: 0 <= k < |picks| ==>
          && picks[k] in a.products && HasWork(a.products[picks[k]], a.clock)
          && b.products[picks[k]] == if turns[k].fault.Healthy?
                                     then Serviced(a.products[picks[k]], cfg, a.clock, limit) else a.products[picks[k]])
    && (forall x :: x in a.products && x !in picks ==> b.products[x] == a.products[x])
  }

  lemma BatchServices(a: Db, cfg: Config, x: Uuid, limit: int)
    requires limit > 0 && x in a.products
    ensures var r := ReconcileBatch(a, cfg, x, limit);
            && r.db == Put(a, x, Serviced(a.products[x], cfg, a.clock, limit))
            && (r.result.Ok? <==> ReservedOk(a.products[x]))
            && (r.result.Ok? ==> (r.result.value.moreWork <==> Leftover(a.products[x], cfg, a.clock, limit)))
  {
    hide Iterate, ReservedOk, HasWork;
  }

  /** One more calm pass. */
  lemma EffectGrows(a: Db, b: Db, cfg: Config, limit: int, turns: seq<Turn>, picks: seq<Uuid>, x: Uuid)
    requires limit > 0 && |picks| < |turns| && CycleEffect(a, b, cfg, limit, turns, picks)
    requires x in b.products && x !in picks && Queue.IsEligible(b.products[x], b.clock)
    ensures b.clock == a.clock && x in a.products && b.products[x] == a.products[x]
    ensures var c := if turns[|picks|].fault.Healthy? then ReconcileBatch(b, cfg, x, limit).db else b;
            CycleEffect(a, c, cfg, limit, turns, picks + [x])
  {
    hide Iterate, ReservedOk, HasWork, Serviced, ReconcileBatch, Queue.IsEligible;
    assert x in b.products.Keys;
    EligibleHasWork(b.products[x], b.clock);
    BatchServices(b, cfg, x, limit);
  }

  lemma RunOfTurn(db: Db, cfg: Config, t: Turn, x: Uuid, limit: int)
    ensures var met := Run(db, cfg, t.others); var later := met.(clock := met.clock + t.elapsed);
            Run(db, cfg, TurnEvents(t, x, limit))
            == if t.fault.Healthy? then ReconcileBatch(later, cfg, x, limit).db else later
  {
    hide ReconcileBatch;
    var met, batch := Run(db, cfg, t.others), BackgroundBatch(x, limit);
    RunAppends(db, cfg, t.others, [Tick(t.elapsed)]);
    OneEvent(met, cfg, Tick(t.elapsed));
    if t.fault.Healthy? {
      RunAppends(db, cfg, t.others + [Tick(t.elapsed)], [batch]);
      OneEvent(met.(clock := met.clock + t.elapsed), cfg, batch);
    } else {
      assert t.others + [Tick(t.elapsed)] + [] == t.others + [Tick(t.elapsed)];
    }
  }

  lemma NoEvents(db: Db, cfg: Config)
    ensures Run(db, cfg, []) == db
  {
  }

  lemma NothingPicked(a: Db, cfg: Config, turns: seq<Turn>, limit: nat)
    ensures a == Run(a, cfg, PassEvents(turns, [], limit)) && PicksOk(a, cfg, turns, [], limit)
    ensures !SomePassFailed(a, cfg, turns, [], limit) && !SomeWorkReported(a, cfg, turns, [], limit)
  {
  }

  /** The state after a pass is a run of everything so far. */
  lemma Passed(a: Db, cfg: Config, turns: seq<Turn>, picks: seq<Uuid>, x: Uuid, limit: int)
    requires |picks| < |turns|
    ensures Run(a, cfg, PassEvents(turns, picks + [x], limit)) == Attempted(a, cfg, turns, picks, x, limit).db
  {
    hide Run, TurnEvents, ReconcileBatch;
    assert (picks + [x])[..|picks|] == picks;
    RunAppends(a, cfg, PassEvents(turns, picks, limit), TurnEvents(turns[|picks|], x, limit));
    RunOfTurn(Run(a, cfg, PassEvents(turns, picks, limit)), cfg, turns[|picks|], x, limit);
  }

  lemma PickAdded(a: Db, cfg: Config, turns: seq<Turn>, picks: seq<Uuid>, x: Uuid, limit: int)
    requires |picks| < |turns| && PicksOk(a, cfg, turns, picks, limit)
    requires var met, turn := Met(a, cfg, turns, picks, limit), turns[|picks|];
             && !turn.cancelled && !turn.fault.BeforeSelection?
             && x in met.products && x !in turn.locked && x !in picks && Queue.IsEligible(met.products[x], met.clock)
    ensures PicksOk(a, cfg, turns, picks + [x], limit)
    ensures var result := Attempted(a, cfg, turns, picks, x, limit).result;
            && (SomePassFailed(a, cfg, turns, picks + [x], limit)
                <==> SomePassFailed(a, cfg, turns, picks, limit) || result.Err?)
            && (SomeWorkReported(a, cfg, turns, picks + [x], limit)
                <==> SomeWorkReported(a, cfg, turns, picks, limit) || (result.Ok? && result.value.moreWork))
  {
    hide Met, Attempted, Queue.IsEligible;
    var more := picks + [x];
    assert more[..|picks|] == picks && more[|picks|] == x;
    forall k | 0 <= k < |picks|
      ensures PickOk(a, cfg, turns, more, limit, k)
      ensures PassResult(a, cfg, turns, more, limit, k) == PassResult(a, cfg, turns, picks, limit, k)
    {
      assert more[..k] == picks[..k] && PickOk(a, cfg, turns, picks, limit, k);
    }
    assert PassResult(a, cfg, turns, more, limit, |picks|) == Attempted(a, cfg, turns, picks, x, limit).result;
  }

  lemma FewerPicksOk(a: Db, cfg: Config, turns: seq<Turn>, picks: seq<Uuid>, limit: int, n: nat)
    requires n <= |picks| <= |turns| && PicksOk(a, cfg, turns, picks, limit)
    ensures PicksOk(a, cfg, turns, picks[..n], limit)
  {
    hide Met, Queue.IsEligible;
    forall k | 0 <= k < n ensures PickOk(a, cfg, turns, picks[..n], limit, k) {
      assert picks[..n][..k] == picks[..k] && PickOk(a, cfg, turns, picks, limit, k);
    }
  }

  /** In a calm cycle a selection finds what the passes before it left. */
  lemma CalmMeeting(a: Db, cfg: Config, turns: seq<Turn>, picks: seq<Uuid>, x: Uuid, limit: int)
    requires |picks| < |turns| && Calm(turns[|picks|])
    ensures var b := Run(a, cfg, PassEvents(turns, picks, limit));
            && Met(a, cfg, turns, picks, limit) == b
            && Attempted(a, cfg, turns, picks, x, limit)
               == if turns[|picks|].fault.Healthy? then ReconcileBatch(b, cfg, x, limit) else Reply(b, Err(Unavailable))
  {
    hide Run, ReconcileBatch;
    NoEvents(Run(a, cfg, PassEvents(turns, picks, limit)), cfg);
  }

  /** What the passes of a calm cycle amount to, pick by pick. */
  lemma {:induction false} CalmPasses(a: Db, cfg: Config, turns: seq<Turn>, picks: seq<Uuid>, limit: int)
    requires limit > 0 && |picks| <= |turns| && PicksOk(a, cfg, turns, picks, limit)
    requires forall t :: t in turns ==> Calm(t)
    ensures CycleEffect(a, Run(a, cfg, PassEvents(turns, picks, limit)), cfg, limit, turns, picks)
  {
    hide CycleEffect, Run, PassEvents, Attempted, Met, Queue.IsEligible, Calm;
    if |picks| == 0 {
      NothingYet(a, cfg, turns, limit);
    } else {
      var n := |picks| - 1;
      var rest, x := picks[..n], picks[n];
      FewerPicksOk(a, cfg, turns, picks, limit, n);
      CalmPasses(a, cfg, turns, rest, limit);
      CalmMeeting(a, cfg, turns, rest, x, limit);
      assert PickOk(a, cfg, turns, picks, limit, n);
      EffectGrows(a, Run(a, cfg, PassEvents(turns, rest, limit)), cfg, limit, turns, rest, x);
      Passed(a, cfg, turns, rest, x, limit);
      assert picks == rest + [x];
    }
  }

  lemma NothingYet(a: Db, cfg: Config, turns: seq<Turn>, limit: nat)
    ensures CycleEffect(a, Run(a, cfg, PassEvents(turns, [], limit)), cfg, limit, turns, [])
  {
  }

  lemma CalmPick(a: Db, cfg: Config, turns: seq<Turn>, picks: seq<Uuid>, limit: int, k: nat)
    requires limit > 0 && k < |picks| <= |turns| && PicksOk(a, cfg, turns, picks, limit)
    requires forall t :: t in turns ==> Calm(t)
    ensures picks[k] in a.products
    ensures PassResult(a, cfg, turns, picks, limit, k).Err? <==> PickFails(a, turns, picks, k)
    ensures PassResult(a, cfg, turns, picks, limit, k).Ok? && PassResult(a, cfg, turns, picks, limit, k).value.moreWork
       <==> WorkRemains(a, cfg, turns, picks, limit, k)
  {
    hide CycleEffect, Run, PassEvents, Attempted, Met, Queue.IsEligible, ReservedOk, Leftover, ReconcileBatch;
    var rest, x := picks[..k], picks[k];
    FewerPicksOk(a, cfg, turns, picks, limit, k);
    CalmPasses(a, cfg, turns, rest, limit);
    assert turns[k] in turns && PickOk(a, cfg, turns, picks, limit, k);
    CalmMeeting(a, cfg, turns, rest, x, limit);
    var b := Run(a, cfg, PassEvents(turns, rest, limit));
    EffectGrows(a, b, cfg, limit, turns, rest, x);
    BatchServices(b, cfg, x, limit);
    LeftoverIsSound(b.products[x], cfg, b.clock, limit);
  }

  lemma LeftoverIsSound(p: Product, cfg: Config, now: Time, limit: nat)
    ensures Leftover(p, cfg, now, limit) ==> ReservedOk(p)
  {
    hide ReservedOk;
  }

  /** When nothing eligible is left outside the picks, every product that had work was picked. */
  lemma AllPicked(a: Db, b: Db, cfg: Config, limit: nat, turns: seq<Turn>, picks: seq<Uuid>)
    requires |picks| <= |turns| && CycleEffect(a, b, cfg, limit, turns, picks) && NothingEligible(b, picks, {})
    ensures forall x :: x in a.products && HasWork(a.products[x], a.clock) ==> x in picks
  {
    hide HasWork, Queue.IsEligible, Serviced;
    forall x | x in a.products && x !in picks ensures !HasWork(a.products[x], a.clock) {
      assert x in b.products.Keys;
      EligibleHasWork(b.products[x], b.clock);
    }
  }

  /** A calm cycle as a whole. */
  lemma CalmCycle(a: Db, cfg: Config, turns: seq<Turn>, picks: seq<Uuid>, tail: seq<Event>, limit: int)
    requires limit > 0 && |picks| < |turns| && PicksOk(a, cfg, turns, picks, limit)
    requires (forall t :: t in turns ==> Calm(t)) && (tail == [] || tail == turns[|picks|].others)
    ensures var last := turns[|picks|];
            !last.cancelled && last.locked == {} && !last.fault.BeforeSelection? && tail == []
    ensures forall k :: 0 <= k < |picks| ==> picks[k] in a.products
    ensures var b := Run(a, cfg, PassEvents(turns, picks, limit) + tail);
            && CycleEffect(a, b, cfg, limit, turns, picks)
            && (NothingEligible(b, picks, {}) ==>
                  forall x :: x in a.products && HasWork(a.products[x], a.clock) ==> x in picks)
    ensures SomePassFailed(a, cfg, turns, picks, limit)
       <==> exists k :: 0 <= k < |picks| && picks[k] in a.products && PickFails(a, turns, picks, k)
    ensures SomeWorkReported(a, cfg, turns, picks, limit)
       <==> exists k :: 0 <= k < |picks| && picks[k] in a.products && WorkRemains(a, cfg, turns, picks, limit, k)
  {
    assert turns[|picks|] in turns && Calm(turns[|picks|]);
    assert PassEvents(turns, picks, limit) + tail == PassEvents(turns, picks, limit);
    hide Calm, HasWork, Queue.IsEligible, Run, PassEvents, PicksOk, PassResult, PickFails, WorkRemains, CycleEffect,
      NothingEligible;
    CalmPasses(a, cfg, turns, picks, limit);
    forall k | 0 <= k < |picks|
      ensures picks[k] in a.products
      ensures PassResult(a, cfg, turns, picks, limit, k).Err? <==> PickFails(a, turns, picks, k)
      ensures PassResult(a, cfg, turns, picks, limit, k).Ok?
          && PassResult(a, cfg, turns, picks, limit, k).value.moreWork
         <==> WorkRemains(a, cfg, turns, picks, limit, k)
    {
      CalmPick(a, cfg, turns, picks, limit, k);
    }
    var b := Run(a, cfg, PassEvents(turns, picks, limit));
    if NothingEligible(b, picks, {}) {
      AllPicked(a, b, cfg, limit, turns, picks);
    }
  }

  /** A calm cycle below its limit on products: every product with work had its turn, whoever failed, and the
      products that still have due work are those whose batch ran into its limit or failed. */
  lemma IdleMeansSettled(a: Db, cfg: Config, turns: seq<Turn>, picks: seq<Uuid>, limit: int)
    requires limit > 0 && |picks| <= |turns| && PicksOk(a, cfg, turns, picks, limit)
    requires forall t :: t in turns ==> Calm(t)
    requires NothingEligible(Run(a, cfg, PassEvents(turns, picks, limit)), picks, {})
    ensures var b := Run(a, cfg, PassEvents(turns, picks, limit));
            && (forall x :: x in a.products && HasWork(a.products[x], a.clock) ==> x in picks)
            && (forall x :: x in b.products && HasWork(b.products[x], b.clock) ==>
                  exists k :: 0 <= k < |picks| && picks[k] == x && picks[k] in a.products
                    && (PickFails(a, turns, picks, k) || Leftover(a.products[x], cfg, a.clock, limit)))
  {
    hide Run, PassEvents, PicksOk, NothingEligible, HasWork, ReservedOk, Iterate, Calm;
    CalmPasses(a, cfg, turns, picks, limit);
    var b := Run(a, cfg, PassEvents(turns, picks, limit));
    AllPicked(a, b, cfg, limit, turns, picks);
    forall x | x in b.products && HasWork(b.products[x], b.clock)
      ensures exists k :: 0 <= k < |picks| && picks[k] == x && picks[k] in a.products
                && (PickFails(a, turns, picks, k) || Leftover(a.products[x], cfg, a.clock, limit))
    {
      assert x in a.products.Keys;
      assert x in picks;
      var k :| 0 <= k < |picks| && picks[k] == x;
    }
  }

  class Supervisor {
    const batchSize: int
    const maxProducts: nat
    const reconciler: Repository.QueueAttemptRepository

    constructor (batchSize: int, maxProducts: nat, reconciler: Repository.QueueAttemptRepository)
      requires batchSize > 0
      ensures this.batchSize == batchSize && this.maxProducts == maxProducts && this.reconciler == reconciler
    {
      this.batchSize, this.maxProducts, this.reconciler := batchSize, maxProducts, reconciler;
    }

    /** reconcileCycle. Whatever the surroundings do, the cycle together with the others' commits is a run in
        which it contributes at most one batch for each of the products in `picks`; every pick was eligible, free
        and new; and the cycle goes on, whichever transactions fail, until its context is cancelled, its limit is
        reached, the connection fails before a product is known, or no eligible product is free and new. It
        reports a failure exactly when some transaction failed, and asks to be repeated at once exactly when
        it ran into its limit or some batch did. */
    method ReconcileCycle(turns: seq<Turn>)
      returns (outcome: CycleOutcome, ghost picks: seq<Uuid>, ghost tail: seq<Event>)
      requires batchSize > 0 && |turns| == maxProducts + 1
      modifies reconciler`db
      ensures |picks| <= maxProducts && Distinct(picks)
      ensures reconciler.db == Run(old(reconciler.db), reconciler.cfg, PassEvents(turns, picks, batchSize) + tail)
      ensures PicksOk(old(reconciler.db), reconciler.cfg, turns, picks, batchSize)
      ensures var a, cfg, last := old(reconciler.db), reconciler.cfg, turns[|picks|];
              var searched := |picks| < maxProducts && !last.cancelled;
              && tail == (if searched then last.others else [])
              && (searched && !last.fault.BeforeSelection? ==> NothingEligible(reconciler.db, picks, last.locked))
              && (outcome.failed <==> || SomePassFailed(a, cfg, turns, picks, batchSize)
                                      || (searched && last.fault.BeforeSelection?))
              && (outcome.immediate <==>
                    if searched then !last.fault.BeforeSelection? && SomeWorkReported(a, cfg, turns, picks, batchSize)
                    else !last.cancelled)
      // Amid nothing but failures of single transactions: exactly the products with work have their turn, up to
      // the limit; each is serviced, or left as it was when its own transaction fails.
      ensures (forall t :: t in turns ==> Calm(t)) ==>
                var a, cfg := old(reconciler.db), reconciler.cfg;
                && CycleEffect(a, reconciler.db, cfg, batchSize, turns, picks)
                && (outcome.failed <==> exists k :: 0 <= k < |picks| && PickFails(a, turns, picks, k))
                && (|picks| == maxProducts ==> outcome.immediate)
                && (|picks| < maxProducts ==>
                      && (forall x :: x in a.products && HasWork(a.products[x], a.clock) ==> x in picks)
                      && (outcome.immediate <==>
                            exists k :: 0 <= k < |picks| && WorkRemains(a, cfg, turns, picks, batchSize, k)))
    {
      hide Calm, CycleEffect, HasWork, PicksOk, PickFails, WorkRemains, SomePassFailed, SomeWorkReported,
        ReconcileBatch, Queue.IsEligible, Run, TurnEvents, PassEvents;
      var cfg := reconciler.cfg;
      ghost var a := reconciler.db;
      var excluded: seq<Uuid> := [];
      var moreWork, failed := false, false;
      tail := [];
      picks := [];
      NothingPicked(a, cfg, turns, batchSize);
      var processed := 0;
      while processed < maxProducts && !turns[processed].cancelled
        invariant processed == |excluded| <= maxProducts && Distinct(excluded) && tail == []
        invariant reconciler.db == Run(a, cfg, PassEvents(turns, excluded, batchSize))
        invariant PicksOk(a, cfg, turns, excluded, batchSize)
        invariant failed <==> SomePassFailed(a, cfg, turns, excluded, batchSize)
        invariant moreWork <==> SomeWorkReported(a, cfg, turns, excluded, batchSize)
      {
        var turn := turns[processed];
        reconciler.db := Run(reconciler.db, cfg, turn.others);
        var selected, result :=
          reconciler.ReconcileNextProduct(batchSize, excluded, turn.locked, turn.elapsed, turn.fault);
        if selected.None? {
          tail, picks := turn.others, excluded;
          RunAppends(a, cfg, PassEvents(turns, excluded, batchSize), turn.others);
          if forall t :: t in turns ==> Calm(t) {
            CalmCycle(a, cfg, turns, picks, tail, batchSize);
          }
          return CycleOutcome(result.Ok? && moreWork, result.Err? || failed), picks, tail;
        }
        var x := selected.value;
        PickAdded(a, cfg, turns, excluded, x, batchSize);
        Passed(a, cfg, turns, excluded, x, batchSize);
        excluded := excluded + [x];
        if result.Err? {
          failed := true;
        } else {
          moreWork := moreWork || result.value.moreWork;
        }
        processed := processed + 1;
      }
      picks := excluded;
      assert PassEvents(turns, picks, batchSize) + tail == PassEvents(turns, picks, batchSize);
      if forall t :: t in turns ==> Calm(t) {
        CalmCycle(a, cfg, turns, picks, tail, batchSize);
      }
      outcome := CycleOutcome(!turns[processed].cancelled, failed);
    }
  }
}
