/** Whole runs: any interleaving of requests, background batches, payment workers and clock ticks. */
module Runs {
  import opened Wrappers
  import opened Domain
  import opened Reconciliation
  import opened QueueInvariants
  import opened QueueSafety
  import opened Framing
  import opened Database
  import opened DatabaseInvariants
  import opened DatabaseSafety
  import opened PaymentSafety
  import Queue

  /** One committed or rolled-back step. Claims, ids, tokens and buffer percentages are arbitrary: a worker
      may hold a claim for as long as it likes, and may hold one it was never given. */
  datatype Event =
    | Tick(elapsed: nat)
    | JoinRequest(percent: int, product: Uuid, user: Name, key: Name, id: Uuid)
    | CheckoutRequest(attempt: Uuid, user: Name)
    | CancelRequest(product: Uuid, user: Name)
    | StatusRequest(product: Uuid, user: Name)
    | StockRequest(adjustment: AdjustmentCommand)
    | BackgroundBatch(product: Uuid, limit: int)
    | PaymentClaimed(payment: PaymentCommand, inbox: Uuid, token: Uuid)
    | PaymentProcessed(claim: Claim, seesAttempt: bool, seesOwner: bool)
    | PaymentRerun(claim: Claim)
    | PaymentRetried(claim: Claim)

  function Apply(db: Db, cfg: Config, e: Event): Db {
    match e
    case Tick(elapsed) => db.(clock := db.clock + elapsed)
    case JoinRequest(percent, product, user, key, id) => Join(db, cfg, percent, product, user, key, id).db
    case CheckoutRequest(attempt, user) => StartCheckout(db, cfg, attempt, user).db
    case CancelRequest(product, user) => Cancel(db, cfg, product, user).db
    case StatusRequest(product, user) => FindCurrent(db, cfg, product, user).db
    case StockRequest(adjustment) => AdjustStock(db, cfg, adjustment).db
    case BackgroundBatch(product, limit) => ReconcileBatch(db, cfg, product, limit).db
    case PaymentClaimed(payment, inbox, token) => ClaimPayment(db, payment, inbox, token).db
    case PaymentProcessed(claim, seesAttempt, seesOwner) => ProcessClaim(db, cfg, claim, seesAttempt, seesOwner).db
    case PaymentRerun(claim) => ForceCompensation(db, cfg, claim).db
    case PaymentRetried(claim) => RetryClaim(db, claim).db
  }

  function Run(db: Db, cfg: Config, events: seq<Event>): Db
    decreases |events|
  {
    if |events| == 0 then db else Run(Apply(db, cfg, events[0]), cfg, events[1..])
  }

  /** A shop before its first request: products with stock and nobody in line. */
  ghost predicate Fresh(db: Db) {
    && (forall x :: x in db.products ==>
          var p := db.products[x];
          p.id == x && 0 <= p.stock <= MAX_INT32 && p.reserved == 0 && p.nextSequence == 1
          && p.attempts == [] && p.invitations == [] && p.adjustments == [])
    && db.home == map[] && db.accepted == map[] && db.inbox == map[] && db.events == map[]
    && db.compensations == [] && db.losers == {}
  }

  // ---------------------------------------------------------------------------------------------
  // The invariant over runs
  // ---------------------------------------------------------------------------------------------

  lemma FreshIsSound(db: Db)
    requires Fresh(db)
    ensures DbOk(db)
  {
    forall x | x in db.products ensures ProductOk(db.products[x], db.clock) {
      var p := db.products[x];
      assert ReservedOk(p) && HistoryOk(p, db.clock);
    }
    assert InboxOk(db);
  }

  lemma TickKeepsDb(db: Db, elapsed: nat)
    requires DbOk(db)
    ensures var e := db.(clock := db.clock + elapsed); DbOk(e) && DbEvolves(db, e)
  {
    var e := db.(clock := db.clock + elapsed);
    hide ProductOk, InboxOk, HomesOk, SalesOk, Evolves, RowEvolves;
    forall x | x in e.products ensures e.products[x].id == x && ProductOk(e.products[x], e.clock) {
      ProductOkLater(db.products[x], db.clock, e.clock);
    }
    SameInbox(db, e);
    TickKeepsShelves(db, e);
    forall x | x in db.products ensures Evolves(db.products[x], e.products[x]) {
      Standing(db.products[x]);
    }
    forall i | i in db.inbox ensures RowEvolves(db.inbox[i], e.inbox[i]) {
      RowStands(db.inbox[i]);
    }
  }

  lemma TickKeepsShelves(db: Db, e: Db)
    requires HomesOk(db) && SalesOk(db) && e == db.(clock := e.clock)
    ensures HomesOk(e) && SalesOk(e)
  {
    hide Has;
    forall ref | ref in e.accepted ensures SoldUnder(e, e.accepted[ref], ref) {
      assert SoldUnder(db, db.accepted[ref], ref);
    }
  }

  lemma ApplyKeepsDb(db: Db, cfg: Config, e: Event)
    requires DbOk(db)
    ensures DbOk(Apply(db, cfg, e)) && DbEvolves(db, Apply(db, cfg, e))
  {
    hide DbOk, DbEvolves, Join, StartCheckout, Cancel, FindCurrent, AdjustStock, ReconcileBatch, ClaimPayment,
      ProcessClaim, ForceCompensation, RetryClaim;
    match e
    case Tick(elapsed) => TickKeepsDb(db, elapsed);
    case JoinRequest(percent, product, user, key, id) => JoinKeepsDb(db, cfg, percent, product, user, key, id);
    case CheckoutRequest(attempt, user) => QueueRequestsKeepDb(db, cfg, [], attempt, user, 0);
    case CancelRequest(product, user) => QueueRequestsKeepDb(db, cfg, product, [], user, 0);
    case StatusRequest(product, user) => QueueRequestsKeepDb(db, cfg, product, [], user, 0);
    case StockRequest(adjustment) => AdjustStockKeepsDb(db, cfg, adjustment);
    case BackgroundBatch(product, limit) => QueueRequestsKeepDb(db, cfg, product, [], [1], limit);
    case PaymentClaimed(payment, inbox, token) => ClaimKeepsDb(db, payment, inbox, token);
    case PaymentProcessed(claim, seesAttempt, seesOwner) => ProcessClaimIsSound(db, cfg, claim, seesAttempt, seesOwner);
    case PaymentRerun(claim) => ForceCompensationIsSound(db, cfg, claim);
    case PaymentRetried(claim) => RetryKeepsDb(db, claim);
  }

  /** Every run keeps the invariant, and any later moment of a run is an evolution of any earlier one. */
  lemma {:induction false} RunKeepsDb(db: Db, cfg: Config, events: seq<Event>)
    requires DbOk(db)
    ensures DbOk(Run(db, cfg, events)) && DbEvolves(db, Run(db, cfg, events))
    decreases |events|
  {
    hide DbOk, DbEvolves, Apply;
    if |events| == 0 {
      DbStands(db);
    } else {
      var next := Apply(db, cfg, events[0]);
      ApplyKeepsDb(db, cfg, events[0]);
      RunKeepsDb(next, cfg, events[1..]);
      DbEvolvesTransitively(db, next, Run(db, cfg, events));
    }
  }

  /** A moment is a state reached by some run of some shop that started fresh. */
  ghost predicate Moment(db: Db, cfg: Config) {
    exists start, events :: Fresh(start) && db == Run(start, cfg, events)
  }

  lemma MomentIsSound(db: Db, cfg: Config)
    requires Moment(db, cfg)
    ensures DbOk(db)
  {
    var start, events :| Fresh(start) && db == Run(start, cfg, events);
    FreshIsSound(start);
    RunKeepsDb(start, cfg, events);
  }

  lemma {:induction false} RunAppends(db: Db, cfg: Config, first: seq<Event>, second: seq<Event>)
    ensures Run(Run(db, cfg, first), cfg, second) == Run(db, cfg, first + second)
    decreases |first|
  {
    hide Apply;
    if |first| == 0 {
      assert first + second == second;
    } else {
      assert (first + second)[0] == first[0] && (first + second)[1..] == first[1..] + second;
      RunAppends(Apply(db, cfg, first[0]), cfg, first[1..], second);
    }
  }

  lemma OneEvent(db: Db, cfg: Config, e: Event)
    ensures Run(db, cfg, [e]) == Apply(db, cfg, e)
  {
    hide Apply;
    assert [e][1..] == [];
  }

  lemma FreshIsMoment(db: Db, cfg: Config)
    requires Fresh(db)
    ensures Moment(db, cfg)
  {
    assert db == Run(db, cfg, []);
  }

  /** Every event leads from a moment to a moment. */
  lemma MomentGoesOn(db: Db, cfg: Config, e: Event)
    requires Moment(db, cfg)
    ensures Moment(Apply(db, cfg, e), cfg)
  {
    hide Fresh, Apply;
    var start, events :| Fresh(start) && db == Run(start, cfg, events);
    RunAppends(start, cfg, events, [e]);
    OneEvent(db, cfg, e);
    assert Apply(db, cfg, e) == Run(start, cfg, events + [e]);
  }

  // ---------------------------------------------------------------------------------------------
  // Inventory
  // ---------------------------------------------------------------------------------------------

  /** Nothing is oversold: in every run the reservation counter is the number of rights that are out, it
      never exceeds the stock, and every unit is on hand, sold, or was taken by an applied adjustment. */
  lemma NothingIsOversold(start: Db, cfg: Config, events: seq<Event>, x: Uuid)
    requires Fresh(start) && x in start.products
    ensures x in Run(start, cfg, events).products
    ensures var p := Run(start, cfg, events).products[x];
            && p.reserved == Count(p.attempts, Reserving) && 0 <= p.reserved <= p.stock <= MAX_INT32
            && p.stock + Count(p.attempts, Sold) == start.products[x].stock + AppliedDeltas(p.adjustments)
  {
    FreshIsSound(start);
    RunKeepsDb(start, cfg, events);
    var db := Run(start, cfg, events);
    SameShop(start, db, x);
    StoredProductOk(db, x);
    assert InventoryOk(db.products[x]) && Ledger(db.products[x]) == Ledger(start.products[x]);
  }

  lemma SameShop(a: Db, b: Db, x: Uuid)
    requires DbEvolves(a, b) && x in a.products
    ensures x in b.products && Evolves(a.products[x], b.products[x])
  {
    hide Evolves, RowEvolves;
    assert x in a.products.Keys && x in b.products.Keys;
  }
}
