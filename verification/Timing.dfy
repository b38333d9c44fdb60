/** Rights last exactly as long as configured: in every run an invitation ends the invitation time after it
    was given, a checkout the checkout time after it started. */
module Timing {
  import opened Wrappers
  import opened Domain
  import opened Reconciliation
  import opened Framing
  import opened Database
  import opened Runs
  import Queue

  predicate RightsTimed(a: Attempt, cfg: Config) {
    && (if a.invitedAt.Some? then a.invitationDeadline == Some(a.invitedAt.value + cfg.invitationTTL)
        else a.invitationDeadline.None?)
    && (if a.checkoutStartedAt.Some? then a.checkoutDeadline == Some(a.checkoutStartedAt.value + cfg.checkoutTTL)
        else a.checkoutDeadline.None?)
  }

  predicate Timed(p: Product, cfg: Config) { forall i :: 0 <= i < |p.attempts| ==> RightsTimed(p.attempts[i], cfg) }

  ghost predicate AllTimed(db: Db, cfg: Config) { forall x :: x in db.products ==> Timed(db.products[x], cfg) }

  // ---------------------------------------------------------------------------------------------
  // One product
  // ---------------------------------------------------------------------------------------------

  lemma StepKeepsTimes(p: Product, cfg: Config, now: Time)
    requires HasWork(p, now) && Timed(p, cfg)
    ensures Timed(Step(p, cfg, now), cfg)
  {
    WorkHasNextRow(p, now);
    hide NextRow, HasWork;
  }

  lemma {:induction false} IterateKeepsTimes(p: Product, cfg: Config, now: Time, n: nat)
    requires Timed(p, cfg)
    ensures Timed(Iterate(p, cfg, now, n), cfg)
    decreases n
  {
    hide Step, HasWork, Timed;
    if n > 0 && HasWork(p, now) {
      StepKeepsTimes(p, cfg, now);
      IterateKeepsTimes(Step(p, cfg, now), cfg, now, n - 1);
    }
  }

  lemma ReconcileKeepsTimes(p: Product, cfg: Config, now: Time)
    requires Timed(p, cfg)
    ensures Reconcile(p, cfg, now).Ok? ==> Timed(Reconcile(p, cfg, now).value, cfg)
  {
    IterateKeepsTimes(p, cfg, now, Unbounded(p));
  }

  lemma AdmitKeepsTimes(before: Product, p: Product, cfg: Config, now: Time, percent: int, user: Name, key: Name,
      id: Uuid, taken: bool)
    requires Timed(before, cfg) && Timed(p, cfg)
    ensures Timed(Queue.Admit(before, p, cfg, now, percent, user, key, id, taken).product, cfg)
  {
    ReconcileKeepsTimes(p, cfg, now);
    hide Iterate, ReservedOk, First, Count;
  }

  lemma JoinKeepsTimes(p: Product, cfg: Config, now: Time, percent: int, user: Name, key: Name, id: Uuid, taken: bool)
    requires Timed(p, cfg)
    ensures Timed(Queue.Join(p, cfg, now, percent, user, key, id, taken).product, cfg)
  {
    hide Timed, Reconcile, First, Queue.Admit, IsEffectiveAt;
    ReconcileKeepsTimes(p, cfg, now);
    AdmitKeepsTimes(p, p, cfg, now, percent, user, key, id, taken);
    if Reconcile(p, cfg, now).Ok? {
      AdmitKeepsTimes(p, Reconcile(p, cfg, now).value, cfg, now, percent, user, key, id, taken);
    }
  }

  /** A purchase, failure or cancellation leaves the recorded rights alone. */
  lemma EndedRowKeepsTimes(p: Product, i: nat, q: Product, cfg: Config)
    requires Timed(p, cfg) && i < |p.attempts| == |q.attempts| && q.attempts == p.attempts[i := q.attempts[i]]
    requires q.attempts[i].invitedAt == p.attempts[i].invitedAt && q.attempts[i].invitationDeadline
        == p.attempts[i].invitationDeadline
    requires q.attempts[i].checkoutStartedAt == p.attempts[i].checkoutStartedAt
    requires q.attempts[i].checkoutDeadline == p.attempts[i].checkoutDeadline
    ensures Timed(q, cfg)
  {
  }

  lemma StartCheckoutKeepsTimes(p: Product, cfg: Config, now: Time, id: Uuid, user: Name)
    requires Timed(p, cfg)
    ensures Timed(Queue.StartCheckout(p, cfg, now, id, user).product, cfg)
  {
    ReconcileKeepsTimes(p, cfg, now);
    hide Iterate, ReservedOk, First;
  }

  lemma CancelKeepsTimes(p: Product, cfg: Config, now: Time, user: Name)
    requires Timed(p, cfg)
    ensures Timed(Queue.Cancel(p, cfg, now, user).product, cfg)
  {
    hide Timed, Reconcile, Last;
    ReconcileKeepsTimes(p, cfg, now);
    if Reconcile(p, cfg, now).Ok? {
      var q := Reconcile(p, cfg, now).value;
      var i := Last(q.attempts, OwnedBy(user));
      if i < |q.attempts| {
        EndedRowKeepsTimes(q, i, Queue.CancelRow(q, i, now), cfg);
        ReconcileKeepsTimes(Queue.CancelRow(q, i, now), cfg, now);
      }
    }
  }

  lemma FindCurrentKeepsTimes(p: Product, cfg: Config, now: Time, user: Name)
    requires Timed(p, cfg)
    ensures Timed(Queue.FindCurrent(p, cfg, now, user).product, cfg)
  {
    hide Timed, Reconcile, First, Last;
    ReconcileKeepsTimes(p, cfg, now);
  }

  lemma AdjustStockKeepsTimes(p: Product, cfg: Config, now: Time, key: Name, delta: int, digest: Text)
    requires Timed(p, cfg)
    ensures Timed(Queue.AdjustStock(p, cfg, now, key, delta, digest).product, cfg)
  {
    ReconcileKeepsTimes(p.(stock := p.stock + delta), cfg, now);
    hide Iterate, ReservedOk, Queue.FindAdjustment, RightsTimed;
  }

  // ---------------------------------------------------------------------------------------------
  // The database
  // ---------------------------------------------------------------------------------------------

  lemma PutKeepsTimes(db: Db, cfg: Config, x: Uuid, q: Product)
    requires AllTimed(db, cfg) && Timed(q, cfg)
    ensures AllTimed(Put(db, x, q), cfg)
  {
    hide Timed;
  }

  lemma SameProductsSameTimes(db: Db, e: Db, cfg: Config)
    requires AllTimed(db, cfg) && e.products == db.products
    ensures AllTimed(e, cfg)
  {
    hide Timed;
  }

  lemma QueueEventKeepsTimes(db: Db, cfg: Config, e: Event)
    requires AllTimed(db, cfg)
    requires e.JoinRequest? || e.CheckoutRequest? || e.CancelRequest? || e.StatusRequest? || e.StockRequest?
        || e.BackgroundBatch?
    ensures AllTimed(Apply(db, cfg, e), cfg)
  {
    hide AllTimed, Timed, Queue.Join, Queue.StartCheckout, Queue.Cancel, Queue.FindCurrent, Queue.AdjustStock,
        Iterate, AdjustmentDigest;
    match e
    case JoinRequest(percent, x, user, key, id) =>
      if x in db.products {
        var p, taken := db.products[x], id in db.home;
        JoinKeepsTimes(p, cfg, db.clock, percent, user, key, id, taken) by { TimedProduct(db, cfg, x); }
        var q := Queue.Join(p, cfg, db.clock, percent, user, key, id, taken).product;
        PutKeepsTimes(db, cfg, x, q);
        SameProductsSameTimes(Put(db, x, q), Apply(db, cfg, e), cfg);
      }
    case CheckoutRequest(id, user) =>
      if id in db.home && db.home[id] in db.products {
        TimedProduct(db, cfg, db.home[id]);
        StartCheckoutKeepsTimes(db.products[db.home[id]], cfg, db.clock, id, user);
        PutKeepsTimes(db, cfg, db.home[id],
            Queue.StartCheckout(db.products[db.home[id]], cfg, db.clock, id, user).product);
      }
    case CancelRequest(x, user) =>
      if x in db.products {
        TimedProduct(db, cfg, x);
        CancelKeepsTimes(db.products[x], cfg, db.clock, user);
        PutKeepsTimes(db, cfg, x, Queue.Cancel(db.products[x], cfg, db.clock, user).product);
      }
    case StatusRequest(x, user) =>
      if x in db.products {
        TimedProduct(db, cfg, x);
        FindCurrentKeepsTimes(db.products[x], cfg, db.clock, user);
        PutKeepsTimes(db, cfg, x, Queue.FindCurrent(db.products[x], cfg, db.clock, user).product);
      }
    case StockRequest(c) =>
      if c.product in db.products {
        TimedProduct(db, cfg, c.product);
        AdjustStockKeepsTimes(db.products[c.product], cfg, db.clock, c.key, c.delta, AdjustmentDigest(c));
        PutKeepsTimes(db, cfg, c.product,
                      Queue.AdjustStock(db.products[c.product], cfg, db.clock, c.key, c.delta,
                          AdjustmentDigest(c)).product);
      }
    case BackgroundBatch(x, limit) =>
      if x in db.products && limit > 0 {
        TimedProduct(db, cfg, x);
        IterateKeepsTimes(db.products[x], cfg, db.clock, limit);
        PutKeepsTimes(db, cfg, x, Queue.ReconcileBatch(db.products[x], cfg, db.clock, limit).product);
      }
  }

  lemma TimedProduct(db: Db, cfg: Config, x: Uuid)
    requires AllTimed(db, cfg) && x in db.products
    ensures Timed(db.products[x], cfg)
  {
  }

  lemma CompletionKeepsTimes(db: Db, cfg: Config, claim: Claim, code: Code)
    requires AllTimed(db, cfg)
    ensures AllTimed(Complete(db, claim, code).db, cfg) && AllTimed(Compensate(db, claim).db, cfg)
  {
    SameProductsSameTimes(db, Complete(db, claim, code).db, cfg);
    SameProductsSameTimes(db, Compensate(db, claim).db, cfg);
  }

  lemma PurchaseKeepsTimes(db: Db, cfg: Config, q: Product, i: nat, claim: Claim, seesOwner: bool)
    requires AllTimed(db, cfg) && Timed(q, cfg) && i < |q.attempts|
    ensures AllTimed(ApplySuccess(db, cfg, q, i, claim, seesOwner).db, cfg)
  {
    var bought := Queue.BuyRow(q, i, RefOf(claim.command), db.clock);
    EndedRowKeepsTimes(q, i, bought, cfg);
    hide Timed, AllTimed, Reconcile, Complete, Compensate;
    ReconcileKeepsTimes(bought, cfg, db.clock);
    PutKeepsTimes(db, cfg, q.id, q);
    CompletionKeepsTimes(Put(db, q.id, q), cfg, claim, AlreadyAccepted);
    SameProductsSameTimes(db, db.(losers := db.losers + {claim}), cfg);
    var again := Reconcile(bought, cfg, db.clock);
    if again.Ok? {
      var stored := Put(db, q.id, again.value);
      PutKeepsTimes(db, cfg, q.id, again.value);
      var sold := stored.(accepted := db.accepted[RefOf(claim.command) := q.attempts[i].id]);
      SameProductsSameTimes(stored, sold, cfg);
      CompletionKeepsTimes(sold, cfg, claim, Accepted);
    }
  }

  lemma FailureKeepsTimes(db: Db, cfg: Config, q: Product, i: nat, claim: Claim)
    requires AllTimed(db, cfg) && Timed(q, cfg) && i < |q.attempts|
    ensures AllTimed(ApplyFailure(db, cfg, q, i, claim).db, cfg)
  {
    var failed := Queue.FailRow(q, i, db.clock);
    EndedRowKeepsTimes(q, i, failed, cfg);
    hide Timed, AllTimed, Reconcile, Complete;
    ReconcileKeepsTimes(failed, cfg, db.clock);
    var settled := Put(db, q.id, q);
    PutKeepsTimes(db, cfg, q.id, q);
    CompletionKeepsTimes(settled, cfg, claim, IgnoredPurchaseFinal);
    CompletionKeepsTimes(settled, cfg, claim, TransitionInvalid);
    CompletionKeepsTimes(settled, cfg, claim, IgnoredTerminal);
    var again := Reconcile(failed, cfg, db.clock);
    if again.Ok? {
      PutKeepsTimes(db, cfg, q.id, again.value);
      CompletionKeepsTimes(Put(db, q.id, again.value), cfg, claim, Accepted);
    }
  }

  lemma TransactionKeepsTimes(db: Db, cfg: Config, x: Uuid, claim: Claim, seesOwner: bool, force: bool)
    requires AllTimed(db, cfg)
    ensures AllTimed(ProcessOnProduct(db, cfg, x, claim, seesOwner, force).db, cfg)
  {
    hide Timed, AllTimed, Reconcile, First, Fence, ApplySuccess, ApplyFailure, Compensate;
    if x in db.products {
      TimedProduct(db, cfg, x);
      ReconcileKeepsTimes(db.products[x], cfg, db.clock);
      var settled := Reconcile(db.products[x], cfg, db.clock);
      if settled.Ok? {
        var q := settled.value;
        var i := First(q.attempts, WithId(claim.command.attempt));
        PutKeepsTimes(db, cfg, x, q);
        CompletionKeepsTimes(Put(db, x, q), cfg, claim, Accepted);
        if i < |q.attempts| {
          PurchaseKeepsTimes(db, cfg, q, i, claim, seesOwner);
          FailureKeepsTimes(db, cfg, q, i, claim);
        }
      }
    }
  }

  lemma ApplyKeepsTimes(db: Db, cfg: Config, e: Event)
    requires AllTimed(db, cfg)
    ensures AllTimed(Apply(db, cfg, e), cfg)
  {
    match e
    case Tick(_) => SameProductsSameTimes(db, Apply(db, cfg, e), cfg);
    case PaymentClaimed(payment, inbox, token) =>
      hide PaymentDigest, Finished, Busy;
      SameProductsSameTimes(db, Apply(db, cfg, e), cfg);
    case PaymentProcessed(claim, seesAttempt, seesOwner) =>
      hide AllTimed, ProcessOnProduct, PaymentDigest, Fence;
      if claim.command.attempt in db.home {
        TransactionKeepsTimes(db, cfg, db.home[claim.command.attempt], claim, seesOwner, false);
      }
      SameProductsSameTimes(db, Complete(db, claim, AttemptUnknown).db, cfg);
    case PaymentRerun(claim) =>
      hide AllTimed, ProcessOnProduct;
      if claim.command.attempt in db.home {
        TransactionKeepsTimes(db, cfg, db.home[claim.command.attempt], claim, true, true);
      }
    case PaymentRetried(claim) => SameProductsSameTimes(db, Apply(db, cfg, e), cfg);
    case _ => QueueEventKeepsTimes(db, cfg, e);
  }

  lemma {:induction false} RunKeepsTimes(db: Db, cfg: Config, events: seq<Event>)
    requires AllTimed(db, cfg)
    ensures AllTimed(Run(db, cfg, events), cfg)
    decreases |events|
  {
    hide AllTimed, Apply;
    if |events| > 0 {
      ApplyKeepsTimes(db, cfg, events[0]);
      RunKeepsTimes(Apply(db, cfg, events[0]), cfg, events[1..]);
    }
  }

  /** At every moment, every invitation and every checkout ever granted ends exactly its configured time after
      it began. */
  lemma RightsLastAsConfigured(db: Db, cfg: Config, x: Uuid, i: nat)
    requires Moment(db, cfg) && x in db.products && i < |db.products[x].attempts|
    ensures var a := db.products[x].attempts[i];
            && (a.invitedAt.Some? ==> a.invitationDeadline == Some(a.invitedAt.value + cfg.invitationTTL))
            && (a.checkoutStartedAt.Some? ==> a.checkoutDeadline == Some(a.checkoutStartedAt.value + cfg.checkoutTTL))
  {
    var start, events :| Fresh(start) && db == Run(start, cfg, events);
    assert AllTimed(start, cfg);
    hide Run;
    RunKeepsTimes(start, cfg, events);
    assert Timed(db.products[x], cfg);
  }
}
