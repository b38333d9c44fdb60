/** What each queue request does to one product, as a function on its whole history.

    A request either commits a product value or rolls back; `Outcome.product` is what is stored afterwards.
    The imperative transactions in TransactionState.dfy are proved against these functions. */
module Queue {
  import opened Wrappers
  import opened Domain
  import opened Reconciliation

  datatype Outcome<T> = Outcome(product: Product, result: Result<T>)

  datatype JoinResult = JoinResult(attempt: Attempt, positionAhead: int, totalWaiting: int, created: bool)

  // ---------------------------------------------------------------------------------------------
  // Changes of one row made by requests
  // ---------------------------------------------------------------------------------------------

  function CheckoutRow(p: Product, i: nat, cfg: Config, now: Time): Product
    requires i < |p.attempts|
  {
    p.(attempts := p.attempts[i := EnterCheckout(p.attempts[i], now, cfg)])
  }

  function CancelRow(p: Product, i: nat, now: Time): Product
    requires i < |p.attempts|
  {
    p.(attempts := p.attempts[i := Finish(p.attempts[i], Cancelled, now)],
       reserved := p.reserved - (if Reserves(p.attempts[i].state) then 1 else 0))
  }

  function BuyRow(p: Product, i: nat, ref: PaymentRef, now: Time): Product
    requires i < |p.attempts|
  {
    p.(attempts := p.attempts[i := Purchase(p.attempts[i], ref, now)],
       stock := p.stock - 1, reserved := p.reserved - 1)
  }

  function FailRow(p: Product, i: nat, now: Time): Product
    requires i < |p.attempts|
  {
    p.(attempts := p.attempts[i := Finish(p.attempts[i], PaymentFailed, now)], reserved := p.reserved - 1)
  }

  function AppendRow(p: Product, a: Attempt): Product {
    p.(attempts := p.attempts + [a], nextSequence := p.nextSequence + 1,
       reserved := p.reserved + (if Reserves(a.state) then 1 else 0))
  }

  // ---------------------------------------------------------------------------------------------
  // Join
  // ---------------------------------------------------------------------------------------------

  function PositionAhead(p: Product, a: Attempt): nat {
    if a.state.Waiting? then Count(p.attempts, QueuedBefore(a.sequence)) else 0
  }

  function Answer(p: Product, i: nat, created: bool): JoinResult
    requires i < |p.attempts|
  {
    JoinResult(p.attempts[i], PositionAhead(p, p.attempts[i]), Count(p.attempts, Queued), created)
  }

  /** A new attempt goes straight to checkout when a unit is free, waits while the buffer has room, and is
      refused otherwise. `taken` says that the fresh id collides with a stored one (primary key). */
  function CreateAttempt(p: Product, cfg: Config, now: Time, percent: int, user: Name, key: Name, id: Uuid, taken: bool)
    : Result<Product>
  {
    var next := NextQueueSequence(p.nextSequence);
    if next.Err? then Err(next.error)
    else if p.reserved < p.stock then
      if taken then Err(Conflict)
      else Ok(AppendRow(p, NewCheckout(id, p.id, p.nextSequence, user, key, now, cfg)))
    else
      var capacity := WaitingCapacity(p.stock, percent);
      if capacity.Err? then Err(capacity.error)
      else if Count(p.attempts, Queued) >= capacity.value then Err(QueueFull)
      else if taken then Err(Conflict)
      else Ok(AppendRow(p, NewWaiting(id, p.id, p.nextSequence, user, key, now)))
  }

  /** The part of Join behind the lookups; `before` is what a rollback restores. */
  function Admit(before: Product, p: Product, cfg: Config, now: Time, percent: int, user: Name, key: Name,
      id: Uuid, taken: bool)
    : Outcome<JoinResult>
  {
    if !p.enabled then Outcome(p, Err(QueueDisabled))
    else
      var settled := Reconcile(p, cfg, now);
      if settled.Err? then Outcome(before, Err(settled.error))
      else if p.stock == 0 then Outcome(settled.value, Err(OutOfStock))
      else
        var created := CreateAttempt(settled.value, cfg, now, percent, user, key, id, taken);
        if created == Err(QueueFull) then Outcome(settled.value, Err(QueueFull))
        else if created.Err? then Outcome(before, Err(created.error))
        else Outcome(created.value, Ok(Answer(created.value, |settled.value.attempts|, true)))
  }

  function Join(p: Product, cfg: Config, now: Time, percent: int, user: Name, key: Name, id: Uuid, taken: bool)
    : Outcome<JoinResult>
  {
    var replay := First(p.attempts, ReplayOf(user, key));
    if replay < |p.attempts| then Outcome(p, Ok(Answer(p, replay, false)))
    else
      var active := First(p.attempts, ActiveOf(user));
      if active == |p.attempts| then Admit(p, p, cfg, now, percent, user, key, id, taken)
      else if IsEffectiveAt(p.attempts[active], now) then Outcome(p, Ok(Answer(p, active, false)))
      else
        var settled := Reconcile(p, cfg, now);
        if settled.Err? then Outcome(p, Err(settled.error))
        else
          var q := settled.value;
          var effective := First(q.attempts, ActiveOf(user));
          if effective < |q.attempts| then Outcome(q, Ok(Answer(q, effective, false)))
          else Admit(p, q, cfg, now, percent, user, key, id, taken)
  }

  // ---------------------------------------------------------------------------------------------
  // Checkout, cancellation, reading
  // ---------------------------------------------------------------------------------------------

  function StartCheckout(p: Product, cfg: Config, now: Time, id: Uuid, user: Name): Outcome<Attempt> {
    var settled := Reconcile(p, cfg, now);
    if settled.Err? then Outcome(p, Err(settled.error))
    else
      var q := settled.value;
      var i := First(q.attempts, WithId(id));
      if i == |q.attempts| || q.attempts[i].user != user then Outcome(q, Err(AttemptNotFound))
      else match q.attempts[i].state
        case Checkout => Outcome(q, Ok(q.attempts[i]))
        case Invited => Outcome(CheckoutRow(q, i, cfg, now), Ok(EnterCheckout(q.attempts[i], now, cfg)))
        case InviteExpired => Outcome(q, Err(AttemptGone))
        case CheckoutExpired => Outcome(q, Err(AttemptGone))
        case SoldOut => Outcome(q, Err(AttemptGone))
        case _ => Outcome(q, Err(InvalidTransition))
  }

  function Cancel(p: Product, cfg: Config, now: Time, user: Name): Outcome<Attempt> {
    var settled := Reconcile(p, cfg, now);
    if settled.Err? then Outcome(p, Err(settled.error))
    else
      var q := settled.value;
      var i := Last(q.attempts, OwnedBy(user));
      if i == |q.attempts| then Outcome(q, Err(AttemptNotFound))
      else if q.attempts[i].state.Purchased? then Outcome(q, Err(AlreadyPurchased))
      else if IsTerminal(q.attempts[i].state) then Outcome(q, Ok(q.attempts[i]))
      else
        var again := Reconcile(CancelRow(q, i, now), cfg, now);
        if again.Err? then Outcome(p, Err(again.error))
        else Outcome(again.value, Ok(Finish(q.attempts[i], Cancelled, now)))
  }

  function FindCurrent(p: Product, cfg: Config, now: Time, user: Name): Outcome<JoinResult> {
    var settled := Reconcile(p, cfg, now);
    if settled.Err? then Outcome(p, Err(settled.error))
    else
      var q := settled.value;
      var active, latest := First(q.attempts, ActiveOf(user)), Last(q.attempts, OwnedBy(user));
      if active < |q.attempts| then Outcome(q, Ok(Answer(q, active, false)))
      else if latest < |q.attempts| then Outcome(q, Ok(Answer(q, latest, false)))
      else Outcome(q, Err(AttemptNotFound))
  }

  // ---------------------------------------------------------------------------------------------
  // Stock adjustments
  // ---------------------------------------------------------------------------------------------

  /** The stored outcome of an adjustment; `replayed` marks an answer taken from the table. */
  datatype AdjustmentResult = AdjustmentResult(stockBefore: int, stockAfter: int, replayed: bool)

  function FindAdjustmentFrom(rows: seq<Adjustment>, key: Name, from: nat): (r: nat)
    requires from <= |rows|
    ensures from <= r <= |rows|
    ensures forall j :: from <= j < r ==> rows[j].key != key
    ensures r < |rows| ==> rows[r].key == key
    decreases |rows| - from
  {
    if from == |rows| || rows[from].key == key then from else FindAdjustmentFrom(rows, key, from + 1)
  }

  function FindAdjustment(rows: seq<Adjustment>, key: Name): (r: nat)
    ensures r <= |rows|
    ensures forall j :: 0 <= j < r ==> rows[j].key != key
    ensures r < |rows| ==> rows[r].key == key
  {
    FindAdjustmentFrom(rows, key, 0)
  }

  function StoredOutcome(row: Adjustment): Result<AdjustmentResult> {
    match row.rejection
    case Some(error) => Err(error)
    case None => Ok(AdjustmentResult(row.stockBefore, row.stockAfter, true))
  }

  /** Why an adjustment is refused, if it is: the checks of the source in their order. */
  function Refusal(p: Product, delta: int): Option<Error> {
    var after := p.stock + delta;
    if after < 0 then Some(StockBelowZero)
    else if after > MAX_INT32 then Some(StockOverflow)
    else if after < p.reserved then Some(StockBelowReserved)
    else None
  }

  function Record(p: Product, row: Adjustment): Product { p.(adjustments := p.adjustments + [row]) }

  function AdjustStock(p: Product, cfg: Config, now: Time, key: Name, delta: int, digest: Text)
    : Outcome<AdjustmentResult>
  {
    if delta == 0 then Outcome(p, Err(InvalidInput))
    else
      var i := FindAdjustment(p.adjustments, key);
      if i < |p.adjustments| then
        if p.adjustments[i].digest != digest then Outcome(p, Err(AdjustmentConflict))
        else Outcome(p, StoredOutcome(p.adjustments[i]))
      else
        var refusal := Refusal(p, delta);
        if refusal.Some? then
          Outcome(Record(p, Adjustment(key, delta, digest, 0, 0, refusal)), Err(refusal.value))
        else
          var settled := Reconcile(p.(stock := p.stock + delta), cfg, now);
          if settled.Err? then Outcome(p, Err(settled.error))
          else
            Outcome(Record(settled.value, Adjustment(key, delta, digest, p.stock, p.stock + delta, None)),
                    Ok(AdjustmentResult(p.stock, p.stock + delta, false)))
  }

  // ---------------------------------------------------------------------------------------------
  // Background reconciliation
  // ---------------------------------------------------------------------------------------------

  /** The condition under which the worker selects a product: the EXISTS clause of the selection query. */
  predicate IsEligible(p: Product, now: Time) {
    exists i :: 0 <= i < |p.attempts|
      && var a := p.attempts[i];
         || (a.state.Invited? && a.invitationDeadline.Some? && a.invitationDeadline.value <= now)
         || (a.state.Checkout? && a.checkoutDeadline.Some? && a.checkoutDeadline.value <= now)
         || (a.state.Waiting? && (p.stock == 0 || p.stock - p.reserved > 0))
  }

  datatype Progress = Progress(transitions: int, moreWork: bool)

  function ReconcileBatch(p: Product, cfg: Config, now: Time, limit: nat): Outcome<Progress> {
    if !ReservedOk(p) then Outcome(p, Err(ReservedInvariant))
    else
      var q := Iterate(p, cfg, now, limit);
      Outcome(q, Ok(Progress(Min(limit, Work(p, now)), HasWork(q, now))))
  }
}
