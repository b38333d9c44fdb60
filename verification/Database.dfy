/** The database and what each request does to it, committed or rolled back. */
module Database {
  import opened Wrappers
  import opened Domain
  import opened Reconciliation
  import opened Framing
  import Queue

  const PAYMENT_CLAIM_LEASE: int := 30_000_000_000
  const PAYMENT_RETRY_BACKOFF: int := 5_000_000_000

  datatype InboxStatus = Received | Processing | Retry | Completed | Rejected

  /** The response codes of the payment inbox. The first two answer a claim and are never stored. */
  datatype Code =
    | StillProcessing | EventConflict
    | Accepted | AlreadyAccepted | CompensationRequired
    | IgnoredPurchaseFinal | IgnoredTerminal | TransitionInvalid | AttemptUnknown

  function HttpStatus(code: Code): int {
    match code
    case StillProcessing => 202
    case EventConflict => 409
    case TransitionInvalid => 409
    case AttemptUnknown => 404
    case _ => 200
  }

  /** A row of payment_inbox. */
  datatype InboxRow = InboxRow(
    command: PaymentCommand, digest: Text, status: InboxStatus, nextAttemptAt: Time,
    leaseUntil: Option<Time>, token: Option<Uuid>, generation: int, response: Option<Code>)

  datatype EventKey = EventKey(provider: Text, event: Text)

  datatype Claim = Claim(inbox: Uuid, token: Uuid, generation: int, digest: Text, command: PaymentCommand)

  /** An outbox row of type payment.compensation_required; its deduplication key is the inbox id. */
  datatype Compensation = Compensation(inbox: Uuid, command: PaymentCommand, availableAt: Time)

  datatype PaymentResult = PaymentResult(inbox: Uuid, code: Code, httpStatus: int, replayed: bool)

  datatype ClaimResult = Claimed(claim: Claim) | Answered(response: PaymentResult)

  /** `home` is the primary key of queue_attempts, `accepted` the partial unique index on accepted payment
      references, `events` the unique key (provider, event_id). `losers` holds the claims whose purchase was
      refused by that index and which their worker is about to run again. */
  datatype Db = Db(
    clock: Time, products: map<Uuid, Product>, home: map<Uuid, Uuid>, accepted: map<PaymentRef, Uuid>,
    inbox: map<Uuid, InboxRow>, events: map<EventKey, Uuid>, compensations: seq<Compensation>, losers: set<Claim>)

  datatype Reply<T> = Reply(db: Db, result: Result<T>)

  function KeyOf(c: PaymentCommand): EventKey { EventKey(c.provider, c.event) }

  function RefOf(c: PaymentCommand): PaymentRef { PaymentRef(c.provider, c.reference) }

  // ---------------------------------------------------------------------------------------------
  // Queue requests
  // ---------------------------------------------------------------------------------------------

  function Put(db: Db, product: Uuid, p: Product): Db { db.(products := db.products[product := p]) }

  function Join(db: Db, cfg: Config, percent: int, product: Uuid, user: Name, key: Name, id: Uuid)
    : Reply<Queue.JoinResult>
  {
    if product !in db.products then Reply(db, Err(NotFound))
    else
      var o := Queue.Join(db.products[product], cfg, db.clock, percent, user, key, id, id in db.home);
      var stored := Put(db, product, o.product);
      Reply(if o.result.Ok? && o.result.value.created then stored.(home := db.home[id := product]) else stored,
            o.result)
  }

  function StartCheckout(db: Db, cfg: Config, id: Uuid, user: Name): Reply<Attempt> {
    if id !in db.home then Reply(db, Err(AttemptNotFound))
    else if db.home[id] !in db.products then Reply(db, Err(NotFound))
    else
      var o := Queue.StartCheckout(db.products[db.home[id]], cfg, db.clock, id, user);
      Reply(Put(db, db.home[id], o.product), o.result)
  }

  function Cancel(db: Db, cfg: Config, product: Uuid, user: Name): Reply<Attempt> {
    if product !in db.products then Reply(db, Err(NotFound))
    else
      var o := Queue.Cancel(db.products[product], cfg, db.clock, user);
      Reply(Put(db, product, o.product), o.result)
  }

  function FindCurrent(db: Db, cfg: Config, product: Uuid, user: Name): Reply<Queue.JoinResult> {
    if product !in db.products then Reply(db, Err(NotFound))
    else
      var o := Queue.FindCurrent(db.products[product], cfg, db.clock, user);
      Reply(Put(db, product, o.product), o.result)
  }

  function AdjustStock(db: Db, cfg: Config, c: AdjustmentCommand): Reply<Queue.AdjustmentResult> {
    if c.delta == 0 then Reply(db, Err(InvalidInput))
    else if c.product !in db.products then Reply(db, Err(NotFound))
    else
      var o := Queue.AdjustStock(db.products[c.product], cfg, db.clock, c.key, c.delta, AdjustmentDigest(c));
      Reply(Put(db, c.product, o.product), o.result)
  }

  /** One background batch on a selected product. */
  function ReconcileBatch(db: Db, cfg: Config, product: Uuid, limit: int): Reply<Queue.Progress> {
    if limit <= 0 then Reply(db, Err(InvalidInput))
    else if product !in db.products then Reply(db, Err(NotFound))
    else
      var o := Queue.ReconcileBatch(db.products[product], cfg, db.clock, limit);
      Reply(Put(db, product, o.product), o.result)
  }

  // ---------------------------------------------------------------------------------------------
  // Payment inbox
  // ---------------------------------------------------------------------------------------------

  predicate Finished(row: InboxRow) { row.status.Completed? || row.status.Rejected? }

  function Respond(id: Uuid, code: Code, replayed: bool): PaymentResult {
    PaymentResult(id, code, HttpStatus(code), replayed)
  }

  /** The stored row, unless the event is new; then a fresh row under `id`. */
  function NewRow(c: PaymentCommand, now: Time): InboxRow {
    InboxRow(c, PaymentDigest(c), Received, now, None, None, 0, None)
  }

  /** Whether a stored event may not be claimed now: someone holds a live lease, or its retry is not due. */
  predicate Busy(row: InboxRow, now: Time) {
    || (row.status.Processing? && row.leaseUntil.Some? && now < row.leaseUntil.value)
    || (row.status.Retry? && now < row.nextAttemptAt)
  }

  function TakeClaim(row: InboxRow, token: Uuid, now: Time): InboxRow {
    row.(status := Processing, token := Some(token), generation := row.generation + 1,
    leaseUntil := Some(now + PAYMENT_CLAIM_LEASE))
  }

  function ClaimPayment(db: Db, c: PaymentCommand, id: Uuid, token: Uuid): Reply<ClaimResult> {
    var k := KeyOf(c);
    if k !in db.events && id in db.inbox then Reply(db, Err(Conflict))
    else
      var known := k in db.events;
      var inbox := if known then db.events[k] else id;
      if known && inbox !in db.inbox then Reply(db, Err(NotFound))
      else
        var row := if known then db.inbox[inbox] else NewRow(c, db.clock);
        if row.digest != PaymentDigest(c) then Reply(db, Ok(Answered(Respond(inbox, EventConflict, false))))
        else if Finished(row) && row.response.Some? then
          Reply(db, Ok(Answered(Respond(inbox, row.response.value, true))))
        else if Busy(row, db.clock) then Reply(db, Ok(Answered(Respond(inbox, StillProcessing, false))))
        else
          Reply(db.(inbox := db.inbox[inbox := TakeClaim(row, token, db.clock)], events := db.events[k := inbox]),
                Ok(Claimed(Claim(inbox, token, row.generation + 1, PaymentDigest(c), c))))
  }

  /** The fence: only the holder of the current token and generation passes, and only with the command that
      is stored. */
  predicate Holds(db: Db, claim: Claim) {
    claim.inbox in db.inbox
    && var row := db.inbox[claim.inbox];
       row.status.Processing? && row.token == Some(claim.token) && row.generation == claim.generation
  }

  function Fence(db: Db, claim: Claim): Option<Error> {
    if claim.inbox !in db.inbox then Some(NotFound)
    else if !Holds(db, claim) then Some(StaleClaim)
    else if db.inbox[claim.inbox].digest != claim.digest then Some(PaymentClaimIntegrity)
    else if db.inbox[claim.inbox].command != claim.command then Some(PaymentClaimIntegrity)
    else None
  }

  function Closed(row: InboxRow, code: Code): InboxRow {
    row.(status := if HttpStatus(code) >= 400 then Rejected else Completed,
    response := Some(code), leaseUntil := None, token := None)
  }

  /** completePayment: stores the response under the fence. */
  function Complete(db: Db, claim: Claim, code: Code): Reply<PaymentResult> {
    if !Holds(db, claim) then Reply(db, Err(StaleClaim))
    else
      Reply(db.(inbox := db.inbox[claim.inbox := Closed(db.inbox[claim.inbox], code)]),
            Ok(Respond(claim.inbox, code, false)))
  }

  predicate Compensated(db: Db, id: Uuid) {
    exists k :: 0 <= k < |db.compensations| && db.compensations[k].inbox == id
  }

  /** completeWithCompensation: one outbox row per inbox id, whatever happens. */
  function Compensate(db: Db, claim: Claim): Reply<PaymentResult> {
    var rows := if Compensated(db, claim.inbox) then db.compensations
                else db.compensations + [Compensation(claim.inbox, claim.command, db.clock)];
    Complete(db.(compensations := rows), claim, CompensationRequired)
  }

  /** applySucceededPayment, on the settled product `q`. `seesOwner` is false when the look for another
      owner of the reference ran before that owner's purchase was committed. */
  function ApplySuccess(db: Db, cfg: Config, q: Product, i: nat, claim: Claim, seesOwner: bool): Reply<PaymentResult>
    requires i < |q.attempts|
  {
    var a, ref := q.attempts[i], RefOf(claim.command);
    var settled := Put(db, q.id, q);
    if a.state.Purchased? && a.accepted == Some(ref) then Complete(settled, claim, AlreadyAccepted)
    else if !a.state.Checkout? then Compensate(settled, claim)
    else if seesOwner && ref in db.accepted && db.accepted[ref] != a.id then Compensate(settled, claim)
    else if q.stock <= 0 || q.reserved <= 0 then Reply(db, Err(ReservedInvariant))
    else if ref in db.accepted then Reply(db.(losers := db.losers + {claim}), Err(ReferenceTaken))
    else
      var again := Reconcile(Queue.BuyRow(q, i, ref, db.clock), cfg, db.clock);
      if again.Err? then Reply(db, Err(again.error))
      else Complete(Put(db, q.id, again.value).(accepted := db.accepted[ref := a.id]), claim, Accepted)
  }

  function ApplyFailure(db: Db, cfg: Config, q: Product, i: nat, claim: Claim): Reply<PaymentResult>
    requires i < |q.attempts|
  {
    var settled := Put(db, q.id, q);
    match q.attempts[i].state
    case Checkout =>
      if q.reserved <= 0 then Reply(db, Err(ReservedInvariant))
      else
        var again := Reconcile(Queue.FailRow(q, i, db.clock), cfg, db.clock);
        if again.Err? then Reply(db, Err(again.error))
        else Complete(Put(db, q.id, again.value), claim, Accepted)
    case Purchased => Complete(settled, claim, IgnoredPurchaseFinal)
    case Waiting => Complete(settled, claim, TransitionInvalid)
    case Invited => Complete(settled, claim, TransitionInvalid)
    case _ => Complete(settled, claim, IgnoredTerminal)
  }

  /** A transaction that fails leaves the database as it was. Only the worker remembers a lost race. */
  function OrRollBack(db: Db, r: Reply<PaymentResult>): Reply<PaymentResult> {
    if r.result.Err? && r.result != Err(ReferenceTaken) then Reply(db, r.result) else r
  }

  /** processClaimForProduct: one transaction under the product lock. */
  function ProcessOnProduct(db: Db, cfg: Config, product: Uuid, claim: Claim, seesOwner: bool, force: bool)
    : Reply<PaymentResult>
  {
    if product !in db.products then Reply(db, Err(NotFound))
    else
      var fenced := Fence(db, claim);
      if fenced.Some? then Reply(db, Err(fenced.value))
      else
        var settled := Reconcile(db.products[product], cfg, db.clock);
        if settled.Err? then Reply(db, Err(settled.error))
        else
          var q := settled.value;
          var i := First(q.attempts, WithId(claim.command.attempt));
          if i == |q.attempts| || q.attempts[i].product != product || q.id != product then Reply(db, Err(StaleClaim))
          else if force then OrRollBack(db, Compensate(Put(db, product, q), claim))
          else if claim.command.outcome.Succeeded? then OrRollBack(db, ApplySuccess(db, cfg, q, i, claim, seesOwner))
          else OrRollBack(db, ApplyFailure(db, cfg, q, i, claim))
  }

  /** The first transaction of ProcessPaymentClaim. `seesAttempt` is false when the attempt was looked up
      before it existed. */
  function ProcessClaim(db: Db, cfg: Config, claim: Claim, seesAttempt: bool, seesOwner: bool): Reply<PaymentResult> {
    if PaymentDigest(claim.command) != claim.digest then Reply(db, Err(PaymentClaimIntegrity))
    else if claim.command.attempt !in db.home || !seesAttempt then
      var fenced := Fence(db, claim);
      if fenced.Some? then Reply(db, Err(fenced.value)) else Complete(db, claim, AttemptUnknown)
    else ProcessOnProduct(db, cfg, db.home[claim.command.attempt], claim, seesOwner, false)
  }

  /** The second transaction, run by a worker that lost the race on the unique index. */
  function ForceCompensation(db: Db, cfg: Config, claim: Claim): Reply<PaymentResult> {
    if claim !in db.losers || claim.command.attempt !in db.home then Reply(db, Err(ReferenceTaken))
    else ProcessOnProduct(db, cfg, db.home[claim.command.attempt], claim, true, true)
  }

  function RetryClaim(db: Db, claim: Claim): Reply<()> {
    if !Holds(db, claim) then Reply(db, Err(StaleClaim))
    else
      var row := db.inbox[claim.inbox];
      Reply(db.(inbox := db.inbox[claim.inbox :=
              row.(status := Retry, nextAttemptAt := db.clock + PAYMENT_RETRY_BACKOFF, leaseUntil := None,
                  token := None)]),
            Ok(()))
  }

  /** ProcessPaymentClaim: one transaction, and a second one with forced compensation when the first lost the
      race on the unique index. */
  function ProcessAndRerun(db: Db, cfg: Config, claim: Claim, seesAttempt: bool,
      seesOwner: bool): Reply<PaymentResult> {
    var first := ProcessClaim(db, cfg, claim, seesAttempt, seesOwner);
    if first.result == Err(ReferenceTaken) then ForceCompensation(first.db, cfg, claim) else first
  }

  /** Failures after which the claim is not put back. */
  predicate GivesUp(e: Error) { e.StaleClaim? || e.ReservedInvariant? || e.PaymentClaimIntegrity? }

  /** ProcessPayment, when nobody else commits in between: claim, process, and put the claim back on a failure. */
  function ProcessPayment(db: Db, cfg: Config, c: PaymentCommand, id: Uuid, token: Uuid, seesAttempt: bool,
      seesOwner: bool)
    : Reply<PaymentResult>
  {
    var claimed := ClaimPayment(db, c, id, token);
    match claimed.result
    case Err(error) => Reply(claimed.db, Err(error))
    case Ok(Answered(response)) => Reply(claimed.db, Ok(response))
    case Ok(Claimed(claim)) =>
      var processed := ProcessAndRerun(claimed.db, cfg, claim, seesAttempt, seesOwner);
      if processed.result.Ok? || GivesUp(processed.result.error) then processed
      else Reply(RetryClaim(processed.db, claim).db, processed.result)
  }
}
