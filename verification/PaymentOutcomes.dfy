/** What a payment transaction achieves: its answer, the attempt's row, the product and everything else it leaves,
    told from the database before it. */
module PaymentOutcomes {
  import opened Wrappers
  import opened Domain
  import opened Reconciliation
  import opened QueueInvariants
  import opened QueueSafety
  import opened Framing
  import opened Database
  import opened DatabaseInvariants
  import opened DatabaseSafety
  import opened PaymentSafety
  import opened Runs
  import opened Guarantees
  import opened Outcomes
  import Queue

  // ---------------------------------------------------------------------------------------------
  // Vocabulary
  // ---------------------------------------------------------------------------------------------

  predicate Answers(r: Reply<PaymentResult>, claim: Claim, code: Code, status: int) {
    r.result == Ok(PaymentResult(claim.inbox, code, status, false))
  }

  /** `e` is `db` with the event of the claim closed under `code`: rejected when it can never be applied. */
  predicate ClosedAs(db: Db, e: Db, claim: Claim, code: Code) {
    var status := if code in {EventConflict, TransitionInvalid, AttemptUnknown} then Rejected else Completed;
    && claim.inbox in db.inbox
    && e == db.(inbox := db.inbox[claim.inbox :=
                  db.inbox[claim.inbox].(status := status, response := Some(code), leaseUntil := None, token := None)])
  }

  /** `b` is `a` bought under `ref`. */
  predicate BoughtAs(a: Attempt, b: Attempt, ref: PaymentRef, now: Time) {
    b == a.(state := Purchased, terminalAt := Some(now), purchasedAt := Some(now), terminalReason := Some(Purchased),
            accepted := Some(ref), updatedAt := now, version := a.version + 1)
  }

  /** The status that goes with each code: 202 while somebody else works on the event, an error for what can
      never be applied, and 200 for everything that was settled one way or the other. */
  lemma StatusOfCode(code: Code)
    ensures HttpStatus(code) == 202 <==> code.StillProcessing?
    ensures HttpStatus(code) == 409 <==> code.EventConflict? || code.TransitionInvalid?
    ensures HttpStatus(code) == 404 <==> code.AttemptUnknown?
    ensures HttpStatus(code) == 200
       <==> code in {Accepted, AlreadyAccepted, CompensationRequired, IgnoredPurchaseFinal, IgnoredTerminal}
  {
  }

  /** The row is in checkout and its right has not run out. */
  predicate InCheckout(a: Attempt, now: Time) { a.state.Checkout? && !Reached(a.checkoutDeadline, now) }

  /** The attempt of the claim is row `i` of product `x`. */
  predicate Concerns(db: Db, claim: Claim, x: Uuid, i: nat) {
    && x in db.products && i < |db.products[x].attempts|
    && db.products[x].attempts[i].id == claim.command.attempt
    && claim.command.attempt in db.home && db.home[claim.command.attempt] == x
  }

  /** Every attempt that is found when it is looked up is a row of the product it is looked up in. */
  lemma FoundAttemptIsARow(db: Db, cfg: Config, claim: Claim) returns (i: nat)
    requires Moment(db, cfg) && claim.command.attempt in db.home
    ensures Concerns(db, claim, db.home[claim.command.attempt], i)
  {
    hide Moment, DbOk, First;
    MomentIsSound(db, cfg);
    HomeHas(db, claim.command.attempt);
    var rows := db.products[db.home[claim.command.attempt]].attempts;
    i := First(rows, WithId(claim.command.attempt));
    FirstIs(rows, WithId(claim.command.attempt));
  }

  function WithProduct(db: Db, x: Uuid, q: Product): Db { db.(products := db.products[x := q]) }

  // ---------------------------------------------------------------------------------------------
  // Deliveries
  // ---------------------------------------------------------------------------------------------

  /** What a delivery is told and what it writes. A new event is stored and claimed by its first delivery. A
      stored one is a conflict under another command, is replayed once it is finished, is left alone while
      a lease is in force or a retry is not due, and is claimed under the next generation otherwise. */
  ghost predicate DeliverySpec(db: Db, c: PaymentCommand, id: Uuid, token: Uuid, r: Reply<ClaimResult>) {
    var k := KeyOf(c);
    if k !in db.events then
      if id in db.inbox then r == Reply(db, Err(Conflict)) else TakenBy(db, c, id, token, NewRow(c, db.clock), r)
    else
      && db.events[k] in db.inbox
      && var inbox, row := db.events[k], db.inbox[db.events[k]];
         if row.command != c then r == Reply(db, Ok(Answered(PaymentResult(inbox, EventConflict, 409, false))))
         else if row.response.Some? then
           r == Reply(db, Ok(Answered(PaymentResult(inbox, row.response.value, HttpStatus(row.response.value), true))))
         else if (row.token.Some? && !Reached(row.leaseUntil, db.clock))
                 || (row.status.Retry? && db.clock < row.nextAttemptAt) then
           r == Reply(db, Ok(Answered(PaymentResult(inbox, StillProcessing, 202, false))))
         else TakenBy(db, c, inbox, token, row, r)
  }

  /** The event is claimed: its row, which was `row`, is leased to the token for the time of a lease. */
  ghost predicate TakenBy(db: Db, c: PaymentCommand, inbox: Uuid, token: Uuid, row: InboxRow, r: Reply<ClaimResult>) {
    && r.result == Ok(Claimed(Claim(inbox, token, row.generation + 1, PaymentDigest(c), c)))
    && r.db == db.(events := db.events[KeyOf(c) := inbox],
                   inbox := db.inbox[inbox := InboxRow(c, PaymentDigest(c), Processing, row.nextAttemptAt,
                                                       Some(db.clock + PAYMENT_CLAIM_LEASE), Some(token),
                                                       row.generation + 1, None)])
  }

  lemma ClaimOutcome(db: Db, cfg: Config, c: PaymentCommand, id: Uuid, token: Uuid)
    requires Moment(db, cfg)
    ensures DeliverySpec(db, c, id, token, ClaimPayment(db, c, id, token))
  {
    hide Moment, DbOk, PaymentDigest, HttpStatus;
    MomentIsSound(db, cfg);
    StatusOfCode(EventConflict);
    StatusOfCode(StillProcessing);
    if KeyOf(c) in db.events {
      EventIsStored(db, c);
    }
  }

  // ---------------------------------------------------------------------------------------------
  // The settled row
  // ---------------------------------------------------------------------------------------------

  /** The product of a held claim, settled, and where its attempt is then. */
  lemma SettledFor(db: Db, cfg: Config, claim: Claim, x: Uuid, i: nat)
    requires DbOk(db) && Fence(db, claim).None? && Concerns(db, claim, x, i)
    ensures var p := db.products[x];
            var s := Settlement(p, cfg, db.clock);
            && ProductOk(p, db.clock) && p.id == x
            && Reconcile(p, cfg, db.clock) == Ok(s) && ProductOk(s, db.clock) && !HasWork(s, db.clock)
            && s.id == x && First(s.attempts, WithId(claim.command.attempt)) == i
            && s.attempts[i].id == claim.command.attempt && s.attempts[i].product == x
  {
    hide DbOk, ProductOk, Evolves, HasWork, Settlement, Fence;
    StoredProductOk(db, x);
    var p := db.products[x];
    SettlementIsSound(p, cfg, db.clock);
    IdsOf(Settlement(p, cfg, db.clock), db.clock);
    WithIdFinds(p, Settlement(p, cfg, db.clock), claim.command.attempt);
    assert SameIdentity(p.attempts[i], Settlement(p, cfg, db.clock).attempts[i]);
  }

  lemma SettledCheckout(p: Product, cfg: Config, now: Time, i: nat)
    requires i < |p.attempts|
    ensures var a, b := p.attempts[i], Settlement(p, cfg, now).attempts[i];
            && (b.state.Checkout? <==> InCheckout(a, now)) && (InCheckout(a, now) ==> b == a)
            && (b.state.Purchased? <==> a.state.Purchased?) && (a.state.Purchased? ==> b == a)
  {
    SettledRowsAreWritten(p, cfg, now, i);
    hide Settlement;
  }

  /** A claim that passes the fence has no compensation row yet and closes its event. */
  lemma HeldClosing(db: Db, claim: Claim, f: Db, code: Code)
    requires DbOk(db) && Fence(db, claim).None?
    requires f == db.(products := f.products, accepted := f.accepted)
    ensures !Compensated(f, claim.inbox) && Holds(f, claim)
    ensures Complete(f, claim, code).result == Ok(PaymentResult(claim.inbox, code, HttpStatus(code), false))
    ensures ClosedAs(f, Complete(f, claim, code).db, claim, code)
  {
    hide DbOk, Fence;
    FencePasses(db, claim);
    NothingOwedYet(db, claim.inbox);
  }

  lemma NothingOwedYet(db: Db, id: Uuid)
    requires DbOk(db) && id in db.inbox && db.inbox[id].response.None?
    ensures !Compensated(db, id)
  {
    assert CompensationsOk(db);
    hide ShelvesOk, RowsOk, ReceiptsOk, LosersOk;
    assert !AnsweredWith(db, id, CompensationRequired);
    CompensatedIsCounted(db.compensations, id);
  }

  // ---------------------------------------------------------------------------------------------
  // Payments that succeeded
  // ---------------------------------------------------------------------------------------------

  /** A payment in time under a free reference buys the attempt: the row ends purchased now, under that
      reference; the unit and its reservation are gone; whatever that makes due is done. A payment under the
      reference that bought the attempt is a repetition. One that an owner not seen in time forestalls is
      lost to the unique index. Every other payment is owed back, with one row for the finance worker. */
  ghost predicate SuccessSpec(db: Db, cfg: Config, claim: Claim, seesOwner: bool, x: Uuid, i: nat,
                              r: Reply<PaymentResult>)
    requires Concerns(db, claim, x, i)
  {
    var row, ref := db.products[x].attempts[i], RefOf(claim.command);
    var s := Settlement(db.products[x], cfg, db.clock);
    var buys := InCheckout(row, db.clock) && ref !in db.accepted;
    var repeats := row.state.Purchased? && row.accepted == Some(ref);
    var loses := InCheckout(row, db.clock) && ref in db.accepted && !seesOwner;
    && (Answers(r, claim, Accepted, 200) <==> buys)
    && (Answers(r, claim, AlreadyAccepted, 200) <==> repeats)
    && (r.result == Err(ReferenceTaken) <==> loses)
    && (Answers(r, claim, CompensationRequired, 200) <==> !buys && !repeats && !loses)
    && (buys ==> Bought(db, cfg, claim, x, i, s, r.db))
    && (repeats ==> ClosedAs(WithProduct(db, x, s), r.db, claim, AlreadyAccepted))
    && (loses ==> r.db == db.(losers := db.losers + {claim}))
    && (!buys && !repeats && !loses ==> OwedBack(db, claim, x, s, r.db))
  }

  /** The database after a purchase of row `i`, which was in checkout in the settled product `s`. */
  ghost predicate Bought(db: Db, cfg: Config, claim: Claim, x: Uuid, i: nat, s: Product, e: Db) {
    && x in e.products && i < |s.attempts|
    && var q, ref := e.products[x], RefOf(claim.command);
       && i < |q.attempts| && BoughtAs(s.attempts[i], q.attempts[i], ref, db.clock)
       && q == Settlement(Released(s, i, q.attempts[i], 1), cfg, db.clock)
       && q.stock == s.stock - 1 && !HasWork(q, db.clock)
       && ClosedAs(WithProduct(db, x, q).(accepted := db.accepted[ref := claim.command.attempt]), e,
                   claim, Accepted)
  }

  /** The database after the settled product was stored and the payment was written down for the finance worker. */
  ghost predicate OwedBack(db: Db, claim: Claim, x: Uuid, s: Product, e: Db) {
    ClosedAs(WithProduct(db, x, s).(compensations :=
               db.compensations + [Compensation(claim.inbox, claim.command, db.clock)]),
             e, claim, CompensationRequired)
  }

  /** The purchase itself, on the settled product. */
  lemma PurchaseOnProduct(p: Product, cfg: Config, now: Time, i: nat, ref: PaymentRef)
    requires ProductOk(p, now) && !HasWork(p, now) && i < |p.attempts| && p.attempts[i].state.Checkout?
    ensures var bought := Queue.BuyRow(p, i, ref, now);
            var q := Settlement(bought, cfg, now);
            && 0 < p.reserved <= p.stock && Reconcile(bought, cfg, now) == Ok(q) && |q.attempts| == |p.attempts|
            && BoughtAs(p.attempts[i], q.attempts[i], ref, now)
            && bought == Released(p, i, q.attempts[i], 1) && q.stock == p.stock - 1 && !HasWork(q, now)
  {
    hide ProductOk, Evolves, HasWork, Settlement, SettledAttempt, Reconcile;
    var bought := Queue.BuyRow(p, i, ref, now);
    SettledIsTimely(p, now, i);
    CountersOf(p, now);
    HeldIsCounted(p, i);
    PurchaseKeepsProduct(p, i, ref, now);
    SettlementIsSound(bought, cfg, now);
    EndedStays(bought, cfg, now, i);
  }

  /** A reference that is listed for a row means that the row is purchased. */
  lemma ListedRowIsBought(db: Db, claim: Claim, x: Uuid, i: nat, ref: PaymentRef)
    requires DbOk(db) && Concerns(db, claim, x, i) && ref in db.accepted && db.accepted[ref] == claim.command.attempt
    ensures db.products[x].attempts[i].state.Purchased?
  {
    hide DbOk, ProductOk, First;
    StoredProductOk(db, x);
    IdsOf(db.products[x], db.clock);
    WithIdFinds(db.products[x], db.products[x], claim.command.attempt);
    ListedIsPurchased(db, x, i, ref);
  }

  /** The branch that is taken, on the settled product. */
  lemma SuccessBranch(db: Db, cfg: Config, claim: Claim, seesOwner: bool, x: Uuid, i: nat, s: Product)
    requires DbOk(db) && Concerns(db, claim, x, i) && s.id == x && i < |s.attempts|
    requires s.attempts[i].id == claim.command.attempt
    requires InCheckout(db.products[x].attempts[i], db.clock) <==> s.attempts[i].state.Checkout?
    requires db.products[x].attempts[i].state.Purchased? ==> s.attempts[i] == db.products[x].attempts[i]
    requires s.attempts[i].state.Purchased? <==> db.products[x].attempts[i].state.Purchased?
    requires s.attempts[i].state.Checkout? ==> 0 < s.reserved <= s.stock
    ensures var row, ref := db.products[x].attempts[i], RefOf(claim.command);
            var r, again := ApplySuccess(db, cfg, s, i, claim, seesOwner),
                            Reconcile(Queue.BuyRow(s, i, ref, db.clock), cfg, db.clock);
            if row.state.Purchased? && row.accepted == Some(ref) then
              r == Complete(WithProduct(db, x, s), claim, AlreadyAccepted)
            else if !InCheckout(row, db.clock) || (ref in db.accepted && seesOwner) then
              r == Compensate(WithProduct(db, x, s), claim)
            else if ref in db.accepted then r == Reply(db.(losers := db.losers + {claim}), Err(ReferenceTaken))
            else again.Ok? ==>
              r == Complete(WithProduct(db, x, again.value).(accepted := db.accepted[ref := claim.command.attempt]),
                            claim, Accepted)
  {
    var ref := RefOf(claim.command);
    hide DbOk, Reconcile, Complete, Compensate, Queue.BuyRow, InCheckout;
    if InCheckout(db.products[x].attempts[i], db.clock) && ref in db.accepted && db.accepted[ref] == s.attempts[i].id {
      ListedRowIsBought(db, claim, x, i, ref);
      assert false;
    }
  }

  /** A purchase of a row that is in checkout in the settled product. */
  lemma PurchaseCloses(db: Db, cfg: Config, claim: Claim, x: Uuid, i: nat, s: Product)
    requires DbOk(db) && Fence(db, claim).None? && s.id == x
    requires ProductOk(s, db.clock) && !HasWork(s, db.clock) && i < |s.attempts| && s.attempts[i].state.Checkout?
    ensures var ref := RefOf(claim.command);
            var again := Reconcile(Queue.BuyRow(s, i, ref, db.clock), cfg, db.clock);
            && 0 < s.reserved <= s.stock && again.Ok?
            && var f := WithProduct(db, x, again.value).(accepted := db.accepted[ref := claim.command.attempt]);
               var r := Complete(f, claim, Accepted);
               Answers(r, claim, Accepted, 200) && Bought(db, cfg, claim, x, i, s, r.db)
  {
    hide DbOk, ProductOk, HasWork, Settlement, SettledAttempt, Reconcile, Fence, Complete, ClosedAs, BoughtAs,
      Released, Queue.BuyRow, HttpStatus;
    var ref := RefOf(claim.command);
    PurchaseOnProduct(s, cfg, db.clock, i, ref);
    var q := Settlement(Queue.BuyRow(s, i, ref, db.clock), cfg, db.clock);
    var f := WithProduct(db, x, q).(accepted := db.accepted[ref := claim.command.attempt]);
    StatusOfCode(Accepted);
    HeldClosing(db, claim, f, Accepted);
    ClosingKeepsProducts(f, claim, Accepted);
  }

  lemma SuccessOnProduct(db: Db, cfg: Config, claim: Claim, seesOwner: bool, x: Uuid, i: nat)
    requires DbOk(db) && Fence(db, claim).None? && Concerns(db, claim, x, i)
    ensures SuccessSpec(db, cfg, claim, seesOwner, x, i,
                        ApplySuccess(db, cfg, Settlement(db.products[x], cfg, db.clock), i, claim, seesOwner))
  {
    var p := db.products[x];
    var s := Settlement(p, cfg, db.clock);
    hide DbOk, ProductOk, HasWork, Settlement, SettledAttempt, Reconcile, Fence, Complete, Compensate, ClosedAs,
      First, Queue.BuyRow, InCheckout, ApplySuccess, Bought, OwedBack, SuccessSpec, Answers, WithProduct, RefOf,
      HttpStatus;
    SettledFor(db, cfg, claim, x, i);
    SettledCheckout(p, cfg, db.clock, i);
    if s.attempts[i].state.Checkout? {
      PurchaseCloses(db, cfg, claim, x, i, s);
    }
    SuccessBranch(db, cfg, claim, seesOwner, x, i, s);
    AnswerCloses(db, claim, x, s, AlreadyAccepted);
    StatusOfCode(AlreadyAccepted);
    OwingCloses(db, claim, x, s);
    SuccessAsSaid(db, cfg, claim, seesOwner, x, i, ApplySuccess(db, cfg, s, i, claim, seesOwner));
  }

  lemma AnswerCloses(db: Db, claim: Claim, x: Uuid, s: Product, code: Code)
    requires DbOk(db) && Fence(db, claim).None?
    ensures var r := Complete(WithProduct(db, x, s), claim, code);
            && Answers(r, claim, code, HttpStatus(code))
            && ClosedAs(WithProduct(db, x, s), r.db, claim, code)
  {
    hide DbOk, Fence, Complete, ClosedAs, HttpStatus;
    HeldClosing(db, claim, WithProduct(db, x, s), code);
  }

  lemma OwingCloses(db: Db, claim: Claim, x: Uuid, s: Product)
    requires DbOk(db) && Fence(db, claim).None?
    ensures var r := Compensate(WithProduct(db, x, s), claim);
            Answers(r, claim, CompensationRequired, 200) && OwedBack(db, claim, x, s, r.db)
  {
    hide DbOk, Fence;
    HeldClosing(db, claim, WithProduct(db, x, s), CompensationRequired);
  }

  /** Each case gives its own answer. */
  lemma SuccessAsSaid(db: Db, cfg: Config, claim: Claim, seesOwner: bool, x: Uuid, i: nat, r: Reply<PaymentResult>)
    requires Concerns(db, claim, x, i)
    requires var row, ref := db.products[x].attempts[i], RefOf(claim.command);
             var s := Settlement(db.products[x], cfg, db.clock);
             if row.state.Purchased? && row.accepted == Some(ref) then
               Answers(r, claim, AlreadyAccepted, 200) && ClosedAs(WithProduct(db, x, s), r.db, claim, AlreadyAccepted)
             else if !InCheckout(row, db.clock) || (ref in db.accepted && seesOwner) then
               Answers(r, claim, CompensationRequired, 200) && OwedBack(db, claim, x, s, r.db)
             else if ref in db.accepted then r == Reply(db.(losers := db.losers + {claim}), Err(ReferenceTaken))
             else Answers(r, claim, Accepted, 200) && Bought(db, cfg, claim, x, i, s, r.db)
    ensures SuccessSpec(db, cfg, claim, seesOwner, x, i, r)
  {
    hide Settlement, ClosedAs, OwedBack, Bought;
  }

  lemma ClosingKeepsProducts(f: Db, claim: Claim, code: Code)
    ensures Complete(f, claim, code).db.products == f.products
  {
  }

  /** The regular transaction of a successful payment, at every moment. */
  lemma SuccessOutcome(db: Db, cfg: Config, claim: Claim, seesOwner: bool) returns (x: Uuid, i: nat)
    requires Moment(db, cfg) && Fence(db, claim).None?
    requires claim.command.attempt in db.home && claim.command.outcome.Succeeded?
    ensures Concerns(db, claim, x, i)
    ensures SuccessSpec(db, cfg, claim, seesOwner, x, i, ProcessClaim(db, cfg, claim, true, seesOwner))
  {
    hide Moment, DbOk, ProductOk, HasWork, Settlement, SettledAttempt, Reconcile, Fence, First, ApplySuccess,
      SuccessSpec, PaymentDigest;
    MomentIsSound(db, cfg);
    x := db.home[claim.command.attempt];
    i := FoundAttemptIsARow(db, cfg, claim);
    FenceIsHonest(db, claim);
    SettledFor(db, cfg, claim, x, i);
    SuccessOnProduct(db, cfg, claim, seesOwner, x, i);
    SuccessNeverRollsBack(db, cfg, claim, seesOwner, x, i,
                          ApplySuccess(db, cfg, Settlement(db.products[x], cfg, db.clock), i, claim, seesOwner));
  }

  lemma SuccessNeverRollsBack(db: Db, cfg: Config, claim: Claim, seesOwner: bool, x: Uuid, i: nat,
                              r: Reply<PaymentResult>)
    requires Concerns(db, claim, x, i) && SuccessSpec(db, cfg, claim, seesOwner, x, i, r)
    ensures OrRollBack(db, r) == r
  {
    hide InCheckout, HasWork, Settlement, SettledAttempt, ClosedAs, BoughtAs;
  }

  // ---------------------------------------------------------------------------------------------
  // Payments that failed
  // ---------------------------------------------------------------------------------------------

  /** A failed payment ends a checkout in force and passes its unit on; it leaves every other attempt as
      settled and says why. */
  ghost predicate FailureSpec(db: Db, cfg: Config, claim: Claim, x: Uuid, i: nat, r: Reply<PaymentResult>)
    requires Concerns(db, claim, x, i)
  {
    var s := Settlement(db.products[x], cfg, db.clock);
    var a, fails := s.attempts[i], InCheckout(db.products[x].attempts[i], db.clock);
    && (Answers(r, claim, Accepted, 200) <==> fails)
    && (Answers(r, claim, IgnoredPurchaseFinal, 200) <==> a.state.Purchased?)
    && (Answers(r, claim, TransitionInvalid, 409) <==> a.state.Waiting? || a.state.Invited?)
    && (Answers(r, claim, IgnoredTerminal, 200) <==> !IsActive(a.state) && !a.state.Purchased?)
    && (fails ==> Freed(db, cfg, claim, x, i, s, r.db))
    && (a.state.Purchased? ==> ClosedAs(WithProduct(db, x, s), r.db, claim, IgnoredPurchaseFinal))
    && (a.state.Waiting? || a.state.Invited? ==> ClosedAs(WithProduct(db, x, s), r.db, claim, TransitionInvalid))
    && (!IsActive(a.state) && !a.state.Purchased? ==>
          ClosedAs(WithProduct(db, x, s), r.db, claim, IgnoredTerminal))
  }

  /** The database after the payment for row `i`, which was in checkout in the settled product `s`, has failed. */
  ghost predicate Freed(db: Db, cfg: Config, claim: Claim, x: Uuid, i: nat, s: Product, e: Db) {
    && x in e.products && i < |s.attempts|
    && var q := e.products[x];
       && i < |q.attempts| && EndsAs(s.attempts[i], q.attempts[i], PaymentFailed, db.clock)
       && q == Settlement(Released(s, i, q.attempts[i], 0), cfg, db.clock)
       && !HasWork(q, db.clock) && FirstInLineInvited(s, q, cfg, db.clock)
       && ClosedAs(WithProduct(db, x, q), e, claim, Accepted)
  }

  lemma FailedPaymentOnProduct(p: Product, cfg: Config, now: Time, i: nat)
    requires ProductOk(p, now) && !HasWork(p, now) && i < |p.attempts| && p.attempts[i].state.Checkout?
    ensures var failed := Queue.FailRow(p, i, now);
            var q := Settlement(failed, cfg, now);
            && 0 < p.reserved && Reconcile(failed, cfg, now) == Ok(q) && |q.attempts| == |p.attempts|
            && EndsAs(p.attempts[i], q.attempts[i], PaymentFailed, now)
            && failed == Released(p, i, q.attempts[i], 0) && !HasWork(q, now) && FirstInLineInvited(p, q, cfg, now)
  {
    hide ProductOk, Evolves, HasWork, Settlement, SettledAttempt, Reconcile, FirstInLineInvited;
    var failed := Queue.FailRow(p, i, now);
    SettledIsTimely(p, now, i);
    CountersOf(p, now);
    HeldIsCounted(p, i);
    FailureKeepsProduct(p, i, now);
    SettlementIsSound(failed, cfg, now);
    EndedStays(failed, cfg, now, i);
    ReleaseInvites(p, i, failed.attempts[i], 0, cfg, now);
  }

  /** The branch that is taken, on the settled product. */
  lemma FailureBranch(db: Db, cfg: Config, claim: Claim, x: Uuid, i: nat, s: Product)
    requires s.id == x && i < |s.attempts| && (s.attempts[i].state.Checkout? ==> 0 < s.reserved)
    ensures var a := s.attempts[i];
            var r, again := ApplyFailure(db, cfg, s, i, claim), Reconcile(Queue.FailRow(s, i, db.clock), cfg, db.clock);
            if a.state.Checkout? then
              again.Ok? ==> r == Complete(WithProduct(db, x, again.value), claim, Accepted)
            else if a.state.Purchased? then r == Complete(WithProduct(db, x, s), claim, IgnoredPurchaseFinal)
            else if a.state.Waiting? || a.state.Invited? then
              r == Complete(WithProduct(db, x, s), claim, TransitionInvalid)
            else r == Complete(WithProduct(db, x, s), claim, IgnoredTerminal)
  {
    hide Reconcile, Complete, Queue.FailRow;
  }

  /** The end of a checkout that is in force in the settled product. */
  lemma FailureCloses(db: Db, cfg: Config, claim: Claim, x: Uuid, i: nat, s: Product)
    requires DbOk(db) && Fence(db, claim).None? && s.id == x
    requires ProductOk(s, db.clock) && !HasWork(s, db.clock) && i < |s.attempts| && s.attempts[i].state.Checkout?
    ensures var again := Reconcile(Queue.FailRow(s, i, db.clock), cfg, db.clock);
            && 0 < s.reserved && again.Ok?
            && var r := Complete(WithProduct(db, x, again.value), claim, Accepted);
               Answers(r, claim, Accepted, 200) && Freed(db, cfg, claim, x, i, s, r.db)
  {
    hide DbOk, ProductOk, HasWork, Settlement, SettledAttempt, Reconcile, Fence, Complete, ClosedAs, EndsAs,
      Released, Queue.FailRow, FirstInLineInvited, HttpStatus;
    FailedPaymentOnProduct(s, cfg, db.clock, i);
    var q := Settlement(Queue.FailRow(s, i, db.clock), cfg, db.clock);
    var f := WithProduct(db, x, q);
    StatusOfCode(Accepted);
    HeldClosing(db, claim, f, Accepted);
    ClosingKeepsProducts(f, claim, Accepted);
  }

  lemma FailureOnProduct(db: Db, cfg: Config, claim: Claim, x: Uuid, i: nat)
    requires DbOk(db) && Fence(db, claim).None? && Concerns(db, claim, x, i)
    ensures FailureSpec(db, cfg, claim, x, i,
                        ApplyFailure(db, cfg, Settlement(db.products[x], cfg, db.clock), i, claim))
  {
    var p := db.products[x];
    var s := Settlement(p, cfg, db.clock);
    hide DbOk, ProductOk, HasWork, Settlement, SettledAttempt, Reconcile, Fence, Complete, ClosedAs, First,
      Queue.FailRow, InCheckout, ApplyFailure, Freed, FailureSpec, Answers, WithProduct, HttpStatus;
    SettledFor(db, cfg, claim, x, i);
    SettledCheckout(p, cfg, db.clock, i);
    if s.attempts[i].state.Checkout? {
      FailureCloses(db, cfg, claim, x, i, s);
    }
    FailureBranch(db, cfg, claim, x, i, s);
    AnswerCloses(db, claim, x, s, IgnoredPurchaseFinal);
    StatusOfCode(IgnoredPurchaseFinal);
    AnswerCloses(db, claim, x, s, TransitionInvalid);
    StatusOfCode(TransitionInvalid);
    AnswerCloses(db, claim, x, s, IgnoredTerminal);
    StatusOfCode(IgnoredTerminal);
    FailureAsSaid(db, cfg, claim, x, i, ApplyFailure(db, cfg, s, i, claim));
  }

  /** Each state gives its own answer. */
  lemma FailureAsSaid(db: Db, cfg: Config, claim: Claim, x: Uuid, i: nat, r: Reply<PaymentResult>)
    requires Concerns(db, claim, x, i)
    requires var s := Settlement(db.products[x], cfg, db.clock);
             var a, settled := s.attempts[i], WithProduct(db, x, s);
             && (a.state.Checkout? <==> InCheckout(db.products[x].attempts[i], db.clock))
             && if a.state.Checkout? then Answers(r, claim, Accepted, 200) && Freed(db, cfg, claim, x, i, s, r.db)
                else if a.state.Purchased? then
                  Answers(r, claim, IgnoredPurchaseFinal, 200) && ClosedAs(settled, r.db, claim, IgnoredPurchaseFinal)
                else if a.state.Waiting? || a.state.Invited? then
                  Answers(r, claim, TransitionInvalid, 409) && ClosedAs(settled, r.db, claim, TransitionInvalid)
                else Answers(r, claim, IgnoredTerminal, 200) && ClosedAs(settled, r.db, claim, IgnoredTerminal)
    ensures FailureSpec(db, cfg, claim, x, i, r)
  {
    hide Settlement, SettledAttempt, ClosedAs, Freed, InCheckout;
  }

  /** The transaction of a failed payment, at every moment. */
  lemma FailureOutcome(db: Db, cfg: Config, claim: Claim, seesOwner: bool) returns (x: Uuid, i: nat)
    requires Moment(db, cfg) && Fence(db, claim).None?
    requires claim.command.attempt in db.home && claim.command.outcome.Failed?
    ensures Concerns(db, claim, x, i)
    ensures FailureSpec(db, cfg, claim, x, i, ProcessClaim(db, cfg, claim, true, seesOwner))
  {
    hide Moment, DbOk, ProductOk, HasWork, Settlement, SettledAttempt, Reconcile, Fence, First, ApplyFailure,
      FailureSpec, PaymentDigest;
    MomentIsSound(db, cfg);
    x := db.home[claim.command.attempt];
    i := FoundAttemptIsARow(db, cfg, claim);
    FenceIsHonest(db, claim);
    SettledFor(db, cfg, claim, x, i);
    FailureOnProduct(db, cfg, claim, x, i);
    FailureNeverRollsBack(db, cfg, claim, x, i,
                          ApplyFailure(db, cfg, Settlement(db.products[x], cfg, db.clock), i, claim));
  }

  lemma FailureNeverRollsBack(db: Db, cfg: Config, claim: Claim, x: Uuid, i: nat, r: Reply<PaymentResult>)
    requires Concerns(db, claim, x, i) && FailureSpec(db, cfg, claim, x, i, r)
    ensures OrRollBack(db, r) == r
  {
    var p := db.products[x];
    SettledCheckout(p, cfg, db.clock, i);
    hide InCheckout, HasWork, Settlement, SettledAttempt, ClosedAs, EndsAs, FirstInLineInvited, Released;
  }

  // ---------------------------------------------------------------------------------------------
  // The other ways
  // ---------------------------------------------------------------------------------------------

  /** The second transaction of a worker that lost the race: the payment is owed back. */
  lemma ForcedOutcome(db: Db, cfg: Config, claim: Claim)
    requires Moment(db, cfg) && Fence(db, claim).None? && claim.command.attempt in db.home && claim in db.losers
    ensures var r, x := ForceCompensation(db, cfg, claim), db.home[claim.command.attempt];
            && x in db.products && Answers(r, claim, CompensationRequired, 200)
            && OwedBack(db, claim, x, Settlement(db.products[x], cfg, db.clock), r.db)
  {
    hide Moment, DbOk, ProductOk, HasWork, Settlement, SettledAttempt, Reconcile, Fence, First, Compensate,
      ClosedAs;
    MomentIsSound(db, cfg);
    var x := db.home[claim.command.attempt];
    var i := FoundAttemptIsARow(db, cfg, claim);
    SettledFor(db, cfg, claim, x, i);
    OwingCloses(db, claim, x, Settlement(db.products[x], cfg, db.clock));
  }

  /** A payment for an attempt that is unknown, or was when it was looked up, is closed as such. */
  lemma UnknownAttemptOutcome(db: Db, cfg: Config, claim: Claim, seesAttempt: bool, seesOwner: bool)
    requires Moment(db, cfg) && Fence(db, claim).None? && (claim.command.attempt !in db.home || !seesAttempt)
    ensures var r := ProcessClaim(db, cfg, claim, seesAttempt, seesOwner);
            Answers(r, claim, AttemptUnknown, 404) && ClosedAs(db, r.db, claim, AttemptUnknown)
  {
    hide Moment, DbOk, Fence, Complete, ClosedAs, PaymentDigest;
    MomentIsSound(db, cfg);
    FenceIsHonest(db, claim);
    HeldClosing(db, claim, db, AttemptUnknown);
  }

  /** A claim that does not pass the fence, or was tampered with, is refused without effect. */
  lemma RefusedOutcome(db: Db, cfg: Config, claim: Claim, seesAttempt: bool, seesOwner: bool)
    requires Moment(db, cfg) && Fence(db, claim).Some?
    ensures var r := ProcessClaim(db, cfg, claim, seesAttempt, seesOwner);
            && r.db == db
            && (PaymentDigest(claim.command) != claim.digest ==> r.result == Err(PaymentClaimIntegrity))
            && (PaymentDigest(claim.command) == claim.digest ==> r.result == Err(Fence(db, claim).value))
  {
    hide Moment, DbOk, Fence, PaymentDigest, Reconcile;
    MomentIsSound(db, cfg);
    if claim.command.attempt in db.home {
      HomeHas(db, claim.command.attempt);
    }
  }

  /** Who passes the fence: whoever presents the token, the generation and the very command of an event in
      work. */
  lemma FenceMeans(db: Db, cfg: Config, claim: Claim)
    requires Moment(db, cfg)
    ensures Fence(db, claim).None?
       <==> && claim.inbox in db.inbox && db.inbox[claim.inbox].status.Processing?
            && db.inbox[claim.inbox].token == Some(claim.token) && db.inbox[claim.inbox].generation == claim.generation
            && db.inbox[claim.inbox].command == claim.command && claim.digest == PaymentDigest(claim.command)
  {
    hide Moment, DbOk;
    MomentIsSound(db, cfg);
    if claim.inbox in db.inbox {
      StoredRowOk(db, claim.inbox);
    }
    hide PaymentDigest;
  }
}
