/** The repository as an object: each request opens a transaction on a loaded product, works on it in place
    and commits or rolls back. Every method is proved against its function in Database.dfy. */
module Repository {
  import opened Wrappers
  import opened Domain
  import opened Reconciliation
  import opened Framing
  import opened Loading
  import opened TransactionState
  import D = Database
  import P = PaymentSafety
  import Queue

  /** What the connection does to one background transaction. */
  datatype Fault = Healthy | BeforeSelection | AfterSelection

  class QueueAttemptRepository {
    const cfg: Config
    /** What is committed. */
    var db: D.Db
    /** What the open payment transaction sees: committed data and its own writes. */
    var work: D.Db

    constructor (cfg: Config, db: D.Db)
      ensures this.cfg == cfg && this.db == db
    {
      this.cfg, this.db, this.work := cfg, db, db;
    }

    // -------------------------------------------------------------------------------------------
    // Queue requests
    // -------------------------------------------------------------------------------------------

    method Join(percent: int, product: Uuid, user: Name, key: Name, id: Uuid) returns (result: Result<Queue.JoinResult>)
      modifies this`db
      ensures D.Reply(db, result) == D.Join(old(db), cfg, percent, product, user, key, id)
    {
      hide Queue.Join;
      if product !in db.products {
        return Err(NotFound);
      }
      var state := new Transaction(db.products[product], cfg, db.clock, Scope(Some(user), Some(key), false, None));
      var committed;
      committed, result := state.Join(percent, user, key, id, id in db.home);
      db := D.Put(db, product, if committed then state.Book() else db.products[product]);
      if result.Ok? && result.value.created {
        db := db.(home := db.home[id := product]);
      }
    }

    method StartCheckout(id: Uuid, user: Name) returns (result: Result<Attempt>)
      modifies this`db
      ensures D.Reply(db, result) == D.StartCheckout(old(db), cfg, id, user)
    {
      hide Queue.StartCheckout;
      if id !in db.home {
        return Err(AttemptNotFound);
      }
      var product := db.home[id];
      if product !in db.products {
        return Err(NotFound);
      }
      var state := new Transaction(db.products[product], cfg, db.clock, Scope(None, None, false, Some(id)));
      var committed;
      committed, result := state.StartCheckout(id, user);
      db := D.Put(db, product, if committed then state.Book() else db.products[product]);
    }

    method Cancel(product: Uuid, user: Name) returns (result: Result<Attempt>)
      modifies this`db
      ensures D.Reply(db, result) == D.Cancel(old(db), cfg, product, user)
    {
      hide Queue.Cancel;
      if product !in db.products {
        return Err(NotFound);
      }
      var state := new Transaction(db.products[product], cfg, db.clock, Scope(Some(user), None, true, None));
      var committed;
      committed, result := state.Cancel(user);
      db := D.Put(db, product, if committed then state.Book() else db.products[product]);
    }

    method FindCurrent(product: Uuid, user: Name) returns (result: Result<Queue.JoinResult>)
      modifies this`db
      ensures D.Reply(db, result) == D.FindCurrent(old(db), cfg, product, user)
    {
      hide Queue.FindCurrent;
      if product !in db.products {
        return Err(NotFound);
      }
      var state := new Transaction(db.products[product], cfg, db.clock, Scope(Some(user), None, true, None));
      var committed;
      committed, result := state.FindCurrent(user);
      db := D.Put(db, product, if committed then state.Book() else db.products[product]);
    }

    method AdjustStock(c: AdjustmentCommand) returns (result: Result<Queue.AdjustmentResult>)
      modifies this`db
      ensures D.Reply(db, result) == D.AdjustStock(old(db), cfg, c)
    {
      hide Queue.AdjustStock;
      if c.delta == 0 {
        return Err(InvalidInput);
      }
      var digest := WriteFrame(AdjustmentFields(c));
      if c.product !in db.products {
        return Err(NotFound);
      }
      var state := new Transaction(db.products[c.product], cfg, db.clock, ACTIVE_ONLY);
      var committed;
      committed, result := state.AdjustStock(c.key, c.delta, digest);
      db := D.Put(db, c.product, if committed then state.Book() else db.products[c.product]);
    }

    /** The transaction of ReconcileNextProduct on the product it selected. */
    method ReconcileSelected(product: Uuid, limit: int) returns (result: Result<Queue.Progress>)
      modifies this`db
      ensures D.Reply(db, result) == D.ReconcileBatch(old(db), cfg, product, limit)
    {
      hide Queue.ReconcileBatch;
      if limit <= 0 {
        return Err(InvalidInput);
      }
      if product !in db.products {
        return Err(NotFound);
      }
      var state := new Transaction(db.products[product], cfg, db.clock, ACTIVE_ONLY);
      result := state.ReconcileBounded(limit);
      db := D.Put(db, product, state.Book());
    }

    /** ReconcileNextProduct. `locked` are the products whose row another transaction holds, `elapsed` is the
        time between the selection and the clock reading under the lock. The order in which eligible products
        are tried is left open. */
    method ReconcileNextProduct(limit: int, excluded: seq<Uuid>, locked: set<Uuid>, elapsed: nat, fault: Fault)
      returns (selected: Option<Uuid>, result: Result<Queue.Progress>)
      modifies this`db
      ensures var later := old(db).(clock := old(db).clock + elapsed);
              match selected
              case None =>
                db == old(db)
                && (match result
                    case Ok(progress) =>
                      progress == Queue.Progress(0, false) && limit > 0
                      && forall x :: x in db.products && x !in excluded && x !in locked ==>
                            !Queue.IsEligible(db.products[x], db.clock)
                    case Err(error) => limit <= 0 || fault.BeforeSelection?)
              case Some(x) =>
                && limit > 0 && x in old(db).products && x !in excluded && x !in locked
                && Queue.IsEligible(old(db).products[x], old(db).clock)
                && (if fault.Healthy? then D.Reply(db, result) == D.ReconcileBatch(later, cfg, x, limit)
                    else db == later && result == Err(Unavailable))
      ensures limit <= 0 || fault.BeforeSelection? <==> selected.None? && result.Err?
    {
      hide D.ReconcileBatch, Queue.IsEligible;
      if limit <= 0 {
        return None, Err(InvalidInput);
      }
      if fault.BeforeSelection? {
        return None, Err(Unavailable);
      }
      var candidates := set x | x in db.products && x !in excluded && x !in locked
          && Queue.IsEligible(db.products[x], db.clock);
      if candidates == {} {
        forall x | x in db.products && x !in excluded && x !in locked
            ensures !Queue.IsEligible(db.products[x], db.clock) {
          assert x !in candidates;
        }
        return None, Ok(Queue.Progress(0, false));
      }
      var x :| x in candidates;
      db := db.(clock := db.clock + elapsed);
      if fault.AfterSelection? {
        return Some(x), Err(Unavailable);
      }
      result := ReconcileSelected(x, limit);
      selected := Some(x);
    }

    // -------------------------------------------------------------------------------------------
    // Payments
    // -------------------------------------------------------------------------------------------

    method ClaimPayment(c: PaymentCommand, id: Uuid, token: Uuid) returns (result: Result<D.ClaimResult>)
      modifies this`db, this`work
      ensures D.Reply(db, result) == D.ClaimPayment(old(db), c, id, token)
    {
      hide PaymentDigest, D.Finished;
      var digest := WriteFrame(PaymentFields(c));
      assert digest == PaymentDigest(c) by { DigestIsFrame(c); }
      var k := D.KeyOf(c);
      work := db;
      if k !in work.events {
        if id in work.inbox {
          return Err(Conflict);
        }
        work := work.(inbox := work.inbox[id := D.InboxRow(c, digest, D.Received, work.clock, None, None, 0, None)],
                      events := work.events[k := id]);
      }
      var inbox := work.events[k];
      if inbox !in work.inbox {
        return Err(NotFound);
      }
      var row := work.inbox[inbox];
      if row.digest != digest {
        return Ok(D.Answered(D.Respond(inbox, D.EventConflict, false)));
      }
      if D.Finished(row) && row.response.Some? {
        return Ok(D.Answered(D.Respond(inbox, row.response.value, true)));
      }
      if D.Busy(row, work.clock) {
        return Ok(D.Answered(D.Respond(inbox, D.StillProcessing, false)));
      }
      var claimed := D.TakeClaim(row, token, work.clock);
      work := work.(inbox := work.inbox[inbox := claimed]);
      db := work;
      result := Ok(D.Claimed(D.Claim(inbox, token, claimed.generation, digest, c)));
    }

    lemma DigestIsFrame(c: PaymentCommand)
      ensures Frame(PaymentFields(c)) == PaymentDigest(c)
    {
    }

    /** completePayment: the fenced UPDATE that stores the response. */
    method CompletePayment(claim: D.Claim, code: D.Code) returns (result: Result<D.PaymentResult>)
      modifies this`work
      ensures D.Reply(work, result) == D.Complete(old(work), claim, code)
      ensures result.Ok? || result == Err(StaleClaim)
    {
      if claim.inbox !in work.inbox {
        return Err(StaleClaim);
      }
      var row := work.inbox[claim.inbox];
      if !row.status.Processing? || row.token != Some(claim.token) || row.generation != claim.generation {
        return Err(StaleClaim);
      }
      var status := D.Completed;
      if D.HttpStatus(code) >= 400 {
        status := D.Rejected;
      }
      work := work.(inbox := work.inbox[claim.inbox :=
        row.(status := status, response := Some(code), leaseUntil := None, token := None)]);
      result := Ok(D.Respond(claim.inbox, code, false));
    }

    /** completeWithCompensation: the insert does nothing when the row is already there. */
    method CompleteWithCompensation(claim: D.Claim) returns (result: Result<D.PaymentResult>)
      modifies this`work
      ensures D.Reply(work, result) == D.Compensate(old(work), claim)
      ensures result.Ok? || result == Err(StaleClaim)
    {
      var known := false;
      for k := 0 to |work.compensations|
        invariant known <==> exists j :: 0 <= j < k && work.compensations[j].inbox == claim.inbox
      {
        if work.compensations[k].inbox == claim.inbox {
          known := true;
        }
      }
      if !known {
        work := work.(compensations := work.compensations + [D.Compensation(claim.inbox, claim.command, work.clock)]);
      }
      result := CompletePayment(claim, D.CompensationRequired);
    }

    method StoreProduct(state: Transaction)
      modifies this`work
      ensures work == D.Put(old(work), state.product, state.Book())
    {
      work := work.(products := work.products[state.product := state.Book()]);
    }

    method ApplySucceededPayment(state: Transaction, claim: D.Claim, index: nat, seesOwner: bool)
      returns (result: Result<D.PaymentResult>)
      requires state.Valid() && index < |state.attempts| && work == db
      requires state.cfg == cfg && state.now == work.clock
      modifies this`work, state
      ensures var reply := D.ApplySuccess(old(work), cfg, old(state.Book()), old(state.slots[index]), claim, seesOwner);
              && result == reply.result && (result.Ok? ==> work == reply.db)
              && (result == Err(ReferenceTaken) ==> reply.db == old(work).(losers := old(work).losers + {claim}))
    {
      hide Iterate, ReservedOk, D.Complete, D.Compensate;
      var attempt, ref := state.attempts[index], D.RefOf(claim.command);
      if attempt.state.Purchased? && attempt.accepted == Some(ref) {
        StoreProduct(state);
        result := CompletePayment(claim, D.AlreadyAccepted);
        return;
      }
      if !attempt.state.Checkout? {
        StoreProduct(state);
        result := CompleteWithCompensation(claim);
        return;
      }
      if seesOwner && ref in work.accepted && work.accepted[ref] != attempt.id {
        StoreProduct(state);
        result := CompleteWithCompensation(claim);
        return;
      }
      if state.stock <= 0 || state.reserved <= 0 {
        return Err(ReservedInvariant);
      }
      if ref in work.accepted {
        return Err(ReferenceTaken);
      }
      state.AcceptPurchase(index, ref);
      work := work.(accepted := work.accepted[ref := attempt.id]);
      var failure := state.ReconcileProduct();
      if failure.Some? {
        return Err(failure.value);
      }
      StoreProduct(state);
      result := CompletePayment(claim, D.Accepted);
    }

    method ApplyFailedPayment(state: Transaction, claim: D.Claim, index: nat) returns (result: Result<D.PaymentResult>)
      requires state.Valid() && index < |state.attempts| && state.cfg == cfg && state.now == work.clock
      modifies this`work, state
      ensures var reply := D.ApplyFailure(old(work), cfg, old(state.Book()), old(state.slots[index]), claim);
              result == reply.result && (result.Ok? ==> work == reply.db)
      ensures result != Err(ReferenceTaken)
    {
      hide Iterate, ReservedOk, D.Complete;
      match state.attempts[index].state {
        case Checkout =>
          if state.reserved <= 0 {
            return Err(ReservedInvariant);
          }
          state.FailPayment(index);
          var failure := state.ReconcileProduct();
          if failure.Some? {
            return Err(failure.value);
          }
          StoreProduct(state);
          result := CompletePayment(claim, D.Accepted);
        case Purchased =>
          StoreProduct(state);
          result := CompletePayment(claim, D.IgnoredPurchaseFinal);
        case Waiting =>
          StoreProduct(state);
          result := CompletePayment(claim, D.TransitionInvalid);
        case Invited =>
          StoreProduct(state);
          result := CompletePayment(claim, D.TransitionInvalid);
        case _ =>
          StoreProduct(state);
          result := CompletePayment(claim, D.IgnoredTerminal);
      }
    }

    /** lockAndValidatePaymentClaim. */
    method LockAndValidateClaim(claim: D.Claim) returns (failure: Option<Error>)
      ensures failure == D.Fence(work, claim) && failure != Some(ReferenceTaken)
    {
      if claim.inbox !in work.inbox {
        return Some(NotFound);
      }
      var row := work.inbox[claim.inbox];
      if !row.status.Processing? || row.token != Some(claim.token) || row.generation != claim.generation {
        return Some(StaleClaim);
      }
      if row.digest != claim.digest {
        return Some(PaymentClaimIntegrity);
      }
      if row.command != claim.command {
        return Some(PaymentClaimIntegrity);
      }
      failure := None;
    }

    /** processClaimForProduct. A lost race is remembered; every other failure rolls back. */
    method ProcessClaimForProduct(product: Uuid, claim: D.Claim, seesOwner: bool, force: bool)
      returns (result: Result<D.PaymentResult>)
      modifies this`db, this`work
      ensures D.Reply(db, result) == D.ProcessOnProduct(old(db), cfg, product, claim, seesOwner, force)
    {
      hide Iterate, ReservedOk, D.Fence, D.ApplySuccess, D.ApplyFailure, D.Compensate;
      if product !in db.products {
        return Err(NotFound);
      }
      work := db;
      var state := new Transaction(db.products[product], cfg, db.clock,
          Scope(None, None, false, Some(claim.command.attempt)));
      var fenced := LockAndValidateClaim(claim);
      if fenced.Some? {
        return Err(fenced.value);
      }
      label loaded:
      assert Loaded(state.table, state.slots, WithId(claim.command.attempt));
      var failure := state.ReconcileProduct();
      if failure.Some? {
        return Err(failure.value);
      }
      StillLoaded(old@loaded(state.table), state.table, state.slots, WithId(claim.command.attempt));
      var index := state.FindFirst(WithId(claim.command.attempt));
      if index == |state.attempts| || state.attempts[index].product != product || state.product != product {
        return Err(StaleClaim);
      }
      if force {
        StoreProduct(state);
        result := CompleteWithCompensation(claim);
      } else if claim.command.outcome.Succeeded? {
        result := ApplySucceededPayment(state, claim, index, seesOwner);
      } else {
        result := ApplyFailedPayment(state, claim, index);
      }
      if result.Ok? {
        db := work;
      } else if !force && claim.command.outcome.Succeeded? && result.error == ReferenceTaken {
        db := db.(losers := db.losers + {claim});
      }
    }

    method ProcessPayment(c: PaymentCommand, id: Uuid, token: Uuid, seesAttempt: bool, seesOwner: bool)
      returns (result: Result<D.PaymentResult>)
      modifies this`db, this`work
      ensures D.Reply(db, result) == D.ProcessPayment(old(db), cfg, c, id, token, seesAttempt, seesOwner)
    {
      hide D.ClaimPayment, D.ProcessAndRerun, D.RetryClaim;
      var claimed := ClaimPayment(c, id, token);
      if claimed.Err? {
        return Err(claimed.error);
      }
      if claimed.value.Answered? {
        return Ok(claimed.value.response);
      }
      result := ProcessPaymentClaim(claimed.value.claim, seesAttempt, seesOwner);
      if result.Ok? || D.GivesUp(result.error) {
        return;
      }
      var _ := RetryPaymentClaim(claimed.value.claim);
    }

    /** ProcessPaymentClaim: one transaction, and a second one with forced compensation when the first lost
        the race on the unique index. */
    method ProcessPaymentClaim(claim: D.Claim, seesAttempt: bool,
        seesOwner: bool) returns (result: Result<D.PaymentResult>)
      modifies this`db, this`work
      ensures D.Reply(db, result) == D.ProcessAndRerun(old(db), cfg, claim, seesAttempt, seesOwner)
    {
      hide D.ProcessOnProduct, D.Fence, D.Complete, PaymentDigest;
      DigestIsFrame(claim.command);
      var digest := WriteFrame(PaymentFields(claim.command));
      if digest != claim.digest {
        return Err(PaymentClaimIntegrity);
      }
      if claim.command.attempt !in db.home || !seesAttempt {
        result := FinalizeWithoutProduct(claim);
        return;
      }
      var product := db.home[claim.command.attempt];
      result := ProcessClaimForProduct(product, claim, seesOwner, false);
      if result == Err(ReferenceTaken) {
        P.LostRaceIsRemembered(old(db), cfg, product, claim, seesOwner);
        result := ProcessClaimForProduct(product, claim, true, true);
      }
    }

    method FinalizeWithoutProduct(claim: D.Claim) returns (result: Result<D.PaymentResult>)
      modifies this`db, this`work
      ensures var fenced := D.Fence(old(db), claim);
              D.Reply(db, result)
              == if fenced.Some? then D.Reply(old(db), Err(fenced.value))
                  else D.Complete(old(db), claim, D.AttemptUnknown)
      ensures result != Err(ReferenceTaken)
    {
      hide D.Complete;
      work := db;
      var fenced := LockAndValidateClaim(claim);
      if fenced.Some? {
        return Err(fenced.value);
      }
      result := CompletePayment(claim, D.AttemptUnknown);
      db := work;
    }

    method RetryPaymentClaim(claim: D.Claim) returns (result: Result<()>)
      modifies this`db
      ensures D.Reply(db, result) == D.RetryClaim(old(db), claim)
    {
      if claim.inbox !in db.inbox {
        return Err(StaleClaim);
      }
      var row := db.inbox[claim.inbox];
      if !row.status.Processing? || row.token != Some(claim.token) || row.generation != claim.generation {
        return Err(StaleClaim);
      }
      db := db.(inbox := db.inbox[claim.inbox :=
        row.(status := D.Retry, nextAttemptAt := db.clock + D.PAYMENT_RETRY_BACKOFF, leaseUntil := None,
            token := None)]);
      result := Ok(());
    }
  }
}
