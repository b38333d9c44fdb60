/** Payment steps keep the database invariant, whatever claims they are run with. */
module PaymentSafety {
  import opened Wrappers
  import opened Domain
  import opened Reconciliation
  import opened QueueInvariants
  import opened QueueSafety
  import opened Framing
  import opened Database
  import opened DatabaseInvariants
  import opened DatabaseSafety
  import opened Sales
  import Queue

  lemma SameShelves(db: Db, e: Db)
    requires ShelvesOk(db)
    requires e.clock == db.clock && e.products == db.products && e.home == db.home && e.accepted == db.accepted
    ensures ShelvesOk(e)
  {
    hide ProductOk, Has;
    forall ref | ref in e.accepted ensures SoldUnder(e, e.accepted[ref], ref) {
      assert SoldUnder(db, db.accepted[ref], ref);
    }
  }

  lemma StoredRowOk(db: Db, id: Uuid)
    requires DbOk(db) && id in db.inbox
    ensures RowOk(db.inbox[id])
    ensures KeyOf(db.inbox[id].command) in db.events && db.events[KeyOf(db.inbox[id].command)] == id
  {
    hide ShelvesOk, RowOk;
    assert RowsOk(db);
  }

  /** Only the inbox row `id` changed, and it evolved. */
  lemma RowStepEvolves(db: Db, e: Db, id: Uuid, row: InboxRow)
    requires id in db.inbox && RowEvolves(db.inbox[id], row)
    requires e.clock == db.clock && e.products == db.products && e.home == db.home && e.events == db.events
    requires forall ref :: ref in db.accepted ==> ref in e.accepted && e.accepted[ref] == db.accepted[ref]
    requires e.inbox == db.inbox[id := row] && db.compensations <= e.compensations
    ensures DbEvolves(db, e)
  {
    hide Evolves, RowEvolves;
    forall x | x in db.products ensures Evolves(db.products[x], e.products[x]) {
      Standing(db.products[x]);
    }
    forall i | i in db.inbox ensures i in e.inbox && RowEvolves(db.inbox[i], e.inbox[i]) {
      if i != id {
        RowStands(db.inbox[i]);
      }
    }
  }

  lemma RowStands(row: InboxRow)
    ensures RowEvolves(row, row)
  {
  }

  // ---------------------------------------------------------------------------------------------
  // Claiming and retrying
  // ---------------------------------------------------------------------------------------------

  lemma TakenRowOk(row: InboxRow, token: Uuid, now: Time)
    requires RowOk(row) && !Finished(row)
    ensures RowOk(TakeClaim(row, token, now)) && TakeClaim(row, token, now).response.None?
    ensures row.response.None? && RowEvolves(row, TakeClaim(row, token, now))
  {
    hide PaymentDigest;
  }

  lemma ClaimKnownKeepsDb(db: Db, id: Uuid, token: Uuid)
    requires DbOk(db) && id in db.inbox && !Finished(db.inbox[id])
    ensures var e := db.(inbox := db.inbox[id := TakeClaim(db.inbox[id], token, db.clock)]);
            DbOk(e) && DbEvolves(db, e)
  {
    var row := TakeClaim(db.inbox[id], token, db.clock);
    var e := db.(inbox := db.inbox[id := row]);
    StoredRowOk(db, id);
    TakenRowOk(db.inbox[id], token, db.clock);
    hide ShelvesOk, InboxOk, RowOk, RowEvolves, TakeClaim, DbEvolves;
    SameShelves(db, e);
    OpenRowKeepsInbox(db, e, id, row);
    RowStepEvolves(db, e, id, row);
  }

  lemma ClaimUnknownKeepsDb(db: Db, c: PaymentCommand, id: Uuid, token: Uuid)
    requires DbOk(db) && KeyOf(c) !in db.events && id !in db.inbox
    ensures var e := db.(inbox := db.inbox[id := TakeClaim(NewRow(c, db.clock), token, db.clock)],
                         events := db.events[KeyOf(c) := id]);
            DbOk(e) && DbEvolves(db, e)
  {
    var row := TakeClaim(NewRow(c, db.clock), token, db.clock);
    var e := db.(inbox := db.inbox[id := row], events := db.events[KeyOf(c) := id]);
    assert RowOk(NewRow(c, db.clock)) by { hide PaymentDigest; }
    TakenRowOk(NewRow(c, db.clock), token, db.clock);
    assert row.command == c;
    hide ShelvesOk, InboxOk, RowOk, RowEvolves, TakeClaim, DbEvolves;
    SameShelves(db, e);
    NewRowKeepsInbox(db, e, id, row);
    NewRowEvolves(db, e, id, row);
  }

  lemma NewRowEvolves(db: Db, e: Db, id: Uuid, row: InboxRow)
    requires id !in db.inbox && KeyOf(row.command) !in db.events
    requires e == db.(inbox := db.inbox[id := row], events := db.events[KeyOf(row.command) := id])
    ensures DbEvolves(db, e)
  {
    hide Evolves, RowEvolves;
    forall x | x in db.products ensures Evolves(db.products[x], e.products[x]) {
      Standing(db.products[x]);
    }
    forall i | i in db.inbox ensures i in e.inbox && RowEvolves(db.inbox[i], e.inbox[i]) {
      RowStands(db.inbox[i]);
    }
  }

  lemma ClaimKeepsDb(db: Db, c: PaymentCommand, id: Uuid, token: Uuid)
    requires DbOk(db)
    ensures var r := ClaimPayment(db, c, id, token); DbOk(r.db) && DbEvolves(db, r.db)
  {
    hide DbOk, DbEvolves, PaymentDigest, TakeClaim;
    DbStands(db);
    var k := KeyOf(c);
    if k in db.events {
      EventsLead(db, k);
      if db.events[k] in db.inbox {
        var row := db.inbox[db.events[k]];
        StoredRowOk(db, db.events[k]);
        if !Finished(row) {
          ClaimKnownKeepsDb(db, db.events[k], token);
          assert db.events[k := db.events[k]] == db.events;
        }
      }
    } else if id !in db.inbox {
      ClaimUnknownKeepsDb(db, c, id, token);
    }
  }

  lemma EventsLead(db: Db, k: EventKey)
    requires DbOk(db) && k in db.events
    ensures db.events[k] in db.inbox && KeyOf(db.inbox[db.events[k]].command) == k
  {
    hide ShelvesOk, RowOk;
    assert RowsOk(db);
  }

  lemma RetryKeepsDb(db: Db, claim: Claim)
    requires DbOk(db)
    ensures var r := RetryClaim(db, claim); DbOk(r.db) && DbEvolves(db, r.db)
  {
    hide DbOk, DbEvolves, RowOk, RowEvolves;
    DbStands(db);
    if Holds(db, claim) {
      StoredRowOk(db, claim.inbox);
      PutBackRowOk(db.inbox[claim.inbox], claim, db.clock);
      OpenRowKeepsDb(db, RetryClaim(db, claim).db, claim.inbox);
    }
  }

  lemma PutBackRowOk(row: InboxRow, claim: Claim, now: Time)
    requires RowOk(row) && row.status.Processing?
    ensures var back := row.(status := Retry, nextAttemptAt := now + PAYMENT_RETRY_BACKOFF, leaseUntil := None,
        token := None);
            RowOk(back) && row.response.None? && RowEvolves(row, back)
  {
    hide PaymentDigest;
  }

  lemma OpenRowKeepsDb(db: Db, e: Db, id: Uuid)
    requires DbOk(db) && id in db.inbox && id in e.inbox && e == db.(inbox := db.inbox[id := e.inbox[id]])
    requires RowOk(e.inbox[id]) && e.inbox[id].response.None? && db.inbox[id].response.None?
    requires RowEvolves(db.inbox[id], e.inbox[id])
    ensures DbOk(e) && DbEvolves(db, e)
  {
    assert e.inbox[id].command == db.inbox[id].command;
    hide ShelvesOk, InboxOk, RowOk, RowEvolves, DbEvolves;
    SameShelves(db, e);
    OpenRowKeepsInbox(db, e, id, e.inbox[id]);
    RowStepEvolves(db, e, id, e.inbox[id]);
  }

  // ---------------------------------------------------------------------------------------------
  // Completing
  // ---------------------------------------------------------------------------------------------

  /** A code that may be stored for this command. */
  predicate Suits(c: PaymentCommand, code: Code) { if c.outcome.Succeeded? then SuccessCode(code)
      else FailureCode(code) }

  lemma ClosedRowOk(row: InboxRow, code: Code)
    requires RowOk(row) && row.status.Processing? && Suits(row.command, code)
    ensures RowOk(Closed(row, code)) && RowEvolves(row, Closed(row, code)) && row.response.None?
  {
    hide PaymentDigest;
  }

  lemma QuietCompletionKeepsDb(db: Db, claim: Claim, code: Code)
    requires DbOk(db) && Holds(db, claim) && Suits(db.inbox[claim.inbox].command, code)
    requires !code.CompensationRequired? && !(code.Accepted? && db.inbox[claim.inbox].command.outcome.Succeeded?)
    requires code.AlreadyAccepted? ==>
               var c := db.inbox[claim.inbox].command; RefOf(c) in db.accepted && db.accepted[RefOf(c)] == c.attempt
    ensures var r := Complete(db, claim, code); r.result.Ok? && DbOk(r.db) && DbEvolves(db, r.db)
  {
    var row, e := Closed(db.inbox[claim.inbox], code), Complete(db, claim, code).db;
    StoredRowOk(db, claim.inbox);
    ClosedRowOk(db.inbox[claim.inbox], code);
    hide ShelvesOk, InboxOk, RowOk, RowEvolves, DbEvolves, Suits, KeyOf;
    SameShelves(db, e);
    QuietCloseKeepsInbox(db, e, claim.inbox, code);
    RowStepEvolves(db, e, claim.inbox, row);
  }

  lemma CompensationKeepsDb(db: Db, claim: Claim)
    requires DbOk(db) && Holds(db, claim) && db.inbox[claim.inbox].command.outcome.Succeeded?
    ensures var r := Compensate(db, claim); r.result.Ok? && DbOk(r.db) && DbEvolves(db, r.db)
  {
    var row, e := Closed(db.inbox[claim.inbox], CompensationRequired), Compensate(db, claim).db;
    var added := Compensation(claim.inbox, claim.command, db.clock);
    StoredRowOk(db, claim.inbox);
    ClosedRowOk(db.inbox[claim.inbox], CompensationRequired);
    hide ShelvesOk, InboxOk, RowOk, RowEvolves, DbEvolves, KeyOf, Compensated;
    SameShelves(db, e);
    CompensationKeepsInbox(db, e, claim.inbox, added);
    RowStepEvolves(db, e, claim.inbox, row);
  }

  // ---------------------------------------------------------------------------------------------
  // Buying
  // ---------------------------------------------------------------------------------------------

  /** `r` sold, beyond what `q` had sold, just attempt `i` under `ref`. */
  ghost predicate SoldOneMore(q: Product, i: nat, ref: PaymentRef, r: Product) {
    && i < |q.attempts| == |r.attempts|
    && (forall j :: 0 <= j < |r.attempts| && r.attempts[j].state.Purchased? && j != i ==>
          r.attempts[j] == q.attempts[j])
    && (forall j :: 0 <= j < |r.attempts| ==> r.attempts[j].id == q.attempts[j].id)
    && r.attempts[i].state.Purchased? && r.attempts[i].accepted == Some(ref)
  }

  lemma PurchaseSettles(q: Product, i: nat, ref: PaymentRef, cfg: Config, now: Time)
    requires ProductOk(q, now) && i < |q.attempts| && q.attempts[i].state.Checkout? && !Is(q.attempts[i], Overdue(now))
    ensures var again := Reconcile(Queue.BuyRow(q, i, ref, now), cfg, now);
            && again.Ok? && ProductOk(again.value, now) && Evolves(q, again.value)
                  && SoldOneMore(q, i, ref, again.value)
  {
    hide ProductOk, Evolves, Iterate, ReservedOk, SoldKept, SoldOneMore;
    var bought := Queue.BuyRow(q, i, ref, now);
    PurchaseKeepsProduct(q, i, ref, now);
    ReconcileKeepsProduct(bought, cfg, now);
    var r := Reconcile(bought, cfg, now).value;
    EvolvesTransitively(q, bought, r);
    ReconcileSellsNothing(bought, cfg, now);
    OneMoreIsSold(q, i, ref, now, r);
  }

  lemma OneMoreIsSold(q: Product, i: nat, ref: PaymentRef, now: Time, r: Product)
    requires i < |q.attempts| == |r.attempts|
    requires SoldKept(Queue.BuyRow(q, i, ref, now), r) && Evolves(Queue.BuyRow(q, i, ref, now), r)
    ensures SoldOneMore(q, i, ref, r)
  {
    hide Ledger;
    var bought := Queue.BuyRow(q, i, ref, now);
    assert AttemptEvolves(bought.attempts[i], r.attempts[i]);
    hide Evolves, AttemptEvolves;
    forall j | 0 <= j < |r.attempts|
      ensures r.attempts[j].id == q.attempts[j].id
      ensures r.attempts[j].state.Purchased? && j != i ==> r.attempts[j] == q.attempts[j]
    {
      assert r.attempts[j].id == bought.attempts[j].id;
    }
  }

  /** The index of accepted references after a purchase. */
  lemma PurchaseKeepsSales(db: Db, e: Db, r: Product, i: nat, ref: PaymentRef)
    requires SalesOk(db) && r.id in db.products && ref !in db.accepted
    requires Evolves(db.products[r.id], r) && SoldOneMore(db.products[r.id], i, ref, r)
    requires First(r.attempts, WithId(r.attempts[i].id)) == i && r.attempts[i].id in db.home
        && db.home[r.attempts[i].id] == r.id
    requires e.products == db.products[r.id := r] && e.home == db.home
    requires e.accepted == db.accepted[ref := r.attempts[i].id]
    ensures SalesOk(e)
  {
    var f := Put(db, r.id, r);
    forall x | x in e.accepted ensures SoldUnder(e, e.accepted[x], x) {
      if x != ref {
        StoreKeepsSoldUnder(db, r, db.accepted[x], x);
        assert SoldUnder(f, db.accepted[x], x);
      }
    }
    hide Evolves, SoldUnder;
    forall x, j | x in e.products && 0 <= j < |e.products[x].attempts| && e.products[x].attempts[j].state.Purchased?
      ensures var a := e.products[x].attempts[j];
              a.accepted.Some? && a.accepted.value in e.accepted && e.accepted[a.accepted.value] == a.id
    {
      if x == r.id && j != i {
        assert db.products[x].attempts[j].state.Purchased?;
      } else if x != r.id {
        assert db.products[x].attempts[j].state.Purchased?;
      }
    }
  }

  lemma PurchaseKeepsShelves(db: Db, e: Db, r: Product, i: nat, ref: PaymentRef)
    requires ShelvesOk(db) && MayStore(db, r) && ref !in db.accepted
    requires SoldOneMore(db.products[r.id], i, ref, r)
    requires First(r.attempts, WithId(r.attempts[i].id)) == i
    requires e.clock == db.clock && e.products == db.products[r.id := r] && e.home == db.home
    requires e.accepted == db.accepted[ref := r.attempts[i].id]
    ensures ShelvesOk(e)
  {
    hide ProductOk, Evolves, SoldOneMore, ProductsOk, HomesOk, SalesOk, SameIds;
    SoldIsHome(db, r, i, ref);
    StoreKeepsProducts(db, r);
    SameProducts(Put(db, r.id, r), e);
    StoreKeepsHomes(db, r, e);
    PurchaseKeepsSales(db, e, r, i, ref);
  }

  lemma SoldIsHome(db: Db, r: Product, i: nat, ref: PaymentRef)
    requires HomesOk(db) && r.id in db.products && SoldOneMore(db.products[r.id], i, ref, r)
    ensures r.attempts[i].id in db.home && db.home[r.attempts[i].id] == r.id
    ensures SameIds(db.products[r.id], r) && |r.attempts| == |db.products[r.id].attempts|
  {
    assert db.products[r.id].attempts[i].id == r.attempts[i].id;
  }

  lemma SameProducts(db: Db, e: Db)
    requires ProductsOk(db) && e.products == db.products && e.clock == db.clock
    ensures ProductsOk(e)
  {
    hide ProductOk;
  }

  lemma PurchaseEvolves(db: Db, e: Db, r: Product, id: Uuid, row: InboxRow)
    requires r.id in db.products && Evolves(db.products[r.id], r) && id in db.inbox && RowEvolves(db.inbox[id], row)
    requires e.clock == db.clock && e.products == db.products[r.id := r] && e.home == db.home && e.events == db.events
    requires forall ref :: ref in db.accepted ==> ref in e.accepted && e.accepted[ref] == db.accepted[ref]
    requires e.inbox == db.inbox[id := row] && db.compensations <= e.compensations
    ensures DbEvolves(db, e)
  {
    hide Evolves, RowEvolves;
    forall x | x in db.products ensures Evolves(db.products[x], e.products[x]) {
      Standing(db.products[x]);
    }
    forall i | i in db.inbox ensures i in e.inbox && RowEvolves(db.inbox[i], e.inbox[i]) {
      if i != id {
        RowStands(db.inbox[i]);
      }
    }
  }

  /** An accepted payment: the attempt is purchased, stock and reservation go down, the reference is taken,
      the inbox row is closed, all at once. */
  lemma PurchaseKeepsDb(db: Db, cfg: Config, q: Product, i: nat, claim: Claim)
    requires DbOk(db) && q.id in db.products && db.products[q.id] == q
    requires Holds(db, claim) && db.inbox[claim.inbox].command == claim.command && claim.command.outcome.Succeeded?
    requires i < |q.attempts| && i == First(q.attempts, WithId(claim.command.attempt))
    requires q.attempts[i].state.Checkout? && !Is(q.attempts[i], Overdue(db.clock))
    requires RefOf(claim.command) !in db.accepted
    ensures var again := Reconcile(Queue.BuyRow(q, i, RefOf(claim.command), db.clock), cfg, db.clock);
            && again.Ok?
            && var r := Complete(Put(db, q.id,
                  again.value).(accepted := db.accepted[RefOf(claim.command) := q.attempts[i].id]),
                                 claim, Accepted);
               r.result.Ok? && DbOk(r.db) && DbEvolves(db, r.db)
  {
    hide DbOk, ShelvesOk, InboxOk, RowOk, RowEvolves, DbEvolves, ProductOk, Evolves, SoldOneMore, Iterate, ReservedOk,
        First, KeyOf;
    var id, ref := claim.inbox, RefOf(claim.command);
    StoredProductOk(db, q.id);
    PurchaseSettles(q, i, ref, cfg, db.clock);
    var r := Reconcile(Queue.BuyRow(q, i, ref, db.clock), cfg, db.clock).value;
    EvolvesKeepsId(q, r);
    assert q.attempts[i].id == claim.command.attempt by { assert Is(q.attempts[i], WithId(claim.command.attempt)); }
    SoldKeepsPlace(q, i, ref, r);
    StorePurchaseKeepsDb(db, r, i, claim);
  }

  /** Storing a product in which attempt `i` has just been bought with the claimed payment. */
  lemma StorePurchaseKeepsDb(db: Db, r: Product, i: nat, claim: Claim)
    requires DbOk(db) && MayStore(db, r)
    requires Holds(db, claim) && db.inbox[claim.inbox].command == claim.command && claim.command.outcome.Succeeded?
    requires RefOf(claim.command) !in db.accepted
    requires SoldOneMore(db.products[r.id], i, RefOf(claim.command), r)
    requires r.attempts[i].id == claim.command.attempt && First(r.attempts, WithId(r.attempts[i].id)) == i
    ensures var p := Complete(Put(db, r.id, r).(accepted := db.accepted[RefOf(claim.command) := claim.command.attempt]),
                              claim, Accepted);
            p.result.Ok? && DbOk(p.db) && DbEvolves(db, p.db)
  {
    hide ShelvesOk, InboxOk, RowOk, RowEvolves, DbEvolves, ProductOk, Evolves, SoldOneMore, First, KeyOf;
    var id, ref := claim.inbox, RefOf(claim.command);
    var row := Closed(db.inbox[id], Accepted);
    StoredRowOk(db, id);
    ClosedRowOk(db.inbox[id], Accepted);
    var e := Complete(Put(db, r.id, r).(accepted := db.accepted[ref := claim.command.attempt]), claim, Accepted).db;
    var e1 := db.(inbox := e.inbox, accepted := e.accepted);
    PurchaseKeepsShelves(db, e, r, i, ref);
    PurchaseKeepsInbox(db, e1, id);
    SameInbox(e1, e);
    PurchaseEvolves(db, e, r, id, row);
  }

  lemma SoldKeepsPlace(q: Product, i: nat, ref: PaymentRef, r: Product)
    requires SoldOneMore(q, i, ref, r) && i == First(q.attempts, WithId(q.attempts[i].id))
    ensures r.attempts[i].id == q.attempts[i].id && First(r.attempts, WithId(r.attempts[i].id)) == i
  {
    forall j | 0 <= j < i ensures !Is(r.attempts[j], WithId(r.attempts[i].id)) {
      assert !Is(q.attempts[j], WithId(q.attempts[i].id));
    }
    assert Is(r.attempts[i], WithId(r.attempts[i].id));
  }

  lemma FailureKeepsDb(db: Db, cfg: Config, q: Product, i: nat, claim: Claim)
    requires DbOk(db) && q.id in db.products && db.products[q.id] == q
    requires Holds(db, claim) && db.inbox[claim.inbox].command == claim.command && claim.command.outcome.Failed?
    requires i < |q.attempts| && q.attempts[i].state.Checkout? && !Is(q.attempts[i], Overdue(db.clock))
    ensures var again := Reconcile(Queue.FailRow(q, i, db.clock), cfg, db.clock);
            && again.Ok?
            && var r := Complete(Put(db, q.id, again.value), claim, Accepted);
               r.result.Ok? && DbOk(r.db) && DbEvolves(db, r.db)
  {
    hide DbOk, DbEvolves, ProductOk, Evolves, SoldKept, Iterate, ReservedOk;
    StoredProductOk(db, q.id);
    var failed := Queue.FailRow(q, i, db.clock);
    FailureKeepsProduct(q, i, db.clock);
    ReconcileKeepsProduct(failed, cfg, db.clock);
    var r := Reconcile(failed, cfg, db.clock).value;
    EvolvesTransitively(q, failed, r);
    ReconcileSellsNothing(failed, cfg, db.clock);
    FailureSellsNothing(q, i, db.clock);
    SoldKeptTransitively(q, failed, r);
    StoreOutcome(db, q.id, r);
    QuietCompletionKeepsDb(Put(db, q.id, r), claim, Accepted);
    DbEvolvesTransitively(db, Put(db, q.id, r), Complete(Put(db, q.id, r), claim, Accepted).db);
  }

  lemma FailureSellsNothing(q: Product, i: nat, now: Time)
    requires i < |q.attempts|
    ensures SoldKept(q, Queue.FailRow(q, i, now))
  {
  }

  // ---------------------------------------------------------------------------------------------
  // One payment transaction
  // ---------------------------------------------------------------------------------------------

  /** A failed step is rolled back; losing the race on the index is remembered by the worker. */
  ghost predicate SoundStep(db: Db, claim: Claim, r: Reply<PaymentResult>) {
    && DbOk(r.db) && DbEvolves(db, r.db)
    && (r.result.Err? ==>
          r.db == db || (r.result == Err(ReferenceTaken) && r.db == db.(losers := db.losers + {claim})))
    && (r.result.Ok? ==>
          && claim.inbox in db.inbox && !Finished(db.inbox[claim.inbox])
          && claim.inbox in r.db.inbox && r.db.inbox[claim.inbox] == Closed(db.inbox[claim.inbox], r.result.value.code)
          && r.result.value == Respond(claim.inbox, r.result.value.code, false))
  }

  /** A reference listed for an attempt means that this attempt is purchased. */
  lemma ListedIsPurchased(db: Db, product: Uuid, i: nat, ref: PaymentRef)
    requires DbOk(db) && product in db.products && i < |db.products[product].attempts|
    requires i == First(db.products[product].attempts, WithId(db.products[product].attempts[i].id))
    requires ref in db.accepted && db.accepted[ref] == db.products[product].attempts[i].id
    ensures db.products[product].attempts[i].state.Purchased?
  {
    hide InboxOk, ProductsOk;
    var id := db.products[product].attempts[i].id;
    assert SoldUnder(db, id, ref);
    assert db.home[id] == product by { assert HomesOk(db); }
  }

  /** A purchased attempt is listed under its reference. */
  lemma PurchasedIsListed(db: Db, product: Uuid, i: nat)
    requires DbOk(db) && product in db.products && i < |db.products[product].attempts|
    requires db.products[product].attempts[i].state.Purchased?
    ensures var a := db.products[product].attempts[i];
            a.accepted.Some? && a.accepted.value in db.accepted && db.accepted[a.accepted.value] == a.id
  {
    hide InboxOk, ProductsOk, HomesOk;
  }

  lemma RaceIsLost(db: Db, claim: Claim)
    requires DbOk(db) && claim.command.outcome.Succeeded?
    requires RefOf(claim.command) in db.accepted && db.accepted[RefOf(claim.command)] != claim.command.attempt
    ensures SoundStep(db, claim, Reply(db.(losers := db.losers + {claim}), Err(ReferenceTaken)))
  {
    hide ShelvesOk, RowsOk, ReceiptsOk, CompensationsOk, DbEvolves;
    var e := db.(losers := db.losers + {claim});
    SameShelves(db, e);
    SameRows(db, e);
    OthersLost(db, e, claim);
    SameButLosers(db, e);
  }

  lemma OthersLost(db: Db, e: Db, claim: Claim)
    requires LosersOk(db) && claim.command.outcome.Succeeded?
    requires RefOf(claim.command) in db.accepted && db.accepted[RefOf(claim.command)] != claim.command.attempt
    requires e.accepted == db.accepted && e.losers == db.losers + {claim}
    ensures LosersOk(e)
  {
    hide RefOf;
  }

  lemma SameButLosers(db: Db, e: Db)
    requires e == db.(losers := e.losers)
    ensures DbEvolves(db, e)
  {
    hide Evolves, RowEvolves;
    forall x | x in db.products ensures Evolves(db.products[x], e.products[x]) {
      Standing(db.products[x]);
    }
    forall i | i in db.inbox ensures RowEvolves(db.inbox[i], e.inbox[i]) {
      RowStands(db.inbox[i]);
    }
  }

  lemma RolledBack(db: Db, claim: Claim, error: Error)
    requires DbOk(db)
    ensures SoundStep(db, claim, Reply(db, Err(error)))
  {
    hide DbOk, DbEvolves;
    DbStands(db);
  }

  lemma NothingToRollBack(db: Db, claim: Claim, r: Reply<PaymentResult>)
    requires SoundStep(db, claim, r)
    ensures OrRollBack(db, r) == r
  {
    hide DbOk, DbEvolves;
  }

  lemma FencePasses(db: Db, claim: Claim)
    requires DbOk(db) && Fence(db, claim).None?
    ensures Holds(db, claim) && db.inbox[claim.inbox].command == claim.command
    ensures !Finished(db.inbox[claim.inbox]) && db.inbox[claim.inbox].response.None?
  {
    hide DbOk;
    StoredRowOk(db, claim.inbox);
    hide PaymentDigest;
  }

  lemma SameRows(db: Db, e: Db)
    requires RowsOk(db) && CompensationsOk(db) && ReceiptsOk(db)
    requires e.inbox == db.inbox && e.events == db.events && e.compensations == db.compensations && e.accepted
        == db.accepted
    ensures RowsOk(e) && CompensationsOk(e) && ReceiptsOk(e)
  {
    assert forall i, code :: AnsweredWith(e, i, code) <==> AnsweredWith(db, i, code);
    assert RowsOk(e) by { hide RowOk; }
    hide RowsOk, CompensationsOk, ReceiptsOk, AnsweredWith;
    SameCompensations(db, e);
    SameReceipts(db, e);
  }

  /** The settled product is stored and the step completed on top of it. */
  lemma SettledCompletion(db: Db, s: Db, claim: Claim, r: Reply<PaymentResult>)
    requires DbEvolves(db, s) && s.inbox == db.inbox && claim.inbox in db.inbox && !Finished(db.inbox[claim.inbox])
    requires r.result.Ok? && DbOk(r.db) && DbEvolves(s, r.db)
    requires claim.inbox in r.db.inbox && r.db.inbox[claim.inbox] == Closed(db.inbox[claim.inbox], r.result.value.code)
    requires r.result.value == Respond(claim.inbox, r.result.value.code, false)
    ensures SoundStep(db, claim, r)
  {
    hide DbOk, DbEvolves, Closed, Respond;
    DbEvolvesTransitively(db, s, r.db);
  }

  /** The database `db` with its product settled to `q`, and a claim that has passed the fence. */
  ghost predicate Settled(db: Db, q: Product, claim: Claim) {
    && DbOk(db) && q.id in db.products && DbOk(Put(db, q.id, q)) && DbEvolves(db, Put(db, q.id, q))
    && ProductOk(q, db.clock) && !HasWork(q, db.clock)
    && Holds(db, claim) && db.inbox[claim.inbox].command == claim.command && !Finished(db.inbox[claim.inbox])
  }

  lemma QuietStep(db: Db, q: Product, claim: Claim, code: Code)
    requires Settled(db, q, claim) && Suits(claim.command, code)
    requires !code.CompensationRequired? && !(code.Accepted? && claim.command.outcome.Succeeded?)
    requires code.AlreadyAccepted? ==>
               RefOf(claim.command) in db.accepted && db.accepted[RefOf(claim.command)] == claim.command.attempt
    ensures SoundStep(db, claim, Complete(Put(db, q.id, q), claim, code))
        && Complete(Put(db, q.id, q), claim, code).result.Ok?
  {
    hide DbOk, DbEvolves, ProductOk, HasWork, SoundStep, Closed, Suits, RefOf;
    var s := Put(db, q.id, q);
    QuietCompletionKeepsDb(s, claim, code);
    SettledCompletion(db, s, claim, Complete(s, claim, code));
  }

  lemma CompensationStep(db: Db, q: Product, claim: Claim)
    requires Settled(db, q, claim) && claim.command.outcome.Succeeded?
    ensures SoundStep(db, claim, Compensate(Put(db, q.id, q), claim)) && Compensate(Put(db, q.id, q), claim).result.Ok?
  {
    hide DbOk, DbEvolves, ProductOk, HasWork, SoundStep, Closed, Compensated;
    var s := Put(db, q.id, q);
    CompensationKeepsDb(s, claim);
    SettledCompletion(db, s, claim, Compensate(s, claim));
  }

  lemma HeldInTime(db: Db, q: Product, claim: Claim, i: nat)
    requires Settled(db, q, claim) && i < |q.attempts|
    ensures !Is(q.attempts[i], Overdue(db.clock))
  {
    hide DbOk, DbEvolves, ProductOk, Holds;
    SettledIsTimely(q, db.clock, i);
  }

  lemma StoredTwice(db: Db, q: Product, r: Product)
    ensures Put(Put(db, q.id, q), q.id, r) == Put(db, q.id, r)
  {
    assert db.products[q.id := q][q.id := r] == db.products[q.id := r];
  }

  lemma CompletedUnderFence(db: Db, s: Db, claim: Claim, code: Code)
    requires Holds(db, claim) && s.inbox == db.inbox
    ensures var r := Complete(s, claim, code);
            && r.result == Ok(Respond(claim.inbox, code, false)) && claim.inbox in r.db.inbox
            && r.db.inbox[claim.inbox] == Closed(db.inbox[claim.inbox], code)
  {
  }

  lemma PurchaseStep(db: Db, cfg: Config, q: Product, i: nat, claim: Claim)
    requires Settled(db, q, claim) && claim.command.outcome.Succeeded? && RefOf(claim.command) !in db.accepted
    requires i < |q.attempts| && i == First(q.attempts, WithId(claim.command.attempt)) && q.attempts[i].state.Checkout?
    ensures var again := Reconcile(Queue.BuyRow(q, i, RefOf(claim.command), db.clock), cfg, db.clock);
            && again.Ok?
            && var r := Complete(Put(db, q.id,
                  again.value).(accepted := db.accepted[RefOf(claim.command) := q.attempts[i].id]),
                                 claim, Accepted);
               SoundStep(db, claim, r) && r.result.Ok?
  {
    hide DbOk, DbEvolves, ProductOk, HasWork, SoundStep, Closed, Reconcile, First, Is, RefOf, Complete, Queue.BuyRow;
    HeldInTime(db, q, claim, i);
    var s, ref := Put(db, q.id, q), RefOf(claim.command);
    PurchaseKeepsDb(s, cfg, q, i, claim);
    var again := Reconcile(Queue.BuyRow(q, i, ref, db.clock), cfg, db.clock).value;
    StoredTwice(db, q, again);
    var e := Put(db, q.id, again).(accepted := db.accepted[ref := q.attempts[i].id]);
    CompletedUnderFence(db, e, claim, Accepted);
    SettledCompletion(db, s, claim, Complete(e, claim, Accepted));
  }

  lemma FailureStep(db: Db, cfg: Config, q: Product, i: nat, claim: Claim)
    requires Settled(db, q, claim) && claim.command.outcome.Failed? && i < |q.attempts| && q.attempts[i].state.Checkout?
    ensures var again := Reconcile(Queue.FailRow(q, i, db.clock), cfg, db.clock);
            && again.Ok? && SoundStep(db, claim, Complete(Put(db, q.id, again.value), claim, Accepted))
            && Complete(Put(db, q.id, again.value), claim, Accepted).result.Ok?
  {
    hide DbOk, DbEvolves, ProductOk, HasWork, SoundStep, Closed, Reconcile, Is, Complete, Queue.FailRow;
    HeldInTime(db, q, claim, i);
    var s := Put(db, q.id, q);
    FailureKeepsDb(s, cfg, q, i, claim);
    var again := Reconcile(Queue.FailRow(q, i, db.clock), cfg, db.clock).value;
    StoredTwice(db, q, again);
    CompletedUnderFence(db, Put(db, q.id, again), claim, Accepted);
    SettledCompletion(db, s, claim, Complete(Put(db, q.id, again), claim, Accepted));
  }

  lemma HeldUnits(db: Db, q: Product, claim: Claim, i: nat)
    requires Settled(db, q, claim) && i < |q.attempts| && q.attempts[i].state.Checkout?
    ensures 0 < q.reserved <= q.stock
  {
    hide DbOk, DbEvolves, HasWork, Holds;
    HeldIsCounted(q, i);
  }

  lemma SuccessIsSound(db: Db, cfg: Config, q: Product, i: nat, claim: Claim, seesOwner: bool)
    requires Settled(db, q, claim) && claim.command.outcome.Succeeded?
    requires i < |q.attempts| && i == First(q.attempts, WithId(claim.command.attempt)) && q.attempts[i].id
        == claim.command.attempt
    ensures SoundStep(db, claim, ApplySuccess(db, cfg, q, i, claim, seesOwner))
    ensures var result := ApplySuccess(db, cfg, q, i, claim, seesOwner).result;
            result.Ok? || result == Err(ReferenceTaken)
  {
    hide SoundStep, Complete, Compensate, Reconcile, First, Holds, DbOk, DbEvolves, ProductOk, HasWork;
    var s, a, ref := Put(db, q.id, q), q.attempts[i], RefOf(claim.command);
    if a.state.Purchased? && a.accepted == Some(ref) {
      PurchasedIsListed(s, q.id, i);
      QuietStep(db, q, claim, AlreadyAccepted);
    } else if !a.state.Checkout? || (seesOwner && ref in db.accepted && db.accepted[ref] != a.id) {
      CompensationStep(db, q, claim);
    } else {
      HeldUnits(db, q, claim, i);
      if ref in db.accepted {
        if db.accepted[ref] == a.id {
          ListedIsPurchased(s, q.id, i, ref);
        }
        RaceIsLost(db, claim);
      } else {
        PurchaseStep(db, cfg, q, i, claim);
      }
    }
  }

  lemma FailureIsSound(db: Db, cfg: Config, q: Product, i: nat, claim: Claim)
    requires Settled(db, q, claim) && claim.command.outcome.Failed? && i < |q.attempts|
    ensures SoundStep(db, claim, ApplyFailure(db, cfg, q, i, claim)) && ApplyFailure(db, cfg, q, i, claim).result.Ok?
  {
    hide SoundStep, Complete, Reconcile, Settled;
    if q.attempts[i].state.Checkout? {
      HeldUnits(db, q, claim, i);
      FailureStep(db, cfg, q, i, claim);
    } else {
      QuietStep(db, q, claim, IgnoredPurchaseFinal);
      QuietStep(db, q, claim, TransitionInvalid);
      QuietStep(db, q, claim, IgnoredTerminal);
    }
  }

  lemma SettlesForClaim(db: Db, cfg: Config, product: Uuid, claim: Claim)
    requires DbOk(db) && product in db.products && Fence(db, claim).None?
    ensures var settled := Reconcile(db.products[product], cfg, db.clock);
            settled.Ok? && settled.value.id == product && Settled(db, settled.value, claim)
  {
    hide DbOk, DbEvolves, ProductOk, HasWork, Evolves, SoldKept, Iterate, ReservedOk, Fence, Holds;
    FencePasses(db, claim);
    StoredProductOk(db, product);
    ReconcileKeepsProduct(db.products[product], cfg, db.clock);
    ReconcileSellsNothing(db.products[product], cfg, db.clock);
    var q := Reconcile(db.products[product], cfg, db.clock).value;
    EvolvesKeepsId(db.products[product], q);
    StoreOutcome(db, product, q);
  }

  /** Reconciling loses no attempt. */
  lemma SettledHas(db: Db, cfg: Config, product: Uuid, id: Uuid)
    requires DbOk(db) && product in db.products
    ensures var settled := Reconcile(db.products[product], cfg, db.clock);
            settled.Ok? && (Has(db.products[product], id) ==>
              var i := First(settled.value.attempts, WithId(id));
              i < |settled.value.attempts| && settled.value.attempts[i].product == product)
  {
    hide DbOk, ProductOk, HasWork, Iterate, ReservedOk, Evolves, SoldKept;
    StoredProductOk(db, product);
    ReconcileKeepsProduct(db.products[product], cfg, db.clock);
    ReconcileSellsNothing(db.products[product], cfg, db.clock);
    var q := Reconcile(db.products[product], cfg, db.clock).value;
    EvolvesKeepsId(db.products[product], q);
    RowsBelong(q, db.clock);
    KeptIds(db.products[product], q);
    if Has(db.products[product], id) {
      FindStays(db.products[product], q, id);
    }
  }

  lemma RowsBelong(q: Product, now: Time)
    requires ProductOk(q, now)
    ensures forall i :: 0 <= i < |q.attempts| ==> q.attempts[i].product == q.id
  {
    assert Identified(q);
  }

  lemma KeptIds(p: Product, q: Product)
    requires SoldKept(p, q)
    ensures |p.attempts| <= |q.attempts| && forall i :: 0 <= i < |p.attempts| ==> q.attempts[i].id == p.attempts[i].id
  {
  }

  /** A transaction on the product, with the regular or the forced outcome. */
  lemma ProcessOnProductIsSound(db: Db, cfg: Config, product: Uuid, claim: Claim, seesOwner: bool, force: bool)
    requires DbOk(db) && (force ==> claim.command.outcome.Succeeded?)
    ensures SoundStep(db, claim, ProcessOnProduct(db, cfg, product, claim, seesOwner, force))
    ensures product in db.products && Fence(db, claim).None? && Has(db.products[product], claim.command.attempt) ==>
              var result := ProcessOnProduct(db, cfg, product, claim, seesOwner, force).result;
              result.Ok? || (!force && result == Err(ReferenceTaken))
  {
    hide SoundStep, DbOk, Settled, Fence, Reconcile, First, ApplySuccess, ApplyFailure, Compensate;
    if product !in db.products {
      RolledBack(db, claim, NotFound);
    } else if Fence(db, claim).Some? {
      RolledBack(db, claim, Fence(db, claim).value);
    } else {
      SettlesForClaim(db, cfg, product, claim);
      var q := Reconcile(db.products[product], cfg, db.clock).value;
      var i := First(q.attempts, WithId(claim.command.attempt));
      SettledHas(db, cfg, product, claim.command.attempt);
      if i == |q.attempts| || q.attempts[i].product != product {
        RolledBack(db, claim, StaleClaim);
      } else if force {
        CompensationStep(db, q, claim);
        NothingToRollBack(db, claim, Compensate(Put(db, product, q), claim));
      } else if claim.command.outcome.Succeeded? {
        assert Is(q.attempts[i], WithId(claim.command.attempt));
        SuccessIsSound(db, cfg, q, i, claim, seesOwner);
        NothingToRollBack(db, claim, ApplySuccess(db, cfg, q, i, claim, seesOwner));
      } else {
        FailureIsSound(db, cfg, q, i, claim);
        NothingToRollBack(db, claim, ApplyFailure(db, cfg, q, i, claim));
      }
    }
  }

  lemma UnknownAttemptIsSound(db: Db, claim: Claim)
    requires DbOk(db) && Fence(db, claim).None?
    ensures SoundStep(db, claim, Complete(db, claim, AttemptUnknown))
  {
    hide DbOk, DbEvolves, Fence, Closed;
    FencePasses(db, claim);
    QuietCompletionKeepsDb(db, claim, AttemptUnknown);
  }

  lemma ProcessClaimIsSound(db: Db, cfg: Config, claim: Claim, seesAttempt: bool, seesOwner: bool)
    requires DbOk(db)
    ensures SoundStep(db, claim, ProcessClaim(db, cfg, claim, seesAttempt, seesOwner))
  {
    hide DbOk, SoundStep, Fence, Complete, ProcessOnProduct;
    if PaymentDigest(claim.command) != claim.digest {
      RolledBack(db, claim, PaymentClaimIntegrity);
    } else if claim.command.attempt in db.home && seesAttempt {
      ProcessOnProductIsSound(db, cfg, db.home[claim.command.attempt], claim, seesOwner, false);
    } else if Fence(db, claim).Some? {
      RolledBack(db, claim, Fence(db, claim).value);
    } else {
      UnknownAttemptIsSound(db, claim);
    }
  }

  lemma LosersPaid(db: Db, claim: Claim)
    requires DbOk(db) && claim in db.losers
    ensures claim.command.outcome.Succeeded?
    ensures RefOf(claim.command) in db.accepted && db.accepted[RefOf(claim.command)] != claim.command.attempt
  {
    hide ShelvesOk, RowsOk, ReceiptsOk, CompensationsOk;
  }

  lemma ForceCompensationIsSound(db: Db, cfg: Config, claim: Claim)
    requires DbOk(db)
    ensures SoundStep(db, claim, ForceCompensation(db, cfg, claim))
  {
    hide DbOk, SoundStep, ProcessOnProduct;
    if claim in db.losers && claim.command.attempt in db.home {
      LosersPaid(db, claim);
      ProcessOnProductIsSound(db, cfg, db.home[claim.command.attempt], claim, true, true);
    } else {
      RolledBack(db, claim, ReferenceTaken);
    }
  }

  /** A worker that holds its claim finishes the event: at once, or in a second transaction after losing the
      race on the unique index. */
  lemma HeldClaimFinishes(db: Db, cfg: Config, claim: Claim, seesAttempt: bool, seesOwner: bool)
    requires DbOk(db) && Fence(db, claim).None?
    ensures var last := ProcessAndRerun(db, cfg, claim, seesAttempt, seesOwner);
            && last.result.Ok? && claim.inbox in last.db.inbox && Finished(last.db.inbox[claim.inbox])
            && last.db.inbox[claim.inbox].response == Some(last.result.value.code)
  {
    hide DbOk, DbEvolves, ProcessOnProduct, Complete, Fence, PaymentDigest;
    FencePasses(db, claim);
    FenceIsHonest(db, claim);
    ProcessClaimIsSound(db, cfg, claim, seesAttempt, seesOwner);
    var first := ProcessClaim(db, cfg, claim, seesAttempt, seesOwner);
    if claim.command.attempt in db.home && seesAttempt {
      var product := db.home[claim.command.attempt];
      HomeHas(db, claim.command.attempt);
      ProcessOnProductIsSound(db, cfg, product, claim, seesOwner, false);
      if first.result == Err(ReferenceTaken) {
        LostRaceIsRemembered(db, cfg, product, claim, seesOwner);
        LostClaimIsHeld(db, first.db, claim);
        HomeHas(first.db, claim.command.attempt);
        LosersPaid(first.db, claim);
        ProcessOnProductIsSound(first.db, cfg, product, claim, true, true);
      }
    } else {
      UnknownAttemptIsSound(db, claim);
      CompletedUnderFence(db, db, claim, AttemptUnknown);
    }
  }

  lemma FenceIsHonest(db: Db, claim: Claim)
    requires DbOk(db) && Fence(db, claim).None?
    ensures PaymentDigest(claim.command) == claim.digest
  {
    StoredRowOk(db, claim.inbox);
  }

  /** A lost race leaves the claim among the losers and the attempt where it was. */
  lemma LostRaceIsRemembered(db: Db, cfg: Config, product: Uuid, claim: Claim, seesOwner: bool)
    requires ProcessOnProduct(db, cfg, product, claim, seesOwner, false).result == Err(ReferenceTaken)
    ensures ProcessOnProduct(db, cfg, product, claim, seesOwner, false).db == db.(losers := db.losers + {claim})
  {
    hide Iterate, ReservedOk, First, Complete, ApplySuccess, ApplyFailure, Fence;
    FenceErrors(db, claim);
    if product in db.products && ReservedOk(db.products[product]) {
      var q := Reconcile(db.products[product], cfg, db.clock).value;
      var i := First(q.attempts, WithId(claim.command.attempt));
      if i < |q.attempts| {
        OnlyThePurchaseLoses(db, cfg, q, i, claim, seesOwner);
      }
    }
  }

  lemma FenceErrors(db: Db, claim: Claim)
    ensures Fence(db, claim) != Some(ReferenceTaken)
  {
  }

  lemma OnlyThePurchaseLoses(db: Db, cfg: Config, q: Product, i: nat, claim: Claim, seesOwner: bool)
    requires i < |q.attempts|
    ensures ApplySuccess(db, cfg, q, i, claim, seesOwner).result == Err(ReferenceTaken) ==>
              ApplySuccess(db, cfg, q, i, claim, seesOwner).db == db.(losers := db.losers + {claim})
    ensures ApplyFailure(db, cfg, q, i, claim).result != Err(ReferenceTaken)
  {
    hide Iterate, ReservedOk;
  }

  lemma LostClaimIsHeld(db: Db, e: Db, claim: Claim)
    requires Fence(db, claim).None? && e == db.(losers := db.losers + {claim})
    ensures Fence(e, claim).None? && claim in e.losers
  {
  }

  lemma HomeHas(db: Db, id: Uuid)
    requires DbOk(db) && id in db.home
    ensures db.home[id] in db.products && Has(db.products[db.home[id]], id)
  {
    hide ProductsOk, SalesOk, InboxOk;
  }
}
