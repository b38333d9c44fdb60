/** Every request keeps the database invariant and lets the database only evolve. */
module DatabaseSafety {
  import opened Wrappers
  import opened Domain
  import opened Reconciliation
  import opened QueueInvariants
  import opened QueueSafety
  import opened Framing
  import opened Database
  import opened DatabaseInvariants
  import opened Sales
  import Queue

  // ---------------------------------------------------------------------------------------------
  // Queue requests
  // ---------------------------------------------------------------------------------------------

  lemma StoredProductOk(db: Db, product: Uuid)
    requires DbOk(db) && product in db.products
    ensures db.products[product].id == product && ProductOk(db.products[product], db.clock)
  {
    assert ProductsOk(db);
  }

  lemma FreshIdHonest(db: Db, product: Uuid, id: Uuid)
    requires DbOk(db) && product in db.products
    ensures IdHonest(db.products[product], id, id in db.home)
  {
    hide ProductsOk, SalesOk, InboxOk, HomesLead;
    var p := db.products[product];
    var i := First(p.attempts, WithId(id));
    assert IdsAreHome(db, product);
    if i < |p.attempts| {
      assert p.attempts[i].id in db.home;
    }
  }

  lemma EvolvesKeepsId(p: Product, q: Product)
    requires Evolves(p, q)
    ensures q.id == p.id
  {
  }

  lemma JoinKeepsDb(db: Db, cfg: Config, percent: int, product: Uuid, user: Name, key: Name, id: Uuid)
    requires DbOk(db)
    ensures var r := Join(db, cfg, percent, product, user, key, id); DbOk(r.db) && DbEvolves(db, r.db)
  {
    hide DbOk, DbEvolves, ProductOk, Evolves, SoldKept, IdHonest, Queue.Join;
    DbStands(db);
    if product in db.products {
      StoredProductOk(db, product);
      FreshIdHonest(db, product, id);
      var p := db.products[product];
      JoinKeepsProduct(p, cfg, db.clock, percent, user, key, id, id in db.home);
      JoinSellsNothing(p, cfg, db.clock, percent, user, key, id, id in db.home);
      var o := Queue.Join(p, cfg, db.clock, percent, user, key, id, id in db.home);
      EvolvesKeepsId(p, o.product);
      if o.result.Ok? && o.result.value.created {
        StoreNewcomerKeepsDb(db, o.product, id);
      } else {
        StoreKeepsDb(db, o.product);
        assert Put(db, product, o.product) == Put(db, o.product.id, o.product);
      }
    }
  }

  lemma StoreOutcome(db: Db, product: Uuid, q: Product)
    requires DbOk(db) && product in db.products && ProductOk(q, db.clock)
    requires Evolves(db.products[product], q) && SoldKept(db.products[product], q)
    requires |q.attempts| == |db.products[product].attempts|
    ensures DbOk(Put(db, product, q)) && DbEvolves(db, Put(db, product, q))
  {
    StoredProductOk(db, product);
    assert q.id == product;
    hide DbOk, DbEvolves, ProductOk, Evolves, SoldKept;
    StoreKeepsDb(db, q);
  }

  lemma QueueRequestsKeepDb(db: Db, cfg: Config, product: Uuid, id: Uuid, user: Name, limit: int)
    requires DbOk(db)
    ensures var r := StartCheckout(db, cfg, id, user); DbOk(r.db) && DbEvolves(db, r.db)
    ensures var r := Cancel(db, cfg, product, user); DbOk(r.db) && DbEvolves(db, r.db)
    ensures var r := FindCurrent(db, cfg, product, user); DbOk(r.db) && DbEvolves(db, r.db)
    ensures var r := ReconcileBatch(db, cfg, product, limit); DbOk(r.db) && DbEvolves(db, r.db)
  {
    hide DbOk, DbEvolves, ProductOk, Evolves, SoldKept, Queue.StartCheckout, Queue.Cancel, Queue.FindCurrent,
        Queue.ReconcileBatch;
    DbStands(db);
    if id in db.home && db.home[id] in db.products {
      var p := db.products[db.home[id]];
      StoredProductOk(db, db.home[id]);
      StartCheckoutKeepsProduct(p, cfg, db.clock, id, user);
      OtherRequestsSellNothing(p, cfg, db.clock, id, user, 0);
      StoreOutcome(db, db.home[id], Queue.StartCheckout(p, cfg, db.clock, id, user).product);
    }
    if product in db.products {
      var p := db.products[product];
      var n: nat := if limit > 0 then limit else 0;
      StoredProductOk(db, product);
      CancelRequestKeepsProduct(p, cfg, db.clock, user);
      FindCurrentKeepsProduct(p, cfg, db.clock, user);
      BatchKeepsProduct(p, cfg, db.clock, n);
      OtherRequestsSellNothing(p, cfg, db.clock, id, user, n);
      StoreOutcome(db, product, Queue.Cancel(p, cfg, db.clock, user).product);
      StoreOutcome(db, product, Queue.FindCurrent(p, cfg, db.clock, user).product);
      StoreOutcome(db, product, Queue.ReconcileBatch(p, cfg, db.clock, n).product);
    }
  }

  lemma AdjustStockKeepsDb(db: Db, cfg: Config, c: AdjustmentCommand)
    requires DbOk(db)
    ensures var r := AdjustStock(db, cfg, c); DbOk(r.db) && DbEvolves(db, r.db)
  {
    hide DbOk, DbEvolves, ProductOk, Evolves, SoldKept, Queue.AdjustStock, AdjustmentDigest;
    DbStands(db);
    if c.delta != 0 && c.product in db.products {
      var p := db.products[c.product];
      StoredProductOk(db, c.product);
      AdjustStockKeepsProduct(p, cfg, db.clock, c.key, c.delta, AdjustmentDigest(c));
      AdjustmentSellsNothing(p, cfg, db.clock, c.key, c.delta, AdjustmentDigest(c));
      StoreOutcome(db, c.product, Queue.AdjustStock(p, cfg, db.clock, c.key, c.delta, AdjustmentDigest(c)).product);
    }
  }

  // ---------------------------------------------------------------------------------------------
  // Inbox rows
  // ---------------------------------------------------------------------------------------------

  /** `e` answers the open event `id` with `row`, or leaves it open, and touches no other event. */
  predicate RowReplaced(db: Db, e: Db, id: Uuid, row: InboxRow) {
    && id in db.inbox && db.inbox[id].response.None? && row.command == db.inbox[id].command
    && e.inbox == db.inbox[id := row] && e.events == db.events
  }

  lemma ReplacedRowsOk(db: Db, e: Db, id: Uuid, row: InboxRow)
    requires RowsOk(db) && RowReplaced(db, e, id, row) && RowOk(row)
    ensures RowsOk(e)
  {
    hide RowOk;
  }

  lemma SameCompensations(db: Db, e: Db)
    requires CompensationsOk(db) && e.compensations == db.compensations
    requires forall i :: AnsweredWith(e, i, CompensationRequired) <==> AnsweredWith(db, i, CompensationRequired)
    ensures CompensationsOk(e)
  {
    hide AnsweredWith;
  }

  /** Receipts survive as long as acceptances are the same and every event answered already_accepted is
      entered under its own reference. */
  lemma SameReceipts(db: Db, e: Db)
    requires ReceiptsOk(db) && e.accepted == db.accepted
    requires forall i :: i in db.inbox ==> i in e.inbox && e.inbox[i].command == db.inbox[i].command
    requires forall i :: AnsweredWith(e, i, Accepted) && e.inbox[i].command.outcome.Succeeded? ==>
        AnsweredWith(db, i, Accepted)
    requires forall i :: AnsweredWith(db, i, Accepted) ==> AnsweredWith(e, i, Accepted)
    requires forall i :: AnsweredWith(e, i, AlreadyAccepted) && e.inbox[i].command.outcome.Succeeded? ==>
               || AnsweredWith(db, i, AlreadyAccepted)
               || (RefOf(e.inbox[i].command) in e.accepted
                   && e.accepted[RefOf(e.inbox[i].command)] == e.inbox[i].command.attempt)
    ensures ReceiptsOk(e)
  {
    forall ref | ref in e.accepted ensures exists i :: Bought(e, i, ref) {
      var i :| Bought(db, i, ref);
      assert AnsweredWith(e, i, Accepted);
      assert Bought(e, i, ref);
    }
    forall ref, i, j | Bought(e, i, ref) && Bought(e, j, ref) ensures i == j {
      assert Bought(db, i, ref) && Bought(db, j, ref);
    }
  }

  /** The answers after a row was replaced: its own, and the old ones elsewhere. */
  lemma AnswersAfter(db: Db, e: Db, id: Uuid, row: InboxRow, code: Code)
    requires RowReplaced(db, e, id, row)
    ensures forall i :: i != id ==> (AnsweredWith(e, i, code) <==> AnsweredWith(db, i, code))
    ensures !AnsweredWith(db, id, code) && (AnsweredWith(e, id, code) <==> row.response == Some(code))
    ensures forall i :: i in db.inbox ==> i in e.inbox && e.inbox[i].command == db.inbox[i].command
  {
    hide RowOk;
  }

  /** An open row that stays open concerns nobody but its holder. */
  lemma OpenRowKeepsInbox(db: Db, e: Db, id: Uuid, row: InboxRow)
    requires InboxOk(db) && RowReplaced(db, e, id, row) && RowOk(row) && row.response.None?
    requires e == db.(inbox := e.inbox)
    ensures InboxOk(e)
  {
    hide RowsOk, RowOk, CompensationsOk, ReceiptsOk, AnsweredWith, RowReplaced;
    ReplacedRowsOk(db, e, id, row);
    AnswersAfter(db, e, id, row, CompensationRequired);
    AnswersAfter(db, e, id, row, Accepted);
    AnswersAfter(db, e, id, row, AlreadyAccepted);
    SameCompensations(db, e);
    SameReceipts(db, e);
  }

  lemma NewRowsOk(db: Db, e: Db, id: Uuid, row: InboxRow)
    requires RowsOk(db) && id !in db.inbox && KeyOf(row.command) !in db.events && RowOk(row)
    requires e.inbox == db.inbox[id := row] && e.events == db.events[KeyOf(row.command) := id]
    ensures RowsOk(e)
  {
    hide RowOk, KeyOf;
    forall k | k in e.events ensures e.events[k] in e.inbox && KeyOf(e.inbox[e.events[k]].command) == k {
      if k != KeyOf(row.command) {
        assert k in db.events;
      }
    }
    forall i | i in e.inbox ensures KeyOf(e.inbox[i].command) in e.events && e.events[KeyOf(e.inbox[i].command)] == i {
      if i != id {
        assert i in db.inbox;
      }
    }
  }

  /** A claim on an event that was never seen opens its row. */
  lemma NewRowKeepsInbox(db: Db, e: Db, id: Uuid, row: InboxRow)
    requires InboxOk(db) && id !in db.inbox && KeyOf(row.command) !in db.events
    requires RowOk(row) && row.response.None?
    requires e == db.(inbox := db.inbox[id := row], events := db.events[KeyOf(row.command) := id])
    ensures InboxOk(e)
  {
    hide RowsOk, RowOk, CompensationsOk, ReceiptsOk;
    NewRowsOk(db, e, id, row);
    assert forall i, code :: AnsweredWith(e, i, code) <==> AnsweredWith(db, i, code);
    hide AnsweredWith;
    SameCompensations(db, e);
    SameReceipts(db, e);
  }

  /** Closing a row with a code that neither buys nor compensates. */
  lemma QuietCloseKeepsInbox(db: Db, e: Db, id: Uuid, code: Code)
    requires InboxOk(db) && id in db.inbox && RowReplaced(db, e, id, Closed(db.inbox[id], code))
    requires RowOk(Closed(db.inbox[id], code))
    requires e == db.(inbox := e.inbox)
    requires !code.CompensationRequired? && !(code.Accepted? && db.inbox[id].command.outcome.Succeeded?)
    requires code.AlreadyAccepted? ==>
               var c := db.inbox[id].command; RefOf(c) in db.accepted && db.accepted[RefOf(c)] == c.attempt
    ensures InboxOk(e)
  {
    var row := Closed(db.inbox[id], code);
    assert row.response == Some(code) && row.command == db.inbox[id].command;
    hide RowsOk, RowOk, CompensationsOk, ReceiptsOk, AnsweredWith, RowReplaced, Closed;
    ReplacedRowsOk(db, e, id, row);
    AnswersAfter(db, e, id, row, CompensationRequired);
    AnswersAfter(db, e, id, row, Accepted);
    AnswersAfter(db, e, id, row, AlreadyAccepted);
    SameCompensations(db, e);
    SameReceipts(db, e);
  }

  lemma {:induction false} CompensatedIsCounted(rows: seq<Compensation>, id: Uuid)
    ensures CountCompensations(rows, id) == 0 <==> forall k :: 0 <= k < |rows| ==> rows[k].inbox != id
  {
    if |rows| > 0 {
      CompensatedIsCounted(rows[..|rows| - 1], id);
    }
  }

  lemma OneMoreCompensation(db: Db, e: Db, id: Uuid, row: Compensation)
    requires CompensationsOk(db) && row.inbox == id && !AnsweredWith(db, id, CompensationRequired)
    requires AnsweredWith(e, id, CompensationRequired)
    requires forall i :: i != id ==>
        (AnsweredWith(e, i, CompensationRequired) <==> AnsweredWith(db, i, CompensationRequired))
    requires e.compensations == if Compensated(db, id) then db.compensations else db.compensations + [row]
    ensures CompensationsOk(e) && e.compensations == db.compensations + [row]
  {
    CompensatedIsCounted(db.compensations, id);
    assert (db.compensations + [row])[..|db.compensations|] == db.compensations;
    hide AnsweredWith;
  }

  /** Closing a row as compensation_required adds its one compensation row. */
  lemma CompensationKeepsInbox(db: Db, e: Db, id: Uuid, row: Compensation)
    requires InboxOk(db) && id in db.inbox && RowReplaced(db, e, id, Closed(db.inbox[id], CompensationRequired))
    requires RowOk(Closed(db.inbox[id], CompensationRequired)) && row.inbox == id
    requires e == db.(inbox := e.inbox, compensations := if Compensated(db, id) then db.compensations
        else db.compensations + [row])
    ensures InboxOk(e) && db.compensations <= e.compensations
  {
    var closed := Closed(db.inbox[id], CompensationRequired);
    assert closed.response == Some(CompensationRequired);
    hide RowsOk, RowOk, CompensationsOk, ReceiptsOk, AnsweredWith, Compensated, RowReplaced, Closed;
    ReplacedRowsOk(db, e, id, closed);
    AnswersAfter(db, e, id, closed, CompensationRequired);
    AnswersAfter(db, e, id, closed, Accepted);
    AnswersAfter(db, e, id, closed, AlreadyAccepted);
    OneMoreCompensation(db, e, id, row);
    SameReceipts(db, e);
  }

  lemma NewReceipt(db: Db, e: Db, id: Uuid, ref: PaymentRef)
    requires ReceiptsOk(db) && ref !in db.accepted && Bought(e, id, ref)
    requires e.accepted == db.accepted[ref := e.inbox[id].command.attempt]
    requires id in db.inbox && e.inbox == db.inbox[id := e.inbox[id]] && db.inbox[id].response.None?
    ensures ReceiptsOk(e)
  {
    assert forall i, r :: i != id ==> (Bought(e, i, r) <==> Bought(db, i, r));
    assert forall i, r :: Bought(db, i, r) ==> r in db.accepted && i != id;
    assert forall r :: Bought(e, id, r) ==> r == ref;
    forall r | r in e.accepted ensures exists i :: Bought(e, i, r) {
      if r != ref {
        var i :| Bought(db, i, r);
        assert Bought(e, i, r);
      }
    }
    forall r, i, j | Bought(e, i, r) && Bought(e, j, r) ensures i == j {
      if i != id {
        assert Bought(db, i, r);
      }
      if j != id {
        assert Bought(db, j, r);
      }
    }
    forall i | i in e.inbox && i != id && e.inbox[i].command.outcome.Succeeded?
               && (AnsweredWith(e, i, Accepted) || AnsweredWith(e, i, AlreadyAccepted))
      ensures RefOf(e.inbox[i].command) in e.accepted && e.accepted[RefOf(e.inbox[i].command)]
          == e.inbox[i].command.attempt
    {
      assert AnsweredWith(db, i, Accepted) || AnsweredWith(db, i, AlreadyAccepted);
    }
  }

  /** Closing a row as accepted enters its reference, which nobody had used, in the index. */
  lemma PurchaseKeepsInbox(db: Db, e: Db, id: Uuid)
    requires InboxOk(db) && id in db.inbox && RowReplaced(db, e, id, Closed(db.inbox[id], Accepted))
    requires RowOk(Closed(db.inbox[id], Accepted))
    requires db.inbox[id].command.outcome.Succeeded? && RefOf(db.inbox[id].command) !in db.accepted
    requires e == db.(inbox := e.inbox,
        accepted := db.accepted[RefOf(db.inbox[id].command) := db.inbox[id].command.attempt])
    ensures InboxOk(e)
  {
    hide RowsOk, RowOk, CompensationsOk, ReceiptsOk;
    ReplacedRowsOk(db, e, id, Closed(db.inbox[id], Accepted));
    AnswersAfter(db, e, id, Closed(db.inbox[id], Accepted), CompensationRequired);
    assert Bought(e, id, RefOf(db.inbox[id].command));
    hide AnsweredWith, Bought;
    SameCompensations(db, e);
    NewReceipt(db, e, id, RefOf(db.inbox[id].command));
  }
}
