/** What every reachable database satisfies, and how databases may evolve. */
module DatabaseInvariants {
  import opened Wrappers
  import opened Domain
  import opened Reconciliation
  import opened QueueInvariants
  import opened Framing
  import opened Database
  import opened Sales

  // ---------------------------------------------------------------------------------------------
  // Products, the primary key and the index of accepted payments
  // ---------------------------------------------------------------------------------------------

  predicate Has(p: Product, id: Uuid) { First(p.attempts, WithId(id)) < |p.attempts| }

  function Find(p: Product, id: Uuid): Attempt
    requires Has(p, id)
  {
    p.attempts[First(p.attempts, WithId(id))]
  }

  ghost predicate ProductsOk(db: Db) {
    forall x :: x in db.products ==> db.products[x].id == x && ProductOk(db.products[x], db.clock)
  }

  /** The attempts of product `x` are entered under it in the primary key. */
  ghost predicate IdsAreHome(db: Db, x: Uuid) {
    x in db.products && forall i :: 0 <= i < |db.products[x].attempts| ==>
      db.products[x].attempts[i].id in db.home && db.home[db.products[x].attempts[i].id] == x
  }

  ghost predicate AllAtHome(db: Db) { forall x :: x in db.products ==> IdsAreHome(db, x) }

  ghost predicate HomesLead(db: Db) {
    forall id :: id in db.home ==> db.home[id] in db.products && Has(db.products[db.home[id]], id)
  }

  /** Attempt ids are unique across all products. */
  ghost predicate HomesOk(db: Db) { AllAtHome(db) && HomesLead(db) }

  /** Attempt `id` was purchased under `ref`. */
  ghost predicate SoldUnder(db: Db, id: Uuid, ref: PaymentRef) {
    && id in db.home && db.home[id] in db.products && Has(db.products[db.home[id]], id)
    && Find(db.products[db.home[id]], id).state.Purchased?
    && Find(db.products[db.home[id]], id).accepted == Some(ref)
  }

  /** Every purchased attempt of product `x` is listed under its own reference. */
  ghost predicate SalesListed(db: Db, x: Uuid) {
    x in db.products
    && forall i :: 0 <= i < |db.products[x].attempts| && db.products[x].attempts[i].state.Purchased? ==>
      var a := db.products[x].attempts[i];
      a.accepted.Some? && a.accepted.value in db.accepted && db.accepted[a.accepted.value] == a.id
  }

  ghost predicate AllListed(db: Db) { forall x :: x in db.products ==> SalesListed(db, x) }

  ghost predicate ListSold(db: Db) { forall ref :: ref in db.accepted ==> SoldUnder(db, db.accepted[ref], ref) }

  /** The index of accepted references lists the purchased attempts, each under its own reference. */
  ghost predicate SalesOk(db: Db) { AllListed(db) && ListSold(db) }

  ghost predicate ShelvesOk(db: Db) { ProductsOk(db) && HomesOk(db) && SalesOk(db) }

  // ---------------------------------------------------------------------------------------------
  // The payment inbox
  // ---------------------------------------------------------------------------------------------

  predicate SuccessCode(code: Code) {
    code.Accepted? || code.AlreadyAccepted? || code.CompensationRequired? || code.AttemptUnknown?
  }

  predicate FailureCode(code: Code) {
    code.Accepted? || code.IgnoredPurchaseFinal? || code.IgnoredTerminal? || code.TransitionInvalid?
        || code.AttemptUnknown?
  }

  predicate RowOk(row: InboxRow) {
    && row.digest == PaymentDigest(row.command) && row.generation >= 0
    && (Finished(row) <==> row.response.Some?)
    && (row.status.Processing? <==> row.token.Some?)
    && (row.status.Processing? <==> row.leaseUntil.Some?)
    && (row.response.Some? ==>
          && (row.status.Rejected? <==> HttpStatus(row.response.value) >= 400)
          && (if row.command.outcome.Succeeded? then SuccessCode(row.response.value)
                else FailureCode(row.response.value)))
  }

  predicate RowsOk(db: Db) {
    && (forall id :: id in db.inbox ==> RowOk(db.inbox[id]))
    && (forall id :: id in db.inbox ==>
          KeyOf(db.inbox[id].command) in db.events && db.events[KeyOf(db.inbox[id].command)] == id)
    && (forall k :: k in db.events ==> db.events[k] in db.inbox && KeyOf(db.inbox[db.events[k]].command) == k)
  }

  function CountCompensations(rows: seq<Compensation>, id: Uuid): nat {
    if |rows| == 0 then 0
    else CountCompensations(rows[..|rows| - 1], id) + (if rows[|rows| - 1].inbox == id then 1 else 0)
  }

  predicate AnsweredWith(db: Db, id: Uuid, code: Code) { id in db.inbox && db.inbox[id].response == Some(code) }

  /** One compensation row for every event answered compensation_required, none for any other. */
  ghost predicate CompensationsOk(db: Db) {
    forall id :: CountCompensations(db.compensations, id)
        == (if AnsweredWith(db, id, CompensationRequired) then 1 else 0)
  }

  /** Event `id` is the one that bought something under `ref`. */
  predicate Bought(db: Db, id: Uuid, ref: PaymentRef) {
    AnsweredWith(db, id, Accepted) && db.inbox[id].command.outcome.Succeeded? && RefOf(db.inbox[id].command) == ref
  }

  /** Accepted references and accepting events correspond one to one. */
  ghost predicate ReceiptsOk(db: Db) {
    && (forall id :: id in db.inbox && db.inbox[id].command.outcome.Succeeded?
                     && (AnsweredWith(db, id, Accepted) || AnsweredWith(db, id, AlreadyAccepted)) ==>
          RefOf(db.inbox[id].command) in db.accepted
          && db.accepted[RefOf(db.inbox[id].command)] == db.inbox[id].command.attempt)
    && (forall ref :: ref in db.accepted ==> exists id :: Bought(db, id, ref))
    && (forall ref, i, j :: Bought(db, i, ref) && Bought(db, j, ref) ==> i == j)
  }

  /** A worker that lost the race on the index did lose it to another attempt. */
  ghost predicate LosersOk(db: Db) {
    forall c :: c in db.losers ==>
      c.command.outcome.Succeeded? && RefOf(c.command) in db.accepted
          && db.accepted[RefOf(c.command)] != c.command.attempt
  }

  ghost predicate InboxOk(db: Db) { RowsOk(db) && CompensationsOk(db) && ReceiptsOk(db) && LosersOk(db) }

  ghost predicate DbOk(db: Db) { ShelvesOk(db) && InboxOk(db) }

  // ---------------------------------------------------------------------------------------------
  // Evolution
  // ---------------------------------------------------------------------------------------------

  /** Generations only rise; a finished row is frozen; a lease under the same generation is the same lease. */
  predicate RowEvolves(r: InboxRow, s: InboxRow) {
    && s.command == r.command && s.digest == r.digest
    && r.generation <= s.generation
    && (Finished(r) ==> s == r)
    && (s.status.Processing? && s.generation == r.generation ==> s == r)
  }

  ghost predicate DbEvolves(a: Db, b: Db) {
    && a.clock <= b.clock
    && a.products.Keys == b.products.Keys
    && (forall x :: x in a.products ==> Evolves(a.products[x], b.products[x]))
    && (forall id :: id in a.home ==> id in b.home && b.home[id] == a.home[id])
    && (forall ref :: ref in a.accepted ==> ref in b.accepted && b.accepted[ref] == a.accepted[ref])
    && (forall id :: id in a.inbox ==> id in b.inbox && RowEvolves(a.inbox[id], b.inbox[id]))
    && (forall k :: k in a.events ==> k in b.events && b.events[k] == a.events[k])
    && a.compensations <= b.compensations
  }

  lemma DbEvolvesTransitively(a: Db, b: Db, c: Db)
    requires DbEvolves(a, b) && DbEvolves(b, c)
    ensures DbEvolves(a, c)
  {
    hide Evolves, RowEvolves;
    forall x | x in a.products ensures Evolves(a.products[x], c.products[x]) {
      assert x in a.products.Keys && x in b.products.Keys;
      EvolvesTransitively(a.products[x], b.products[x], c.products[x]);
    }
    forall id | id in a.inbox ensures id in c.inbox && RowEvolves(a.inbox[id], c.inbox[id]) {
      RowEvolvesTransitively(a.inbox[id], b.inbox[id], c.inbox[id]);
    }
  }

  lemma RowEvolvesTransitively(r: InboxRow, s: InboxRow, t: InboxRow)
    requires RowEvolves(r, s) && RowEvolves(s, t)
    ensures RowEvolves(r, t)
  {
  }

  lemma DbStands(db: Db)
    ensures DbEvolves(db, db)
  {
    hide Evolves;
    forall x | x in db.products ensures Evolves(db.products[x], db.products[x]) {
      Standing(db.products[x]);
    }
  }

  // ---------------------------------------------------------------------------------------------
  // Storing a product
  // ---------------------------------------------------------------------------------------------

  /** `q` is a sound successor of the stored product. */
  ghost predicate MayStore(db: Db, q: Product) {
    q.id in db.products && ProductOk(q, db.clock) && Evolves(db.products[q.id], q)
  }

  /** ... that moreover sold nothing. */
  ghost predicate MayReplace(db: Db, q: Product) { MayStore(db, q) && SoldKept(db.products[q.id], q) }

  lemma FindStays(p: Product, q: Product, id: Uuid)
    requires |p.attempts| <= |q.attempts|
        && (forall i :: 0 <= i < |p.attempts| ==> q.attempts[i].id == p.attempts[i].id)
    requires Has(p, id)
    ensures Has(q, id) && First(q.attempts, WithId(id)) == First(p.attempts, WithId(id))
  {
    var i := First(p.attempts, WithId(id));
    assert Is(q.attempts[i], WithId(id));
    forall j | 0 <= j < i ensures !Is(q.attempts[j], WithId(id)) {
      assert !Is(p.attempts[j], WithId(id));
    }
  }

  lemma StoreKeepsProducts(db: Db, q: Product)
    requires ProductsOk(db) && MayStore(db, q)
    ensures ProductsOk(Put(db, q.id, q))
    ensures DbEvolves(db, Put(db, q.id, q))
  {
    hide ProductOk, Evolves, SoldKept;
    DbStands(db);
  }

  ghost predicate SameIds(p: Product, q: Product) {
    |p.attempts| <= |q.attempts| && forall i :: 0 <= i < |p.attempts| ==> q.attempts[i].id == p.attempts[i].id
  }

  /** `e` stores `q` in place of the product with its id; what is new in `q` is entered in the primary key. */
  lemma StoreKeepsHomes(db: Db, q: Product, e: Db)
    requires HomesOk(db) && q.id in db.products && SameIds(db.products[q.id], q)
    requires e.products == db.products[q.id := q]
    requires forall id :: id in db.home ==> id in e.home && e.home[id] == db.home[id]
    requires forall id :: id in e.home && id !in db.home ==> e.home[id] == q.id && Has(q, id)
    requires forall i :: |db.products[q.id].attempts| <= i < |q.attempts| ==>
               q.attempts[i].id in e.home && e.home[q.attempts[i].id] == q.id
    ensures HomesOk(e)
  {
    hide HomesLead, AllAtHome, SameIds, Has;
    StoreKeepsLeads(db, q, e);
    StoreKeepsIds(db, q, e);
  }

  lemma StoreKeepsIds(db: Db, q: Product, e: Db)
    requires AllAtHome(db) && q.id in db.products && SameIds(db.products[q.id], q)
    requires e.products == db.products[q.id := q]
    requires forall id :: id in db.home ==> id in e.home && e.home[id] == db.home[id]
    requires forall i :: |db.products[q.id].attempts| <= i < |q.attempts| ==>
               q.attempts[i].id in e.home && e.home[q.attempts[i].id] == q.id
    ensures AllAtHome(e)
  {
    forall x | x in e.products ensures IdsAreHome(e, x) {
      assert x in db.products && IdsAreHome(db, x);
    }
  }

  lemma StoreKeepsLeads(db: Db, q: Product, e: Db)
    requires HomesLead(db) && q.id in db.products && SameIds(db.products[q.id], q)
    requires e.products == db.products[q.id := q]
    requires forall id :: id in db.home ==> id in e.home && e.home[id] == db.home[id]
    requires forall id :: id in e.home && id !in db.home ==> e.home[id] == q.id && Has(q, id)
    ensures HomesLead(e)
  {
    hide Has;
    forall id | id in e.home ensures e.home[id] in e.products && Has(e.products[e.home[id]], id) {
      if id in db.home && e.home[id] == q.id {
        FindStays(db.products[q.id], q, id);
      }
    }
  }

  lemma StoreKeepsSoldUnder(db: Db, q: Product, id: Uuid, ref: PaymentRef)
    requires q.id in db.products && SoldUnder(db, id, ref)
    requires Evolves(db.products[q.id], q)
    ensures SoldUnder(Put(db, q.id, q), id, ref)
  {
    hide Ledger;
    var p := db.products[db.home[id]];
    var i := First(p.attempts, WithId(id));
    if db.home[id] == q.id {
      assert AttemptEvolves(p.attempts[i], q.attempts[i]);
      forall j | 0 <= j < |p.attempts| ensures q.attempts[j].id == p.attempts[j].id {
        assert AttemptEvolves(p.attempts[j], q.attempts[j]);
      }
      FindStays(p, q, id);
    }
  }

  lemma StoreKeepsListed(db: Db, q: Product)
    requires AllListed(db) && q.id in db.products && SoldKept(db.products[q.id], q)
    ensures AllListed(Put(db, q.id, q))
  {
    var e := Put(db, q.id, q);
    forall x | x in e.products ensures SalesListed(e, x) {
      assert x in db.products && SalesListed(db, x);
    }
  }

  lemma StoreKeepsSales(db: Db, q: Product)
    requires SalesOk(db) && MayReplace(db, q)
    ensures SalesOk(Put(db, q.id, q))
  {
    hide ProductOk, Evolves, SoldUnder, SoldKept, AllListed;
    StoreKeepsListed(db, q);
    var e := Put(db, q.id, q);
    forall ref | ref in e.accepted ensures SoldUnder(e, e.accepted[ref], ref) {
      StoreKeepsSoldUnder(db, q, db.accepted[ref], ref);
    }
  }

  lemma ReplacementKeepsIds(db: Db, q: Product)
    requires MayReplace(db, q)
    ensures SameIds(db.products[q.id], q)
  {
    hide ProductOk, Evolves;
  }

  lemma StoreKeepsDb(db: Db, q: Product)
    requires DbOk(db) && MayReplace(db, q) && |q.attempts| == |db.products[q.id].attempts|
    ensures DbOk(Put(db, q.id, q)) && DbEvolves(db, Put(db, q.id, q))
  {
    hide ProductsOk, HomesOk, SalesOk, SameIds, InboxOk, DbEvolves, ProductOk, Evolves, SoldKept;
    ReplacementKeepsIds(db, q);
    StoreKeepsProducts(db, q);
    StoreKeepsHomes(db, q, Put(db, q.id, q));
    StoreKeepsSales(db, q);
    SameInbox(db, Put(db, q.id, q));
  }

  lemma SameReceiptsTable(db: Db, e: Db)
    requires ReceiptsOk(db) && e.inbox == db.inbox && e.accepted == db.accepted
    ensures ReceiptsOk(e)
  {
    forall ref | ref in e.accepted ensures exists id :: Bought(e, id, ref) {
      var id :| Bought(db, id, ref);
      assert Bought(e, id, ref);
    }
    forall ref, i, j | Bought(e, i, ref) && Bought(e, j, ref) ensures i == j {
      assert Bought(db, i, ref) && Bought(db, j, ref);
    }
  }

  lemma SameCompensationsTable(db: Db, e: Db)
    requires CompensationsOk(db) && e.inbox == db.inbox && e.compensations == db.compensations
    ensures CompensationsOk(e)
  {
    assert forall id :: AnsweredWith(e, id, CompensationRequired) <==> AnsweredWith(db, id, CompensationRequired);
    hide AnsweredWith;
  }

  lemma SameInbox(db: Db, e: Db)
    requires InboxOk(db) && e.inbox == db.inbox && e.events == db.events && e.compensations == db.compensations
    requires e.accepted == db.accepted && e.losers <= db.losers
    ensures InboxOk(e)
  {
    hide RowOk, ReceiptsOk, CompensationsOk;
    SameReceiptsTable(db, e);
    SameCompensationsTable(db, e);
  }

  /** The primary key may grow under the index of accepted references. */
  lemma NewHomeKeepsSales(db: Db, e: Db)
    requires SalesOk(db) && e.products == db.products && e.accepted == db.accepted
    requires forall id :: id in db.home ==> id in e.home && e.home[id] == db.home[id]
    ensures SalesOk(e)
  {
    hide Has;
    forall ref | ref in e.accepted ensures SoldUnder(e, e.accepted[ref], ref) {
      assert SoldUnder(db, db.accepted[ref], ref);
    }
    hide SoldUnder;
  }

  lemma NewcomerIsHome(db: Db, q: Product, id: Uuid)
    requires HomesOk(db) && q.id in db.products && SoldKept(db.products[q.id], q) && id !in db.home
    requires |q.attempts| == |db.products[q.id].attempts| + 1 && q.attempts[|q.attempts| - 1].id == id
    ensures HomesOk(Put(db, q.id, q).(home := db.home[id := q.id]))
  {
    assert SameIds(db.products[q.id], q);
    assert Is(q.attempts[|q.attempts| - 1], WithId(id));
    hide SoldKept, SameIds, HomesOk;
    StoreKeepsHomes(db, q, Put(db, q.id, q).(home := db.home[id := q.id]));
  }

  /** Storing a product with one new attempt, and the attempt's place in the primary key. */
  lemma StoreNewcomerKeepsDb(db: Db, q: Product, id: Uuid)
    requires DbOk(db) && MayReplace(db, q) && id !in db.home
    requires |q.attempts| == |db.products[q.id].attempts| + 1 && q.attempts[|q.attempts| - 1].id == id
    ensures var e := Put(db, q.id, q).(home := db.home[id := q.id]);
            DbOk(e) && DbEvolves(db, e)
  {
    hide ProductsOk, InboxOk, DbEvolves, ProductOk, HomesOk, SalesOk, Evolves, SoldKept;
    var f := Put(db, q.id, q);
    var e := f.(home := db.home[id := q.id]);
    NewcomerIsHome(db, q, id);
    StoreKeepsProducts(db, q);
    StoreKeepsSales(db, q);
    NewHomeKeepsSales(f, e);
    NewHomeKeepsProducts(f, e);
    NewHomeEvolves(db, f, e, id, q.id);
    SameInbox(db, e);
  }

  lemma NewHomeKeepsProducts(f: Db, e: Db)
    requires ProductsOk(f) && e == f.(home := e.home)
    ensures ProductsOk(e)
  {
    hide ProductOk;
  }

  lemma NewHomeEvolves(db: Db, f: Db, e: Db, id: Uuid, x: Uuid)
    requires DbEvolves(db, f) && id !in db.home && e == f.(home := db.home[id := x])
    ensures DbEvolves(db, e)
  {
    hide Evolves, RowEvolves;
  }
}
