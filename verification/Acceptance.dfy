/** Every state that the shop can reach passes the load-test verifier. */
module Acceptance {
  import opened Wrappers
  import opened Domain
  import opened Reconciliation
  import opened QueueInvariants
  import opened Database
  import opened DatabaseInvariants
  import opened Runs
  import opened Verifier
  import Queue

  function SnapshotOf(p: Product): ProductSnapshot { ProductSnapshot(p.id, p.stock, p.reserved, p.nextSequence) }

  predicate Selects(db: Db, ids: seq<Uuid>) {
    && (forall n :: 0 <= n < |ids| ==> ids[n] in db.products)
    && (forall m, n :: 0 <= m < n < |ids| ==> ids[m] != ids[n])
  }

  /** The products of a run, and below their attempts, as the verifier reads them: product by product, each
      history in sequence order. */
  function ReadProducts(db: Db, ids: seq<Uuid>): (r: seq<ProductSnapshot>)
    requires Selects(db, ids)
    ensures |r| == |ids| && forall n :: 0 <= n < |ids| ==> r[n] == SnapshotOf(db.products[ids[n]])
  {
    seq(|ids|, n requires 0 <= n < |ids| => SnapshotOf(db.products[ids[n]]))
  }

  function ReadAttempts(db: Db, ids: seq<Uuid>): seq<Attempt>
    requires Selects(db, ids)
  {
    if |ids| == 0 then [] else ReadAttempts(db, ids[..|ids| - 1]) + db.products[ids[|ids| - 1]].attempts
  }

  /** Row `i` of the listing is row `k` of product `ids[n]`; later rows come from later places. */
  lemma {:induction false} Place(db: Db, ids: seq<Uuid>, i: nat) returns (n: nat, k: nat)
    requires Selects(db, ids) && i < |ReadAttempts(db, ids)|
    ensures n < |ids| && k < |db.products[ids[n]].attempts|
    ensures ReadAttempts(db, ids)[i] == db.products[ids[n]].attempts[k]
    ensures i == |ReadAttempts(db, ids[..n])| + k
  {
    var rest := ids[..|ids| - 1];
    var before := |ReadAttempts(db, rest)|;
    if i < before {
      n, k := Place(db, rest, i);
      assert rest[..n] == ids[..n];
    } else {
      n, k := |ids| - 1, i - before;
    }
  }

  /** Every history is numbered in order and under its own product. */
  ghost predicate InOrder(db: Db) {
    forall x :: x in db.products ==> Identified(db.products[x]) && Sequenced(db.products[x]) && db.products[x].id == x
  }

  /** Two different rows of the listing are different rows of one product, in the same order, or belong to
      different products. */
  lemma Places(db: Db, ids: seq<Uuid>, i: nat, j: nat) returns (m: nat, k: nat, n: nat, l: nat)
    requires Selects(db, ids) && i < j < |ReadAttempts(db, ids)|
    requires InOrder(db)
    ensures m < |ids| && n < |ids| && k < |db.products[ids[m]].attempts| && l < |db.products[ids[n]].attempts|
    ensures ReadAttempts(db, ids)[i] == db.products[ids[m]].attempts[k]
    ensures ReadAttempts(db, ids)[j] == db.products[ids[n]].attempts[l]
    ensures ReadAttempts(db, ids)[i].product == ids[m] && ReadAttempts(db, ids)[j].product == ids[n]
    ensures ids[m] == ids[n] ==> m == n && k < l
  {
    m, k := Place(db, ids, i);
    n, l := Place(db, ids, j);
  }

  // ---------------------------------------------------------------------------------------------
  // Counting over the listing
  // ---------------------------------------------------------------------------------------------

  lemma {:induction false} CountsAdd(s: seq<Attempt>, t: seq<Attempt>, x: Uuid)
    ensures CountOf(s + t, x) == CountOf(s, x) + CountOf(t, x)
    ensures MaximumOf(s + t, x) == if MaximumOf(s, x) > MaximumOf(t, x) then MaximumOf(s, x) else MaximumOf(t, x)
    decreases |t|
  {
    if |t| == 0 {
      assert s + t == s;
    } else {
      assert (s + t)[..|s + t| - 1] == s + t[..|t| - 1];
      CountsAdd(s, t[..|t| - 1], x);
    }
  }

  lemma {:induction false} HistoryCounts(h: seq<Attempt>, owner: Uuid, x: Uuid)
    requires forall i :: 0 <= i < |h| ==> h[i].sequence == i + 1 && h[i].product == owner
    ensures CountOf(h, x) == MaximumOf(h, x) == if x == owner then |h| else 0
  {
    if |h| > 0 {
      HistoryCounts(h[..|h| - 1], owner, x);
    }
  }

  lemma OneHistoryCounts(db: Db, y: Uuid, x: Uuid)
    requires InOrder(db) && y in db.products
    ensures var h := db.products[y].attempts; CountOf(h, x) == MaximumOf(h, x) == if x == y then |h| else 0
  {
    assert Identified(db.products[y]) && Sequenced(db.products[y]);
    HistoryCounts(db.products[y].attempts, y, x);
  }

  lemma LastSelected(db: Db, ids: seq<Uuid>, x: Uuid)
    requires Selects(db, ids) && |ids| > 0
    ensures Selects(db, ids[..|ids| - 1]) && ids[|ids| - 1] in db.products && ids[|ids| - 1] !in ids[..|ids| - 1]
    ensures x in ids <==> x in ids[..|ids| - 1] || x == ids[|ids| - 1]
    ensures x in ids ==> x in db.products
  {
    assert ids == ids[..|ids| - 1] + [ids[|ids| - 1]];
  }

  /** How many attempts of product `x` the listing of `ids` holds. */
  function Listed(db: Db, ids: seq<Uuid>, x: Uuid): nat
    requires Selects(db, ids)
  {
    if x in ids then |db.products[x].attempts| else 0
  }

  lemma {:induction false} ListingCounts(db: Db, ids: seq<Uuid>, x: Uuid)
    requires Selects(db, ids) && InOrder(db)
    ensures CountOf(ReadAttempts(db, ids), x) == MaximumOf(ReadAttempts(db, ids), x)
            == Listed(db, ids, x)
  {
    if |ids| > 0 {
      hide Selects, InOrder;
      LastSelected(db, ids, x);
      var rest, last := ids[..|ids| - 1], ids[|ids| - 1];
      OneHistoryCounts(db, last, x);
      CountsAdd(ReadAttempts(db, rest), db.products[last].attempts, x);
      ListingCounts(db, rest, x);
      hide CountOf, MaximumOf;
    }
  }

  // ---------------------------------------------------------------------------------------------
  // The checks
  // ---------------------------------------------------------------------------------------------

  ghost predicate StoreOk(db: Db) {
    forall x :: x in db.products ==> db.products[x].id == x && ProductOk(db.products[x], db.clock)
  }

  /** User ids and product ids are canonical UUIDs; the parsers refuse anything else. */
  predicate CanonicalIds(attempts: seq<Attempt>) {
    forall i :: 0 <= i < |attempts| ==> IsUuid(attempts[i].user) && IsUuid(attempts[i].product)
  }

  lemma StampsOfSoundAttempt(a: Attempt, now: Time)
    requires AttemptOk(a, now)
    ensures StampsFit(a)
  {
  }

  lemma StampsHold(db: Db, ids: seq<Uuid>)
    requires Selects(db, ids) && StoreOk(db)
    ensures StampsSound(ReadAttempts(db, ids))
  {
    hide AttemptOk, StampsFit, ReadAttempts;
    var s := ReadAttempts(db, ids);
    forall i | 0 <= i < |s| ensures StampsFit(s[i]) {
      var n, k := Place(db, ids, i);
      assert ProductOk(db.products[ids[n]], db.clock);
      StampsOfSoundAttempt(s[i], db.clock);
    }
  }

  lemma Parts(db: Db, x: Uuid)
    requires StoreOk(db) && x in db.products
    ensures db.products[x].id == x && Identified(db.products[x]) && Sequenced(db.products[x])
        && OnlyNewestActive(db.products[x])
    ensures InventoryOk(db.products[x])
  {
  }

  lemma AllParts(db: Db)
    requires StoreOk(db)
    ensures InOrder(db)
  {
    hide StoreOk, Identified, Sequenced;
    forall x | x in db.products ensures db.products[x].id == x && Identified(db.products[x])
        && Sequenced(db.products[x]) {
      Parts(db, x);
    }
  }

  lemma PairsHold(db: Db, ids: seq<Uuid>, i: nat, j: nat)
    requires Selects(db, ids) && StoreOk(db) && i < j < |ReadAttempts(db, ids)|
    ensures var a, b := ReadAttempts(db, ids)[i], ReadAttempts(db, ids)[j];
            a.product == b.product ==>
              && a.sequence < b.sequence && a.createdAt <= b.createdAt
              && !(a.user == b.user && IsActive(a.state)) && !(a.user == b.user && a.key == b.key)
  {
    hide StoreOk, ReadAttempts;
    AllParts(db);
    hide InOrder, Identified, Sequenced, OnlyNewestActive, InventoryOk;
    var m, k, n, l := Places(db, ids, i, j);
    Parts(db, ids[m]);
    if m == n {
      RowsOfOneProduct(db.products[ids[m]], k, l);
    }
  }

  lemma RowsOfOneProduct(p: Product, k: nat, l: nat)
    requires Identified(p) && Sequenced(p) && OnlyNewestActive(p) && k < l < |p.attempts|
    ensures var a, b := p.attempts[k], p.attempts[l];
            && a.sequence < b.sequence && a.createdAt <= b.createdAt
            && !(a.user == b.user && IsActive(a.state)) && !(a.user == b.user && a.key == b.key)
  {
  }

  lemma PairChecksHold(db: Db, ids: seq<Uuid>)
    requires Selects(db, ids) && StoreOk(db) && CanonicalIds(ReadAttempts(db, ids))
    ensures var s := ReadAttempts(db, ids);
            NoDuplicates(s) && OneActive(s) && KeysAgree(s) && Fifo(s) && TiesAgreeInProduct(s)
  {
    hide StoreOk, ReadAttempts, Selects, SequenceKey, ActiveKey, JoinKey;
    var s := ReadAttempts(db, ids);
    forall i, j | 0 <= i < j < |s|
      ensures SequenceKey(s[i]) != SequenceKey(s[j]) && JoinKey(s[i]) != JoinKey(s[j])
      ensures IsActive(s[i].state) ==> ActiveKey(s[i]) != ActiveKey(s[j])
    {
      PairsHold(db, ids, i, j);
      SequenceKeyIdentifies(s[i], s[j]);
      JoinKeyIdentifies(s[i], s[j]);
      ActiveKeyIdentifies(s[i], s[j]);
    }
    OrderHolds(db, ids);
  }

  lemma OrderHolds(db: Db, ids: seq<Uuid>)
    requires Selects(db, ids) && StoreOk(db)
    ensures Fifo(ReadAttempts(db, ids)) && TiesAgreeInProduct(ReadAttempts(db, ids))
  {
    hide StoreOk, ReadAttempts, Selects;
    var s := ReadAttempts(db, ids);
    forall a, b | a in s && b in s && a.product == b.product
      ensures a.sequence < b.sequence ==> a.createdAt <= b.createdAt
      ensures a.sequence == b.sequence ==> a.createdAt == b.createdAt
    {
      var i :| 0 <= i < |s| && s[i] == a;
      var j :| 0 <= j < |s| && s[j] == b;
      if i < j {
        PairsHold(db, ids, i, j);
      } else if j < i {
        PairsHold(db, ids, j, i);
      }
    }
  }

  lemma OneProductPasses(db: Db, ids: seq<Uuid>, n: nat)
    requires Selects(db, ids) && StoreOk(db) && n < |ids|
    ensures var p := SnapshotOf(db.products[ids[n]]); InBounds(p) && Counted(p, ReadAttempts(db, ids))
  {
    hide ReadAttempts, CountOf, MaximumOf, StoreOk, InOrder, Identified, Sequenced, OnlyNewestActive, ReservedOk;
    AllParts(db);
    Parts(db, ids[n]);
    NextIsFree(db.products[ids[n]]);
    ListingCounts(db, ids, ids[n]);
  }

  lemma ProductChecksHold(db: Db, ids: seq<Uuid>)
    requires Selects(db, ids) && StoreOk(db)
    ensures InventorySound(ReadProducts(db, ids))
    ensures forall n :: 0 <= n < |ids| ==> Counted(ReadProducts(db, ids)[n], ReadAttempts(db, ids))
  {
    hide ReadAttempts, StoreOk, InBounds, Counted;
    forall n | 0 <= n < |ids|
      ensures InBounds(ReadProducts(db, ids)[n]) && Counted(ReadProducts(db, ids)[n], ReadAttempts(db, ids))
    {
      OneProductPasses(db, ids, n);
    }
  }

  lemma NextIsFree(p: Product)
    requires Sequenced(p) && InventoryOk(p)
    ensures p.nextSequence == Wrap64(|p.attempts| + 1) && 0 <= p.reserved <= p.stock
  {
  }

  /** At every moment of every run, for any selection of its products, the verifier's inventory, one-active,
      sequence, creation-order, idempotency and timestamp checks all pass. */
  lemma EveryMomentPasses(db: Db, cfg: Config, ids: seq<Uuid>)
    requires Moment(db, cfg) && Selects(db, ids) && CanonicalIds(ReadAttempts(db, ids))
    ensures var products, attempts := ReadProducts(db, ids), ReadAttempts(db, ids);
            && InventorySound(products) && OneActive(attempts) && SequencesPass(products, attempts)
            && Fifo(attempts) && KeysAgree(attempts) && StampsSound(attempts) && TiesAgreeInProduct(attempts)
  {
    hide Moment, ReadAttempts, InventorySound, OneActive, NoDuplicates, Fifo, KeysAgree, StampsSound,
        TiesAgreeInProduct, Counted;
    MomentIsSound(db, cfg);
    assert StoreOk(db);
    hide DbOk, StoreOk, Selects, CanonicalIds;
    PairChecksHold(db, ids);
    ProductChecksHold(db, ids);
    StampsHold(db, ids);
  }

  /** The creation-order check depends on reading the clock under the product lock: an attempt created with an
      older reading than the newest attempt's fails it, and any other passes. */
  lemma OrderNeedsTheLock(p: Product, cfg: Config, now: Time, percent: int, user: Name, key: Name, id: Uuid,
      taken: bool)
    requires Sequenced(p) && Identified(p) && |p.attempts| > 0
    requires Queue.CreateAttempt(p, cfg, now, percent, user, key, id, taken).Ok?
    ensures Fifo(Queue.CreateAttempt(p, cfg, now, percent, user, key, id, taken).value.attempts)
       <==> now >= p.attempts[|p.attempts| - 1].createdAt
  {
    hide WaitingCapacity;
    var q := Queue.CreateAttempt(p, cfg, now, percent, user, key, id, taken).value;
    var last := |p.attempts|;
    assert q.attempts == p.attempts + [q.attempts[last]] && q.attempts[last].createdAt == now;
    if Fifo(q.attempts) {
      assert q.attempts[last - 1] in q.attempts && q.attempts[last] in q.attempts;
    }
  }

  /** The verifier itself, on any such state, reports success. */
  method VerifyMoment(db: Db, ghost cfg: Config, ids: seq<Uuid>) returns (passed: bool)
    requires Moment(db, cfg) && Selects(db, ids) && CanonicalIds(ReadAttempts(db, ids))
    ensures passed
  {
    hide Moment, ReadAttempts, InventorySound, OneActive, SequencesPass, Fifo, KeysAgree, StampsSound,
        TiesAgreeInProduct;
    EveryMomentPasses(db, cfg, ids);
    var checks;
    passed, checks := Evaluate(ReadProducts(db, ids), ReadAttempts(db, ids));
  }
}
