/** Only an accepted payment makes a purchase: every other change keeps the set of purchased attempts. */
module Sales {
  import opened Wrappers
  import opened Domain
  import opened Reconciliation
  import opened Queue

  /** Nothing in `q` is purchased but what was already purchased in `p`, under the same payment. */
  ghost predicate SoldKept(p: Product, q: Product) {
    && |p.attempts| <= |q.attempts|
    && (forall i :: 0 <= i < |q.attempts| && q.attempts[i].state.Purchased? ==>
          i < |p.attempts| && p.attempts[i] == q.attempts[i])
    && (forall i :: 0 <= i < |p.attempts| ==> q.attempts[i].id == p.attempts[i].id)
  }

  lemma SoldKeptTransitively(p: Product, q: Product, r: Product)
    requires SoldKept(p, q) && SoldKept(q, r)
    ensures SoldKept(p, r)
  {
  }

  lemma {:induction false} IterateSellsNothing(p: Product, cfg: Config, now: Time, n: nat)
    ensures SoldKept(p, Iterate(p, cfg, now, n)) && |Iterate(p, cfg, now, n).attempts| == |p.attempts|
    decreases n
  {
    hide Step, HasWork;
    if n > 0 && HasWork(p, now) {
      StepSellsNothing(p, cfg, now);
      IterateSellsNothing(Step(p, cfg, now), cfg, now, n - 1);
    }
  }

  lemma StepSellsNothing(p: Product, cfg: Config, now: Time)
    requires HasWork(p, now)
    ensures SoldKept(p, Step(p, cfg, now)) && |Step(p, cfg, now).attempts| == |p.attempts|
  {
    WorkHasNextRow(p, now);
    hide NextRow, HasWork;
  }

  lemma ReconcileSellsNothing(p: Product, cfg: Config, now: Time)
    ensures Reconcile(p, cfg, now).Ok? ==>
              SoldKept(p, Reconcile(p, cfg, now).value)
              && |Reconcile(p, cfg, now).value.attempts| == |p.attempts|
  {
    IterateSellsNothing(p, cfg, now, Unbounded(p));
  }

  lemma AdmitSellsNothing(before: Product, p: Product, cfg: Config, now: Time, percent: int, user: Name, key: Name,
      id: Uuid, taken: bool)
    requires SoldKept(before, p)
    ensures var o := Admit(before, p, cfg, now, percent, user, key, id, taken);
            && SoldKept(before, o.product)
            && (o.result.Ok? ==>
                  && !taken && o.result.value.created && |o.product.attempts| == |p.attempts| + 1
                  && o.product.attempts[|p.attempts|].id == id
                  && o.result.value.attempt == o.product.attempts[|p.attempts|])
            && (o.result.Err? ==> o.product == before || |o.product.attempts| == |p.attempts|)
  {
    ReconcileSellsNothing(p, cfg, now);
    hide Iterate, ReservedOk, First, Count;
  }

  lemma JoinSellsNothing(p: Product, cfg: Config, now: Time, percent: int, user: Name, key: Name, id: Uuid, taken: bool)
    ensures var o := Join(p, cfg, now, percent, user, key, id, taken);
            && SoldKept(p, o.product)
            && (if o.result.Ok? && o.result.value.created
                then !taken && |o.product.attempts| == |p.attempts| + 1 && o.product.attempts[|p.attempts|].id == id
                else |o.product.attempts| == |p.attempts|)
  {
    ReconcileSellsNothing(p, cfg, now);
    hide Iterate, ReservedOk, First, Count, Admit, IsEffectiveAt;
    AdmitSellsNothing(p, p, cfg, now, percent, user, key, id, taken);
    var settled := Reconcile(p, cfg, now);
    if settled.Ok? {
      AdmitSellsNothing(p, settled.value, cfg, now, percent, user, key, id, taken);
    }
  }

  lemma OtherRequestsSellNothing(p: Product, cfg: Config, now: Time, id: Uuid, user: Name, limit: nat)
    ensures var q := StartCheckout(p, cfg, now, id, user).product; SoldKept(p, q) && |q.attempts| == |p.attempts|
    ensures var q := Cancel(p, cfg, now, user).product; SoldKept(p, q) && |q.attempts| == |p.attempts|
    ensures var q := FindCurrent(p, cfg, now, user).product; SoldKept(p, q) && |q.attempts| == |p.attempts|
    ensures var q := ReconcileBatch(p, cfg, now, limit).product; SoldKept(p, q) && |q.attempts| == |p.attempts|
  {
    hide ReservedOk, First, Last, HasWork;
    ReconcileSellsNothing(p, cfg, now);
    IterateSellsNothing(p, cfg, now, limit);
    hide Iterate;
    var settled := Reconcile(p, cfg, now);
    if settled.Ok? {
      var q := settled.value;
      var i := Last(q.attempts, OwnedBy(user));
      if i < |q.attempts| {
        ReconcileSellsNothing(CancelRow(q, i, now), cfg, now);
      }
    }
  }

  lemma AdjustmentSellsNothing(p: Product, cfg: Config, now: Time, key: Name, delta: int, digest: Text)
    ensures var q := AdjustStock(p, cfg, now, key, delta, digest).product;
            SoldKept(p, q) && |q.attempts| == |p.attempts|
  {
    hide ReservedOk, Iterate, FindAdjustment;
    ReconcileSellsNothing(p.(stock := p.stock + delta), cfg, now);
  }
}
