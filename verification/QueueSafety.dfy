/** Every queue request keeps the product invariant, and what the requests promise to users. */
module QueueSafety {
  import opened Wrappers
  import opened Domain
  import opened Reconciliation
  import opened Queue
  import opened QueueInvariants

  // ---------------------------------------------------------------------------------------------
  // Single moves made by requests
  // ---------------------------------------------------------------------------------------------

  lemma CheckedOutAttemptOk(a: Attempt, cfg: Config, now: Time)
    requires AttemptOk(a, now) && a.state.Invited? && !Is(a, Overdue(now))
    ensures var b := EnterCheckout(a, now, cfg);
            AttemptOk(b, now) && AttemptEvolves(a, b) && EverPromoted(b) == EverPromoted(a)
  {
  }

  lemma CancelledAttemptOk(a: Attempt, now: Time)
    requires AttemptOk(a, now) && IsActive(a.state) && !Is(a, Overdue(now))
    ensures var b := Finish(a, Cancelled, now);
            AttemptOk(b, now) && AttemptEvolves(a, b) && EverPromoted(b) == EverPromoted(a)
  {
  }

  lemma PurchasedAttemptOk(a: Attempt, ref: PaymentRef, now: Time)
    requires AttemptOk(a, now) && a.state.Checkout? && !Is(a, Overdue(now))
    ensures var b := Purchase(a, ref, now);
            AttemptOk(b, now) && AttemptEvolves(a, b) && EverPromoted(b) == EverPromoted(a)
  {
  }

  lemma FailedAttemptOk(a: Attempt, now: Time)
    requires AttemptOk(a, now) && a.state.Checkout? && !Is(a, Overdue(now))
    ensures var b := Finish(a, PaymentFailed, now);
            AttemptOk(b, now) && AttemptEvolves(a, b) && EverPromoted(b) == EverPromoted(a)
  {
  }

  lemma RowIsSound(p: Product, i: nat, now: Time)
    requires ProductOk(p, now) && i < |p.attempts|
    ensures AttemptOk(p.attempts[i], now)
  {
    assert Shaped(p, now);
  }

  /** A change of one attempt that grants no new invitation, gives up at least as many reservations as units,
      and keeps the counter in step with the attempt. */
  lemma MovedIsSound(p: Product, i: nat, b: Attempt, q: Product, now: Time)
    requires ProductOk(p, now) && RowMoves(p, i, b, q) && AttemptOk(b, now) && AttemptEvolves(p.attempts[i], b)
    requires q.invitations == p.invitations && q.adjustments == p.adjustments && q.enabled == p.enabled
    requires b.invitedAt == p.attempts[i].invitedAt && b.invitationDeadline == p.attempts[i].invitationDeadline
    requires EverPromoted(b) == EverPromoted(p.attempts[i])
    requires q.stock - p.stock
          == (if p.attempts[i].state.Purchased? then 1 else 0) - (if b.state.Purchased? then 1 else 0)
    requires q.reserved - p.reserved
          == (if Reserves(b.state) then 1 else 0) - (if Reserves(p.attempts[i].state) then 1 else 0)
    requires 0 <= p.stock - q.stock <= p.reserved - q.reserved
    ensures ProductOk(q, now) && Evolves(p, q)
  {
    hide HistoryOk, AttemptOk, AttemptEvolves, EverPromoted, Evolves, Count;
    CountUpdate(p.attempts, i, b, Reserving);
    MoveKeepsProduct(p, i, b, q, now);
  }

  lemma CheckoutKeepsProduct(p: Product, i: nat, cfg: Config, now: Time)
    requires ProductOk(p, now) && i < |p.attempts|
    requires p.attempts[i].state.Invited? && !Is(p.attempts[i], Overdue(now))
    ensures ProductOk(CheckoutRow(p, i, cfg, now), now) && Evolves(p, CheckoutRow(p, i, cfg, now))
  {
    hide ProductOk, AttemptOk, AttemptEvolves, EverPromoted, Evolves;
    RowIsSound(p, i, now);
    CheckedOutAttemptOk(p.attempts[i], cfg, now);
    MovedIsSound(p, i, EnterCheckout(p.attempts[i], now, cfg), CheckoutRow(p, i, cfg, now), now);
  }

  lemma CancelKeepsProduct(p: Product, i: nat, now: Time)
    requires ProductOk(p, now) && i < |p.attempts|
    requires IsActive(p.attempts[i].state) && !Is(p.attempts[i], Overdue(now))
    ensures ProductOk(CancelRow(p, i, now), now) && Evolves(p, CancelRow(p, i, now))
  {
    hide ProductOk, AttemptOk, AttemptEvolves, EverPromoted, Evolves;
    RowIsSound(p, i, now);
    CancelledAttemptOk(p.attempts[i], now);
    MovedIsSound(p, i, Finish(p.attempts[i], Cancelled, now), CancelRow(p, i, now), now);
  }

  /** A reservation that is held is counted, so giving it up never drives the counters below zero. */
  lemma HeldIsCounted(p: Product, i: nat)
    requires ReservedOk(p) && i < |p.attempts| && Reserves(p.attempts[i].state)
    ensures 0 < p.reserved <= p.stock
  {
    CountZero(p.attempts, Reserving);
    assert Is(p.attempts[i], Reserving);
  }

  lemma PurchaseKeepsProduct(p: Product, i: nat, ref: PaymentRef, now: Time)
    requires ProductOk(p, now) && i < |p.attempts|
    requires p.attempts[i].state.Checkout? && !Is(p.attempts[i], Overdue(now))
    ensures ProductOk(BuyRow(p, i, ref, now), now) && Evolves(p, BuyRow(p, i, ref, now))
  {
    hide ProductOk, AttemptOk, AttemptEvolves, EverPromoted, Evolves;
    RowIsSound(p, i, now);
    PurchasedAttemptOk(p.attempts[i], ref, now);
    MovedIsSound(p, i, Purchase(p.attempts[i], ref, now), BuyRow(p, i, ref, now), now);
  }

  lemma FailureKeepsProduct(p: Product, i: nat, now: Time)
    requires ProductOk(p, now) && i < |p.attempts|
    requires p.attempts[i].state.Checkout? && !Is(p.attempts[i], Overdue(now))
    ensures ProductOk(FailRow(p, i, now), now) && Evolves(p, FailRow(p, i, now))
  {
    hide ProductOk, AttemptOk, AttemptEvolves, EverPromoted, Evolves;
    RowIsSound(p, i, now);
    FailedAttemptOk(p.attempts[i], now);
    MovedIsSound(p, i, Finish(p.attempts[i], PaymentFailed, now), FailRow(p, i, now), now);
  }

  /** A new attempt under the next sequence number, for a user without an active attempt and under a key
      that this user has not used for the product. */
  predicate MayAppend(p: Product, a: Attempt, now: Time) {
    && a.product == p.id && a.sequence == p.nextSequence && p.nextSequence < MAX_INT64
    && a.createdAt == now && a.version == 1 && AttemptOk(a, now)
    && First(p.attempts, WithId(a.id)) == |p.attempts|
    && First(p.attempts, ReplayOf(a.user, a.key)) == |p.attempts|
    && First(p.attempts, ActiveOf(a.user)) == |p.attempts|
    && (a.invitedAt.Some? ==> First(p.attempts, Queued) == |p.attempts|)
    && !a.state.Invited? && !a.state.Purchased?
    && (Reserves(a.state) ==> p.reserved < p.stock)
  }

  lemma AppendKeepsOrder(p: Product, a: Attempt, now: Time)
    requires Sequenced(p) && Identified(p) && OnlyNewestActive(p) && NoOvertaking(p) && Shaped(p, now)
    requires MayAppend(p, a, now)
    ensures Sequenced(AppendRow(p, a)) && Identified(AppendRow(p, a))
    ensures OnlyNewestActive(AppendRow(p, a)) && NoOvertaking(AppendRow(p, a)) && Shaped(AppendRow(p, a), now)
  {
    var n := |p.attempts|;
    forall i | 0 <= i < n
      ensures p.attempts[i].createdAt <= now && p.attempts[i].id != a.id
      ensures !(p.attempts[i].user == a.user && p.attempts[i].key == a.key)
      ensures p.attempts[i].user == a.user ==> !IsActive(p.attempts[i].state)
      ensures a.invitedAt.Some? ==> !p.attempts[i].state.Waiting?
    {
      assert AttemptOk(p.attempts[i], now);
      assert !Is(p.attempts[i], WithId(a.id)) && !Is(p.attempts[i], ReplayOf(a.user, a.key));
      assert !Is(p.attempts[i], ActiveOf(a.user));
      assert a.invitedAt.Some? ==> !Is(p.attempts[i], Queued);
    }
    hide AttemptOk, First;
  }

  lemma AppendKeepsInvitations(p: Product, a: Attempt, now: Time)
    requires InvitationsOk(p) && MayAppend(p, a, now)
    ensures InvitationsOk(AppendRow(p, a))
  {
    var q, n := AppendRow(p, a), |p.attempts|;
    forall k | 0 <= k < |q.invitations|
      ensures InvitationRecorded(q, q.invitations[k]) && q.invitations[k].attempt != a.id
    {
      assert InvitationRecorded(p, p.invitations[k]);
      var j :| 0 <= j < n && p.attempts[j].id == p.invitations[k].attempt
               && p.attempts[j].invitationDeadline == Some(p.invitations[k].deadline);
      assert q.attempts[j].id == q.invitations[k].attempt;
      assert !Is(p.attempts[j], WithId(a.id));
    }
    NoInvitation(q.invitations, a.id);
  }

  lemma {:induction false} NoInvitation(rows: seq<Invitation>, id: Uuid)
    requires forall k :: 0 <= k < |rows| ==> rows[k].attempt != id
    ensures CountInvitations(rows, id) == 0
  {
    if |rows| > 0 {
      NoInvitation(rows[..|rows| - 1], id);
    }
  }

  lemma AppendKeepsProduct(p: Product, a: Attempt, now: Time)
    requires ProductOk(p, now) && MayAppend(p, a, now)
    ensures ProductOk(AppendRow(p, a), now) && Evolves(p, AppendRow(p, a))
  {
    hide HistoryOk, Evolves, AdjustmentsOk;
    AppendKeepsHistory(p, a, now);
    AppendEvolves(p, a);
    SameAdjustments(p, AppendRow(p, a));
    hide First;
    CountAppend(p.attempts, a, Reserving);
  }

  lemma AppendKeepsHistory(p: Product, a: Attempt, now: Time)
    requires HistoryOk(p, now) && MayAppend(p, a, now)
    ensures HistoryOk(AppendRow(p, a), now)
  {
    hide Sequenced, Identified, OnlyNewestActive, NoOvertaking, Shaped, InvitationsOk, MayAppend;
    AppendKeepsOrder(p, a, now);
    AppendKeepsInvitations(p, a, now);
  }

  lemma AppendEvolves(p: Product, a: Attempt)
    requires !a.state.Purchased?
    ensures Evolves(p, AppendRow(p, a))
  {
    var q := AppendRow(p, a);
    CountAppend(p.attempts, a, Sold);
    hide AttemptEvolves;
    forall i | 0 <= i < |p.attempts| ensures AttemptEvolves(p.attempts[i], q.attempts[i]) {
      Unmoved(p.attempts[i]);
    }
  }

  // ---------------------------------------------------------------------------------------------
  // Requests
  // ---------------------------------------------------------------------------------------------

  /** A fresh id really is fresh, unless the primary key says otherwise. */
  predicate IdHonest(p: Product, id: Uuid, taken: bool) { taken || First(p.attempts, WithId(id)) == |p.attempts| }

  /** Reconciling changes neither who is in the table nor who is free to join. */
  lemma ReconcileKeepsLookups(p: Product, cfg: Config, now: Time, k: Kind)
    requires ProductOk(p, now)
    requires k.WithId? || k.ReplayOf? || k.OwnedBy? || k.ActiveOf?
    ensures Reconcile(p, cfg, now).Ok?
    ensures First(p.attempts, k) == |p.attempts| ==>
              First(Reconcile(p, cfg, now).value.attempts, k) == |Reconcile(p, cfg, now).value.attempts|
  {
    hide ProductOk, Iterate, Ledger;
    ReconcileKeepsProduct(p, cfg, now);
    var q := Reconcile(p, cfg, now).value;
    forall i | 0 <= i < |p.attempts| && Is(q.attempts[i], k) ensures Is(p.attempts[i], k) {
      assert AttemptEvolves(p.attempts[i], q.attempts[i]);
    }
  }

  /** Creating an attempt on a settled product with stock keeps it sound. A free unit goes to the newcomer
      only when nobody waits; a newcomer who waits fits the capacity; being refused costs no sequence number. */
  lemma CreateAttemptIsFair(p: Product, cfg: Config, now: Time, percent: int, user: Name, key: Name, id: Uuid,
      taken: bool)
    requires ProductOk(p, now) && !HasWork(p, now) && p.stock != 0 && IdHonest(p, id, taken)
    requires First(p.attempts, ReplayOf(user, key)) == |p.attempts|
    requires First(p.attempts, ActiveOf(user)) == |p.attempts|
    ensures var created := CreateAttempt(p, cfg, now, percent, user, key, id, taken);
            created.Ok? ==>
              && ProductOk(created.value, now) && Evolves(p, created.value)
              && created.value.attempts[..|p.attempts|] == p.attempts
              && |created.value.attempts| == |p.attempts| + 1
              && created.value.nextSequence == p.nextSequence + 1
              && var a := created.value.attempts[|p.attempts|];
                 && a.user == user && a.key == key && a.id == id && a.createdAt == now
                 && (a.state.Checkout? || a.state.Waiting?)
                 && (a.state.Checkout? ==> Count(created.value.attempts, Queued) == 0)
                 && (a.state.Waiting? ==>
                       WaitingCapacity(p.stock, percent).Ok?
                       && Count(created.value.attempts, Queued) <= WaitingCapacity(p.stock, percent).value)
  {
    assert p.nextSequence <= MAX_INT64 by { assert Sequenced(p); }
    hide ProductOk, MayAppend, Evolves, AttemptOk;
    var created := CreateAttempt(p, cfg, now, percent, user, key, id, taken);
    if created.Ok? {
      var a := created.value.attempts[|p.attempts|];
      assert created.value == AppendRow(p, a);
      if a.state.Checkout? {
        forall i | 0 <= i < |p.attempts| ensures !Is(p.attempts[i], Queued) {}
        CountZero(p.attempts, Queued);
      }
      CountAppend(p.attempts, a, Queued);
      NewcomerMayAppend(p, cfg, now, percent, user, key, id, taken);
      AppendKeepsProduct(p, a, now);
    }
  }

  lemma NewcomerMayAppend(p: Product, cfg: Config, now: Time, percent: int, user: Name, key: Name, id: Uuid,
      taken: bool)
    requires !HasWork(p, now) && p.stock != 0 && IdHonest(p, id, taken)
    requires First(p.attempts, ReplayOf(user, key)) == |p.attempts|
    requires First(p.attempts, ActiveOf(user)) == |p.attempts|
    requires CreateAttempt(p, cfg, now, percent, user, key, id, taken).Ok?
    requires p.nextSequence <= MAX_INT64
    ensures MayAppend(p, CreateAttempt(p, cfg, now, percent, user, key, id, taken).value.attempts[|p.attempts|], now)
  {
    if p.reserved < p.stock {
      forall i | 0 <= i < |p.attempts| ensures !Is(p.attempts[i], Queued) {}
    }
  }

  lemma AdmitKeepsProduct(before: Product, p: Product, cfg: Config, now: Time, percent: int, user: Name, key: Name,
      id: Uuid, taken: bool)
    requires ProductOk(before, now) && ProductOk(p, now) && Evolves(before, p) && IdHonest(p, id, taken)
    requires First(p.attempts, ReplayOf(user, key)) == |p.attempts|
    requires First(p.attempts, ActiveOf(user)) == |p.attempts|
    ensures var o := Admit(before, p, cfg, now, percent, user, key, id, taken);
            && ProductOk(o.product, now) && Evolves(before, o.product)
            && (o.result.Ok? ==> o.result.value.created && o.result.value.attempt.user == user
                                 && o.result.value.attempt.key == key && o.result.value.attempt.id == id && !taken)
            && (o.result.Err? ==> |o.product.attempts| == |p.attempts| || o.product == before)
  {
    hide ProductOk, Evolves, HasWork, Iterate, First, CreateAttempt;
    ReconcileKeepsProduct(p, cfg, now);
    var q := Reconcile(p, cfg, now).value;
    EvolvesTransitively(before, p, q);
    Standing(before);
    ReconcileKeepsLookups(p, cfg, now, ReplayOf(user, key));
    ReconcileKeepsLookups(p, cfg, now, ActiveOf(user));
    ReconcileKeepsLookups(p, cfg, now, WithId(id));
    if p.enabled && p.stock != 0 {
      CreateAttemptIsFair(q, cfg, now, percent, user, key, id, taken);
      CreatedMeansFree(q, cfg, now, percent, user, key, id, taken);
      var created := CreateAttempt(q, cfg, now, percent, user, key, id, taken);
      if created.Ok? {
        EvolvesTransitively(before, q, created.value);
      }
    }
  }

  lemma CreatedMeansFree(p: Product, cfg: Config, now: Time, percent: int, user: Name, key: Name, id: Uuid, taken: bool)
    ensures CreateAttempt(p, cfg, now, percent, user, key, id, taken).Ok? ==> !taken
  {
  }

  lemma JoinKeepsProduct(p: Product, cfg: Config, now: Time, percent: int, user: Name, key: Name, id: Uuid, taken: bool)
    requires ProductOk(p, now) && IdHonest(p, id, taken)
    ensures var o := Join(p, cfg, now, percent, user, key, id, taken);
            ProductOk(o.product, now) && Evolves(p, o.product)
  {
    hide ProductOk, Evolves, HasWork, Iterate, Admit;
    Standing(p);
    ReconcileKeepsProduct(p, cfg, now);
    var q := Reconcile(p, cfg, now).value;
    ReconcileKeepsLookups(p, cfg, now, ReplayOf(user, key));
    ReconcileKeepsLookups(p, cfg, now, WithId(id));
    if First(p.attempts, ReplayOf(user, key)) == |p.attempts| {
      var active := First(p.attempts, ActiveOf(user));
      if active == |p.attempts| {
        AdmitKeepsProduct(p, p, cfg, now, percent, user, key, id, taken);
      } else if !IsEffectiveAt(p.attempts[active], now) && First(q.attempts, ActiveOf(user)) == |q.attempts| {
        AdmitKeepsProduct(p, q, cfg, now, percent, user, key, id, taken);
      }
    }
  }

  /** A settled product has no overdue right left. */
  lemma SettledIsTimely(p: Product, now: Time, i: nat)
    requires !HasWork(p, now) && i < |p.attempts|
    ensures !Is(p.attempts[i], Overdue(now))
  {
  }

  lemma StartCheckoutKeepsProduct(p: Product, cfg: Config, now: Time, id: Uuid, user: Name)
    requires ProductOk(p, now)
    ensures var o := StartCheckout(p, cfg, now, id, user);
            && ProductOk(o.product, now) && Evolves(p, o.product) && |o.product.attempts| == |p.attempts|
            && (o.result.Ok? ==> o.result.value.state.Checkout? && o.result.value in o.product.attempts
                                 && o.result.value.user == user && o.result.value.id == id)
  {
    hide ProductOk, Evolves, HasWork, Iterate;
    ReconcileKeepsProduct(p, cfg, now);
    var q := Reconcile(p, cfg, now).value;
    var i := First(q.attempts, WithId(id));
    if i < |q.attempts| {
      SettledIsTimely(q, now, i);
      if q.attempts[i].state.Invited? && q.attempts[i].user == user {
        CheckoutKeepsProduct(q, i, cfg, now);
        EvolvesTransitively(p, q, CheckoutRow(q, i, cfg, now));
        assert CheckoutRow(q, i, cfg, now).attempts[i] == EnterCheckout(q.attempts[i], now, cfg);
      }
    }
  }

  lemma CancelRequestKeepsProduct(p: Product, cfg: Config, now: Time, user: Name)
    requires ProductOk(p, now)
    ensures var o := Cancel(p, cfg, now, user);
            && ProductOk(o.product, now) && Evolves(p, o.product) && |o.product.attempts| == |p.attempts|
  {
    hide ProductOk, Evolves, HasWork, Iterate;
    ReconcileKeepsProduct(p, cfg, now);
    var q := Reconcile(p, cfg, now).value;
    var i := Last(q.attempts, OwnedBy(user));
    if i < |q.attempts| && IsActive(q.attempts[i].state) {
      SettledIsTimely(q, now, i);
      CancelKeepsProduct(q, i, now);
      var c := CancelRow(q, i, now);
      EvolvesTransitively(p, q, c);
      ReconcileKeepsProduct(c, cfg, now);
      EvolvesTransitively(p, c, Reconcile(c, cfg, now).value);
    }
  }

  lemma FindCurrentKeepsProduct(p: Product, cfg: Config, now: Time, user: Name)
    requires ProductOk(p, now)
    ensures var o := FindCurrent(p, cfg, now, user);
            ProductOk(o.product, now) && Evolves(p, o.product) && |o.product.attempts| == |p.attempts|
  {
    hide ProductOk, Evolves, HasWork, Iterate, ReservedOk, First, Last;
    ReconcileKeepsProduct(p, cfg, now);
  }

  lemma BatchKeepsProduct(p: Product, cfg: Config, now: Time, limit: nat)
    requires ProductOk(p, now)
    ensures var o := ReconcileBatch(p, cfg, now, limit);
            o.result.Ok? && ProductOk(o.product, now) && Evolves(p, o.product) && |o.product.attempts| == |p.attempts|
  {
    IterateKeepsProduct(p, cfg, now, limit);
    IterateKeepsLength(p, cfg, now, limit);
  }

  lemma {:induction false} IterateKeepsLength(p: Product, cfg: Config, now: Time, n: nat)
    ensures |Iterate(p, cfg, now, n).attempts| == |p.attempts|
    decreases n
  {
    if n > 0 && HasWork(p, now) {
      IterateKeepsLength(Step(p, cfg, now), cfg, now, n - 1);
    }
  }

  lemma RestockedIsSound(p: Product, delta: int, now: Time)
    requires ProductOk(p, now) && Refusal(p, delta).None?
    ensures ProductOk(p.(stock := p.stock + delta), now)
    ensures Ledger(p.(stock := p.stock + delta)) == Ledger(p) + delta
  {
    var q := p.(stock := p.stock + delta);
    assert HistoryOk(q, now) by {
      assert Sequenced(q) && Identified(q) && OnlyNewestActive(q) && NoOvertaking(q) && Shaped(q, now);
      assert InvitationsOk(q) by { SameInvitations(p, q); }
    }
    SameAdjustments(p, q);
  }

  lemma SameInvitations(p: Product, q: Product)
    requires InvitationsOk(p) && q.attempts == p.attempts && q.invitations == p.invitations
    ensures InvitationsOk(q)
  {
    forall k | 0 <= k < |q.invitations| ensures InvitationRecorded(q, q.invitations[k]) {
      assert InvitationRecorded(p, p.invitations[k]);
    }
  }

  lemma RecordKeepsProduct(p: Product, row: Adjustment, now: Time)
    requires ProductOk(p, now) && FindAdjustment(p.adjustments, row.key) == |p.adjustments|
    requires row.delta != 0 && (row.rejection.None? ==> row.stockAfter == row.stockBefore + row.delta)
    ensures ProductOk(Record(p, row), now)
    ensures Ledger(Record(p, row)) == Ledger(p) - (if row.rejection.None? then row.delta else 0)
  {
    var q := Record(p, row);
    assert q.adjustments[..|p.adjustments|] == p.adjustments;
    assert HistoryOk(q, now) by {
      assert Sequenced(q) && Identified(q) && OnlyNewestActive(q) && NoOvertaking(q) && Shaped(q, now);
      assert InvitationsOk(q) by { SameInvitations(p, q); }
    }
  }

  /** A stock adjustment keeps the product sound and the ledger balanced, whatever its outcome. */
  lemma AdjustStockKeepsProduct(p: Product, cfg: Config, now: Time, key: Name, delta: int, digest: Text)
    requires ProductOk(p, now)
    ensures var o := AdjustStock(p, cfg, now, key, delta, digest);
            ProductOk(o.product, now) && Evolves(p, o.product) && |o.product.attempts| == |p.attempts|
  {
    hide ProductOk, Iterate, FindAdjustment;
    Standing(p);
    if delta != 0 && FindAdjustment(p.adjustments, key) == |p.adjustments| {
      var refusal := Refusal(p, delta);
      if refusal.Some? {
        RecordKeepsProduct(p, Adjustment(key, delta, digest, 0, 0, refusal), now);
        hide AttemptEvolves, Ledger;
        forall i | 0 <= i < |p.attempts| ensures AttemptEvolves(p.attempts[i], p.attempts[i]) {
          Unmoved(p.attempts[i]);
        }
      } else {
        var r := p.(stock := p.stock + delta);
        RestockedIsSound(p, delta, now);
        ReconcileKeepsProduct(r, cfg, now);
        RecordKeepsProduct(Reconcile(r, cfg, now).value,
                           Adjustment(key, delta, digest, p.stock, p.stock + delta, None), now);
        hide AttemptEvolves, Ledger;
      }
    }
  }

  // ---------------------------------------------------------------------------------------------
  // What users may rely on
  // ---------------------------------------------------------------------------------------------

  /** The active attempt that FindCurrent looks for is the newest attempt that Cancel looks for. */
  lemma ActiveIsLatest(p: Product, now: Time, user: Name)
    requires ProductOk(p, now) && First(p.attempts, ActiveOf(user)) < |p.attempts|
    ensures First(p.attempts, ActiveOf(user)) == Last(p.attempts, OwnedBy(user))
  {
    assert OnlyNewestActive(p);
    var i, j := First(p.attempts, ActiveOf(user)), Last(p.attempts, OwnedBy(user));
    assert Is(p.attempts[i], OwnedBy(user));
  }

  /** The number of people ahead of a waiting attempt never grows. */
  lemma PositionNeverGrows(p: Product, q: Product, i: nat)
    requires Evolves(p, q) && Sequenced(q) && i < |p.attempts| && q.attempts[i].state.Waiting?
    ensures q.attempts[i] == p.attempts[i]
    ensures PositionAhead(q, q.attempts[i]) <= PositionAhead(p, p.attempts[i])
  {
    hide Ledger;
    assert AttemptEvolves(p.attempts[i], q.attempts[i]);
    var sequence := p.attempts[i].sequence;
    assert q.attempts == q.attempts[..|p.attempts|] + q.attempts[|p.attempts|..];
    OnlyEarlierCount(q.attempts, |p.attempts|, sequence);
    forall j | 0 <= j < |p.attempts| && Is(q.attempts[j], QueuedBefore(sequence))
      ensures Is(p.attempts[j], QueuedBefore(sequence))
    {
      assert AttemptEvolves(p.attempts[j], q.attempts[j]);
    }
    CountMonotone(q.attempts[..|p.attempts|], QueuedBefore(sequence), p.attempts, QueuedBefore(sequence));
  }

  /** Rows from position `n` on do not count when none of them comes before `sequence`. */
  lemma {:induction false} OnlyEarlierCount(s: seq<Attempt>, n: nat, sequence: int)
    requires n <= |s| && forall j :: n <= j < |s| ==> !Is(s[j], QueuedBefore(sequence))
    ensures Count(s, QueuedBefore(sequence)) == Count(s[..n], QueuedBefore(sequence))
  {
    if n == |s| {
      assert s[..n] == s;
    } else {
      OnlyEarlierCount(s[..|s| - 1], n, sequence);
      assert s[..|s| - 1][..n] == s[..n];
    }
  }
}
