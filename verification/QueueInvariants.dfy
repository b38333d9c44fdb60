/** What every reachable product satisfies, and how products may evolve. */
module QueueInvariants {
  import opened Wrappers
  import opened Domain
  import opened Reconciliation
  import opened Queue

  // ---------------------------------------------------------------------------------------------
  // One attempt
  // ---------------------------------------------------------------------------------------------

  /** A right that was granted at `start` for a positive time, at or after `since`. */
  predicate Granted(start: Option<Time>, deadline: Option<Time>, since: Time, now: Time) {
    start.Some? && deadline.Some? && since <= start.value <= now && start.value < deadline.value
  }

  predicate Untouched(start: Option<Time>, deadline: Option<Time>) { start.None? && deadline.None? }

  predicate HasInvitation(a: Attempt, now: Time) { Granted(a.invitedAt, a.invitationDeadline, a.createdAt, now) }

  /** Checkout is entered strictly before the invitation runs out. */
  predicate HasCheckout(a: Attempt, now: Time) {
    && HasInvitation(a, now)
    && Granted(a.checkoutStartedAt, a.checkoutDeadline, a.invitedAt.value, now)
    && a.checkoutStartedAt.value < a.invitationDeadline.value
  }

  predicate EndedInTime(a: Attempt, deadline: Option<Time>) { a.terminalAt.Some? && !Reached(deadline,
      a.terminalAt.value) }

  predicate EndedLate(a: Attempt, deadline: Option<Time>) { a.terminalAt.Some? && Reached(deadline,
      a.terminalAt.value) }

  /** Which rights an attempt in each state holds or held, its version, and for the final states that the
      right was used strictly before its deadline or lost at or after it. */
  predicate StageOk(a: Attempt, now: Time) {
    var neverInvited := Untouched(a.invitedAt, a.invitationDeadline)
        && Untouched(a.checkoutStartedAt, a.checkoutDeadline);
    var onlyInvited := HasInvitation(a, now) && Untouched(a.checkoutStartedAt, a.checkoutDeadline);
    match a.state
    case Waiting => neverInvited && a.version == 1
    case Invited => onlyInvited && a.version == 2
    case Checkout => HasCheckout(a, now) && a.version in {1, 3}
    case Purchased => HasCheckout(a, now) && a.version in {2, 4} && EndedInTime(a, a.checkoutDeadline)
    case PaymentFailed => HasCheckout(a, now) && a.version in {2, 4} && EndedInTime(a, a.checkoutDeadline)
    case CheckoutExpired => HasCheckout(a, now) && a.version in {2, 4} && EndedLate(a, a.checkoutDeadline)
    case InviteExpired => onlyInvited && a.version == 3 && EndedLate(a, a.invitationDeadline)
    case SoldOut => neverInvited && a.version == 2
    case Cancelled =>
      || (neverInvited && a.version == 2)
      || (onlyInvited && a.version == 3 && EndedInTime(a, a.invitationDeadline))
      || (HasCheckout(a, now) && a.version in {2, 4} && EndedInTime(a, a.checkoutDeadline))
  }

  predicate EndOk(a: Attempt, now: Time) {
    if IsActive(a.state) then
      a.terminalAt.None? && a.terminalReason.None? && a.purchasedAt.None? && a.accepted.None?
    else
      && a.terminalAt.Some? && a.createdAt <= a.terminalAt.value <= now
      && (a.invitedAt.Some? ==> a.invitedAt.value <= a.terminalAt.value)
      && (a.checkoutStartedAt.Some? ==> a.checkoutStartedAt.value <= a.terminalAt.value)
      && a.terminalReason == Some(a.state)
      && (if a.state.Purchased? then a.purchasedAt == a.terminalAt && a.accepted.Some?
          else a.purchasedAt.None? && a.accepted.None?)
  }

  predicate AttemptOk(a: Attempt, now: Time) {
    a.createdAt <= a.updatedAt <= now && EndOk(a, now) && StageOk(a, now)
  }

  /** Promoted from waiting at some time, as opposed to admitted to checkout directly. */
  predicate EverPromoted(a: Attempt) { a.invitedAt.Some? && (a.state.Invited? || a.version >= 3) }

  predicate SameIdentity(a: Attempt, b: Attempt) {
    a.id == b.id && a.product == b.product && a.sequence == b.sequence
    && a.user == b.user && a.key == b.key && a.createdAt == b.createdAt
  }

  /** An attempt is unchanged, or it was active and moved on: its version rose, it no longer waits, and
      what it had been granted is still recorded. */
  predicate AttemptEvolves(a: Attempt, b: Attempt) {
    || a == b
    || (&& SameIdentity(a, b) && IsActive(a.state) && !b.state.Waiting? && a.version < b.version
        && (a.invitedAt.Some? ==> a.invitedAt == b.invitedAt && a.invitationDeadline == b.invitationDeadline)
        && (a.checkoutStartedAt.Some? ==>
              a.checkoutStartedAt == b.checkoutStartedAt && a.checkoutDeadline == b.checkoutDeadline))
  }

  // ---------------------------------------------------------------------------------------------
  // One product
  // ---------------------------------------------------------------------------------------------

  predicate InventoryOk(p: Product) { ReservedOk(p) && p.stock <= MAX_INT32 }

  /** Sequences are 1, 2, 3, ... in creation order. */
  predicate Sequenced(p: Product) {
    && p.nextSequence == |p.attempts| + 1 <= MAX_INT64
    && (forall i :: 0 <= i < |p.attempts| ==> p.attempts[i].sequence == i + 1)
    && (forall i, j :: 0 <= i < j < |p.attempts| ==> p.attempts[i].createdAt <= p.attempts[j].createdAt)
  }

  predicate Identified(p: Product) {
    && (forall i :: 0 <= i < |p.attempts| ==> p.attempts[i].product == p.id)
    && (forall i, j :: 0 <= i < j < |p.attempts| ==> p.attempts[i].id != p.attempts[j].id)
    && (forall i, j :: 0 <= i < j < |p.attempts| ==>
          !(p.attempts[i].user == p.attempts[j].user && p.attempts[i].key == p.attempts[j].key))
  }

  /** An active attempt is the newest attempt of its user, so a user has at most one. */
  predicate OnlyNewestActive(p: Product) {
    forall i, j :: 0 <= i < j < |p.attempts| && p.attempts[i].user == p.attempts[j].user ==>
      !IsActive(p.attempts[i].state)
  }

  /** Nobody behind a waiting attempt was ever given a right. */
  predicate NoOvertaking(p: Product) {
    forall i, j :: 0 <= i < j < |p.attempts| && p.attempts[i].state.Waiting? ==> p.attempts[j].invitedAt.None?
  }

  predicate Shaped(p: Product, now: Time) {
    forall i :: 0 <= i < |p.attempts| ==> AttemptOk(p.attempts[i], now)
  }

  function CountInvitations(rows: seq<Invitation>, id: Uuid): nat {
    if |rows| == 0 then 0
    else CountInvitations(rows[..|rows| - 1], id) + (if rows[|rows| - 1].attempt == id then 1 else 0)
  }

  predicate InvitationRecorded(p: Product, row: Invitation) {
    row.version == 2
    && exists i :: 0 <= i < |p.attempts| && p.attempts[i].id == row.attempt
                   && p.attempts[i].invitationDeadline == Some(row.deadline)
  }

  /** One invitation row for every attempt that was ever promoted, none for any other. */
  predicate InvitationsOk(p: Product) {
    && (forall i :: 0 <= i < |p.attempts| ==>
          CountInvitations(p.invitations, p.attempts[i].id) == (if EverPromoted(p.attempts[i]) then 1 else 0))
    && (forall k :: 0 <= k < |p.invitations| ==> InvitationRecorded(p, p.invitations[k]))
  }

  predicate AdjustmentsOk(p: Product) {
    && (forall i, j :: 0 <= i < j < |p.adjustments| ==> p.adjustments[i].key != p.adjustments[j].key)
    && (forall i :: 0 <= i < |p.adjustments| ==>
          p.adjustments[i].delta != 0
          && (p.adjustments[i].rejection.None? ==>
                p.adjustments[i].stockAfter == p.adjustments[i].stockBefore + p.adjustments[i].delta))
  }

  /** Everything about the attempt history, apart from the counters. */
  predicate HistoryOk(p: Product, now: Time) {
    Sequenced(p) && Identified(p) && OnlyNewestActive(p) && NoOvertaking(p) && Shaped(p, now) && InvitationsOk(p)
  }

  predicate ProductOk(p: Product, now: Time) { InventoryOk(p) && HistoryOk(p, now) && AdjustmentsOk(p) }

  function AppliedDeltas(rows: seq<Adjustment>): int {
    if |rows| == 0 then 0
    else AppliedDeltas(rows[..|rows| - 1])
         + (if rows[|rows| - 1].rejection.None? then rows[|rows| - 1].delta else 0)
  }

  /** Units on hand plus units sold, less what adjustments added: the initial stock. */
  function Ledger(p: Product): int { p.stock + Count(p.attempts, Sold) - AppliedDeltas(p.adjustments) }

  ghost predicate Evolves(p: Product, q: Product) {
    && p.id == q.id && p.enabled == q.enabled
    && |p.attempts| <= |q.attempts|
    && (forall i :: 0 <= i < |p.attempts| ==> AttemptEvolves(p.attempts[i], q.attempts[i]))
    && p.invitations <= q.invitations
    && p.adjustments <= q.adjustments
    && Ledger(p) == Ledger(q)
  }

  lemma EvolvesTransitively(p: Product, q: Product, r: Product)
    requires Evolves(p, q) && Evolves(q, r)
    ensures Evolves(p, r)
  {
    forall i | 0 <= i < |p.attempts| ensures AttemptEvolves(p.attempts[i], r.attempts[i]) {
      assert AttemptEvolves(p.attempts[i], q.attempts[i]) && AttemptEvolves(q.attempts[i], r.attempts[i]);
    }
  }

  /** The clock may advance under an untouched product. */
  lemma ProductOkLater(p: Product, now: Time, later: Time)
    requires ProductOk(p, now) && now <= later
    ensures ProductOk(p, later)
  {
    forall i | 0 <= i < |p.attempts| ensures AttemptOk(p.attempts[i], later) {
      assert AttemptOk(p.attempts[i], now);
    }
  }

  // ---------------------------------------------------------------------------------------------
  // Changing one row
  // ---------------------------------------------------------------------------------------------

  /** `q` is `p` with attempt `i` moved on to `b`. */
  predicate RowMoves(p: Product, i: nat, b: Attempt, q: Product) {
    && i < |p.attempts| && q.attempts == p.attempts[i := b]
    && SameIdentity(p.attempts[i], b) && (IsActive(b.state) ==> IsActive(p.attempts[i].state))
    && (b.state.Waiting? ==> p.attempts[i].state.Waiting?)
    && q.id == p.id && q.nextSequence == p.nextSequence
  }

  lemma RowMoveKeepsOrder(p: Product, i: nat, b: Attempt, q: Product)
    requires Sequenced(p) && Identified(p) && OnlyNewestActive(p) && RowMoves(p, i, b, q)
    ensures Sequenced(q) && Identified(q) && OnlyNewestActive(q)
  {
    assert forall k :: 0 <= k < |q.attempts| ==> SameIdentity(p.attempts[k], q.attempts[k]);
    assert forall k :: 0 <= k < |q.attempts| ==> (IsActive(q.attempts[k].state) ==> IsActive(p.attempts[k].state));
  }

  /** A right may be granted only to an attempt with nobody waiting before it. */
  lemma RowMoveKeepsTurn(p: Product, i: nat, b: Attempt, q: Product)
    requires NoOvertaking(p) && RowMoves(p, i, b, q)
    requires b.invitedAt == p.attempts[i].invitedAt || forall j :: 0 <= j < i ==> !p.attempts[j].state.Waiting?
    ensures NoOvertaking(q)
  {
  }

  lemma RowMoveKeepsShapes(p: Product, i: nat, b: Attempt, q: Product, now: Time)
    requires Shaped(p, now) && RowMoves(p, i, b, q) && AttemptOk(b, now)
    ensures Shaped(q, now)
  {
    hide AttemptOk;
  }

  lemma RowMoveKeepsInvitations(p: Product, i: nat, b: Attempt, q: Product)
    requires InvitationsOk(p) && RowMoves(p, i, b, q) && q.invitations == p.invitations
    requires b.invitationDeadline == p.attempts[i].invitationDeadline
    requires EverPromoted(b) == EverPromoted(p.attempts[i])
    ensures InvitationsOk(q)
  {
    forall k | 0 <= k < |q.invitations| ensures InvitationRecorded(q, q.invitations[k]) {
      assert InvitationRecorded(p, p.invitations[k]);
      var j :| 0 <= j < |p.attempts| && p.attempts[j].id == p.invitations[k].attempt
               && p.attempts[j].invitationDeadline == Some(p.invitations[k].deadline);
      assert q.attempts[j].id == q.invitations[k].attempt;
    }
  }

  /** Any permitted change of one attempt that grants no new right keeps the history in order. */
  lemma RowChangeKeepsHistory(p: Product, i: nat, b: Attempt, q: Product, now: Time)
    requires HistoryOk(p, now) && RowMoves(p, i, b, q) && AttemptOk(b, now)
    requires q.invitations == p.invitations
    requires b.invitedAt == p.attempts[i].invitedAt && b.invitationDeadline == p.attempts[i].invitationDeadline
    requires EverPromoted(b) == EverPromoted(p.attempts[i])
    ensures HistoryOk(q, now)
  {
    hide Sequenced, Identified, OnlyNewestActive, NoOvertaking, Shaped, InvitationsOk, AttemptOk, EverPromoted;
    RowMoveKeepsOrder(p, i, b, q);
    RowMoveKeepsTurn(p, i, b, q);
    RowMoveKeepsShapes(p, i, b, q, now);
    RowMoveKeepsInvitations(p, i, b, q);
  }

  lemma CountInvitationsAppend(rows: seq<Invitation>, row: Invitation, id: Uuid)
    ensures CountInvitations(rows + [row], id) == CountInvitations(rows, id) + (if row.attempt == id then 1 else 0)
  {
    assert (rows + [row])[..|rows|] == rows;
  }

  lemma PromotionKeepsInvitations(p: Product, i: nat, cfg: Config, now: Time)
    requires InvitationsOk(p) && Identified(p) && i < |p.attempts|
    requires p.attempts[i].version == 1 && p.attempts[i].invitedAt.None? && p.attempts[i].state.Waiting?
    requires p.attempts[i].invitationDeadline.None?
    ensures InvitationsOk(PromoteRow(p, i, cfg, now))
  {
    var q, a, row := PromoteRow(p, i, cfg, now), p.attempts[i], InvitationFor(p.attempts[i], cfg, now);
    forall k | 0 <= k < |q.attempts|
      ensures CountInvitations(q.invitations, q.attempts[k].id) == (if EverPromoted(q.attempts[k]) then 1 else 0)
    {
      CountInvitationsAppend(p.invitations, row, q.attempts[k].id);
      assert k != i ==> p.attempts[k].id != a.id;
    }
    forall k | 0 <= k < |q.invitations| ensures InvitationRecorded(q, q.invitations[k]) {
      if k < |p.invitations| {
        assert InvitationRecorded(p, p.invitations[k]);
        var j :| 0 <= j < |p.attempts| && p.attempts[j].id == p.invitations[k].attempt
                 && p.attempts[j].invitationDeadline == Some(p.invitations[k].deadline);
        assert q.attempts[j].id == q.invitations[k].attempt;
      } else {
        assert q.attempts[i].id == row.attempt;
      }
    }
  }

  /** Promoting the first waiting attempt keeps the history in order and adds its one invitation row. */
  lemma PromotionKeepsHistory(p: Product, i: nat, cfg: Config, now: Time)
    requires HistoryOk(p, now) && i < |p.attempts|
    requires p.attempts[i].state.Waiting? && forall j :: 0 <= j < i ==> !p.attempts[j].state.Waiting?
    ensures HistoryOk(PromoteRow(p, i, cfg, now), now)
  {
    var q := PromoteRow(p, i, cfg, now);
    PromotedAttemptOk(p.attempts[i], cfg, now) by { assert Shaped(p, now); }
    hide Sequenced, Identified, OnlyNewestActive, NoOvertaking, Shaped, InvitationsOk, AttemptOk;
    RowMoveKeepsOrder(p, i, q.attempts[i], q);
    RowMoveKeepsTurn(p, i, q.attempts[i], q);
    RowMoveKeepsShapes(p, i, q.attempts[i], q, now);
    PromotionKeepsInvitations(p, i, cfg, now);
  }

  lemma PromotedAttemptOk(a: Attempt, cfg: Config, now: Time)
    requires AttemptOk(a, now) && a.state.Waiting?
    ensures AttemptOk(Promote(a, now, cfg), now)
    ensures AttemptEvolves(a, Promote(a, now, cfg))
    ensures a.version == 1 && a.invitedAt.None? && a.invitationDeadline.None?
  {
  }

  lemma ExpiredAttemptOk(a: Attempt, now: Time)
    requires AttemptOk(a, now) && Is(a, Overdue(now))
    ensures AttemptOk(Expire(a, now), now)
    ensures AttemptEvolves(a, Expire(a, now))
    ensures EverPromoted(Expire(a, now)) == EverPromoted(a)
  {
  }

  lemma SoldOutAttemptOk(a: Attempt, now: Time)
    requires AttemptOk(a, now) && a.state.Waiting?
    ensures AttemptOk(Finish(a, SoldOut, now), now)
    ensures AttemptEvolves(a, Finish(a, SoldOut, now))
    ensures EverPromoted(Finish(a, SoldOut, now)) == EverPromoted(a)
  {
  }

  /** Sold units and adjustments are all that the ledger sees of a row change. */
  lemma RowChangeKeepsLedger(p: Product, i: nat, b: Attempt, q: Product)
    requires i < |p.attempts| && q.attempts == p.attempts[i := b] && q.adjustments == p.adjustments
    requires q.stock - p.stock
          == (if p.attempts[i].state.Purchased? then 1 else 0) - (if b.state.Purchased? then 1 else 0)
    ensures Ledger(q) == Ledger(p)
  {
    CountUpdate(p.attempts, i, b, Sold);
  }

  // ---------------------------------------------------------------------------------------------
  // Reconciliation
  // ---------------------------------------------------------------------------------------------

  lemma RowChangeEvolves(p: Product, i: nat, b: Attempt, q: Product)
    requires i < |p.attempts| && q.attempts == p.attempts[i := b] && AttemptEvolves(p.attempts[i], b)
    requires q.id == p.id && q.enabled == p.enabled && p.invitations <= q.invitations && q.adjustments == p.adjustments
    requires q.stock - p.stock
          == (if p.attempts[i].state.Purchased? then 1 else 0) - (if b.state.Purchased? then 1 else 0)
    ensures Evolves(p, q)
  {
    RowChangeKeepsLedger(p, i, b, q);
    hide Ledger, AttemptEvolves;
    forall k | 0 <= k < |p.attempts| ensures AttemptEvolves(p.attempts[k], q.attempts[k]) {
      if k != i {
        Unmoved(p.attempts[k]);
      }
    }
  }

  lemma Unmoved(a: Attempt)
    ensures AttemptEvolves(a, a)
  {
  }

  /** A change of one row that is right for the attempt is right for the history of the product. */
  lemma MoveKeepsProduct(p: Product, i: nat, b: Attempt, q: Product, now: Time)
    requires HistoryOk(p, now) && RowMoves(p, i, b, q) && AttemptOk(b, now) && AttemptEvolves(p.attempts[i], b)
    requires q.invitations == p.invitations && q.adjustments == p.adjustments && q.enabled == p.enabled
    requires b.invitedAt == p.attempts[i].invitedAt && b.invitationDeadline == p.attempts[i].invitationDeadline
    requires EverPromoted(b) == EverPromoted(p.attempts[i])
    requires q.stock - p.stock
          == (if p.attempts[i].state.Purchased? then 1 else 0) - (if b.state.Purchased? then 1 else 0)
    ensures HistoryOk(q, now) && Evolves(p, q)
  {
    hide HistoryOk, AttemptOk, AttemptEvolves, EverPromoted, Evolves;
    RowChangeKeepsHistory(p, i, b, q, now);
    RowChangeEvolves(p, i, b, q);
  }

  lemma ExpiryKeepsHistory(p: Product, i: nat, now: Time)
    requires HistoryOk(p, now) && i < |p.attempts| && Is(p.attempts[i], Overdue(now))
    ensures HistoryOk(ExpireRow(p, i, now), now) && Evolves(p, ExpireRow(p, i, now))
  {
    ExpiredAttemptOk(p.attempts[i], now) by { assert Shaped(p, now); }
    hide HistoryOk, AttemptOk, AttemptEvolves, EverPromoted, Evolves;
    MoveKeepsProduct(p, i, Expire(p.attempts[i], now), ExpireRow(p, i, now), now);
  }

  lemma SellOutKeepsHistory(p: Product, i: nat, now: Time)
    requires HistoryOk(p, now) && i < |p.attempts| && p.attempts[i].state.Waiting?
    ensures HistoryOk(SellOutRow(p, i, now), now) && Evolves(p, SellOutRow(p, i, now))
  {
    SoldOutAttemptOk(p.attempts[i], now) by { assert Shaped(p, now); }
    hide HistoryOk, AttemptOk, AttemptEvolves, EverPromoted, Evolves;
    MoveKeepsProduct(p, i, Finish(p.attempts[i], SoldOut, now), SellOutRow(p, i, now), now);
  }

  lemma PromotionEvolves(p: Product, i: nat, cfg: Config, now: Time)
    requires HistoryOk(p, now) && i < |p.attempts| && p.attempts[i].state.Waiting?
    ensures Evolves(p, PromoteRow(p, i, cfg, now))
  {
    PromotedAttemptOk(p.attempts[i], cfg, now) by { assert Shaped(p, now); }
    hide HistoryOk, AttemptOk, AttemptEvolves, Evolves;
    RowChangeEvolves(p, i, Promote(p.attempts[i], now, cfg), PromoteRow(p, i, cfg, now));
  }

  lemma StepKeepsProduct(p: Product, cfg: Config, now: Time)
    requires ProductOk(p, now) && HasWork(p, now)
    ensures ProductOk(Step(p, cfg, now), now) && Evolves(p, Step(p, cfg, now))
  {
    hide HistoryOk, AdjustmentsOk, Evolves, HasWork, NextRow;
    var i := NextRow(p, now);
    StepShape(p, cfg, now);
    StepDoesOneUnit(p, cfg, now);
    WorkHasNextRow(p, now);
    if Is(p.attempts[i], Overdue(now)) {
      ExpiryKeepsHistory(p, i, now);
    } else if p.stock == 0 {
      SellOutKeepsHistory(p, i, now);
    } else {
      forall j | 0 <= j < i ensures !p.attempts[j].state.Waiting? {
        assert !Is(p.attempts[j], Queued);
      }
      PromotionKeepsHistory(p, i, cfg, now);
      PromotionEvolves(p, i, cfg, now);
    }
    assert AdjustmentsOk(Step(p, cfg, now)) by { SameAdjustments(p, Step(p, cfg, now)); }
  }

  lemma SameAdjustments(p: Product, q: Product)
    requires AdjustmentsOk(p) && q.adjustments == p.adjustments
    ensures AdjustmentsOk(q)
  {
  }

  lemma {:induction false} IterateKeepsProduct(p: Product, cfg: Config, now: Time, n: nat)
    requires ProductOk(p, now)
    ensures ProductOk(Iterate(p, cfg, now, n), now) && Evolves(p, Iterate(p, cfg, now, n))
    decreases n
  {
    hide ProductOk, HasWork, Step;
    if n > 0 && HasWork(p, now) {
      var q := Step(p, cfg, now);
      StepKeepsProduct(p, cfg, now);
      IterateKeepsProduct(q, cfg, now, n - 1);
      EvolvesTransitively(p, q, Iterate(p, cfg, now, n));
    } else {
      Standing(p);
    }
  }

  lemma Standing(p: Product)
    ensures Evolves(p, p)
  {
  }

  /** A reconciliation never fails on a sound product, and no overdue right survives it. */
  lemma ReconcileKeepsProduct(p: Product, cfg: Config, now: Time)
    requires ProductOk(p, now)
    ensures Reconcile(p, cfg, now).Ok?
    ensures var q := Reconcile(p, cfg, now).value;
            && ProductOk(q, now) && Evolves(p, q) && !HasWork(q, now)
            && q.stock == p.stock && q.nextSequence == p.nextSequence && |q.attempts| == |p.attempts|
            && q.adjustments == p.adjustments
  {
    IterateKeepsProduct(p, cfg, now, Unbounded(p));
    ReconcileSettles(p, cfg, now);
    WorkIsSomething(p, now);
    ReconcileIsSettled(p, cfg, now, Unbounded(p));
  }
}
