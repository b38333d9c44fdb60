/** Reconciliation of one product, specified one transition at a time.

    The source reconciles with three loops under a transition limit. Here the same work is a sequence of
    single steps (`Step`), so a batch of limit n is `Iterate` n times, and `SettledAttempt` says, for each
    attempt on its own, where it ends. The lemmas connect the two and show how batches compose. */
module Reconciliation {
  import opened Wrappers
  import opened Domain

  /** A notification_outbox row of type queue.invited: its deduplication key is the attempt with the
      version it was promoted to, its payload carries the deadline. */
  datatype Invitation = Invitation(attempt: Uuid, version: int, deadline: Time, availableAt: Time)

  /** A row of inventory_adjustments. `rejection` is None for an applied adjustment. */
  datatype Adjustment = Adjustment(
    key: Name, delta: int, digest: Text, stockBefore: int, stockAfter: int, rejection: Option<Error>)

  /** A product row together with everything that hangs on it, its whole attempt history included.
      Attempts are in queue_sequence order. */
  datatype Product = Product(
    id: Uuid, stock: int, reserved: int, nextSequence: int, enabled: bool,
    attempts: seq<Attempt>, invitations: seq<Invitation>, adjustments: seq<Adjustment>)

  /** The guard at the head of every reconciliation. */
  predicate ReservedOk(p: Product) {
    p.reserved == Count(p.attempts, Reserving) && 0 <= p.reserved <= p.stock
  }

  predicate WaitingCanMove(p: Product) { p.stock == 0 || p.stock - p.reserved > 0 }

  /** Position of the attempt that the next transition changes, or the number of attempts. */
  function NextRow(p: Product, now: Time): (r: nat)
    ensures r <= |p.attempts|
  {
    var overdue := First(p.attempts, Overdue(now));
    if overdue < |p.attempts| then overdue
    else if WaitingCanMove(p) then First(p.attempts, Queued)
    else |p.attempts|
  }

  /** `hasReconciliationWork`, and with `now` the database clock also the condition under which the
      background worker selects a product. */
  predicate HasWork(p: Product, now: Time) {
    exists i :: 0 <= i < |p.attempts|
      && (Is(p.attempts[i], Overdue(now)) || (Is(p.attempts[i], Queued) && WaitingCanMove(p)))
  }

  lemma WorkHasNextRow(p: Product, now: Time)
    ensures HasWork(p, now) <==> NextRow(p, now) < |p.attempts|
  {
    var r := NextRow(p, now);
    if r < |p.attempts| {
      assert Is(p.attempts[r], Overdue(now)) || (Is(p.attempts[r], Queued) && WaitingCanMove(p));
    }
  }

  function ExpireRow(p: Product, i: nat, now: Time): Product
    requires i < |p.attempts|
  {
    p.(attempts := p.attempts[i := Expire(p.attempts[i], now)], reserved := p.reserved - 1)
  }

  function SellOutRow(p: Product, i: nat, now: Time): Product
    requires i < |p.attempts|
  {
    p.(attempts := p.attempts[i := Finish(p.attempts[i], SoldOut, now)])
  }

  function InvitationFor(a: Attempt, cfg: Config, now: Time): Invitation {
    Invitation(a.id, a.version + 1, now + cfg.invitationTTL, now)
  }

  function PromoteRow(p: Product, i: nat, cfg: Config, now: Time): Product
    requires i < |p.attempts|
  {
    p.(attempts := p.attempts[i := Promote(p.attempts[i], now, cfg)],
       reserved := p.reserved + 1,
       invitations := p.invitations + [InvitationFor(p.attempts[i], cfg, now)])
  }

  /** One transition. */
  function Step(p: Product, cfg: Config, now: Time): Product
    requires HasWork(p, now)
  {
    WorkHasNextRow(p, now);
    var i := NextRow(p, now);
    if Is(p.attempts[i], Overdue(now)) then ExpireRow(p, i, now)
    else if p.stock == 0 then SellOutRow(p, i, now)
    else PromoteRow(p, i, cfg, now)
  }

  /** At most `n` transitions: what one reconciliation with transition limit `n` leaves behind. */
  function Iterate(p: Product, cfg: Config, now: Time, n: nat): Product
    decreases n
  {
    if n == 0 || !HasWork(p, now) then p else Iterate(Step(p, cfg, now), cfg, now, n - 1)
  }

  /** The limit the source passes when it means "no limit". */
  function Unbounded(p: Product): nat { 2 * |p.attempts| + 1 }

  function Reconcile(p: Product, cfg: Config, now: Time): Result<Product> {
    if ReservedOk(p) then Ok(Iterate(p, cfg, now, Unbounded(p))) else Err(ReservedInvariant)
  }

  // ---------------------------------------------------------------------------------------------
  // The amount of work, in closed form
  // ---------------------------------------------------------------------------------------------

  function Min(a: int, b: int): int { if a < b then a else b }

  /** Units that waiting attempts can still be given once the overdue rights are taken back. */
  function Free(p: Product, now: Time): int { p.stock - p.reserved + Count(p.attempts, Overdue(now)) }

  /** The number of transitions that are due at `now`. */
  function Work(p: Product, now: Time): int {
    Count(p.attempts, Overdue(now))
    + (if p.stock == 0 then Count(p.attempts, Queued) else Min(Count(p.attempts, Queued), Free(p, now)))
  }

  lemma WorkIsSomething(p: Product, now: Time)
    requires ReservedOk(p)
    ensures 0 <= Work(p, now) <= |p.attempts|
    ensures HasWork(p, now) <==> Work(p, now) > 0
  {
    CountZero(p.attempts, Overdue(now));
    CountZero(p.attempts, Queued);
    if !HasWork(p, now) {
      forall i | 0 <= i < |p.attempts| ensures !Is(p.attempts[i], Overdue(now)) {}
    }
    OverdueOrQueued(p.attempts, now);
  }

  lemma {:induction false} OverdueOrQueued(s: seq<Attempt>, now: Time)
    ensures Count(s, Overdue(now)) + Count(s, Queued) <= |s|
  {
    if |s| > 0 {
      OverdueOrQueued(s[..|s| - 1], now);
    }
  }

  /** What one step does to the row it changes and to the counters. */
  lemma StepEffect(p: Product, cfg: Config, now: Time)
    requires HasWork(p, now)
    ensures var q, r := Step(p, cfg, now), NextRow(p, now);
            && r < |p.attempts| == |q.attempts| && q.attempts == p.attempts[r := q.attempts[r]] && q.stock == p.stock
            && var a, b := p.attempts[r], q.attempts[r];
               && !Is(b, Queued) && !Is(b, Overdue(now))
               && (if Is(a, Overdue(now)) then
                     !Is(a, Queued) && Is(a, Reserving) && !Is(b, Reserving) && q.reserved == p.reserved - 1
                   else
                     && Is(a, Queued) && !Is(a, Reserving) && WaitingCanMove(p)
                     && (forall j :: 0 <= j < |p.attempts| ==> !Is(p.attempts[j], Overdue(now)))
                     && (Is(b, Reserving) <==> p.stock != 0)
                     && q.reserved == p.reserved + (if p.stock == 0 then 0 else 1))
  {
    WorkHasNextRow(p, now);
    hide HasWork;
  }

  /** Every step keeps the reservation counter honest and does exactly one unit of the due work. */
  lemma StepDoesOneUnit(p: Product, cfg: Config, now: Time)
    requires ReservedOk(p) && HasWork(p, now)
    ensures ReservedOk(Step(p, cfg, now))
    ensures Work(Step(p, cfg, now), now) == Work(p, now) - 1
  {
    hide Step, NextRow, HasWork, Is, Count;
    StepEffect(p, cfg, now);
    var i, q := NextRow(p, now), Step(p, cfg, now);
    CountUpdate(p.attempts, i, q.attempts[i], Reserving);
    CountUpdate(p.attempts, i, q.attempts[i], Overdue(now));
    CountUpdate(p.attempts, i, q.attempts[i], Queued);
    CountZero(p.attempts, Queued);
    CountZero(p.attempts, Overdue(now));
    CountZero(p.attempts, Reserving);
  }

  lemma {:induction false} IterateWork(p: Product, cfg: Config, now: Time, n: nat)
    requires ReservedOk(p)
    ensures ReservedOk(Iterate(p, cfg, now, n))
    ensures Work(Iterate(p, cfg, now, n), now) == Work(p, now) - Min(n, Work(p, now))
    decreases n
  {
    WorkIsSomething(p, now);
    if n > 0 && HasWork(p, now) {
      StepDoesOneUnit(p, cfg, now);
      IterateWork(Step(p, cfg, now), cfg, now, n - 1);
    }
  }

  lemma {:induction false} IterateCompose(p: Product, cfg: Config, now: Time, m: nat, n: nat)
    ensures Iterate(Iterate(p, cfg, now, m), cfg, now, n) == Iterate(p, cfg, now, m + n)
    decreases m
  {
    if m > 0 && HasWork(p, now) {
      IterateCompose(Step(p, cfg, now), cfg, now, m - 1, n);
    }
  }

  /** With enough steps nothing is left, and any two such numbers of steps end alike. */
  lemma IterateEnough(p: Product, cfg: Config, now: Time, n: nat)
    requires ReservedOk(p) && n >= Work(p, now)
    ensures !HasWork(Iterate(p, cfg, now, n), now)
    ensures Work(p, now) >= 0 && Iterate(p, cfg, now, n) == Iterate(p, cfg, now, Work(p, now))
  {
    WorkIsSomething(p, now);
    IterateWork(p, cfg, now, n);
    WorkIsSomething(Iterate(p, cfg, now, n), now);
    var w: nat := Work(p, now);
    IterateWork(p, cfg, now, w);
    WorkIsSomething(Iterate(p, cfg, now, w), now);
    IterateCompose(p, cfg, now, w, n - w);
  }

  /** An unbounded reconciliation succeeds on every honest product and settles it for this instant. */
  lemma ReconcileSettles(p: Product, cfg: Config, now: Time)
    requires ReservedOk(p)
    ensures Reconcile(p, cfg, now).Ok?
    ensures ReservedOk(Reconcile(p, cfg, now).value)
    ensures !HasWork(Reconcile(p, cfg, now).value, now)
    ensures Reconcile(Reconcile(p, cfg, now).value, cfg, now) == Reconcile(p, cfg, now)
  {
    WorkIsSomething(p, now);
    IterateEnough(p, cfg, now, Unbounded(p));
    IterateWork(p, cfg, now, Unbounded(p));
  }

  // ---------------------------------------------------------------------------------------------
  // Batches
  // ---------------------------------------------------------------------------------------------

  /** Successive bounded reconciliations at one clock value. */
  function Batches(p: Product, cfg: Config, now: Time, limits: seq<nat>): Product
    decreases |limits|
  {
    if |limits| == 0 then p else Batches(Iterate(p, cfg, now, limits[0]), cfg, now, limits[1..])
  }

  function Sum(limits: seq<nat>): nat { if |limits| == 0 then 0 else limits[0] + Sum(limits[1..]) }

  /** Transitions counted over all batches, each reporting how many it made. */
  function BatchTransitions(p: Product, cfg: Config, now: Time, limits: seq<nat>): int
    decreases |limits|
  {
    if |limits| == 0 then 0
    else Min(limits[0], Work(p, now)) + BatchTransitions(Iterate(p, cfg, now, limits[0]), cfg, now, limits[1..])
  }

  lemma {:induction false} BatchesAreOneBatch(p: Product, cfg: Config, now: Time, limits: seq<nat>)
    requires ReservedOk(p)
    ensures Batches(p, cfg, now, limits) == Iterate(p, cfg, now, Sum(limits))
    ensures BatchTransitions(p, cfg, now, limits) == Min(Sum(limits), Work(p, now))
    decreases |limits|
  {
    WorkIsSomething(p, now);
    if |limits| > 0 {
      IterateWork(p, cfg, now, limits[0]);
      BatchesAreOneBatch(Iterate(p, cfg, now, limits[0]), cfg, now, limits[1..]);
      IterateCompose(p, cfg, now, limits[0], Sum(limits[1..]));
    }
  }

  /** Bounded reconciliations at one clock value, repeated until none reports more work, leave exactly the
      state of one unbounded reconciliation, having made exactly as many transitions, and a further
      reconciliation changes nothing. Positive limits reach that point after at most `Work` batches. */
  lemma BatchesConverge(p: Product, cfg: Config, now: Time, limits: seq<nat>)
    requires ReservedOk(p)
    ensures !HasWork(Batches(p, cfg, now, limits), now) ==>
              && Batches(p, cfg, now, limits) == Iterate(p, cfg, now, Unbounded(p))
              && BatchTransitions(p, cfg, now, limits) == Work(p, now)
              && Reconcile(Batches(p, cfg, now, limits), cfg, now) == Ok(Batches(p, cfg, now, limits))
    ensures (forall k :: 0 <= k < |limits| ==> limits[k] > 0) && |limits| >= Work(p, now) ==>
              !HasWork(Batches(p, cfg, now, limits), now)
  {
    var end := Batches(p, cfg, now, limits);
    BatchesAreOneBatch(p, cfg, now, limits);
    WorkIsSomething(p, now);
    IterateWork(p, cfg, now, Sum(limits));
    WorkIsSomething(end, now);
    if !HasWork(end, now) {
      IterateEnough(p, cfg, now, Sum(limits));
      IterateEnough(p, cfg, now, Unbounded(p));
    }
    if forall k :: 0 <= k < |limits| ==> limits[k] > 0 {
      SumOfPositives(limits);
    }
  }

  lemma {:induction false} SumOfPositives(limits: seq<nat>)
    requires forall k :: 0 <= k < |limits| ==> limits[k] > 0
    ensures Sum(limits) >= |limits|
  {
    if |limits| > 0 {
      SumOfPositives(limits[1..]);
    }
  }

  // ---------------------------------------------------------------------------------------------
  // Where each attempt ends
  // ---------------------------------------------------------------------------------------------

  /** Whether a full reconciliation invites attempt `i`: it waits, there is stock, and fewer attempts
      wait before it than there are free units. */
  predicate GetsInvited(p: Product, now: Time, i: nat)
    requires i < |p.attempts|
  {
    p.attempts[i].state.Waiting? && p.stock != 0 && Count(p.attempts[..i], Queued) < Free(p, now)
  }

  /** Where a full reconciliation takes attempt `i`, looking only at its own rights and its rank. */
  function SettledAttempt(p: Product, cfg: Config, now: Time, i: nat): Attempt
    requires i < |p.attempts|
  {
    var a := p.attempts[i];
    if Is(a, Overdue(now)) then Expire(a, now)
    else if a.state.Waiting? && p.stock == 0 then Finish(a, SoldOut, now)
    else if GetsInvited(p, now, i) then Promote(a, now, cfg)
    else a
  }

  /** The invitation rows of the first `n` attempts, in queue order. */
  function SettledInvitations(p: Product, cfg: Config, now: Time, n: nat): seq<Invitation>
    requires n <= |p.attempts|
  {
    if n == 0 then []
    else SettledInvitations(p, cfg, now, n - 1)
         + (if GetsInvited(p, now, n - 1) then [InvitationFor(p.attempts[n - 1], cfg, now)] else [])
  }

  ghost predicate SettlesAs(p: Product, cfg: Config, now: Time, q: Product) {
    && |q.attempts| == |p.attempts|
    && (forall i :: 0 <= i < |p.attempts| ==> q.attempts[i] == SettledAttempt(p, cfg, now, i))
    && q.invitations == p.invitations + SettledInvitations(p, cfg, now, |p.attempts|)
    && q == p.(attempts := q.attempts, invitations := q.invitations, reserved := Count(q.attempts, Reserving))
  }

  /** The step-by-step reconciliation ends where the attempt-by-attempt description says. */
  lemma {:induction false} ReconcileIsSettled(p: Product, cfg: Config, now: Time, n: nat)
    requires ReservedOk(p) && n >= Work(p, now)
    ensures SettlesAs(p, cfg, now, Iterate(p, cfg, now, n))
    decreases n
  {
    WorkIsSomething(p, now);
    if HasWork(p, now) {
      StepDoesOneUnit(p, cfg, now);
      ReconcileIsSettled(Step(p, cfg, now), cfg, now, n - 1);
      StepKeepsDestination(p, cfg, now);
    } else {
      forall i | 0 <= i < |p.attempts| ensures SettledAttempt(p, cfg, now, i) == p.attempts[i]
          && !GetsInvited(p, now, i) {
        NoWorkNoMove(p, cfg, now, i);
      }
      NobodyInvited(p, cfg, now, |p.attempts|);
    }
  }

  /** The product as a full reconciliation leaves it, written down row by row: no loop, no single steps. */
  function Settlement(p: Product, cfg: Config, now: Time): (q: Product)
    ensures |q.attempts| == |p.attempts|
    ensures forall i :: 0 <= i < |p.attempts| ==> q.attempts[i] == SettledAttempt(p, cfg, now, i)
  {
    var rows := seq(|p.attempts|, i requires 0 <= i < |p.attempts| => SettledAttempt(p, cfg, now, i));
    p.(attempts := rows, reserved := Count(rows, Reserving),
       invitations := p.invitations + SettledInvitations(p, cfg, now, |p.attempts|))
  }

  /** Every reconciliation of an honest product is its settlement. */
  lemma ReconcileIsSettlement(p: Product, cfg: Config, now: Time)
    requires ReservedOk(p)
    ensures Reconcile(p, cfg, now) == Ok(Settlement(p, cfg, now)) && ReservedOk(Settlement(p, cfg, now))
    ensures !HasWork(Settlement(p, cfg, now), now)
  {
    ReconcileSettles(p, cfg, now);
    WorkIsSomething(p, now);
    ReconcileIsSettled(p, cfg, now, Unbounded(p));
    hide Iterate, ReservedOk, HasWork, SettledAttempt, SettledInvitations, Count;
    assert Reconcile(p, cfg, now).value.attempts == Settlement(p, cfg, now).attempts;
  }

  /** `b` is `a` ended in state `s`. */
  predicate EndsAs(a: Attempt, b: Attempt, s: State, now: Time) {
    b == a.(state := s, terminalAt := Some(now), terminalReason := Some(s), updatedAt := now, version := a.version + 1)
  }

  /** `b` is `a` invited. */
  predicate InvitedAs(a: Attempt, b: Attempt, cfg: Config, now: Time) {
    b == a.(state := Invited, invitedAt := Some(now), invitationDeadline := Some(now + cfg.invitationTTL),
            updatedAt := now, version := a.version + 1)
  }

  /** What a settlement does to each row, field by field, and what it writes to the outbox. */
  lemma SettledRowsAreWritten(p: Product, cfg: Config, now: Time, i: nat)
    requires i < |p.attempts|
    ensures var a, b := p.attempts[i], Settlement(p, cfg, now).attempts[i];
            if a.state.Invited? && Reached(a.invitationDeadline, now) then EndsAs(a, b, InviteExpired, now)
            else if a.state.Checkout? && Reached(a.checkoutDeadline, now) then EndsAs(a, b, CheckoutExpired, now)
            else if a.state.Waiting? && p.stock == 0 then EndsAs(a, b, SoldOut, now)
            else if a.state.Waiting? && Count(p.attempts[..i], Queued) < Free(p, now) then InvitedAs(a, b, cfg, now)
            else b == a
  {
  }

  lemma {:induction false} InvitationsAreWritten(p: Product, cfg: Config, now: Time, n: nat, k: nat) returns (i: nat)
    requires n <= |p.attempts| && k < |SettledInvitations(p, cfg, now, n)|
    ensures i < n && GetsInvited(p, now, i)
    ensures SettledInvitations(p, cfg, now, n)[k]
         == Invitation(p.attempts[i].id, p.attempts[i].version + 1, now + cfg.invitationTTL, now)
  {
    if k < |SettledInvitations(p, cfg, now, n - 1)| {
      i := InvitationsAreWritten(p, cfg, now, n - 1, k);
    } else {
      i := n - 1;
    }
  }

  lemma NoWorkNoMove(p: Product, cfg: Config, now: Time, i: nat)
    requires i < |p.attempts| && !HasWork(p, now)
    ensures SettledAttempt(p, cfg, now, i) == p.attempts[i] && !GetsInvited(p, now, i)
  {
    CountZero(p.attempts, Overdue(now));
    forall j | 0 <= j < |p.attempts| ensures !Is(p.attempts[j], Overdue(now)) {}
    assert Free(p, now) == p.stock - p.reserved;
    if p.attempts[i].state.Waiting? {
      assert Is(p.attempts[i], Queued);
    }
  }

  lemma {:induction false} NobodyInvited(p: Product, cfg: Config, now: Time, n: nat)
    requires n <= |p.attempts| && forall i :: 0 <= i < n ==> !GetsInvited(p, now, i)
    ensures SettledInvitations(p, cfg, now, n) == []
  {
    if n > 0 {
      NobodyInvited(p, cfg, now, n - 1);
    }
  }

  /** A step changes one attempt and leaves every attempt's destination where it was. */
  lemma StepKeepsDestination(p: Product, cfg: Config, now: Time)
    requires ReservedOk(p) && HasWork(p, now)
    ensures var q := Step(p, cfg, now);
            && |q.attempts| == |p.attempts|
            && (forall i :: 0 <= i < |p.attempts| ==>
                  SettledAttempt(q, cfg, now, i) == SettledAttempt(p, cfg, now, i))
            && q.invitations + SettledInvitations(q, cfg, now, |q.attempts|)
               == p.invitations + SettledInvitations(p, cfg, now, |p.attempts|)
  {
    WorkHasNextRow(p, now);
    var q, r := Step(p, cfg, now), NextRow(p, now);
    CountUpdate(p.attempts, r, q.attempts[r], Overdue(now));
    CountZero(p.attempts, Overdue(now));
    forall i | 0 <= i < |p.attempts|
      ensures SettledAttempt(q, cfg, now, i) == SettledAttempt(p, cfg, now, i)
      ensures i != r ==> (GetsInvited(q, now, i) <==> GetsInvited(p, now, i))
    {
      StepKeepsRank(p, cfg, now, i);
    }
    StepKeepsInvitations(p, cfg, now, |p.attempts|);
  }

  /** The three kinds of step, with what they do to the free units. */
  lemma StepShape(p: Product, cfg: Config, now: Time)
    requires ReservedOk(p) && HasWork(p, now)
    ensures var q, r := Step(p, cfg, now), NextRow(p, now);
            && r < |p.attempts| == |q.attempts|
            && q.attempts == p.attempts[r := q.attempts[r]]
            && q.stock == p.stock
            && !Is(q.attempts[r], Queued) && !Is(q.attempts[r], Overdue(now))
            && (Is(p.attempts[r], Overdue(now)) ==>
                  q.attempts[r] == Expire(p.attempts[r], now) && Free(q, now) == Free(p, now))
            && (!Is(p.attempts[r], Overdue(now)) ==>
                  && Is(p.attempts[r], Queued)
                  && (forall j :: 0 <= j < r ==> !Is(p.attempts[j], Queued))
                  && Free(p, now) == p.stock - p.reserved
                  && (p.stock == 0 ==> q.attempts[r] == Finish(p.attempts[r], SoldOut, now))
                  && (p.stock != 0 ==> q.attempts[r] == Promote(p.attempts[r], now, cfg)
                                       && Free(p, now) > 0 && Free(q, now) == Free(p, now) - 1))
  {
    WorkHasNextRow(p, now);
    var q, r := Step(p, cfg, now), NextRow(p, now);
    assert q.attempts == p.attempts[r := q.attempts[r]];
    CountUpdate(p.attempts, r, q.attempts[r], Overdue(now));
    CountZero(p.attempts, Overdue(now));
  }

  lemma StepKeepsRank(p: Product, cfg: Config, now: Time, i: nat)
    requires ReservedOk(p) && HasWork(p, now) && i < |p.attempts|
    ensures var q, r := Step(p, cfg, now), NextRow(p, now);
            && i < |q.attempts|
            && SettledAttempt(q, cfg, now, i) == SettledAttempt(p, cfg, now, i)
            && !(i == r && GetsInvited(q, now, i))
            && (i == r ==> (GetsInvited(p, now, i) <==> p.stock != 0 && Is(p.attempts[i], Queued)))
            && (i != r ==> (GetsInvited(q, now, i) <==> GetsInvited(p, now, i)))
            && (i != r ==> q.attempts[i] == p.attempts[i])
  {
    StepShape(p, cfg, now);
    var q, r := Step(p, cfg, now), NextRow(p, now);
    var b := q.attempts[r];
    if r < i {
      assert q.attempts[..i] == p.attempts[..i][r := b];
      CountUpdate(p.attempts[..i], r, b, Queued);
    } else if r == i {
      CountZero(p.attempts[..r], Queued);
    } else {
      assert q.attempts[..i] == p.attempts[..i];
    }
  }

  lemma StepInvites(p: Product, cfg: Config, now: Time)
    requires ReservedOk(p) && HasWork(p, now)
    ensures var q, r := Step(p, cfg, now), NextRow(p, now);
            && r < |p.attempts| == |q.attempts|
            && q.invitations == p.invitations + (if p.stock != 0 && Is(p.attempts[r], Queued)
                                                 then [InvitationFor(p.attempts[r], cfg, now)] else [])
            && (Is(p.attempts[r], Queued) <==> !Is(p.attempts[r], Overdue(now)))
  {
    StepShape(p, cfg, now);
  }

  lemma {:induction false} StepKeepsInvitations(p: Product, cfg: Config, now: Time, n: nat)
    requires ReservedOk(p) && HasWork(p, now) && n <= |p.attempts|
    ensures var q, r := Step(p, cfg, now), NextRow(p, now);
            && |q.attempts| == |p.attempts|
            && (n > r ==> q.invitations + SettledInvitations(q, cfg, now, n)
                          == p.invitations + SettledInvitations(p, cfg, now, n))
            && (n <= r ==> SettledInvitations(q, cfg, now, n) == SettledInvitations(p, cfg, now, n))
            && (n <= r && !Is(p.attempts[r], Overdue(now)) ==> SettledInvitations(p, cfg, now, n) == [])
  {
    hide ReservedOk, HasWork, Step, NextRow, SettledAttempt, GetsInvited, Is;
    StepInvites(p, cfg, now);
    var q, r := Step(p, cfg, now), NextRow(p, now);
    if n > 0 {
      StepKeepsInvitations(p, cfg, now, n - 1);
      StepKeepsRank(p, cfg, now, n - 1);
      if n - 1 < r && !Is(p.attempts[r], Overdue(now)) {
        NobodyBefore(p, cfg, now, n - 1);
      }
      var x, y := SettledInvitations(p, cfg, now, n - 1), SettledInvitations(q, cfg, now, n - 1);
      if n - 1 > r {
        var tail := if GetsInvited(p, now, n - 1) then [InvitationFor(p.attempts[n - 1], cfg, now)] else [];
        assert q.invitations + (y + tail) == (q.invitations + y) + tail;
        assert p.invitations + (x + tail) == (p.invitations + x) + tail;
      }
    }
  }

  /** Nobody waits before the row that is promoted or ended next. */
  lemma NobodyBefore(p: Product, cfg: Config, now: Time, i: nat)
    requires ReservedOk(p) && HasWork(p, now) && i < NextRow(p, now) && !Is(p.attempts[NextRow(p, now)], Overdue(now))
    ensures !GetsInvited(p, now, i)
  {
    StepShape(p, cfg, now);
    assert !Is(p.attempts[i], Queued);
  }
}
