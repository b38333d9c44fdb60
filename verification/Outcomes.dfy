/** What each queue request achieves: its answer and the table it leaves, told from the table before it. The
    settlement of the table (Reconciliation.Settlement) stands for everything that was due; what is said here
    refers to no request function, to no loop and to no intermediate state. */
module Outcomes {
  import opened Wrappers
  import opened Domain
  import opened Reconciliation
  import opened QueueInvariants
  import opened QueueSafety
  import opened Framing
  import opened Database
  import opened DatabaseInvariants
  import opened DatabaseSafety
  import opened PaymentSafety
  import opened Runs
  import opened Guarantees
  import Queue

  // ---------------------------------------------------------------------------------------------
  // Vocabulary
  // ---------------------------------------------------------------------------------------------

  /** Row `i` is the newest row of the user. */
  predicate Newest(p: Product, user: Name, i: nat) {
    && i < |p.attempts| && p.attempts[i].user == user
    && (forall j :: i < j < |p.attempts| ==> p.attempts[j].user != user)
  }

  predicate Stranger(p: Product, user: Name) { forall i :: 0 <= i < |p.attempts| ==> p.attempts[i].user != user }

  /** The rows before `n` that wait. */
  function WaitingBefore(p: Product, n: nat): set<int>
    requires n <= |p.attempts|
  {
    set k | 0 <= k < n && p.attempts[k].state.Waiting?
  }

  /** The answer tells row `i` of the table, how many wait before it if it waits, and how many wait in all. */
  predicate Tells(answer: Queue.JoinResult, q: Product, i: nat, created: bool) {
    && i < |q.attempts| && answer.attempt == q.attempts[i] && answer.created == created
    && answer.positionAhead == (if q.attempts[i].state.Waiting? then |WaitingBefore(q, i)| else 0)
    && answer.totalWaiting == |WaitingBefore(q, |q.attempts|)|
  }

  lemma {:induction false} CountIsSize(p: Product, n: nat)
    requires n <= |p.attempts|
    ensures Count(p.attempts[..n], Queued) == |WaitingBefore(p, n)|
  {
    if n > 0 {
      CountIsSize(p, n - 1);
      CountPrefix(p.attempts, n - 1, Queued);
      assert Is(p.attempts[n - 1], Queued) <==> p.attempts[n - 1].state.Waiting?;
      hide Count, Is;
      OneMoreWaiting(p, n - 1);
    } else {
      assert WaitingBefore(p, 0) == {};
    }
  }

  lemma OneMoreWaiting(p: Product, n: nat)
    requires n < |p.attempts|
    ensures |WaitingBefore(p, n + 1)| == |WaitingBefore(p, n)| + (if p.attempts[n].state.Waiting? then 1 else 0)
  {
    var few, more := WaitingBefore(p, n), WaitingBefore(p, n + 1);
    assert forall k :: k in more <==> k in few || (k == n && p.attempts[n].state.Waiting?);
    assert n !in few;
    hide WaitingBefore;
    if p.attempts[n].state.Waiting? {
      OneMore(few, n);
      assert more == few + {n};
    } else {
      assert more == few;
    }
  }

  lemma OneMore(s: set<int>, x: int)
    requires x !in s
    ensures |s + {x}| == |s| + 1
  {
  }

  /** In a table in sequence order the answers count what they say they count. */
  lemma AnswerTells(q: Product, i: nat, created: bool)
    requires Sequenced(q) && i < |q.attempts|
    ensures Tells(Queue.Answer(q, i, created), q, i, created)
  {
    var n := |q.attempts|;
    CountIsSize(q, n);
    assert q.attempts[..n] == q.attempts;
    if q.attempts[i].state.Waiting? {
      CountIsSize(q, i);
      AheadIsBefore(q, i, n);
    }
  }

  lemma {:induction false} AheadIsBefore(q: Product, i: nat, n: nat)
    requires Sequenced(q) && i <= n <= |q.attempts| && i < |q.attempts|
    ensures Count(q.attempts[..n], QueuedBefore(q.attempts[i].sequence)) == Count(q.attempts[..i], Queued)
    decreases n
  {
    if i < n {
      AheadIsBefore(q, i, n - 1);
      CountPrefix(q.attempts, n - 1, QueuedBefore(q.attempts[i].sequence));
    } else {
      CountEqual(q.attempts[..i], QueuedBefore(q.attempts[i].sequence), Queued);
    }
  }

  lemma {:induction false} CountEqual(s: seq<Attempt>, j: Kind, k: Kind)
    requires forall i :: 0 <= i < |s| ==> (Is(s[i], j) <==> Is(s[i], k))
    ensures Count(s, j) == Count(s, k)
  {
    if |s| > 0 {
      CountEqual(s[..|s| - 1], j, k);
    }
  }

  /** The settlement keeps every row's identity and the invariant. */
  lemma SettlementIsSound(p: Product, cfg: Config, now: Time)
    requires ProductOk(p, now)
    ensures var s := Settlement(p, cfg, now);
            && Reconcile(p, cfg, now) == Ok(s)
            && ProductOk(s, now) && Evolves(p, s) && !HasWork(s, now)
            && s.stock == p.stock && s.nextSequence == p.nextSequence && |s.attempts| == |p.attempts|
            && s.adjustments == p.adjustments && s.enabled == p.enabled && s.id == p.id
            && (forall i :: 0 <= i < |p.attempts| ==> SameIdentity(p.attempts[i], s.attempts[i]))
  {
    assert ReservedOk(p);
    hide ProductOk, Evolves, HasWork, SettledAttempt, Settlement, ReservedOk;
    ReconcileIsSettlement(p, cfg, now);
    ReconcileKeepsProduct(p, cfg, now);
    EvolvedRowsKeepIdentity(p, Settlement(p, cfg, now));
  }

  lemma EvolvedRowsKeepIdentity(p: Product, q: Product)
    requires Evolves(p, q)
    ensures |p.attempts| <= |q.attempts| && q.enabled == p.enabled && q.id == p.id
    ensures forall i :: 0 <= i < |p.attempts| ==> SameIdentity(p.attempts[i], q.attempts[i])
  {
    forall i | 0 <= i < |p.attempts| ensures SameIdentity(p.attempts[i], q.attempts[i]) {
      assert AttemptEvolves(p.attempts[i], q.attempts[i]);
    }
  }

  /** `s` with row `i` replaced by `b`, which has given its reservation back and taken `sold` units along. */
  function Released(s: Product, i: nat, b: Attempt, sold: int): Product
    requires i < |s.attempts|
  {
    s.(attempts := s.attempts[i := b], stock := s.stock - sold,
       reserved := s.reserved - (if Reserves(s.attempts[i].state) then 1 else 0))
  }

  /** The first row in line, if anybody waits in `s`, is invited in `q`. */
  predicate FirstInLineInvited(s: Product, q: Product, cfg: Config, now: Time) {
    |q.attempts| == |s.attempts|
    && forall k :: 0 <= k < |s.attempts| && s.attempts[k].state.Waiting?
                   && (forall j :: 0 <= j < k ==> !s.attempts[j].state.Waiting?) ==>
         InvitedAs(s.attempts[k], q.attempts[k], cfg, now)
  }

  // ---------------------------------------------------------------------------------------------
  // Status
  // ---------------------------------------------------------------------------------------------

  /** The status request tells the user's newest row, as settled. */
  ghost predicate StatusSpec(p: Product, cfg: Config, now: Time, user: Name, q: Product,
                             result: Result<Queue.JoinResult>)
  {
    && q == Settlement(p, cfg, now)
    && (result == Err(AttemptNotFound) <==> Stranger(p, user))
    && (forall i: nat :: Newest(p, user, i) ==> result.Ok? && Tells(result.value, q, i, false))
  }

  lemma LastIsNewest(p: Product, s: Product, user: Name)
    requires |s.attempts| == |p.attempts|
    requires forall i :: 0 <= i < |p.attempts| ==> s.attempts[i].user == p.attempts[i].user
    ensures Last(s.attempts, OwnedBy(user)) == |s.attempts| <==> Stranger(p, user)
    ensures forall i: nat :: Newest(p, user, i) ==> i == Last(s.attempts, OwnedBy(user))
    ensures Last(s.attempts, OwnedBy(user)) < |s.attempts| ==> Newest(p, user, Last(s.attempts, OwnedBy(user)))
  {
    var l := Last(s.attempts, OwnedBy(user));
    if l < |s.attempts| {
      assert Is(s.attempts[l], OwnedBy(user));
      forall j | l < j < |p.attempts| ensures p.attempts[j].user != user {
        assert !Is(s.attempts[j], OwnedBy(user));
      }
    } else {
      forall i | 0 <= i < |p.attempts| ensures p.attempts[i].user != user {
        assert !Is(s.attempts[i], OwnedBy(user));
      }
    }
  }

  lemma StatusOnProduct(p: Product, cfg: Config, now: Time, user: Name)
    requires ProductOk(p, now)
    ensures var o := Queue.FindCurrent(p, cfg, now, user); StatusSpec(p, cfg, now, user, o.product, o.result)
  {
    hide ProductOk, Evolves, HasWork, Settlement, Reconcile, Tells, Queue.Answer;
    SettlementIsSound(p, cfg, now);
    var s := Settlement(p, cfg, now);
    LastIsNewest(p, s, user);
    var latest, active := Last(s.attempts, OwnedBy(user)), First(s.attempts, ActiveOf(user));
    if latest < |s.attempts| {
      InOrderOf(s, now);
      AnswerTells(s, latest, false);
      if active < |s.attempts| {
        ActiveIsLatest(s, now, user);
      }
    } else {
      NoRowNoActive(s, user);
    }
  }

  lemma NoRowNoActive(s: Product, user: Name)
    requires Last(s.attempts, OwnedBy(user)) == |s.attempts|
    ensures First(s.attempts, ActiveOf(user)) == |s.attempts|
  {
    forall j | 0 <= j < |s.attempts| ensures !Is(s.attempts[j], ActiveOf(user)) {
      assert !Is(s.attempts[j], OwnedBy(user));
    }
  }

  lemma InOrderOf(p: Product, now: Time)
    requires ProductOk(p, now)
    ensures Sequenced(p)
  {
  }

  // ---------------------------------------------------------------------------------------------
  // Checkout
  // ---------------------------------------------------------------------------------------------

  /** An invited user gets in, a user in checkout stays in, and everybody else is told why not. */
  ghost predicate CheckoutSpec(p: Product, cfg: Config, now: Time, id: Uuid, user: Name, q: Product,
                               result: Result<Attempt>)
  {
    var s := Settlement(p, cfg, now);
    && (result == Err(AttemptNotFound) <==>
          !exists i :: 0 <= i < |p.attempts| && p.attempts[i].id == id && p.attempts[i].user == user)
    && (forall i :: 0 <= i < |p.attempts| && p.attempts[i].id == id && p.attempts[i].user == user ==>
          var a := s.attempts[i];
          && (result.Ok? <==> a.state.Invited? || a.state.Checkout?)
          && (result == Err(AttemptGone) <==> a.state.InviteExpired? || a.state.CheckoutExpired? || a.state.SoldOut?)
          && (result == Err(InvalidTransition) <==>
                a.state.Waiting? || a.state.Purchased? || a.state.PaymentFailed? || a.state.Cancelled?)
          && (a.state.Checkout? ==> result == Ok(a) && q == s)
          && (a.state.Invited? ==>
                && result.Ok? && q == s.(attempts := s.attempts[i := result.value])
                && result.value == a.(state := Checkout, checkoutStartedAt := Some(now),
                                      checkoutDeadline := Some(now + cfg.checkoutTTL),
                                      updatedAt := now, version := a.version + 1)))
    && (result.Err? ==> q == s)
  }

  lemma WithIdFinds(p: Product, s: Product, id: Uuid)
    requires Identified(s) && |s.attempts| == |p.attempts|
    requires forall i :: 0 <= i < |p.attempts| ==> s.attempts[i].id == p.attempts[i].id
    ensures forall i :: 0 <= i < |p.attempts| && p.attempts[i].id == id ==> i == First(s.attempts, WithId(id))
    ensures First(s.attempts, WithId(id)) < |s.attempts| ==> p.attempts[First(s.attempts, WithId(id))].id == id
  {
    forall i | 0 <= i < |p.attempts| && p.attempts[i].id == id ensures i == First(s.attempts, WithId(id)) {
      assert Is(s.attempts[i], WithId(id));
    }
    var f := First(s.attempts, WithId(id));
    if f < |s.attempts| {
      assert Is(s.attempts[f], WithId(id));
    }
  }

  lemma IdsOf(p: Product, now: Time)
    requires ProductOk(p, now)
    ensures Identified(p)
  {
  }

  lemma CheckoutOnProduct(p: Product, cfg: Config, now: Time, id: Uuid, user: Name)
    requires ProductOk(p, now)
    ensures var o := Queue.StartCheckout(p, cfg, now, id, user);
            CheckoutSpec(p, cfg, now, id, user, o.product, o.result)
  {
    hide ProductOk, Evolves, HasWork, Settlement, Reconcile, First;
    SettlementIsSound(p, cfg, now);
    var s := Settlement(p, cfg, now);
    IdsOf(s, now);
    WithIdFinds(p, s, id);
    hide Identified;
    var f := First(s.attempts, WithId(id));
    assert f < |s.attempts| ==> SameIdentity(p.attempts[f], s.attempts[f]);
  }

  // ---------------------------------------------------------------------------------------------
  // Cancellation
  // ---------------------------------------------------------------------------------------------

  /** A user who leaves ends cancelled, and what the user held goes to the first in line. */
  ghost predicate CancelSpec(p: Product, cfg: Config, now: Time, user: Name, q: Product, result: Result<Attempt>) {
    var s := Settlement(p, cfg, now);
    && (result == Err(AttemptNotFound) <==> Stranger(p, user))
    && (result.Err? ==> q == s)
    && (forall i: nat :: Newest(p, user, i) ==>
          var a := s.attempts[i];
          && (result == Err(AlreadyPurchased) <==> a.state.Purchased?)
          && (result.Ok? <==> !a.state.Purchased?)
          && (!IsActive(a.state) && !a.state.Purchased? ==> result == Ok(a) && q == s)
          && (IsActive(a.state) ==>
                && result.Ok? && EndsAs(a, result.value, Cancelled, now)
                && q == Settlement(Released(s, i, result.value, 0), cfg, now) && q.attempts[i] == result.value
                && (Reserves(a.state) ==> FirstInLineInvited(s, q, cfg, now))))
    && !HasWork(q, now)
  }

  /** A row that has ended stays as it is in any settlement. */
  lemma EndedStays(p: Product, cfg: Config, now: Time, i: nat)
    requires i < |p.attempts| && !IsActive(p.attempts[i].state)
    ensures Settlement(p, cfg, now).attempts[i] == p.attempts[i]
  {
  }

  lemma ReleaseInvites(s: Product, i: nat, b: Attempt, sold: int, cfg: Config, now: Time)
    requires ReservedOk(s) && !HasWork(s, now) && i < |s.attempts| && Reserves(s.attempts[i].state)
    requires !IsActive(b.state) && 0 <= sold <= 1
    requires sold == 0 || !(exists k :: 0 <= k < |s.attempts| && s.attempts[k].state.Waiting?)
    ensures FirstInLineInvited(s, Settlement(Released(s, i, b, sold), cfg, now), cfg, now)
  {
    var r := Released(s, i, b, sold);
    forall k | 0 <= k < |s.attempts| && s.attempts[k].state.Waiting?
               && (forall j :: 0 <= j < k ==> !s.attempts[j].state.Waiting?)
      ensures InvitedAs(s.attempts[k], Settlement(r, cfg, now).attempts[k], cfg, now)
    {
      assert Is(s.attempts[k], Queued) && !WaitingCanMove(s);
      CountZero(r.attempts[..k], Queued);
      forall j | 0 <= j < |s.attempts| ensures !Is(s.attempts[j], Overdue(now)) {}
      CountZero(r.attempts, Overdue(now));
      hide HasWork, Count, ReservedOk;
      SettledRowsAreWritten(r, cfg, now, k);
    }
  }

  lemma CancelOnProduct(p: Product, cfg: Config, now: Time, user: Name)
    requires ProductOk(p, now)
    ensures var o := Queue.Cancel(p, cfg, now, user); CancelSpec(p, cfg, now, user, o.product, o.result)
  {
    hide ProductOk, Evolves, HasWork, Settlement, Reconcile, Last, FirstInLineInvited;
    SettlementIsSound(p, cfg, now);
    var s := Settlement(p, cfg, now);
    LastIsNewest(p, s, user);
    var i := Last(s.attempts, OwnedBy(user));
    if i < |s.attempts| && IsActive(s.attempts[i].state) {
      var c := Queue.CancelRow(s, i, now);
      SettledIsTimely(s, now, i);
      CancelKeepsProduct(s, i, now);
      SettlementIsSound(c, cfg, now);
      EndedStays(c, cfg, now, i);
      assert c == Released(s, i, c.attempts[i], 0);
      if Reserves(s.attempts[i].state) {
        CountersOf(s, now);
        ReleaseInvites(s, i, c.attempts[i], 0, cfg, now);
      }
    }
  }

  lemma CountersOf(p: Product, now: Time)
    requires ProductOk(p, now)
    ensures ReservedOk(p)
  {
  }

  // ---------------------------------------------------------------------------------------------
  // Joining
  // ---------------------------------------------------------------------------------------------

  /** A new row of the table, in checkout or waiting. */
  predicate IsNewRow(a: Attempt, p: Product, cfg: Config, now: Time, user: Name, key: Name, id: Uuid, checkout: bool) {
    && a.id == id && a.product == p.id && a.sequence == p.nextSequence && a.user == user && a.key == key
    && a.createdAt == now && a.updatedAt == now && a.version == 1
    && a.terminalAt.None? && a.purchasedAt.None? && a.accepted.None? && a.terminalReason.None?
    && (if checkout then
          && a.state.Checkout?
          && a.invitedAt == Some(now) && a.invitationDeadline == Some(now + cfg.invitationTTL)
          && a.checkoutStartedAt == Some(now) && a.checkoutDeadline == Some(now + cfg.checkoutTTL)
        else
          && a.state.Waiting?
          && a.invitedAt.None? && a.invitationDeadline.None? && a.checkoutStartedAt.None? && a.checkoutDeadline.None?)
  }

  /** The capacity of the line can be computed within 64 bits. */
  predicate CapacityFits(stock: int, percent: int) { percent >= 0 && stock * percent + 99 <= MAX_INT64 }

  /** Somebody who has neither a row under the key nor a place. A unit is free when fewer rights are out than
      there are units; there is room in line when fewer wait than ceil(stock * percent / 100). */
  ghost predicate NewcomerSpec(p: Product, cfg: Config, now: Time, percent: int, user: Name, key: Name, id: Uuid,
                               taken: bool, q: Product, result: Result<Queue.JoinResult>)
  {
    var s := Settlement(p, cfg, now);
    var free := Count(s.attempts, Reserving) < p.stock;
    var room := 100 * |WaitingBefore(s, |s.attempts|)| < p.stock * percent;
    var served := p.enabled && p.stock != 0 && p.nextSequence < MAX_INT64;
    var admitted := served && (free || (CapacityFits(p.stock, percent) && room));
    && (result == Err(QueueDisabled) <==> !p.enabled)
    && (result == Err(OutOfStock) <==> p.enabled && p.stock == 0)
    && (result == Err(QueueSequenceExhausted) <==> p.enabled && p.stock != 0 && p.nextSequence == MAX_INT64)
    && (result == Err(InvalidInput) <==> served && !free && !CapacityFits(p.stock, percent))
    && (result == Err(QueueFull) <==> served && !free && CapacityFits(p.stock, percent) && !room)
    && (result == Err(Conflict) <==> admitted && taken)
    && (result.Ok? <==> admitted && !taken)
    && (result.Ok? ==>
          && IsNewRow(result.value.attempt, p, cfg, now, user, key, id, free)
          && q == s.(attempts := s.attempts + [result.value.attempt], nextSequence := p.nextSequence + 1,
                     reserved := s.reserved + (if free then 1 else 0))
          && Tells(result.value, q, |s.attempts|, true))
    && (result == Err(OutOfStock) || result == Err(QueueFull) ==> q == s)
    && (result.Err? && result != Err(OutOfStock) && result != Err(QueueFull) && result != Err(QueueDisabled) ==> q == p)
  }

  /** A stored key is answered with its row, a user with a place with that place, anybody else is a newcomer. */
  ghost predicate JoinSpec(p: Product, cfg: Config, now: Time, percent: int, user: Name, key: Name, id: Uuid,
                           taken: bool, q: Product, result: Result<Queue.JoinResult>)
  {
    && (forall i :: 0 <= i < |p.attempts| && p.attempts[i].user == user && p.attempts[i].key == key ==>
          q == p && result.Ok? && Tells(result.value, p, i, false))
    && (forall i :: 0 <= i < |p.attempts| && p.attempts[i].user == user && InForceAt(p.attempts[i], now)
                    && !KeyIsStored(p, user, key) ==>
          q == p && result.Ok? && Tells(result.value, p, i, false))
    && (!KeyIsStored(p, user, key) && !HasPlace(p, now, user) ==>
          && NewcomerSpec(p, cfg, now, percent, user, key, id, taken, q, result)
          && (result == Err(QueueDisabled) ==> q == if HasActiveRow(p, user) then Settlement(p, cfg, now) else p))
  }

  /** The user has an active row, overdue or not. */
  predicate HasActiveRow(p: Product, user: Name) {
    exists i :: 0 <= i < |p.attempts| && p.attempts[i].user == user && IsActive(p.attempts[i].state)
  }

  lemma RoomIsCapacity(stock: int, percent: int, waiting: nat)
    requires 0 <= stock
    ensures CapacityFits(stock, percent) <==> WaitingCapacity(stock, percent).Ok?
    ensures WaitingCapacity(stock, percent).Err? ==> WaitingCapacity(stock, percent) == Err(InvalidInput)
    ensures WaitingCapacity(stock, percent).Ok? ==>
              (waiting < WaitingCapacity(stock, percent).value <==> 100 * waiting < stock * percent)
  {
    WaitingCapacityIsCeiling(stock, percent);
    if WaitingCapacity(stock, percent).Ok? {
      var c := WaitingCapacity(stock, percent).value;
      hide WaitingCapacity;
      assert waiting < c ==> 100 * waiting <= 100 * (c - 1);
      assert waiting >= c ==> 100 * waiting >= 100 * c;
    }
  }

  /** How a settled product takes a newcomer in. */
  lemma CreationOnProduct(s: Product, cfg: Config, now: Time, percent: int, user: Name, key: Name, id: Uuid,
                          taken: bool)
    requires ReservedOk(s) && Sequenced(s)
    ensures var free := Count(s.attempts, Reserving) < s.stock;
            var room := 100 * |WaitingBefore(s, |s.attempts|)| < s.stock * percent;
            var created := Queue.CreateAttempt(s, cfg, now, percent, user, key, id, taken);
            && (if s.nextSequence == MAX_INT64 then created == Err(QueueSequenceExhausted)
                else if !free && !CapacityFits(s.stock, percent) then created == Err(InvalidInput)
                else if !free && !room then created == Err(QueueFull)
                else if taken then created == Err(Conflict)
                else created.Ok?)
            && (created.Ok? ==>
                  && |created.value.attempts| == |s.attempts| + 1
                  && var row := created.value.attempts[|s.attempts|];
                     && IsNewRow(row, s, cfg, now, user, key, id, free)
                     && created.value == s.(attempts := s.attempts + [row], nextSequence := s.nextSequence + 1,
                                            reserved := s.reserved + (if free then 1 else 0)))
  {
    CountIsSize(s, |s.attempts|);
    assert s.attempts[..|s.attempts|] == s.attempts;
    RoomIsCapacity(s.stock, percent, Count(s.attempts, Queued));
    hide WaitingCapacity, CapacityFits, Count, WaitingBefore;
  }

  lemma AdmissionOnProduct(before: Product, p: Product, cfg: Config, now: Time, percent: int, user: Name, key: Name,
                           id: Uuid, taken: bool)
    requires ProductOk(before, now) && (p == before || p == Settlement(before, cfg, now))
    ensures var o := Queue.Admit(before, p, cfg, now, percent, user, key, id, taken);
            && NewcomerSpec(before, cfg, now, percent, user, key, id, taken, o.product, o.result)
            && (o.result == Err(QueueDisabled) ==> o.product == p)
  {
    hide ProductOk, Settlement, Reconcile, ReservedOk, Sequenced, CapacityFits, Count, WaitingBefore, Tells,
      IsNewRow, Queue.CreateAttempt, Queue.Answer;
    var s := Settlement(before, cfg, now);
    SettledAgain(before, p, cfg, now);
    CountersOf(s, now);
    InOrderOf(s, now);
    SequenceInRange(s);
    CreationOnProduct(s, cfg, now, percent, user, key, id, taken);
    SameNewRow(before, s, cfg, now, user, key, id);
    var created := Queue.CreateAttempt(s, cfg, now, percent, user, key, id, taken);
    if created.Ok? {
      NewRowHasNextSequence(created.value.attempts[|s.attempts|], s, cfg, now, user, key, id);
      NewRowTells(s, created.value);
    }
  }

  lemma SequenceInRange(p: Product)
    requires Sequenced(p)
    ensures 1 <= p.nextSequence <= MAX_INT64
  {
  }

  lemma SameNewRow(p: Product, s: Product, cfg: Config, now: Time, user: Name, key: Name, id: Uuid)
    requires s.id == p.id && s.nextSequence == p.nextSequence
    ensures forall a, checkout ::
              IsNewRow(a, s, cfg, now, user, key, id, checkout) <==> IsNewRow(a, p, cfg, now, user, key, id, checkout)
  {
  }

  lemma NewRowHasNextSequence(a: Attempt, s: Product, cfg: Config, now: Time, user: Name, key: Name, id: Uuid)
    ensures forall checkout :: IsNewRow(a, s, cfg, now, user, key, id, checkout) ==> a.sequence == s.nextSequence
  {
  }

  lemma NewRowTells(s: Product, q: Product)
    requires Sequenced(s) && |q.attempts| == |s.attempts| + 1 && q.attempts[..|s.attempts|] == s.attempts
    requires q.attempts[|s.attempts|].sequence == s.nextSequence
    ensures Tells(Queue.Answer(q, |s.attempts|, true), q, |s.attempts|, true)
  {
    var n := |s.attempts|;
    assert forall i :: 0 <= i < n ==> q.attempts[i] == q.attempts[..n][i];
    CountIsSize(q, n + 1);
    assert q.attempts[..n + 1] == q.attempts;
    if q.attempts[n].state.Waiting? {
      CountIsSize(q, n);
      CountPrefix(q.attempts, n, QueuedBefore(q.attempts[n].sequence));
      CountEqual(q.attempts[..n], QueuedBefore(q.attempts[n].sequence), Queued);
    }
  }

  lemma SettledAgain(before: Product, p: Product, cfg: Config, now: Time)
    requires ProductOk(before, now) && (p == before || p == Settlement(before, cfg, now))
    ensures var s := Settlement(before, cfg, now);
            && ProductOk(s, now) && Reconcile(p, cfg, now) == Ok(s)
            && p.stock == before.stock && p.enabled == before.enabled && s.stock == before.stock
            && s.enabled == before.enabled && s.nextSequence == before.nextSequence && s.id == before.id
  {
    CountersOf(before, now);
    hide ProductOk, Evolves, HasWork, Settlement, Iterate, ReservedOk;
    SettlementIsSound(before, cfg, now);
    ReconcileSettles(before, cfg, now);
  }

  /** The three ways of a join. */
  lemma JoinCases(p: Product, cfg: Config, now: Time, percent: int, user: Name, key: Name, id: Uuid, taken: bool)
    requires ProductOk(p, now)
    ensures var replay, active := First(p.attempts, ReplayOf(user, key)), First(p.attempts, ActiveOf(user));
            var o := Queue.Join(p, cfg, now, percent, user, key, id, taken);
            if replay < |p.attempts| then o == Queue.Outcome(p, Ok(Queue.Answer(p, replay, false)))
            else if active < |p.attempts| && InForceAt(p.attempts[active], now) then
              o == Queue.Outcome(p, Ok(Queue.Answer(p, active, false)))
            else
              o == Queue.Admit(p, if active < |p.attempts| then Settlement(p, cfg, now) else p, cfg, now, percent,
                               user, key, id, taken)
  {
    hide ProductOk, Settlement, Reconcile, Queue.Admit, Queue.Answer, IsEffectiveAt, InForceAt, HasPlace, First;
    SettledAgain(p, p, cfg, now);
    var active := First(p.attempts, ActiveOf(user));
    if active < |p.attempts| {
      EffectiveIsInForce(p.attempts[active], now);
      if !IsEffectiveAt(p.attempts[active], now) {
        FirstIs(p.attempts, ActiveOf(user));
        OverdueUserIsFree(p, cfg, now, user, active);
      }
    }
  }

  lemma FirstIs(s: seq<Attempt>, k: Kind)
    ensures First(s, k) < |s| ==> Is(s[First(s, k)], k)
  {
  }

  lemma JoinOnProduct(p: Product, cfg: Config, now: Time, percent: int, user: Name, key: Name, id: Uuid, taken: bool)
    requires ProductOk(p, now)
    ensures var o := Queue.Join(p, cfg, now, percent, user, key, id, taken);
            JoinSpec(p, cfg, now, percent, user, key, id, taken, o.product, o.result)
  {
    hide ProductOk, Settlement, Queue.Join, Queue.Admit, Queue.Answer, NewcomerSpec, Tells, First, HasPlace,
      KeyIsStored, HasActiveRow, InForceAt, Sequenced;
    InOrderOf(p, now);
    JoinCases(p, cfg, now, percent, user, key, id, taken);
    JoinLookups(p, now, user, key);
    var replay, active := First(p.attempts, ReplayOf(user, key)), First(p.attempts, ActiveOf(user));
    AdmissionOnProduct(p, p, cfg, now, percent, user, key, id, taken);
    AdmissionOnProduct(p, Settlement(p, cfg, now), cfg, now, percent, user, key, id, taken);
    if replay < |p.attempts| {
      AnswerTells(p, replay, false);
    } else if active < |p.attempts| {
      AnswerTells(p, active, false);
    }
  }

  /** What the two lookups of a join find. */
  lemma JoinLookups(p: Product, now: Time, user: Name, key: Name)
    requires ProductOk(p, now)
    ensures var replay, active := First(p.attempts, ReplayOf(user, key)), First(p.attempts, ActiveOf(user));
            && (replay < |p.attempts| <==> KeyIsStored(p, user, key))
            && (forall i :: 0 <= i < |p.attempts| && p.attempts[i].user == user && p.attempts[i].key == key ==>
                  i == replay)
            && (forall i :: 0 <= i < |p.attempts| && p.attempts[i].user == user && InForceAt(p.attempts[i], now) ==>
                  i == active)
            && (active == |p.attempts| ==> !HasPlace(p, now, user))
            && (active < |p.attempts| <==> HasActiveRow(p, user))
            && (active < |p.attempts| ==> Is(p.attempts[active], ActiveOf(user)))
            && (active < |p.attempts| && InForceAt(p.attempts[active], now) ==> HasPlace(p, now, user))
  {
    assert Identified(p) && OnlyNewestActive(p);
    hide ProductOk;
    var replay, active := First(p.attempts, ReplayOf(user, key)), First(p.attempts, ActiveOf(user));
    forall i | 0 <= i < |p.attempts| && p.attempts[i].user == user && p.attempts[i].key == key ensures i == replay {
      assert Is(p.attempts[i], ReplayOf(user, key));
    }
    forall i | 0 <= i < |p.attempts| && p.attempts[i].user == user && InForceAt(p.attempts[i], now)
      ensures i == active
    {
      assert Is(p.attempts[i], ActiveOf(user));
    }
    forall i | 0 <= i < |p.attempts| && p.attempts[i].user == user && IsActive(p.attempts[i].state)
      ensures active < |p.attempts|
    {
      assert Is(p.attempts[i], ActiveOf(user));
    }
  }

  // ---------------------------------------------------------------------------------------------
  // Stock adjustments
  // ---------------------------------------------------------------------------------------------

  /** A new adjustment: refused for what it would do to the stock, or applied, and then nothing is left due. */
  ghost predicate AdjustmentSpec(p: Product, cfg: Config, now: Time, key: Name, delta: int, digest: Text,
                                 q: Product, result: Result<Queue.AdjustmentResult>)
  {
    var after := p.stock + delta;
    && (result == Err(StockBelowZero) <==> after < 0)
    && (result == Err(StockOverflow) <==> after > MAX_INT32)
    && (result == Err(StockBelowReserved) <==> 0 <= after < Count(p.attempts, Reserving))
    && (result.Ok? <==> Count(p.attempts, Reserving) <= after <= MAX_INT32)
    && (result.Err? ==>
          q == p.(adjustments := p.adjustments + [Adjustment(key, delta, digest, 0, 0, Some(result.error))]))
    && (result.Ok? ==>
          && result.value == Queue.AdjustmentResult(p.stock, after, false)
          && q == Settlement(p.(stock := after), cfg, now).(adjustments :=
                    p.adjustments + [Adjustment(key, delta, digest, p.stock, after, None)])
          && !HasWork(q, now))
  }

  lemma AdjustmentOnProduct(p: Product, cfg: Config, now: Time, key: Name, delta: int, digest: Text)
    requires ProductOk(p, now) && delta != 0 && forall k :: 0 <= k < |p.adjustments| ==> p.adjustments[k].key != key
    ensures var o := Queue.AdjustStock(p, cfg, now, key, delta, digest);
            AdjustmentSpec(p, cfg, now, key, delta, digest, o.product, o.result)
  {
    hide ProductOk, Settlement, Reconcile, HasWork, Count;
    CountersOf(p, now);
    var r, row := p.(stock := p.stock + delta), Adjustment(key, delta, digest, p.stock, p.stock + delta, None);
    StockInRange(p, now);
    assert Queue.FindAdjustment(p.adjustments, key) == |p.adjustments|;
    hide Queue.FindAdjustment;
    if p.reserved <= p.stock + delta {
      assert ReservedOk(r);
      ReconcileIsSettlement(r, cfg, now);
      SettlementKeepsRecords(r, cfg, now);
      SameWork(Settlement(r, cfg, now), p.adjustments + [row], now);
    }
  }

  lemma StockInRange(p: Product, now: Time)
    requires ProductOk(p, now)
    ensures p.reserved == Count(p.attempts, Reserving) && 0 <= p.reserved <= p.stock <= MAX_INT32
  {
  }

  lemma SettlementKeepsRecords(p: Product, cfg: Config, now: Time)
    ensures Settlement(p, cfg, now).adjustments == p.adjustments && Settlement(p, cfg, now).stock == p.stock
  {
  }

  lemma SameWork(p: Product, rows: seq<Adjustment>, now: Time)
    ensures HasWork(p.(adjustments := rows), now) <==> HasWork(p, now)
  {
    var q := p.(adjustments := rows);
    assert WaitingCanMove(q) <==> WaitingCanMove(p);
  }

  // ---------------------------------------------------------------------------------------------
  // At every moment of every run
  // ---------------------------------------------------------------------------------------------

  lemma JoinOutcome(db: Db, cfg: Config, percent: int, x: Uuid, user: Name, key: Name, id: Uuid)
    requires Moment(db, cfg)
    ensures var r := Join(db, cfg, percent, x, user, key, id);
            if x !in db.products then r == Reply(db, Err(NotFound))
            else
              && x in r.db.products
              && r.db == db.(products := db.products[x := r.db.products[x]],
                             home := if r.result.Ok? && r.result.value.created then db.home[id := x] else db.home)
              && JoinSpec(db.products[x], cfg, db.clock, percent, user, key, id, id in db.home, r.db.products[x],
                          r.result)
  {
    hide Moment, DbOk, ProductOk, JoinSpec, Queue.Join;
    if x in db.products {
      MomentIsSound(db, cfg);
      StoredProductOk(db, x);
      JoinOnProduct(db.products[x], cfg, db.clock, percent, user, key, id, id in db.home);
    }
  }

  lemma CheckoutOutcome(db: Db, cfg: Config, id: Uuid, user: Name)
    requires Moment(db, cfg)
    ensures var r := StartCheckout(db, cfg, id, user);
            if id !in db.home then r == Reply(db, Err(AttemptNotFound))
            else
              var x := db.home[id];
              && x in db.products && x in r.db.products && r.db == db.(products := db.products[x := r.db.products[x]])
              && CheckoutSpec(db.products[x], cfg, db.clock, id, user, r.db.products[x], r.result)
  {
    hide Moment, DbOk, ProductOk, CheckoutSpec, Queue.StartCheckout;
    if id in db.home {
      MomentIsSound(db, cfg);
      HomeHas(db, id);
      StoredProductOk(db, db.home[id]);
      CheckoutOnProduct(db.products[db.home[id]], cfg, db.clock, id, user);
    }
  }

  lemma CancelOutcome(db: Db, cfg: Config, x: Uuid, user: Name)
    requires Moment(db, cfg)
    ensures var r := Cancel(db, cfg, x, user);
            if x !in db.products then r == Reply(db, Err(NotFound))
            else
              && x in r.db.products && r.db == db.(products := db.products[x := r.db.products[x]])
              && CancelSpec(db.products[x], cfg, db.clock, user, r.db.products[x], r.result)
  {
    hide Moment, DbOk, ProductOk, CancelSpec, Queue.Cancel;
    if x in db.products {
      MomentIsSound(db, cfg);
      StoredProductOk(db, x);
      CancelOnProduct(db.products[x], cfg, db.clock, user);
    }
  }

  lemma StatusOutcome(db: Db, cfg: Config, x: Uuid, user: Name)
    requires Moment(db, cfg)
    ensures var r := FindCurrent(db, cfg, x, user);
            if x !in db.products then r == Reply(db, Err(NotFound))
            else
              && x in r.db.products && r.db == db.(products := db.products[x := r.db.products[x]])
              && StatusSpec(db.products[x], cfg, db.clock, user, r.db.products[x], r.result)
  {
    hide Moment, DbOk, ProductOk, StatusSpec, Queue.FindCurrent;
    if x in db.products {
      MomentIsSound(db, cfg);
      StoredProductOk(db, x);
      StatusOnProduct(db.products[x], cfg, db.clock, user);
    }
  }

  lemma AdjustmentOutcome(db: Db, cfg: Config, c: AdjustmentCommand)
    requires Moment(db, cfg)
    requires c.product in db.products ==> forall k :: 0 <= k < |db.products[c.product].adjustments| ==>
               db.products[c.product].adjustments[k].key != c.key
    ensures var r := AdjustStock(db, cfg, c);
            if c.delta == 0 then r == Reply(db, Err(InvalidInput))
            else if c.product !in db.products then r == Reply(db, Err(NotFound))
            else
              && c.product in r.db.products
              && r.db == db.(products := db.products[c.product := r.db.products[c.product]])
              && AdjustmentSpec(db.products[c.product], cfg, db.clock, c.key, c.delta, AdjustmentDigest(c),
                                r.db.products[c.product], r.result)
  {
    hide Moment, DbOk, ProductOk, AdjustmentSpec, Queue.AdjustStock, AdjustmentDigest;
    if c.delta != 0 && c.product in db.products {
      MomentIsSound(db, cfg);
      StoredProductOk(db, c.product);
      AdjustmentOnProduct(db.products[c.product], cfg, db.clock, c.key, c.delta, AdjustmentDigest(c));
    }
  }
}
