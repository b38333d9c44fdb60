/** The transaction on one locked product, as the source runs it: loops over the loaded attempts that
    update the attempts, the table rows behind them and the counters in place. Every method is proved
    against the function of Queue.dfy or Reconciliation.dfy on the whole table. */
module TransactionState {
  import opened Wrappers
  import opened Domain
  import opened Reconciliation
  import opened Loading
  import Queue

  /** The loaded attempt `i` is the first overdue one, so it is what the next step changes. */
  lemma OverdueComesNext(p: Product, attempts: seq<Attempt>, slots: seq<nat>, i: nat, cfg: Config, now: Time)
    requires Picked(p.attempts, attempts, slots) && Loaded(p.attempts, slots, Active)
    requires i < |attempts| && Is(attempts[i], Overdue(now))
    requires forall j :: 0 <= j < i ==> !Is(attempts[j], Overdue(now))
    ensures HasWork(p, now) && Step(p, cfg, now) == ExpireRow(p, slots[i], now)
  {
    KindLoaded(p.attempts, slots, Overdue(now));
    PickedFirst(p.attempts, attempts, slots, Overdue(now));
    assert First(attempts, Overdue(now)) == i;
    WorkHasNextRow(p, now);
  }

  /** With nothing overdue, the first loaded waiting attempt is next whenever waiting attempts can move. */
  lemma WaitingComesNext(p: Product, attempts: seq<Attempt>, slots: seq<nat>, i: nat, cfg: Config, now: Time)
    requires Picked(p.attempts, attempts, slots) && Loaded(p.attempts, slots, Active) && WaitingCanMove(p)
    requires i < |attempts| && attempts[i].state.Waiting?
    requires forall j :: 0 <= j < |attempts| ==> !Is(attempts[j], Overdue(now))
    requires forall j :: 0 <= j < i ==> !attempts[j].state.Waiting?
    ensures HasWork(p, now)
    ensures Step(p, cfg, now) == if p.stock == 0 then SellOutRow(p, slots[i], now)
        else PromoteRow(p, slots[i], cfg, now)
  {
    KindLoaded(p.attempts, slots, Overdue(now));
    KindLoaded(p.attempts, slots, Queued);
    PickedFirst(p.attempts, attempts, slots, Overdue(now));
    PickedFirst(p.attempts, attempts, slots, Queued);
    forall j | 0 <= j < i ensures !Is(attempts[j], Queued) {}
    assert First(attempts, Queued) == i;
    WorkHasNextRow(p, now);
  }

  lemma KindLoaded(table: seq<Attempt>, slots: seq<nat>, k: Kind)
    requires Loaded(table, slots, Active)
    requires k.Overdue? || k.Queued? || k.QueuedBefore? || k.Reserving? || k.ActiveOf?
    ensures Loaded(table, slots, k)
  {
    forall i | 0 <= i < |table| && Is(table[i], k) ensures i in slots {
      assert Is(table[i], Active);
    }
  }

  lemma NoStepYet(p: Product, cfg: Config, now: Time)
    requires ReservedOk(p)
    ensures Iterate(p, cfg, now, 0) == p && 0 <= Work(p, now)
  {
    WorkIsSomething(p, now);
  }

  /** One more step after `n` steps that all found work. */
  lemma OneMoreStep(p: Product, cfg: Config, now: Time, n: nat)
    requires ReservedOk(p) && HasWork(Iterate(p, cfg, now, n), now)
    ensures n < Work(p, now)
    ensures ReservedOk(Iterate(p, cfg, now, n))
    ensures Iterate(p, cfg, now, n + 1) == Step(Iterate(p, cfg, now, n), cfg, now)
    ensures ReservedOk(Iterate(p, cfg, now, n + 1))
  {
    IterateWork(p, cfg, now, n);
    WorkIsSomething(Iterate(p, cfg, now, n), now);
    WorkIsSomething(p, now);
    IterateCompose(p, cfg, now, n, 1);
    StepDoesOneUnit(Iterate(p, cfg, now, n), cfg, now);
  }

  /** Expiring the first overdue loaded attempt carries a run of `n` steps to `n + 1` steps. */
  lemma ExpiryContinuesRun(start: Product, n: nat, p: Product, attempts: seq<Attempt>, slots: seq<nat>, i: nat,
      cfg: Config, now: Time)
    requires ReservedOk(start) && p == Iterate(start, cfg, now, n)
    requires Picked(p.attempts, attempts, slots) && Loaded(p.attempts, slots, Active)
    requires i < |attempts| && Is(attempts[i], Overdue(now))
    requires forall j :: 0 <= j < i ==> !Is(attempts[j], Overdue(now))
    ensures n < Work(start, now)
    ensures Iterate(start, cfg, now, n + 1) == ExpireRow(p, slots[i], now) && ReservedOk(ExpireRow(p, slots[i], now))
  {
    hide ReservedOk, Work;
    OverdueComesNext(p, attempts, slots, i, cfg, now);
    OneMoreStep(start, cfg, now, n);
  }

  lemma WaitingContinuesRun(start: Product, n: nat, p: Product, attempts: seq<Attempt>, slots: seq<nat>, i: nat,
      cfg: Config, now: Time)
    requires ReservedOk(start) && p == Iterate(start, cfg, now, n)
    requires Picked(p.attempts, attempts, slots) && Loaded(p.attempts, slots, Active) && WaitingCanMove(p)
    requires i < |attempts| && attempts[i].state.Waiting?
    requires forall j :: 0 <= j < |attempts| ==> !Is(attempts[j], Overdue(now))
    requires forall j :: 0 <= j < i ==> !attempts[j].state.Waiting?
    ensures n < Work(start, now)
    ensures var q := if p.stock == 0 then SellOutRow(p, slots[i], now) else PromoteRow(p, slots[i], cfg, now);
            Iterate(start, cfg, now, n + 1) == q && ReservedOk(q)
  {
    hide ReservedOk, Work;
    WaitingComesNext(p, attempts, slots, i, cfg, now);
    OneMoreStep(start, cfg, now, n);
  }

  /** A run of steps that stopped at the limit, or for want of work, is the bounded reconciliation. */
  lemma StoppedRun(p: Product, cfg: Config, now: Time, n: nat, limit: nat)
    requires ReservedOk(p) && n <= limit && n <= Work(p, now)
    requires n == limit || !HasWork(Iterate(p, cfg, now, n), now)
    ensures Iterate(p, cfg, now, n) == Iterate(p, cfg, now, limit)
    ensures n == Min(limit, Work(p, now))
  {
    if n < limit {
      IterateWork(p, cfg, now, n);
      WorkIsSomething(Iterate(p, cfg, now, n), now);
      IterateEnough(p, cfg, now, limit);
      IterateEnough(p, cfg, now, n);
    }
  }

  /** Rows that keep their owners keep every owner's newest row. */
  lemma LastStays(table: seq<Attempt>, later: seq<Attempt>, user: Name)
    requires |later| == |table| && forall i :: 0 <= i < |table| ==> later[i].user == table[i].user
    ensures Last(later, OwnedBy(user)) == Last(table, OwnedBy(user))
  {
    var i, j := Last(table, OwnedBy(user)), Last(later, OwnedBy(user));
    if i < |table| {
      assert Is(later[i], OwnedBy(user));
    }
    if j < |later| {
      assert Is(table[j], OwnedBy(user));
    }
  }

  /** Appending a row to the table and to the loaded attempts. */
  lemma AppendedStaysLoaded(table: seq<Attempt>, attempts: seq<Attempt>, slots: seq<nat>, a: Attempt)
    requires Picked(table, attempts, slots) && Loaded(table, slots, Active)
    ensures Picked(table + [a], attempts + [a], slots + [|table|]) && Loaded(table + [a], slots + [|table|], Active)
  {
  }

  /** Rows keep their owner, and rows that are not loaded are as they were. */
  ghost predicate OthersStay(before: seq<Attempt>, after: seq<Attempt>, slots: seq<nat>) {
    && |after| == |before|
    && (forall i :: 0 <= i < |after| ==> after[i].user == before[i].user)
    && (forall i :: 0 <= i < |after| && i !in slots ==> after[i] == before[i])
  }

  lemma OthersStayOn(a: seq<Attempt>, b: seq<Attempt>, c: seq<Attempt>, slots: seq<nat>)
    requires OthersStay(a, b, slots) && OthersStay(b, c, slots)
    ensures OthersStay(a, c, slots)
  {
  }

  class Transaction {
    const cfg: Config
    const now: Time
    const product: Uuid
    const enabled: bool
    var stock: int
    var reserved: int
    var nextSequence: int
    /** The rows of queue_attempts for this product, as this transaction sees them. */
    var table: seq<Attempt>
    var invitations: seq<Invitation>
    var adjustments: seq<Adjustment>
    /** The loaded attempts, and the table row each of them came from. */
    var attempts: seq<Attempt>
    var slots: seq<nat>

    function Book(): Product
      reads this
    {
      Product(product, stock, reserved, nextSequence, enabled, table, invitations, adjustments)
    }

    ghost predicate Valid()
      reads this
    {
      Picked(table, attempts, slots) && Loaded(table, slots, Active)
    }

    twostate predicate OtherRowsUntouched()
      reads this
    {
      slots == old(slots) && OthersStay(old(table), table, slots)
    }

    /** Locks the product, reads the clock and loads the attempts in scope. */
    constructor (p: Product, cfg: Config, now: Time, scope: Scope)
      ensures Valid() && Book() == p && this.cfg == cfg && this.now == now
      ensures forall i :: 0 <= i < |table| && Selected(table, scope, i) ==> i in slots
    {
      this.cfg, this.now, product, enabled := cfg, now, p.id, p.enabled;
      stock, reserved, nextSequence := p.stock, p.reserved, p.nextSequence;
      table, invitations, adjustments := p.attempts, p.invitations, p.adjustments;
      attempts, slots := [], [];
      new;
      for i := 0 to |table|
        invariant Book() == p
        invariant Picked(table, attempts, slots)
        invariant forall j :: 0 <= j < |slots| ==> slots[j] < i
        invariant forall k :: 0 <= k < i && Selected(table, scope, k) ==> k in slots
      {
        if Selected(table, scope, i) {
          attempts := attempts + [table[i]];
          slots := slots + [i];
        }
      }
    }

    /** The UPDATE of one loaded row together with the update of its copy in memory. */
    method SetAttempt(index: nat, b: Attempt)
      requires Valid() && index < |attempts|
      requires IsActive(b.state) ==> IsActive(attempts[index].state)
      modifies this`table, this`attempts
      ensures Valid() && attempts == old(attempts[index := b])
      ensures table == old(table[slots[index] := b])
    {
      PickedUpdate(table, attempts, slots, index, b);
      table := table[slots[index] := b];
      attempts := attempts[index := b];
    }

    method PromoteWaitingAttempt(index: nat)
      requires Valid() && index < |attempts| && attempts[index].state.Waiting?
      modifies this`table, this`attempts, this`invitations
      ensures Valid() && attempts == old(attempts[index := Promote(attempts[index], now, cfg)])
      ensures table == old(table[slots[index] := Promote(attempts[index], now, cfg)])
      ensures invitations == old(invitations) + [InvitationFor(old(attempts[index]), cfg, now)]
    {
      var attempt := attempts[index];
      SetAttempt(index, Promote(attempt, now, cfg));
      invitations := invitations + [Invitation(attempt.id, attempt.version + 1, now + cfg.invitationTTL, now)];
    }

    // -------------------------------------------------------------------------------------------
    // Counting and looking up loaded attempts
    // -------------------------------------------------------------------------------------------

    method CountLoaded(k: Kind) returns (count: nat)
      requires Valid() && Loaded(table, slots, k)
      ensures count == Count(table, k)
    {
      count := 0;
      for index := 0 to |attempts|
        invariant count == Count(attempts[..index], k)
      {
        CountPrefix(attempts, index, k);
        if Is(attempts[index], k) {
          count := count + 1;
        }
      }
      assert attempts[..|attempts|] == attempts;
      PickedCount(table, attempts, slots, k);
    }

    /** findReplay, findActiveAttempt and findAttemptByID: the first loaded attempt of a kind. */
    method FindFirst(k: Kind) returns (index: nat)
      requires Valid() && Loaded(table, slots, k)
      ensures index <= |attempts|
      ensures index == |attempts| <==> First(table, k) == |table|
      ensures index < |attempts| ==> slots[index] == First(table, k) && attempts[index] == table[First(table, k)]
    {
      PickedFirst(table, attempts, slots, k);
      index := 0;
      while index < |attempts| && !Is(attempts[index], k)
        invariant index <= |attempts| && forall j :: 0 <= j < index ==> !Is(attempts[j], k)
      {
        index := index + 1;
      }
      assert index == First(attempts, k);
    }

    /** latestAttemptForUser: scans the loaded attempts from the end. */
    method FindLatest(user: Name) returns (index: nat)
      requires Valid()
      requires Last(table, OwnedBy(user)) < |table| ==> Last(table, OwnedBy(user)) in slots
      ensures index <= |attempts|
      ensures index == |attempts| <==> Last(table, OwnedBy(user)) == |table|
      ensures index < |attempts| ==>
                slots[index] == Last(table, OwnedBy(user)) && attempts[index] == table[Last(table, OwnedBy(user))]
    {
      PickedLast(table, attempts, slots, OwnedBy(user));
      var rest := |attempts|;
      while rest > 0 && attempts[rest - 1].user != user
        invariant 0 <= rest <= |attempts| && forall j :: rest <= j < |attempts| ==> !Is(attempts[j], OwnedBy(user))
      {
        rest := rest - 1;
      }
      index := if rest > 0 then rest - 1 else |attempts|;
    }

    method AnswerFor(index: nat, created: bool) returns (answer: Queue.JoinResult)
      requires Valid() && index < |attempts|
      ensures answer == Queue.Answer(Book(), slots[index], created)
    {
      var ahead := 0;
      KindLoaded(table, slots, Queued);
      if attempts[index].state.Waiting? {
        KindLoaded(table, slots, QueuedBefore(attempts[index].sequence));
        ahead := CountLoaded(QueuedBefore(attempts[index].sequence));
      }
      var waiting := CountLoaded(Queued);
      answer := Queue.JoinResult(attempts[index], ahead, waiting, created);
    }

    // -------------------------------------------------------------------------------------------
    // Reconciliation
    // -------------------------------------------------------------------------------------------

    /** The book is what `n` single steps make of `start`, within the limit and the work there is. */
    ghost predicate OnCourse(start: Product, n: nat, limit: nat)
      reads this
    {
      && Valid() && ReservedOk(start) && n <= limit && n <= Work(start, now)
      && Book() == Iterate(start, cfg, now, n) && ReservedOk(Book())
    }

    ghost predicate NothingOverdue()
      reads this
    {
      forall j :: 0 <= j < |attempts| ==> !Is(attempts[j], Overdue(now))
    }

    /** Ends the overdue right of one attempt and releases its reservation. */
    method ExpireAttempt(index: nat, ghost start: Product, ghost n: nat, ghost limit: nat)
      requires OnCourse(start, n, limit) && n < limit
      requires index < |attempts| && Is(attempts[index], Overdue(now))
      requires forall j :: 0 <= j < index ==> !Is(attempts[j], Overdue(now))
      modifies this`table, this`attempts, this`reserved
      ensures OnCourse(start, n + 1, limit) && OtherRowsUntouched()
      ensures attempts == old(attempts[index := Expire(attempts[index], now)]) && !Is(attempts[index], Overdue(now))
    {
      hide Iterate, Work, ReservedOk;
      ExpiryContinuesRun(start, n, Book(), attempts, slots, index, cfg, now);
      SetAttempt(index, Expire(attempts[index], now));
      reserved := reserved - 1;
    }

    /** Ends one waiting attempt of a product without stock. */
    method SellOutAttempt(index: nat, ghost start: Product, ghost n: nat, ghost limit: nat)
      requires OnCourse(start, n, limit) && n < limit && stock == 0 && NothingOverdue()
      requires index < |attempts| && attempts[index].state.Waiting?
      requires forall j :: 0 <= j < index ==> !attempts[j].state.Waiting?
      modifies this`table, this`attempts
      ensures OnCourse(start, n + 1, limit) && OtherRowsUntouched() && NothingOverdue()
      ensures attempts == old(attempts[index := Finish(attempts[index], SoldOut, now)])
    {
      hide Iterate, Work, ReservedOk;
      WaitingContinuesRun(start, n, Book(), attempts, slots, index, cfg, now);
      SetAttempt(index, Finish(attempts[index], SoldOut, now));
    }

    /** Invites one waiting attempt and reserves a unit for it. */
    method InviteAttempt(index: nat, ghost start: Product, ghost n: nat, ghost limit: nat)
      requires OnCourse(start, n, limit) && n < limit && stock != 0 && reserved < stock && NothingOverdue()
      requires index < |attempts| && attempts[index].state.Waiting?
      requires forall j :: 0 <= j < index ==> !attempts[j].state.Waiting?
      modifies this`table, this`attempts, this`reserved, this`invitations
      ensures OnCourse(start, n + 1, limit) && OtherRowsUntouched() && NothingOverdue()
      ensures attempts == old(attempts[index := Promote(attempts[index], now, cfg)]) && reserved == old(reserved) + 1
    {
      hide Iterate, Work, ReservedOk;
      WaitingContinuesRun(start, n, Book(), attempts, slots, index, cfg, now);
      ghost var p := Book();
      PromoteWaitingAttempt(index);
      reserved := reserved + 1;
      assert Book() == PromoteRow(p, slots[index], cfg, now);
    }

    lemma NothingElseYet()
      ensures OthersStay(table, table, slots)
    {
    }

    /** First loop: takes back overdue rights, in queue order, within the limit. */
    method ExpireOverdue(limit: nat, ghost start: Product) returns (transitions: nat)
      requires Valid() && Book() == start && ReservedOk(start)
      modifies this`table, this`attempts, this`reserved
      ensures OnCourse(start, transitions, limit) && OtherRowsUntouched()
      ensures transitions == limit || NothingOverdue()
    {
      hide OnCourse, Is, Expire, OthersStay, Iterate, Work, ReservedOk, Picked, Loaded;
      NothingElseYet();
      transitions := 0;
      AtTheStart(start, limit);
      for index := 0 to |attempts|
        invariant OnCourse(start, transitions, limit) && transitions <= limit && OtherRowsUntouched()
        invariant |attempts| == |old(attempts)|
        invariant forall j :: 0 <= j < index ==> !Is(attempts[j], Overdue(now))
      {
        if transitions == limit {
          break;
        }
        if Is(attempts[index], Overdue(now)) {
          ghost var before := table;
          ExpireAttempt(index, start, transitions, limit);
          OthersStayOn(old(table), before, table, slots);
          transitions := transitions + 1;
        }
      }
    }

    lemma AtTheStart(start: Product, limit: nat)
      requires Valid() && Book() == start && ReservedOk(start)
      ensures OnCourse(start, 0, limit)
    {
      NoStepYet(start, cfg, now);
    }

    /** Second loop: ends every waiting attempt when the stock is gone. */
    method SellOutWaiting(limit: nat, done: nat, ghost start: Product) returns (transitions: nat)
      requires OnCourse(start, done, limit) && done <= limit && stock == 0
      requires done == limit || NothingOverdue()
      modifies this`table, this`attempts
      ensures OnCourse(start, transitions, limit) && OtherRowsUntouched()
      ensures transitions == limit || (NothingOverdue() && forall j :: 0 <= j < |attempts| ==>
          !attempts[j].state.Waiting?)
    {
      hide OnCourse, NothingOverdue, OthersStay;
      NothingElseYet();
      transitions := done;
      for index := 0 to |attempts|
        invariant OnCourse(start, transitions, limit) && transitions <= limit && OtherRowsUntouched()
        invariant |attempts| == |old(attempts)|
        invariant transitions == limit
            || (NothingOverdue() && forall j :: 0 <= j < index ==> !attempts[j].state.Waiting?)
      {
        if transitions == limit {
          break;
        }
        if attempts[index].state.Waiting? {
          ghost var before := table;
          SellOutAttempt(index, start, transitions, limit);
          OthersStayOn(old(table), before, table, slots);
          transitions := transitions + 1;
        }
      }
    }

    /** Third loop: invites waiting attempts in queue order while units are free. */
    method PromoteWaiting(limit: nat, done: nat, ghost start: Product) returns (transitions: nat)
      requires OnCourse(start, done, limit) && done <= limit && stock != 0 && reserved <= stock
      requires done == limit || NothingOverdue()
      modifies this`table, this`attempts, this`reserved, this`invitations
      ensures OnCourse(start, transitions, limit) && OtherRowsUntouched()
      ensures transitions == limit || (NothingOverdue() && forall j :: 0 <= j < |attempts| ==>
                (reserved < stock ==> !attempts[j].state.Waiting?))
    {
      hide OnCourse, NothingOverdue, OthersStay;
      NothingElseYet();
      transitions := done;
      var available := stock - reserved;
      for index := 0 to |attempts|
        invariant OnCourse(start, transitions, limit) && transitions <= limit && OtherRowsUntouched()
        invariant |attempts| == |old(attempts)| && available == stock - reserved >= 0
        invariant transitions == limit
            || (NothingOverdue() && forall j :: 0 <= j < index ==> !attempts[j].state.Waiting?)
      {
        if available == 0 || transitions == limit {
          break;
        }
        if attempts[index].state.Waiting? {
          ghost var before := table;
          InviteAttempt(index, start, transitions, limit);
          OthersStayOn(old(table), before, table, slots);
          available := available - 1;
          transitions := transitions + 1;
        }
      }
    }

    method HasReconciliationWork() returns (found: bool)
      requires Valid()
      ensures found <==> HasWork(Book(), now)
    {
      var available := stock - reserved;
      found := false;
      for index := 0 to |attempts|
        invariant !found
        invariant forall j :: 0 <= j < index ==>
                    !Is(attempts[j], Overdue(now)) && (WaitingCanMove(Book()) ==> !attempts[j].state.Waiting?)
      {
        if Is(attempts[index], Overdue(now)) || (attempts[index].state.Waiting? && (stock == 0 || available > 0)) {
          assert table[slots[index]] == attempts[index];
          return true;
        }
      }
      NothingLoadedMoves();
    }

    lemma NothingLoadedMoves()
      requires Valid()
      requires forall j :: 0 <= j < |attempts| ==>
                 !Is(attempts[j], Overdue(now)) && (WaitingCanMove(Book()) ==> !attempts[j].state.Waiting?)
      ensures !HasWork(Book(), now)
    {
      forall i | 0 <= i < |table| && IsActive(table[i].state)
        ensures !Is(table[i], Overdue(now)) && (WaitingCanMove(Book()) ==> !table[i].state.Waiting?)
      {
        assert Is(table[i], Active);
        var j :| 0 <= j < |slots| && slots[j] == i;
        assert attempts[j] == table[i];
      }
    }

    /** The bounded reconciliation of the source, loop by loop, is `limit` single steps on the whole table. */
    method ReconcileBounded(limit: nat) returns (result: Result<Queue.Progress>)
      requires Valid()
      modifies this`table, this`attempts, this`reserved, this`invitations
      ensures Valid() && OtherRowsUntouched()
      ensures Queue.Outcome(Book(), result) == Queue.ReconcileBatch(old(Book()), cfg, now, limit)
    {
      hide OthersStay;
      NothingElseYet();
      ghost var start := Book();
      KindLoaded(table, slots, Reserving);
      var reservedCount := CountLoaded(Reserving);
      if reservedCount != reserved || reserved < 0 || reserved > stock {
        return Err(ReservedInvariant);
      }
      var transitions := ExpireOverdue(limit, start);
      assert 0 <= reserved <= stock && transitions <= limit;
      ghost var unexpired := table;
      if stock == 0 {
        transitions := SellOutWaiting(limit, transitions, start);
      } else {
        transitions := PromoteWaiting(limit, transitions, start);
      }
      OthersStayOn(old(table), unexpired, table, slots);
      var moreWork := HasReconciliationWork();
      if transitions != limit {
        NothingLoadedMoves();
      }
      StoppedRun(start, cfg, now, transitions, limit);
      result := Ok(Queue.Progress(transitions, moreWork));
    }

    /** Reconciliation without a limit: loaded attempts bound the transitions. */
    method ReconcileProduct() returns (failure: Option<Error>)
      requires Valid()
      modifies this`table, this`attempts, this`reserved, this`invitations
      ensures Valid() && OtherRowsUntouched()
      ensures failure.None? || failure == Some(ReservedInvariant)
      ensures failure.None? ==> Reconcile(old(Book()), cfg, now) == Ok(Book())
      ensures failure.Some? ==> Reconcile(old(Book()), cfg, now) == Err(failure.value)
    {
      ghost var start := Book();
      if ReservedOk(start) {
        LoadedLimitIsEnough();
      }
      var progress := ReconcileBounded(2 * |attempts| + 1);
      failure := if progress.Ok? then None else Some(progress.error);
    }

    /** Twice the number of loaded attempts is as good a limit as twice the number of all attempts. */
    lemma LoadedLimitIsEnough()
      requires Valid() && ReservedOk(Book())
      ensures Iterate(Book(), cfg, now, 2 * |attempts| + 1) == Iterate(Book(), cfg, now, Unbounded(Book()))
    {
      KindLoaded(table, slots, Overdue(now));
      KindLoaded(table, slots, Queued);
      PickedCount(table, attempts, slots, Overdue(now));
      PickedCount(table, attempts, slots, Queued);
      OverdueOrQueued(attempts, now);
      WorkIsSomething(Book(), now);
      IterateEnough(Book(), cfg, now, 2 * |attempts| + 1);
      IterateEnough(Book(), cfg, now, Unbounded(Book()));
    }

    // -------------------------------------------------------------------------------------------
    // Requests
    // -------------------------------------------------------------------------------------------

    /** Inserts a new attempt, or leaves everything as it was. `taken`: the primary key refuses the id. */
    method CreateAttempt(percent: int, user: Name, key: Name, id: Uuid, taken: bool) returns (result: Result<nat>)
      requires Valid()
      modifies this`table, this`attempts, this`slots, this`reserved, this`nextSequence
      ensures Valid()
      ensures result.Ok? ==>
                && Queue.CreateAttempt(old(Book()), cfg, now, percent, user, key, id, taken) == Ok(Book())
                && result.value < |attempts| && slots[result.value] == |old(table)|
      ensures result.Err? ==>
                && Queue.CreateAttempt(old(Book()), cfg, now, percent, user, key, id, taken) == Err(result.error)
                && Book() == old(Book())
    {
      var next := NextQueueSequence(nextSequence);
      if next.Err? {
        return Err(next.error);
      }
      var attempt;
      if reserved < stock {
        attempt := NewCheckout(id, product, nextSequence, user, key, now, cfg);
      } else {
        KindLoaded(table, slots, Queued);
        var waiting := CountLoaded(Queued);
        var capacity := WaitingCapacity(stock, percent);
        if capacity.Err? {
          return Err(capacity.error);
        }
        if waiting >= capacity.value {
          return Err(QueueFull);
        }
        attempt := NewWaiting(id, product, nextSequence, user, key, now);
      }
      if taken {
        return Err(Conflict);
      }
      if reserved < stock {
        reserved := reserved + 1;
      }
      nextSequence := next.value;
      slots := slots + [|table|];
      table := table + [attempt];
      attempts := attempts + [attempt];
      AppendedStaysLoaded(old(table), old(attempts), old(slots), attempt);
      result := Ok(|attempts| - 1);
    }

    /** The part of Join behind the lookups. */
    method Admit(ghost before: Product, percent: int, user: Name, key: Name, id: Uuid, taken: bool)
      returns (committed: bool, result: Result<Queue.JoinResult>)
      requires Valid()
      modifies this
      ensures Queue.Admit(before, old(Book()), cfg, now, percent, user, key, id, taken)
           == Queue.Outcome(if committed then Book() else before, result)
    {
      hide Iterate, ReservedOk, Queue.CreateAttempt, Queue.Answer, Picked, Loaded;
      if !enabled {
        return true, Err(QueueDisabled);
      }
      var soldOut := stock == 0;
      var failure := ReconcileProduct();
      if failure.Some? {
        return false, Err(failure.value);
      }
      if soldOut {
        return true, Err(OutOfStock);
      }
      label settled:
      var created := CreateAttempt(percent, user, key, id, taken);
      if created.Err? {
        return created.error == QueueFull, Err(created.error);
      }
      var answer := AnswerFor(created.value, true);
      return true, Ok(answer);
    }

    method Join(percent: int, user: Name, key: Name, id: Uuid, taken: bool)
      returns (committed: bool, result: Result<Queue.JoinResult>)
      requires Valid() && Loaded(table, slots, ReplayOf(user, key))
      modifies this
      ensures Queue.Join(old(Book()), cfg, now, percent, user, key, id, taken)
           == Queue.Outcome(if committed then Book() else old(Book()), result)
    {
      hide Iterate, ReservedOk, Queue.Admit, Queue.Answer, Picked, Is, IsEffectiveAt;
      ghost var before := Book();
      var replay := FindFirst(ReplayOf(user, key));
      if replay < |attempts| {
        var answer := AnswerFor(replay, false);
        return true, Ok(answer);
      }
      KindLoaded(table, slots, ActiveOf(user));
      var active := FindFirst(ActiveOf(user));
      if active < |attempts| && IsEffectiveAt(attempts[active], now) {
        var answer := AnswerFor(active, false);
        return true, Ok(answer);
      }
      if active < |attempts| {
        var failure := ReconcileProduct();
        if failure.Some? {
          return false, Err(failure.value);
        }
        KindLoaded(table, slots, ActiveOf(user));
        var effective := FindFirst(ActiveOf(user));
        if effective < |attempts| {
          var answer := AnswerFor(effective, false);
          return true, Ok(answer);
        }
      }
      committed, result := Admit(before, percent, user, key, id, taken);
    }

    method StartCheckout(id: Uuid, user: Name) returns (committed: bool, result: Result<Attempt>)
      requires Valid() && Loaded(table, slots, WithId(id))
      modifies this
      ensures Queue.StartCheckout(old(Book()), cfg, now, id, user)
           == Queue.Outcome(if committed then Book() else old(Book()), result)
    {
      hide Iterate, ReservedOk, Picked, Is;
      var failure := ReconcileProduct();
      if failure.Some? {
        return false, Err(failure.value);
      }
      StillLoaded(old(table), table, slots, WithId(id));
      var index := FindFirst(WithId(id));
      if index == |attempts| || attempts[index].user != user {
        return true, Err(AttemptNotFound);
      }
      var attempt := attempts[index];
      match attempt.state {
        case Checkout =>
          result := Ok(attempt);
        case Invited =>
          SetAttempt(index, EnterCheckout(attempt, now, cfg));
          result := Ok(attempts[index]);
        case InviteExpired => result := Err(AttemptGone);
        case CheckoutExpired => result := Err(AttemptGone);
        case SoldOut => result := Err(AttemptGone);
        case _ => result := Err(InvalidTransition);
      }
      committed := true;
    }

    /** transitionToCancelled: ends the attempt and gives back its reservation, if it held one. */
    method TransitionToCancelled(index: nat)
      requires Valid() && index < |attempts| && IsActive(attempts[index].state)
      modifies this`table, this`attempts, this`reserved
      ensures Valid() && slots == old(slots) && |attempts| == |old(attempts)|
      ensures Book() == Queue.CancelRow(old(Book()), slots[index], now)
      ensures attempts[index] == Finish(old(attempts[index]), Cancelled, now)
    {
      var attempt := attempts[index];
      SetAttempt(index, Finish(attempt, Cancelled, now));
      if Reserves(attempt.state) {
        reserved := reserved - 1;
      }
    }

    /** The purchase of an attempt in checkout: attempt, stock and reservation change together. */
    method AcceptPurchase(index: nat, ref: PaymentRef)
      requires Valid() && index < |attempts|
      modifies this`table, this`attempts, this`stock, this`reserved
      ensures Valid() && slots == old(slots)
      ensures Book() == Queue.BuyRow(old(Book()), slots[index], ref, now)
    {
      SetAttempt(index, Purchase(attempts[index], ref, now));
      stock := stock - 1;
      reserved := reserved - 1;
    }

    /** The failed payment of an attempt in checkout. */
    method FailPayment(index: nat)
      requires Valid() && index < |attempts|
      modifies this`table, this`attempts, this`reserved
      ensures Valid() && slots == old(slots)
      ensures Book() == Queue.FailRow(old(Book()), slots[index], now)
    {
      SetAttempt(index, Finish(attempts[index], PaymentFailed, now));
      reserved := reserved - 1;
    }

    method Cancel(user: Name) returns (committed: bool, result: Result<Attempt>)
      requires Valid()
      requires Last(table, OwnedBy(user)) < |table| ==> Last(table, OwnedBy(user)) in slots
      modifies this
      ensures Queue.Cancel(old(Book()), cfg, now, user)
           == Queue.Outcome(if committed then Book() else old(Book()), result)
    {
      var failure := ReconcileProduct();
      if failure.Some? {
        return false, Err(failure.value);
      }
      LastStays(old(table), table, user);
      var index := FindLatest(user);
      if index == |attempts| {
        return true, Err(AttemptNotFound);
      }
      var attempt := attempts[index];
      if attempt.state.Purchased? {
        return true, Err(AlreadyPurchased);
      }
      if IsTerminal(attempt.state) {
        return true, Ok(attempt);
      }
      TransitionToCancelled(index);
      var cancelled := attempts[index];
      failure := ReconcileProduct();
      if failure.Some? {
        return false, Err(failure.value);
      }
      return true, Ok(cancelled);
    }

    method FindCurrent(user: Name) returns (committed: bool, result: Result<Queue.JoinResult>)
      requires Valid()
      requires Last(table, OwnedBy(user)) < |table| ==> Last(table, OwnedBy(user)) in slots
      modifies this
      ensures Queue.FindCurrent(old(Book()), cfg, now, user)
           == Queue.Outcome(if committed then Book() else old(Book()), result)
    {
      hide Iterate, ReservedOk, Picked, Is, Queue.Answer;
      var failure := ReconcileProduct();
      if failure.Some? {
        return false, Err(failure.value);
      }
      KindLoaded(table, slots, ActiveOf(user));
      LastStays(old(table), table, user);
      var index := FindFirst(ActiveOf(user));
      if index == |attempts| {
        index := FindLatest(user);
      }
      if index == |attempts| {
        return true, Err(AttemptNotFound);
      }
      var answer := AnswerFor(index, false);
      return true, Ok(answer);
    }

    /** AdjustStock behind the input check and the digest of the command. */
    method AdjustStock(key: Name, delta: int, digest: Text)
      returns (committed: bool, result: Result<Queue.AdjustmentResult>)
      requires Valid() && delta != 0
      modifies this
      ensures Queue.AdjustStock(old(Book()), cfg, now, key, delta, digest)
           == Queue.Outcome(if committed then Book() else old(Book()), result)
    {
      hide Iterate, ReservedOk, Picked, Loaded;
      var index := Queue.FindAdjustment(adjustments, key);
      if index < |adjustments| {
        var stored := adjustments[index];
        if stored.digest != digest {
          return true, Err(AdjustmentConflict);
        }
        return true, Queue.StoredOutcome(stored);
      }
      var stockAfter := stock + delta;
      var refusal := None;
      if stockAfter < 0 {
        refusal := Some(StockBelowZero);
      } else if stockAfter > MAX_INT32 {
        refusal := Some(StockOverflow);
      } else if stockAfter < reserved {
        refusal := Some(StockBelowReserved);
      }
      if refusal.Some? {
        adjustments := adjustments + [Adjustment(key, delta, digest, 0, 0, refusal)];
        return true, Err(refusal.value);
      }
      var stockBefore := stock;
      stock := stockAfter;
      var failure := ReconcileProduct();
      if failure.Some? {
        return false, Err(failure.value);
      }
      adjustments := adjustments + [Adjustment(key, delta, digest, stockBefore, stockAfter, None)];
      return true, Ok(Queue.AdjustmentResult(stockBefore, stockAfter, false));
    }
  }
}
