/** What the service promises, over all runs: a user, an operator or a payment provider may rely on each
    lemma here at every moment, whatever the requests and however the workers interleave. */
module Guarantees {
  import opened Wrappers
  import opened Domain
  import opened Reconciliation
  import opened QueueInvariants
  import opened QueueSafety
  import opened Framing
  import opened Database
  import opened DatabaseInvariants
  import opened DatabaseSafety
  import opened PaymentSafety
  import opened Runs
  import Queue
  import Outbox

  /** The state of product `x` at a moment, and later in the same run. */
  lemma LaterProduct(db: Db, cfg: Config, events: seq<Event>, x: Uuid)
    requires DbOk(db) && x in db.products
    ensures var later := Run(db, cfg, events);
            && DbOk(later) && DbEvolves(db, later) && x in later.products
            && ProductOk(db.products[x], db.clock) && ProductOk(later.products[x], later.clock)
            && Evolves(db.products[x], later.products[x])
  {
    hide DbOk, DbEvolves, ProductOk, Evolves;
    RunKeepsDb(db, cfg, events);
    SameShop(db, Run(db, cfg, events), x);
    StoredProductOk(db, x);
    StoredProductOk(Run(db, cfg, events), x);
  }

  // ---------------------------------------------------------------------------------------------
  // First come, first served
  // ---------------------------------------------------------------------------------------------

  /** Between any two moments: attempts keep their places; whoever holds or ever held a right at the later
      moment has nobody with a smaller sequence waiting; and whoever still waits has moved only forward. */
  lemma FirstComeFirstServed(db: Db, cfg: Config, events: seq<Event>, x: Uuid, i: nat)
    requires Moment(db, cfg) && x in db.products && i < |db.products[x].attempts|
    ensures var later := Run(db, cfg, events);
            && x in later.products
            && var p, q := db.products[x], later.products[x];
               && i < |q.attempts| && q.attempts[i].sequence == p.attempts[i].sequence == i + 1
               && (q.attempts[i].invitedAt.Some? ==> forall k :: 0 <= k < i ==> !q.attempts[k].state.Waiting?)
               && (q.attempts[i].state.Waiting? ==>
                     q.attempts[i] == p.attempts[i]
                     && Queue.PositionAhead(q, q.attempts[i]) <= Queue.PositionAhead(p, p.attempts[i]))
  {
    MomentIsSound(db, cfg);
    LaterProduct(db, cfg, events, x);
    var later := Run(db, cfg, events);
    var p, q := db.products[x], later.products[x];
    assert Sequenced(p) && Sequenced(q) && NoOvertaking(q);
    hide ProductOk;
    if q.attempts[i].state.Waiting? {
      PositionNeverGrows(p, q, i);
    }
  }

  // ---------------------------------------------------------------------------------------------
  // The life of an attempt
  // ---------------------------------------------------------------------------------------------

  /** Rights are used in time: checkout starts strictly before the invitation runs out; purchases, payment
      failures and cancellations come strictly before the deadline of the right they end; expiries come at
      or after it. */
  predicate TimelyEnd(a: Attempt) {
    && (a.checkoutStartedAt.Some? ==>
          a.invitationDeadline.Some? && a.checkoutStartedAt.value < a.invitationDeadline.value)
    && (!IsActive(a.state) ==>
          && a.terminalAt.Some?
          && (a.state.InviteExpired? ==> Reached(a.invitationDeadline, a.terminalAt.value))
          && (a.state.CheckoutExpired? ==> Reached(a.checkoutDeadline, a.terminalAt.value))
          && (a.state.Purchased? || a.state.PaymentFailed? ==>
                a.checkoutDeadline.Some? && a.terminalAt.value < a.checkoutDeadline.value)
          && (a.state.Cancelled? && a.checkoutStartedAt.Some? ==>
                a.checkoutDeadline.Some? && a.terminalAt.value < a.checkoutDeadline.value)
          && (a.state.Cancelled? && a.checkoutStartedAt.None? && a.invitedAt.Some? ==>
                a.invitationDeadline.Some? && a.terminalAt.value < a.invitationDeadline.value))
  }

  /** An attempt changes at most three times, a finished one never, and it was announced by exactly one
      invitation row if it was ever promoted from waiting and by none otherwise. */
  lemma LifeOfAnAttempt(db: Db, cfg: Config, events: seq<Event>, x: Uuid, i: nat)
    requires Moment(db, cfg) && x in db.products && i < |db.products[x].attempts|
    ensures var later := Run(db, cfg, events);
            && x in later.products && i < |later.products[x].attempts|
            && var a, b := db.products[x].attempts[i], later.products[x].attempts[i];
               && SameIdentity(a, b) && (!IsActive(a.state) ==> b == a) && (a != b ==> a.version < b.version)
               && 1 <= b.version <= 4
               && (b.state.Waiting? ==> b.version == 1)
               && (b.state.Invited? ==> b.version == 2)
               && (b.state.Checkout? ==> b.version in {1, 3})
               && CountInvitations(later.products[x].invitations, b.id) == (if EverPromoted(b) then 1 else 0)
               && TimelyEnd(b)
  {
    MomentIsSound(db, cfg);
    LaterProduct(db, cfg, events, x);
    var later := Run(db, cfg, events);
    hide DbOk, DbEvolves, Moment;
    LifeOfARow(db.products[x], later.products[x], later.clock, i);
  }

  lemma LifeOfARow(p: Product, q: Product, now: Time, i: nat)
    requires ProductOk(q, now) && Evolves(p, q) && i < |p.attempts|
    ensures var a, b := p.attempts[i], q.attempts[i];
            && SameIdentity(a, b) && (!IsActive(a.state) ==> b == a) && (a != b ==> a.version < b.version)
            && CountInvitations(q.invitations, b.id) == (if EverPromoted(b) then 1 else 0)
            && AttemptOk(b, now) && TimelyEnd(b)
            && 1 <= b.version <= 4
            && (b.state.Waiting? ==> b.version == 1)
            && (b.state.Invited? ==> b.version == 2)
            && (b.state.Checkout? ==> b.version in {1, 3})
  {
    hide Ledger, TimelyEnd, EverPromoted, InventoryOk, Sequenced, Identified, OnlyNewestActive, NoOvertaking;
    assert AttemptEvolves(p.attempts[i], q.attempts[i]);
    assert AttemptOk(q.attempts[i], now) by { assert Shaped(q, now); }
    SoundAttemptIsTimely(q.attempts[i], now);
    hide AttemptOk, StageOk, EndOk;
  }

  lemma SoundAttemptIsTimely(a: Attempt, now: Time)
    requires AttemptOk(a, now)
    ensures TimelyEnd(a) && 1 <= a.version <= 4
    ensures a.state.Waiting? ==> a.version == 1
    ensures a.state.Invited? ==> a.version == 2
    ensures a.state.Checkout? ==> a.version in {1, 3}
  {
  }

  /** A stored notification is current, by the look into the whole queue, exactly while its attempt holds an
      invitation in force. */
  lemma NotificationFollowsInvitation(db: Db, cfg: Config, x: Uuid, k: nat, i: nat)
    requires Moment(db, cfg) && x in db.products && k < |db.products[x].invitations| && i < |db.products[x].attempts|
    requires db.products[x].attempts[i].id == db.products[x].invitations[k].attempt
    ensures var p := db.products[x];
            Outbox.InForceIn(db.products, p.invitations[k].attempt, p.invitations[k].deadline, db.clock)
            <==> p.attempts[i].state.Invited? && IsEffectiveAt(p.attempts[i], db.clock)
  {
    hide Moment, DbOk, ProductOk;
    MomentIsSound(db, cfg);
    StoredProductOk(db, x);
    InvitationFollowed(db.products[x], db.clock, k, i);
    InForceAtHome(db, x, i, db.products[x].invitations[k].deadline);
  }

  /** No other product has a row with the attempt's id. */
  lemma InForceAtHome(db: Db, x: Uuid, i: nat, deadline: Time)
    requires DbOk(db) && x in db.products && i < |db.products[x].attempts|
    ensures var id := db.products[x].attempts[i].id;
            Outbox.InForceIn(db.products, id, deadline, db.clock)
            <==> Outbox.InForce(db.products[x], id, deadline, db.clock)
  {
    hide DbOk;
    var id := db.products[x].attempts[i].id;
    forall y | y in db.products && Outbox.InForce(db.products[y], id, deadline, db.clock) ensures y == x {
      var j :| 0 <= j < |db.products[y].attempts| && db.products[y].attempts[j].id == id
               && db.products[y].attempts[j].state.Invited?
               && db.products[y].attempts[j].invitationDeadline == Some(deadline) && db.clock < deadline;
      SameIdSameRow(db, y, j, x, i);
    }
  }

  lemma InvitationFollowed(p: Product, now: Time, k: nat, i: nat)
    requires ProductOk(p, now) && k < |p.invitations| && i < |p.attempts|
    requires p.attempts[i].id == p.invitations[k].attempt
    ensures Outbox.InForce(p, p.invitations[k].attempt, p.invitations[k].deadline, now)
       <==> p.attempts[i].state.Invited? && IsEffectiveAt(p.attempts[i], now)
  {
    var row, a := p.invitations[k], p.attempts[i];
    assert InvitationsOk(p) && Identified(p) && InvitationRecorded(p, row);
    hide ProductOk, InvitationsOk;
    var j :| 0 <= j < |p.attempts| && p.attempts[j].id == row.attempt
             && p.attempts[j].invitationDeadline == Some(row.deadline);
    assert j == i;
    if a.state.Invited? && IsEffectiveAt(a, now) {
      assert p.attempts[i].id == row.attempt && p.attempts[i].invitationDeadline == Some(row.deadline)
          && now < row.deadline;
    }
  }

  // ---------------------------------------------------------------------------------------------
  // Joining
  // ---------------------------------------------------------------------------------------------

  /** At every moment a user has at most one active attempt per product, and it is the newest one. */
  lemma OneActiveAttempt(db: Db, cfg: Config, x: Uuid, i: nat, j: nat)
    requires Moment(db, cfg) && x in db.products
    requires i < |db.products[x].attempts| && j < |db.products[x].attempts|
    requires db.products[x].attempts[i].user == db.products[x].attempts[j].user
    requires IsActive(db.products[x].attempts[i].state)
    ensures db.products[x].attempts[j].sequence <= db.products[x].attempts[i].sequence
    ensures IsActive(db.products[x].attempts[j].state) ==> i == j
  {
    MomentIsSound(db, cfg);
    StoredProductOk(db, x);
    assert OnlyNewestActive(db.products[x]) && Sequenced(db.products[x]);
  }

  /** Joining under `key` at any later moment answers with attempt `id` and changes nothing. */
  ghost predicate AnswersForever(db: Db, cfg: Config, x: Uuid, user: Name, key: Name, id: Uuid) {
    forall events, percent, newId ::
      AnswersWith(Run(db, cfg, events), Join(Run(db, cfg, events), cfg, percent, x, user, key, newId), id)
  }

  predicate AnswersWith(db: Db, r: Reply<Queue.JoinResult>, id: Uuid) {
    r.db == db && r.result.Ok? && r.result.value.attempt.id == id && !r.result.value.created
  }

  /** A key that is in the table answers with its attempt for ever. */
  lemma StoredKeyAnswers(db: Db, cfg: Config, x: Uuid, i: nat, events: seq<Event>, percent: int, newId: Uuid)
    requires DbOk(db) && x in db.products && i < |db.products[x].attempts|
    ensures var a := db.products[x].attempts[i];
            AnswersWith(Run(db, cfg, events), Join(Run(db, cfg, events), cfg, percent, x, a.user, a.key, newId), a.id)
  {
    hide DbOk, DbEvolves, ProductOk, Evolves, Queue.Join, Run;
    LaterProduct(db, cfg, events, x);
    var later, a := Run(db, cfg, events), db.products[x].attempts[i];
    var q := later.products[x];
    StoredKeyReplays(db.products[x], q, cfg, later.clock, percent, i, newId, newId in later.home);
    assert Put(later, x, q) == later;
  }

  lemma StoredKeyReplays(p: Product, q: Product, cfg: Config, now: Time, percent: int, i: nat, newId: Uuid, taken: bool)
    requires ProductOk(q, now) && Evolves(p, q) && i < |p.attempts|
    ensures var a := p.attempts[i];
            && q.attempts[i].id == a.id
            && Queue.Join(q, cfg, now, percent, a.user, a.key, newId, taken)
                  == Queue.Outcome(q, Ok(Queue.Answer(q, i, false)))
  {
    var a := p.attempts[i];
    assert Identified(q) && AttemptEvolves(a, q.attempts[i]);
    hide ProductOk, Evolves, Queue.Admit, Reconcile, Count;
    assert Is(q.attempts[i], ReplayOf(a.user, a.key));
    assert First(q.attempts, ReplayOf(a.user, a.key)) == i;
  }

  /** Cancelling leaves the user without an active attempt. */
  lemma CancelLeavesNoneActive(p: Product, cfg: Config, now: Time, user: Name)
    requires ProductOk(p, now)
    ensures var q := Queue.Cancel(p, cfg, now, user).product;
            First(q.attempts, ActiveOf(user)) == |q.attempts|
  {
    hide Iterate, ReservedOk, Evolves, ProductOk, HasWork;
    ReconcileKeepsProduct(p, cfg, now);
    var q := Reconcile(p, cfg, now).value;
    var i := Last(q.attempts, OwnedBy(user));
    var j := First(q.attempts, ActiveOf(user));
    if j < |q.attempts| {
      ActiveIsLatest(q, now, user);
    }
    if i < |q.attempts| && IsActive(q.attempts[i].state) {
      SettledIsTimely(q, now, i);
      CancelKeepsProduct(q, i, now);
      CancelledRowIsLast(q, i, now, user);
      ReconcileKeepsLookups(Queue.CancelRow(q, i, now), cfg, now, ActiveOf(user));
    }
  }

  lemma CancelledRowIsLast(q: Product, i: nat, now: Time, user: Name)
    requires ProductOk(q, now) && i == Last(q.attempts, OwnedBy(user)) < |q.attempts|
    ensures var c := Queue.CancelRow(q, i, now); First(c.attempts, ActiveOf(user)) == |c.attempts|
  {
    assert OnlyNewestActive(q);
    hide ProductOk;
    var c := Queue.CancelRow(q, i, now);
    forall k | 0 <= k < |c.attempts| ensures !Is(c.attempts[k], ActiveOf(user)) {
      if k > i {
        assert !Is(q.attempts[k], OwnedBy(user));
      }
    }
  }

  /** Without a stored key and without an active attempt, a join creates an attempt or fails. */
  lemma NewKeyIsNoReplay(p: Product, cfg: Config, now: Time, percent: int, user: Name, key: Name, id: Uuid, taken: bool)
    requires First(p.attempts, ReplayOf(user, key)) == |p.attempts|
    requires First(p.attempts, ActiveOf(user)) == |p.attempts|
    ensures var r := Queue.Join(p, cfg, now, percent, user, key, id, taken).result; r.Ok? ==> r.value.created
  {
    hide Reconcile, First, Count, Queue.CreateAttempt;
  }

  /** What a join answered with, in the table it leaves behind. */
  lemma JoinAnswersFromTable(db: Db, cfg: Config, percent: int, x: Uuid, user: Name, key: Name,
      id: Uuid) returns (i: nat)
    requires DbOk(db) && Join(db, cfg, percent, x, user, key, id).result.Ok?
    ensures var r := Join(db, cfg, percent, x, user, key, id);
            && x in r.db.products && i < |r.db.products[x].attempts| && r.db.products[x].attempts[i]
                  == r.result.value.attempt
            && r.result.value.attempt.user == user
            && (r.result.value.attempt.key != key ==>
                  First(r.db.products[x].attempts, ReplayOf(user, key)) == |r.db.products[x].attempts|)
  {
    hide DbOk, Queue.Join, ProductOk;
    StoredProductOk(db, x);
    i := AnswerIsStored(db.products[x], cfg, db.clock, percent, user, key, id, id in db.home);
  }

  lemma AnswerIsStored(p: Product, cfg: Config, now: Time, percent: int, user: Name, key: Name, id: Uuid,
      taken: bool) returns (i: nat)
    requires ProductOk(p, now) && Queue.Join(p, cfg, now, percent, user, key, id, taken).result.Ok?
    ensures var o := Queue.Join(p, cfg, now, percent, user, key, id, taken);
            && i < |o.product.attempts| && o.product.attempts[i] == o.result.value.attempt
            && o.result.value.attempt.user == user
            && (o.result.value.attempt.key != key ==>
                  First(o.product.attempts, ReplayOf(user, key)) == |o.product.attempts|)
  {
    hide ProductOk, Iterate, ReservedOk, HasWork, Queue.Admit, IsEffectiveAt;
    ReconcileKeepsLookups(p, cfg, now, ReplayOf(user, key));
    var o := Queue.Join(p, cfg, now, percent, user, key, id, taken);
    var replay, active := First(p.attempts, ReplayOf(user, key)), First(p.attempts, ActiveOf(user));
    if replay < |p.attempts| {
      i := replay;
    } else if active == |p.attempts| {
      i := AdmittedIsStored(p, p, cfg, now, percent, user, key, id, taken);
    } else if IsEffectiveAt(p.attempts[active], now) {
      i := active;
    } else {
      var q := Reconcile(p, cfg, now).value;
      var effective := First(q.attempts, ActiveOf(user));
      if effective < |q.attempts| {
        i := effective;
      } else {
        i := AdmittedIsStored(p, q, cfg, now, percent, user, key, id, taken);
      }
    }
  }

  lemma AdmittedIsStored(before: Product, p: Product, cfg: Config, now: Time, percent: int, user: Name, key: Name,
      id: Uuid, taken: bool)
    returns (i: nat)
    requires Queue.Admit(before, p, cfg, now, percent, user, key, id, taken).result.Ok?
    ensures var o := Queue.Admit(before, p, cfg, now, percent, user, key, id, taken);
            && i < |o.product.attempts| && o.product.attempts[i] == o.result.value.attempt
            && o.result.value.attempt.user == user && o.result.value.attempt.key == key
  {
    hide Reconcile, Count;
    i := |Reconcile(p, cfg, now).value.attempts|;
  }

  /** The user has a row under this key. */
  predicate KeyIsStored(p: Product, user: Name, key: Name) {
    exists i :: 0 <= i < |p.attempts| && p.attempts[i].user == user && p.attempts[i].key == key
  }

  /** The attempt waits, or holds a right that has not run out. */
  predicate InForceAt(a: Attempt, now: Time) { IsActive(a.state) && !Is(a, Overdue(now)) }

  /** The user is in line, or holds a right that has not run out. */
  predicate HasPlace(p: Product, now: Time, user: Name) {
    exists i :: 0 <= i < |p.attempts| && p.attempts[i].user == user && InForceAt(p.attempts[i], now)
  }

  lemma OtherRowsAreOver(p: Product, now: Time, user: Name, active: nat)
    requires OnlyNewestActive(p) && active < |p.attempts| && Is(p.attempts[active], ActiveOf(user))
    requires !IsEffectiveAt(p.attempts[active], now)
    ensures forall i :: 0 <= i < |p.attempts| && i != active && p.attempts[i].user == user ==>
        !IsActive(p.attempts[i].state)
    ensures !HasPlace(p, now, user)
  {
  }

  lemma SettledRowIsFree(p: Product, cfg: Config, now: Time, user: Name, active: nat, i: nat)
    requires active < |p.attempts| && Is(p.attempts[active], ActiveOf(user)) && !IsEffectiveAt(p.attempts[active], now)
    requires i < |p.attempts| && (i != active && p.attempts[i].user == user ==> !IsActive(p.attempts[i].state))
    ensures !Is(SettledAttempt(p, cfg, now, i), ActiveOf(user))
  {
  }

  lemma ReconciledRows(p: Product, cfg: Config, now: Time)
    requires ProductOk(p, now)
    ensures Reconcile(p, cfg, now).Ok? && SettlesAs(p, cfg, now, Reconcile(p, cfg, now).value)
  {
    assert ReservedOk(p);
    hide ProductOk, SettlesAs, Iterate;
    WorkIsSomething(p, now);
    ReconcileIsSettled(p, cfg, now, Unbounded(p));
  }

  /** A user whose only active attempt is overdue has none after reconciling. */
  lemma OverdueUserIsFree(p: Product, cfg: Config, now: Time, user: Name, active: nat)
    requires ProductOk(p, now) && active < |p.attempts| && Is(p.attempts[active], ActiveOf(user))
    requires !IsEffectiveAt(p.attempts[active], now)
    ensures Reconcile(p, cfg, now).Ok?
    ensures var q := Reconcile(p, cfg, now).value; First(q.attempts, ActiveOf(user)) == |q.attempts|
    ensures !HasPlace(p, now, user)
  {
    assert OnlyNewestActive(p);
    OtherRowsAreOver(p, now, user, active);
    hide ProductOk, OnlyNewestActive, HasPlace, SettledAttempt, SettledInvitations, Reconcile, IsEffectiveAt, Is;
    ReconciledRows(p, cfg, now);
    var q := Reconcile(p, cfg, now).value;
    forall i | 0 <= i < |q.attempts| ensures !Is(q.attempts[i], ActiveOf(user)) {
      SettledRowIsFree(p, cfg, now, user, active, i);
    }
  }

  /** Whether a join is answered under its own key can be told from the table before it: the key is stored, or
      the user has no other place. */
  lemma ProductAnswerCarriesKey(p: Product, cfg: Config, now: Time, percent: int, user: Name, key: Name, id: Uuid,
      taken: bool)
    requires ProductOk(p, now) && Queue.Join(p, cfg, now, percent, user, key, id, taken).result.Ok?
    ensures Queue.Join(p, cfg, now, percent, user, key, id, taken).result.value.attempt.key == key
       <==> KeyIsStored(p, user, key) || !HasPlace(p, now, user)
  {
    hide ProductOk, Queue.Admit, Reconcile, IsEffectiveAt;
    var replay, active := First(p.attempts, ReplayOf(user, key)), First(p.attempts, ActiveOf(user));
    assert KeyIsStored(p, user, key) <==> replay < |p.attempts| by {
      forall i | 0 <= i < |p.attempts| && replay == |p.attempts|
          ensures !(p.attempts[i].user == user && p.attempts[i].key == key) {
        assert !Is(p.attempts[i], ReplayOf(user, key));
      }
    }
    if replay == |p.attempts| {
      if active == |p.attempts| {
        NoActiveNoPlace(p, now, user);
        var _ := AdmittedIsStored(p, p, cfg, now, percent, user, key, id, taken);
      } else if !IsEffectiveAt(p.attempts[active], now) {
        OverdueUserIsFree(p, cfg, now, user, active);
        var _ := AdmittedIsStored(p, Reconcile(p, cfg, now).value, cfg, now, percent, user, key, id, taken);
      } else {
        EffectiveIsInForce(p.attempts[active], now);
        assert !Is(p.attempts[active], ReplayOf(user, key));
      }
    }
  }

  lemma EffectiveIsInForce(a: Attempt, now: Time)
    ensures IsEffectiveAt(a, now) <==> InForceAt(a, now)
  {
  }

  lemma NoActiveNoPlace(p: Product, now: Time, user: Name)
    requires First(p.attempts, ActiveOf(user)) == |p.attempts|
    ensures !HasPlace(p, now, user)
  {
    forall i | 0 <= i < |p.attempts| && p.attempts[i].user == user ensures !IsEffectiveAt(p.attempts[i], now) {
      assert !Is(p.attempts[i], ActiveOf(user));
    }
  }

  lemma AnswerCarriesKey(db: Db, cfg: Config, percent: int, x: Uuid, user: Name, key: Name, id: Uuid)
    requires Moment(db, cfg) && Join(db, cfg, percent, x, user, key, id).result.Ok?
    ensures Join(db, cfg, percent, x, user, key, id).result.value.attempt.key == key
       <==> KeyIsStored(db.products[x], user, key) || !HasPlace(db.products[x], db.clock, user)
  {
    hide Moment, DbOk, ProductOk, KeyIsStored, HasPlace, Queue.Join;
    MomentIsSound(db, cfg);
    StoredProductOk(db, x);
    ProductAnswerCarriesKey(db.products[x], cfg, db.clock, percent, user, key, id, id in db.home);
  }

  /** Joining again under the same key returns the same attempt for ever exactly when, before the join, the key
      was already stored or the user had no place in the queue. Otherwise the user is answered with the attempt
      held under another key: nothing is stored under the new key then, and once that attempt is over the new
      key starts a new one. */
  lemma JoinIsRepeatable(db: Db, cfg: Config, percent: int, x: Uuid, user: Name, key: Name, id: Uuid)
    requires Moment(db, cfg) && Join(db, cfg, percent, x, user, key, id).result.Ok?
    ensures var r := Join(db, cfg, percent, x, user, key, id);
            AnswersForever(r.db, cfg, x, user, key, r.result.value.attempt.id)
            <==> KeyIsStored(db.products[x], user, key) || !HasPlace(db.products[x], db.clock, user)
  {
    MomentIsSound(db, cfg);
    var r := Join(db, cfg, percent, x, user, key, id);
    JoinKeepsDb(db, cfg, percent, x, user, key, id);
    var i := JoinAnswersFromTable(db, cfg, percent, x, user, key, id);
    StoredProductOk(db, x);
    ProductAnswerCarriesKey(db.products[x], cfg, db.clock, percent, user, key, id, id in db.home);
    hide DbOk, DbEvolves, Join, Moment, KeyIsStored, HasPlace, ProductOk;
    if r.result.value.attempt.key == key {
      forall events, again, newId
        ensures AnswersWith(Run(r.db, cfg, events), Join(Run(r.db, cfg, events), cfg, again, x, user, key, newId),
                            r.result.value.attempt.id)
      {
        StoredKeyAnswers(r.db, cfg, x, i, events, again, newId);
      }
    } else {
      CancelledKeyIsNew(r.db, cfg, x, user, key, r.result.value.attempt.id);
    }
  }

  lemma CancelledKeyIsNew(db: Db, cfg: Config, x: Uuid, user: Name, key: Name, id: Uuid)
    requires DbOk(db) && x in db.products
    requires First(db.products[x].attempts, ReplayOf(user, key)) == |db.products[x].attempts|
    ensures !AnswersForever(db, cfg, x, user, key, id)
  {
    hide DbOk, Join, Cancel, First;
    JoinAfterCancel(db, cfg, x, user, key, id);
    var events := [CancelRequest(x, user)];
    assert events[1..] == [];
    assert Run(db, cfg, events) == Cancel(db, cfg, x, user).db;
    assert !AnswersWith(Run(db, cfg, events), Join(Run(db, cfg, events), cfg, 0, x, user, key, id), id);
  }

  lemma JoinAfterCancel(db: Db, cfg: Config, x: Uuid, user: Name, key: Name, id: Uuid)
    requires DbOk(db) && x in db.products
    requires First(db.products[x].attempts, ReplayOf(user, key)) == |db.products[x].attempts|
    ensures var later := Cancel(db, cfg, x, user).db; !AnswersWith(later, Join(later, cfg, 0, x, user, key, id), id)
  {
    hide DbOk, ProductOk, Queue.Cancel, Evolves, Queue.Join, First;
    StoredProductOk(db, x);
    var p, q := db.products[x], Queue.Cancel(db.products[x], cfg, db.clock, user).product;
    CancelLeavesNoneActive(p, cfg, db.clock, user);
    CancelRequestKeepsProduct(p, cfg, db.clock, user);
    KeyStaysNew(p, q, user, key);
    NewKeyIsNoReplay(q, cfg, db.clock, 0, user, key, id, id in db.home);
  }

  lemma KeyStaysNew(p: Product, q: Product, user: Name, key: Name)
    requires Evolves(p, q) && |p.attempts| == |q.attempts|
    requires First(p.attempts, ReplayOf(user, key)) == |p.attempts|
    ensures First(q.attempts, ReplayOf(user, key)) == |q.attempts|
  {
    hide Ledger;
    forall k | 0 <= k < |q.attempts| ensures !Is(q.attempts[k], ReplayOf(user, key)) {
      assert AttemptEvolves(p.attempts[k], q.attempts[k]);
      assert !Is(p.attempts[k], ReplayOf(user, key));
    }
  }

  /** A product nobody has joined; the product after one user has joined; and after that user has left. */
  function Empty(x: Uuid, stock: int): Product { Product(x, stock, 0, 1, true, [], [], []) }

  function WithBuyer(x: Uuid, stock: int, cfg: Config, now: Time, user: Name, key: Name, id: Uuid): Product {
    Product(x, stock, 1, 2, true, [NewCheckout(id, x, 1, user, key, now, cfg)], [], [])
  }

  function WithLeaver(x: Uuid, stock: int, cfg: Config, now: Time, user: Name, key: Name, id: Uuid): Product {
    Product(x, stock, 0, 2, true, [Finish(NewCheckout(id, x, 1, user, key, now, cfg), Cancelled, now)], [], [])
  }

  lemma CountOne(a: Attempt, k: Kind)
    ensures Count([a], k) == if Is(a, k) then 1 else 0
  {
    assert [a][..0] == [];
  }

  /** One row that neither is overdue nor waits leaves nothing to reconcile. */
  lemma OneRowIsSettled(p: Product, cfg: Config, now: Time)
    requires |p.attempts| == 1 && !Is(p.attempts[0], Overdue(now)) && !Is(p.attempts[0], Queued)
    requires p.reserved == (if Is(p.attempts[0], Reserving) then 1 else 0) && p.reserved <= p.stock
    ensures Reconcile(p, cfg, now) == Ok(p)
  {
    CountOne(p.attempts[0], Reserving);
    assert p.attempts == [p.attempts[0]];
    assert !HasWork(p, now);
    hide HasWork;
  }

  lemma BuyerJoins(x: Uuid, stock: int, cfg: Config, now: Time, percent: int, user: Name, key: Name, id: Uuid)
    requires stock > 0
    ensures var o := Queue.Join(Empty(x, stock), cfg, now, percent, user, key, id, false);
            o.product == WithBuyer(x, stock, cfg, now, user, key, id) && o.result.Ok? && o.result.value.created
  {
    assert Reconcile(Empty(x, stock), cfg, now) == Ok(Empty(x, stock));
  }

  lemma BuyerJoinsAgain(x: Uuid, stock: int, cfg: Config, now: Time, percent: int, user: Name, key: Name, id: Uuid,
      other: Name, newId: Uuid, taken: bool)
    requires key != other
    ensures var p := WithBuyer(x, stock, cfg, now, user, key, id);
            var o := Queue.Join(p, cfg, now, percent, user, other, newId, taken);
            o.product == p && o.result.Ok? && !o.result.value.created && o.result.value.attempt.id == id
  {
    hide Reconcile, Queue.Admit;
    var a := WithBuyer(x, stock, cfg, now, user, key, id).attempts[0];
    assert !Is(a, ReplayOf(user, other)) && Is(a, ActiveOf(user)) && IsEffectiveAt(a, now);
    assert First([a], ReplayOf(user, other)) == 1;
  }

  lemma BuyerCancels(x: Uuid, stock: int, cfg: Config, now: Time, user: Name, key: Name, id: Uuid)
    requires stock > 0
    ensures var o := Queue.Cancel(WithBuyer(x, stock, cfg, now, user, key, id), cfg, now, user);
            o.product == WithLeaver(x, stock, cfg, now, user, key, id) && o.result.Ok?
  {
    var p, q := WithBuyer(x, stock, cfg, now, user, key, id), WithLeaver(x, stock, cfg, now, user, key, id);
    OneRowIsSettled(p, cfg, now);
    OneRowIsSettled(q, cfg, now);
    assert Is(p.attempts[0], OwnedBy(user)) && Last(p.attempts, OwnedBy(user)) == 0;
    assert Queue.CancelRow(p, 0, now) == q;
    hide Reconcile;
  }

  lemma LeaverJoins(x: Uuid, stock: int, cfg: Config, now: Time, percent: int, user: Name, key: Name, id: Uuid,
      other: Name, newId: Uuid)
    requires stock > 0 && key != other
    ensures var o := Queue.Join(WithLeaver(x, stock, cfg, now, user, key, id), cfg, now, percent, user, other, newId,
        false);
            o.result.Ok? && o.result.value.created && o.result.value.attempt.id == newId
  {
    var q := WithLeaver(x, stock, cfg, now, user, key, id);
    OneRowIsSettled(q, cfg, now);
    assert !Is(q.attempts[0], ReplayOf(user, other)) && !Is(q.attempts[0], ActiveOf(user));
    assert First(q.attempts, ReplayOf(user, other)) == 1 && First(q.attempts, ActiveOf(user)) == 1;
    hide Reconcile, Count, First;
  }

  /** The failing case, in every fresh shop, for every user and any two keys: the user joins under one key,
      joins again under the other and is answered with the same attempt, cancels it, and joining under the
      other key now makes a different attempt. */
  lemma SecondKeyIsForgotten(start: Db, cfg: Config, percent: int, x: Uuid, user: Name, key: Name, other: Name,
      id1: Uuid, id2: Uuid, id3: Uuid)
    requires Fresh(start) && x in start.products && start.products[x].stock > 0 && start.products[x].enabled
    requires key != other && id1 != id3
    ensures var first := Join(start, cfg, percent, x, user, key, id1);
            var second := Join(first.db, cfg, percent, x, user, other, id2);
            var cancelled := Cancel(second.db, cfg, x, user);
            var third := Join(cancelled.db, cfg, percent, x, user, other, id3);
            && second.result.Ok? && second.result.value.attempt.id == id1
            && third.result.Ok? && third.result.value.attempt.id == id3
            && Moment(second.db, cfg) && Moment(third.db, cfg)
  {
    var now, stock := start.clock, start.products[x].stock;
    assert start.products[x] == Empty(x, stock);
    BuyerJoins(x, stock, cfg, now, percent, user, key, id1);
    var first := Join(start, cfg, percent, x, user, key, id1);
    BuyerJoinsAgain(x, stock, cfg, now, percent, user, key, id1, other, id2, id2 in first.db.home);
    BuyerCancels(x, stock, cfg, now, user, key, id1);
    LeaverJoins(x, stock, cfg, now, percent, user, key, id1, other, id3);
    hide Queue.Join, Queue.Cancel, WithBuyer, WithLeaver, Empty, Fresh, Moment;
    FreshIsMoment(start, cfg);
    MomentGoesOn(start, cfg, JoinRequest(percent, x, user, key, id1));
    var second := Join(first.db, cfg, percent, x, user, other, id2);
    MomentGoesOn(first.db, cfg, JoinRequest(percent, x, user, other, id2));
    MomentGoesOn(second.db, cfg, CancelRequest(x, user));
    MomentGoesOn(Cancel(second.db, cfg, x, user).db, cfg, JoinRequest(percent, x, user, other, id3));
  }

  /** Joining is fair: a unit that is free goes to the newcomer only when nobody waits; a newcomer who has to
      wait fits the capacity of the buffer; a newcomer who does not fit costs no sequence number. */
  lemma ProductJoinIsFair(p: Product, cfg: Config, now: Time, percent: int, user: Name, key: Name, id: Uuid,
      taken: bool)
    requires ProductOk(p, now) && IdHonest(p, id, taken)
    ensures var o := Queue.Join(p, cfg, now, percent, user, key, id, taken);
            && (o.result.Ok? && o.result.value.created ==>
                  && o.product.nextSequence == p.nextSequence + 1
                  && o.result.value.attempt.sequence == p.nextSequence
                  && (o.result.value.attempt.state.Checkout? ==> Count(o.product.attempts, Queued) == 0)
                  && (o.result.value.attempt.state.Waiting? ==>
                        WaitingCapacity(p.stock, percent).Ok?
                        && Count(o.product.attempts, Queued) <= WaitingCapacity(p.stock, percent).value))
            && (!(o.result.Ok? && o.result.value.created) ==>
                  o.product.nextSequence == p.nextSequence && |o.product.attempts| == |p.attempts|)
  {
    hide ProductOk, HasWork, Iterate, ReservedOk, Queue.Admit, IsEffectiveAt, Evolves, Count;
    ReconcileKeepsProduct(p, cfg, now);
    var q := Reconcile(p, cfg, now).value;
    ReconcileKeepsLookups(p, cfg, now, ReplayOf(user, key));
    ReconcileKeepsLookups(p, cfg, now, WithId(id));
    if First(p.attempts, ReplayOf(user, key)) == |p.attempts| {
      var active := First(p.attempts, ActiveOf(user));
      if active == |p.attempts| {
        AdmissionIsFair(p, p, cfg, now, percent, user, key, id, taken);
      } else if !IsEffectiveAt(p.attempts[active], now) && First(q.attempts, ActiveOf(user)) == |q.attempts| {
        AdmissionIsFair(p, q, cfg, now, percent, user, key, id, taken);
      }
    }
  }

  /** The same at every moment of every run. */
  lemma JoinIsFair(db: Db, cfg: Config, percent: int, x: Uuid, user: Name, key: Name, id: Uuid)
    requires Moment(db, cfg) && x in db.products
    ensures var r := Join(db, cfg, percent, x, user, key, id);
            && x in r.db.products
            && var p, q := db.products[x], r.db.products[x];
               if r.result.Ok? && r.result.value.created then
                 && q.nextSequence == p.nextSequence + 1 && r.result.value.attempt.sequence == p.nextSequence
                 && (r.result.value.attempt.state.Checkout? ==> Count(q.attempts, Queued) == 0)
                 && (r.result.value.attempt.state.Waiting? ==>
                       WaitingCapacity(p.stock, percent).Ok?
                       && Count(q.attempts, Queued) <= WaitingCapacity(p.stock, percent).value)
               else q.nextSequence == p.nextSequence && |q.attempts| == |p.attempts|
  {
    hide Moment, DbOk, ProductOk, Queue.Join, WaitingCapacity, Count;
    MomentIsSound(db, cfg);
    StoredProductOk(db, x);
    FreshIdHonest(db, x, id);
    ProductJoinIsFair(db.products[x], cfg, db.clock, percent, user, key, id, id in db.home);
  }

  lemma AdmissionIsFair(before: Product, p: Product, cfg: Config, now: Time, percent: int, user: Name, key: Name,
      id: Uuid, taken: bool)
    requires ProductOk(p, now) && IdHonest(p, id, taken) && p.stock == before.stock
    requires p.nextSequence == before.nextSequence && |p.attempts| == |before.attempts|
    requires First(p.attempts, ReplayOf(user, key)) == |p.attempts|
    requires First(p.attempts, ActiveOf(user)) == |p.attempts|
    ensures var o := Queue.Admit(before, p, cfg, now, percent, user, key, id, taken);
            && (o.result.Ok? ==>
                  && o.result.value.created
                  && o.product.nextSequence == before.nextSequence + 1
                  && o.result.value.attempt.sequence == before.nextSequence
                  && (o.result.value.attempt.state.Checkout? ==> Count(o.product.attempts, Queued) == 0)
                  && (o.result.value.attempt.state.Waiting? ==>
                        WaitingCapacity(before.stock, percent).Ok?
                        && Count(o.product.attempts, Queued) <= WaitingCapacity(before.stock, percent).value))
            && (o.result.Err? ==>
                  o.product.nextSequence == before.nextSequence && |o.product.attempts| == |before.attempts|)
  {
    hide ProductOk, HasWork, Iterate, First, Evolves, Count, ReservedOk, Queue.CreateAttempt, WaitingCapacity;
    ReconcileKeepsProduct(p, cfg, now);
    var q := Reconcile(p, cfg, now).value;
    ReconcileKeepsLookups(p, cfg, now, ReplayOf(user, key));
    ReconcileKeepsLookups(p, cfg, now, ActiveOf(user));
    ReconcileKeepsLookups(p, cfg, now, WithId(id));
    if p.enabled && p.stock != 0 {
      CreateAttemptIsFair(q, cfg, now, percent, user, key, id, taken);
      NewcomerTakesNextSequence(q, cfg, now, percent, user, key, id, taken);
    }
  }

  lemma NewcomerTakesNextSequence(p: Product, cfg: Config, now: Time, percent: int, user: Name, key: Name,
      id: Uuid, taken: bool)
    ensures var created := Queue.CreateAttempt(p, cfg, now, percent, user, key, id, taken);
            created.Ok? ==> |created.value.attempts| == |p.attempts| + 1
                            && created.value.attempts[|p.attempts|].sequence == p.nextSequence
  {
  }

  // ---------------------------------------------------------------------------------------------
  // Stock adjustments
  // ---------------------------------------------------------------------------------------------

  /** The answer to a repeated adjustment: the stored one, marked as a replay. */
  function Replayed(r: Result<Queue.AdjustmentResult>): Result<Queue.AdjustmentResult> {
    if r.Ok? then Ok(r.value.(replayed := true)) else r
  }

  /** The command was taken up: applied, refused for its effect on the stock, or found stored. */
  predicate TakenUp(r: Result<Queue.AdjustmentResult>) {
    r.Ok? || r.error.StockBelowZero? || r.error.StockOverflow? || r.error.StockBelowReserved?
  }

  lemma AdjustmentIsStored(p: Product, cfg: Config, now: Time, key: Name, delta: int, digest: Text)
    requires ProductOk(p, now) && delta != 0 && TakenUp(Queue.AdjustStock(p, cfg, now, key, delta, digest).result)
    ensures var o := Queue.AdjustStock(p, cfg, now, key, delta, digest);
            var i := Queue.FindAdjustment(o.product.adjustments, key);
            && i < |o.product.adjustments| && o.product.adjustments[i].digest == digest
            && Queue.StoredOutcome(o.product.adjustments[i]) == Replayed(o.result)
  {
    hide ProductOk, Iterate, ReservedOk;
    var o := Queue.AdjustStock(p, cfg, now, key, delta, digest);
    if Queue.FindAdjustment(p.adjustments, key) == |p.adjustments| {
      if Queue.Refusal(p, delta).None? {
        RestockedIsSound(p, delta, now);
        ReconcileKeepsProduct(p.(stock := p.stock + delta), cfg, now);
      }
      assert o.product.adjustments[|p.adjustments|].key == key;
    }
  }

  /** An adjustment that was taken up answers every repetition of the same command, for ever, with its first
      outcome and without effect; a different command under the same key is a conflict without effect. */
  lemma AdjustmentsHappenOnce(db: Db, cfg: Config, c: AdjustmentCommand, events: seq<Event>, other: AdjustmentCommand)
    requires Moment(db, cfg) && TakenUp(AdjustStock(db, cfg, c).result) && c.delta != 0
    requires other.key == c.key && other.product == c.product && other.delta != 0
    ensures var first := AdjustStock(db, cfg, c);
            var later := Run(first.db, cfg, events);
            AdjustStock(later, cfg, other)
            == Reply(later, if other == c then Replayed(first.result) else Err(AdjustmentConflict))
  {
    hide DbOk, DbEvolves, ProductOk, Evolves, Queue.AdjustStock, Run, AdjustmentDigest, Moment;
    MomentIsSound(db, cfg);
    AdjustStockKeepsDb(db, cfg, c);
    var first := AdjustStock(db, cfg, c);
    var x, digest := c.product, AdjustmentDigest(c);
    StoredProductOk(db, x);
    AdjustmentIsStored(db.products[x], cfg, db.clock, c.key, c.delta, digest);
    LaterProduct(first.db, cfg, events, x);
    var later := Run(first.db, cfg, events);
    AdjustmentDigestIdentifies(c, other);
    StoredAdjustmentAnswers(first.db.products[x], later.products[x], cfg, later.clock, c.key, other.delta,
        AdjustmentDigest(other));
    assert Put(later, x, later.products[x]) == later;
  }

  lemma StoredAdjustmentAnswers(p: Product, q: Product, cfg: Config, now: Time, key: Name, delta: int, digest: Text)
    requires Evolves(p, q) && Queue.FindAdjustment(p.adjustments, key) < |p.adjustments| && delta != 0
    ensures var row := p.adjustments[Queue.FindAdjustment(p.adjustments, key)];
            Queue.AdjustStock(q, cfg, now, key, delta, digest)
            == Queue.Outcome(q, if row.digest == digest then Queue.StoredOutcome(row) else Err(AdjustmentConflict))
  {
    hide Ledger, AttemptEvolves, Reconcile;
    var i := Queue.FindAdjustment(p.adjustments, key);
    assert q.adjustments[i] == p.adjustments[i];
    assert forall j :: 0 <= j < i ==> q.adjustments[j] == p.adjustments[j];
  }

  // ---------------------------------------------------------------------------------------------
  // Payments
  // ---------------------------------------------------------------------------------------------

  /** The stored row of an event, if there is one, belongs to an equal command exactly when the digests agree. */
  lemma EventIsStored(db: Db, c: PaymentCommand)
    requires DbOk(db) && KeyOf(c) in db.events
    ensures db.events[KeyOf(c)] in db.inbox && RowOk(db.inbox[db.events[KeyOf(c)]])
    ensures db.inbox[db.events[KeyOf(c)]].digest == PaymentDigest(c) <==> db.inbox[db.events[KeyOf(c)]].command == c
  {
    hide ShelvesOk, PaymentDigest, CompensationsOk, ReceiptsOk, LosersOk;
    PaymentDigestIdentifies(db.inbox[db.events[KeyOf(c)]].command, c);
  }

  lemma ClaimIsHeld(db: Db, c: PaymentCommand, id: Uuid, token: Uuid)
    requires DbOk(db)
    ensures var r := ClaimPayment(db, c, id, token);
            r.result.Ok? && r.result.value.Claimed? ==>
              var claim := r.result.value.claim;
              && Fence(r.db, claim).None? && KeyOf(c) in r.db.events && r.db.events[KeyOf(c)] == claim.inbox
              && r.db.inbox[claim.inbox].command == c
  {
    hide DbOk, PaymentDigest, RowOk;
    if KeyOf(c) in db.events {
      EventIsStored(db, c);
    }
  }

  lemma RerunKeepsDb(db: Db, cfg: Config, claim: Claim, seesAttempt: bool, seesOwner: bool)
    requires DbOk(db)
    ensures DbEvolves(db, ProcessAndRerun(db, cfg, claim, seesAttempt, seesOwner).db)
  {
    hide DbOk, DbEvolves, ProcessClaim, ForceCompensation;
    var first := ProcessClaim(db, cfg, claim, seesAttempt, seesOwner);
    ProcessClaimIsSound(db, cfg, claim, seesAttempt, seesOwner);
    ForceCompensationIsSound(first.db, cfg, claim);
    DbEvolvesTransitively(db, first.db, ForceCompensation(first.db, cfg, claim).db);
  }

  /** The event of `c` is finished, with `code` as the answer to every delivery. */
  predicate AnsweredForGood(db: Db, c: PaymentCommand, code: Code) {
    && KeyOf(c) in db.events && db.events[KeyOf(c)] in db.inbox
    && var row := db.inbox[db.events[KeyOf(c)]];
       Finished(row) && row.command == c && row.response == Some(code)
  }

  /** What a delivery is told without being processed: its event is known under another command, or is in
      someone's hands. */
  predicate TurnedAway(db: Db, c: PaymentCommand, code: Code) {
    && KeyOf(c) in db.events && db.events[KeyOf(c)] in db.inbox
    && var row := db.inbox[db.events[KeyOf(c)]];
       (code.EventConflict? && row.command != c) || (code.StillProcessing? && row.command == c && Busy(row, db.clock))
  }

  lemma ProcessedForGood(db: Db, cfg: Config, c: PaymentCommand, claim: Claim, seesAttempt: bool, seesOwner: bool)
    requires DbOk(db) && Fence(db, claim).None? && KeyOf(c) in db.events && db.events[KeyOf(c)] == claim.inbox
    requires claim.inbox in db.inbox && db.inbox[claim.inbox].command == c
    ensures var r := ProcessAndRerun(db, cfg, claim, seesAttempt, seesOwner);
            r.result.Ok? && AnsweredForGood(r.db, c, r.result.value.code)
  {
    hide DbOk, DbEvolves, ProcessAndRerun, Fence;
    HeldClaimFinishes(db, cfg, claim, seesAttempt, seesOwner);
    RerunKeepsDb(db, cfg, claim, seesAttempt, seesOwner);
    EventLater(db, ProcessAndRerun(db, cfg, claim, seesAttempt, seesOwner).db, KeyOf(c));
    RowLater(db, ProcessAndRerun(db, cfg, claim, seesAttempt, seesOwner).db, claim.inbox);
  }

  lemma DirectAnswer(db: Db, c: PaymentCommand, id: Uuid, token: Uuid)
    requires DbOk(db)
    ensures var r := ClaimPayment(db, c, id, token);
            match r.result
            case Err(error) => error == Conflict && r.db == db && KeyOf(c) !in db.events && id in db.inbox
            case Ok(Answered(a)) => r.db == db && (TurnedAway(db, c, a.code) || AnsweredForGood(db, c, a.code))
            case Ok(Claimed(_)) => true
  {
    hide DbOk, PaymentDigest, TakeClaim;
    if KeyOf(c) in db.events {
      EventIsStored(db, c);
    }
  }

  /** A payment that nobody interferes with is answered for good, at once or through the second transaction,
      unless its event is turned away or its fresh inbox id is already in use. */
  lemma PaymentIsAnswered(db: Db, cfg: Config, c: PaymentCommand, id: Uuid, token: Uuid, seesAttempt: bool,
      seesOwner: bool)
    requires Moment(db, cfg)
    ensures var r := ProcessPayment(db, cfg, c, id, token, seesAttempt, seesOwner);
            match r.result
            case Err(error) => error == Conflict && r.db == db && KeyOf(c) !in db.events && id in db.inbox
            case Ok(a) => (r.db == db && TurnedAway(db, c, a.code)) || AnsweredForGood(r.db, c, a.code)
  {
    hide DbOk, Moment, ClaimPayment, ProcessAndRerun, RetryClaim, TurnedAway, AnsweredForGood, Fence;
    MomentIsSound(db, cfg);
    ClaimKeepsDb(db, c, id, token);
    DirectAnswer(db, c, id, token);
    ClaimIsHeld(db, c, id, token);
    var claimed := ClaimPayment(db, c, id, token);
    if claimed.result.Ok? && claimed.result.value.Claimed? {
      FencePasses(claimed.db, claimed.result.value.claim);
      ProcessedForGood(claimed.db, cfg, c, claimed.result.value.claim, seesAttempt, seesOwner);
    }
  }

  /** A finished event is frozen, and every later delivery of it is answered with the stored response. */
  lemma FinishedEventIsFrozen(db: Db, cfg: Config, events: seq<Event>, id: Uuid, inbox: Uuid, token: Uuid)
    requires Moment(db, cfg) && id in db.inbox && Finished(db.inbox[id])
    ensures var later := Run(db, cfg, events);
            && id in later.inbox && later.inbox[id] == db.inbox[id]
            && db.inbox[id].response.Some?
            && ClaimPayment(later, db.inbox[id].command, inbox, token)
               == Reply(later, Ok(Answered(Respond(id, db.inbox[id].response.value, true))))
  {
    hide DbOk, Moment, Run, PaymentDigest;
    MomentIsSound(db, cfg);
    RunKeepsDb(db, cfg, events);
    StoredRowOk(db, id);
    var later := Run(db, cfg, events);
    StoredRowOk(later, id) by { RowLater(db, later, id); }
    RowLater(db, later, id);
    hide DbEvolves;
  }

  lemma RowLater(a: Db, b: Db, id: Uuid)
    requires DbEvolves(a, b) && id in a.inbox
    ensures id in b.inbox && RowEvolves(a.inbox[id], b.inbox[id])
  {
    hide Evolves, RowEvolves;
  }

  /** A claim whose generation has passed, or that was given back, never has an effect again: whatever runs
      with it fails and leaves the whole database as it is. */
  lemma StaleClaimIsInert(db: Db, cfg: Config, events: seq<Event>, claim: Claim, seesAttempt: bool, seesOwner: bool)
    requires Moment(db, cfg) && claim.inbox in db.inbox
    requires claim.generation <= db.inbox[claim.inbox].generation && !Holds(db, claim)
    ensures var later := Run(db, cfg, events);
            && ProcessClaim(later, cfg, claim, seesAttempt, seesOwner).result.Err?
            && ProcessClaim(later, cfg, claim, seesAttempt, seesOwner).db == later
            && ForceCompensation(later, cfg, claim).result.Err? && ForceCompensation(later, cfg, claim).db == later
            && RetryClaim(later, claim) == Reply(later, Err(StaleClaim))
  {
    hide DbOk, DbEvolves, Moment, Run, PaymentDigest;
    MomentIsSound(db, cfg);
    RunKeepsDb(db, cfg, events);
    RowLater(db, Run(db, cfg, events), claim.inbox);
    assert !Holds(Run(db, cfg, events), claim);
  }

  /** Claims of one event are exclusive: a later claim has a larger generation and ends every earlier one. */
  lemma ClaimsAreExclusive(db: Db, cfg: Config, events: seq<Event>, c: PaymentCommand, inbox1: Uuid, token1: Uuid,
      inbox2: Uuid, token2: Uuid)
    requires Moment(db, cfg)
    requires var r := ClaimPayment(db, c, inbox1, token1); r.result.Ok? && r.result.value.Claimed?
    requires var r := ClaimPayment(Run(ClaimPayment(db, c, inbox1, token1).db, cfg, events), c, inbox2, token2);
             r.result.Ok? && r.result.value.Claimed?
    ensures var first := ClaimPayment(db, c, inbox1, token1);
            var second := ClaimPayment(Run(first.db, cfg, events), c, inbox2, token2);
            && Holds(first.db, first.result.value.claim) && Holds(second.db, second.result.value.claim)
            && first.result.value.claim.inbox == second.result.value.claim.inbox
            && first.result.value.claim.generation < second.result.value.claim.generation
            && !Holds(second.db, first.result.value.claim)
  {
    hide DbOk, DbEvolves, Moment, Run, PaymentDigest;
    MomentIsSound(db, cfg);
    ClaimKeepsDb(db, c, inbox1, token1);
    var first := ClaimPayment(db, c, inbox1, token1);
    RunKeepsDb(first.db, cfg, events);
    RowLater(first.db, Run(first.db, cfg, events), first.result.value.claim.inbox);
    EventLater(first.db, Run(first.db, cfg, events), KeyOf(c));
  }

  /** A lease decides: as long as the claim is held, a second delivery of the event is turned away until
      exactly PAYMENT_CLAIM_LEASE after the claim, and takes over from then on. */
  lemma LeaseDecides(db: Db, cfg: Config, events: seq<Event>, c: PaymentCommand, inbox1: Uuid, token1: Uuid,
      inbox2: Uuid, token2: Uuid)
    requires Moment(db, cfg)
    requires var r := ClaimPayment(db, c, inbox1, token1);
             r.result.Ok? && r.result.value.Claimed? && Holds(Run(r.db, cfg, events), r.result.value.claim)
    ensures var first := ClaimPayment(db, c, inbox1, token1);
            var later := Run(first.db, cfg, events);
            var claim := first.result.value.claim;
            ClaimPayment(later, c, inbox2, token2).result
            == if later.clock < db.clock + PAYMENT_CLAIM_LEASE
                then Ok(Answered(PaymentResult(claim.inbox, StillProcessing, 202, false)))
               else Ok(Claimed(Claim(claim.inbox, token2, claim.generation + 1, PaymentDigest(c), c)))
  {
    hide DbOk, DbEvolves, Moment, Run, PaymentDigest, RowOk;
    MomentIsSound(db, cfg);
    ClaimKeepsDb(db, c, inbox1, token1);
    var first := ClaimPayment(db, c, inbox1, token1);
    RunKeepsDb(first.db, cfg, events);
    ClaimIsHeld(db, c, inbox1, token1);
    RowLater(first.db, Run(first.db, cfg, events), first.result.value.claim.inbox);
    EventLater(first.db, Run(first.db, cfg, events), KeyOf(c));
    FencePasses(first.db, first.result.value.claim);
  }

  /** A claim that was put back can be taken again exactly from PAYMENT_RETRY_BACKOFF later on, by whoever comes
      first: as long as nobody has taken it. */
  lemma BackoffDecides(db: Db, cfg: Config, claim: Claim, events: seq<Event>, inbox: Uuid, token: Uuid)
    requires Moment(db, cfg) && Fence(db, claim).None?
    requires var later := Run(RetryClaim(db, claim).db, cfg, events);
             claim.inbox in later.inbox && later.inbox[claim.inbox] == RetryClaim(db, claim).db.inbox[claim.inbox]
    ensures RetryClaim(db, claim).result.Ok?
    ensures var later := Run(RetryClaim(db, claim).db, cfg, events);
            ClaimPayment(later, claim.command, inbox, token).result
            == if later.clock < db.clock + PAYMENT_RETRY_BACKOFF
               then Ok(Answered(PaymentResult(claim.inbox, StillProcessing, 202, false)))
               else Ok(Claimed(Claim(claim.inbox, token, claim.generation + 1, PaymentDigest(claim.command),
                   claim.command)))
  {
    hide DbOk, DbEvolves, Moment, Run, PaymentDigest, RowOk;
    MomentIsSound(db, cfg);
    FencePasses(db, claim);
    FenceIsHonest(db, claim);
    HeldEventIsKnown(db, claim);
    var back := RetryClaim(db, claim).db;
    RetryKeepsDb(db, claim);
    RunKeepsDb(back, cfg, events);
    EventLater(back, Run(back, cfg, events), KeyOf(claim.command));
  }

  lemma HeldEventIsKnown(db: Db, claim: Claim)
    requires DbOk(db) && Fence(db, claim).None?
    ensures KeyOf(claim.command) in db.events && db.events[KeyOf(claim.command)] == claim.inbox
  {
    hide ShelvesOk, RowOk, CompensationsOk, ReceiptsOk, LosersOk, PaymentDigest;
  }

  lemma EventLater(a: Db, b: Db, k: EventKey)
    requires DbEvolves(a, b) && k in a.events
    ensures k in b.events && b.events[k] == a.events[k]
  {
    hide Evolves, RowEvolves;
  }

  /** No payment reference is accepted by two attempts, on any two products. */
  lemma ReferencesAreUnique(db: Db, cfg: Config, x: Uuid, i: nat, y: Uuid, j: nat)
    requires Moment(db, cfg) && x in db.products && y in db.products
    requires i < |db.products[x].attempts| && j < |db.products[y].attempts|
    requires db.products[x].attempts[i].state.Purchased? && db.products[y].attempts[j].state.Purchased?
    requires db.products[x].attempts[i].accepted == db.products[y].attempts[j].accepted
    ensures x == y && i == j
  {
    MomentIsSound(db, cfg);
    PurchasedIsListed(db, x, i);
    PurchasedIsListed(db, y, j);
    SameIdSameRow(db, x, i, y, j);
  }

  lemma SameIdSameRow(db: Db, x: Uuid, i: nat, y: Uuid, j: nat)
    requires DbOk(db) && x in db.products && y in db.products
    requires i < |db.products[x].attempts| && j < |db.products[y].attempts|
    requires db.products[x].attempts[i].id == db.products[y].attempts[j].id
    ensures x == y && i == j
  {
    hide InboxOk, SalesOk;
    assert db.home[db.products[x].attempts[i].id] == x && db.home[db.products[y].attempts[j].id] == y
        by { hide ProductsOk; }
    StoredProductOk(db, x);
    assert Identified(db.products[x]);
    hide ProductsOk, HomesOk, ProductOk;
  }

  /** How a finished event for a successful payment was settled: it bought its attempt, or found it bought,
      under its own reference; or it is owed back, with exactly one compensation row; or its attempt was
      unknown. Only the second way leaves a compensation row. */
  ghost predicate SettledSuccess(db: Db, id: Uuid) {
    id in db.inbox && db.inbox[id].response.Some?
    && var c := db.inbox[id].command;
       match db.inbox[id].response.value
       case Accepted => SoldUnder(db, c.attempt, RefOf(c)) && CountCompensations(db.compensations, id) == 0
       case AlreadyAccepted => SoldUnder(db, c.attempt, RefOf(c)) && CountCompensations(db.compensations, id) == 0
       case CompensationRequired => CountCompensations(db.compensations, id) == 1
       case AttemptUnknown => CountCompensations(db.compensations, id) == 0
       case _ => false
  }

  /** Every finished event is settled in exactly one of these ways, the race lost on the unique index and its
      second transaction included; events for failed payments never buy and are never owed back. */
  lemma PaymentsAreSettled(db: Db, cfg: Config, id: Uuid)
    requires Moment(db, cfg) && id in db.inbox && Finished(db.inbox[id])
    ensures db.inbox[id].command.outcome.Succeeded? ==> SettledSuccess(db, id)
    ensures db.inbox[id].command.outcome.Failed? ==>
              db.inbox[id].response.Some? && FailureCode(db.inbox[id].response.value)
              && CountCompensations(db.compensations, id) == 0
  {
    MomentIsSound(db, cfg);
    StoredRowOk(db, id);
    var c := db.inbox[id].command;
    CompensationCount(db, id);
    if c.outcome.Succeeded? && (db.inbox[id].response.value.Accepted? || db.inbox[id].response.value.AlreadyAccepted?) {
      AcceptedIsSold(db, id);
    }
    hide DbOk, Moment, PaymentDigest, SoldUnder;
  }

  lemma CompensationCount(db: Db, id: Uuid)
    requires DbOk(db)
    ensures CountCompensations(db.compensations, id) == (if AnsweredWith(db, id, CompensationRequired) then 1 else 0)
  {
    hide ShelvesOk, RowsOk, ReceiptsOk, LosersOk;
  }

  lemma AcceptedIsSold(db: Db, id: Uuid)
    requires DbOk(db) && id in db.inbox && db.inbox[id].command.outcome.Succeeded?
    requires AnsweredWith(db, id, Accepted) || AnsweredWith(db, id, AlreadyAccepted)
    ensures var c := db.inbox[id].command;
            RefOf(c) in db.accepted && db.accepted[RefOf(c)] == c.attempt && SoldUnder(db, c.attempt, RefOf(c))
  {
    hide ProductsOk, HomesOk, RowsOk, CompensationsOk, LosersOk, SoldUnder;
    assert SalesOk(db) && ReceiptsOk(db);
  }

  /** Every purchase was paid for by exactly one accepted event, the one that carries its reference. */
  lemma EveryPurchaseIsPaidOnce(db: Db, cfg: Config, x: Uuid, i: nat) returns (id: Uuid)
    requires Moment(db, cfg) && x in db.products && i < |db.products[x].attempts|
    requires db.products[x].attempts[i].state.Purchased?
    ensures var a := db.products[x].attempts[i];
            && a.accepted.Some? && Bought(db, id, a.accepted.value) && db.inbox[id].command.attempt == a.id
            && forall other :: Bought(db, other, a.accepted.value) ==> other == id
  {
    MomentIsSound(db, cfg);
    PurchasedIsListed(db, x, i);
    id := Receipt(db, db.products[x].attempts[i].accepted.value);
    hide DbOk, Moment;
  }

  lemma Receipt(db: Db, ref: PaymentRef) returns (id: Uuid)
    requires DbOk(db) && ref in db.accepted
    ensures Bought(db, id, ref) && db.inbox[id].command.attempt == db.accepted[ref]
    ensures forall other :: Bought(db, other, ref) ==> other == id
  {
    hide ShelvesOk, RowsOk, CompensationsOk, LosersOk;
    id :| Bought(db, id, ref);
  }

  /** A worker's second transaction owes the money back for a reason: the reference that it paid with belongs,
      for good, to another attempt. */
  lemma ForcedCompensationIsJustified(db: Db, cfg: Config, claim: Claim)
    requires Moment(db, cfg) && ForceCompensation(db, cfg, claim).result.Ok?
    ensures var e := ForceCompensation(db, cfg, claim).db;
            && AnsweredWith(e, claim.inbox, CompensationRequired)
            && RefOf(claim.command) in e.accepted && e.accepted[RefOf(claim.command)] != claim.command.attempt
            && SoldUnder(e, e.accepted[RefOf(claim.command)], RefOf(claim.command))
  {
    MomentIsSound(db, cfg);
    LosersPaid(db, claim);
    ForceCompensationIsSound(db, cfg, claim);
    ForcedCode(db, cfg, claim);
    var e := ForceCompensation(db, cfg, claim).db;
    RefLater(db, e, RefOf(claim.command));
    ListedIsSold(e, RefOf(claim.command));
    hide DbOk, Moment, DbEvolves, ForceCompensation;
  }

  lemma ForcedCode(db: Db, cfg: Config, claim: Claim)
    ensures ForceCompensation(db, cfg, claim).result.Ok? ==>
              ForceCompensation(db, cfg, claim).result.value.code == CompensationRequired
  {
    hide Reconcile, First;
  }

  lemma RefLater(a: Db, b: Db, ref: PaymentRef)
    requires DbEvolves(a, b) && ref in a.accepted
    ensures ref in b.accepted && b.accepted[ref] == a.accepted[ref]
  {
    hide Evolves, RowEvolves;
  }

  lemma ListedIsSold(db: Db, ref: PaymentRef)
    requires DbOk(db) && ref in db.accepted
    ensures SoldUnder(db, db.accepted[ref], ref)
  {
    hide InboxOk, ProductsOk, HomesOk, SoldUnder;
  }
}
