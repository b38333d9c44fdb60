/** The notification outbox: leases on its rows, their fencing, and the delay between retries. */
module Outbox {
  import opened Wrappers
  import opened Domain
  import opened Reconciliation

  datatype RowStatus = Pending | Leased | Failed | Sent

  datatype EventType = QueueInvited | CompensationRequired

  /** Why a row was closed or put back; errors are kept as their text. */
  datatype Note = MarkedObsolete | PublicationError(text: Text)

  /** A row of notification_outbox. `deadline` is the invitation deadline in the payload, if it has one. */
  datatype OutboxRow = OutboxRow(
    event: EventType, attempt: Option<Uuid>, deadline: Option<Time>, hash: Text, createdAt: Time,
    status: RowStatus, availableAt: Time, attemptCount: nat, generation: nat,
    token: Option<Uuid>, leaseUntil: Option<Time>, note: Option<Note>, sentAt: Option<Time>)

  datatype Notice = Notice(
    id: Uuid, event: EventType, attempt: Option<Uuid>, deadline: Option<Time>, hash: Text,
    attemptCount: nat, token: Uuid, generation: nat, leaseUntil: Time)

  type Table = map<Uuid, OutboxRow>

  // ---------------------------------------------------------------------------------------------
  // What each statement does to the table
  // ---------------------------------------------------------------------------------------------

  /** The rows a claim may take: waiting rows whose time has come, and leases that have run out. */
  predicate Due(row: OutboxRow, now: Time) {
    || ((row.status.Pending? || row.status.Failed?) && row.availableAt <= now)
    || (row.status.Leased? && Reached(row.leaseUntil, now))
  }

  function Lease(row: OutboxRow, token: Uuid, now: Time, duration: int): OutboxRow {
    row.(status := Leased, token := Some(token), generation := row.generation + 1,
    leaseUntil := Some(now + duration), attemptCount := row.attemptCount + 1, note := None)
  }

  function NoticeOf(id: Uuid, row: OutboxRow): Notice
    requires row.token.Some? && row.leaseUntil.Some?
  {
    Notice(id, row.event, row.attempt, row.deadline, row.hash, row.attemptCount, row.token.value, row.generation,
           row.leaseUntil.value)
  }

  /** The condition in the WHERE clause of every later statement. */
  predicate HoldsLease(rows: Table, n: Notice) {
    n.id in rows && rows[n.id].status.Leased? && rows[n.id].token == Some(n.token)
    && rows[n.id].generation == n.generation && rows[n.id].hash == n.hash
  }

  function Close(row: OutboxRow, note: Option<Note>, now: Time): OutboxRow {
    row.(status := Sent, sentAt := Some(now), leaseUntil := None, token := None, note := note)
  }

  function Reschedule(row: OutboxRow, delay: int, note: Note, now: Time): OutboxRow {
    row.(status := Failed, availableAt := now + delay, leaseUntil := None, token := None, note := Some(note))
  }

  /** finalizeNotification. */
  function Finalize(rows: Table, n: Notice, note: Option<Note>, now: Time): Table {
    if HoldsLease(rows, n) then rows[n.id := Close(rows[n.id], note, now)] else rows
  }

  /** RetryNotification, once its delays are known to be valid. */
  function Postpone(rows: Table, n: Notice, note: Note, base: int, limit: int, now: Time): Table {
    if HoldsLease(rows, n) then
      rows[n.id := Reschedule(rows[n.id], ExponentialBackoff(n.attemptCount, base, limit), note, now)]
    else rows
  }

  /** Attempt `attempt` of the product is invited under exactly this deadline, and the deadline is ahead. */
  predicate InForce(p: Product, attempt: Uuid, deadline: Time, now: Time) {
    exists i :: 0 <= i < |p.attempts| && p.attempts[i].id == attempt && p.attempts[i].state.Invited?
                && p.attempts[i].invitationDeadline == Some(deadline) && now < deadline
  }

  predicate InForceIn(products: map<Uuid, Product>, attempt: Uuid, deadline: Time, now: Time) {
    exists x :: x in products && InForce(products[x], attempt, deadline, now)
  }

  /** The notice announces an invitation that is not in force. */
  predicate Stale(n: Notice, products: map<Uuid, Product>, now: Time) {
    n.event.QueueInvited?
    && !(n.attempt.Some? && n.deadline.Some? && InForceIn(products, n.attempt.value, n.deadline.value, now))
  }

  // ---------------------------------------------------------------------------------------------
  // Backoff
  // ---------------------------------------------------------------------------------------------

  function Pow2(n: nat): (r: int)
    ensures r > 0
  {
    if n == 0 then 1 else 2 * Pow2(n - 1)
  }

  /** exponentialBackoff, with Go's guards and its 64-bit product. */
  function ExponentialBackoff(attemptCount: int, base: int, limit: int): int {
    if attemptCount <= 1 then base
    else
      var exponent: nat := attemptCount - 1;
      if exponent >= 63 || base > limit / Pow2(Min(exponent, 62)) then limit
      else Min(Wrap64(base * Pow2(exponent)), limit)
  }

  lemma {:induction false} Pow2Grows(m: nat, n: nat)
    requires m <= n
    ensures Pow2(m) <= Pow2(n)
    decreases n
  {
    if m < n {
      Pow2Grows(m, n - 1);
    }
  }

  lemma {:induction false} Pow2Adds(m: nat, n: nat)
    ensures Pow2(m + n) == Pow2(m) * Pow2(n)
    decreases n
  {
    if n > 0 {
      Pow2Adds(m, n - 1);
      assert Pow2(m + n) == 2 * Pow2(m + (n - 1)) && Pow2(n) == 2 * Pow2(n - 1);
      hide Pow2;
      assert Pow2(m) * (2 * Pow2(n - 1)) == 2 * (Pow2(m) * Pow2(n - 1));
    }
  }

  lemma WordSize()
    ensures Pow2(63) == MAX_INT64 + 1
  {
    assert Pow2(7) == 128 && Pow2(8) == 256;
    Pow2Adds(8, 7);
    Pow2Adds(8, 8);
    Pow2Adds(16, 15);
    Pow2Adds(16, 16);
    Pow2Adds(32, 31);
  }

  lemma Product64(base: int, power: int, limit: int)
    requires 0 < base && 0 < power && 0 <= limit
    ensures base <= limit / power <==> base * power <= limit
    ensures base * power >= power
  {
    assert limit == power * (limit / power) + limit % power;
    if base > limit / power {
      NonNegativeProduct(power, base - limit / power - 1);
      assert power * base == power * (limit / power) + power + power * (base - limit / power - 1);
    } else {
      NonNegativeProduct(power, limit / power - base);
      assert power * base == power * (limit / power) - power * (limit / power - base);
    }
    NonNegativeProduct(power, base - 1);
    assert base * power == power * (base - 1) + power;
  }

  function Doublings(attemptCount: int): nat { if attemptCount <= 1 then 0 else attemptCount - 1 }

  /** For all delays the callers let through, the retry delay doubles with each attempt until it meets the
      limit, and the 64-bit product never wraps. */
  lemma BackoffIsCappedDoubling(attemptCount: int, base: int, limit: int)
    requires 0 < base <= limit <= MAX_INT64
    ensures ExponentialBackoff(attemptCount, base, limit) == Min(base * Pow2(Doublings(attemptCount)), limit)
    ensures base <= ExponentialBackoff(attemptCount, base, limit) <= limit
  {
    var n := Doublings(attemptCount);
    Product64(base, Pow2(n), limit);
    NonNegativeProduct(base, Pow2(n) - 1);
    assert base * Pow2(n) == base + base * (Pow2(n) - 1);
    if n >= 63 {
      WordSize();
      Pow2Grows(63, n);
    }
  }

  lemma BackoffGrows(m: int, n: int, base: int, limit: int)
    requires 0 < base <= limit <= MAX_INT64 && m <= n
    ensures ExponentialBackoff(m, base, limit) <= ExponentialBackoff(n, base, limit)
  {
    BackoffIsCappedDoubling(m, base, limit);
    BackoffIsCappedDoubling(n, base, limit);
    Pow2Grows(Doublings(m), Doublings(n));
    ProductGrows(base, Pow2(Doublings(m)), Pow2(Doublings(n)));
    hide ExponentialBackoff;
  }

  lemma ProductGrows(base: int, a: int, b: int)
    requires 0 <= base && a <= b
    ensures base * a <= base * b
  {
    NonNegativeProduct(base, b - a);
    assert base * b == base * a + base * (b - a);
  }

  // ---------------------------------------------------------------------------------------------
  // The repository
  // ---------------------------------------------------------------------------------------------

  /** The order in which rows are claimed; rows that tie are tried in any order. */
  predicate Older(a: OutboxRow, b: OutboxRow) {
    a.availableAt < b.availableAt || (a.availableAt == b.availableAt && a.createdAt < b.createdAt)
  }

  lemma {:induction false} OldestExists(rows: Table, ids: set<Uuid>) returns (id: Uuid)
    requires ids != {} && ids <= rows.Keys
    ensures id in ids && forall other :: other in ids ==> !Older(rows[other], rows[id])
    decreases |ids|
  {
    var some :| some in ids;
    if ids == {some} {
      id := some;
    } else {
      assert ids - {some} != {};
      var rest := OldestExists(rows, ids - {some});
      id := if Older(rows[some], rows[rest]) then some else rest;
    }
  }

  class NotificationOutboxRepository {
    var rows: Table

    constructor (rows: Table)
      ensures this.rows == rows
    {
      this.rows := rows;
    }

    /** ClaimNotification: leases one of the oldest due rows that no other transaction holds locked, and finds
        none only when there is none. */
    method ClaimNotification(now: Time, duration: int, token: Uuid,
        locked: set<Uuid>) returns (result: Result<Option<Notice>>)
      modifies this`rows
      ensures result.Err? <==> duration <= 0
      ensures result.Err? || result.value.None? ==> rows == old(rows)
      ensures result == Ok(None) ==> forall id :: id in rows && id !in locked ==> !Due(rows[id], now)
      ensures result.Ok? && result.value.Some? ==>
                var n := result.value.value;
                && n.id in old(rows) && n.id !in locked && Due(old(rows)[n.id], now)
                && (forall other :: other in old(rows) && other !in locked && Due(old(rows)[other], now) ==>
                      !Older(old(rows)[other], old(rows)[n.id]))
                && rows == old(rows)[n.id := Lease(old(rows)[n.id], token, now, duration)]
                && n == NoticeOf(n.id, rows[n.id]) && HoldsLease(rows, n)
                && n.token == token && n.leaseUntil == now + duration
                && n.generation == old(rows)[n.id].generation + 1 && n.attemptCount == old(rows)[n.id].attemptCount + 1
    {
      if duration <= 0 {
        return Err(InvalidInput);
      }
      var candidates := set id | id in rows && id !in locked && Due(rows[id], now);
      if candidates == {} {
        forall id | id in rows && id !in locked ensures !Due(rows[id], now) {
          assert id !in candidates;
        }
        return Ok(None);
      }
      ghost var oldest := OldestExists(rows, candidates);
      var id :| id in candidates && forall other :: other in candidates ==> !Older(rows[other], rows[id]);
      rows := rows[id := Lease(rows[id], token, now, duration)];
      result := Ok(Some(NoticeOf(id, rows[id])));
    }

    /** ClassifyInvitation: an invitation notice is obsolete unless the invitation it announces is in force in
        the queue; other notices never are. */
    method ClassifyInvitation(n: Notice, products: map<Uuid, Product>, now: Time) returns (obsolete: bool)
      ensures obsolete <==> Stale(n, products, now)
    {
      if !n.event.QueueInvited? {
        return false;
      }
      if n.attempt.None? || n.deadline.None? {
        return true;
      }
      obsolete := !InForceIn(products, n.attempt.value, n.deadline.value, now);
    }

    method FinalizeNotification(n: Notice, note: Option<Note>, now: Time) returns (result: Result<()>)
      modifies this`rows
      ensures rows == Finalize(old(rows), n, note, now)
      ensures result == if HoldsLease(old(rows), n) then Ok(()) else Err(StaleClaim)
      ensures result.Ok? ==> rows[n.id].status.Sent? && rows[n.id].sentAt == Some(now) && rows[n.id].note == note
      ensures forall id :: id in old(rows) && (id != n.id || result.Err?) ==> id in rows && rows[id] == old(rows)[id]
    {
      if n.id !in rows || !rows[n.id].status.Leased? || rows[n.id].token != Some(n.token)
         || rows[n.id].generation != n.generation || rows[n.id].hash != n.hash {
        return Err(StaleClaim);
      }
      rows := rows[n.id := Close(rows[n.id], note, now)];
      result := Ok(());
    }

    method RetryNotification(n: Notice, error: Text, base: int, limit: int, now: Time) returns (result: Result<int>)
      modifies this`rows
      ensures result.Ok? <==> 0 < base <= limit && HoldsLease(old(rows), n)
      ensures result.Ok? ==>
                && rows == Postpone(old(rows), n, PublicationError(Bounded(error)), base, limit, now)
                && rows[n.id].availableAt == now + result.value
                && (limit <= MAX_INT64 ==> result.value == Min(base * Pow2(Doublings(n.attemptCount)), limit))
      ensures result.Err? ==> rows == old(rows)
    {
      if base <= 0 || limit < base {
        return Err(InvalidInput);
      }
      var delay := ExponentialBackoff(n.attemptCount, base, limit);
      if limit <= MAX_INT64 {
        BackoffIsCappedDoubling(n.attemptCount, base, limit);
      }
      if !HoldsLease(rows, n) {
        return Err(StaleClaim);
      }
      rows := rows[n.id := Reschedule(rows[n.id], delay, PublicationError(Bounded(error)), now)];
      result := Ok(delay);
    }
  }

  const MAX_OUTBOX_ERROR: nat := 500

  function Bounded(text: Text): Text { if |text| > MAX_OUTBOX_ERROR then text[..MAX_OUTBOX_ERROR] else text }
}
