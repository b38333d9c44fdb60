/** The attempt entity, its state changes, and the counting vocabulary shared by every other module. */
module Domain {
  import opened Wrappers

  const MAX_INT32: int := 0x7fff_ffff
  const MAX_INT64: int := 0x7fff_ffff_ffff_ffff

  type Byte = b: int | 0 <= b < 256
  type Text = seq<Byte>
  /** Text that the parsers of the source never let through empty. */
  type Name = t: Text | |t| > 0 witness [1]

  /** A UUID is its canonical lower-case text. */
  type Uuid = Text
  /** Database time in nanoseconds. */
  type Time = int

  datatype State =
    | Waiting | Invited | Checkout
    | Purchased | InviteExpired | CheckoutExpired | PaymentFailed | Cancelled | SoldOut

  datatype PaymentRef = PaymentRef(provider: Text, reference: Text)

  /** A row of queue_attempts. The source always writes the accepted provider and reference together,
      and always uses the name of the terminal state as terminal reason and message. */
  datatype Attempt = Attempt(
    id: Uuid, product: Uuid, sequence: int, user: Name, key: Name, state: State,
    createdAt: Time, updatedAt: Time,
    invitedAt: Option<Time>, invitationDeadline: Option<Time>,
    checkoutStartedAt: Option<Time>, checkoutDeadline: Option<Time>,
    terminalAt: Option<Time>, purchasedAt: Option<Time>,
    accepted: Option<PaymentRef>, terminalReason: Option<State>, version: int)

  /** The time limits of the two rights; configuration loading refuses anything but positive durations. */
  datatype RawConfig = Config(invitationTTL: int, checkoutTTL: int)
  type Config = c: RawConfig | c.invitationTTL > 0 && c.checkoutTTL > 0 witness Config(1, 1)

  predicate IsActive(s: State) { s.Waiting? || s.Invited? || s.Checkout? }

  predicate Reserves(s: State) { s.Invited? || s.Checkout? }

  /** Terminal in the source's sense: neither active nor purchased. */
  predicate IsTerminal(s: State) { !IsActive(s) && !s.Purchased? }

  predicate Reached(deadline: Option<Time>, now: Time) { deadline.Some? && deadline.value <= now }

  predicate IsEffectiveAt(a: Attempt, now: Time) {
    match a.state
    case Invited => !Reached(a.invitationDeadline, now)
    case Checkout => !Reached(a.checkoutDeadline, now)
    case Waiting => true
    case _ => false
  }

  // ---------------------------------------------------------------------------------------------
  // State changes of one attempt
  // ---------------------------------------------------------------------------------------------

  /** Every change into a terminal state other than a purchase. */
  function Finish(a: Attempt, s: State, now: Time): Attempt {
    a.(state := s, terminalAt := Some(now), terminalReason := Some(s), updatedAt := now, version := a.version + 1)
  }

  function Expire(a: Attempt, now: Time): Attempt {
    Finish(a, if a.state.Invited? then InviteExpired else CheckoutExpired, now)
  }

  function Promote(a: Attempt, now: Time, cfg: Config): Attempt {
    a.(state := Invited, invitedAt := Some(now), invitationDeadline := Some(now + cfg.invitationTTL),
    updatedAt := now, version := a.version + 1)
  }

  function EnterCheckout(a: Attempt, now: Time, cfg: Config): Attempt {
    a.(state := Checkout, checkoutStartedAt := Some(now), checkoutDeadline := Some(now + cfg.checkoutTTL),
    updatedAt := now, version := a.version + 1)
  }

  function Purchase(a: Attempt, ref: PaymentRef, now: Time): Attempt {
    Finish(a, Purchased, now).(purchasedAt := Some(now), accepted := Some(ref))
  }

  function NewWaiting(id: Uuid, product: Uuid, sequence: int, user: Name, key: Name, now: Time): Attempt {
    Attempt(id, product, sequence, user, key, Waiting, now, now, None, None, None, None, None, None, None, None, 1)
  }

  function NewCheckout(id: Uuid, product: Uuid, sequence: int, user: Name, key: Name, now: Time, cfg: Config): Attempt {
    Attempt(id, product, sequence, user, key, Checkout, now, now,
            Some(now), Some(now + cfg.invitationTTL), Some(now), Some(now + cfg.checkoutTTL),
            None, None, None, None, 1)
  }

  // ---------------------------------------------------------------------------------------------
  // Selecting and counting attempts
  // ---------------------------------------------------------------------------------------------

  /** The row predicates used by the lookups, counters and SQL conditions of the source. */
  datatype Kind =
    | Queued | Reserving | Sold | Active
    | Overdue(at: Time)
    | QueuedBefore(sequence: int)
    | OwnedBy(user: Name) | ActiveOf(user: Name) | ReplayOf(user: Name, key: Name) | WithId(id: Uuid)

  predicate Is(a: Attempt, k: Kind) {
    match k
    case Queued => a.state.Waiting?
    case Reserving => Reserves(a.state)
    case Sold => a.state.Purchased?
    case Active => IsActive(a.state)
    case Overdue(at) => (a.state.Invited? && Reached(a.invitationDeadline, at))
                        || (a.state.Checkout? && Reached(a.checkoutDeadline, at))
    case QueuedBefore(sequence) => a.state.Waiting? && a.sequence < sequence
    case OwnedBy(user) => a.user == user
    case ActiveOf(user) => a.user == user && IsActive(a.state)
    case ReplayOf(user, key) => a.user == user && a.key == key
    case WithId(id) => a.id == id
  }

  function Count(s: seq<Attempt>, k: Kind): nat {
    if |s| == 0 then 0 else Count(s[..|s| - 1], k) + (if Is(s[|s| - 1], k) then 1 else 0)
  }

  function FirstFrom(s: seq<Attempt>, k: Kind, from: nat): (r: nat)
    requires from <= |s|
    ensures from <= r <= |s|
    ensures forall j :: from <= j < r ==> !Is(s[j], k)
    ensures r < |s| ==> Is(s[r], k)
    decreases |s| - from
  {
    if from == |s| || Is(s[from], k) then from else FirstFrom(s, k, from + 1)
  }

  /** Position of the first attempt of kind `k`, or |s| when there is none. */
  function First(s: seq<Attempt>, k: Kind): (r: nat)
    ensures r <= |s|
    ensures forall j :: 0 <= j < r ==> !Is(s[j], k)
    ensures r < |s| ==> Is(s[r], k)
  {
    FirstFrom(s, k, 0)
  }

  function LastBefore(s: seq<Attempt>, k: Kind, before: nat): (r: nat)
    requires before <= |s|
    ensures r < before || r == |s|
    ensures r < |s| ==> Is(s[r], k) && forall j :: r < j < before ==> !Is(s[j], k)
    ensures r == |s| ==> forall j :: 0 <= j < before ==> !Is(s[j], k)
  {
    if before == 0 then |s| else if Is(s[before - 1], k) then before - 1 else LastBefore(s, k, before - 1)
  }

  /** Position of the last attempt of kind `k`, or |s| when there is none. */
  function Last(s: seq<Attempt>, k: Kind): (r: nat)
    ensures r <= |s|
    ensures r < |s| ==> Is(s[r], k) && forall j :: r < j < |s| ==> !Is(s[j], k)
    ensures r == |s| ==> forall j :: 0 <= j < |s| ==> !Is(s[j], k)
  {
    LastBefore(s, k, |s|)
  }

  lemma {:induction false} CountAppend(s: seq<Attempt>, a: Attempt, k: Kind)
    ensures Count(s + [a], k) == Count(s, k) + (if Is(a, k) then 1 else 0)
  {
    assert (s + [a])[..|s|] == s;
  }

  lemma {:induction false} CountUpdate(s: seq<Attempt>, i: nat, a: Attempt, k: Kind)
    requires i < |s|
    ensures Count(s[i := a], k)
         == Count(s, k) - (if Is(s[i], k) then 1 else 0) + (if Is(a, k) then 1 else 0)
  {
    if i == |s| - 1 {
      assert s[i := a][..i] == s[..i];
    } else {
      assert s[i := a][..|s| - 1] == s[..|s| - 1][i := a];
      CountUpdate(s[..|s| - 1], i, a, k);
    }
  }

  /** Counting is zero exactly when no attempt is of that kind. */
  lemma {:induction false} CountZero(s: seq<Attempt>, k: Kind)
    ensures Count(s, k) == 0 <==> forall i :: 0 <= i < |s| ==> !Is(s[i], k)
  {
    if |s| > 0 {
      CountZero(s[..|s| - 1], k);
    }
  }

  /** A kind that implies another is counted at most as often, attempt by attempt. */
  lemma {:induction false} CountMonotone(s: seq<Attempt>, j: Kind, t: seq<Attempt>, k: Kind)
    requires |s| <= |t|
    requires forall i :: 0 <= i < |s| && Is(s[i], j) ==> Is(t[i], k)
    ensures Count(s, j) <= Count(t, k)
    decreases |t|
  {
    if |t| > 0 {
      if |s| == |t| {
        CountMonotone(s[..|s| - 1], j, t[..|t| - 1], k);
      } else {
        CountMonotone(s, j, t[..|t| - 1], k);
      }
    }
  }

  /** Prefixes: counts grow along the sequence, strictly at an attempt of the kind. */
  lemma {:induction false} CountPrefix(s: seq<Attempt>, i: nat, k: Kind)
    requires i < |s|
    ensures Count(s[..i + 1], k) == Count(s[..i], k) + (if Is(s[i], k) then 1 else 0)
    ensures Count(s[..i + 1], k) <= Count(s, k)
  {
    assert s[..i + 1] == s[..i] + [s[i]];
    CountAppend(s[..i], s[i], k);
    CountMonotone(s[..i + 1], k, s, k);
  }

  // ---------------------------------------------------------------------------------------------
  // Bounded arithmetic
  // ---------------------------------------------------------------------------------------------

  /** The value that 64-bit two's complement arithmetic leaves of `x`. */
  function Wrap64(x: int): (r: int)
    ensures -MAX_INT64 - 1 <= r <= MAX_INT64
    ensures -MAX_INT64 - 1 <= x <= MAX_INT64 ==> r == x
  {
    (x + MAX_INT64 + 1) % (2 * (MAX_INT64 + 1)) - MAX_INT64 - 1
  }

  /** `WaitingCapacity` of internal/pkg/domain/queue_attempt.go, with Go's order of overflow guards. */
  function WaitingCapacity(stock: int, percent: int): Result<int> {
    if stock < 0 || percent < 0 then Err(InvalidInput)
    else if stock != 0 && percent > MAX_INT64 / stock then Err(InvalidInput)
    else if stock * percent > MAX_INT64 - 99 then Err(InvalidInput)
    else Ok((stock * percent + 99) / 100)
  }

  /** The capacity is the ceiling of stock * percent / 100, and is refused exactly for negative inputs
      and when rounding up would leave the 64-bit range. */
  lemma WaitingCapacityIsCeiling(stock: int, percent: int)
    ensures WaitingCapacity(stock, percent).Ok?
       <==> stock >= 0 && percent >= 0 && stock * percent + 99 <= MAX_INT64
    ensures WaitingCapacity(stock, percent).Ok? ==>
              var c := WaitingCapacity(stock, percent).value;
              0 <= c <= MAX_INT64 && 100 * (c - 1) < stock * percent <= 100 * c
  {
    if stock > 0 && percent > MAX_INT64 / stock {
      DivisionGuard(MAX_INT64, stock, percent);
    } else if stock >= 0 && percent >= 0 {
      NonNegativeProduct(stock, percent);
    }
  }

  lemma DivisionGuard(m: int, d: int, q: int)
    requires m >= 0 && d > 0 && q > m / d
    ensures d * q > m
  {
    assert m == d * (m / d) + m % d;
    NonNegativeProduct(d, q - m / d - 1);
    assert d * q == d * (m / d) + d + d * (q - m / d - 1);
  }

  lemma NonNegativeProduct(a: int, b: int)
    requires a >= 0 && b >= 0
    ensures a * b >= 0
  {
  }

  function NextQueueSequence(current: int): Result<int> {
    if current < 1 then Err(InvalidInput)
    else if current == MAX_INT64 then Err(QueueSequenceExhausted)
    else Ok(current + 1)
  }
}
