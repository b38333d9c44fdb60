/** The load-test verifier: its checks as programs, what each of them decides, and why every state that the
    queue can reach passes them. */
module Verifier {
  import opened Wrappers
  import opened Domain
  import Framing

  const DETAIL_LIMIT: nat := 20
  const SLASH: Byte := 47

  datatype ProductSnapshot = ProductSnapshot(id: Uuid, stock: int, reserved: int, nextSequence: int)

  /** A line of the report. */
  datatype Violation =
    | NegativeStock(product: Uuid) | NegativeReserved(product: Uuid) | ReservedExceedsStock(product: Uuid)
    | MultipleActive(key: Text) | DuplicateSequence(key: Text)
    | WrongMaximum(product: Uuid, maximum: int, count: int) | WrongNext(product: Uuid, next: int, expected: int)
    | WrongOrder(product: Uuid) | SharedKey(key: Text) | ImpossibleStamps(attempt: Uuid, state: State)

  datatype Check = Check(passed: bool, violations: seq<Violation>)

  function MakeCheck(violations: seq<Violation>): Check { Check(|violations| == 0, violations) }

  /** Keeps the first DETAIL_LIMIT violations; a check that failed stays failed. */
  function AppendViolation(violations: seq<Violation>, v: Violation): (r: seq<Violation>)
    ensures r != [] && violations <= r
    ensures |violations| <= DETAIL_LIMIT ==> |r| <= DETAIL_LIMIT
  {
    if |violations| < DETAIL_LIMIT then violations + [v] else violations
  }

  /** A Go map yields 0 for a key it does not hold. */
  function Value(m: map<Text, int>, k: Text): int { if k in m then m[k] else 0 }

  // ---------------------------------------------------------------------------------------------
  // The keys under which attempts are looked up
  // ---------------------------------------------------------------------------------------------

  function ActiveKey(a: Attempt): Text { a.user + [SLASH] + a.product }

  function SequenceKey(a: Attempt): Text { a.product + [SLASH] + Framing.FormatInt(a.sequence) }

  function JoinKey(a: Attempt): Text { a.user + [SLASH] + a.product + [SLASH] + a.key }

  /** The length of a canonical UUID. */
  predicate IsUuid(t: Text) { |t| == 36 }

  lemma SplitAt(a: Text, b: Text, c: Text, d: Text)
    requires a + b == c + d && |a| == |c|
    ensures a == c && b == d
  {
    assert a == (a + b)[..|a|] && b == (a + b)[|a|..];
    assert c == (c + d)[..|c|] && d == (c + d)[|c|..];
  }

  lemma ActiveKeyIdentifies(a: Attempt, b: Attempt)
    requires IsUuid(a.user) && IsUuid(b.user)
    ensures ActiveKey(a) == ActiveKey(b) <==> a.user == b.user && a.product == b.product
  {
    if ActiveKey(a) == ActiveKey(b) {
      SplitAt(a.user + [SLASH], a.product, b.user + [SLASH], b.product);
      SplitAt(a.user, [SLASH], b.user, [SLASH]);
    }
  }

  lemma JoinKeyIdentifies(a: Attempt, b: Attempt)
    requires IsUuid(a.user) && IsUuid(b.user) && IsUuid(a.product) && IsUuid(b.product)
    ensures JoinKey(a) == JoinKey(b) <==> a.user == b.user && a.product == b.product && a.key == b.key
  {
    if JoinKey(a) == JoinKey(b) {
      SplitAt(ActiveKey(a) + [SLASH], a.key, ActiveKey(b) + [SLASH], b.key);
      SplitAt(ActiveKey(a), [SLASH], ActiveKey(b), [SLASH]);
      ActiveKeyIdentifies(a, b);
    }
  }

  /** The digits hold no slash, so the last slash separates them from the product, whatever that is. */
  lemma SequenceKeyIdentifies(a: Attempt, b: Attempt)
    ensures SequenceKey(a) == SequenceKey(b) <==> a.product == b.product && a.sequence == b.sequence
  {
    if SequenceKey(a) == SequenceKey(b) {
      var x, y := Framing.FormatInt(a.sequence), Framing.FormatInt(b.sequence);
      NoSlash(a.sequence);
      NoSlash(b.sequence);
      var k := SequenceKey(a);
      assert k[|a.product|] == SLASH && k[|b.product|] == SLASH;
      assert forall i :: |a.product| < i < |k| ==> k[i] == x[i - |a.product| - 1];
      assert forall i :: |b.product| < i < |k| ==> k[i] == y[i - |b.product| - 1];
      SplitAt(a.product + [SLASH], x, b.product + [SLASH], y);
      SplitAt(a.product, [SLASH], b.product, [SLASH]);
      Framing.FormatIntInjective(a.sequence, b.sequence);
    }
  }

  lemma NoSlash(n: int)
    ensures forall i :: 0 <= i < |Framing.FormatInt(n)| ==> Framing.FormatInt(n)[i] != SLASH
  {
  }

  // ---------------------------------------------------------------------------------------------
  // Inventory, active attempts, idempotency
  // ---------------------------------------------------------------------------------------------

  predicate InBounds(p: ProductSnapshot) { 0 <= p.reserved <= p.stock }

  predicate InventorySound(products: seq<ProductSnapshot>) {
    forall i :: 0 <= i < |products| ==> InBounds(products[i])
  }

  method CheckInventory(products: seq<ProductSnapshot>) returns (check: Check)
    ensures check.passed <==> InventorySound(products)
    ensures check.passed <==> check.violations == []
    ensures |check.violations| <= DETAIL_LIMIT
  {
    var violations: seq<Violation> := [];
    for i := 0 to |products|
      invariant violations == [] <==> forall k :: 0 <= k < i ==> InBounds(products[k])
      invariant |violations| <= DETAIL_LIMIT
    {
      var p := products[i];
      if p.stock < 0 {
        violations := AppendViolation(violations, NegativeStock(p.id));
      }
      if p.reserved < 0 {
        violations := AppendViolation(violations, NegativeReserved(p.id));
      }
      if p.reserved > p.stock {
        violations := AppendViolation(violations, ReservedExceedsStock(p.id));
      }
    }
    check := MakeCheck(violations);
  }

  predicate OneActive(attempts: seq<Attempt>) {
    forall i, j :: 0 <= i < j < |attempts| && IsActive(attempts[i].state) && IsActive(attempts[j].state) ==>
      ActiveKey(attempts[i]) != ActiveKey(attempts[j])
  }

  /** `counts` holds exactly the keys of the active attempts among the first `n`. */
  ghost predicate CountsActive(counts: map<Text, int>, attempts: seq<Attempt>, n: nat)
    requires n <= |attempts|
  {
    && (forall k :: k in counts ==> counts[k] >= 1)
    && (forall k :: k in counts ==>
          exists i :: 0 <= i < n && IsActive(attempts[i].state) && ActiveKey(attempts[i]) == k)
    && (forall i :: 0 <= i < n && IsActive(attempts[i].state) ==> ActiveKey(attempts[i]) in counts)
  }

  lemma OneMoreActive(counts: map<Text, int>, attempts: seq<Attempt>, n: nat)
    requires n < |attempts| && CountsActive(counts, attempts, n)
    ensures var key := ActiveKey(attempts[n]);
            if IsActive(attempts[n].state) then
              && CountsActive(counts[key := Value(counts, key) + 1], attempts, n + 1)
              && (OneActive(attempts[..n + 1]) <==> OneActive(attempts[..n]) && key !in counts)
            else CountsActive(counts, attempts, n + 1) && (OneActive(attempts[..n + 1]) <==> OneActive(attempts[..n]))
  {
    hide ActiveKey, IsActive;
    var key, s := ActiveKey(attempts[n]), attempts[..n + 1];
    if key in counts {
      var i :| 0 <= i < n && IsActive(attempts[i].state) && ActiveKey(attempts[i]) == key;
      assert s[i] == attempts[i] && s[n] == attempts[n];
    }
    forall k, l | 0 <= k < l < n ensures s[k] == attempts[..n][k] && s[l] == attempts[..n][l] {}
    if IsActive(attempts[n].state) {
      CountOneActive(counts, attempts, n);
    }
  }

  lemma CountOneActive(counts: map<Text, int>, attempts: seq<Attempt>, n: nat)
    requires n < |attempts| && CountsActive(counts, attempts, n) && IsActive(attempts[n].state)
    ensures CountsActive(counts[ActiveKey(attempts[n]) := Value(counts, ActiveKey(attempts[n])) + 1], attempts, n + 1)
  {
    hide ActiveKey, IsActive;
    var key := ActiveKey(attempts[n]);
    var next := counts[key := Value(counts, key) + 1];
    forall k | k in next
      ensures exists i :: 0 <= i < n + 1 && IsActive(attempts[i].state) && ActiveKey(attempts[i]) == k
    {
      if k != key {
        var i :| 0 <= i < n && IsActive(attempts[i].state) && ActiveKey(attempts[i]) == k;
        assert ActiveKey(attempts[i]) == k;
      }
    }
  }

  lemma NobodyActive(attempts: seq<Attempt>)
    ensures CountsActive(map[], attempts, 0) && OneActive(attempts[..0])
  {
  }

  method CheckActiveAttempts(attempts: seq<Attempt>) returns (check: Check)
    ensures check.passed <==> OneActive(attempts)
    ensures check.passed <==> check.violations == []
    ensures |check.violations| <= DETAIL_LIMIT
  {
    NobodyActive(attempts);
    var counts: map<Text, int> := map[];
    var violations: seq<Violation> := [];
    for n := 0 to |attempts|
      invariant CountsActive(counts, attempts, n)
      invariant violations == [] <==> OneActive(attempts[..n])
      invariant |violations| <= DETAIL_LIMIT
    {
      OneMoreActive(counts, attempts, n);
      var a := attempts[n];
      var key := ActiveKey(a);
      assert key in counts ==> counts[key] >= 1;
      hide ActiveKey, OneActive, CountsActive;
      if IsActive(a.state) {
        counts := counts[key := Value(counts, key) + 1];
        if counts[key] > 1 {
          violations := AppendViolation(violations, MultipleActive(key));
        }
      }
    }
    assert attempts[..|attempts|] == attempts;
    check := MakeCheck(violations);
  }

  predicate KeysAgree(attempts: seq<Attempt>) {
    forall i, j :: 0 <= i < j < |attempts| && JoinKey(attempts[i]) == JoinKey(attempts[j]) ==>
      attempts[i].id == attempts[j].id
  }

  /** `seen` holds, for every key among the first `n` attempts, the id of one that has it. */
  ghost predicate Remembers(seen: map<Text, Uuid>, attempts: seq<Attempt>, n: nat)
    requires n <= |attempts|
  {
    && (forall i :: 0 <= i < n ==> JoinKey(attempts[i]) in seen)
    && (forall k :: k in seen ==> exists i :: 0 <= i < n && JoinKey(attempts[i]) == k && seen[k] == attempts[i].id)
  }

  lemma RememberOne(seen: map<Text, Uuid>, attempts: seq<Attempt>, n: nat)
    requires n < |attempts| && Remembers(seen, attempts, n)
    ensures Remembers(seen[JoinKey(attempts[n]) := attempts[n].id], attempts, n + 1)
  {
    hide JoinKey;
    var key := JoinKey(attempts[n]);
    var next := seen[key := attempts[n].id];
    forall k | k in next ensures exists i :: 0 <= i < n + 1 && JoinKey(attempts[i]) == k && next[k] == attempts[i].id {
      if k != key {
        var i :| 0 <= i < n && JoinKey(attempts[i]) == k && seen[k] == attempts[i].id;
        assert JoinKey(attempts[i]) == k && next[k] == attempts[i].id;
      } else {
        assert JoinKey(attempts[n]) == k;
      }
    }
  }

  lemma OneMoreKey(seen: map<Text, Uuid>, attempts: seq<Attempt>, n: nat)
    requires n < |attempts| && Remembers(seen, attempts, n)
    ensures var key := JoinKey(attempts[n]);
            KeysAgree(attempts[..n + 1]) <==> KeysAgree(attempts[..n]) && !(key in seen && seen[key] != attempts[n].id)
  {
    hide JoinKey;
    var key, s := JoinKey(attempts[n]), attempts[..n + 1];
    if key in seen {
      var i :| 0 <= i < n && JoinKey(attempts[i]) == key && seen[key] == attempts[i].id;
      assert s[i] == attempts[i] && s[n] == attempts[n];
      assert attempts[..n][i] == attempts[i];
      forall k | 0 <= k < n && JoinKey(s[k]) == key && KeysAgree(attempts[..n]) ensures s[k].id == seen[key] {
        assert attempts[..n][k] == s[k];
      }
    }
    forall k, l | 0 <= k < l < n ensures s[k] == attempts[..n][k] && s[l] == attempts[..n][l] {}
  }

  method CheckIdempotency(attempts: seq<Attempt>) returns (check: Check)
    ensures check.passed <==> KeysAgree(attempts)
    ensures check.passed <==> check.violations == []
    ensures |check.violations| <= DETAIL_LIMIT
  {
    hide JoinKey, KeysAgree, Remembers;
    var seen: map<Text, Uuid> := map[];
    var violations: seq<Violation> := [];
    NothingSeen(attempts);
    for n := 0 to |attempts|
      invariant Remembers(seen, attempts, n)
      invariant violations == [] <==> KeysAgree(attempts[..n])
      invariant |violations| <= DETAIL_LIMIT
    {
      RememberOne(seen, attempts, n);
      OneMoreKey(seen, attempts, n);
      var a := attempts[n];
      var key := JoinKey(a);
      if key in seen && seen[key] != a.id {
        violations := AppendViolation(violations, SharedKey(key));
      }
      seen := seen[key := a.id];
    }
    assert attempts[..|attempts|] == attempts;
    check := MakeCheck(violations);
  }

  lemma NothingSeen(attempts: seq<Attempt>)
    ensures Remembers(map[], attempts, 0) && KeysAgree(attempts[..0])
  {
  }

  // ---------------------------------------------------------------------------------------------
  // States and timestamps
  // ---------------------------------------------------------------------------------------------

  predicate ValidPair(start: Option<Time>, deadline: Option<Time>) {
    start.Some? && deadline.Some? && deadline.value > start.value
  }

  predicate DeadlineReached(terminal: Option<Time>, deadline: Option<Time>) {
    terminal.Some? && deadline.Some? && terminal.value >= deadline.value
  }

  /** The timestamps that go with a state. The accepted provider and reference are one optional pair. */
  predicate StampsFit(a: Attempt) {
    && a.createdAt <= a.updatedAt
    && (IsActive(a.state) <==> a.terminalReason.None?)
    && (!a.state.Purchased? ==> a.accepted.None?)
    && match a.state
       case Waiting => a.invitedAt.None? && a.checkoutStartedAt.None? && a.terminalAt.None? && a.purchasedAt.None?
       case Invited => ValidPair(a.invitedAt, a.invitationDeadline) && a.checkoutStartedAt.None? && a.terminalAt.None?
       case Checkout =>
         ValidPair(a.invitedAt, a.invitationDeadline) && ValidPair(a.checkoutStartedAt, a.checkoutDeadline)
         && a.terminalAt.None?
       case Purchased =>
         a.invitedAt.Some? && a.checkoutStartedAt.Some? && a.purchasedAt.Some? && a.purchasedAt == a.terminalAt
         && a.accepted.Some?
       case InviteExpired => a.invitedAt.Some? && a.checkoutStartedAt.None?
           && DeadlineReached(a.terminalAt, a.invitationDeadline)
       case CheckoutExpired => a.invitedAt.Some? && a.checkoutStartedAt.Some?
           && DeadlineReached(a.terminalAt, a.checkoutDeadline)
       case PaymentFailed => a.invitedAt.Some? && a.checkoutStartedAt.Some? && a.terminalAt.Some?
       case Cancelled => a.terminalAt.Some? && a.purchasedAt.None?
       case SoldOut => a.invitedAt.None? && a.checkoutStartedAt.None? && a.terminalAt.Some?
  }

  predicate StampsSound(attempts: seq<Attempt>) { forall i :: 0 <= i < |attempts| ==> StampsFit(attempts[i]) }

  method CheckStateTimestamps(attempts: seq<Attempt>) returns (check: Check)
    ensures check.passed <==> StampsSound(attempts)
    ensures check.passed <==> check.violations == []
    ensures |check.violations| <= DETAIL_LIMIT
  {
    var violations: seq<Violation> := [];
    for n := 0 to |attempts|
      invariant violations == [] <==> forall i :: 0 <= i < n ==> StampsFit(attempts[i])
      invariant |violations| <= DETAIL_LIMIT
    {
      var a := attempts[n];
      var valid := a.updatedAt >= a.createdAt;
      match a.state {
        case Waiting =>
          valid := valid && a.invitedAt.None? && a.checkoutStartedAt.None? && a.terminalAt.None? && a.purchasedAt.None?;
        case Invited =>
          valid := valid && ValidPair(a.invitedAt, a.invitationDeadline) && a.checkoutStartedAt.None?
              && a.terminalAt.None?;
        case Checkout =>
          valid := valid && ValidPair(a.invitedAt, a.invitationDeadline)
              && ValidPair(a.checkoutStartedAt, a.checkoutDeadline)
                   && a.terminalAt.None?;
        case Purchased =>
          valid := valid && a.invitedAt.Some? && a.checkoutStartedAt.Some? && a.purchasedAt.Some? && a.terminalAt.Some?
                   && a.purchasedAt.value == a.terminalAt.value && a.accepted.Some?;
        case InviteExpired =>
          valid := valid && a.invitedAt.Some? && a.invitationDeadline.Some? && a.checkoutStartedAt.None?
                   && DeadlineReached(a.terminalAt, a.invitationDeadline);
        case CheckoutExpired =>
          valid := valid && a.invitedAt.Some? && a.checkoutStartedAt.Some?
              && DeadlineReached(a.terminalAt, a.checkoutDeadline);
        case PaymentFailed =>
          valid := valid && a.invitedAt.Some? && a.checkoutStartedAt.Some? && a.terminalAt.Some?;
        case Cancelled =>
          valid := valid && a.terminalAt.Some? && a.purchasedAt.None?;
        case SoldOut =>
          valid := valid && a.invitedAt.None? && a.checkoutStartedAt.None? && a.terminalAt.Some?;
      }
      if IsActive(a.state) {
        valid := valid && a.terminalReason.None?;
      } else {
        valid := valid && a.terminalReason.Some?;
      }
      if !a.state.Purchased? {
        valid := valid && a.accepted.None?;
      }
      assert valid <==> StampsFit(a);
      if !valid {
        violations := AppendViolation(violations, ImpossibleStamps(a.id, a.state));
      }
    }
    check := MakeCheck(violations);
  }

  // ---------------------------------------------------------------------------------------------
  // Sequences
  // ---------------------------------------------------------------------------------------------

  /** How many attempts belong to a product. */
  function CountOf(attempts: seq<Attempt>, x: Uuid): nat {
    if |attempts| == 0 then 0
    else CountOf(attempts[..|attempts| - 1], x) + (if attempts[|attempts| - 1].product == x then 1 else 0)
  }

  /** The largest sequence among them, or 0. */
  function MaximumOf(attempts: seq<Attempt>, x: Uuid): (r: int)
    ensures r >= 0
    ensures forall i :: 0 <= i < |attempts| && attempts[i].product == x ==> attempts[i].sequence <= r
    ensures r == 0 || exists i :: 0 <= i < |attempts| && attempts[i].product == x && attempts[i].sequence == r
  {
    if |attempts| == 0 then 0
    else
      var rest, last := MaximumOf(attempts[..|attempts| - 1], x), attempts[|attempts| - 1];
      if last.product == x && last.sequence > rest then last.sequence else rest
  }

  predicate NoDuplicates(attempts: seq<Attempt>) {
    forall i, j :: 0 <= i < j < |attempts| ==> SequenceKey(attempts[i]) != SequenceKey(attempts[j])
  }

  predicate Counted(p: ProductSnapshot, attempts: seq<Attempt>) {
    MaximumOf(attempts, p.id) == CountOf(attempts, p.id) && p.nextSequence == Wrap64(MaximumOf(attempts, p.id) + 1)
  }

  predicate SequencesPass(products: seq<ProductSnapshot>, attempts: seq<Attempt>) {
    NoDuplicates(attempts) && forall n :: 0 <= n < |products| ==> Counted(products[n], attempts)
  }

  /** `seen` holds exactly the keys of the first `n` attempts. */
  ghost predicate Listed(seen: set<Text>, attempts: seq<Attempt>, n: nat)
    requires n <= |attempts|
  {
    forall k :: k in seen <==> exists i :: 0 <= i < n && SequenceKey(attempts[i]) == k
  }

  lemma OneMoreSequence(seen: set<Text>, attempts: seq<Attempt>, n: nat)
    requires n < |attempts| && Listed(seen, attempts, n)
    ensures Listed(seen + {SequenceKey(attempts[n])}, attempts, n + 1)
    ensures NoDuplicates(attempts[..n + 1]) <==> NoDuplicates(attempts[..n]) && SequenceKey(attempts[n]) !in seen
  {
    hide SequenceKey;
    var key, s := SequenceKey(attempts[n]), attempts[..n + 1];
    if key in seen {
      var i :| 0 <= i < n && SequenceKey(attempts[i]) == key;
      assert s[i] == attempts[i] && s[n] == attempts[n];
    }
    forall k, l | 0 <= k < l < n ensures s[k] == attempts[..n][k] && s[l] == attempts[..n][l] {}
  }

  /** The two maps describe the first `n` attempts. */
  ghost predicate Tallied(maximum: map<Text, int>, count: map<Text, int>, attempts: seq<Attempt>, n: nat)
    requires n <= |attempts|
  {
    forall x: Uuid :: Value(maximum, x) == MaximumOf(attempts[..n], x) && Value(count, x) == CountOf(attempts[..n], x)
  }

  lemma TallyNothing(attempts: seq<Attempt>)
    ensures Tallied(map[], map[], attempts, 0) && Listed({}, attempts, 0) && NoDuplicates(attempts[..0])
  {
  }

  lemma TallyStep(maximum: map<Text, int>, count: map<Text, int>, attempts: seq<Attempt>, n: nat)
    requires n < |attempts| && Tallied(maximum, count, attempts, n)
    ensures var a := attempts[n];
            var larger := if a.sequence > Value(maximum, a.product) then a.sequence else Value(maximum, a.product);
            Tallied(maximum[a.product := larger], count[a.product := Value(count, a.product) + 1], attempts, n + 1)
  {
    var a := attempts[n];
    var larger := if a.sequence > Value(maximum, a.product) then a.sequence else Value(maximum, a.product);
    var maximum', count' := maximum[a.product := larger], count[a.product := Value(count, a.product) + 1];
    forall x: Uuid
      ensures Value(maximum', x) == MaximumOf(attempts[..n + 1], x) && Value(count', x) == CountOf(attempts[..n + 1], x)
    {
      assert attempts[..n + 1][..n] == attempts[..n];
      assert Value(maximum, x) == MaximumOf(attempts[..n], x);
    }
  }

  lemma TallyTells(maximum: map<Text, int>, count: map<Text, int>, attempts: seq<Attempt>)
    requires Tallied(maximum, count, attempts, |attempts|)
    ensures forall x: Uuid :: Value(maximum, x) == MaximumOf(attempts, x) && Value(count, x) == CountOf(attempts, x)
  {
    assert attempts[..|attempts|] == attempts;
  }

  method CheckSequences(products: seq<ProductSnapshot>, attempts: seq<Attempt>) returns (check: Check)
    ensures check.passed <==> SequencesPass(products, attempts)
    ensures check.passed <==> check.violations == []
    ensures |check.violations| <= DETAIL_LIMIT
  {
    hide SequenceKey, MaximumOf, CountOf, Wrap64, Tallied, Listed, NoDuplicates;
    var seen: set<Text> := {};
    var maximum: map<Text, int>, count: map<Text, int> := map[], map[];
    TallyNothing(attempts);
    var violations: seq<Violation> := [];
    for n := 0 to |attempts|
      invariant Listed(seen, attempts, n)
      invariant Tallied(maximum, count, attempts, n)
      invariant violations == [] <==> NoDuplicates(attempts[..n])
      invariant |violations| <= DETAIL_LIMIT
    {
      var a := attempts[n];
      var key := SequenceKey(a);
      TallyStep(maximum, count, attempts, n);
      OneMoreSequence(seen, attempts, n);
      if key in seen {
        violations := AppendViolation(violations, DuplicateSequence(key));
      }
      seen := seen + {key};
      count := count[a.product := Value(count, a.product) + 1];
      maximum := maximum[a.product :=
        if a.sequence > Value(maximum, a.product) then a.sequence else Value(maximum, a.product)];
    }
    assert attempts[..|attempts|] == attempts;
    assert forall x: Uuid :: Value(maximum, x) == MaximumOf(attempts, x) && Value(count, x) == CountOf(attempts, x) by {
      TallyTells(maximum, count, attempts);
    }
    for n := 0 to |products|
      invariant violations == [] <==> NoDuplicates(attempts) && forall m :: 0 <= m < n ==>
          Counted(products[m], attempts)
      invariant |violations| <= DETAIL_LIMIT
    {
      var p := products[n];
      if Value(maximum, p.id) != Value(count, p.id) {
        violations := AppendViolation(violations, WrongMaximum(p.id, Value(maximum, p.id), Value(count, p.id)));
      }
      var expected := Wrap64(Value(maximum, p.id) + 1);
      if p.nextSequence != expected {
        violations := AppendViolation(violations, WrongNext(p.id, p.nextSequence, expected));
      }
    }
    check := MakeCheck(violations);
  }

  /** The sequences that the attempts of a product use. */
  function SequencesOf(attempts: seq<Attempt>, x: Uuid): set<int> {
    set i | 0 <= i < |attempts| && attempts[i].product == x :: attempts[i].sequence
  }

  function OneTo(n: nat): (s: set<int>)
    ensures forall k :: k in s <==> 1 <= k <= n
    ensures |s| == n
  {
    if n == 0 then {} else OneTo(n - 1) + {n}
  }

  lemma SequencesGrow(attempts: seq<Attempt>, x: Uuid)
    requires |attempts| > 0
    ensures var rest, last := attempts[..|attempts| - 1], attempts[|attempts| - 1];
            SequencesOf(attempts, x) == SequencesOf(rest, x) + (if last.product == x then {last.sequence} else {})
  {
    var rest := attempts[..|attempts| - 1];
    forall k | k in SequencesOf(rest, x) ensures k in SequencesOf(attempts, x) {
      var i :| 0 <= i < |rest| && rest[i].product == x && rest[i].sequence == k;
      assert attempts[i] == rest[i];
    }
  }

  lemma {:induction false} DistinctSequencesCount(attempts: seq<Attempt>, x: Uuid)
    requires NoDuplicates(attempts)
    ensures |SequencesOf(attempts, x)| == CountOf(attempts, x)
  {
    if |attempts| > 0 {
      var rest, last := attempts[..|attempts| - 1], attempts[|attempts| - 1];
      DistinctSequencesCount(rest, x);
      SequencesGrow(attempts, x);
      if last.product == x && last.sequence in SequencesOf(rest, x) {
        var i :| 0 <= i < |rest| && rest[i].product == x && rest[i].sequence == last.sequence;
        SequenceKeyIdentifies(attempts[i], attempts[|attempts| - 1]);
        assert false;
      }
      hide SequencesOf, NoDuplicates;
    }
  }

  lemma SubsetOfSameSize(s: set<int>, t: set<int>)
    requires s <= t && |s| == |t|
    ensures s == t
  {
    assert |t - s| == |t| - |s|;
  }

  /** A pigeonhole argument: as many distinct positive sequences as the largest of them are exactly 1, 2, ..., n. */
  lemma CountedMeansContiguous(p: ProductSnapshot, attempts: seq<Attempt>)
    requires |attempts| < MAX_INT64 && forall i :: 0 <= i < |attempts| ==> attempts[i].sequence > 0
    requires NoDuplicates(attempts)
    ensures Counted(p, attempts)
       <==> var n := CountOf(attempts, p.id); SequencesOf(attempts, p.id) == OneTo(n) && p.nextSequence == n + 1
  {
    var used, n, top := SequencesOf(attempts, p.id), CountOf(attempts, p.id), MaximumOf(attempts, p.id);
    DistinctSequencesCount(attempts, p.id);
    CountOfBound(attempts, p.id);
    assert used <= OneTo(top);
    if top == n {
      SubsetOfSameSize(used, OneTo(n));
    }
    if used == OneTo(n) && n > 0 {
      assert n in used;
    }
    assert top > 0 ==> top in used;
  }

  lemma {:induction false} CountOfBound(attempts: seq<Attempt>, x: Uuid)
    ensures CountOf(attempts, x) <= |attempts|
  {
    if |attempts| > 0 {
      CountOfBound(attempts[..|attempts| - 1], x);
    }
  }

  /** For positive sequences the check passes if and only if no sequence is used twice in any product and every
      listed product uses exactly 1, 2, ..., n and expects n + 1 next. */
  lemma SequencesPassMeansContiguous(products: seq<ProductSnapshot>, attempts: seq<Attempt>)
    requires |attempts| < MAX_INT64 && forall i :: 0 <= i < |attempts| ==> attempts[i].sequence > 0
    ensures SequencesPass(products, attempts)
       <==> && (forall i, j :: 0 <= i < j < |attempts| && attempts[i].product == attempts[j].product ==>
                  attempts[i].sequence != attempts[j].sequence)
            && (forall m :: 0 <= m < |products| ==>
                  var n := CountOf(attempts, products[m].id);
                  SequencesOf(attempts, products[m].id) == OneTo(n) && products[m].nextSequence == n + 1)
  {
    hide Counted, SequencesOf, OneTo, SequenceKey;
    forall i, j | 0 <= i < j < |attempts|
      ensures SequenceKey(attempts[i]) != SequenceKey(attempts[j])
         <==> !(attempts[i].product == attempts[j].product && attempts[i].sequence == attempts[j].sequence)
    {
      SequenceKeyIdentifies(attempts[i], attempts[j]);
    }
    if NoDuplicates(attempts) {
      forall m | 0 <= m < |products|
        ensures Counted(products[m], attempts)
           <==> var n := CountOf(attempts, products[m].id);
                SequencesOf(attempts, products[m].id) == OneTo(n) && products[m].nextSequence == n + 1
      {
        CountedMeansContiguous(products[m], attempts);
      }
    }
  }

  // ---------------------------------------------------------------------------------------------
  // Creation order
  // ---------------------------------------------------------------------------------------------

  /** The attempts of one product, as they are listed. */
  function Of(attempts: seq<Attempt>, x: Uuid): (r: seq<Attempt>)
    ensures forall a :: a in r <==> a in attempts && a.product == x
  {
    if |attempts| == 0 then []
    else Of(attempts[..|attempts| - 1], x)
         + (if attempts[|attempts| - 1].product == x then [attempts[|attempts| - 1]] else [])
  }

  ghost predicate Grouped(groups: map<Uuid, seq<Attempt>>, attempts: seq<Attempt>) {
    && (forall a :: a in attempts ==> a.product in groups)
    && (forall x :: x in groups ==> groups[x] == Of(attempts, x))
  }

  lemma {:induction false} NoneOf(attempts: seq<Attempt>, x: Uuid)
    requires forall a :: a in attempts ==> a.product != x
    ensures Of(attempts, x) == []
  {
    if |attempts| > 0 {
      NoneOf(attempts[..|attempts| - 1], x);
    }
  }

  lemma GroupOne(groups: map<Uuid, seq<Attempt>>, attempts: seq<Attempt>, a: Attempt)
    requires Grouped(groups, attempts)
    ensures Grouped(groups[a.product := (if a.product in groups then groups[a.product] else []) + [a]], attempts + [a])
  {
    assert (attempts + [a])[..|attempts|] == attempts;
    if a.product !in groups {
      NoneOf(attempts, a.product);
    }
  }

  method AttemptsByProduct(attempts: seq<Attempt>) returns (groups: map<Uuid, seq<Attempt>>)
    ensures Grouped(groups, attempts)
  {
    hide Of;
    groups := map[];
    for n := 0 to |attempts|
      invariant Grouped(groups, attempts[..n])
    {
      var a := attempts[n];
      GroupOne(groups, attempts[..n], a);
      assert attempts[..n + 1] == attempts[..n] + [a];
      hide Grouped;
      groups := groups[a.product := (if a.product in groups then groups[a.product] else []) + [a]];
    }
    assert attempts[..|attempts|] == attempts;
  }

  predicate BySequence(s: seq<Attempt>) { forall i, j :: 0 <= i < j < |s| ==> s[i].sequence <= s[j].sequence }

  lemma InsertKeepsOrder(t: seq<Attempt>, at: nat, a: Attempt)
    requires at <= |t| && BySequence(t)
    requires forall i :: 0 <= i < at ==> t[i].sequence <= a.sequence
    requires forall i :: at <= i < |t| ==> a.sequence <= t[i].sequence
    ensures var r := t[..at] + [a] + t[at..]; BySequence(r) && multiset(r) == multiset(t) + multiset{a}
  {
    assert t == t[..at] + t[at..];
  }

  method InsertBySequence(t: seq<Attempt>, a: Attempt) returns (r: seq<Attempt>)
    requires BySequence(t)
    ensures BySequence(r) && multiset(r) == multiset(t) + multiset{a}
  {
    var at := 0;
    while at < |t| && t[at].sequence <= a.sequence
      invariant 0 <= at <= |t|
      invariant forall i :: 0 <= i < at ==> t[i].sequence <= a.sequence
    {
      at := at + 1;
    }
    InsertKeepsOrder(t, at, a);
    r := t[..at] + [a] + t[at..];
  }

  /** sort.Slice: any arrangement in sequence order. */
  method SortBySequence(s: seq<Attempt>) returns (t: seq<Attempt>)
    ensures Arrangement(s, t)
  {
    t := [];
    assert BySequence(t);
    hide BySequence;
    for n := 0 to |s|
      invariant multiset(t) == multiset(s[..n]) && BySequence(t)
    {
      assert s[..n + 1] == s[..n] + [s[n]];
      t := InsertBySequence(t, s[n]);
    }
    assert s[..|s|] == s;
  }

  predicate CreatedInOrder(t: seq<Attempt>) {
    forall k :: 1 <= k < |t| ==> t[k].createdAt >= t[k - 1].createdAt
  }

  /** Attempts with smaller sequences were not created later. */
  predicate InTurn(s: seq<Attempt>) {
    forall a, b :: a in s && b in s && a.sequence < b.sequence ==> a.createdAt <= b.createdAt
  }

  /** Attempts that share a sequence were created at the same time. */
  predicate TiesAgree(s: seq<Attempt>) {
    forall a, b :: a in s && b in s && a.sequence == b.sequence ==> a.createdAt == b.createdAt
  }

  /** `t` is one of the arrangements the sorter may choose. */
  ghost predicate Arrangement(s: seq<Attempt>, t: seq<Attempt>) { multiset(t) == multiset(s) && BySequence(t) }

  lemma SameElements(s: seq<Attempt>, t: seq<Attempt>)
    requires multiset(s) == multiset(t)
    ensures forall a :: a in s <==> a in t
  {
    forall a ensures a in s <==> a in t {
      assert a in s <==> a in multiset(s);
      assert a in t <==> a in multiset(t);
    }
  }

  lemma {:induction false} CreatedInOrderTelescopes(t: seq<Attempt>, i: nat, j: nat)
    requires CreatedInOrder(t) && i <= j < |t|
    ensures t[i].createdAt <= t[j].createdAt
    decreases j
  {
    if i < j {
      CreatedInOrderTelescopes(t, i, j - 1);
    }
  }

  /** Comparing neighbours in any sequence order decides the order of all pairs, up to ties. */
  lemma NeighboursDecide(s: seq<Attempt>, t: seq<Attempt>)
    requires Arrangement(s, t)
    ensures CreatedInOrder(t) ==> InTurn(s)
    ensures TiesAgree(s) && InTurn(s) ==> CreatedInOrder(t)
  {
    SameElements(s, t);
    if CreatedInOrder(t) {
      forall a, b | a in s && b in s && a.sequence < b.sequence ensures a.createdAt <= b.createdAt {
        var i :| 0 <= i < |t| && t[i] == a;
        var j :| 0 <= j < |t| && t[j] == b;
        CreatedInOrderTelescopes(t, i, j);
      }
    }
    if TiesAgree(s) && InTurn(s) {
      forall k | 1 <= k < |t| ensures t[k].createdAt >= t[k - 1].createdAt {
        assert t[k] in s && t[k - 1] in s;
      }
    }
  }

  /** The check passes whatever the sorter chooses. */
  ghost predicate MustPass(s: seq<Attempt>) { forall t :: Arrangement(s, t) ==> CreatedInOrder(t) }

  /** The check passes for some choice of the sorter. */
  ghost predicate MayPass(s: seq<Attempt>) { exists t :: Arrangement(s, t) && CreatedInOrder(t) }

  /** Swapping two rows with the same sequence gives another arrangement. */
  lemma SwapTies(s: seq<Attempt>, t: seq<Attempt>, i: nat, j: nat)
    requires Arrangement(s, t) && i < |t| && j < |t| && t[i].sequence == t[j].sequence
    ensures Arrangement(s, t[i := t[j]][j := t[i]])
  {
    var u := t[i := t[j]][j := t[i]];
    assert forall k :: 0 <= k < |t| ==> u[k].sequence == t[k].sequence;
    assert multiset(u) == multiset(t);
  }

  /** The check passes whatever the sorter does with ties exactly when creation follows the sequences and ties
      were created at the same time. */
  lemma EveryArrangementPasses(s: seq<Attempt>)
    ensures MustPass(s) <==> InTurn(s) && TiesAgree(s)
  {
    var t := BestArrangement(s);
    SameElements(s, t);
    if InTurn(s) && TiesAgree(s) {
      forall t | Arrangement(s, t) ensures CreatedInOrder(t) {
        NeighboursDecide(s, t);
      }
    }
    if MustPass(s) {
      NeighboursDecide(s, t);
      forall a, b | a in s && b in s && a.sequence == b.sequence ensures a.createdAt == b.createdAt {
        var i :| 0 <= i < |t| && t[i] == a;
        var j :| 0 <= j < |t| && t[j] == b;
        TiesMustAgree(s, t, i, j);
      }
    }
  }

  lemma TiesMustAgree(s: seq<Attempt>, t: seq<Attempt>, i: nat, j: nat)
    requires MustPass(s)
    requires Arrangement(s, t) && i < |t| && j < |t| && t[i].sequence == t[j].sequence
    ensures t[i].createdAt == t[j].createdAt
  {
    var u := t[i := t[j]][j := t[i]];
    SwapTies(s, t, i, j);
    hide Arrangement;
    if i <= j {
      CreatedInOrderTelescopes(t, i, j);
      CreatedInOrderTelescopes(u, i, j);
    } else {
      CreatedInOrderTelescopes(t, j, i);
      CreatedInOrderTelescopes(u, j, i);
    }
  }

  /** The check passes for some choice of the sorter exactly when creation follows the sequences. */
  lemma SomeArrangementPasses(s: seq<Attempt>)
    ensures MayPass(s) <==> InTurn(s)
  {
    if t :| Arrangement(s, t) && CreatedInOrder(t) {
      NeighboursDecide(s, t);
    }
    if InTurn(s) {
      var t := BestArrangement(s);
      SameElements(s, t);
      forall k | 1 <= k < |t| ensures t[k].createdAt >= t[k - 1].createdAt {
        assert t[k] in s && t[k - 1] in s;
      }
      assert Arrangement(s, t) && CreatedInOrder(t);
    }
  }

  /** Sequence order, and creation order among ties. */
  predicate ByAge(t: seq<Attempt>) {
    forall i, j :: 0 <= i < j < |t| ==> NotYounger(t[i], t[j])
  }

  lemma {:induction false} BestArrangement(s: seq<Attempt>) returns (t: seq<Attempt>)
    ensures Arrangement(s, t) && ByAge(t)
  {
    if |s| == 0 {
      t := [];
    } else {
      var rest := BestArrangement(s[..|s| - 1]);
      t := PlaceByAge(rest, s[|s| - 1]);
      assert s == s[..|s| - 1] + [s[|s| - 1]];
    }
  }

  predicate NotYounger(a: Attempt, b: Attempt) {
    a.sequence < b.sequence || (a.sequence == b.sequence && a.createdAt <= b.createdAt)
  }

  lemma {:induction false} PlaceByAge(t: seq<Attempt>, a: Attempt) returns (r: seq<Attempt>)
    requires ByAge(t)
    ensures ByAge(r) && multiset(r) == multiset(t) + multiset{a}
    decreases |t|
  {
    var n := |t| - 1;
    if n < 0 || NotYounger(t[n], a) {
      r := t + [a];
    } else {
      var rest := PlaceByAge(t[..n], a);
      assert t == t[..n] + [t[n]];
      NobodyYounger(t, n, rest, a);
      r := rest + [t[n]];
    }
  }

  lemma NobodyYounger(t: seq<Attempt>, n: nat, rest: seq<Attempt>, a: Attempt)
    requires ByAge(t) && n < |t| && NotYounger(a, t[n]) && multiset(rest) == multiset(t[..n]) + multiset{a}
    ensures forall k :: 0 <= k < |rest| ==> NotYounger(rest[k], t[n])
  {
    forall k | 0 <= k < |rest| ensures NotYounger(rest[k], t[n]) {
      assert rest[k] in multiset(rest);
      if rest[k] != a {
        assert rest[k] in t[..n];
      }
    }
  }

  predicate Fifo(attempts: seq<Attempt>) {
    forall a, b :: a in attempts && b in attempts && a.product == b.product && a.sequence < b.sequence ==>
      a.createdAt <= b.createdAt
  }

  predicate TiesAgreeInProduct(attempts: seq<Attempt>) {
    forall a, b :: a in attempts && b in attempts && a.product == b.product && a.sequence == b.sequence ==>
      a.createdAt == b.createdAt
  }

  /** On the attempts of product `x` the check must pass, or may. */
  ghost predicate MustPassOn(attempts: seq<Attempt>, x: Uuid) { MustPass(Of(attempts, x)) }

  ghost predicate MayPassOn(attempts: seq<Attempt>, x: Uuid) { MayPass(Of(attempts, x)) }

  predicate InTurnOn(attempts: seq<Attempt>, x: Uuid) { InTurn(Of(attempts, x)) }

  predicate TiesAgreeOn(attempts: seq<Attempt>, x: Uuid) { TiesAgree(Of(attempts, x)) }

  /** Over all products: the check must pass exactly when both orders hold, and may pass exactly when the first
      does. */
  lemma VerdictOnListing(attempts: seq<Attempt>)
    ensures (forall x :: MustPassOn(attempts, x)) <==> Fifo(attempts) && TiesAgreeInProduct(attempts)
    ensures (forall x :: MayPassOn(attempts, x)) <==> Fifo(attempts)
  {
    FifoByProduct(attempts);
    TiesByProduct(attempts);
    hide MustPass, MayPass, InTurn, TiesAgree;
    forall x
      ensures MustPassOn(attempts, x) <==> InTurnOn(attempts, x) && TiesAgreeOn(attempts, x)
      ensures MayPassOn(attempts, x) <==> InTurnOn(attempts, x)
    {
      EveryArrangementPasses(Of(attempts, x));
      SomeArrangementPasses(Of(attempts, x));
    }
    hide *;
  }

  lemma FifoByProduct(attempts: seq<Attempt>)
    ensures Fifo(attempts) <==> forall x :: InTurnOn(attempts, x)
  {
    if forall x :: InTurnOn(attempts, x) {
      forall a, b | a in attempts && b in attempts && a.product == b.product && a.sequence < b.sequence
        ensures a.createdAt <= b.createdAt
      {
        assert InTurnOn(attempts, a.product);
      }
    }
  }

  lemma TiesByProduct(attempts: seq<Attempt>)
    ensures TiesAgreeInProduct(attempts) <==> forall x :: TiesAgreeOn(attempts, x)
  {
    if forall x :: TiesAgreeOn(attempts, x) {
      forall a, b | a in attempts && b in attempts && a.product == b.product && a.sequence == b.sequence
        ensures a.createdAt == b.createdAt
      {
        assert TiesAgreeOn(attempts, a.product);
      }
    }
  }

  /** The failing input: two attempts of a product that share a sequence and were created at different times
      are in order, and pass or fail with the arrangement. */
  lemma TiesLeaveItOpen(a: Attempt, b: Attempt)
    requires a.product == b.product && a.sequence == b.sequence && a.createdAt < b.createdAt
    ensures Fifo([a, b]) && Of([a, b], a.product) == [a, b]
    ensures Arrangement([a, b], [a, b]) && CreatedInOrder([a, b])
    ensures Arrangement([a, b], [b, a]) && !CreatedInOrder([b, a])
  {
    OfTwo(a, b);
    assert multiset([b, a]) == multiset([a, b]);
    var t := [b, a];
    assert t[1].createdAt < t[0].createdAt;
  }

  lemma OfTwo(a: Attempt, b: Attempt)
    requires a.product == b.product
    ensures Of([a, b], a.product) == [a, b]
  {
    assert [a, b][..1] == [a] && [a][..0] == [];
    assert Of([a], a.product) == [a];
  }

  /** A check that passes means creation in sequence order; the converse needs ties that were created at the
      same time, because the order of ties is the sorter's choice (VerdictOnListing shows that it needs no less). */
  method CheckFIFO(attempts: seq<Attempt>) returns (check: Check)
    ensures check.passed ==> Fifo(attempts)
    ensures TiesAgreeInProduct(attempts) && Fifo(attempts) ==> check.passed
    ensures check.passed <==> check.violations == []
    ensures |check.violations| <= DETAIL_LIMIT
  {
    hide CreatedInOrder, Arrangement;
    var byProduct := AttemptsByProduct(attempts);
    var violations: seq<Violation> := [];
    var left := byProduct.Keys;
    while left != {}
      invariant left <= byProduct.Keys
      invariant violations == [] ==> forall x :: x in byProduct && x !in left ==> InTurn(byProduct[x])
      invariant TiesAgreeInProduct(attempts) && Fifo(attempts) ==> violations == []
      invariant |violations| <= DETAIL_LIMIT
      decreases |left|
    {
      var x :| x in left;
      left := left - {x};
      var productAttempts := SortBySequence(byProduct[x]);
      NeighboursDecide(byProduct[x], productAttempts);
      violations := CompareNeighbours(violations, productAttempts, x);
    }
    assert violations == [] ==> Fifo(attempts);
    check := MakeCheck(violations);
  }

  method CompareNeighbours(before: seq<Violation>, t: seq<Attempt>, x: Uuid) returns (violations: seq<Violation>)
    requires |before| <= DETAIL_LIMIT
    ensures violations == [] <==> before == [] && CreatedInOrder(t)
    ensures |violations| <= DETAIL_LIMIT
  {
    violations := before;
    var index := 1;
    while index < |t|
      invariant 1 <= index
      invariant violations == [] <==> before == [] && forall k :: 1 <= k < index && k < |t| ==>
          t[k].createdAt >= t[k - 1].createdAt
      invariant |violations| <= DETAIL_LIMIT
    {
      if t[index].createdAt < t[index - 1].createdAt {
        violations := AppendViolation(violations, WrongOrder(x));
      }
      index := index + 1;
    }
  }

  // ---------------------------------------------------------------------------------------------
  // The verdict
  // ---------------------------------------------------------------------------------------------

  /** Evaluate, as far as the checks above go. */
  method Evaluate(products: seq<ProductSnapshot>, attempts: seq<Attempt>) returns (passed: bool, checks: seq<Check>)
    ensures passed <==> forall k :: 0 <= k < |checks| ==> checks[k].passed
    ensures |checks| == 6
    ensures passed ==> InventorySound(products) && OneActive(attempts) && SequencesPass(products, attempts)
                       && Fifo(attempts) && KeysAgree(attempts) && StampsSound(attempts)
    ensures (InventorySound(products) && OneActive(attempts) && SequencesPass(products, attempts) && Fifo(attempts)
             && KeysAgree(attempts) && StampsSound(attempts) && TiesAgreeInProduct(attempts)) ==> passed
  {
    hide InventorySound, OneActive, SequencesPass, Fifo, KeysAgree, StampsSound, TiesAgreeInProduct;
    var inventory := CheckInventory(products);
    var active := CheckActiveAttempts(attempts);
    var sequences := CheckSequences(products, attempts);
    var fifo := CheckFIFO(attempts);
    var idempotency := CheckIdempotency(attempts);
    var stamps := CheckStateTimestamps(attempts);
    checks := [inventory, active, sequences, fifo, idempotency, stamps];
    passed := true;
    for k := 0 to |checks|
      invariant passed <==> forall i :: 0 <= i < k ==> checks[i].passed
    {
      if !checks[k].passed {
        passed := false;
      }
    }
    assert checks[0] == inventory && checks[1] == active && checks[2] == sequences
        && checks[3] == fifo && checks[4] == idempotency && checks[5] == stamps;
  }
}
