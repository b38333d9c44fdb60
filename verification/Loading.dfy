/** Loading part of a table. A transaction loads the active attempts and the few that its request names;
    these lemmas show that lookups and counts on the loaded rows agree with the whole table. */
module Loading {
  import opened Wrappers
  import opened Domain

  /** What a transaction loads besides the active attempts. */
  datatype Scope = Scope(user: Option<Name>, key: Option<Name>, includeLatest: bool, attempt: Option<Uuid>)

  const ACTIVE_ONLY := Scope(None, None, false, None)

  /** The WHERE clause of the loading query for row `i`. */
  predicate Selected(table: seq<Attempt>, scope: Scope, i: nat)
    requires i < |table|
  {
    || IsActive(table[i].state)
    || (scope.user.Some? && scope.key.Some? && Is(table[i], ReplayOf(scope.user.value, scope.key.value)))
    || (scope.includeLatest && scope.user.Some? && i == Last(table, OwnedBy(scope.user.value)))
    || (scope.attempt.Some? && table[i].id == scope.attempt.value)
  }

  /** `attempts` are the rows of `table` at the increasing positions `slots`. */
  ghost predicate Picked(table: seq<Attempt>, attempts: seq<Attempt>, slots: seq<nat>) {
    && |attempts| == |slots|
    && (forall j :: 0 <= j < |slots| ==> slots[j] < |table| && attempts[j] == table[slots[j]])
    && (forall j, k :: 0 <= j < k < |slots| ==> slots[j] < slots[k])
  }

  /** All rows of kind `k` are loaded. */
  ghost predicate Loaded(table: seq<Attempt>, slots: seq<nat>, k: Kind) {
    forall i :: 0 <= i < |table| && Is(table[i], k) ==> i in slots
  }

  lemma PickedUpdate(table: seq<Attempt>, attempts: seq<Attempt>, slots: seq<nat>, j: nat, b: Attempt)
    requires Picked(table, attempts, slots) && j < |slots|
    ensures Picked(table[slots[j] := b], attempts[j := b], slots)
  {
  }

  lemma {:induction false} PickedCount(table: seq<Attempt>, attempts: seq<Attempt>, slots: seq<nat>, k: Kind)
    requires Picked(table, attempts, slots) && Loaded(table, slots, k)
    ensures Count(attempts, k) == Count(table, k)
    decreases |table|
  {
    if |table| > 0 {
      var n, m := |table| - 1, |slots| - 1;
      var shorter := table[..n];
      hide Is;
      if |slots| > 0 && slots[m] == n {
        forall i | 0 <= i < n && Is(shorter[i], k) ensures i in slots[..m] {
          assert table[i] == shorter[i];
        }
        PickedCount(shorter, attempts[..m], slots[..m], k);
      } else {
        assert n !in slots;
        PickedCount(shorter, attempts, slots, k);
      }
    }
  }

  lemma PickedFirst(table: seq<Attempt>, attempts: seq<Attempt>, slots: seq<nat>, k: Kind)
    requires Picked(table, attempts, slots) && Loaded(table, slots, k)
    ensures First(attempts, k) == |attempts| <==> First(table, k) == |table|
    ensures First(attempts, k) < |attempts| ==> slots[First(attempts, k)] == First(table, k)
  {
    var i, j := First(table, k), First(attempts, k);
    if i < |table| {
      var m :| 0 <= m < |slots| && slots[m] == i;
      assert Is(attempts[m], k);
    }
    if j < |attempts| {
      assert Is(table[slots[j]], k);
    }
  }

  /** The newest loaded row of a kind is the newest of all, as soon as that one is loaded. */
  lemma PickedLast(table: seq<Attempt>, attempts: seq<Attempt>, slots: seq<nat>, k: Kind)
    requires Picked(table, attempts, slots)
    requires Last(table, k) < |table| ==> Last(table, k) in slots
    ensures Last(attempts, k) == |attempts| <==> Last(table, k) == |table|
    ensures Last(attempts, k) < |attempts| ==> slots[Last(attempts, k)] == Last(table, k)
  {
    var i, j := Last(table, k), Last(attempts, k);
    if i < |table| {
      var m :| 0 <= m < |slots| && slots[m] == i;
      assert Is(attempts[m], k);
    }
    if j < |attempts| {
      assert Is(table[slots[j]], k);
    }
  }

  /** Rows that were not loaded were not touched, so what was loaded stays loaded. */
  lemma StillLoaded(table: seq<Attempt>, later: seq<Attempt>, slots: seq<nat>, k: Kind)
    requires Loaded(table, slots, k) && |later| == |table|
    requires forall i :: 0 <= i < |table| && i !in slots ==> later[i] == table[i]
    ensures Loaded(later, slots, k)
  {
  }
}
