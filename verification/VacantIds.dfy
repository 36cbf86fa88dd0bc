/** Finding an unused callback identifier: a pigeonhole argument over distinct successors. */
module VacantIds {
  import opened Bytes
  import opened Options

  type EntryId = nat

  const MAX_PENDING_CALLBACKS: nat := 1024

  /** The next identifier, skipping zero at the wrap. */
  function Successor(id: u64): (n: u64)
    ensures n != 0
  {
    if id == U64_MAX then 1 else id + 1
  }

  function FirstVacant(candidate: u64, live: map<u64, EntryId>, tries: nat): Option<u64>
    decreases tries
  {
    if candidate !in live then Some(candidate)
    else if tries == 0 then None
    else FirstVacant(Successor(candidate), live, tries - 1)
  }

  function Start(nextId: u64): u64 { if nextId == 0 then 1 else nextId }

  function VacantId(nextId: u64, live: map<u64, EntryId>): Option<u64> {
    FirstVacant(Start(nextId), live, |live|)
  }

  /** `id` moved on by `n`. */
  function Advance(id: u64, n: nat): u64
    requires id != 0
  {
    (id - 1 + n) % U64_MAX + 1
  }

  lemma AdvanceSteps(id: u64, n: nat)
    requires id != 0
    ensures Advance(id, 0) == id && Advance(id, n + 1) == Successor(Advance(id, n))
  {
  }

  lemma AdvanceIsInjective(id: u64, m: nat, n: nat)
    requires id != 0 && m < n < U64_MAX
    ensures Advance(id, m) != Advance(id, n)
  {
  }

  /** The candidates already found taken. */
  ghost function Tried(id: u64, n: nat): set<u64>
    requires id != 0
  {
    set i | 0 <= i < n :: Advance(id, i)
  }

  lemma {:induction false} TriedSize(id: u64, n: nat)
    requires id != 0 && n <= U64_MAX
    ensures |Tried(id, n)| == n
  {
    if n > 0 {
      TriedSize(id, n - 1);
      forall i | 0 <= i < n - 1 ensures Advance(id, i) != Advance(id, n - 1) {
        AdvanceIsInjective(id, i, n - 1);
      }
      assert Tried(id, n) == Tried(id, n - 1) + {Advance(id, n - 1)};
    }
  }

  lemma {:induction false} SearchSucceeds(id: u64, n: nat, live: map<u64, EntryId>)
    requires id != 0 && n <= |live| < U64_MAX && Tried(id, n) <= live.Keys
    ensures var r := FirstVacant(Advance(id, n), live, |live| - n);
            && r.Some? && r.value !in live && r.value != 0
            && exists k :: n <= k <= |live| && r.value == Advance(id, k) && Tried(id, k) <= live.Keys
    decreases |live| - n
  {
    var c := Advance(id, n);
    if c in live {
      TriedSize(id, n + 1);
      assert Tried(id, n + 1) == Tried(id, n) + {c};
      SubsetSize(Tried(id, n + 1), live.Keys);
      AdvanceSteps(id, n);
      SearchSucceeds(id, n + 1, live);
    }
  }

  lemma {:induction false} SubsetSize<T>(a: set<T>, b: set<T>)
    requires a <= b
    ensures |a| <= |b|
    decreases a
  {
    if a != {} {
      var x :| x in a;
      SubsetSize(a - {x}, b - {x});
    }
  }

  /** `id` is the `k`-th candidate, the one `next_id` names being number zero, and all before it are taken. */
  ghost predicate FirstFree(nextId: u64, live: map<u64, EntryId>, id: u64, k: nat) {
    var first := if nextId == 0 then 1 else nextId;
    id !in live && id == Advance(first, k) && forall j :: 0 <= j < k ==> Advance(first, j) in live
  }

  /** Whatever `next_id` holds, zero and the wrap-around included, a nonzero unused identifier is found. */
  lemma AlwaysVacant(nextId: u64, live: map<u64, EntryId>)
    requires |live| < U64_MAX
    ensures var r := VacantId(nextId, live);
            && r.Some? && r.value !in live && r.value != 0
            && exists k :: 0 <= k <= |live| && FirstFree(nextId, live, r.value, k)
  {
    var first := Start(nextId);
    AdvanceSteps(first, 0);
    SearchSucceeds(first, 0, live);
    var id := VacantId(nextId, live).value;
    var k :| 0 <= k <= |live| && id == Advance(first, k) && Tried(first, k) <= live.Keys;
    forall j | 0 <= j < k ensures Advance(first, j) in live {
      assert Advance(first, j) in Tried(first, k);
    }
    assert FirstFree(nextId, live, id, k);
  }

  /** The search as the code runs it. */
  method FindVacant(nextId: u64, live: map<u64, EntryId>) returns (r: Option<u64>)
    ensures r == VacantId(nextId, live)
    ensures |live| < U64_MAX ==>
              && r.Some? && r.value !in live && r.value != 0
              && exists k :: 0 <= k <= |live| && FirstFree(nextId, live, r.value, k)
  {
    if |live| < U64_MAX {
      AlwaysVacant(nextId, live);
    }
    var candidate: u64 := if nextId == 0 then 1 else nextId;
    for i := 0 to |live| + 1
      invariant i <= |live| ==> VacantId(nextId, live) == FirstVacant(candidate, live, |live| - i)
      invariant i == |live| + 1 ==> VacantId(nextId, live) == None
    {
      if candidate !in live {
        return Some(candidate);
      }
      candidate := Successor(candidate);
    }
    r := None;
  }
}
