/** Host object handles as a reference ledger: every reference taken is held, released, or refused its release. */
module HandleLedger {
  import opened Bytes
  import opened Options
  import opened Counting
  import opened BridgeValue

  datatype Ref = Ref(objectId: u64, generation: u64)

  /** A context's handle callbacks and the references taken and given back through it, by object. */
  datatype State = State(
    canRetain: bool, canRelease: bool,  // whether the host table has the two callbacks
    quiet: bool,                        // a deactivate has returned: no lease is granted any more
    adopted: map<Ref, nat>,             // references the host transferred
    retained: map<Ref, nat>,            // retain calls that returned Ok
    live: map<Ref, nat>,                // ObjectHandle values
    released: map<Ref, nat>,            // release calls made
    failed: map<Ref, nat>,              // those that did not return Ok
    refused: map<Ref, nat>,             // drops that found no lease
    buffers: nat,                       // drops of host buffers whose release failed
    cleanupFailures: nat                // the counter both kinds of drop share
  )

  function Initial(canRetain: bool, canRelease: bool): State {
    State(canRetain, canRelease, false, map[], map[], map[], map[], map[], map[], 0, 0)
  }

  /** `from_owned`. */
  function Adopt(s: State, r: Ref, typed: bool, leased: bool): (State, Option<ErrorCode>) {
    if !leased || !s.canRelease then (s, Some(Unavailable))
    else if !typed then (s, Some(TypeMismatch))
    else (s.(adopted := Bump(s.adopted, r), live := Bump(s.live, r)), None)
  }

  /** `from_borrowed`: two leases, one for the check and one for the retain itself. */
  function Borrow(s: State, r: Ref, typed: bool, leased: bool, leasedAgain: bool, ok: bool):
    (State, Option<ErrorCode>) {
    if !leased || !s.canRetain || !s.canRelease then (s, Some(Unavailable))
    else if !typed then (s, Some(TypeMismatch))
    else if !leasedAgain then (s, Some(Unavailable))
    else if !ok then (s, Some(StaleHandle))
    else (s.(retained := Bump(s.retained, r), live := Bump(s.live, r)), None)
  }

  function Refuse(s: State, r: Ref): State { s.(live := Unbump(s.live, r), refused := Bump(s.refused, r)) }

  function Release(s: State, r: Ref): State { s.(live := Unbump(s.live, r), released := Bump(s.released, r)) }

  function Fail(s: State, r: Ref): State {
    s.(live := Unbump(s.live, r), released := Bump(s.released, r), failed := Bump(s.failed, r),
       cleanupFailures := s.cleanupFailures + 1)
  }

  /** The drop of one live handle. */
  function Drop(s: State, r: Ref, leased: bool, ok: bool): State {
    if !leased then Refuse(s, r)
    else if !s.canRelease then s.(live := Unbump(s.live, r), cleanupFailures := s.cleanupFailures + 1)
    else if ok then Release(s, r)
    else Fail(s, r)
  }

  /** What a drop changes: one live handle of `r` less, and one release call, failed or not, or one refusal more;
      the counter goes up exactly with a failed call. */
  ghost predicate GaveBack(s: State, t: State, r: Ref, leased: bool, ok: bool) {
    && t.adopted == s.adopted && t.retained == s.retained
    && t.cleanupFailures == s.cleanupFailures + (if leased && !ok then 1 else 0)
    && forall q: Ref ::
         var one := if q == r then 1 else 0;
         && Get(t.live, q) == Get(s.live, q) - one
         && Get(t.released, q) == Get(s.released, q) + (if leased then one else 0)
         && Get(t.failed, q) == Get(s.failed, q) + (if leased && !ok then one else 0)
         && Get(t.refused, q) == Get(s.refused, q) + (if leased then 0 else one)
  }

  /** The drop of a host buffer that still holds its token. */
  function DropBuffer(s: State, ok: bool): State {
    if ok then s else s.(buffers := s.buffers + 1, cleanupFailures := s.cleanupFailures + 1)
  }

  /** The same on the fields of a context. */
  class HandleContext {
    var state: State

    constructor (canRetain: bool, canRelease: bool)
      ensures state == Initial(canRetain, canRelease) && Ledger(state)
    {
      state := Initial(canRetain, canRelease);
    }

    method FromOwned(value: HandleValue, typeName: seq<byte>, leased: bool) returns (error: Option<ErrorCode>)
      requires Ledger(state)
      modifies this
      ensures Ledger(state)
      ensures (state, error) ==
              Adopt(old(state), Ref(value.objectId, value.generation), value.typeName == typeName, leased)
      ensures error.None? <==> leased && old(state).canRelease && value.typeName == typeName
      ensures error.Some? ==>
                && state == old(state)
                && error.value == if leased && state.canRelease then TypeMismatch else Unavailable
      ensures error.None? ==>
                && state == old(state).(adopted := state.adopted, live := state.live)
                && forall r: Ref ::
                     var more := if r == Ref(value.objectId, value.generation) then 1 else 0;
                     Get(state.adopted, r) == Get(old(state).adopted, r) + more
                     && Get(state.live, r) == Get(old(state).live, r) + more
    {
      hide Ledger, Get, Bump;
      var r := Ref(value.objectId, value.generation);
      BumpCounts(state.adopted, r);
      BumpCounts(state.live, r);
      AdoptBalances(state, r, value.typeName == typeName, leased);
      if !leased || !state.canRelease {
        return Some(Unavailable);
      }
      if value.typeName != typeName {
        return Some(TypeMismatch);
      }
      state := state.(adopted := Bump(state.adopted, r), live := Bump(state.live, r));
      error := None;
    }

    /** Also `try_clone`. `ok` is the status of the retain callback, if it is called. */
    method FromBorrowed(value: HandleValue, typeName: seq<byte>, leased: bool, leasedAgain: bool, ok: bool)
      returns (error: Option<ErrorCode>)
      requires Ledger(state)
      modifies this
      ensures Ledger(state)
      ensures (state, error) ==
              Borrow(old(state), Ref(value.objectId, value.generation), value.typeName == typeName,
                     leased, leasedAgain, ok)
      ensures error.None? <==>
                && leased && leasedAgain && ok && old(state).canRetain && old(state).canRelease
                && value.typeName == typeName
      ensures error.Some? ==>
                && state == old(state)
                && error.value == if !leased || !state.canRetain || !state.canRelease then Unavailable
                                  else if value.typeName != typeName then TypeMismatch
                                  else if !leasedAgain then Unavailable
                                  else StaleHandle
      ensures error.None? ==>
                && state == old(state).(retained := state.retained, live := state.live)
                && forall r: Ref ::
                     var more := if r == Ref(value.objectId, value.generation) then 1 else 0;
                     Get(state.retained, r) == Get(old(state).retained, r) + more
                     && Get(state.live, r) == Get(old(state).live, r) + more
    {
      hide Ledger, Get, Bump;
      var r := Ref(value.objectId, value.generation);
      BumpCounts(state.retained, r);
      BumpCounts(state.live, r);
      BorrowBalances(state, r, value.typeName == typeName, leased, leasedAgain, ok);
      if !leased || !state.canRetain || !state.canRelease {
        return Some(Unavailable);
      }
      if value.typeName != typeName {
        return Some(TypeMismatch);
      }
      if !leasedAgain {
        return Some(Unavailable);
      }
      if !ok {
        return Some(StaleHandle);
      }
      state := state.(retained := Bump(state.retained, r), live := Bump(state.live, r));
      error := None;
    }

    method DropHandle(value: HandleValue, leased: bool, ok: bool)
      requires Ledger(state) && Get(state.live, Ref(value.objectId, value.generation)) > 0
      modifies this
      ensures Ledger(state)
      ensures state == Drop(old(state), Ref(value.objectId, value.generation), leased, ok)
      ensures GaveBack(old(state), state, Ref(value.objectId, value.generation), leased, ok)
    {
      hide Ledger, Get, Bump, Unbump, GaveBack;
      var r := Ref(value.objectId, value.generation);
      DropGivesBack(state, r, leased, ok);
      DropBalances(state, r, leased, ok);
      LiveMeansRelease(state, r);
      state := state.(live := Unbump(state.live, r));
      if !leased {
        state := state.(refused := Bump(state.refused, r));
        return;
      }
      if state.canRelease {
        state := state.(released := Bump(state.released, r),
                        failed := if ok then state.failed else Bump(state.failed, r));
      }
      if !state.canRelease || !ok {
        state := state.(cleanupFailures := state.cleanupFailures + 1);
      }
    }

    method DropHostBuffer(ok: bool)
      requires Ledger(state)
      modifies this
      ensures Ledger(state) && state == DropBuffer(old(state), ok)
      ensures state == old(state).(buffers := state.buffers, cleanupFailures := state.cleanupFailures)
      ensures state.buffers == old(state).buffers + (if ok then 0 else 1)
      ensures state.cleanupFailures == old(state).cleanupFailures + (if ok then 0 else 1)
    {
      hide Get, Total;
      if !ok {
        state := state.(buffers := state.buffers + 1, cleanupFailures := state.cleanupFailures + 1);
      }
    }
  }

  // ---------------------------------------------------------------- runs

  datatype Step =
    | TakeOwned(r: Ref, typed: bool, leased: bool)
    | TakeBorrowed(r: Ref, typed: bool, leased: bool, leasedAgain: bool, ok: bool)
    | GiveUp(r: Ref, leased: bool, ok: bool)
    | LoseBuffer(ok: bool)
    | Quiesce

  /** A quiet host grants no lease; only a live handle is dropped. */
  predicate Enabled(s: State, step: Step) {
    match step
    case TakeOwned(_, _, leased) => leased ==> !s.quiet
    case TakeBorrowed(_, _, leased, leasedAgain, _) => leased || leasedAgain ==> !s.quiet
    case GiveUp(r, leased, _) => Get(s.live, r) > 0 && (leased ==> !s.quiet)
    case LoseBuffer(_) => !s.quiet  // a host buffer lives within a lease
    case Quiesce => true
  }

  function Do(s: State, step: Step): State {
    match step
    case TakeOwned(r, typed, leased) => Adopt(s, r, typed, leased).0
    case TakeBorrowed(r, typed, leased, leasedAgain, ok) => Borrow(s, r, typed, leased, leasedAgain, ok).0
    case GiveUp(r, leased, ok) => Drop(s, r, leased, ok)
    case LoseBuffer(ok) => DropBuffer(s, ok)
    case Quiesce => s.(quiet := true)
  }

  function Run(s: State, steps: seq<Step>): Option<State>
    decreases |steps|
  {
    if steps == [] then Some(s)
    else if Enabled(s, steps[0]) then Run(Do(s, steps[0]), steps[1..])
    else None
  }

  /** Taken equals held plus given back plus refused, object by object; failures are the failed releases of
      handles and of buffers. */
  ghost predicate Ledger(s: State) {
    && (forall r: Ref ::
        Get(s.adopted, r) + Get(s.retained, r) == Get(s.live, r) + Get(s.released, r) + Get(s.refused, r))
    && (forall r: Ref :: Get(s.failed, r) <= Get(s.released, r))
    && (forall r: Ref :: Get(s.live, r) > 0 ==> s.canRelease)
    && s.cleanupFailures == Total(s.failed) + s.buffers
  }

  lemma BumpCounts<K>(m: map<K, nat>, k: K)
    ensures forall j: K :: Get(Bump(m, k), j) == Get(m, j) + if j == k then 1 else 0
  {
  }

  lemma UnbumpCounts<K>(m: map<K, nat>, k: K)
    requires Get(m, k) > 0
    ensures forall j: K :: Get(Unbump(m, k), j) == Get(m, j) - if j == k then 1 else 0
  {
  }

  lemma AdoptBalances(s: State, r: Ref, typed: bool, leased: bool)
    requires Ledger(s)
    ensures Ledger(Adopt(s, r, typed, leased).0)
  {
    hide Bump, Total;
    BumpCounts(s.adopted, r);
    BumpCounts(s.live, r);
  }

  lemma BorrowBalances(s: State, r: Ref, typed: bool, leased: bool, leasedAgain: bool, ok: bool)
    requires Ledger(s)
    ensures Ledger(Borrow(s, r, typed, leased, leasedAgain, ok).0)
  {
    hide Bump, Total;
    BumpCounts(s.retained, r);
    BumpCounts(s.live, r);
  }

  lemma RefuseBalances(s: State, r: Ref)
    requires Ledger(s) && Get(s.live, r) > 0
    ensures Ledger(Refuse(s, r))
  {
    hide Get, Bump, Unbump, Total;
    UnbumpCounts(s.live, r);
    BumpCounts(s.refused, r);
  }

  lemma ReleaseBalances(s: State, r: Ref)
    requires Ledger(s) && Get(s.live, r) > 0
    ensures Ledger(Release(s, r))
  {
    hide Get, Bump, Unbump, Total;
    UnbumpCounts(s.live, r);
    BumpCounts(s.released, r);
  }

  lemma FailBalances(s: State, r: Ref)
    requires Ledger(s) && Get(s.live, r) > 0
    ensures Ledger(Fail(s, r))
  {
    hide Get, Bump, Unbump, Total;
    UnbumpCounts(s.live, r);
    BumpCounts(s.released, r);
    BumpCounts(s.failed, r);
    TotalOfBump(s.failed, r);
  }

  lemma RefuseGivesBack(s: State, r: Ref, ok: bool)
    requires Get(s.live, r) > 0
    ensures GaveBack(s, Refuse(s, r), r, false, ok)
  {
    hide Get, Bump, Unbump;
    UnbumpCounts(s.live, r);
    BumpCounts(s.refused, r);
  }

  lemma ReleaseGivesBack(s: State, r: Ref)
    requires Get(s.live, r) > 0
    ensures GaveBack(s, Release(s, r), r, true, true)
  {
    hide Get, Bump, Unbump;
    UnbumpCounts(s.live, r);
    BumpCounts(s.released, r);
  }

  lemma FailGivesBack(s: State, r: Ref)
    requires Get(s.live, r) > 0
    ensures GaveBack(s, Fail(s, r), r, true, false)
  {
    hide Get, Bump, Unbump;
    UnbumpCounts(s.live, r);
    BumpCounts(s.released, r);
    BumpCounts(s.failed, r);
  }

  lemma DropGivesBack(s: State, r: Ref, leased: bool, ok: bool)
    requires Ledger(s) && Get(s.live, r) > 0
    ensures GaveBack(s, Drop(s, r, leased, ok), r, leased, ok)
  {
    LiveMeansRelease(s, r);
    hide GaveBack, Refuse, Release, Fail, Ledger;
    RefuseGivesBack(s, r, ok);
    ReleaseGivesBack(s, r);
    FailGivesBack(s, r);
  }

  lemma DropBalances(s: State, r: Ref, leased: bool, ok: bool)
    requires Ledger(s) && Get(s.live, r) > 0
    ensures Ledger(Drop(s, r, leased, ok))
  {
    assert s.canRelease;
    hide Refuse, Release, Fail, Ledger;
    RefuseBalances(s, r);
    ReleaseBalances(s, r);
    FailBalances(s, r);
  }

  lemma {:induction false} LedgerOfRuns(s: State, steps: seq<Step>)
    requires Ledger(s) && Run(s, steps).Some?
    ensures Ledger(Run(s, steps).value)
    decreases |steps|
  {
    hide Ledger, Adopt, Borrow, Drop, DropBuffer;
    if steps != [] {
      match steps[0] {
        case TakeOwned(r, typed, leased) => AdoptBalances(s, r, typed, leased);
        case TakeBorrowed(r, typed, leased, again, ok) => BorrowBalances(s, r, typed, leased, again, ok);
        case GiveUp(r, leased, ok) => DropBalances(s, r, leased, ok);
        case LoseBuffer(ok) => BufferBalances(s, ok);
        case Quiesce => QuiesceBalances(s);
      }
      LedgerOfRuns(Do(s, steps[0]), steps[1..]);
    }
  }

  lemma LiveMeansRelease(s: State, r: Ref)
    requires Ledger(s) && Get(s.live, r) > 0
    ensures s.canRelease
  {
  }

  lemma BufferBalances(s: State, ok: bool)
    requires Ledger(s)
    ensures Ledger(DropBuffer(s, ok))
  {
    hide Get, Total;
  }

  lemma QuiesceBalances(s: State)
    requires Ledger(s)
    ensures Ledger(s.(quiet := true))
  {
  }

  /** Over any run of adopt, borrow, clone, drop and deactivate, for every object and generation: adopted plus
      successfully retained references are the live handles plus the release calls plus the drops refused
      after deactivation, and the failure counter is exactly the number of releases, of handles and of host
      buffers, that failed. */
  lemma ReferencesBalance(canRetain: bool, canRelease: bool, steps: seq<Step>, r: Ref)
    requires Run(Initial(canRetain, canRelease), steps).Some?
    ensures var s := Run(Initial(canRetain, canRelease), steps).value;
            && Get(s.adopted, r) + Get(s.retained, r) == Get(s.live, r) + Get(s.released, r) + Get(s.refused, r)
            && Get(s.failed, r) <= Get(s.released, r) && s.cleanupFailures == Total(s.failed) + s.buffers
  {
    LedgerOfRuns(Initial(canRetain, canRelease), steps);
  }

  // ---------------------------------------------------------------- the ledger as a history

  datatype Column = Adopted | Retained | Released | Failed | Refused

  /** What one step adds to a column for `r`, told from the step and the two callbacks alone. */
  predicate Adds(column: Column, step: Step, r: Ref, canRetain: bool, canRelease: bool) {
    match column
    case Adopted => step.TakeOwned? && step.r == r && step.leased && step.typed && canRelease
    case Retained =>
      && step.TakeBorrowed? && step.r == r && step.leased && step.leasedAgain && step.typed && step.ok
      && canRetain && canRelease
    case Released => step.GiveUp? && step.r == r && step.leased
    case Failed => step.GiveUp? && step.r == r && step.leased && !step.ok
    case Refused => step.GiveUp? && step.r == r && !step.leased
  }

  function Tally(column: Column, steps: seq<Step>, r: Ref, canRetain: bool, canRelease: bool): nat {
    if steps == [] then 0
    else (if Adds(column, steps[0], r, canRetain, canRelease) then 1 else 0) +
         Tally(column, steps[1..], r, canRetain, canRelease)
  }

  function Of(column: Column, s: State): map<Ref, nat> {
    match column
    case Adopted => s.adopted
    case Retained => s.retained
    case Released => s.released
    case Failed => s.failed
    case Refused => s.refused
  }

  lemma DropKeepsTable(s: State, r: Ref, leased: bool, ok: bool)
    ensures Drop(s, r, leased, ok).canRetain == s.canRetain && Drop(s, r, leased, ok).canRelease == s.canRelease
  {
    hide Bump, Unbump, Get;
  }

  lemma DropAdds(s: State, q: Ref, leased: bool, ok: bool, column: Column, r: Ref)
    requires Ledger(s) && Get(s.live, q) > 0
    ensures Get(Of(column, Drop(s, q, leased, ok)), r) ==
            Get(Of(column, s), r) + if Adds(column, GiveUp(q, leased, ok), r, s.canRetain, s.canRelease) then 1 else 0
  {
    DropGivesBack(s, q, leased, ok);
    hide Ledger, Drop, Get;
  }

  lemma OwnedAdds(s: State, q: Ref, typed: bool, leased: bool, column: Column, r: Ref)
    ensures var t := Adopt(s, q, typed, leased).0;
            && t.canRetain == s.canRetain && t.canRelease == s.canRelease
            && Get(Of(column, t), r) ==
               Get(Of(column, s), r)
               + if Adds(column, TakeOwned(q, typed, leased), r, s.canRetain, s.canRelease) then 1 else 0
  {
    hide Get, Bump;
    BumpCounts(s.adopted, q);
  }

  lemma BorrowedAdds(
    s: State, q: Ref, typed: bool, leased: bool, leasedAgain: bool, ok: bool, column: Column, r: Ref)
    ensures var step := TakeBorrowed(q, typed, leased, leasedAgain, ok);
            var t := Borrow(s, q, typed, leased, leasedAgain, ok).0;
            && t.canRetain == s.canRetain && t.canRelease == s.canRelease
            && Get(Of(column, t), r) ==
               Get(Of(column, s), r) + if Adds(column, step, r, s.canRetain, s.canRelease) then 1 else 0
  {
    hide Get, Bump;
    BumpCounts(s.retained, q);
  }

  lemma OtherAdds(s: State, step: Step, column: Column, r: Ref)
    requires step.LoseBuffer? || step.Quiesce?
    ensures Do(s, step).canRetain == s.canRetain && Do(s, step).canRelease == s.canRelease
    ensures Of(column, Do(s, step)) == Of(column, s) && !Adds(column, step, r, s.canRetain, s.canRelease)
  {
    hide Get, Adopt, Borrow, Drop;
  }

  lemma StepAdds(s: State, step: Step, column: Column, r: Ref)
    requires Ledger(s) && Enabled(s, step)
    ensures Do(s, step).canRetain == s.canRetain && Do(s, step).canRelease == s.canRelease
    ensures Get(Of(column, Do(s, step)), r) ==
            Get(Of(column, s), r) + if Adds(column, step, r, s.canRetain, s.canRelease) then 1 else 0
  {
    hide Ledger, Adopt, Borrow, Drop, DropBuffer, Get, Of, Adds;
    match step
    case TakeOwned(q, typed, leased) => OwnedAdds(s, q, typed, leased, column, r);
    case TakeBorrowed(q, typed, leased, again, ok) => BorrowedAdds(s, q, typed, leased, again, ok, column, r);
    case GiveUp(q, leased, ok) =>
      DropAdds(s, q, leased, ok, column, r);
      DropKeepsTable(s, q, leased, ok);
    case _ => OtherAdds(s, step, column, r);
  }

  lemma {:induction false} HistoryAdds(s: State, steps: seq<Step>, column: Column, r: Ref)
    requires Ledger(s) && Run(s, steps).Some?
    ensures Get(Of(column, Run(s, steps).value), r) ==
            Get(Of(column, s), r) + Tally(column, steps, r, s.canRetain, s.canRelease)
    decreases |steps|
  {
    hide Ledger, Enabled, Do, Adds, Get, Of;
    if steps != [] {
      StepAdds(s, steps[0], column, r);
      LedgerIsKept(s, steps[0]);
      HistoryAdds(Do(s, steps[0]), steps[1..], column, r);
    }
  }

  lemma LedgerIsKept(s: State, step: Step)
    requires Ledger(s) && Enabled(s, step)
    ensures Ledger(Do(s, step))
  {
    assert [step][1..] == [];
    LedgerOfRuns(s, [step]);
  }

  /** Over any run, every column counts exactly the calls that ended the way its name says: a reference is
      retained once for each retain that returned Ok with both leases granted and the type right, adopted once
      for each transfer taken up, released once for each drop under a lease, refused for each without. */
  lemma ColumnsCountCalls(canRetain: bool, canRelease: bool, steps: seq<Step>, column: Column, r: Ref)
    requires Run(Initial(canRetain, canRelease), steps).Some?
    ensures Get(Of(column, Run(Initial(canRetain, canRelease), steps).value), r) ==
            Tally(column, steps, r, canRetain, canRelease)
  {
    HistoryAdds(Initial(canRetain, canRelease), steps, column, r);
  }

  /** A failed acquire leaves no reference behind, and a drop can fail only in the release itself. */
  lemma FailuresLeaveNothing(canRetain: bool, canRelease: bool, steps: seq<Step>, step: Step)
    requires Run(Initial(canRetain, canRelease), steps).Some?
    requires Enabled(Run(Initial(canRetain, canRelease), steps).value, step)
    ensures var s := Run(Initial(canRetain, canRelease), steps).value;
            && (step.TakeOwned? && Adopt(s, step.r, step.typed, step.leased).1.Some? ==> Do(s, step) == s)
            && (step.TakeBorrowed? && Borrow(s, step.r, step.typed, step.leased, step.leasedAgain, step.ok).1.Some?
                ==> Do(s, step) == s)
            && (Do(s, step).cleanupFailures > s.cleanupFailures <==>
                  (step.GiveUp? && step.leased && !step.ok) || (step.LoseBuffer? && !step.ok))
            && Do(s, step).cleanupFailures <= s.cleanupFailures + 1
  {
    LedgerOfRuns(Initial(canRetain, canRelease), steps);
  }

  /** Once deactivation has returned no callback on a handle is ever made again. */
  lemma {:induction false} QuietHandles(s: State, steps: seq<Step>)
    requires s.quiet && Run(s, steps).Some?
    ensures var t := Run(s, steps).value;
            t.quiet && t.retained == s.retained && t.released == s.released && t.adopted == s.adopted &&
            t.cleanupFailures == s.cleanupFailures
    decreases |steps|
  {
    hide Do, Enabled;
    if steps != [] {
      QuietStep(s, steps[0]);
      QuietHandles(Do(s, steps[0]), steps[1..]);
    }
  }

  lemma QuietStep(s: State, step: Step)
    requires s.quiet && Enabled(s, step)
    ensures var t := Do(s, step);
            t.quiet && t.retained == s.retained && t.released == s.released && t.adopted == s.adopted &&
            t.cleanupFailures == s.cleanupFailures
  {
    hide Get, Bump, Unbump;
  }
}
