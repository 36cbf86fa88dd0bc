/** Host leases: the admission counter, the thread-local depths, and deactivation, in every interleaving. */
module HostLease {
  import opened Bytes
  import opened Options
  import opened Counting

  type Thread = nat

  /** The mutex-guarded part of a `HostState`. */
  datatype Admission = Admission(active: bool, inFlight: nat)

  // ---------------------------------------------------------------- the lock regions

  /** Inside `lease`: admission, given what was read from the thread-local map before the lock. */
  function Admit(a: Admission, nested: bool): Option<Admission> {
    if !a.active && !nested then None
    else if a.inFlight + 1 > U64_MAX then None
    else Some(a.(inFlight := a.inFlight + 1))
  }

  /** Inside the drop of a lease: the counter goes down, and reaching zero notifies the waiters. */
  function Leave(a: Admission): (Admission, bool)
    requires a.inFlight > 0
  {
    (a.(inFlight := a.inFlight - 1), a.inFlight == 1)
  }

  /** Inside `deactivate`: admission ends, and the wait is over at once when nothing is in flight. */
  function CloseRegion(a: Admission): (Admission, bool) {
    (a.(active := false), a.inFlight == 0)
  }

  /** The same regions on the mutable fields they update. */
  class HostState {
    var active: bool
    var inFlight: nat

    constructor ()
      ensures Guarded() == Admission(true, 0)
    {
      active, inFlight := true, 0;
    }

    function Guarded(): Admission
      reads this
    {
      Admission(active, inFlight)
    }

    method Enter(nested: bool) returns (admitted: bool)
      modifies this
      ensures admitted == Admit(old(Guarded()), nested).Some?
      ensures Guarded() == if admitted then Admit(old(Guarded()), nested).value else old(Guarded())
      ensures admitted <==> (old(active) || nested) && old(inFlight) < U64_MAX
      ensures active == old(active) && inFlight == old(inFlight) + if admitted then 1 else 0
    {
      if !active && !nested {
        return false;
      }
      if inFlight + 1 > U64_MAX {
        return false;
      }
      inFlight := inFlight + 1;
      admitted := true;
    }

    method Exit() returns (notify: bool)
      requires inFlight > 0
      modifies this
      ensures (Guarded(), notify) == Leave(old(Guarded()))
      ensures active == old(active) && inFlight == old(inFlight) - 1 && (notify <==> inFlight == 0)
    {
      inFlight := inFlight - 1;
      notify := inFlight == 0;
    }

    method Close() returns (quiet: bool)
      modifies this
      ensures (Guarded(), quiet) == CloseRegion(old(Guarded()))
      ensures Admit(Guarded(), false) == None
      ensures !active && inFlight == old(inFlight) && (quiet <==> inFlight == 0)
    {
      active := false;
      quiet := inFlight == 0;
    }
  }

  // ---------------------------------------------------------------- one address, any number of threads

  /** Where a thread is, between two of its regions on this host. */
  datatype Pc =
    | Asked(nested: bool)    // the thread-local map has been read, the lock not yet taken
    | Counted                // in_flight is up, the depth is not
    | Uncounted              // the depth is down, in_flight is not
    | Waiting(asleep: bool)  // inside deactivate, on the condition variable or about to recheck

  /** Everything kept under one address: the host living there, if any, and what threads hold of it. */
  datatype Cell = Cell(
    host: Option<Admission>,
    depths: map<Thread, nat>,  // this key's entry in each thread's local map
    leases: map<Thread, nat>,  // live HostLease values, which never leave their thread
    pcs: map<Thread, Pc>,
    quiesced: bool,            // a deactivate of this host has returned
    crashed: bool              // a failed expect or an underflow
  )

  const INITIAL := Cell(None, map[], map[], map[], false, false)

  datatype Step =
    | Ask(t: Thread) | Enter(t: Thread) | Push(t: Thread)
    | Pop(t: Thread) | Exit(t: Thread)
    | Deactivate(t: Thread) | Awaken(t: Thread) | Recheck(t: Thread)
    | Allocate | Free

  predicate Between(c: Cell, t: Thread) { c.host.Some? && t !in c.pcs }

  predicate At(c: Cell, t: Thread, p: Pc) { c.host.Some? && t in c.pcs && c.pcs[t] == p }

  predicate Enabled(c: Cell, s: Step) {
    match s
    case Ask(t) => Between(c, t)
    case Enter(t) => c.host.Some? && t in c.pcs && c.pcs[t].Asked?
    case Push(t) => At(c, t, Counted)
    case Pop(t) => Between(c, t) && t in c.leases
    case Exit(t) => At(c, t, Uncounted)
    case Deactivate(t) => Between(c, t)
    case Awaken(t) => At(c, t, Waiting(true))  // a spurious wake-up
    case Recheck(t) => At(c, t, Waiting(false))
    case Allocate => c.host.None?
    case Free => c.host.Some? && c.leases == map[] && c.pcs == map[]  // nothing borrows the host
  }

  function Wake(pcs: map<Thread, Pc>): map<Thread, Pc> {
    map t | t in pcs :: if pcs[t].Waiting? then Waiting(false) else pcs[t]
  }

  /** The wait loop's test: return when nothing is in flight, sleep otherwise. */
  function Settle(c: Cell, t: Thread): Cell
    requires c.host.Some?
  {
    if c.host.value.inFlight == 0 then c.(pcs := c.pcs - {t}, quiesced := true)
    else c.(pcs := c.pcs[t := Waiting(true)])
  }

  function Do(c: Cell, s: Step): Cell
    requires Enabled(c, s)
  {
    match s
    case Ask(t) => c.(pcs := c.pcs[t := Asked(t in c.depths)])
    case Enter(t) =>
      (match Admit(c.host.value, c.pcs[t].nested)
       case None => c.(pcs := c.pcs - {t})
       case Some(a) => c.(host := Some(a), pcs := c.pcs[t := Counted]))
    case Push(t) =>
      c.(depths := Bump(c.depths, t), leases := Bump(c.leases, t), pcs := c.pcs - {t})
    case Pop(t) =>
      if Get(c.depths, t) == 0 then c.(crashed := true)
      else c.(depths := Unbump(c.depths, t), leases := Unbump(c.leases, t), pcs := c.pcs[t := Uncounted])
    case Exit(t) =>
      if c.host.value.inFlight == 0 then c.(crashed := true)
      else
        var (a, notify) := Leave(c.host.value);
        c.(host := Some(a), pcs := if notify then Wake(c.pcs - {t}) else c.pcs - {t})
    case Deactivate(t) => Settle(c.(host := Some(CloseRegion(c.host.value).0)), t)
    case Awaken(t) => c.(pcs := c.pcs[t := Waiting(false)])
    case Recheck(t) => Settle(c, t)
    case Allocate => c.(host := Some(Admission(true, 0)))
    case Free => c.(host := None, quiesced := false)
  }

  function Run(c: Cell, steps: seq<Step>): Option<Cell>
    decreases |steps|
  {
    if steps == [] then Some(c)
    else if Enabled(c, steps[0]) then Run(Do(c, steps[0]), steps[1..])
    else None
  }

  // ---------------------------------------------------------------- the invariant

  /** Threads between their two updates. */
  function Caught(pcs: map<Thread, Pc>): set<Thread> {
    set t | t in pcs && (pcs[t].Counted? || pcs[t].Uncounted?)
  }

  ghost predicate Counts(c: Cell) {
    && (forall t :: t in c.depths ==> c.depths[t] > 0)
    && c.leases == c.depths
    && (c.host.Some? ==> c.host.value.inFlight == Total(c.depths) + |Caught(c.pcs)|)
  }

  ghost predicate Places(c: Cell) {
    && (forall t :: t in c.pcs && c.pcs[t] == Asked(true) ==> t in c.depths)
    && (c.host.Some? ==>
        forall t :: t in c.pcs && c.pcs[t].Waiting? ==>
          !c.host.value.active && (c.pcs[t].asleep ==> c.host.value.inFlight > 0))
    && (c.quiesced ==> c.host.Some? && !c.host.value.active && c.host.value.inFlight == 0)
    && (c.host.None? ==> c.depths == map[] && c.pcs == map[])
  }

  ghost predicate Inv(c: Cell) { Counts(c) && Places(c) && !c.crashed }

  /** While some thread is counted in flight the counter cannot be zero. */
  lemma CountedMeansInFlight(c: Cell, t: Thread)
    requires Counts(c) && c.host.Some? && (t in c.depths || t in Caught(c.pcs))
    ensures c.host.value.inFlight > 0
  {
    if t in c.depths {
      TotalSplits(c.depths, t);
    } else {
      assert Caught(c.pcs) != {};
    }
  }

  lemma ZeroMeansNobody(c: Cell)
    requires Counts(c) && c.host.Some? && c.host.value.inFlight == 0
    ensures c.depths == map[] && c.leases == map[] && Caught(c.pcs) == {}
  {
    ZeroTotal(c.depths);
  }

  lemma CaughtChanges(pcs: map<Thread, Pc>, t: Thread, p: Pc)
    ensures Caught(pcs[t := p]) == if p.Counted? || p.Uncounted? then Caught(pcs) + {t} else Caught(pcs) - {t}
    ensures Caught(pcs - {t}) == Caught(pcs) - {t}
    ensures Caught(Wake(pcs)) == Caught(pcs)
    ensures t in Caught(pcs) <==> t in pcs && (pcs[t].Counted? || pcs[t].Uncounted?)
  {
  }

  lemma NobodyCounts()
    ensures Total<Thread>(map[]) == 0 && Caught(map[]) == {}
  {
  }

  lemma PushKeepsCounts(c: Cell, t: Thread)
    requires Inv(c) && Enabled(c, Push(t))
    ensures Counts(Do(c, Push(t)))
  {
    hide Total, Caught, Wake;
    CaughtChanges(c.pcs, t, Counted);
    TotalOfBump(c.depths, t);
  }

  lemma PopKeepsCounts(c: Cell, t: Thread)
    requires Inv(c) && Enabled(c, Pop(t))
    ensures Counts(Do(c, Pop(t)))
  {
    hide Total, Caught, Wake;
    CaughtChanges(c.pcs, t, Uncounted);
    TotalOfUnbump(c.depths, t);
  }

  lemma ExitKeepsCounts(c: Cell, t: Thread)
    requires Inv(c) && Enabled(c, Exit(t))
    ensures Counts(Do(c, Exit(t)))
  {
    hide Total, Caught, Wake;
    CaughtChanges(c.pcs, t, Asked(false));
    CaughtChanges(c.pcs - {t}, t, Asked(false));
    CountedMeansInFlight(c, t);
  }

  lemma SettleKeepsCounts(c: Cell, t: Thread)
    requires Counts(c) && c.host.Some? && t !in Caught(c.pcs)
    ensures Counts(Settle(c, t)) && Counts(c.(host := Some(c.host.value.(active := false))))
  {
    hide Total, Caught;
    CaughtChanges(c.pcs, t, Waiting(true));
  }

  lemma EnterKeepsCounts(c: Cell, t: Thread)
    requires Inv(c) && Enabled(c, Enter(t))
    ensures Counts(Do(c, Enter(t)))
  {
    hide Total, Caught, Wake;
    CaughtChanges(c.pcs, t, Counted);
  }

  lemma DeactivateKeepsCounts(c: Cell, t: Thread)
    requires Inv(c) && Enabled(c, Deactivate(t))
    ensures Counts(Do(c, Deactivate(t)))
  {
    hide Total, Caught, Wake, Settle;
    CaughtChanges(c.pcs, t, Waiting(true));
    SettleKeepsCounts(c, t);
    SettleKeepsCounts(c.(host := Some(c.host.value.(active := false))), t);
  }

  lemma CountsAreKept(c: Cell, s: Step)
    requires Inv(c) && Enabled(c, s)
    ensures Counts(Do(c, s))
  {
    hide Total, Caught, Wake, Bump, Unbump, Settle;
    match s
    case Ask(t) => CaughtChanges(c.pcs, t, Asked(t in c.depths));
    case Enter(t) => EnterKeepsCounts(c, t);
    case Push(t) => PushKeepsCounts(c, t);
    case Pop(t) => PopKeepsCounts(c, t);
    case Exit(t) => ExitKeepsCounts(c, t);
    case Deactivate(t) => DeactivateKeepsCounts(c, t);
    case Awaken(t) => CaughtChanges(c.pcs, t, Waiting(false));
    case Recheck(t) =>
      CaughtChanges(c.pcs, t, Waiting(true));
      SettleKeepsCounts(c, t);
    case Allocate => NobodyCounts();
    case Free =>
  }

  lemma PlacesAreKept(c: Cell, s: Step)
    requires Inv(c) && Enabled(c, s)
    ensures Places(Do(c, s)) && !Do(c, s).crashed
  {
    match s
    case Pop(t) => CountedMeansInFlight(c, t);
    case Exit(t) => CountedMeansInFlight(c, t);
    case Enter(t) => if c.pcs[t].nested { CountedMeansInFlight(c, t); }
    case Push(t) => CountedMeansInFlight(c, t);
    case _ =>
  }

  lemma InvIsKept(c: Cell, s: Step)
    requires Inv(c) && Enabled(c, s)
    ensures Inv(Do(c, s))
  {
    hide Counts, Places, Do, Enabled;
    CountsAreKept(c, s);
    PlacesAreKept(c, s);
  }

  lemma {:induction false} InvOfRuns(c: Cell, steps: seq<Step>)
    requires Inv(c) && Run(c, steps).Some?
    ensures Inv(Run(c, steps).value)
    decreases |steps|
  {
    if steps != [] {
      InvIsKept(c, steps[0]);
      InvOfRuns(Do(c, steps[0]), steps[1..]);
    }
  }

  // ---------------------------------------------------------------- what holds of every run

  /** The counter is the sum of all thread depths plus the threads caught between their two updates,
      no expectation ever fails, and nobody sleeps on a quiet host. */
  lemma CounterIsExact(steps: seq<Step>)
    requires Run(INITIAL, steps).Some?
    ensures var c := Run(INITIAL, steps).value;
            && !c.crashed && c.leases == c.depths
            && (c.host.Some? ==> c.host.value.inFlight == Total(c.depths) + |Caught(c.pcs)|)
            && (forall t :: t in c.pcs && c.pcs[t] == Waiting(true) ==> c.host.Some? && c.host.value.inFlight > 0)
  {
    InvOfRuns(INITIAL, steps);
  }

  /** Once a deactivate has returned no lease is held, and until the host is freed none is granted again. */
  lemma {:induction false} QuiescedForever(before: seq<Step>, after: seq<Step>)
    requires Run(INITIAL, before).Some? && Run(INITIAL, before).value.quiesced
    requires Free !in after && Run(Run(INITIAL, before).value, after).Some?
    ensures var c := Run(Run(INITIAL, before).value, after).value;
            c.quiesced && c.leases == map[] && c.depths == map[] && Caught(c.pcs) == {}
  {
    InvOfRuns(INITIAL, before);
    QuietStaysQuiet(Run(INITIAL, before).value, after);
    var c := Run(Run(INITIAL, before).value, after).value;
    ZeroMeansNobody(c);
  }

  lemma {:induction false} QuietStaysQuiet(c: Cell, steps: seq<Step>)
    requires Inv(c) && c.quiesced && Free !in steps && Run(c, steps).Some?
    ensures Inv(Run(c, steps).value) && Run(c, steps).value.quiesced
    decreases |steps|
  {
    if steps != [] {
      InvIsKept(c, steps[0]);
      QuietStep(c, steps[0]);
      QuietStaysQuiet(Do(c, steps[0]), steps[1..]);
    }
  }

  /** A stale read of the depth map cannot let anybody in: a thread that read `nested` holds a lease. */
  lemma QuietStep(c: Cell, s: Step)
    requires Inv(c) && c.quiesced && Enabled(c, s) && s != Free
    ensures Do(c, s).quiesced && Do(c, s).host == c.host
    ensures s.Enter? ==> s.t !in Do(c, s).pcs && Do(c, s).leases == c.leases
  {
    ZeroMeansNobody(c);
  }

  /** A host at a reused address starts with no thread remembering a depth for it. */
  lemma ReusedAddressIsClean(steps: seq<Step>)
    requires Run(INITIAL, steps).Some? && Enabled(Run(INITIAL, steps).value, Allocate)
    ensures var c := Do(Run(INITIAL, steps).value, Allocate);
            c.depths == map[] && c.leases == map[] && c.pcs == map[] && !c.quiesced && c.host.value.active
  {
    InvOfRuns(INITIAL, steps);
  }

  /** A thread that holds a lease is let in again even after deactivation has begun. */
  lemma HoldersReenter(steps: seq<Step>, t: Thread)
    requires Run(INITIAL, steps).Some?
    requires var c := Run(INITIAL, steps).value; t in c.leases && Enabled(c, Ask(t)) && c.host.value.inFlight < U64_MAX
    ensures var c := Do(Run(INITIAL, steps).value, Ask(t));
            Enabled(c, Enter(t)) && At(Do(c, Enter(t)), t, Counted)
  {
    InvOfRuns(INITIAL, steps);
  }

  /** Over all runs: a thread that asks gets in exactly when the host is active or it holds a lease already,
      and the counter has room; it is then counted once more. */
  lemma AdmissionIsExact(steps: seq<Step>, t: Thread)
    requires Run(INITIAL, steps).Some? && Enabled(Run(INITIAL, steps).value, Ask(t))
    ensures var c := Run(INITIAL, steps).value;
            var d := Do(c, Ask(t));
            && Enabled(d, Enter(t))
            && var e := Do(d, Enter(t));
               if (c.host.value.active || t in c.leases) && c.host.value.inFlight < U64_MAX
               then At(e, t, Counted) && e.host == Some(c.host.value.(inFlight := c.host.value.inFlight + 1))
               else e == c
  {
    InvOfRuns(INITIAL, steps);
    var c := Run(INITIAL, steps).value;
    hide Run, Total, Caught, Wake;
    assert c.pcs[t := Asked(t in c.depths)] - {t} == c.pcs;
  }

  /** A lease that is granted and dropped with nothing in between leaves everything as it was. */
  lemma LeaseThenDrop(before: seq<Step>, t: Thread)
    requires Run(INITIAL, before).Some? && Enabled(Run(INITIAL, before).value, Ask(t))
    requires var c := Run(INITIAL, before).value;
             (c.host.value.active || t in c.leases) && c.host.value.inFlight < U64_MAX
    ensures var c := Run(INITIAL, before).value;
            && var held := Run(c, [Ask(t), Enter(t), Push(t)]);
               && held.Some? && held.value.leases == Bump(c.leases, t) && held.value.depths == Bump(c.depths, t)
               && held.value.host == Some(c.host.value.(inFlight := c.host.value.inFlight + 1))
               && Run(held.value, [Pop(t), Exit(t)]) == Some(c)
  {
    InvOfRuns(INITIAL, before);
    AdmissionIsExact(before, t);
    var c := Run(INITIAL, before).value;
    var d := Do(c, Ask(t));
    var e := Do(d, Enter(t));
    assert e.depths == c.depths && e.leases == c.leases && e.pcs - {t} == c.pcs;
    var held := Do(e, Push(t));
    assert held.pcs == c.pcs;
    RunOfSteps(c, Ask(t), [Enter(t), Push(t)]);
    RunOfSteps(d, Enter(t), [Push(t)]);
    RunOfSteps(e, Push(t), []);
    PopAndExit(c, held, t);
  }

  lemma RunOfSteps(c: Cell, s: Step, rest: seq<Step>)
    ensures Run(c, [s] + rest) == if Enabled(c, s) then Run(Do(c, s), rest) else None
  {
    assert ([s] + rest)[1..] == rest;
  }

  lemma PopAndExit(c: Cell, held: Cell, t: Thread)
    requires Inv(c) && c.host.Some? && t !in c.pcs
    requires held.host == Some(c.host.value.(inFlight := c.host.value.inFlight + 1))
    requires held == c.(host := held.host, depths := Bump(c.depths, t), leases := Bump(c.leases, t))
    ensures Run(held, [Pop(t), Exit(t)]) == Some(c)
  {
    hide Total, Caught;
    assert Unbump(Bump(c.depths, t), t) == c.depths;
    var popped := Do(held, Pop(t));
    assert popped.pcs - {t} == c.pcs;
    assert c.host.value.inFlight == 0 ==> Wake(c.pcs) == c.pcs;
    RunOfSteps(held, Pop(t), [Exit(t)]);
    RunOfSteps(popped, Exit(t), []);
  }

  lemma ClosedStep(c: Cell, s: Step)
    requires Enabled(c, s) && s != Free && c.host.Some? && !c.host.value.active
    ensures Do(c, s).host.Some? && !Do(c, s).host.value.active
  {
    hide Bump, Unbump, Wake;
  }

  lemma {:induction false} ClosedHostStaysClosed(c: Cell, steps: seq<Step>)
    requires Inv(c) && c.host.Some? && !c.host.value.active && Free !in steps && Run(c, steps).Some?
    ensures var d := Run(c, steps).value; Inv(d) && d.host.Some? && !d.host.value.active
    decreases |steps|
  {
    hide Counts, Places, Do, Enabled;
    if steps != [] {
      InvIsKept(c, steps[0]);
      ClosedStep(c, steps[0]);
      ClosedHostStaysClosed(Do(c, steps[0]), steps[1..]);
    }
  }

  /** From the moment a deactivate has closed admission, long before it returns, only threads that hold a
      lease at that time are let in: in every continuation an admission goes to a holder. */
  lemma OnlyHoldersEnterAfterClose(before: seq<Step>, t: Thread, after: seq<Step>, u: Thread)
    requires Run(INITIAL, before).Some? && Enabled(Run(INITIAL, before).value, Deactivate(t)) && Free !in after
    requires Run(Do(Run(INITIAL, before).value, Deactivate(t)), after).Some?
    requires Enabled(Run(Do(Run(INITIAL, before).value, Deactivate(t)), after).value, Enter(u))
    ensures var d := Run(Do(Run(INITIAL, before).value, Deactivate(t)), after).value;
            At(Do(d, Enter(u)), u, Counted) ==> u in d.leases
  {
    InvOfRuns(INITIAL, before);
    var c := Run(INITIAL, before).value;
    InvIsKept(c, Deactivate(t));
    DeactivateCloses(c, t);
    ClosedHostStaysClosed(Do(c, Deactivate(t)), after);
    hide Run, Total, Caught, Wake;
  }

  lemma DeactivateCloses(c: Cell, t: Thread)
    requires Enabled(c, Deactivate(t))
    ensures Do(c, Deactivate(t)).host.Some? && !Do(c, Deactivate(t)).host.value.active
  {
  }

  /** A deactivate returns at once exactly when nothing is in flight, and waits otherwise; either way admission
      has ended. */
  lemma DeactivateWaitsExactly(steps: seq<Step>, t: Thread)
    requires Run(INITIAL, steps).Some? && Enabled(Run(INITIAL, steps).value, Deactivate(t))
    ensures var c := Run(INITIAL, steps).value;
            var d := Do(c, Deactivate(t));
            && d.host == Some(Admission(false, c.host.value.inFlight)) && d.leases == c.leases
            && if c.host.value.inFlight == 0 then t !in d.pcs && d.quiesced
               else At(d, t, Waiting(true)) && !d.quiesced
  {
    InvOfRuns(INITIAL, steps);
    hide Run, Total, Caught, Wake;
  }

  /** The last lease to go wakes every waiting deactivate, and each of them then returns. */
  lemma LastExitWakes(steps: seq<Step>, t: Thread, u: Thread)
    requires Run(INITIAL, steps).Some? && At(Run(INITIAL, steps).value, t, Uncounted)
    requires var c := Run(INITIAL, steps).value; c.host.value.inFlight == 1 && u in c.pcs && c.pcs[u].Waiting?
    ensures var c := Run(INITIAL, steps).value;
            && Enabled(c, Exit(t))
            && var d := Do(c, Exit(t));
               && d.host.value.inFlight == 0 && Enabled(d, Recheck(u))
               && u !in Do(d, Recheck(u)).pcs && Do(d, Recheck(u)).quiesced
  {
    InvOfRuns(INITIAL, steps);
    hide Run, Total, Caught;
  }
}
