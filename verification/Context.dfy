/** One plugin context: its host leases and its callback registry together, through deactivation. */
module Context {
  import opened Options
  import Lease = HostLease
  import Registry = CallbackRegistry

  type Thread = nat

  /** Where a thread is inside `deactivate`. */
  datatype Stage = Quiescing | Closing

  datatype State = State(
    cell: Lease.Cell,
    reg: Registry.State,
    stages: map<Thread, Stage>,
    begun: nat,      // calls of deactivate
    ended: nat,      // those that have returned
    hostCalls: nat   // host callbacks run so far
  )

  const INITIAL := State(Lease.INITIAL.(host := Some(Lease.Admission(true, 0))), Registry.INITIAL, map[], 0, 0, 0)

  datatype Step =
    | Host(h: Lease.Step)             // a step of some lease, or of a deactivate asleep on the host
    | CallHost(t: Thread)             // a host callback, run under a lease
    | BeginPair(t: Thread)            // `callback`, under a lease
    | Inside(r: Registry.Step)        // any other step of the registry
    | BeginDeactivate(t: Thread)      // deactivate: the host first,
    | BeginClose(t: Thread)           // then, once that has returned, the registry
    | EndDeactivate(t: Thread)
    | Free                            // the last clone of the context goes away

  predicate LeaseStep(h: Lease.Step) {
    h.Ask? || h.Enter? || h.Push? || h.Pop? || h.Exit? || h.Awaken? || h.Recheck?
  }

  predicate RegistryStep(r: Registry.Step) { !r.BeginPair? && !r.BeginClose? && !r.Release? }

  predicate Enabled(s: State, step: Step) {
    match step
    case Host(h) => LeaseStep(h) && (h.Pop? ==> h.t !in s.reg.pcs) && Lease.Enabled(s.cell, h)
    case CallHost(t) => t in s.cell.leases
    case BeginPair(t) => t in s.cell.leases && Registry.Enabled(s.reg, Registry.BeginPair(t))
    case Inside(r) => RegistryStep(r) && Registry.Enabled(s.reg, r)
    case BeginDeactivate(t) => t !in s.stages && Lease.Enabled(s.cell, Lease.Deactivate(t))
    case BeginClose(t) =>
      && t in s.stages && s.stages[t] == Quiescing && t !in s.cell.pcs
      && Registry.Enabled(s.reg, Registry.BeginClose(t))
    case EndDeactivate(t) => t in s.stages && s.stages[t] == Closing && t !in s.reg.pcs
    case Free => s.stages == map[] && Lease.Enabled(s.cell, Lease.Free) && Registry.Enabled(s.reg, Registry.Release)
  }

  function Do(s: State, step: Step): State
    requires Enabled(s, step)
  {
    match step
    case Host(h) => s.(cell := Lease.Do(s.cell, h))
    case CallHost(t) => s.(hostCalls := s.hostCalls + 1)
    case BeginPair(t) => s.(reg := Registry.Do(s.reg, Registry.BeginPair(t)))
    case Inside(r) => s.(reg := Registry.Do(s.reg, r))
    case BeginDeactivate(t) =>
      s.(cell := Lease.Do(s.cell, Lease.Deactivate(t)), stages := s.stages[t := Quiescing], begun := s.begun + 1)
    case BeginClose(t) =>
      s.(reg := Registry.Do(s.reg, Registry.BeginClose(t)), stages := s.stages[t := Closing])
    case EndDeactivate(t) => s.(stages := s.stages - {t}, ended := s.ended + 1)
    case Free => s.(cell := Lease.Do(s.cell, Lease.Free), reg := Registry.Do(s.reg, Registry.Release))
  }

  function Run(s: State, steps: seq<Step>): Option<State>
    decreases |steps|
  {
    if steps == [] then Some(s)
    else if Enabled(s, steps[0]) then Run(Do(s, steps[0]), steps[1..])
    else None
  }

  // ---------------------------------------------------------------- how the two halves hold together

  predicate Closes(p: Registry.Pc) { p.Closing? || p.Marking? }

  /** No lease will be granted any more. */
  predicate Over(c: Lease.Cell) { c.host.None? || c.quiesced }

  ghost predicate Link(s: State) {
    && (forall t :: t in s.reg.pcs && s.reg.pcs[t].Pairing? ==> t in s.cell.leases)
    && (forall t :: t in s.reg.pcs && Closes(s.reg.pcs[t]) ==> t in s.stages && s.stages[t] == Closing)
    && (forall t :: t in s.stages ==>
          && s.cell.host.Some?
          && (s.stages[t] == Quiescing ==> s.cell.quiesced || (t in s.cell.pcs && s.cell.pcs[t].Waiting?))
          && (s.stages[t] == Closing ==> s.cell.quiesced)
          && (s.stages[t] == Closing ==> s.reg.table.closed || (t in s.reg.pcs && Closes(s.reg.pcs[t]))))
    && (s.reg.table.closed ==> Over(s.cell))
    && (s.ended > 0 ==> s.reg.table.closed)
    && s.begun == s.ended + |s.stages|
  }

  ghost predicate Inv(s: State) { Lease.Inv(s.cell) && Registry.Inv(s.reg) && Link(s) }

  // ---------------------------------------------------------------- what each half does to the other

  /** How the call that takes a registry step may move: only `BeginPair` and `BeginClose` start a pair or a
      close, and a close ends, or drains, only with the registry closed. */
  lemma RegistryMoves(s: Registry.State, step: Registry.Step, c: Thread)
    requires Registry.Calls(s) && Registry.Enabled(s, step) && Registry.Caller(step) == Some(c)
    ensures var t := Registry.Do(s, step);
            && (c in t.pcs && t.pcs[c].Pairing? ==> step == Registry.BeginPair(c))
            && (c in t.pcs && Closes(t.pcs[c]) ==> step == Registry.BeginClose(c) || (c in s.pcs && Closes(s.pcs[c])))
            && (c in s.pcs && Closes(s.pcs[c]) ==> s.table.closed || (c in t.pcs && Closes(t.pcs[c])))
  {
    hide Registry.PairRegion, Registry.Holds, Registry.RemoveRegion, Registry.Alive, Registry.Unborrowed;
    hide Registry.Registered;
    hide Registry.Calls;
    if step.Mark? {
      MarkingMeansClosed(s, c);
    }
  }

  lemma MarkingMeansClosed(s: Registry.State, c: Thread)
    requires Registry.Calls(s) && c in s.pcs && s.pcs[c].Marking?
    ensures s.table.closed
  {
    assert Registry.Relies(s, s.pcs[c]);
  }

  /** Lease steps take a lease away only from the thread that drops it, a sleeping deactivate stays in its
      loop until the host is quiet, and a quiet host stays quiet. */
  lemma HostMoves(c: Lease.Cell, h: Lease.Step)
    requires Lease.Inv(c) && Lease.Enabled(c, h) && LeaseStep(h)
    ensures var d := Lease.Do(c, h);
            && c.host.Some? && d.host.Some?
            && (c.quiesced ==> d.quiesced)
            && (forall t :: t in c.leases && h != Lease.Pop(t) ==> t in d.leases)
            && (forall t :: t in c.pcs && c.pcs[t].Waiting? ==> d.quiesced || (t in d.pcs && d.pcs[t].Waiting?))
  {
    hide Lease.Counts, Lease.Places;
    if c.quiesced {
      Lease.QuietStep(c, h);
    }
  }

  lemma DeactivateMoves(c: Lease.Cell, t: Thread)
    requires Lease.Inv(c) && Lease.Enabled(c, Lease.Deactivate(t))
    ensures var d := Lease.Do(c, Lease.Deactivate(t));
            && c.host.Some? && d.host.Some? && d.leases == c.leases
            && (c.quiesced ==> d.quiesced)
            && (d.quiesced || (t in d.pcs && d.pcs[t].Waiting?))
            && (forall u :: u in c.pcs && c.pcs[u].Waiting? ==> u in d.pcs && d.pcs[u].Waiting?)
  {
    hide Lease.Counts, Lease.Places;
    if c.quiesced {
      Lease.QuietStep(c, Lease.Deactivate(t));
    }
  }

  /** A quiet host has no lease, so nobody is pairing. */
  lemma OverMeansNoLease(c: Lease.Cell)
    requires Lease.Inv(c) && Over(c)
    ensures c.leases == map[] && c.depths == map[] && Lease.Caught(c.pcs) == {}
  {
    if c.host.Some? {
      Lease.ZeroMeansNobody(c);
    }
  }

  // ---------------------------------------------------------------- the invariant is kept

  lemma HostKeepsLink(s: State, h: Lease.Step)
    requires Inv(s) && Enabled(s, Host(h))
    ensures Link(Do(s, Host(h)))
  {
    hide Lease.Inv, Lease.Do, Lease.Enabled, Registry.Inv;
    HostMoves(s.cell, h);
  }

  lemma RegistryFrame(s: Registry.State, r: Registry.Step)
    requires Registry.Inv(s) && Registry.Enabled(s, r) && RegistryStep(r)
    ensures var t := Registry.Do(s, r);
            && (forall c :: c in t.pcs && t.pcs[c].Pairing? ==> c in s.pcs && s.pcs[c].Pairing?)
            && (forall c :: c in t.pcs && Closes(t.pcs[c]) ==> c in s.pcs && Closes(s.pcs[c]))
            && (forall c :: c in s.pcs && Closes(s.pcs[c]) ==> s.table.closed || (c in t.pcs && Closes(t.pcs[c])))
            && (s.table.closed ==> t.table.closed)
            && (t.table.closed ==> s.table.closed || exists c :: c in s.pcs && Closes(s.pcs[c]))
  {
    hide Registry.Do, Registry.Enabled;
    assert Registry.Calls(s) && Registry.Outcomes(s);
    hide Registry.Inv, Registry.Calls, Registry.Outcomes;
    Registry.StepEvolves(s, r);
    if Registry.Caller(r).Some? {
      RegistryMoves(s, r, Registry.Caller(r).value);
    }
  }

  lemma RegistryKeepsLink(s: State, r: Registry.Step)
    requires Inv(s) && Registry.Enabled(s.reg, r) && RegistryStep(r)
    ensures Link(s.(reg := Registry.Do(s.reg, r)))
  {
    hide Lease.Inv, Registry.Do, Registry.Enabled, Registry.Inv;
    RegistryFrame(s.reg, r);
  }

  lemma BeginPairKeepsLink(s: State, t: Thread)
    requires Inv(s) && Enabled(s, BeginPair(t))
    ensures Link(Do(s, BeginPair(t)))
  {
    hide Lease.Inv, Registry.Inv;
  }

  lemma BeginDeactivateKeepsLink(s: State, t: Thread)
    requires Inv(s) && Enabled(s, BeginDeactivate(t))
    ensures Link(Do(s, BeginDeactivate(t)))
  {
    hide Lease.Inv, Lease.Do, Lease.Enabled, Registry.Inv;
    DeactivateMoves(s.cell, t);
  }

  lemma BeginCloseKeepsLink(s: State, t: Thread)
    requires Inv(s) && Enabled(s, BeginClose(t))
    ensures Link(Do(s, BeginClose(t)))
  {
    hide Lease.Inv, Registry.Inv;
    assert s.stages[t := Closing].Keys == s.stages.Keys;
  }

  lemma EndDeactivateKeepsLink(s: State, t: Thread)
    requires Inv(s) && Enabled(s, EndDeactivate(t))
    ensures Link(Do(s, EndDeactivate(t)))
  {
    hide Lease.Inv, Registry.Inv;
    assert (s.stages - {t}).Keys == s.stages.Keys - {t};
  }

  lemma FreeKeepsLink(s: State)
    requires Inv(s) && Enabled(s, Free)
    ensures Link(Do(s, Free))
  {
    hide Lease.Inv, Registry.Inv;
  }

  lemma InvIsKept(s: State, step: Step)
    requires Inv(s) && Enabled(s, step)
    ensures Inv(Do(s, step))
  {
    hide Lease.Inv, Lease.Do, Lease.Enabled, Registry.Inv, Registry.Do, Registry.Enabled, Link;
    match step
    case Host(h) =>
      Lease.InvIsKept(s.cell, h);
      HostKeepsLink(s, h);
    case CallHost(t) => CallKeepsLink(s);
    case BeginPair(t) =>
      Registry.InvIsKept(s.reg, Registry.BeginPair(t));
      BeginPairKeepsLink(s, t);
    case Inside(r) =>
      Registry.InvIsKept(s.reg, r);
      RegistryKeepsLink(s, r);
    case BeginDeactivate(t) =>
      Lease.InvIsKept(s.cell, Lease.Deactivate(t));
      BeginDeactivateKeepsLink(s, t);
    case BeginClose(t) =>
      Registry.InvIsKept(s.reg, Registry.BeginClose(t));
      BeginCloseKeepsLink(s, t);
    case EndDeactivate(t) => EndDeactivateKeepsLink(s, t);
    case Free =>
      Lease.InvIsKept(s.cell, Lease.Free);
      Registry.InvIsKept(s.reg, Registry.Release);
      FreeKeepsLink(s);
  }

  lemma CallKeepsLink(s: State)
    requires Link(s)
    ensures Link(s.(hostCalls := s.hostCalls + 1))
  {
  }

  lemma {:induction false} InvOfRuns(s: State, steps: seq<Step>)
    requires Inv(s) && Run(s, steps).Some?
    ensures Inv(Run(s, steps).value)
    decreases |steps|
  {
    hide Inv, Enabled, Do;
    if steps != [] {
      InvIsKept(s, steps[0]);
      InvOfRuns(Do(s, steps[0]), steps[1..]);
    }
  }

  lemma InitialInv()
    ensures Inv(INITIAL)
  {
    Registry.InitialInv();
    Lease.NobodyCounts();
  }

  // ---------------------------------------------------------------- after deactivation

  /** No lease is held, no pair is being issued, and every pair ever issued is terminal. */
  ghost predicate Dead(s: State) {
    Over(s.cell) && Registry.Finished(s.reg)
  }

  /** When a deactivate has returned and no other is still closing, everything is over. */
  lemma DeactivatedMeansDead(s: State)
    requires Inv(s) && s.ended > 0 && s.ended == s.begun
    ensures Dead(s)
  {
    hide Lease.Inv, Registry.Locks, Registry.Holders, Registry.Calls, Registry.Outcomes, Registry.Leftovers;
    assert s.stages == map[];
  }

  lemma DeadStep(s: State, step: Step)
    requires Inv(s) && Dead(s) && Enabled(s, step)
    ensures Over(Do(s, step).cell)
    ensures Do(s, step).hostCalls == s.hostCalls && Do(s, step).reg.entries.Keys == s.reg.entries.Keys
    ensures Registry.Finished(Do(s, step).reg)
  {
    hide Lease.Inv, Lease.Do, Lease.Enabled, Registry.Inv, Registry.Do, Registry.Enabled, Link, Registry.Finished;
    OverMeansNoLease(s.cell);
    match step
    case Host(h) => HostMoves(s.cell, h);
    case BeginDeactivate(t) => DeactivateMoves(s.cell, t);
    case Inside(r) => RegistryStaysFinished(s.reg, r);
    case BeginClose(t) => RegistryStaysFinished(s.reg, Registry.BeginClose(t));
    case Free => RegistryStaysFinished(s.reg, Registry.Release); HostIsGone(s.cell);
    case _ =>
  }

  lemma HostIsGone(c: Lease.Cell)
    requires Lease.Enabled(c, Lease.Free)
    ensures Lease.Do(c, Lease.Free).host.None?
  {
  }

  lemma RegistryStaysFinished(s: Registry.State, step: Registry.Step)
    requires Registry.Inv(s) && Registry.Finished(s) && Registry.Enabled(s, step)
    ensures Registry.Finished(Registry.Do(s, step)) && Registry.Do(s, step).entries.Keys == s.entries.Keys
  {
    hide Registry.Enabled, Registry.Do, Registry.Inv, Registry.Finished;
    assert Registry.Run(Registry.Do(s, step), []) == Options.Some(Registry.Do(s, step));
    assert [step][1..] == [];
    Registry.FinishedForever(s, [step]);
  }

  lemma {:induction false} DeadForever(s: State, steps: seq<Step>)
    requires Inv(s) && Dead(s) && Run(s, steps).Some?
    ensures var t := Run(s, steps).value;
            Inv(t) && Dead(t) && t.hostCalls == s.hostCalls && t.reg.entries.Keys == s.reg.entries.Keys
    decreases |steps|
  {
    hide Inv, Enabled, Do, Registry.Finished;
    if steps != [] {
      InvIsKept(s, steps[0]);
      DeadStep(s, steps[0]);
      DeadForever(Do(s, steps[0]), steps[1..]);
    }
  }

  /** Once every deactivate that began has returned: no lease is held or ever granted, no host callback runs
      or ever starts, no pair is ever issued, every pair issued is terminal, and none is pending for good. */
  lemma QuietForGood(before: seq<Step>, after: seq<Step>)
    requires Run(INITIAL, before).Some?
    requires var s := Run(INITIAL, before).value; s.ended > 0 && s.ended == s.begun && Run(s, after).Some?
    ensures var s := Run(INITIAL, before).value;
            var t := Run(s, after).value;
            && t.cell.leases == map[] && Lease.Caught(t.cell.pcs) == {} && t.hostCalls == s.hostCalls
            && t.reg.entries.Keys == s.reg.entries.Keys && |t.reg.table.live| == 0
            && forall e :: e in t.reg.entries ==> !t.reg.entries[e].state.Pending?
  {
    hide Enabled, Do, Run, Lease.Inv, Registry.Inv, Link;
    InitialInv();
    InvOfRuns(INITIAL, before);
    var s := Run(INITIAL, before).value;
    DeactivatedMeansDead(s);
    DeadForever(s, after);
    OverMeansNoLease(Run(s, after).value.cell);
  }
}
