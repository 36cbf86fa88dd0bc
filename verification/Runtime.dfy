/** The plugin runtime: the session slot over every context it ever built, from initialize to the silence
    after shutdown. */
module Runtime {
  import opened Options
  import Session
  import Context
  import Lease = HostLease
  import Registry = CallbackRegistry

  type Act = nat
  type Ctx = nat
  type Thread = nat

  datatype State = State(life: Session.State, contexts: map<Ctx, Context.State>)

  const INITIAL := State(Session.INITIAL, map[])

  datatype Step =
    | Life(l: Session.Step)                 // of the session slot, the gate or the plugin
    | Build(a: Act, k: Ctx)                 // initialize copies the host table into a new context
    | Use(k: Ctx, c: Context.Step)          // anything any thread does with a clone of a context
    | BeginDeactivate(a: Act, t: Thread)    // the activation calls deactivate on its thread
    | EndDeactivate(a: Act, t: Thread)

  predicate LifeStep(l: Session.Step) { !l.BeginInitialize? && !l.BeginDeactivate? && !l.EndDeactivate? }

  predicate UseStep(c: Context.Step) { !c.BeginDeactivate? && !c.EndDeactivate? }

  predicate Enabled(s: State, step: Step) {
    match step
    case Life(l) => LifeStep(l) && Session.Enabled(s.life, l)
    case Build(a, k) => Session.CanBeginInitialize(s.life, a, k)
    case Use(k, c) => UseStep(c) && k in s.contexts && Context.Enabled(s.contexts[k], c)
    case BeginDeactivate(a, t) =>
      && Session.CanBeginDeactivate(s.life, a) && s.life.pcs[a].k in s.contexts
      && Context.Enabled(s.contexts[s.life.pcs[a].k], Context.BeginDeactivate(t))
    case EndDeactivate(a, t) =>
      && Session.CanEndDeactivate(s.life, a) && s.life.pcs[a].k in s.contexts
      && Context.Enabled(s.contexts[s.life.pcs[a].k], Context.EndDeactivate(t))
  }

  function Do(s: State, step: Step): State
    requires Enabled(s, step)
  {
    match step
    case Life(l) => s.(life := Session.Do(s.life, l))
    case Build(a, k) => State(Session.DoBeginInitialize(s.life, a, k), s.contexts[k := Context.INITIAL])
    case Use(k, c) => s.(contexts := s.contexts[k := Context.Do(s.contexts[k], c)])
    case BeginDeactivate(a, t) =>
      var k := s.life.pcs[a].k;
      State(Session.DoBeginDeactivate(s.life, a),
            s.contexts[k := Context.Do(s.contexts[k], Context.BeginDeactivate(t))])
    case EndDeactivate(a, t) =>
      var k := s.life.pcs[a].k;
      State(Session.DoEndDeactivate(s.life, a), s.contexts[k := Context.Do(s.contexts[k], Context.EndDeactivate(t))])
  }

  function Run(s: State, steps: seq<Step>): Option<State>
    decreases |steps|
  {
    if steps == [] then Some(s)
    else if Enabled(s, steps[0]) then Run(Do(s, steps[0]), steps[1..])
    else None
  }

  // ---------------------------------------------------------------- the invariant

  /** Each context has been deactivated as often as the sessions say: at most once. */
  ghost predicate Agrees(life: Session.State, contexts: map<Ctx, Context.State>) {
    && contexts.Keys == life.contexts.Keys
    && forall k :: k in contexts ==>
         && contexts[k].begun == (if k in life.deactivations then 1 else 0)
         && contexts[k].ended == (if k in life.quiet then 1 else 0)
  }

  ghost predicate Sound(contexts: map<Ctx, Context.State>) {
    forall k :: k in contexts ==> Context.Inv(contexts[k])
  }

  ghost predicate Inv(s: State) { Session.Inv(s.life) && Sound(s.contexts) && Agrees(s.life, s.contexts) }

  lemma LifeKeepsAgreement(s: Session.State, l: Session.Step)
    requires LifeStep(l) && Session.Enabled(s, l)
    ensures var t := Session.Do(s, l);
            t.contexts == s.contexts && t.deactivations == s.deactivations && t.quiet == s.quiet
  {
    hide Session.LessArc, Session.AdmitRegion;
  }

  lemma UseKeepsCounts(s: Context.State, c: Context.Step)
    requires UseStep(c) && Context.Enabled(s, c)
    ensures Context.Do(s, c).begun == s.begun && Context.Do(s, c).ended == s.ended
  {
    hide Lease.Do, Lease.Enabled, Registry.Do, Registry.Enabled;
  }

  lemma BeginsOnce(s: Session.State, a: Act)
    requires Session.Inv(s) && Session.CanBeginDeactivate(s, a)
    ensures s.pcs[a].k !in s.deactivations && s.pcs[a].k !in s.quiet
  {
    hide Session.Counts, Session.Phases, Session.Takers;
    assert Session.Relies(s, a, s.pcs[a]);
  }

  lemma EndsOnce(s: Session.State, a: Act)
    requires Session.Inv(s) && Session.CanEndDeactivate(s, a)
    ensures s.pcs[a].k in s.deactivations && s.pcs[a].k !in s.quiet
  {
    hide Session.Counts, Session.Phases, Session.Takers;
    assert Session.Relies(s, a, s.pcs[a]);
  }

  lemma FreshContext(s: Session.State, a: Act, k: Ctx)
    requires Session.Inv(s) && Session.CanBeginInitialize(s, a, k)
    ensures k !in s.deactivations && k !in s.quiet
  {
    hide Session.Counts, Session.Phases, Session.Takers, Session.Activations;
  }

  lemma BuildIsAStep(s: Session.State, a: Act, k: Ctx)
    requires Session.Inv(s) && Session.CanBeginInitialize(s, a, k)
    ensures Session.Inv(Session.DoBeginInitialize(s, a, k))
  {
    hide Session.Inv;
    Session.InvIsKept(s, Session.BeginInitialize(a, k));
  }

  lemma BeginIsAStep(s: Session.State, a: Act)
    requires Session.Inv(s) && Session.CanBeginDeactivate(s, a)
    ensures Session.Inv(Session.DoBeginDeactivate(s, a))
  {
    hide Session.Inv;
    Session.InvIsKept(s, Session.BeginDeactivate(a));
  }

  lemma EndIsAStep(s: Session.State, a: Act)
    requires Session.Inv(s) && Session.CanEndDeactivate(s, a)
    ensures Session.Inv(Session.DoEndDeactivate(s, a))
  {
    hide Session.Inv;
    Session.InvIsKept(s, Session.EndDeactivate(a));
  }

  lemma BeginCounts(s: Context.State, t: Thread)
    requires Context.Enabled(s, Context.BeginDeactivate(t))
    ensures var d := Context.Do(s, Context.BeginDeactivate(t)); d.begun == s.begun + 1 && d.ended == s.ended
  {
  }

  lemma EndCounts(s: Context.State, t: Thread)
    requires Context.Enabled(s, Context.EndDeactivate(t))
    ensures var d := Context.Do(s, Context.EndDeactivate(t)); d.begun == s.begun && d.ended == s.ended + 1
  {
  }

  lemma LifeKeepsInv(s: State, l: Session.Step)
    requires Inv(s) && Enabled(s, Life(l))
    ensures Inv(Do(s, Life(l)))
  {
    hide Session.Inv, Session.Do, Session.Enabled, Context.Inv, Context.Do, Context.Enabled;
    Session.InvIsKept(s.life, l);
    LifeKeepsAgreement(s.life, l);
  }

  lemma BuildKeepsInv(s: State, a: Act, k: Ctx)
    requires Inv(s) && Enabled(s, Build(a, k))
    ensures Inv(Do(s, Build(a, k)))
  {
    hide Session.Inv, Session.Do, Session.Enabled, Context.Inv, Context.Do, Context.Enabled;
    BuildIsAStep(s.life, a, k);
    Context.InitialInv();
    FreshContext(s.life, a, k);
  }

  lemma UseKeepsInv(s: State, k: Ctx, c: Context.Step)
    requires Inv(s) && Enabled(s, Use(k, c))
    ensures Inv(Do(s, Use(k, c)))
  {
    hide Session.Inv, Session.Do, Session.Enabled, Context.Inv, Context.Do, Context.Enabled;
    Context.InvIsKept(s.contexts[k], c);
    UseKeepsCounts(s.contexts[k], c);
  }

  lemma BeginKeepsInv(s: State, a: Act, t: Thread)
    requires Inv(s) && Enabled(s, BeginDeactivate(a, t))
    ensures Inv(Do(s, BeginDeactivate(a, t)))
  {
    hide Session.Inv, Session.Do, Session.Enabled, Context.Inv, Context.Do, Context.Enabled;
    BeginIsAStep(s.life, a);
    BeginsOnce(s.life, a);
    Context.InvIsKept(s.contexts[s.life.pcs[a].k], Context.BeginDeactivate(t));
    BeginCounts(s.contexts[s.life.pcs[a].k], t);
  }

  lemma EndKeepsInv(s: State, a: Act, t: Thread)
    requires Inv(s) && Enabled(s, EndDeactivate(a, t))
    ensures Inv(Do(s, EndDeactivate(a, t)))
  {
    hide Session.Inv, Session.Do, Session.Enabled, Context.Inv, Context.Do, Context.Enabled;
    EndIsAStep(s.life, a);
    EndsOnce(s.life, a);
    Context.InvIsKept(s.contexts[s.life.pcs[a].k], Context.EndDeactivate(t));
    EndCounts(s.contexts[s.life.pcs[a].k], t);
  }

  lemma InvIsKept(s: State, step: Step)
    requires Inv(s) && Enabled(s, step)
    ensures Inv(Do(s, step))
  {
    hide Inv, Do, Enabled;
    match step
    case Life(l) => LifeKeepsInv(s, l);
    case Build(a, k) => BuildKeepsInv(s, a, k);
    case Use(k, c) => UseKeepsInv(s, k, c);
    case BeginDeactivate(a, t) => BeginKeepsInv(s, a, t);
    case EndDeactivate(a, t) => EndKeepsInv(s, a, t);
  }

  lemma {:induction false} InvOfRuns(s: State, steps: seq<Step>)
    requires Inv(s) && Run(s, steps).Some?
    ensures Inv(Run(s, steps).value)
    decreases |steps|
  {
    hide Inv, Enabled, Do;
    if steps != [] {
      InvIsKept(s, steps[0]);
      InvOfRuns(Do(s, steps[0]), steps[1..]);
    }
  }

  // ---------------------------------------------------------------- the silence afterwards

  lemma QuietMeansDead(s: State, k: Ctx)
    requires Inv(s) && k in s.life.quiet
    ensures k in s.contexts && Context.Dead(s.contexts[k]) && Context.Inv(s.contexts[k])
  {
    hide Context.Inv, Context.Dead;
    QuietIsBuilt(s.life, k);
    Context.DeactivatedMeansDead(s.contexts[k]);
  }

  lemma QuietIsBuilt(s: Session.State, k: Ctx)
    requires Session.Inv(s) && k in s.quiet
    ensures k in s.contexts && k in s.deactivations
  {
    hide Session.Counts, Session.Phases, Session.Takers, Session.Activations;
  }

  lemma QuietStep(s: State, step: Step, k: Ctx)
    requires Inv(s) && k in s.life.quiet && Enabled(s, step)
    ensures var t := Do(s, step);
            && k in s.contexts && k in t.life.quiet && k in t.contexts
            && t.contexts[k].hostCalls == s.contexts[k].hostCalls
            && t.contexts[k].reg.entries.Keys == s.contexts[k].reg.entries.Keys
  {
    hide Session.Inv, Session.Do, Session.Enabled, Context.Inv, Context.Do, Context.Enabled, Context.Dead;
    QuietMeansDead(s, k);
    match step
    case Life(l) => LifeKeepsAgreement(s.life, l);
    case Build(a, j) => FreshContext(s.life, a, j);
    case Use(j, c) =>
      if j == k {
        Context.DeadStep(s.contexts[k], c);
      }
    case BeginDeactivate(a, t) => BeginsOnce(s.life, a);
    case EndDeactivate(a, t) => EndsOnce(s.life, a);
  }

  lemma {:induction false} QuietForever(s: State, steps: seq<Step>, k: Ctx)
    requires Inv(s) && k in s.life.quiet && Run(s, steps).Some?
    ensures var t := Run(s, steps).value;
            && Inv(t) && k in s.contexts && k in t.life.quiet && k in t.contexts
            && t.contexts[k].hostCalls == s.contexts[k].hostCalls
            && t.contexts[k].reg.entries.Keys == s.contexts[k].reg.entries.Keys
    decreases |steps|
  {
    hide Inv, Enabled, Do;
    if steps != [] {
      InvIsKept(s, steps[0]);
      QuietStep(s, steps[0], k);
      QuietForever(Do(s, steps[0]), steps[1..], k);
    } else {
      QuietMeansBuilt(s, k);
    }
  }

  lemma QuietMeansBuilt(s: State, k: Ctx)
    requires Inv(s) && k in s.life.quiet
    ensures k in s.contexts
  {
    hide Context.Inv, Context.Dead;
    QuietMeansDead(s, k);
  }

  /** A context that nobody can reach the host through, all of whose pairs are settled. */
  ghost predicate Silent(c: Context.State) {
    && c.cell.leases == map[] && Lease.Caught(c.cell.pcs) == {} && |c.reg.table.live| == 0
    && forall e :: e in c.reg.entries ==> !c.reg.entries[e].state.Pending?
  }

  lemma DeadMeansSilent(c: Context.State)
    requires Context.Inv(c) && Context.Dead(c)
    ensures Silent(c)
  {
    hide Lease.Inv, Registry.Inv, Context.Link;
    Context.OverMeansNoLease(c.cell);
  }

  /** When a shutdown that took a session, or an initialize that failed after building its context, returns:
      from then on, whatever anybody does with the clones of that context, no lease on the host is held, no
      host callback runs or ever starts, no pair is ever issued, every pair it issued is terminal, and its
      number of pending callbacks is zero. If it had a session, the plugin was shut down and dropped. */
  lemma SilenceAfterDeactivation(before: seq<Step>, a: Act, t: Thread, after: seq<Step>)
    requires Run(INITIAL, before).Some? && Enabled(Run(INITIAL, before).value, EndDeactivate(a, t))
    requires Run(Do(Run(INITIAL, before).value, EndDeactivate(a, t)), after).Some?
    ensures var s := Run(INITIAL, before).value;
            var k := s.life.pcs[a].k;
            var now := Do(s, EndDeactivate(a, t));
            var later := Run(now, after).value;
            && k in now.contexts && k in later.contexts && Silent(later.contexts[k])
            && later.contexts[k].hostCalls == now.contexts[k].hostCalls
            && later.contexts[k].reg.entries.Keys == now.contexts[k].reg.entries.Keys
            && (k in s.life.sessions ==> s.life.sessions[k].shutdowns == 1 && s.life.sessions[k].drops == 1)
  {
    var s := Run(INITIAL, before).value;
    var k := s.life.pcs[a].k;
    hide Run, Session.Inv, Session.Enabled, Context.Inv, Context.Do, Context.Enabled, Context.Dead, Silent;
    InvOfRuns(INITIAL, before);
    InvIsKept(s, EndDeactivate(a, t));
    EndedSession(s.life, a);
    var now := Do(s, EndDeactivate(a, t));
    QuietForever(now, after, k);
    QuietMeansDead(Run(now, after).value, k);
    DeadMeansSilent(Run(now, after).value.contexts[k]);
  }

  lemma EndedSession(s: Session.State, a: Act)
    requires Session.Inv(s) && Session.CanEndDeactivate(s, a)
    ensures var k := s.pcs[a].k;
            k in s.sessions ==> s.sessions[k].shutdowns == 1 && s.sessions[k].drops == 1
  {
    hide Session.Counts, Session.Takers, Session.Deactivations;
    assert Session.Relies(s, a, s.pcs[a]);
  }
}
