/** The session slot and its invocation gate: initialize, invoke and shutdown, in every interleaving. */
module Session {
  import opened Bytes
  import opened Options

  type Act = nat       // one activation of initialize, invoke or shutdown
  type Ctx = nat       // a context, and the session installed with it
  type PluginId = nat

  // ---------------------------------------------------------------- the gate

  datatype Gate = Gate(accepting: bool, inFlight: nat)

  const NEW_GATE := Gate(true, 0)

  function AdmitRegion(g: Gate): Option<Gate> {
    if !g.accepting || g.inFlight + 1 > U64_MAX then None else Some(g.(inFlight := g.inFlight + 1))
  }

  function CloseRegion(g: Gate): Gate { g.(accepting := false) }

  /** The count goes down, and reaching zero notifies the waiters. */
  function LeaveRegion(g: Gate): (Gate, bool)
    requires g.inFlight > 0
  {
    (g.(inFlight := g.inFlight - 1), g.inFlight == 1)
  }

  /** The same gate on the fields its regions update. */
  class InvocationGate {
    var accepting: bool
    var inFlight: nat

    constructor ()
      ensures Guarded() == NEW_GATE
    {
      accepting, inFlight := true, 0;
    }

    function Guarded(): Gate
      reads this
    {
      Gate(accepting, inFlight)
    }

    method Admit() returns (admitted: bool)
      modifies this
      ensures admitted == AdmitRegion(old(Guarded())).Some?
      ensures Guarded() == if admitted then AdmitRegion(old(Guarded())).value else old(Guarded())
      ensures admitted <==> old(accepting) && old(inFlight) < U64_MAX
      ensures accepting == old(accepting) && inFlight == old(inFlight) + if admitted then 1 else 0
    {
      if !accepting || inFlight + 1 > U64_MAX {
        return false;
      }
      inFlight := inFlight + 1;
      admitted := true;
    }

    method Close()
      modifies this
      ensures Guarded() == CloseRegion(old(Guarded()))
      ensures AdmitRegion(Guarded()) == None
      ensures !accepting && inFlight == old(inFlight)
    {
      accepting := false;
    }

    method Leave() returns (notify: bool)
      requires inFlight > 0
      modifies this
      ensures (Guarded(), notify) == LeaveRegion(old(Guarded()))
      ensures accepting == old(accepting) && inFlight == old(inFlight) - 1 && (notify <==> inFlight == 0)
    {
      inFlight := inFlight - 1;
      notify := inFlight == 0;
    }
  }

  // ---------------------------------------------------------------- activations

  /** How far a session has come. */
  datatype Phase = Installed | Taken | Draining | Unwrapped | ShutDown | Dropped | Finished

  datatype Session = Session(
    plugin: PluginId,
    gate: Gate,
    strong: nat,          // strong count of the Arc around it
    sleepers: set<Act>,   // shutdowns asleep on the gate's condition variable
    phase: Phase,
    taker: Act,           // the shutdown that took it last
    started: nat,         // calls of Plugin::invoke begun and ended
    returned: nat,
    shutdowns: nat,       // calls of Plugin::shutdown
    drops: nat            // drops of the plugin
  )

  /** Where an activation is between two steps. */
  datatype Pc =
    | Building(k: Ctx)            // initialize: the context is built and its guard armed
    | Starting(k: Ctx)            // the slot was empty; inside Plugin::initialize
    | Started(k: Ctx)             // which returned Ok
    | Failing(k: Ctx)             // on the way out with the guard armed
    | Cloned(k: Ctx)              // invoke: holds the slot lock and a clone of the Arc
    | Running(k: Ctx)             // admitted, inside Plugin::invoke
    | Returning(k: Ctx)           // after it, returned or panicked, the lease still held
    | Leaving(k: Ctx)             // the Arc is gone, the count is not
    | Taking(k: Ctx, plugin: PluginId) // shutdown: holds the slot lock and the session
    | Waiting(k: Ctx)             // in the gate's wait loop
    | Unwrapping(k: Ctx)          // the loop has ended
    | Owning(k: Ctx)              // try_unwrap succeeded
    | Dropping(k: Ctx)            // Plugin::shutdown has returned or panicked
    | Quieting(k: Ctx)            // the plugin is dropped
    | Deactivating(k: Ctx)        // inside the context's deactivate

  datatype State = State(
    slot: Option<Ctx>,
    slotLock: Option<Act>,
    sessions: map<Ctx, Session>,
    contexts: map<Ctx, Act>,      // every context ever built, and the initialize that built it
    pcs: map<Act, Pc>,
    deactivations: map<Ctx, nat>, // calls of deactivate begun
    quiet: set<Ctx>,              // contexts whose deactivate has returned
    unwrapFailed: bool
  )

  const INITIAL := State(None, None, map[], map[], map[], map[], {}, false)

  datatype Step =
    | BeginInitialize(a: Act, k: Ctx) | Look(a: Act) | Initialized(a: Act, ok: bool) | Install(a: Act, plugin: PluginId)
    | BeginInvoke(a: Act) | Admit(a: Act) | Refuse(a: Act) | Return(a: Act) | DropArc(a: Act) | Leave(a: Act)
    | BeginShutdown(a: Act, plugin: PluginId) | Restore(a: Act) | CloseGate(a: Act) | Wait(a: Act)
    | Spurious(a: Act) | Unwrap(a: Act)
    | Shutdown(a: Act) | DropPlugin(a: Act)
    | BeginDeactivate(a: Act) | EndDeactivate(a: Act)

  predicate At(s: State, a: Act) { a in s.pcs && s.pcs[a].k in s.sessions }

  function Move(s: State, a: Act, p: Pc): State { s.(pcs := s.pcs[a := p]) }

  function With(s: State, k: Ctx, session: Session): State { s.(sessions := s.sessions[k := session]) }

  // initialize
  predicate CanBeginInitialize(s: State, a: Act, k: Ctx) { a !in s.pcs && k !in s.contexts }

  function DoBeginInitialize(s: State, a: Act, k: Ctx): State {
    s.(pcs := s.pcs[a := Building(k)], contexts := s.contexts[k := a])
  }

  predicate CanLook(s: State, a: Act) { a in s.pcs && s.pcs[a].Building? && s.slotLock.None? }

  function DoLook(s: State, a: Act): State
    requires CanLook(s, a)
  {
    Move(s, a, if s.slot.Some? then Failing(s.pcs[a].k) else Starting(s.pcs[a].k))
  }

  predicate CanInitialized(s: State, a: Act) { a in s.pcs && s.pcs[a].Starting? }

  function DoInitialized(s: State, a: Act, ok: bool): State
    requires CanInitialized(s, a)
  {
    Move(s, a, if ok then Started(s.pcs[a].k) else Failing(s.pcs[a].k))
  }

  predicate CanInstall(s: State, a: Act) { a in s.pcs && s.pcs[a].Started? && s.slotLock.None? }

  function DoInstall(s: State, a: Act, plugin: PluginId): State
    requires CanInstall(s, a)
  {
    var k := s.pcs[a].k;
    if s.slot.Some? then Move(s, a, Failing(k))
    else
      s.(slot := Some(k), pcs := s.pcs - {a},
         sessions := s.sessions[k := Session(plugin, NEW_GATE, 1, {}, Installed, 0, 0, 0, 0, 0)])
  }

  // invoke
  predicate CanBeginInvoke(s: State, a: Act) {
    a !in s.pcs && s.slotLock.None? && (s.slot.Some? ==> s.slot.value in s.sessions)
  }

  function DoBeginInvoke(s: State, a: Act): State
    requires CanBeginInvoke(s, a)
  {
    match s.slot
    case None => s
    case Some(k) =>
      s.(slotLock := Some(a), pcs := s.pcs[a := Cloned(k)],
         sessions := s.sessions[k := s.sessions[k].(strong := s.sessions[k].strong + 1)])
  }

  /** One Arc less; the last one drops the session, and the plugin with it. */
  function LessArc(x: Session): Session {
    if x.strong <= 1 then x.(strong := 0, drops := x.drops + 1) else x.(strong := x.strong - 1)
  }

  predicate CanAdmit(s: State, a: Act) {
    At(s, a) && s.pcs[a].Cloned? && AdmitRegion(s.sessions[s.pcs[a].k].gate).Some?
  }

  function DoAdmit(s: State, a: Act): State
    requires CanAdmit(s, a)
  {
    var k := s.pcs[a].k;
    var x := s.sessions[k];
    s.(slotLock := None, pcs := s.pcs[a := Running(k)],
       sessions := s.sessions[k := x.(gate := AdmitRegion(x.gate).value, started := x.started + 1)])
  }

  /** No lease: the clone goes away again. */
  predicate CanRefuse(s: State, a: Act) {
    At(s, a) && s.pcs[a].Cloned? && AdmitRegion(s.sessions[s.pcs[a].k].gate).None?
  }

  function DoRefuse(s: State, a: Act): State
    requires CanRefuse(s, a)
  {
    var k := s.pcs[a].k;
    s.(slotLock := None, pcs := s.pcs - {a}, sessions := s.sessions[k := LessArc(s.sessions[k])])
  }

  predicate CanReturn(s: State, a: Act) { At(s, a) && s.pcs[a].Running? }

  function DoReturn(s: State, a: Act): State
    requires CanReturn(s, a)
  {
    var k := s.pcs[a].k;
    var x := s.sessions[k];
    s.(pcs := s.pcs[a := Returning(k)], sessions := s.sessions[k := x.(returned := x.returned + 1)])
  }

  predicate CanDropArc(s: State, a: Act) { At(s, a) && s.pcs[a].Returning? }

  function DoDropArc(s: State, a: Act): State
    requires CanDropArc(s, a)
  {
    var k := s.pcs[a].k;
    s.(pcs := s.pcs[a := Leaving(k)], sessions := s.sessions[k := LessArc(s.sessions[k])])
  }

  predicate CanLeave(s: State, a: Act) {
    At(s, a) && s.pcs[a].Leaving? && s.sessions[s.pcs[a].k].gate.inFlight > 0
  }

  function DoLeave(s: State, a: Act): State
    requires CanLeave(s, a)
  {
    var k := s.pcs[a].k;
    var x := s.sessions[k];
    var (gate, notify) := LeaveRegion(x.gate);
    s.(pcs := s.pcs - {a}, sessions := s.sessions[k := x.(gate := gate, sleepers := if notify then {} else x.sleepers)])
  }

  // shutdown
  predicate CanBeginShutdown(s: State, a: Act) {
    a !in s.pcs && s.slotLock.None? && (s.slot.Some? ==> s.slot.value in s.sessions)
  }

  function DoBeginShutdown(s: State, a: Act, plugin: PluginId): State
    requires CanBeginShutdown(s, a)
  {
    match s.slot
    case None => s
    case Some(k) =>
      s.(slot := None, slotLock := Some(a), pcs := s.pcs[a := Taking(k, plugin)],
         sessions := s.sessions[k := s.sessions[k].(phase := Taken, taker := a)])
  }

  /** Another plugin's session goes back where it was. */
  predicate CanRestore(s: State, a: Act) {
    At(s, a) && s.pcs[a].Taking? && s.sessions[s.pcs[a].k].plugin != s.pcs[a].plugin
  }

  function DoRestore(s: State, a: Act): State
    requires CanRestore(s, a)
  {
    var k := s.pcs[a].k;
    s.(slot := Some(k), slotLock := None, pcs := s.pcs - {a},
       sessions := s.sessions[k := s.sessions[k].(phase := Installed)])
  }

  predicate CanCloseGate(s: State, a: Act) {
    At(s, a) && s.pcs[a].Taking? && s.sessions[s.pcs[a].k].plugin == s.pcs[a].plugin
  }

  function DoCloseGate(s: State, a: Act): State
    requires CanCloseGate(s, a)
  {
    var k := s.pcs[a].k;
    var x := s.sessions[k];
    s.(slotLock := None, pcs := s.pcs[a := Waiting(k)],
       sessions := s.sessions[k := x.(phase := Draining, gate := CloseRegion(x.gate))])
  }

  predicate CanWait(s: State, a: Act) { At(s, a) && s.pcs[a].Waiting? && a !in s.sessions[s.pcs[a].k].sleepers }

  function DoWait(s: State, a: Act): State
    requires CanWait(s, a)
  {
    var k := s.pcs[a].k;
    var x := s.sessions[k];
    if x.gate.inFlight == 0 then Move(s, a, Unwrapping(k))
    else With(s, k, x.(sleepers := x.sleepers + {a}))
  }

  predicate CanSpurious(s: State, a: Act) { At(s, a) && s.pcs[a].Waiting? }

  function DoSpurious(s: State, a: Act): State
    requires CanSpurious(s, a)
  {
    var k := s.pcs[a].k;
    With(s, k, s.sessions[k].(sleepers := s.sessions[k].sleepers - {a}))
  }

  predicate CanUnwrap(s: State, a: Act) { At(s, a) && s.pcs[a].Unwrapping? }

  /** `Arc::try_unwrap`: the session moves out only when this is the one strong reference. */
  function DoUnwrap(s: State, a: Act): State
    requires CanUnwrap(s, a)
  {
    var k := s.pcs[a].k;
    var x := s.sessions[k];
    if x.strong != 1 then s.(unwrapFailed := true, pcs := s.pcs[a := Quieting(k)])
    else s.(pcs := s.pcs[a := Owning(k)], sessions := s.sessions[k := x.(strong := 0, phase := Unwrapped)])
  }

  predicate CanShutdown(s: State, a: Act) { At(s, a) && s.pcs[a].Owning? }

  function DoShutdown(s: State, a: Act): State
    requires CanShutdown(s, a)
  {
    var k := s.pcs[a].k;
    var x := s.sessions[k];
    s.(pcs := s.pcs[a := Dropping(k)], sessions := s.sessions[k := x.(shutdowns := x.shutdowns + 1, phase := ShutDown)])
  }

  predicate CanDropPlugin(s: State, a: Act) { At(s, a) && s.pcs[a].Dropping? }

  function DoDropPlugin(s: State, a: Act): State
    requires CanDropPlugin(s, a)
  {
    var k := s.pcs[a].k;
    var x := s.sessions[k];
    s.(pcs := s.pcs[a := Quieting(k)], sessions := s.sessions[k := x.(drops := x.drops + 1, phase := Dropped)])
  }

  // deactivation: by a failing initialize, whose guard is still armed, or at the end of a shutdown
  predicate CanBeginDeactivate(s: State, a: Act) { a in s.pcs && (s.pcs[a].Failing? || s.pcs[a].Quieting?) }

  function DoBeginDeactivate(s: State, a: Act): State
    requires CanBeginDeactivate(s, a)
  {
    var k := s.pcs[a].k;
    s.(pcs := s.pcs[a := Deactivating(k)],
       deactivations := s.deactivations[k := (if k in s.deactivations then s.deactivations[k] else 0) + 1])
  }

  predicate CanEndDeactivate(s: State, a: Act) { a in s.pcs && s.pcs[a].Deactivating? }

  function DoEndDeactivate(s: State, a: Act): State
    requires CanEndDeactivate(s, a)
  {
    var k := s.pcs[a].k;
    s.(pcs := s.pcs - {a}, quiet := s.quiet + {k},
       sessions := if k in s.sessions then s.sessions[k := s.sessions[k].(phase := Finished)] else s.sessions)
  }

  predicate Enabled(s: State, step: Step) {
    match step
    case BeginInitialize(a, k) => CanBeginInitialize(s, a, k)
    case Look(a) => CanLook(s, a)
    case Initialized(a, _) => CanInitialized(s, a)
    case Install(a, _) => CanInstall(s, a)
    case BeginInvoke(a) => CanBeginInvoke(s, a)
    case Admit(a) => CanAdmit(s, a)
    case Refuse(a) => CanRefuse(s, a)
    case Return(a) => CanReturn(s, a)
    case DropArc(a) => CanDropArc(s, a)
    case Leave(a) => CanLeave(s, a)
    case BeginShutdown(a, _) => CanBeginShutdown(s, a)
    case Restore(a) => CanRestore(s, a)
    case CloseGate(a) => CanCloseGate(s, a)
    case Wait(a) => CanWait(s, a)
    case Spurious(a) => CanSpurious(s, a)
    case Unwrap(a) => CanUnwrap(s, a)
    case Shutdown(a) => CanShutdown(s, a)
    case DropPlugin(a) => CanDropPlugin(s, a)
    case BeginDeactivate(a) => CanBeginDeactivate(s, a)
    case EndDeactivate(a) => CanEndDeactivate(s, a)
  }

  function Do(s: State, step: Step): State
    requires Enabled(s, step)
  {
    match step
    case BeginInitialize(a, k) => DoBeginInitialize(s, a, k)
    case Look(a) => DoLook(s, a)
    case Initialized(a, ok) => DoInitialized(s, a, ok)
    case Install(a, plugin) => DoInstall(s, a, plugin)
    case BeginInvoke(a) => DoBeginInvoke(s, a)
    case Admit(a) => DoAdmit(s, a)
    case Refuse(a) => DoRefuse(s, a)
    case Return(a) => DoReturn(s, a)
    case DropArc(a) => DoDropArc(s, a)
    case Leave(a) => DoLeave(s, a)
    case BeginShutdown(a, plugin) => DoBeginShutdown(s, a, plugin)
    case Restore(a) => DoRestore(s, a)
    case CloseGate(a) => DoCloseGate(s, a)
    case Wait(a) => DoWait(s, a)
    case Spurious(a) => DoSpurious(s, a)
    case Unwrap(a) => DoUnwrap(s, a)
    case Shutdown(a) => DoShutdown(s, a)
    case DropPlugin(a) => DoDropPlugin(s, a)
    case BeginDeactivate(a) => DoBeginDeactivate(s, a)
    case EndDeactivate(a) => DoEndDeactivate(s, a)
  }

  function Run(s: State, steps: seq<Step>): Option<State>
    decreases |steps|
  {
    if steps == [] then Some(s)
    else if Enabled(s, steps[0]) then Run(Do(s, steps[0]), steps[1..])
    else None
  }

  // ---------------------------------------------------------------- the invariant

  datatype Role = Arc | Flight | Call

  /** Who holds an Arc of a session, who is counted in its gate, and who is inside its plugin. */
  predicate Plays(p: Pc, k: Ctx, role: Role) {
    && p.k == k
    && match role
       case Arc => p.Cloned? || p.Running? || p.Returning? || p.Taking? || p.Waiting? || p.Unwrapping?
       case Flight => p.Running? || p.Returning? || p.Leaving?
       case Call => p.Running?
  }

  function Crew(pcs: map<Act, Pc>, k: Ctx, role: Role): set<Act> {
    set a | a in pcs && Plays(pcs[a], k, role)
  }

  function One(b: bool): nat { if b then 1 else 0 }

  ghost predicate Counts(s: State) {
    forall k :: k in s.sessions ==>
      && s.sessions[k].strong == One(s.sessions[k].phase.Installed?) + |Crew(s.pcs, k, Arc)|
      && s.sessions[k].gate.inFlight == |Crew(s.pcs, k, Flight)|
      && s.sessions[k].started == s.sessions[k].returned + |Crew(s.pcs, k, Call)|
  }

  predicate Early(x: Session) { x.phase.Installed? || x.phase.Taken? }

  predicate Held(x: Session) { x.phase.Taken? || x.phase.Draining? }

  predicate After(x: Session) { !Early(x) && !x.phase.Draining? }

  /** What is true of each session by its phase. */
  ghost predicate Phases(s: State) {
    && (s.slot.Some? ==> s.slot.value in s.sessions)
    && forall k :: k in s.sessions ==>
         var x := s.sessions[k];
         && k in s.contexts
         && (x.phase.Installed? <==> s.slot == Some(k))
         && (x.gate.accepting <==> Early(x))
         && (After(x) ==> x.gate.inFlight == 0)
         && (x.sleepers != {} ==> x.gate.inFlight > 0)
         && x.shutdowns == One(After(x) && !x.phase.Unwrapped?)
         && x.drops == One(x.phase.Dropped? || x.phase.Finished?)
  }

  predicate Takes(p: Pc) { p.Taking? || p.Waiting? || p.Unwrapping? || p.Owning? || p.Dropping? || p.Quieting? }

  function PhaseOf(p: Pc): Phase {
    match p
    case Taking(_, _) => Taken
    case Waiting(_) => Draining
    case Unwrapping(_) => Draining
    case Owning(_) => Unwrapped
    case Dropping(_) => ShutDown
    case _ => Dropped
  }

  predicate Initializes(p: Pc) { p.Building? || p.Starting? || p.Started? || p.Failing? }

  predicate Invokes(p: Pc) { p.Cloned? || p.Running? || p.Returning? || p.Leaving? }

  /** What each activation relies on. */
  ghost predicate Relies(s: State, a: Act, p: Pc) {
    && (Initializes(p) ==> p.k in s.contexts && s.contexts[p.k] == a && p.k !in s.sessions && p.k !in s.deactivations)
    && (Invokes(p) ==> p.k in s.sessions)
    && (p.Cloned? ==> s.slotLock == Some(a) && s.slot == Some(p.k))
    && (Takes(p) ==> p.k in s.sessions && s.sessions[p.k].taker == a && s.sessions[p.k].phase == PhaseOf(p))
    && (p.Taking? ==> s.slotLock == Some(a) && s.slot == None)
    && (p.Unwrapping? ==> s.sessions[p.k].gate.inFlight == 0)
    && (p.Quieting? ==> p.k !in s.deactivations)
    && (p.Deactivating? ==>
          && p.k in s.deactivations && p.k !in s.quiet && p.k in s.contexts
          && (p.k in s.sessions ==> s.sessions[p.k].taker == a && s.sessions[p.k].phase.Dropped?)
          && (p.k !in s.sessions ==> s.contexts[p.k] == a))
  }

  ghost predicate Activations(s: State) { forall a :: a in s.pcs ==> Relies(s, a, s.pcs[a]) }

  /** A session that has been taken and not yet unwrapped is in the hands of its taker. */
  ghost predicate Takers(s: State) {
    forall k :: k in s.sessions && Held(s.sessions[k]) ==>
      && s.sessions[k].taker in s.pcs && Plays(s.pcs[s.sessions[k].taker], k, Arc) && Takes(s.pcs[s.sessions[k].taker])
  }

  ghost predicate Deactivations(s: State) {
    && (forall k :: k in s.deactivations ==> s.deactivations[k] == 1 && k in s.contexts)
    && (forall k :: k in s.deactivations && k in s.sessions ==>
        s.sessions[k].phase.Dropped? || s.sessions[k].phase.Finished?)
    && (forall k :: k in s.sessions && s.sessions[k].phase.Finished? ==> k in s.quiet)
    && (forall k :: k in s.quiet ==> k in s.deactivations)
  }

  ghost predicate Inv(s: State) {
    Counts(s) && Phases(s) && Activations(s) && Takers(s) && Deactivations(s) && !s.unwrapFailed
  }
  // ---------------------------------------------------------------- one step at a time

  lemma SeatOne(pcs: map<Act, Pc>, a: Act, p: Pc, k: Ctx, role: Role)
    ensures |Crew(pcs[a := p], k, role)| ==
            |Crew(pcs, k, role)| - One(a in pcs && Plays(pcs[a], k, role)) + One(Plays(p, k, role))
  {
    hide Plays;
    var crew := Crew(pcs, k, role);
    var rest := crew - {a};
    assert |rest| == |crew| - One(a in crew);
    assert |rest + {a}| == |rest| + 1;
    assert Crew(pcs[a := p], k, role) == if Plays(p, k, role) then rest + {a} else rest;
  }

  lemma Seat(pcs: map<Act, Pc>, a: Act, p: Pc)
    ensures forall k, role :: |Crew(pcs[a := p], k, role)| ==
              |Crew(pcs, k, role)| - One(a in pcs && Plays(pcs[a], k, role)) + One(Plays(p, k, role))
  {
    hide Crew, Plays, One;
    forall k, role
      ensures |Crew(pcs[a := p], k, role)| ==
              |Crew(pcs, k, role)| - One(a in pcs && Plays(pcs[a], k, role)) + One(Plays(p, k, role))
    {
      SeatOne(pcs, a, p, k, role);
    }
  }

  lemma Unseat(pcs: map<Act, Pc>, a: Act)
    ensures forall k, role :: |Crew(pcs - {a}, k, role)| ==
              |Crew(pcs, k, role)| - One(a in pcs && Plays(pcs[a], k, role))
  {
    forall k, role
      ensures |Crew(pcs - {a}, k, role)| == |Crew(pcs, k, role)| - One(a in pcs && Plays(pcs[a], k, role))
    {
      assert Crew(pcs - {a}, k, role) == Crew(pcs, k, role) - {a};
    }
  }

  lemma Present(pcs: map<Act, Pc>, a: Act, k: Ctx, role: Role)
    requires a in pcs && Plays(pcs[a], k, role)
    ensures |Crew(pcs, k, role)| >= 1
  {
    assert a in Crew(pcs, k, role);
  }

  lemma BothPresent(pcs: map<Act, Pc>, a: Act, b: Act, k: Ctx, role: Role)
    requires a in pcs && b in pcs && a != b && Plays(pcs[a], k, role) && Plays(pcs[b], k, role)
    ensures |Crew(pcs, k, role)| >= 2
  {
    Unseat(pcs, a);
    Present(pcs - {a}, b, k, role);
  }

  /** While an invocation still holds its Arc it is not the last one. */
  lemma NeverTheLast(s: State, a: Act)
    requires Counts(s) && Phases(s) && Activations(s) && Takers(s) && a in s.pcs
    requires (s.pcs[a].Cloned? || s.pcs[a].Returning?)
    ensures s.pcs[a].k in s.sessions && s.sessions[s.pcs[a].k].strong >= 2
  {
    hide Crew;
    var k := s.pcs[a].k;
    assert Relies(s, a, s.pcs[a]);
    Present(s.pcs, a, k, Arc);
    if Held(s.sessions[k]) {
      BothPresent(s.pcs, a, s.sessions[k].taker, k, Arc);
    } else if s.pcs[a].Returning? {
      Present(s.pcs, a, k, Flight);
    }
  }

  /** The heart of shutdown: when the wait loop has ended the taker's is the only Arc left. */
  lemma UnwrapSucceeds(s: State, a: Act)
    requires Counts(s) && Phases(s) && Activations(s) && a in s.pcs && s.pcs[a].Unwrapping?
    ensures s.pcs[a].k in s.sessions && s.sessions[s.pcs[a].k].strong == 1
  {
    var k := s.pcs[a].k;
    assert Relies(s, a, s.pcs[a]);
    assert Crew(s.pcs, k, Flight) == {};
    forall b ensures b in Crew(s.pcs, k, Arc) <==> b == a {
      if b in Crew(s.pcs, k, Arc) {
        assert Relies(s, b, s.pcs[b]);
        assert b !in Crew(s.pcs, k, Flight);
      }
    }
    assert Crew(s.pcs, k, Arc) == {a};
  }

  lemma BeginInitializeKeepsRest(s: State, a: Act, k: Ctx)
    requires Phases(s) && Activations(s) && Takers(s) && Deactivations(s) && CanBeginInitialize(s, a, k)
    ensures Phases(DoBeginInitialize(s, a, k)) && Activations(DoBeginInitialize(s, a, k))
    ensures Takers(DoBeginInitialize(s, a, k)) && Deactivations(DoBeginInitialize(s, a, k))
  {
    hide Crew;
  }

  lemma LookKeepsPhases(s: State, a: Act)
    requires Phases(s) && Activations(s) && CanLook(s, a)
    ensures Phases(DoLook(s, a)) && Activations(DoLook(s, a))
  {
    hide Crew, Takers, Deactivations;
  }

  lemma LookKeepsTakers(s: State, a: Act)
    requires Takers(s) && Deactivations(s) && CanLook(s, a)
    ensures Takers(DoLook(s, a)) && Deactivations(DoLook(s, a))
  {
    hide Crew, Phases, Activations;
  }

  lemma LookKeepsRest(s: State, a: Act)
    requires Phases(s) && Activations(s) && Takers(s) && Deactivations(s) && CanLook(s, a)
    ensures Phases(DoLook(s, a)) && Activations(DoLook(s, a)) && Takers(DoLook(s, a)) && Deactivations(DoLook(s, a))
  {
    hide Phases, Activations, Takers, Deactivations, CanLook, DoLook;
    LookKeepsPhases(s, a);
    LookKeepsTakers(s, a);
  }

  lemma InitializedKeepsRest(s: State, a: Act, ok: bool)
    requires Phases(s) && Activations(s) && Takers(s) && Deactivations(s) && CanInitialized(s, a)
    ensures Phases(DoInitialized(s, a, ok)) && Activations(DoInitialized(s, a, ok))
    ensures Takers(DoInitialized(s, a, ok)) && Deactivations(DoInitialized(s, a, ok))
  {
    hide Crew;
  }

  lemma InstallKeepsPhases(s: State, a: Act, plugin: PluginId)
    requires Phases(s) && Activations(s) && CanInstall(s, a)
    ensures Phases(DoInstall(s, a, plugin))
  {
    hide Crew;
  }

  lemma InstallKeepsActivations(s: State, a: Act, plugin: PluginId)
    requires Activations(s) && CanInstall(s, a)
    ensures Activations(DoInstall(s, a, plugin))
  {
    hide Crew;
  }

  lemma InstallKeepsTakers(s: State, a: Act, plugin: PluginId)
    requires Takers(s) && Deactivations(s) && Activations(s) && CanInstall(s, a)
    ensures Takers(DoInstall(s, a, plugin)) && Deactivations(DoInstall(s, a, plugin))
  {
  }

  lemma BeginInvokeKeepsPhases(s: State, a: Act)
    requires Phases(s) && CanBeginInvoke(s, a)
    ensures Phases(DoBeginInvoke(s, a))
  {
    hide Crew;
  }

  lemma BeginInvokeKeepsActivations(s: State, a: Act)
    requires Activations(s) && Phases(s) && CanBeginInvoke(s, a)
    ensures Activations(DoBeginInvoke(s, a))
  {
    hide Crew;
  }

  lemma BeginInvokeKeepsTakers(s: State, a: Act)
    requires Takers(s) && Deactivations(s) && CanBeginInvoke(s, a)
    ensures Takers(DoBeginInvoke(s, a)) && Deactivations(DoBeginInvoke(s, a))
  {
  }

  lemma AdmitKeepsPhases(s: State, a: Act)
    requires Phases(s) && Activations(s) && CanAdmit(s, a)
    ensures Phases(DoAdmit(s, a))
  {
    hide Crew;
  }

  lemma AdmitKeepsActivations(s: State, a: Act)
    requires Activations(s) && Phases(s) && CanAdmit(s, a)
    ensures Activations(DoAdmit(s, a))
  {
    hide Crew;
  }

  lemma AdmitKeepsTakers(s: State, a: Act)
    requires Takers(s) && Deactivations(s) && CanAdmit(s, a)
    ensures Takers(DoAdmit(s, a)) && Deactivations(DoAdmit(s, a))
  {
    hide AdmitRegion;
  }

  lemma RefuseKeepsPhases(s: State, a: Act)
    requires Phases(s) && CanRefuse(s, a) && s.sessions[s.pcs[a].k].strong >= 2
    ensures Phases(DoRefuse(s, a))
  {
    hide Crew;
  }

  lemma RefuseKeepsActivations(s: State, a: Act)
    requires Activations(s) && CanRefuse(s, a)
    ensures Activations(DoRefuse(s, a))
  {
    hide Crew;
  }

  lemma RefuseKeepsTakers(s: State, a: Act)
    requires Takers(s) && Deactivations(s) && CanRefuse(s, a)
    ensures Takers(DoRefuse(s, a)) && Deactivations(DoRefuse(s, a))
  {
  }

  lemma ReturnKeepsPhases(s: State, a: Act)
    requires Phases(s) && CanReturn(s, a)
    ensures Phases(DoReturn(s, a))
  {
    hide Crew;
  }

  lemma ReturnKeepsActivations(s: State, a: Act)
    requires Activations(s) && CanReturn(s, a)
    ensures Activations(DoReturn(s, a))
  {
    hide Crew;
  }

  lemma ReturnKeepsTakers(s: State, a: Act)
    requires Takers(s) && Deactivations(s) && CanReturn(s, a)
    ensures Takers(DoReturn(s, a)) && Deactivations(DoReturn(s, a))
  {
  }

  lemma DropArcKeepsPhases(s: State, a: Act)
    requires Phases(s) && CanDropArc(s, a) && s.sessions[s.pcs[a].k].strong >= 2
    ensures Phases(DoDropArc(s, a))
  {
    hide Crew;
  }

  lemma DropArcKeepsActivations(s: State, a: Act)
    requires Activations(s) && CanDropArc(s, a)
    ensures Activations(DoDropArc(s, a))
  {
    hide Crew;
  }

  lemma DropArcKeepsTakers(s: State, a: Act)
    requires Takers(s) && Deactivations(s) && CanDropArc(s, a)
    ensures Takers(DoDropArc(s, a)) && Deactivations(DoDropArc(s, a))
  {
  }

  lemma LeaveKeepsPhases(s: State, a: Act)
    requires Phases(s) && CanLeave(s, a)
    ensures Phases(DoLeave(s, a))
  {
    hide Crew;
  }

  lemma LeaveKeepsActivations(s: State, a: Act)
    requires Activations(s) && CanLeave(s, a)
    ensures Activations(DoLeave(s, a))
  {
    hide Crew;
  }

  lemma LeaveKeepsTakers(s: State, a: Act)
    requires Takers(s) && Deactivations(s) && CanLeave(s, a)
    ensures Takers(DoLeave(s, a)) && Deactivations(DoLeave(s, a))
  {
  }

  lemma BeginShutdownKeepsPhases(s: State, a: Act, plugin: PluginId)
    requires Phases(s) && CanBeginShutdown(s, a)
    ensures Phases(DoBeginShutdown(s, a, plugin))
  {
    hide Crew;
  }

  lemma BeginShutdownKeepsActivations(s: State, a: Act, plugin: PluginId)
    requires Activations(s) && Phases(s) && CanBeginShutdown(s, a)
    ensures Activations(DoBeginShutdown(s, a, plugin))
  {
    hide Crew;
  }

  lemma BeginShutdownKeepsTakers(s: State, a: Act, plugin: PluginId)
    requires Takers(s) && Deactivations(s) && Phases(s) && CanBeginShutdown(s, a)
    ensures Takers(DoBeginShutdown(s, a, plugin)) && Deactivations(DoBeginShutdown(s, a, plugin))
  {
  }

  lemma RestoreKeepsPhases(s: State, a: Act)
    requires Phases(s) && Activations(s) && CanRestore(s, a)
    ensures Phases(DoRestore(s, a))
  {
    hide Crew;
  }

  lemma RestoreKeepsActivations(s: State, a: Act)
    requires Activations(s) && CanRestore(s, a)
    ensures Activations(DoRestore(s, a))
  {
    hide Crew;
  }

  lemma RestoreKeepsTakers(s: State, a: Act)
    requires Takers(s) && Deactivations(s) && Activations(s) && CanRestore(s, a)
    ensures Takers(DoRestore(s, a)) && Deactivations(DoRestore(s, a))
  {
  }

  lemma CloseGateKeepsPhases(s: State, a: Act)
    requires Phases(s) && Activations(s) && CanCloseGate(s, a)
    ensures Phases(DoCloseGate(s, a))
  {
    hide Crew;
  }

  lemma CloseGateKeepsActivations(s: State, a: Act)
    requires Activations(s) && CanCloseGate(s, a)
    ensures Activations(DoCloseGate(s, a))
  {
    hide Crew;
  }

  lemma CloseGateKeepsTakers(s: State, a: Act)
    requires Takers(s) && Deactivations(s) && Activations(s) && CanCloseGate(s, a)
    ensures Takers(DoCloseGate(s, a)) && Deactivations(DoCloseGate(s, a))
  {
  }

  lemma WaitKeepsPhases(s: State, a: Act)
    requires Phases(s) && CanWait(s, a)
    ensures Phases(DoWait(s, a))
  {
    hide Crew;
  }

  lemma WaitKeepsActivations(s: State, a: Act)
    requires Activations(s) && CanWait(s, a)
    ensures Activations(DoWait(s, a))
  {
    hide Crew;
  }

  lemma WaitKeepsTakers(s: State, a: Act)
    requires Takers(s) && Deactivations(s) && CanWait(s, a)
    ensures Takers(DoWait(s, a)) && Deactivations(DoWait(s, a))
  {
  }

  lemma SpuriousKeepsPhases(s: State, a: Act)
    requires Phases(s) && CanSpurious(s, a)
    ensures Phases(DoSpurious(s, a))
  {
    hide Crew;
  }

  lemma SpuriousKeepsActivations(s: State, a: Act)
    requires Activations(s) && CanSpurious(s, a)
    ensures Activations(DoSpurious(s, a))
  {
    hide Crew;
  }

  lemma SpuriousKeepsTakers(s: State, a: Act)
    requires Takers(s) && Deactivations(s) && CanSpurious(s, a)
    ensures Takers(DoSpurious(s, a)) && Deactivations(DoSpurious(s, a))
  {
  }

  lemma UnwrapKeepsPhases(s: State, a: Act)
    requires Phases(s) && Activations(s) && CanUnwrap(s, a) && s.sessions[s.pcs[a].k].strong == 1
    ensures Phases(DoUnwrap(s, a))
  {
    hide Crew;
  }

  lemma UnwrapKeepsActivations(s: State, a: Act)
    requires Activations(s) && CanUnwrap(s, a) && s.sessions[s.pcs[a].k].strong == 1
    ensures Activations(DoUnwrap(s, a))
  {
    hide Crew;
  }

  lemma UnwrapKeepsTakers(s: State, a: Act)
    requires Takers(s) && Deactivations(s) && Activations(s) && CanUnwrap(s, a) && s.sessions[s.pcs[a].k].strong == 1
    ensures Takers(DoUnwrap(s, a)) && Deactivations(DoUnwrap(s, a))
  {
  }

  lemma ShutdownKeepsPhases(s: State, a: Act)
    requires Phases(s) && Activations(s) && CanShutdown(s, a)
    ensures Phases(DoShutdown(s, a))
  {
    hide Crew;
  }

  lemma ShutdownKeepsActivations(s: State, a: Act)
    requires Activations(s) && CanShutdown(s, a)
    ensures Activations(DoShutdown(s, a))
  {
    hide Crew;
  }

  lemma ShutdownKeepsTakers(s: State, a: Act)
    requires Takers(s) && Deactivations(s) && Activations(s) && CanShutdown(s, a)
    ensures Takers(DoShutdown(s, a)) && Deactivations(DoShutdown(s, a))
  {
  }

  lemma DropPluginKeepsPhases(s: State, a: Act)
    requires Phases(s) && Activations(s) && CanDropPlugin(s, a)
    ensures Phases(DoDropPlugin(s, a))
  {
    hide Crew;
  }

  lemma DropPluginKeepsActivations(s: State, a: Act)
    requires Activations(s) && Deactivations(s) && CanDropPlugin(s, a)
    ensures Activations(DoDropPlugin(s, a))
  {
    hide Crew;
  }

  lemma DropPluginKeepsTakers(s: State, a: Act)
    requires Takers(s) && Deactivations(s) && Activations(s) && CanDropPlugin(s, a)
    ensures Takers(DoDropPlugin(s, a)) && Deactivations(DoDropPlugin(s, a))
  {
  }

  lemma BeginDeactivateKeepsPhases(s: State, a: Act)
    requires Phases(s) && CanBeginDeactivate(s, a)
    ensures Phases(DoBeginDeactivate(s, a))
  {
    hide Crew;
  }

  lemma BeginDeactivateKeepsActivations(s: State, a: Act)
    requires Activations(s) && Phases(s) && Deactivations(s) && CanBeginDeactivate(s, a)
    ensures Activations(DoBeginDeactivate(s, a))
  {
    hide Crew;
  }

  lemma BeginDeactivateKeepsTakers(s: State, a: Act)
    requires Takers(s) && Deactivations(s) && Activations(s) && Phases(s) && CanBeginDeactivate(s, a)
    ensures Takers(DoBeginDeactivate(s, a)) && Deactivations(DoBeginDeactivate(s, a))
  {
    BuiltContext(s, a);
    hide Activations, Phases;
  }

  lemma BuiltContext(s: State, a: Act)
    requires Activations(s) && Phases(s) && CanBeginDeactivate(s, a)
    ensures var k := s.pcs[a].k;
            && k in s.contexts && k !in s.deactivations
            && (s.pcs[a].Failing? ==> k !in s.sessions)
            && (s.pcs[a].Quieting? ==> k in s.sessions && s.sessions[k].phase.Dropped?)
  {
    assert Relies(s, a, s.pcs[a]);
  }

  lemma EndDeactivateKeepsPhases(s: State, a: Act)
    requires Phases(s) && Activations(s) && CanEndDeactivate(s, a)
    ensures Phases(DoEndDeactivate(s, a))
  {
    hide Crew;
  }

  lemma EndDeactivateKeepsActivations(s: State, a: Act)
    requires Activations(s) && CanEndDeactivate(s, a)
    ensures Activations(DoEndDeactivate(s, a))
  {
    hide Crew;
  }

  lemma EndDeactivateKeepsTakers(s: State, a: Act)
    requires Takers(s) && Deactivations(s) && Activations(s) && CanEndDeactivate(s, a)
    ensures Takers(DoEndDeactivate(s, a)) && Deactivations(DoEndDeactivate(s, a))
  {
  }

  /** Nobody plays a part in a session that is not there yet. */
  lemma Newcomer(s: State, k: Ctx)
    requires Activations(s) && k !in s.sessions
    ensures forall role :: Crew(s.pcs, k, role) == {}
  {
    forall role ensures Crew(s.pcs, k, role) == {} {
      forall a | a in s.pcs ensures !Plays(s.pcs[a], k, role) {
        assert Relies(s, a, s.pcs[a]);
      }
    }
  }

  lemma BeginInitializeKeepsCounts(s: State, a: Act, k: Ctx)
    requires Counts(s) && CanBeginInitialize(s, a, k)
    ensures Counts(DoBeginInitialize(s, a, k)) && DoBeginInitialize(s, a, k).unwrapFailed == s.unwrapFailed
  {
    hide Crew;
    Seat(s.pcs, a, DoBeginInitialize(s, a, k).pcs[a]);
  }

  lemma LookKeepsCounts(s: State, a: Act)
    requires Counts(s) && CanLook(s, a)
    ensures Counts(DoLook(s, a)) && DoLook(s, a).unwrapFailed == s.unwrapFailed
  {
    hide Crew;
    Seat(s.pcs, a, DoLook(s, a).pcs[a]);
  }

  lemma InitializedKeepsCounts(s: State, a: Act, ok: bool)
    requires Counts(s) && CanInitialized(s, a)
    ensures Counts(DoInitialized(s, a, ok)) && DoInitialized(s, a, ok).unwrapFailed == s.unwrapFailed
  {
    hide Crew;
    Seat(s.pcs, a, DoInitialized(s, a, ok).pcs[a]);
  }

  lemma InstallKeepsCounts(s: State, a: Act, plugin: PluginId)
    requires Counts(s) && Activations(s) && CanInstall(s, a)
    ensures Counts(DoInstall(s, a, plugin)) && DoInstall(s, a, plugin).unwrapFailed == s.unwrapFailed
  {
    hide Crew;
    assert Relies(s, a, s.pcs[a]);
    Newcomer(s, s.pcs[a].k);
    var t := DoInstall(s, a, plugin);
    if a in t.pcs {
      Seat(s.pcs, a, t.pcs[a]);
    } else {
      Unseat(s.pcs, a);
    }
  }

  lemma BeginInvokeKeepsCounts(s: State, a: Act)
    requires Counts(s) && CanBeginInvoke(s, a)
    ensures Counts(DoBeginInvoke(s, a)) && DoBeginInvoke(s, a).unwrapFailed == s.unwrapFailed
  {
    hide Crew;
    var t := DoBeginInvoke(s, a);
    if a in t.pcs {
      Seat(s.pcs, a, t.pcs[a]);
    } else {
      Unseat(s.pcs, a);
    }
  }

  lemma AdmitKeepsCounts(s: State, a: Act)
    requires Counts(s) && CanAdmit(s, a)
    ensures Counts(DoAdmit(s, a)) && DoAdmit(s, a).unwrapFailed == s.unwrapFailed
  {
    hide Crew;
    Seat(s.pcs, a, DoAdmit(s, a).pcs[a]);
  }

  lemma RefuseKeepsCounts(s: State, a: Act)
    requires Counts(s) && CanRefuse(s, a) && s.sessions[s.pcs[a].k].strong >= 2
    ensures Counts(DoRefuse(s, a)) && DoRefuse(s, a).unwrapFailed == s.unwrapFailed
  {
    hide Crew;
    Unseat(s.pcs, a);
  }

  lemma ReturnKeepsCounts(s: State, a: Act)
    requires Counts(s) && CanReturn(s, a)
    ensures Counts(DoReturn(s, a)) && DoReturn(s, a).unwrapFailed == s.unwrapFailed
  {
    hide Crew;
    Seat(s.pcs, a, DoReturn(s, a).pcs[a]);
  }

  lemma DropArcKeepsCounts(s: State, a: Act)
    requires Counts(s) && CanDropArc(s, a) && s.sessions[s.pcs[a].k].strong >= 2
    ensures Counts(DoDropArc(s, a)) && DoDropArc(s, a).unwrapFailed == s.unwrapFailed
  {
    hide Crew;
    Seat(s.pcs, a, DoDropArc(s, a).pcs[a]);
  }

  lemma LeaveKeepsCounts(s: State, a: Act)
    requires Counts(s) && CanLeave(s, a)
    ensures Counts(DoLeave(s, a)) && DoLeave(s, a).unwrapFailed == s.unwrapFailed
  {
    hide Crew;
    Present(s.pcs, a, s.pcs[a].k, Flight);
    Unseat(s.pcs, a);
  }

  lemma BeginShutdownKeepsCounts(s: State, a: Act, plugin: PluginId)
    requires Counts(s) && Phases(s) && CanBeginShutdown(s, a)
    ensures Counts(DoBeginShutdown(s, a, plugin)) && DoBeginShutdown(s, a, plugin).unwrapFailed == s.unwrapFailed
  {
    hide Crew;
    var t := DoBeginShutdown(s, a, plugin);
    if a in t.pcs {
      Seat(s.pcs, a, t.pcs[a]);
    } else {
      Unseat(s.pcs, a);
    }
  }

  lemma RestoreKeepsCounts(s: State, a: Act)
    requires Counts(s) && CanRestore(s, a) && !s.sessions[s.pcs[a].k].phase.Installed?
    ensures Counts(DoRestore(s, a)) && DoRestore(s, a).unwrapFailed == s.unwrapFailed
  {
    hide Crew;
    Unseat(s.pcs, a);
  }

  lemma CloseGateKeepsCounts(s: State, a: Act)
    requires Counts(s) && CanCloseGate(s, a) && !s.sessions[s.pcs[a].k].phase.Installed?
    ensures Counts(DoCloseGate(s, a)) && DoCloseGate(s, a).unwrapFailed == s.unwrapFailed
  {
    hide Crew;
    Seat(s.pcs, a, DoCloseGate(s, a).pcs[a]);
  }

  lemma WaitKeepsCounts(s: State, a: Act)
    requires Counts(s) && CanWait(s, a)
    ensures Counts(DoWait(s, a)) && DoWait(s, a).unwrapFailed == s.unwrapFailed
  {
    hide Crew;
    Seat(s.pcs, a, DoWait(s, a).pcs[a]);
  }

  lemma SpuriousKeepsCounts(s: State, a: Act)
    requires Counts(s) && CanSpurious(s, a)
    ensures Counts(DoSpurious(s, a)) && DoSpurious(s, a).unwrapFailed == s.unwrapFailed
  {
  }

  lemma UnwrapKeepsCounts(s: State, a: Act)
    requires Counts(s) && CanUnwrap(s, a) && s.sessions[s.pcs[a].k].strong == 1
    requires !s.sessions[s.pcs[a].k].phase.Installed?
    ensures Counts(DoUnwrap(s, a)) && DoUnwrap(s, a).unwrapFailed == s.unwrapFailed
  {
    hide Crew;
    Seat(s.pcs, a, DoUnwrap(s, a).pcs[a]);
  }

  lemma ShutdownKeepsCounts(s: State, a: Act)
    requires Counts(s) && CanShutdown(s, a) && !s.sessions[s.pcs[a].k].phase.Installed?
    ensures Counts(DoShutdown(s, a)) && DoShutdown(s, a).unwrapFailed == s.unwrapFailed
  {
    hide Crew;
    Seat(s.pcs, a, DoShutdown(s, a).pcs[a]);
  }

  lemma DropPluginKeepsCounts(s: State, a: Act)
    requires Counts(s) && CanDropPlugin(s, a) && !s.sessions[s.pcs[a].k].phase.Installed?
    ensures Counts(DoDropPlugin(s, a)) && DoDropPlugin(s, a).unwrapFailed == s.unwrapFailed
  {
    hide Crew;
    Seat(s.pcs, a, DoDropPlugin(s, a).pcs[a]);
  }

  lemma BeginDeactivateKeepsCounts(s: State, a: Act)
    requires Counts(s) && CanBeginDeactivate(s, a)
    ensures Counts(DoBeginDeactivate(s, a)) && DoBeginDeactivate(s, a).unwrapFailed == s.unwrapFailed
  {
    hide Crew;
    Seat(s.pcs, a, DoBeginDeactivate(s, a).pcs[a]);
  }

  lemma EndDeactivateKeepsCounts(s: State, a: Act)
    requires Counts(s) && CanEndDeactivate(s, a)
    requires (s.pcs[a].k in s.sessions ==> !s.sessions[s.pcs[a].k].phase.Installed?)
    ensures Counts(DoEndDeactivate(s, a)) && DoEndDeactivate(s, a).unwrapFailed == s.unwrapFailed
  {
    hide Crew;
    Unseat(s.pcs, a);
  }

  lemma NotInstalled(s: State, a: Act)
    requires Activations(s) && a in s.pcs && (Takes(s.pcs[a]) || s.pcs[a].Deactivating?)
    ensures s.pcs[a].k in s.sessions ==> !s.sessions[s.pcs[a].k].phase.Installed?
  {
    assert Relies(s, a, s.pcs[a]);
  }

  lemma InvIsKept(s: State, step: Step)
    requires Inv(s) && Enabled(s, step)
    ensures Inv(Do(s, step))
  {
    hide Counts, Phases, Activations, Takers, Deactivations;
    hide DoBeginInitialize, DoLook, DoInitialized, DoInstall, DoBeginInvoke, DoAdmit, DoRefuse;
    hide DoReturn, DoDropArc, DoLeave, DoBeginShutdown, DoRestore, DoCloseGate, DoWait;
    hide DoSpurious, DoUnwrap, DoShutdown, DoDropPlugin, DoBeginDeactivate, DoEndDeactivate;
    match step
    case BeginInitialize(a, k) =>
      BeginInitializeKeepsRest(s, a, k);
      BeginInitializeKeepsCounts(s, a, k);
    case Look(a) =>
      LookKeepsRest(s, a);
      LookKeepsCounts(s, a);
    case Initialized(a, ok) =>
      InitializedKeepsRest(s, a, ok);
      InitializedKeepsCounts(s, a, ok);
    case Install(a, plugin) =>
      InstallKeepsPhases(s, a, plugin);
      InstallKeepsActivations(s, a, plugin);
      InstallKeepsTakers(s, a, plugin);
      InstallKeepsCounts(s, a, plugin);
    case BeginInvoke(a) =>
      BeginInvokeKeepsPhases(s, a);
      BeginInvokeKeepsActivations(s, a);
      BeginInvokeKeepsTakers(s, a);
      BeginInvokeKeepsCounts(s, a);
    case Admit(a) =>
      AdmitKeepsPhases(s, a);
      AdmitKeepsActivations(s, a);
      AdmitKeepsTakers(s, a);
      AdmitKeepsCounts(s, a);
    case Refuse(a) =>
      NeverTheLast(s, a);
      RefuseKeepsPhases(s, a);
      RefuseKeepsActivations(s, a);
      RefuseKeepsTakers(s, a);
      RefuseKeepsCounts(s, a);
    case Return(a) =>
      ReturnKeepsPhases(s, a);
      ReturnKeepsActivations(s, a);
      ReturnKeepsTakers(s, a);
      ReturnKeepsCounts(s, a);
    case DropArc(a) =>
      NeverTheLast(s, a);
      DropArcKeepsPhases(s, a);
      DropArcKeepsActivations(s, a);
      DropArcKeepsTakers(s, a);
      DropArcKeepsCounts(s, a);
    case Leave(a) =>
      LeaveKeepsPhases(s, a);
      LeaveKeepsActivations(s, a);
      LeaveKeepsTakers(s, a);
      LeaveKeepsCounts(s, a);
    case BeginShutdown(a, plugin) =>
      BeginShutdownKeepsPhases(s, a, plugin);
      BeginShutdownKeepsActivations(s, a, plugin);
      BeginShutdownKeepsTakers(s, a, plugin);
      BeginShutdownKeepsCounts(s, a, plugin);
    case Restore(a) =>
      NotInstalled(s, a);
      RestoreKeepsPhases(s, a);
      RestoreKeepsActivations(s, a);
      RestoreKeepsTakers(s, a);
      RestoreKeepsCounts(s, a);
    case CloseGate(a) =>
      NotInstalled(s, a);
      CloseGateKeepsPhases(s, a);
      CloseGateKeepsActivations(s, a);
      CloseGateKeepsTakers(s, a);
      CloseGateKeepsCounts(s, a);
    case Wait(a) =>
      WaitKeepsPhases(s, a);
      WaitKeepsActivations(s, a);
      WaitKeepsTakers(s, a);
      WaitKeepsCounts(s, a);
    case Spurious(a) =>
      SpuriousKeepsPhases(s, a);
      SpuriousKeepsActivations(s, a);
      SpuriousKeepsTakers(s, a);
      SpuriousKeepsCounts(s, a);
    case Unwrap(a) =>
      UnwrapSucceeds(s, a);
      NotInstalled(s, a);
      UnwrapKeepsPhases(s, a);
      UnwrapKeepsActivations(s, a);
      UnwrapKeepsTakers(s, a);
      UnwrapKeepsCounts(s, a);
    case Shutdown(a) =>
      NotInstalled(s, a);
      ShutdownKeepsPhases(s, a);
      ShutdownKeepsActivations(s, a);
      ShutdownKeepsTakers(s, a);
      ShutdownKeepsCounts(s, a);
    case DropPlugin(a) =>
      NotInstalled(s, a);
      DropPluginKeepsPhases(s, a);
      DropPluginKeepsActivations(s, a);
      DropPluginKeepsTakers(s, a);
      DropPluginKeepsCounts(s, a);
    case BeginDeactivate(a) =>
      BeginDeactivateKeepsPhases(s, a);
      BeginDeactivateKeepsActivations(s, a);
      BeginDeactivateKeepsTakers(s, a);
      BeginDeactivateKeepsCounts(s, a);
    case EndDeactivate(a) =>
      NotInstalled(s, a);
      EndDeactivateKeepsPhases(s, a);
      EndDeactivateKeepsActivations(s, a);
      EndDeactivateKeepsTakers(s, a);
      EndDeactivateKeepsCounts(s, a);
  }

  lemma {:induction false} InvOfRuns(s: State, steps: seq<Step>)
    requires Inv(s) && Run(s, steps).Some?
    ensures Inv(Run(s, steps).value)
    decreases |steps|
  {
    hide Inv, Enabled, Do;
    if steps != [] {
      InvIsKept(s, steps[0]);
      InvOfRuns(Do(s, steps[0]), steps[1..]);
    }
  }

  lemma Reachable(steps: seq<Step>)
    requires Run(INITIAL, steps).Some?
    ensures Inv(Run(INITIAL, steps).value)
  {
    hide Enabled, Do, Run;
    InvOfRuns(INITIAL, steps);
  }

  // ---------------------------------------------------------------- what holds of every run

  /** `Arc::try_unwrap` never fails; each installed session's plugin is shut down at most once and dropped at
      most once, in that order and never otherwise; by then every invocation it ever admitted has returned
      and none is inside it; and a session that is finished has had both. */
  lemma EachSessionEndsOnce(steps: seq<Step>)
    requires Run(INITIAL, steps).Some?
    ensures var s := Run(INITIAL, steps).value;
            && !s.unwrapFailed
            && forall k :: k in s.sessions ==>
                 var x := s.sessions[k];
                 && x.drops <= x.shutdowns <= 1
                 && (x.shutdowns == 1 ==>
                       && x.started == x.returned && x.strong == 0 && s.slot != Some(k)
                       && forall a :: a in s.pcs && s.pcs[a].k == k ==> !Invokes(s.pcs[a]))
                 && (x.phase.Finished? ==> x.shutdowns == 1 && x.drops == 1 && k in s.quiet)
  {
    hide Enabled, Do, Run, Takers, Deactivations;
    Reachable(steps);
    var s := Run(INITIAL, steps).value;
    forall k | k in s.sessions && s.sessions[k].shutdowns == 1
      ensures s.sessions[k].started == s.sessions[k].returned && s.sessions[k].strong == 0 && s.slot != Some(k)
      ensures forall a :: a in s.pcs && s.pcs[a].k == k ==> !Invokes(s.pcs[a])
    {
      QuietAfterShutdown(s, k);
    }
    assert forall k :: k in s.sessions && s.sessions[k].phase.Finished? ==> k in s.quiet by {
      FinishedIsQuiet(s);
    }
  }

  lemma FinishedIsQuiet(s: State)
    requires Deactivations(s)
    ensures forall k :: k in s.sessions && s.sessions[k].phase.Finished? ==> k in s.quiet
  {
  }

  lemma QuietAfterShutdown(s: State, k: Ctx)
    requires Counts(s) && Phases(s) && Activations(s) && k in s.sessions && s.sessions[k].shutdowns == 1
    ensures s.sessions[k].started == s.sessions[k].returned && s.sessions[k].strong == 0 && s.slot != Some(k)
    ensures forall a :: a in s.pcs && s.pcs[a].k == k ==> !Invokes(s.pcs[a])
  {
    assert Crew(s.pcs, k, Flight) == {};
    forall a | a in s.pcs && s.pcs[a].k == k
      ensures !Invokes(s.pcs[a]) && !Plays(s.pcs[a], k, Arc) && !Plays(s.pcs[a], k, Call) {
      assert Relies(s, a, s.pcs[a]);
      assert a !in Crew(s.pcs, k, Flight);
    }
    assert Crew(s.pcs, k, Arc) == {} && Crew(s.pcs, k, Call) == {};
  }

  /** Every context is deactivated at most once: by the initialize that built it, which then never installs
      it, or by the shutdown that took its session, after the plugin was shut down and dropped. */
  lemma EachContextQuietsOnce(steps: seq<Step>)
    requires Run(INITIAL, steps).Some?
    ensures var s := Run(INITIAL, steps).value;
            && (forall k :: k in s.deactivations ==>
                  && s.deactivations[k] == 1
                  && (k in s.sessions ==> s.sessions[k].shutdowns == 1 && s.sessions[k].drops == 1))
            && (forall k :: k in s.quiet ==> k in s.deactivations)
            && (forall a, b :: a in s.pcs && b in s.pcs && s.pcs[a].Deactivating? && s.pcs[b] == s.pcs[a] ==> a == b)
            && (forall a :: a in s.pcs && s.pcs[a].Deactivating? ==> s.pcs[a].k !in s.quiet)
  {
    hide Enabled, Do, Run, Takers, Counts, Crew;
    Reachable(steps);
    var s := Run(INITIAL, steps).value;
    forall a, b | a in s.pcs && b in s.pcs && s.pcs[a].Deactivating? && s.pcs[b] == s.pcs[a] ensures a == b {
      assert Relies(s, a, s.pcs[a]) && Relies(s, b, s.pcs[b]);
    }
  }

  /** A shutdown that names another plugin puts everything back. */
  lemma WrongPluginChangesNothing(steps: seq<Step>, a: Act, plugin: PluginId)
    requires Run(INITIAL, steps).Some? && Enabled(Run(INITIAL, steps).value, BeginShutdown(a, plugin))
    requires var s := Run(INITIAL, steps).value; s.slot.Some? && s.sessions[s.slot.value].plugin != plugin
    ensures var s := Run(INITIAL, steps).value;
            var t := Do(s, BeginShutdown(a, plugin));
            && Enabled(t, Restore(a)) && !Enabled(t, CloseGate(a))
            && Do(t, Restore(a)) == s.(sessions := s.sessions[s.slot.value := s.sessions[s.slot.value].(taker := a)])
  {
    hide Run, Counts, Takers, Deactivations, Crew;
    Reachable(steps);
    var s := Run(INITIAL, steps).value;
    var u := Do(Do(s, BeginShutdown(a, plugin)), Restore(a));
    assert u.pcs == s.pcs;
  }

  /** Nobody sleeps on a gate with nothing in flight, and with nothing in flight the wait loop ends. */
  lemma NoLostWakeup(steps: seq<Step>, a: Act)
    requires Run(INITIAL, steps).Some? && a in Run(INITIAL, steps).value.pcs
    requires Run(INITIAL, steps).value.pcs[a].Waiting?
    ensures var s := Run(INITIAL, steps).value;
            var k := s.pcs[a].k;
            && k in s.sessions
            && (s.sessions[k].gate.inFlight == 0 ==> Enabled(s, Wait(a)) && Do(s, Wait(a)).pcs[a] == Unwrapping(k))
            && s.sessions[k].gate.inFlight == |Crew(s.pcs, k, Flight)|
  {
    hide Run, Takers, Deactivations, Crew;
    Reachable(steps);
    assert Relies(Run(INITIAL, steps).value, a, Run(INITIAL, steps).value.pcs[a]);
  }

  /** Leaving never underflows the count, and the last to leave wakes the waiting shutdown: after it nobody
      sleeps at the gate and the wait loop ends. */
  lemma LastLeaveWakes(steps: seq<Step>, a: Act)
    requires Run(INITIAL, steps).Some? && a in Run(INITIAL, steps).value.pcs
    requires Run(INITIAL, steps).value.pcs[a].Leaving?
    ensures var s := Run(INITIAL, steps).value;
            var k := s.pcs[a].k;
            && Enabled(s, Leave(a))
            && var t := Do(s, Leave(a));
               && t.sessions[k].gate.inFlight == |Crew(s.pcs, k, Flight)| - 1
               && (t.sessions[k].gate.inFlight == 0 ==>
                     && t.sessions[k].sleepers == {}
                     && forall b :: b in t.pcs && t.pcs[b] == Waiting(k) ==>
                          Enabled(t, Wait(b)) && Do(t, Wait(b)).pcs[b] == Unwrapping(k))
  {
    hide Run, Takers, Deactivations, Crew;
    Reachable(steps);
    var s := Run(INITIAL, steps).value;
    assert Relies(s, a, s.pcs[a]);
    Present(s.pcs, a, s.pcs[a].k, Flight);
  }

  lemma ClosedStep(s: State, step: Step, k: Ctx)
    requires Phases(s) && Activations(s) && Enabled(s, step) && k in s.sessions && !s.sessions[k].gate.accepting
    ensures var t := Do(s, step);
            k in t.sessions && !t.sessions[k].gate.accepting && t.sessions[k].started == s.sessions[k].started
  {
    hide Phases, Activations;
    if step.Install? {
      StartedIsNotInstalled(s, step.a);
    }
  }

  lemma StartedIsNotInstalled(s: State, a: Act)
    requires Activations(s) && a in s.pcs && s.pcs[a].Started?
    ensures s.pcs[a].k !in s.sessions
  {
    assert Relies(s, a, s.pcs[a]);
  }

  /** Once a session's gate is closed it stays closed, and no invocation of that plugin begins any more. */
  lemma {:induction false} NoAdmissionAfterClose(s: State, steps: seq<Step>, k: Ctx)
    requires Inv(s) && k in s.sessions && !s.sessions[k].gate.accepting && Run(s, steps).Some?
    ensures var t := Run(s, steps).value;
            k in t.sessions && !t.sessions[k].gate.accepting && t.sessions[k].started == s.sessions[k].started
    decreases |steps|
  {
    hide Enabled, Do, Counts, Phases, Activations, Takers, Deactivations;
    if steps != [] {
      InvIsKept(s, steps[0]);
      ClosedStep(s, steps[0], k);
      NoAdmissionAfterClose(Do(s, steps[0]), steps[1..], k);
    }
  }

  // ---------------------------------------------------------------- each operation left alone

  /** One step of a run, with where it leads. */
  lemma Follow(s: State, steps: seq<Step>, t: State, rest: seq<Step>)
    requires steps != [] && rest == steps[1..] && Enabled(s, steps[0]) && Do(s, steps[0]) == t
    ensures Run(s, steps) == Run(t, rest)
  {
    hide Enabled, Do;
  }

  /** Over all runs: an invoke that has found a session is admitted exactly when the counter has room, however
      many invocations are in flight, and only otherwise refused. */
  lemma AdmittedExactly(steps: seq<Step>, a: Act)
    requires Run(INITIAL, steps).Some? && a in Run(INITIAL, steps).value.pcs
    requires Run(INITIAL, steps).value.pcs[a].Cloned?
    ensures var s := Run(INITIAL, steps).value;
            var k := s.pcs[a].k;
            && s.slot == Some(k) && k in s.sessions
            && (Enabled(s, Admit(a)) <==> s.sessions[k].gate.inFlight < U64_MAX)
            && (Enabled(s, Refuse(a)) <==> s.sessions[k].gate.inFlight >= U64_MAX)
            && (Enabled(s, Admit(a)) ==>
                  && Do(s, Admit(a)).pcs[a] == Running(k)
                  && Do(s, Admit(a)).sessions[k].gate == Gate(true, s.sessions[k].gate.inFlight + 1))
  {
    hide Run, Counts, Takers, Deactivations, Crew;
    Reachable(steps);
    var s := Run(INITIAL, steps).value;
    assert Relies(s, a, s.pcs[a]);
  }

  /** An initialize installs its session exactly when it finds the slot empty, before and after its plugin's
      own initialize, and that succeeds; otherwise it ends up deactivating the context it built. */
  lemma InstalledExactly(steps: seq<Step>, a: Act, ok: bool, plugin: PluginId)
    requires Run(INITIAL, steps).Some? && a in Run(INITIAL, steps).value.pcs
    ensures var s := Run(INITIAL, steps).value;
            && (s.pcs[a].Building? && s.slotLock.None? ==>
                  && Enabled(s, Look(a))
                  && Do(s, Look(a)).pcs[a] == if s.slot.None? then Starting(s.pcs[a].k) else Failing(s.pcs[a].k))
            && (s.pcs[a].Starting? ==>
                  && Enabled(s, Initialized(a, ok))
                  && Do(s, Initialized(a, ok)).pcs[a] == if ok then Started(s.pcs[a].k) else Failing(s.pcs[a].k))
            && (s.pcs[a].Started? && s.slotLock.None? ==>
                  && Enabled(s, Install(a, plugin))
                  && var t := Do(s, Install(a, plugin));
                     if s.slot.Some?
                     then t.pcs[a] == Failing(s.pcs[a].k) && t.sessions == s.sessions && t.slot == s.slot
                     else
                       && t.slot == Some(s.pcs[a].k) && a !in t.pcs
                       && t.sessions[s.pcs[a].k].plugin == plugin && t.sessions[s.pcs[a].k].gate == Gate(true, 0))
  {
    hide Run, Inv;
  }

  /** An invoke with nothing else going on runs the plugin once and leaves the session as it was. */
  lemma InvokeAlone(steps: seq<Step>, a: Act)
    requires Run(INITIAL, steps).Some? && a !in Run(INITIAL, steps).value.pcs
    requires var s := Run(INITIAL, steps).value;
             s.slotLock.None? && s.slot.Some? && s.slot.value in s.sessions
             && s.sessions[s.slot.value].gate.inFlight < U64_MAX
    ensures var s := Run(INITIAL, steps).value;
            var x := s.sessions[s.slot.value];
            Run(s, [BeginInvoke(a), Admit(a), Return(a), DropArc(a), Leave(a)]) ==
            Some(s.(sessions := s.sessions[s.slot.value := x.(started := x.started + 1, returned := x.returned + 1)]))
  {
    hide Run, Takers, Deactivations, Crew, Activations;
    Reachable(steps);
    var s := Run(INITIAL, steps).value;
    var k := s.slot.value;
    var s1 := DoBeginInvoke(s, a);
    var s2 := DoAdmit(s1, a);
    Follow(s, [BeginInvoke(a), Admit(a), Return(a), DropArc(a), Leave(a)], s1,
           [Admit(a), Return(a), DropArc(a), Leave(a)]);
    Follow(s1, [Admit(a), Return(a), DropArc(a), Leave(a)], s2, [Return(a), DropArc(a), Leave(a)]);
    var x := s.sessions[k];
    assert s2.sessions == s.sessions[k := x.(strong := x.strong + 1, started := x.started + 1,
                                              gate := x.gate.(inFlight := x.gate.inFlight + 1))];
    assert s2 == s.(sessions := s2.sessions, pcs := s.pcs[a := Running(k)]);
    InvokeEnds(s, s2, a, k);
  }

  lemma InvokeReturns(s: State, a: Act, k: Ctx, rest: seq<Step>)
    requires a in s.pcs && s.pcs[a] == Running(k) && k in s.sessions && s.sessions[k].strong > 1
    ensures var x := s.sessions[k];
            var r := s.(pcs := s.pcs[a := Leaving(k)],
                        sessions := s.sessions[k := x.(returned := x.returned + 1, strong := x.strong - 1)]);
            Run(s, [Return(a), DropArc(a)] + rest) == Run(r, rest)
  {
    hide Run;
    var s1 := DoReturn(s, a);
    var s2 := DoDropArc(s1, a);
    Follow(s, [Return(a), DropArc(a)] + rest, s1, [DropArc(a)] + rest);
    Follow(s1, [DropArc(a)] + rest, s2, rest);
    assert s2.pcs == s.pcs[a := Leaving(k)];
    var x := s.sessions[k];
    assert s1.sessions[k] == x.(returned := x.returned + 1);
    assert s2.sessions == s.sessions[k := x.(returned := x.returned + 1, strong := x.strong - 1)];
  }

  lemma InvokeLeaves(s: State, a: Act, k: Ctx)
    requires a in s.pcs && s.pcs[a] == Leaving(k) && k in s.sessions && s.sessions[k].gate.inFlight > 0
    requires s.sessions[k].gate.inFlight == 1 ==> s.sessions[k].sleepers == {}
    ensures var x := s.sessions[k];
            Run(s, [Leave(a)]) ==
            Some(s.(pcs := s.pcs - {a},
                    sessions := s.sessions[k := x.(gate := x.gate.(inFlight := x.gate.inFlight - 1))]))
  {
    hide Run;
    Follow(s, [Leave(a)], DoLeave(s, a), []);
    NoSteps(DoLeave(s, a));
  }

  lemma InvokeEnds(s: State, r: State, a: Act, k: Ctx)
    requires a !in s.pcs && k in s.sessions && s.sessions[k].strong > 0
    requires s.sessions[k].gate.inFlight == 0 ==> s.sessions[k].sleepers == {}
    requires var x := s.sessions[k];
             r == s.(pcs := s.pcs[a := Running(k)],
                     sessions := s.sessions[k := x.(strong := x.strong + 1, started := x.started + 1,
                                                    gate := x.gate.(inFlight := x.gate.inFlight + 1))])
    ensures var x := s.sessions[k];
            Run(r, [Return(a), DropArc(a), Leave(a)]) ==
            Some(s.(sessions := s.sessions[k := x.(started := x.started + 1, returned := x.returned + 1)]))
  {
    hide Run, Enabled, Do;
    var x := s.sessions[k];
    var y := x.(started := x.started + 1, returned := x.returned + 1);
    InvokeReturns(r, a, k, [Leave(a)]);
    var r2 := s.(pcs := r.pcs[a := Leaving(k)],
                 sessions := r.sessions[k := y.(gate := x.gate.(inFlight := x.gate.inFlight + 1))]);
    InvokeLeaves(r2, a, k);
    assert r2.pcs - {a} == s.pcs;
    assert r2.sessions[k := y] == s.sessions[k := y];
    assert [Return(a), DropArc(a)] + [Leave(a)] == [Return(a), DropArc(a), Leave(a)];
  }

  lemma NoSteps(s: State)
    ensures Run(s, []) == Some(s)
  {
  }

  lemma InitializeBuilds(s: State, a: Act, k: Ctx, rest: seq<Step>)
    requires a !in s.pcs && k !in s.contexts && s.slot.None? && s.slotLock.None?
    ensures var r := s.(pcs := s.pcs[a := Starting(k)], contexts := s.contexts[k := a]);
            Run(s, [BeginInitialize(a, k), Look(a)] + rest) == Run(r, rest)
  {
    hide Run;
    var s1 := DoBeginInitialize(s, a, k);
    Follow(s, [BeginInitialize(a, k), Look(a)] + rest, s1, [Look(a)] + rest);
    Follow(s1, [Look(a)] + rest, DoLook(s1, a), rest);
    assert DoLook(s1, a).pcs == s.pcs[a := Starting(k)];
  }

  lemma InitializeInstalls(s: State, a: Act, k: Ctx, plugin: PluginId)
    requires a in s.pcs && s.pcs[a] == Starting(k) && s.slot.None? && s.slotLock.None?
    ensures Run(s, [Initialized(a, true), Install(a, plugin)]) ==
            Some(s.(slot := Some(k), pcs := s.pcs - {a},
                    sessions := s.sessions[k := Session(plugin, Gate(true, 0), 1, {}, Installed, 0, 0, 0, 0, 0)]))
  {
    hide Run;
    var s1 := DoInitialized(s, a, true);
    Follow(s, [Initialized(a, true), Install(a, plugin)], s1, [Install(a, plugin)]);
    Follow(s1, [Install(a, plugin)], DoInstall(s1, a, plugin), []);
    assert DoInstall(s1, a, plugin).pcs == s.pcs - {a};
    NoSteps(DoInstall(s1, a, plugin));
  }

  /** An initialize with nothing else going on installs what it built. */
  lemma InitializeAlone(s: State, a: Act, k: Ctx, plugin: PluginId)
    requires a !in s.pcs && k !in s.contexts && s.slot.None? && s.slotLock.None?
    ensures Run(s, [BeginInitialize(a, k), Look(a), Initialized(a, true), Install(a, plugin)]) ==
            Some(s.(slot := Some(k), contexts := s.contexts[k := a],
                    sessions := s.sessions[k := Session(plugin, Gate(true, 0), 1, {}, Installed, 0, 0, 0, 0, 0)]))
  {
    hide Run, Enabled, Do;
    InitializeBuilds(s, a, k, [Initialized(a, true), Install(a, plugin)]);
    var s2 := s.(pcs := s.pcs[a := Starting(k)], contexts := s.contexts[k := a]);
    InitializeInstalls(s2, a, k, plugin);
    assert s2.pcs - {a} == s.pcs;
    assert [BeginInitialize(a, k), Look(a)] + [Initialized(a, true), Install(a, plugin)] ==
           [BeginInitialize(a, k), Look(a), Initialized(a, true), Install(a, plugin)];
  }

  /** With the lock free and nothing in flight, the slot holds the only reference to its session. */
  lemma OnlyTheSlot(s: State, k: Ctx)
    requires Counts(s) && Phases(s) && Activations(s) && Deactivations(s)
    requires s.slot == Some(k) && s.slotLock.None? && s.sessions[k].gate.inFlight == 0
    ensures s.sessions[k].strong == 1 && s.sessions[k].sleepers == {} && s.sessions[k].gate == Gate(true, 0)
    ensures s.sessions[k].shutdowns == 0 && s.sessions[k].drops == 0 && k !in s.deactivations
  {
    assert Crew(s.pcs, k, Flight) == {};
    forall a | a in s.pcs ensures !Plays(s.pcs[a], k, Arc) {
      assert Relies(s, a, s.pcs[a]);
      assert a !in Crew(s.pcs, k, Flight);
    }
    assert Crew(s.pcs, k, Arc) == {};
  }

  /** The taking: from the slot to the last reference. */
  lemma ShutdownTakes(s: State, a: Act, k: Ctx, rest: seq<Step>)
    requires a !in s.pcs && s.slotLock.None? && s.slot == Some(k) && k in s.sessions
    requires var x := s.sessions[k]; x.gate == Gate(true, 0) && x.strong == 1 && x.sleepers == {}
    ensures var x := s.sessions[k];
            && var r := s.(slot := None, pcs := s.pcs[a := Waiting(k)],
                           sessions := s.sessions[k := x.(phase := Draining, taker := a, gate := Gate(false, 0))]);
               Run(s, [BeginShutdown(a, x.plugin), CloseGate(a)] + rest) == Run(r, rest)
  {
    hide Run;
    var x := s.sessions[k];
    var s1 := DoBeginShutdown(s, a, x.plugin);
    Follow(s, [BeginShutdown(a, x.plugin), CloseGate(a)] + rest, s1, [CloseGate(a)] + rest);
    Follow(s1, [CloseGate(a)] + rest, DoCloseGate(s1, a), rest);
    assert DoCloseGate(s1, a).pcs == s.pcs[a := Waiting(k)];
    assert DoCloseGate(s1, a).sessions ==
           s.sessions[k := x.(phase := Draining, taker := a, gate := Gate(false, 0))];
  }

  lemma ShutdownUnwraps(s: State, a: Act, k: Ctx, rest: seq<Step>)
    requires a in s.pcs && s.pcs[a] == Waiting(k) && k in s.sessions
    requires var x := s.sessions[k]; x.gate.inFlight == 0 && x.strong == 1 && x.sleepers == {}
    ensures var r := s.(pcs := s.pcs[a := Owning(k)],
                        sessions := s.sessions[k := s.sessions[k].(strong := 0, phase := Unwrapped)]);
            Run(s, [Wait(a), Unwrap(a)] + rest) == Run(r, rest)
  {
    hide Run;
    var s1 := DoWait(s, a);
    Follow(s, [Wait(a), Unwrap(a)] + rest, s1, [Unwrap(a)] + rest);
    Follow(s1, [Unwrap(a)] + rest, DoUnwrap(s1, a), rest);
    assert DoUnwrap(s1, a).pcs == s.pcs[a := Owning(k)];
  }

  lemma ShutdownRuns(s: State, a: Act, k: Ctx, rest: seq<Step>)
    requires a in s.pcs && s.pcs[a] == Owning(k) && k in s.sessions
    ensures var x := s.sessions[k];
            var r := s.(pcs := s.pcs[a := Dropping(k)],
                        sessions := s.sessions[k := x.(shutdowns := x.shutdowns + 1, phase := ShutDown)]);
            Run(s, [Shutdown(a)] + rest) == Run(r, rest)
  {
    hide Run;
    Follow(s, [Shutdown(a)] + rest, DoShutdown(s, a), rest);
  }

  lemma ShutdownDrops(s: State, a: Act, k: Ctx, rest: seq<Step>)
    requires a in s.pcs && s.pcs[a] == Dropping(k) && k in s.sessions
    ensures var x := s.sessions[k];
            var r := s.(pcs := s.pcs[a := Quieting(k)],
                        sessions := s.sessions[k := x.(drops := x.drops + 1, phase := Dropped)]);
            Run(s, [DropPlugin(a)] + rest) == Run(r, rest)
  {
    hide Run;
    Follow(s, [DropPlugin(a)] + rest, DoDropPlugin(s, a), rest);
  }

  lemma ShutdownQuiets(s: State, a: Act, k: Ctx)
    requires a in s.pcs && s.pcs[a] == Quieting(k) && k in s.sessions && k !in s.deactivations
    ensures Run(s, [BeginDeactivate(a), EndDeactivate(a)]) ==
            Some(s.(pcs := s.pcs - {a}, deactivations := s.deactivations[k := 1], quiet := s.quiet + {k},
                    sessions := s.sessions[k := s.sessions[k].(phase := Finished)]))
  {
    hide Run;
    var s1 := DoBeginDeactivate(s, a);
    Follow(s, [BeginDeactivate(a), EndDeactivate(a)], s1, [EndDeactivate(a)]);
    Follow(s1, [EndDeactivate(a)], DoEndDeactivate(s1, a), []);
    assert DoEndDeactivate(s1, a).pcs == s.pcs - {a};
    NoSteps(DoEndDeactivate(s1, a));
  }

  /** A shutdown of the installed plugin with nothing else going on shuts it down, drops it, and deactivates its
      context, once each, and leaves the slot empty. */
  lemma ShutdownAlone(steps: seq<Step>, a: Act)
    requires Run(INITIAL, steps).Some? && a !in Run(INITIAL, steps).value.pcs
    requires var s := Run(INITIAL, steps).value;
             s.slotLock.None? && s.slot.Some? && s.slot.value in s.sessions
             && s.sessions[s.slot.value].gate.inFlight == 0
    ensures var s := Run(INITIAL, steps).value;
            var k := s.slot.value;
            var x := s.sessions[k];
            Run(s, [BeginShutdown(a, x.plugin), CloseGate(a), Wait(a), Unwrap(a),
                    Shutdown(a), DropPlugin(a), BeginDeactivate(a), EndDeactivate(a)]) ==
            Some(s.(slot := None, deactivations := s.deactivations[k := 1], quiet := s.quiet + {k},
                    sessions := s.sessions[k := Session(x.plugin, Gate(false, 0), 0, {}, Finished, a,
                                                        x.started, x.returned, 1, 1)]))
  {
    hide Run, Counts, Phases, Activations, Takers, Deactivations, Enabled, Do;
    Reachable(steps);
    var s := Run(INITIAL, steps).value;
    var k := s.slot.value;
    OnlyTheSlot(s, k);
    var x := s.sessions[k];
    var quiets := [BeginDeactivate(a), EndDeactivate(a)];
    var drops := [DropPlugin(a)] + quiets;
    var shuts := [Shutdown(a)] + drops;
    var unwraps := [Wait(a), Unwrap(a)] + shuts;
    var y := x.(phase := Draining, taker := a, gate := Gate(false, 0));
    ShutdownTakes(s, a, k, unwraps);
    var s1 := s.(slot := None, pcs := s.pcs[a := Waiting(k)], sessions := s.sessions[k := y]);
    ShutdownUnwraps(s1, a, k, shuts);
    var s2 := s1.(pcs := s1.pcs[a := Owning(k)], sessions := s1.sessions[k := y.(strong := 0, phase := Unwrapped)]);
    ShutdownRuns(s2, a, k, drops);
    var w := Session(x.plugin, Gate(false, 0), 0, {}, ShutDown, a, x.started, x.returned, 1, 0);
    var s3 := s2.(pcs := s2.pcs[a := Dropping(k)], sessions := s2.sessions[k := w]);
    ShutdownDrops(s3, a, k, quiets);
    var z := Session(x.plugin, Gate(false, 0), 0, {}, Dropped, a, x.started, x.returned, 1, 1);
    var s4 := s3.(pcs := s3.pcs[a := Quieting(k)], sessions := s3.sessions[k := z]);
    ShutdownQuiets(s4, a, k);
    assert s4.pcs - {a} == s.pcs;
    assert s4.sessions[k := z.(phase := Finished)] == s.sessions[k := z.(phase := Finished)];
    assert [BeginShutdown(a, x.plugin), CloseGate(a)] + unwraps ==
           [BeginShutdown(a, x.plugin), CloseGate(a), Wait(a), Unwrap(a),
            Shutdown(a), DropPlugin(a), BeginDeactivate(a), EndDeactivate(a)];
  }
}
