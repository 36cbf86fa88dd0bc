/** The embedded engine: the life of each payload, the ordered registry, and close, in every interleaving. */
module Engine {
  import opened Bytes
  import opened Options
  import opened Sequences

  type Id = u64
  type Thread = nat

  // ---------------------------------------------------------------- one payload

  datatype PayloadState = Loaded | Enabled | Disabled | ShutdownFailed | Shutdown

  datatype Callback = Initialize | Invoke | ShutDown

  datatype Operation = Enable | Disable | Call | Unload | Force

  /** What an operation does under the payload's lock: answer at once, or run a callback of the plugin. */
  datatype Reaction = Now(state: PayloadState, ok: bool) | Run(callback: Callback)

  function React(op: Operation, state: PayloadState): Reaction {
    match op
    case Enable =>
      (match state
       case Loaded => Run(Initialize)
       case Disabled => Now(Enabled, true)
       case Enabled => Now(Enabled, true)
       case _ => Now(state, false))
    case Disable =>
      (match state
       case Enabled => Now(Disabled, true)
       case Disabled => Now(Disabled, true)
       case _ => Now(state, false))
    case Call => if state.Enabled? then Run(Invoke) else Now(state, false)
    case Unload =>
      (match state
       case Enabled => Now(Enabled, false)
       case Disabled => Run(ShutDown)
       case _ => Now(Shutdown, true))
    case Force => if state.Enabled? || state.Disabled? then Run(ShutDown) else Now(Shutdown, true)
  }

  /** The state a callback leaves, given whether its status was Ok. */
  function After(callback: Callback, state: PayloadState, ok: bool): PayloadState {
    match callback
    case Initialize => if ok then Enabled else state
    case Invoke => state
    case ShutDown => if ok then Shutdown else ShutdownFailed
  }

  predicate Final(state: PayloadState) { state.Shutdown? || state.ShutdownFailed? }

  /** What an operation leaves when its callback, if it runs one, returns `status`. */
  function Outcome(op: Operation, state: PayloadState, status: bool): (PayloadState, bool) {
    match React(op, state)
    case Now(next, ok) => (next, ok)
    case Run(callback) => (After(callback, state, status), status)
  }

  class EmbeddedPayload {
    var state: PayloadState
    ghost var callbacks: seq<Callback>  // run so far

    constructor ()
      ensures state == Loaded && callbacks == []
    {
      state := Loaded;
      callbacks := [];
    }

    twostate predicate Ran(op: Operation, status: bool, ok: bool)
      reads this
    {
      && (state, ok) == Outcome(op, old(state), status)
      && callbacks == match React(op, old(state))
                      case Now(_, _) => old(callbacks)
                      case Run(callback) => old(callbacks) + [callback]
    }

    /** `status` is what a callback, if one runs, returns. */
    method Enable(status: bool) returns (ok: bool)
      modifies this
      ensures Ran(Operation.Enable, status, ok)
      ensures old(state).Loaded? ==>
                && ok == status && state == (if status then Enabled else Loaded)
                && callbacks == old(callbacks) + [Initialize]
      ensures old(state).Enabled? || old(state).Disabled? ==> ok && state == Enabled && callbacks == old(callbacks)
      ensures Final(old(state)) ==> !ok && state == old(state) && callbacks == old(callbacks)
    {
      match state
      case Loaded =>
        callbacks := callbacks + [Initialize];
        if !status {
          return false;
        }
        state := Enabled;
        return true;
      case Disabled =>
        state := Enabled;
        return true;
      case Enabled => return true;
      case _ => return false;
    }

    method Disable() returns (ok: bool)
      modifies this
      ensures Ran(Operation.Disable, true, ok)
      ensures ok <==> old(state).Enabled? || old(state).Disabled?
      ensures state == (if ok then Disabled else old(state)) && callbacks == old(callbacks)
    {
      match state
      case Enabled =>
        state := Disabled;
        return true;
      case Disabled => return true;
      case _ => return false;
    }

    method Invoke(status: bool) returns (ok: bool)
      modifies this
      ensures Ran(Call, status, ok)
      ensures state == old(state)
      ensures old(state) == Enabled ==> ok == status && callbacks == old(callbacks) + [Callback.Invoke]
      ensures old(state) != Enabled ==> !ok && callbacks == old(callbacks)
    {
      if state != Enabled {
        return false;
      }
      callbacks := callbacks + [Callback.Invoke];
      ok := status;
    }

    method ShutdownForUnload(status: bool) returns (ok: bool)
      modifies this
      ensures Ran(Unload, status, ok)
      ensures old(state).Enabled? ==> !ok && state == Enabled && callbacks == old(callbacks)
      ensures old(state).Disabled? ==>
                && ok == status && state == (if status then Shutdown else ShutdownFailed)
                && callbacks == old(callbacks) + [ShutDown]
      ensures old(state).Loaded? || Final(old(state)) ==> ok && state == Shutdown && callbacks == old(callbacks)
    {
      match state
      case Enabled => return false;
      case Disabled => ok := ShutdownOnce(status);
      case _ =>
        state := Shutdown;
        ok := true;
    }

    method ForceShutdown(status: bool) returns (ok: bool)
      modifies this
      ensures Ran(Operation.Force, status, ok)
      ensures old(state).Enabled? || old(state).Disabled? ==>
                && ok == status && state == (if status then Shutdown else ShutdownFailed)
                && callbacks == old(callbacks) + [ShutDown]
      ensures old(state).Loaded? || Final(old(state)) ==> ok && state == Shutdown && callbacks == old(callbacks)
    {
      if state == Enabled || state == Disabled {
        ok := ShutdownOnce(status);
      } else {
        state := Shutdown;
        ok := true;
      }
    }

    method ShutdownOnce(status: bool) returns (ok: bool)
      modifies this
      ensures state == (if status then Shutdown else ShutdownFailed) && ok == status
      ensures callbacks == old(callbacks) + [ShutDown]
    {
      callbacks := callbacks + [ShutDown];
      state := if status then Shutdown else ShutdownFailed;
      ok := status;
    }
  }

  // ---------------------------------------------------------------- the engine's own lock regions

  /** The mutex-guarded registry; `live` is the key set of the payload map. */
  datatype Registry = Registry(nextId: Id, order: seq<Id>, live: set<Id>, closed: bool)

  const NEW_REGISTRY := Registry(1, [], {}, false)

  function Insert(r: Registry): Option<Registry> {
    if r.closed || r.nextId + 1 > U64_MAX then None
    else Some(r.(nextId := r.nextId + 1, order := r.order + [r.nextId], live := r.live + {r.nextId}))
  }

  function Reversed(order: seq<Id>): seq<Id> {
    if order == [] then [] else Reversed(order[1..]) + [order[0]]
  }

  predicate Increasing(order: seq<Id>) { forall i, j :: 0 <= i < j < |order| ==> order[i] < order[j] }

  predicate Decreasing(order: seq<Id>) { forall i, j :: 0 <= i < j < |order| ==> order[i] > order[j] }

  /** The load order is strictly increasing and lists exactly the keys of the map. */
  ghost predicate Ordered(r: Registry) {
    && Increasing(r.order) && 0 < r.nextId
    && (forall id :: id in r.order <==> id in r.live)
    && (forall id :: id in r.order ==> 0 < id < r.nextId)
    && (r.closed ==> r.order == [])
  }

  lemma {:induction false} WithoutKeepsOrder(order: seq<Id>, id: Id)
    requires Increasing(order)
    ensures Increasing(Without(order, id))
  {
    if order != [] {
      var rest := order[1..];
      WithoutKeepsOrder(rest, id);
      WithoutMembers(rest, id);
      var kept := Without(order, id);
      forall i, j | 0 <= i < j < |kept| ensures kept[i] < kept[j] {
        assert kept[j] in rest && (i > 0 || kept[i] == order[0] || kept[i] in rest);
        if order[0] != id && i > 0 {
          assert kept[i] == Without(rest, id)[i - 1] && kept[j] == Without(rest, id)[j - 1];
        }
      }
    }
  }

  lemma {:induction false} ReversedDescends(order: seq<Id>)
    requires Increasing(order)
    ensures Decreasing(Reversed(order)) && |Reversed(order)| == |order|
            && forall j :: j in Reversed(order) <==> j in order
  {
    if order != [] {
      var rest := order[1..];
      ReversedDescends(rest);
      var back := Reversed(rest);
      forall i, j | 0 <= i < j < |back| + 1 ensures Reversed(order)[i] > Reversed(order)[j] {
        assert back[i] in back && back[i] in rest;
      }
      forall j ensures j in Reversed(order) <==> j in order {
        assert j in order <==> j == order[0] || j in rest;
      }
    }
  }

  /** Loading appends a new greatest identifier; the one value that would overflow is never handed out. */
  lemma InsertKeepsOrder(r: Registry)
    requires Ordered(r) && Insert(r).Some?
    ensures Ordered(Insert(r).value) && r.nextId !in r.live && r.nextId < U64_MAX
  {
    var order := Insert(r).value.order;
    forall i, j | 0 <= i < j < |order| ensures order[i] < order[j] {
      assert order[i] == r.order[i] && r.order[i] in r.order;
    }
  }

  lemma RemoveKeepsOrder(r: Registry, id: Id)
    requires Ordered(r)
    ensures Ordered(r.(order := Without(r.order, id), live := r.live - {id}))
  {
    WithoutKeepsOrder(r.order, id);
    WithoutMembers(r.order, id);
  }

  // ---------------------------------------------------------------- any number of threads

  datatype Payload = Payload(
    state: PayloadState,
    busy: Option<Callback>,  // the callback running under the payload's lock
    owner: Thread,           // and the thread it runs on
    inits: nat,              // initialize callbacks that returned Ok
    shutdowns: nat           // shutdown callbacks begun
  )

  const NEW_PAYLOAD := Payload(Loaded, None, 0, 0, 0)

  /** Where a thread is between two steps. */
  datatype Pc =
    | Wants(id: Id, op: Operation)                             // holds the payload's Arc, not its lock
    | Calling(id: Id, op: Operation, cb: Callback, rest: seq<Id>) // inside a callback, holding the lock
    | Removing(id: Id)                                         // unload has shut the payload down
    | Closing(rest: seq<Id>)                                   // close, with these payloads to go

  datatype State = State(
    registry: Registry,
    payloads: map<Id, Payload>,  // every payload ever loaded
    pcs: map<Thread, Pc>,
    closer: Thread,              // the thread whose close set `closed`
    closeReturned: bool
  )

  const INITIAL := State(NEW_REGISTRY, map[], map[], 0, false)

  datatype Step =
    | Load
    | Lookup(t: Thread, id: Id, op: Operation) | Enter(t: Thread) | Return(t: Thread, ok: bool) | Remove(t: Thread)
    | Close(t: Thread) | ForceNext(t: Thread) | Finish(t: Thread)

  predicate Idle(s: State, id: Id) { id in s.payloads && s.payloads[id].busy.None? }

  function With(s: State, id: Id, p: Payload): map<Id, Payload> { s.payloads[id := p] }

  function Begun(p: Payload, t: Thread, cb: Callback): Payload {
    p.(busy := Some(cb), owner := t, shutdowns := p.shutdowns + if cb.ShutDown? then 1 else 0)
  }

  function Ended(p: Payload, cb: Callback, ok: bool): Payload {
    p.(busy := None, state := After(cb, p.state, ok), inits := p.inits + if cb.Initialize? && ok then 1 else 0)
  }

  function DoLoad(s: State): State {
    match Insert(s.registry)
    case None => s
    case Some(r) => s.(registry := r, payloads := s.payloads[s.registry.nextId := NEW_PAYLOAD])
  }

  predicate CanLookup(s: State, t: Thread, op: Operation) { t !in s.pcs && op != Force }

  function DoLookup(s: State, t: Thread, id: Id, op: Operation): State {
    if s.registry.closed || id !in s.registry.live then s else s.(pcs := s.pcs[t := Wants(id, op)])
  }

  predicate CanEnter(s: State, t: Thread) { t in s.pcs && s.pcs[t].Wants? && Idle(s, s.pcs[t].id) }

  function DoEnter(s: State, t: Thread): State
    requires CanEnter(s, t)
  {
    var Wants(id, op) := s.pcs[t];
    match React(op, s.payloads[id].state)
    case Now(state, ok) =>
      s.(payloads := With(s, id, s.payloads[id].(state := state)),
         pcs := if op.Unload? && ok then s.pcs[t := Removing(id)] else s.pcs - {t})
    case Run(cb) =>
      s.(payloads := With(s, id, Begun(s.payloads[id], t, cb)), pcs := s.pcs[t := Calling(id, op, cb, [])])
  }

  predicate CanReturn(s: State, t: Thread) {
    && t in s.pcs && s.pcs[t].Calling? && s.pcs[t].id in s.payloads
    && (s.pcs[t].op.Force? ==> s.pcs[t].rest != [])
  }

  function DoReturn(s: State, t: Thread, ok: bool): State
    requires CanReturn(s, t)
  {
    var Calling(id, op, cb, rest) := s.pcs[t];
    s.(payloads := With(s, id, Ended(s.payloads[id], cb, ok)),
       pcs := if op.Force? then s.pcs[t := Closing(rest[1..])]
              else if op.Unload? && ok then s.pcs[t := Removing(id)]
              else s.pcs - {t})
  }

  predicate CanRemove(s: State, t: Thread) { t in s.pcs && s.pcs[t].Removing? }

  function DoRemove(s: State, t: Thread): State
    requires CanRemove(s, t)
  {
    var id := s.pcs[t].id;
    s.(registry := s.registry.(order := Without(s.registry.order, id), live := s.registry.live - {id}),
       pcs := s.pcs - {t})
  }

  predicate CanClose(s: State, t: Thread) { t !in s.pcs }

  function DoClose(s: State, t: Thread): State {
    if s.registry.closed then s
    else
      s.(registry := s.registry.(closed := true, order := [], live := {}),
         pcs := s.pcs[t := Closing(Reversed(s.registry.order))], closer := t)
  }

  predicate CanForceNext(s: State, t: Thread) {
    t in s.pcs && s.pcs[t].Closing? && s.pcs[t].rest != [] && Idle(s, s.pcs[t].rest[0])
  }

  function DoForceNext(s: State, t: Thread): State
    requires CanForceNext(s, t)
  {
    var rest := s.pcs[t].rest;
    var id := rest[0];
    match React(Force, s.payloads[id].state)
    case Now(state, ok) =>
      s.(payloads := With(s, id, s.payloads[id].(state := state)), pcs := s.pcs[t := Closing(rest[1..])])
    case Run(cb) =>
      s.(payloads := With(s, id, Begun(s.payloads[id], t, cb)), pcs := s.pcs[t := Calling(id, Force, cb, rest)])
  }

  predicate CanFinish(s: State, t: Thread) { t in s.pcs && s.pcs[t].Closing? && s.pcs[t].rest == [] }

  function DoFinish(s: State, t: Thread): State { s.(pcs := s.pcs - {t}, closeReturned := true) }

  predicate Allowed(s: State, step: Step) {
    match step
    case Load => true
    case Lookup(t, id, op) => CanLookup(s, t, op)
    case Enter(t) => CanEnter(s, t)
    case Return(t, _) => CanReturn(s, t)
    case Remove(t) => CanRemove(s, t)
    case Close(t) => CanClose(s, t)
    case ForceNext(t) => CanForceNext(s, t)
    case Finish(t) => CanFinish(s, t)
  }

  function Do(s: State, step: Step): State
    requires Allowed(s, step)
  {
    match step
    case Load => DoLoad(s)
    case Lookup(t, id, op) => DoLookup(s, t, id, op)
    case Enter(t) => DoEnter(s, t)
    case Return(t, ok) => DoReturn(s, t, ok)
    case Remove(t) => DoRemove(s, t)
    case Close(t) => DoClose(s, t)
    case ForceNext(t) => DoForceNext(s, t)
    case Finish(t) => DoFinish(s, t)
  }

  function RunAll(s: State, steps: seq<Step>): Option<State>
    decreases |steps|
  {
    if steps == [] then Some(s)
    else if Allowed(s, steps[0]) then RunAll(Do(s, steps[0]), steps[1..])
    else None
  }

  // ---------------------------------------------------------------- the invariant

  /** Shutdown callbacks running now. */
  function Ongoing(p: Payload): nat { if p.busy == Some(ShutDown) then 1 else 0 }

  /** How the callbacks of a payload add up in each of its states. */
  predicate Sane(p: Payload) {
    && match p.state
       case Loaded => p.inits == 0 && p.shutdowns == 0 && (p.busy.Some? ==> p.busy.value.Initialize?)
       case Enabled => p.inits == 1 && p.shutdowns == Ongoing(p) && p.busy != Some(Initialize)
       case Disabled => p.inits == 1 && p.shutdowns == Ongoing(p) && (p.busy.Some? ==> p.busy.value.ShutDown?)
       case ShutdownFailed => p.inits == 1 && p.shutdowns == 1 && p.busy.None?
       case Shutdown => p.inits <= 1 && p.shutdowns == p.inits && p.busy.None?
  }

  ghost predicate Payloads(s: State) {
    forall id :: id in s.payloads ==> Sane(s.payloads[id]) && 0 < id < s.registry.nextId
  }

  function Rest(p: Pc): seq<Id> {
    if p.Closing? then p.rest else if p.Calling? && p.op.Force? then p.rest else []
  }

  predicate Closes(p: Pc) { p.Closing? || (p.Calling? && p.op.Force?) }

  ghost predicate Relies(s: State, t: Thread, p: Pc) {
    && (!p.Closing? ==> p.id in s.payloads)
    && (p.Wants? ==> p.op != Force)
    && (p.Calling? ==> s.payloads[p.id].busy == Some(p.cb) && s.payloads[p.id].owner == t)
    && (p.Calling? && p.op.Force? ==> p.cb.ShutDown? && p.rest != [] && p.rest[0] == p.id)
    && (p.Calling? && p.op.Unload? ==> p.cb.ShutDown?)
    && (p.Removing? ==> s.payloads[p.id].state.Shutdown?)
    && (Closes(p) ==> s.registry.closed && s.closer == t && !s.closeReturned && Decreasing(Rest(p)))
    && forall id :: id in Rest(p) ==> id in s.payloads
  }

  ghost predicate Threads(s: State) { forall t :: t in s.pcs ==> Relies(s, t, s.pcs[t]) }

  /** Every payload is registered, or down, or on the list of the close in progress. */
  ghost predicate Accounted(s: State) {
    && (forall id :: id in s.registry.live ==> id in s.payloads)
    && (!s.registry.closed ==>
        forall id :: id in s.payloads ==> id in s.registry.live || s.payloads[id].state.Shutdown?)
    && (s.registry.closed ==> forall id :: id in s.payloads ==>
          Final(s.payloads[id].state) || (s.closer in s.pcs && id in Rest(s.pcs[s.closer])))
    && (s.closeReturned ==> s.registry.closed && forall id :: id in s.payloads ==> Final(s.payloads[id].state))
  }

  ghost predicate Inv(s: State) { Ordered(s.registry) && Payloads(s) && Threads(s) && Accounted(s) }

  // ---------------------------------------------------------------- one step at a time

  lemma LoadKeepsInv(s: State)
    requires Inv(s)
    ensures Inv(DoLoad(s))
  {
    if Insert(s.registry).Some? {
      InsertKeepsOrder(s.registry);
    }
    hide Ordered;
  }

  lemma LookupKeepsInv(s: State, t: Thread, id: Id, op: Operation)
    requires Inv(s) && CanLookup(s, t, op)
    ensures Inv(DoLookup(s, t, id, op))
  {
    hide Ordered;
  }

  lemma EnterKeepsPayloads(s: State, t: Thread)
    requires Ordered(s.registry) && Payloads(s) && Threads(s) && CanEnter(s, t)
    ensures Ordered(DoEnter(s, t).registry) && Payloads(DoEnter(s, t))
  {
    hide Ordered;
    assert Relies(s, t, s.pcs[t]);
  }

  lemma EnterKeepsThreads(s: State, t: Thread)
    requires Payloads(s) && Threads(s) && CanEnter(s, t)
    ensures Threads(DoEnter(s, t))
  {
    hide Ordered;
    assert Relies(s, t, s.pcs[t]);
  }

  lemma EnterKeepsAccounts(s: State, t: Thread)
    requires Payloads(s) && Threads(s) && Accounted(s) && CanEnter(s, t)
    ensures Accounted(DoEnter(s, t))
  {
    hide Ordered;
    assert Relies(s, t, s.pcs[t]);
  }

  lemma EnterKeepsInv(s: State, t: Thread)
    requires Inv(s) && CanEnter(s, t)
    ensures Inv(DoEnter(s, t))
  {
    hide Ordered, Payloads, Threads, Accounted, DoEnter;
    EnterKeepsPayloads(s, t);
    EnterKeepsThreads(s, t);
    EnterKeepsAccounts(s, t);
  }

  lemma ReturnKeepsPayloads(s: State, t: Thread, ok: bool)
    requires Ordered(s.registry) && Payloads(s) && Threads(s) && CanReturn(s, t)
    ensures Ordered(DoReturn(s, t, ok).registry) && Payloads(DoReturn(s, t, ok))
  {
    hide Ordered;
    assert Relies(s, t, s.pcs[t]);
  }

  lemma ReturnKeepsThreads(s: State, t: Thread, ok: bool)
    requires Payloads(s) && Threads(s) && CanReturn(s, t)
    ensures Threads(DoReturn(s, t, ok))
  {
    hide Ordered;
    assert Relies(s, t, s.pcs[t]);
  }

  lemma ReturnKeepsAccounts(s: State, t: Thread, ok: bool)
    requires Payloads(s) && Threads(s) && Accounted(s) && CanReturn(s, t)
    ensures Accounted(DoReturn(s, t, ok))
  {
    hide Ordered;
    assert Relies(s, t, s.pcs[t]);
  }

  lemma ReturnKeepsInv(s: State, t: Thread, ok: bool)
    requires Inv(s) && CanReturn(s, t)
    ensures Inv(DoReturn(s, t, ok))
  {
    hide Ordered, Payloads, Threads, Accounted, DoReturn;
    ReturnKeepsPayloads(s, t, ok);
    ReturnKeepsThreads(s, t, ok);
    ReturnKeepsAccounts(s, t, ok);
  }

  lemma RemoveKeepsInv(s: State, t: Thread)
    requires Inv(s) && CanRemove(s, t)
    ensures Inv(DoRemove(s, t))
  {
    RemoveKeepsOrder(s.registry, s.pcs[t].id);
    hide Ordered;
    assert Relies(s, t, s.pcs[t]);
  }

  lemma CloseKeepsInv(s: State, t: Thread)
    requires Inv(s) && CanClose(s, t)
    ensures Inv(DoClose(s, t))
  {
    ReversedDescends(s.registry.order);
  }

  lemma ForceNextKeepsInv(s: State, t: Thread)
    requires Inv(s) && CanForceNext(s, t)
    ensures Inv(DoForceNext(s, t))
  {
    hide Ordered;
    assert Relies(s, t, s.pcs[t]);
  }

  lemma FinishKeepsInv(s: State, t: Thread)
    requires Inv(s) && CanFinish(s, t)
    ensures Inv(DoFinish(s, t))
  {
    hide Ordered;
    assert Relies(s, t, s.pcs[t]);
  }

  lemma InvIsKept(s: State, step: Step)
    requires Inv(s) && Allowed(s, step)
    ensures Inv(Do(s, step))
  {
    hide Ordered, Payloads, Threads, Accounted, Insert;
    hide DoLoad, DoLookup, DoEnter, DoReturn, DoRemove, DoClose, DoForceNext, DoFinish;
    match step
    case Load => LoadKeepsInv(s);
    case Lookup(t, id, op) => LookupKeepsInv(s, t, id, op);
    case Enter(t) => EnterKeepsInv(s, t);
    case Return(t, ok) => ReturnKeepsInv(s, t, ok);
    case Remove(t) => RemoveKeepsInv(s, t);
    case Close(t) => CloseKeepsInv(s, t);
    case ForceNext(t) => ForceNextKeepsInv(s, t);
    case Finish(t) => FinishKeepsInv(s, t);
  }

  lemma {:induction false} InvOfRuns(s: State, steps: seq<Step>)
    requires Inv(s) && RunAll(s, steps).Some?
    ensures Inv(RunAll(s, steps).value)
    decreases |steps|
  {
    hide Inv, Allowed, Do;
    if steps != [] {
      InvIsKept(s, steps[0]);
      InvOfRuns(Do(s, steps[0]), steps[1..]);
    }
  }

  lemma Reachable(steps: seq<Step>)
    requires RunAll(INITIAL, steps).Some?
    ensures Inv(RunAll(INITIAL, steps).value)
  {
    hide Allowed, Do, RunAll;
    InvOfRuns(INITIAL, steps);
  }

  // ---------------------------------------------------------------- what holds of every run

  /** A plugin's invoke callback runs only while its payload is enabled; initialize succeeds at most once, only
      from the loaded state, and before any other callback; shutdown is called at most once and only after it. */
  lemma CallbacksInOrder(steps: seq<Step>, id: Id)
    requires RunAll(INITIAL, steps).Some? && id in RunAll(INITIAL, steps).value.payloads
    ensures var p := RunAll(INITIAL, steps).value.payloads[id];
            && (p.busy == Some(Invoke) ==> p.state == Enabled && p.inits == 1 && p.shutdowns == 0)
            && (p.busy == Some(Initialize) ==> p.state == Loaded && p.inits == 0 && p.shutdowns == 0)
            && (p.busy == Some(ShutDown) ==> p.inits == 1 && p.shutdowns == 1)
            && p.shutdowns <= p.inits <= 1
            && (Final(p.state) ==> p.shutdowns == p.inits && p.busy == None)
  {
    hide Allowed, Do, RunAll, Threads, Accounted;
    Reachable(steps);
  }

  /** The load order is strictly increasing and lists exactly the payload map, identifiers are never reused,
      and the close in progress visits what it took in strictly decreasing order, skipping nothing that is up. */
  lemma RegistryIsOrdered(steps: seq<Step>)
    requires RunAll(INITIAL, steps).Some?
    ensures var s := RunAll(INITIAL, steps).value;
            && Increasing(s.registry.order) && (forall id :: id in s.registry.order <==> id in s.registry.live)
            && (forall id :: id in s.payloads ==> id < s.registry.nextId)
            && (forall t :: t in s.pcs && Closes(s.pcs[t]) ==>
                  && t == s.closer && Decreasing(Rest(s.pcs[t]))
                  && forall id :: id in s.payloads && !Final(s.payloads[id].state) ==> id in Rest(s.pcs[t]))
  {
    hide Allowed, Do, RunAll;
    Reachable(steps);
    var s := RunAll(INITIAL, steps).value;
    forall t | t in s.pcs && Closes(s.pcs[t])
      ensures t == s.closer && Decreasing(Rest(s.pcs[t])) && s.registry.closed
    {
      assert Relies(s, t, s.pcs[t]);
    }
  }

  /** One close takes the whole registry, in reverse load order. */
  lemma CloseTakesAllReversed(steps: seq<Step>, t: Thread)
    requires RunAll(INITIAL, steps).Some? && Allowed(RunAll(INITIAL, steps).value, Close(t))
    requires !RunAll(INITIAL, steps).value.registry.closed
    ensures var s := RunAll(INITIAL, steps).value;
            var c := Do(s, Close(t));
            && c.pcs[t] == Closing(Reversed(s.registry.order)) && Decreasing(c.pcs[t].rest)
            && (forall id :: id in c.pcs[t].rest <==> id in s.registry.live)
            && c.registry.closed && c.registry.live == {} && c.registry.order == []
  {
    hide RunAll, Payloads, Threads, Accounted;
    Reachable(steps);
    ReversedDescends(RunAll(INITIAL, steps).value.registry.order);
  }

  /** Over all runs: what a thread that holds a payload's Arc does once it gets the lock. A call on an enabled
      payload runs the invoke callback, an enable of a loaded one initialize, an unload of a disabled one
      shutdown, and the unload of a payload that is not up goes on to remove it; nothing else runs a callback. */
  lemma EnterRuns(steps: seq<Step>, t: Thread)
    requires RunAll(INITIAL, steps).Some? && t in RunAll(INITIAL, steps).value.pcs
    requires var s := RunAll(INITIAL, steps).value; s.pcs[t].Wants? && Idle(s, s.pcs[t].id)
    ensures var s := RunAll(INITIAL, steps).value;
            var Wants(id, op) := s.pcs[t];
            var before := s.payloads[id];
            && op != Force && Allowed(s, Enter(t))
            && var e := Do(s, Enter(t));
               var after := e.payloads[id];
               && (op.Call? && before.state.Enabled? ==> after.busy == Some(Invoke) && e.pcs[t].Calling?)
               && (op.Enable? && before.state.Loaded? ==> after.busy == Some(Initialize) && e.pcs[t].Calling?)
               && (op.Unload? && before.state.Disabled? ==>
                     after.busy == Some(ShutDown) && e.pcs[t].Calling? && after.shutdowns == before.shutdowns + 1)
               && (after.busy.Some? ==>
                     || (op.Call? && before.state.Enabled?) || (op.Enable? && before.state.Loaded?)
                     || (op.Unload? && before.state.Disabled?))
               && (after.busy.None? ==>
                     && (op.Enable? && before.state.Disabled? ==> after.state.Enabled?)
                     && (op.Disable? && before.state.Enabled? ==> after.state.Disabled?)
                     && (op.Unload? && !before.state.Enabled? ==> after.state.Shutdown? && e.pcs[t] == Removing(id))
                     && (!op.Unload? || before.state.Enabled? ==> t !in e.pcs))
  {
    hide RunAll, Ordered, Payloads, Accounted;
    Reachable(steps);
    var s := RunAll(INITIAL, steps).value;
    assert Relies(s, t, s.pcs[t]);
  }

  // ---------------------------------------------------------------- each operation left alone

  lemma Follow(s: State, steps: seq<Step>, t: State, rest: seq<Step>)
    requires steps != [] && rest == steps[1..] && Allowed(s, steps[0]) && Do(s, steps[0]) == t
    ensures RunAll(s, steps) == RunAll(t, rest)
  {
    hide Allowed, Do;
  }

  lemma NoSteps(s: State)
    ensures RunAll(s, []) == Some(s)
  {
  }

  /** Found, locked, and inside the callback. */
  lemma CallbackBegins(s: State, t: Thread, id: Id, op: Operation, cb: Callback, rest: seq<Step>)
    requires t !in s.pcs && op != Force && !s.registry.closed && id in s.registry.live && Idle(s, id)
    requires React(op, s.payloads[id].state) == Run(cb)
    ensures var r := s.(payloads := s.payloads[id := Begun(s.payloads[id], t, cb)],
                        pcs := s.pcs[t := Calling(id, op, cb, [])]);
            RunAll(s, [Lookup(t, id, op), Enter(t)] + rest) == RunAll(r, rest)
  {
    hide RunAll, Without, Insert, Reversed;
    var s1 := DoLookup(s, t, id, op);
    Follow(s, [Lookup(t, id, op), Enter(t)] + rest, s1, [Enter(t)] + rest);
    Follow(s1, [Enter(t)] + rest, DoEnter(s1, t), rest);
    assert DoEnter(s1, t).pcs == s.pcs[t := Calling(id, op, cb, [])];
  }

  lemma CallbackEnds(s: State, r: State, t: Thread, id: Id, op: Operation, cb: Callback, ok: bool)
    requires t !in s.pcs && Idle(s, id) && (op.Enable? || op.Call?)
    requires r == s.(payloads := s.payloads[id := Begun(s.payloads[id], t, cb)],
                     pcs := s.pcs[t := Calling(id, op, cb, [])])
    ensures RunAll(r, [Return(t, ok)]) ==
            Some(s.(payloads := s.payloads[id := Ended(Begun(s.payloads[id], t, cb), cb, ok)]))
  {
    hide RunAll, Without, Insert, Reversed;
    Follow(r, [Return(t, ok)], DoReturn(r, t, ok), []);
    assert DoReturn(r, t, ok).pcs == s.pcs;
    assert DoReturn(r, t, ok).payloads == s.payloads[id := Ended(Begun(s.payloads[id], t, cb), cb, ok)];
    NoSteps(DoReturn(r, t, ok));
  }

  /** An invoke of an enabled payload runs its plugin, whatever that returns, and leaves the payload enabled. */
  lemma CallAlone(s: State, t: Thread, id: Id, ok: bool)
    requires t !in s.pcs && !s.registry.closed && id in s.registry.live && Idle(s, id)
    requires s.payloads[id].state.Enabled?
    ensures var p := s.payloads[id];
            && RunAll(s, [Lookup(t, id, Call), Enter(t)]) ==
               Some(s.(payloads := s.payloads[id := p.(busy := Some(Invoke), owner := t)],
                       pcs := s.pcs[t := Calling(id, Call, Invoke, [])]))
            && RunAll(s, [Lookup(t, id, Call), Enter(t), Return(t, ok)]) ==
               Some(s.(payloads := s.payloads[id := p.(owner := t)]))
  {
    hide RunAll, Allowed, Do;
    var p := s.payloads[id];
    var r := s.(payloads := s.payloads[id := Begun(p, t, Invoke)], pcs := s.pcs[t := Calling(id, Call, Invoke, [])]);
    CallbackBegins(s, t, id, Call, Invoke, []);
    CallbackBegins(s, t, id, Call, Invoke, [Return(t, ok)]);
    CallbackEnds(s, r, t, id, Call, Invoke, ok);
    NoSteps(r);
    assert [Lookup(t, id, Call), Enter(t)] + [] == [Lookup(t, id, Call), Enter(t)];
    assert [Lookup(t, id, Call), Enter(t)] + [Return(t, ok)] == [Lookup(t, id, Call), Enter(t), Return(t, ok)];
  }

  /** The first enable of a payload initializes its plugin, and enables it exactly when that succeeds. */
  lemma EnableAlone(s: State, t: Thread, id: Id, ok: bool)
    requires t !in s.pcs && !s.registry.closed && id in s.registry.live && Idle(s, id)
    requires s.payloads[id].state.Loaded?
    ensures var p := s.payloads[id];
            RunAll(s, [Lookup(t, id, Enable), Enter(t), Return(t, ok)]) ==
            Some(s.(payloads := s.payloads[id := if ok then p.(owner := t, state := Enabled, inits := p.inits + 1)
                                                 else p.(owner := t)]))
  {
    hide RunAll, Allowed, Do;
    var p := s.payloads[id];
    var r := s.(payloads := s.payloads[id := Begun(p, t, Initialize)],
                pcs := s.pcs[t := Calling(id, Enable, Initialize, [])]);
    CallbackBegins(s, t, id, Enable, Initialize, [Return(t, ok)]);
    CallbackEnds(s, r, t, id, Enable, Initialize, ok);
    assert [Lookup(t, id, Enable), Enter(t)] + [Return(t, ok)] == [Lookup(t, id, Enable), Enter(t), Return(t, ok)];
  }

  /** An unload of a disabled payload shuts its plugin down and, when that succeeds, takes it off the registry. */
  lemma UnloadAlone(s: State, t: Thread, id: Id)
    requires t !in s.pcs && !s.registry.closed && id in s.registry.live && Idle(s, id)
    requires s.payloads[id].state.Disabled?
    ensures var p := s.payloads[id];
            RunAll(s, [Lookup(t, id, Unload), Enter(t), Return(t, true), Remove(t)]) ==
            Some(s.(payloads := s.payloads[id := p.(owner := t, state := Shutdown, shutdowns := p.shutdowns + 1)],
                    registry := s.registry.(order := Without(s.registry.order, id),
                                            live := s.registry.live - {id})))
  {
    hide RunAll, Without, Insert, Reversed;
    var p := s.payloads[id];
    var r := s.(payloads := s.payloads[id := Begun(p, t, ShutDown)],
                pcs := s.pcs[t := Calling(id, Unload, ShutDown, [])]);
    CallbackBegins(s, t, id, Unload, ShutDown, [Return(t, true), Remove(t)]);
    var r1 := DoReturn(r, t, true);
    Follow(r, [Return(t, true), Remove(t)], r1, [Remove(t)]);
    Follow(r1, [Remove(t)], DoRemove(r1, t), []);
    assert r1.pcs == s.pcs[t := Removing(id)];
    assert DoRemove(r1, t).pcs == s.pcs;
    assert r1.payloads == s.payloads[id := p.(owner := t, state := Shutdown, shutdowns := p.shutdowns + 1)];
    NoSteps(DoRemove(r1, t));
    assert [Lookup(t, id, Unload), Enter(t)] + [Return(t, true), Remove(t)] ==
           [Lookup(t, id, Unload), Enter(t), Return(t, true), Remove(t)];
  }

  predicate Settled(p: Payload) { Final(p.state) && p.busy == None && p.shutdowns == p.inits <= 1 }

  /** When the close that set `closed` has returned, every payload ever loaded has had exactly one shutdown
      callback if it was initialized and none otherwise, and nothing runs in any of them. */
  lemma CloseSettlesAll(steps: seq<Step>)
    requires RunAll(INITIAL, steps).Some? && RunAll(INITIAL, steps).value.closeReturned
    ensures var s := RunAll(INITIAL, steps).value;
            && (forall id :: id in s.payloads ==> Settled(s.payloads[id]))
            && (forall t :: t in s.pcs ==> !s.pcs[t].Calling? && !s.pcs[t].Closing?)
  {
    hide Allowed, Do, RunAll;
    Reachable(steps);
    ClosedIsSettled(RunAll(INITIAL, steps).value);
  }

  lemma ClosedIsSettled(s: State)
    requires Inv(s) && s.closeReturned
    ensures forall id :: id in s.payloads ==> Settled(s.payloads[id])
    ensures forall t :: t in s.pcs ==> !s.pcs[t].Calling? && !s.pcs[t].Closing?
  {
    hide Ordered;
    assert forall id :: id in s.payloads ==> Sane(s.payloads[id]);
    forall t | t in s.pcs ensures !s.pcs[t].Calling? && !s.pcs[t].Closing? {
      assert Relies(s, t, s.pcs[t]);
    }
  }

  lemma ClosedStep(s: State, step: Step)
    requires Inv(s) && s.closeReturned && Allowed(s, step)
    ensures var t := Do(s, step);
            && t.closeReturned && t.payloads.Keys == s.payloads.Keys
            && forall id :: id in s.payloads ==>
                 t.payloads[id].inits == s.payloads[id].inits && t.payloads[id].shutdowns == s.payloads[id].shutdowns
  {
    ClosedIsSettled(s);
    hide Ordered, Payloads, Threads;
  }

  /** And so it stays: whatever threads that still hold a payload do, no callback is ever run again. */
  lemma {:induction false} ClosedForever(s: State, steps: seq<Step>)
    requires Inv(s) && s.closeReturned && RunAll(s, steps).Some?
    ensures var t := RunAll(s, steps).value;
            && t.payloads.Keys == s.payloads.Keys
            && (forall id :: id in s.payloads ==>
                  && Settled(t.payloads[id])
                  && t.payloads[id].inits == s.payloads[id].inits
                  && t.payloads[id].shutdowns == s.payloads[id].shutdowns)
    decreases |steps|
  {
    ClosedIsSettled(s);
    hide Inv, Allowed, Do;
    if steps != [] {
      InvIsKept(s, steps[0]);
      ClosedStep(s, steps[0]);
      ClosedForever(Do(s, steps[0]), steps[1..]);
    }
  }

  // ---------------------------------------------------------------- the engine on the fields it updates

  type Log = seq<(Id, Callback)>

  /** The callbacks a list of forced shutdowns runs, and the first payload whose callback fails. */
  function ForcedCalls(ids: seq<Id>, payloads: map<Id, PayloadState>): Log {
    if ids == [] then []
    else if ids[0] in payloads && React(Force, payloads[ids[0]]).Run?
      then [(ids[0], ShutDown)] + ForcedCalls(ids[1..], payloads)
    else ForcedCalls(ids[1..], payloads)
  }

  function FirstFailure(calls: Log, status: map<Id, bool>): Option<Id> {
    if calls == [] then None
    else if calls[0].0 in status && !status[calls[0].0] then Some(calls[0].0)
    else FirstFailure(calls[1..], status)
  }

  lemma {:induction false} ForcedCallsSplit(a: seq<Id>, b: seq<Id>, payloads: map<Id, PayloadState>)
    ensures ForcedCalls(a + b, payloads) == ForcedCalls(a, payloads) + ForcedCalls(b, payloads)
  {
    if a == [] {
      assert a + b == b;
    } else {
      assert (a + b)[1..] == a[1..] + b;
      ForcedCallsSplit(a[1..], b, payloads);
    }
  }

  lemma {:induction false} FirstFailureSplit(a: Log, b: Log, status: map<Id, bool>)
    ensures FirstFailure(a + b, status) ==
            if FirstFailure(a, status).Some? then FirstFailure(a, status) else FirstFailure(b, status)
  {
    if a == [] {
      assert a + b == b;
    } else {
      assert (a + b)[1..] == a[1..] + b;
      FirstFailureSplit(a[1..], b, status);
    }
  }

  /** Which callbacks those are: one shutdown of each payload that is up, in the order of the list. */
  lemma {:induction false} ForcedCallsAre(ids: seq<Id>, payloads: map<Id, PayloadState>)
    requires Decreasing(ids)
    ensures var calls := ForcedCalls(ids, payloads);
            && (forall id, cb :: (id, cb) in calls <==>
                  cb == ShutDown && id in ids && id in payloads && (payloads[id].Enabled? || payloads[id].Disabled?))
            && (forall i, j :: 0 <= i < j < |calls| ==> calls[i].0 > calls[j].0)
  {
    if ids != [] {
      var rest := ids[1..];
      ForcedCallsAre(rest, payloads);
      var calls, more := ForcedCalls(ids, payloads), ForcedCalls(rest, payloads);
      forall id | id in rest ensures id < ids[0] {
      }
      if |calls| > |more| {
        assert calls == [(ids[0], ShutDown)] + more;
        forall i, j | 0 <= i < j < |calls| ensures calls[i].0 > calls[j].0 {
          assert calls[j] in more && more[j - 1] == calls[j];
          assert calls[j].0 in rest;
        }
      }
    }
  }

  /** The first failure is a call that fails with none before it failing; there is none if none fails. */
  lemma {:induction false} FirstFailureIsFirst(calls: Log, status: map<Id, bool>)
    ensures var f := FirstFailure(calls, status);
            if f.None? then forall i :: 0 <= i < |calls| && calls[i].0 in status ==> status[calls[i].0]
            else exists i ::
                   && 0 <= i < |calls| && calls[i].0 == f.value && f.value in status && !status[f.value]
                   && forall j :: 0 <= j < i && calls[j].0 in status ==> status[calls[j].0]
  {
    if calls != [] && !(calls[0].0 in status && !status[calls[0].0]) {
      FirstFailureIsFirst(calls[1..], status);
      var f := FirstFailure(calls[1..], status);
      if f.Some? {
        var i :| 0 <= i < |calls[1..]| && calls[1..][i].0 == f.value && f.value in status && !status[f.value]
                 && forall j :: 0 <= j < i && calls[1..][j].0 in status ==> status[calls[1..][j].0];
        assert calls[i + 1].0 == f.value;
        forall j | 0 <= j < i + 1 && calls[j].0 in status ensures status[calls[j].0] {
          assert j > 0 ==> calls[1..][j - 1] == calls[j];
        }
      }
    }
  }

  lemma NotClosed(r: Registry, id: Id)
    requires Ordered(r) && id in r.live
    ensures !r.closed
  {
  }

  lemma NoForcedCalls(payloads: map<Id, PayloadState>, status: map<Id, bool>)
    ensures ForcedCalls([], payloads) == [] && FirstFailure([], status) == None
  {
  }

  lemma OneForcedCall(id: Id, payloads: map<Id, PayloadState>, status: map<Id, bool>)
    ensures var up := id in payloads && (payloads[id].Enabled? || payloads[id].Disabled?);
            && ForcedCalls([id], payloads) == (if up then [(id, ShutDown)] else [])
            && FirstFailure([(id, ShutDown)], status) == (if id in status && !status[id] then Some(id) else None)
  {
    assert [id][1..] == [] && [(id, ShutDown)][1..] == [];
  }

  lemma OneMoreForced(ids: seq<Id>, i: nat, payloads: map<Id, PayloadState>, status: map<Id, bool>)
    requires i < |ids|
    ensures var up := ids[i] in payloads && (payloads[ids[i]].Enabled? || payloads[ids[i]].Disabled?);
            var calls := ForcedCalls(ids[..i], payloads);
            var first := FirstFailure(calls, status);
            && ForcedCalls(ids[..i + 1], payloads) == (if up then calls + [(ids[i], ShutDown)] else calls)
            && FirstFailure(ForcedCalls(ids[..i + 1], payloads), status) ==
               if first.None? && up && ids[i] in status && !status[ids[i]] then Some(ids[i]) else first
  {
    hide ForcedCalls, FirstFailure, React;
    assert ids[..i + 1] == ids[..i] + [ids[i]];
    ForcedCallsSplit(ids[..i], [ids[i]], payloads);
    FirstFailureSplit(ForcedCalls(ids[..i], payloads), ForcedCalls([ids[i]], payloads), status);
    OneForcedCall(ids[i], payloads, status);
    NoForcedCalls(payloads, status);
  }

  /** One shutdown callback for each payload that is up and none for others, in descending order. */
  ghost predicate ShutsDownAll(calls: Log, payloads: map<Id, PayloadState>) {
    && (forall id, cb :: (id, cb) in calls <==>
          cb == ShutDown && id in payloads && (payloads[id].Enabled? || payloads[id].Disabled?))
    && (forall i, j :: 0 <= i < j < |calls| ==> calls[i].0 > calls[j].0)
  }

  predicate AllSucceed(calls: Log, status: map<Id, bool>) { forall c :: c in calls && c.0 in status ==> status[c.0] }

  /** What a close of a registry calls. */
  lemma CloseCalls(r: Registry, payloads: map<Id, PayloadState>, status: map<Id, bool>)
    requires Ordered(r) && payloads.Keys == r.live
    ensures Ordered(r.(order := [], live := {}, closed := true))
    ensures var calls := ForcedCalls(Reversed(r.order), payloads);
            ShutsDownAll(calls, payloads) && (FirstFailure(calls, status).None? <==> AllSucceed(calls, status))
  {
    ReversedDescends(r.order);
    ForcedCallsAre(Reversed(r.order), payloads);
    FirstFailureIsFirst(ForcedCalls(Reversed(r.order), payloads), status);
  }

  class EmbeddedEngine {
    var nextPayloadId: Id
    var loadOrder: seq<Id>
    var payloads: map<Id, PayloadState>
    var closed: bool
    ghost var log: Log

    constructor ()
      ensures Valid() && Fields() == NEW_REGISTRY && log == []
    {
      nextPayloadId, loadOrder, payloads, closed, log := 1, [], map[], false, [];
    }

    function Fields(): Registry
      reads this
    {
      Registry(nextPayloadId, loadOrder, payloads.Keys, closed)
    }

    ghost predicate Valid()
      reads this
    {
      Ordered(Fields())
    }

    /** `loads` says whether the identifiers are nonzero, the path resolves, the library loads and its query
        succeeds. */
    method LoadPayload(loads: bool) returns (id: Option<Id>)
      requires Valid()
      modifies this
      ensures Valid() && log == old(log)
      ensures id.Some? <==> loads && Insert(old(Fields())).Some?
      ensures id.Some? ==> id.value !in old(payloads) && payloads == old(payloads)[id.value := Loaded] &&
                           Fields() == Insert(old(Fields())).value
      ensures id.Some? <==> loads && !old(closed) && old(nextPayloadId) < U64_MAX
      ensures id.Some? ==>
                && id.value == old(nextPayloadId) && nextPayloadId == old(nextPayloadId) + 1
                && loadOrder == old(loadOrder) + [id.value] && !closed
      ensures id.None? ==> Fields() == old(Fields()) && payloads == old(payloads)
    {
      if closed || !loads || nextPayloadId + 1 > U64_MAX {
        return None;
      }
      InsertKeepsOrder(Fields());
      id := Some(nextPayloadId);
      nextPayloadId := nextPayloadId + 1;
      payloads := payloads[id.value := Loaded];
      loadOrder := loadOrder + [id.value];
    }

    /** Enable, disable or invoke one payload. */
    method Operate(id: Id, op: Operation, status: bool) returns (ok: bool)
      requires Valid() && (op.Enable? || op.Disable? || op.Call?)
      modifies this
      ensures Valid() && Fields() == old(Fields())
      ensures id !in old(payloads) ==> !ok && payloads == old(payloads) && log == old(log)
      ensures id in old(payloads) ==>
                && (payloads[id], ok) == Outcome(op, old(payloads)[id], status)
                && payloads == old(payloads)[id := payloads[id]]
                && log == old(log) + match React(op, old(payloads)[id]) case Now(_, _) => [] case Run(cb) => [(id, cb)]
      ensures id in old(payloads) && op.Call? ==>
                if old(payloads)[id].Enabled?
                then ok == status && payloads == old(payloads) && log == old(log) + [(id, Invoke)]
                else !ok && payloads == old(payloads) && log == old(log)
      ensures id in old(payloads) && op.Enable? ==>
                match old(payloads)[id]
                case Loaded =>
                  && ok == status && payloads[id] == (if status then Enabled else Loaded)
                  && log == old(log) + [(id, Initialize)]
                case Enabled => ok && payloads[id] == Enabled && log == old(log)
                case Disabled => ok && payloads[id] == Enabled && log == old(log)
                case _ => !ok && payloads == old(payloads) && log == old(log)
      ensures id in old(payloads) && op.Disable? ==>
                && (ok <==> old(payloads)[id].Enabled? || old(payloads)[id].Disabled?) && log == old(log)
                && payloads[id] == if ok then Disabled else old(payloads)[id]
    {
      hide Ordered;
      if id in payloads {
        NotClosed(Fields(), id);
      }
      if closed || id !in payloads {
        return false;
      }
      match React(op, payloads[id])
      case Now(state, now) =>
        assert payloads[id := state].Keys == payloads.Keys;
        payloads := payloads[id := state];
        ok := now;
      case Run(callback) =>
        log := log + [(id, callback)];
        assert payloads[id := After(callback, payloads[id], status)].Keys == payloads.Keys;
        payloads := payloads[id := After(callback, payloads[id], status)];
        ok := status;
    }

    /** A failed shutdown is kept; a second unload then removes the payload without calling it again. */
    method UnloadPayload(id: Id, status: bool) returns (ok: bool)
      requires Valid()
      modifies this
      ensures Valid() && closed == old(closed) && nextPayloadId == old(nextPayloadId)
      ensures id !in old(payloads) ==> !ok && payloads == old(payloads) && log == old(log)
      ensures id in old(payloads) ==>
                && ok == Outcome(Unload, old(payloads)[id], status).1
                && payloads ==
                   (if ok then old(payloads) - {id}
                    else old(payloads)[id := Outcome(Unload, old(payloads)[id], status).0])
                && loadOrder == (if ok then Without(old(loadOrder), id) else old(loadOrder))
                && log == old(log) + if old(payloads)[id].Disabled? then [(id, ShutDown)] else []
      ensures id in old(payloads) ==> (ok <==> !old(payloads)[id].Enabled? && (old(payloads)[id].Disabled? ==> status))
      ensures id in old(payloads) && !ok ==>
                payloads == if old(payloads)[id].Enabled? then old(payloads) else old(payloads)[id := ShutdownFailed]
    {
      hide Ordered, Without;
      if id in payloads {
        NotClosed(Fields(), id);
      }
      if closed || id !in payloads {
        return false;
      }
      var callback := payloads[id].Disabled?;
      if callback {
        log := log + [(id, ShutDown)];
      }
      var (next, answer) := Outcome(Unload, payloads[id], status);
      ok := answer;
      if ok {
        RemoveKeepsOrder(Fields(), id);
        assert (payloads - {id}).Keys == payloads.Keys - {id};
        payloads := payloads - {id};
        loadOrder := Without(loadOrder, id);
      } else {
        assert payloads[id := next].Keys == payloads.Keys;
        payloads := payloads[id := next];
      }
    }

    /** Closes everything in reverse load order, going on past failures and reporting the first. */
    method Close(status: map<Id, bool>) returns (failure: Option<Id>)
      requires Valid()
      modifies this
      ensures Valid() && closed && nextPayloadId == old(nextPayloadId)
      ensures old(closed) ==> failure.None? && log == old(log) && payloads == old(payloads)
      ensures !old(closed) ==>
                var calls := ForcedCalls(Reversed(old(loadOrder)), old(payloads));
                && payloads == map[] && loadOrder == [] && log == old(log) + calls
                && failure == FirstFailure(calls, status)
                && ShutsDownAll(calls, old(payloads)) && (failure.None? <==> AllSucceed(calls, status))
    {
      if closed {
        return None;
      }
      hide Ordered, Reversed, ForcedCalls, FirstFailure, ShutsDownAll, AllSucceed, React;
      CloseCalls(Fields(), payloads, status);
      NoForcedCalls(payloads, status);
      closed := true;
      var work := Reversed(loadOrder);
      var taken := payloads;
      loadOrder := [];
      payloads := map[];
      failure := None;
      var i := 0;
      ghost var before, made: Log := log, [];
      assert work[..|work|] == work && work[..0] == [];
      assert payloads.Keys == {};
      while i < |work|
        invariant 0 <= i <= |work| && closed && loadOrder == [] && payloads == map[]
        invariant nextPayloadId == old(nextPayloadId)
        invariant made == ForcedCalls(work[..i], taken) && log == before + made
        invariant failure == FirstFailure(made, status)
      {
        var id := work[i];
        OneMoreForced(work, i, taken, status);
        if id in taken && (taken[id].Enabled? || taken[id].Disabled?) {
          log := log + [(id, ShutDown)];
          made := made + [(id, ShutDown)];
          if id in status && !status[id] && failure.None? {
            failure := Some(id);
          }
        }
        i := i + 1;
      }
      assert work[..i] == work;
    }
  }
}
