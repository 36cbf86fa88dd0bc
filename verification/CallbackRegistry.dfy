/** Callbacks and their futures: pairing, completion, cancellation and closing, in every interleaving. */
module CallbackRegistry {
  import opened Bytes
  import opened Options
  import opened VacantIds
  import BridgeValue

  type Outcome = BridgeValue.Result<BridgeValue.Value>
  type Call = nat

  /** The mutex-guarded part of the registry. */
  datatype Table = Table(closed: bool, nextId: u64, live: map<u64, EntryId>)

  const NEW_TABLE := Table(false, 1, map[])

  // ---------------------------------------------------------------- the registry's lock regions

  function PairRegion(t: Table, e: EntryId): Option<(Table, u64)> {
    if t.closed || |t.live| >= MAX_PENDING_CALLBACKS then None
    else
      match VacantId(t.nextId, t.live)
      case None => None
      case Some(id) => Some((t.(nextId := Successor(id), live := t.live[id := e]), id))
  }

  /** `Arc::ptr_eq`: the identifier still leads to this very entry. */
  predicate Holds(t: Table, id: u64, e: EntryId) { id in t.live && t.live[id] == e }

  function RemoveRegion(t: Table, id: u64, e: EntryId): Table {
    if Holds(t, id, e) then t.(live := t.live - {id}) else t
  }

  function DrainRegion(t: Table): Table { t.(closed := true, live := map[]) }

  /** The same regions on the fields they update. */
  class Registry {
    var closed: bool
    var nextId: u64
    var live: map<u64, EntryId>

    constructor ()
      ensures Guarded() == NEW_TABLE
    {
      closed, nextId, live := false, 1, map[];
    }

    function Guarded(): Table
      reads this
    {
      Table(closed, nextId, live)
    }

    /** `pair` refuses only when closed or full: with room left, an identifier is always found. */
    method Pair(e: EntryId) returns (id: Option<u64>)
      modifies this
      ensures id.Some? <==> !old(closed) && |old(live)| < MAX_PENDING_CALLBACKS
      ensures id.Some? ==> id.value != 0 && id.value !in old(live) && live == old(live)[id.value := e]
      ensures id.Some? ==>
                && nextId == (if id.value == U64_MAX then 1 else id.value + 1) && closed == old(closed)
                && exists k :: 0 <= k <= |old(live)| && FirstFree(old(nextId), old(live), id.value, k)
      ensures match PairRegion(old(Guarded()), e)
              case None => id == None && Guarded() == old(Guarded())
              case Some((t, i)) => id == Some(i) && Guarded() == t
    {
      if closed || |live| >= MAX_PENDING_CALLBACKS {
        return None;
      }
      id := FindVacant(nextId, live);
      if id.None? {
        return None;
      }
      nextId := Successor(id.value);
      live := live[id.value := e];
    }

    method Remove(id: u64, e: EntryId)
      modifies this
      ensures Guarded() == RemoveRegion(old(Guarded()), id, e)
      ensures closed == old(closed) && nextId == old(nextId)
      ensures live == if id in old(live) && old(live)[id] == e then old(live) - {id} else old(live)
    {
      if id in live && live[id] == e {
        live := live - {id};
      }
    }

    method Drain() returns (drained: set<EntryId>)
      modifies this
      ensures Guarded() == DrainRegion(old(Guarded())) && drained == old(live).Values
      ensures closed && live == map[] && nextId == old(nextId)
    {
      closed := true;
      drained := live.Values;
      live := map[];
    }
  }

  // ---------------------------------------------------------------- one entry

  datatype EntryState = Pending | Complete(result: Outcome) | Cancelled

  /** Whether a completion may succeed: an open registry that still lists this very entry. */
  predicate Accepts(t: Table, id: u64, e: EntryId) { !t.closed && Holds(t, id, e) }

  /** `complete`, which holds the entry lock and then the registry lock until it is done. */
  function CompleteRegion(registry: Option<Table>, id: u64, e: EntryId, state: EntryState, result: Outcome)
    : (EntryState, Option<Table>, Option<BridgeValue.ErrorCode>)
  {
    match state
    case Complete(_) => (state, registry, Some(BridgeValue.CallbackFailed))
    case Cancelled => (state, registry, Some(BridgeValue.Cancelled))
    case Pending =>
      if registry.None? || !Accepts(registry.value, id, e) then (Cancelled, registry, Some(BridgeValue.Cancelled))
      else (Complete(result), Some(RemoveRegion(registry.value, id, e)), None)
  }

  /** What `poll` answers, and what `wait` returns once it is not `None`. */
  function Poll(state: EntryState): Option<Outcome> {
    match state
    case Pending => None
    case Complete(r) => Some(r)
    case Cancelled => Some(BridgeValue.Err(BridgeValue.Cancelled))
  }

  class Cell {
    var state: EntryState

    constructor ()
      ensures state == Pending
    {
      state := Pending;
    }

    /** `registry` is null when the weak reference no longer upgrades. */
    method Complete(registry: Registry?, id: u64, e: EntryId, result: Outcome)
      returns (error: Option<BridgeValue.ErrorCode>)
      modifies this, registry
      ensures var t := if registry == null then None else Some(old(registry.Guarded()));
              var u := if registry == null then None else Some(registry.Guarded());
              (state, u, error) == CompleteRegion(t, id, e, old(state), result)
      ensures error.None? <==>
                old(state).Pending? && Poll(state) == Some(result) && registry != null && !old(registry.closed) &&
                               id in old(registry.live) && old(registry.live)[id] == e
      ensures match old(state)
              case Complete(_) => error == Some(BridgeValue.CallbackFailed) && state == old(state)
              case Cancelled => error == Some(BridgeValue.Cancelled) && state == Cancelled
              case Pending =>
                if error.None? then state == EntryState.Complete(result)
                else error == Some(BridgeValue.Cancelled) && state == Cancelled
      ensures registry != null ==>
                && registry.closed == old(registry.closed) && registry.nextId == old(registry.nextId)
                && registry.live == if error.None? then old(registry.live) - {id} else old(registry.live)
    {
      match state
      case Pending =>
        if registry == null || registry.closed || id !in registry.live || registry.live[id] != e {
          state := Cancelled;
          return Some(BridgeValue.Cancelled);
        }
        state := EntryState.Complete(result);
        registry.live := registry.live - {id};
        return None;
      case Complete(_) => return Some(BridgeValue.CallbackFailed);
      case Cancelled => return Some(BridgeValue.Cancelled);
    }

    /** Only the call that finds the entry pending wins, and it alone removes the entry. */
    method Cancel(registry: Registry, id: u64, e: EntryId) returns (won: bool)
      modifies this, registry
      ensures won <==> old(state).Pending?
      ensures state == if won then Cancelled else old(state)
      ensures registry.Guarded() ==
              if won then RemoveRegion(old(registry.Guarded()), id, e) else old(registry.Guarded())
      ensures registry.closed == old(registry.closed) && registry.nextId == old(registry.nextId)
      ensures registry.live ==
              if won && id in old(registry.live) && old(registry.live)[id] == e
              then old(registry.live) - {id} else old(registry.live)
    {
      if !state.Pending? {
        return false;
      }
      state := Cancelled;
      registry.Remove(id, e);
      won := true;
    }
  }

  // ---------------------------------------------------------------- entries, calls and steps

  /** The paired future: in use, inside its drop, or dropped. It keeps the registry alive until dropped. */
  datatype Holder = Live | Dropping | Gone

  datatype Entry = Entry(
    id: u64,
    state: EntryState,
    lock: Option<Call>,
    future: Holder,
    completions: nat,   // calls of complete that returned Ok
    cancellations: nat, // calls of cancel that returned true
    sleepers: set<Call> // calls asleep on its condition variable
  )

  /** Where a call is between two steps. */
  datatype Pc =
    | Pairing                              // holds the registry lock
    | Upgraded(e: EntryId, r: Outcome)     // holds the entry lock, wants the registry lock
    | Deciding(e: EntryId, r: Outcome)     // holds both
    | Marked(e: EntryId, dropping: bool)   // wants the registry lock
    | Removing(e: EntryId, dropping: bool) // holds the registry lock
    | Closing                              // holds the registry lock
    | Marking(rest: seq<EntryId>)          // wants the lock of the first entry left
    | Waiting(e: EntryId)                  // inside wait: asleep, or awake and wanting the entry lock

  datatype State = State(
    table: Table,
    tableLock: Option<Call>,
    entries: map<EntryId, Entry>,
    pcs: map<Call, Pc>,
    owned: bool,         // some context still holds the registry
    drainers: map<EntryId, Call>,    // the close that took each drained entry off the table
    cancellers: map<EntryId, Call>,  // the cancel that won each cancelled entry
    upgradeFailed: bool  // complete found the registry gone while its entry was pending
  )

  const INITIAL := State(NEW_TABLE, None, map[], map[], true, map[], map[], false)

  datatype Step =
    | BeginPair(c: Call) | Pair(c: Call, e: EntryId)
    | BeginComplete(c: Call, e: EntryId, r: Outcome) | Decide(c: Call)
    | Win(c: Call, e: EntryId, dropping: bool) | Remove(c: Call) | Lose(e: EntryId, dropping: bool)
    | LockTable(c: Call)
    | BeginClose(c: Call) | Drain(c: Call, order: seq<EntryId>) | Mark(c: Call)
    | BeginWait(c: Call, e: EntryId) | Spurious(c: Call) | Recheck(c: Call)
    | Release

  predicate Unlocked(s: State, e: EntryId) { e in s.entries && s.entries[e].lock.None? }

  predicate Registered(s: State, e: EntryId) {
    e in s.entries && Holds(s.table, s.entries[e].id, e)
  }

  predicate Terminal(s: State, e: EntryId) { e in s.entries && !s.entries[e].state.Pending? }

  /** Calls that borrow the future of an entry. */
  predicate Borrows(p: Pc, e: EntryId) {
    (p.Marked? || p.Removing? || p.Waiting?) && p.e == e
  }

  /** Something holds a strong reference to the registry. */
  predicate Alive(s: State) {
    || s.owned
    || (exists e :: e in s.entries && s.entries[e].future != Gone)
    || (exists c :: c in s.pcs && (s.pcs[c].Upgraded? || s.pcs[c].Deciding?))
  }

  /** A terminal transition: the state is set and `notify_all` wakes every sleeper. */
  function Settled(entry: Entry, state: EntryState): Entry { entry.(state := state, sleepers := {}) }

  // pair: the registry lock, then its region
  predicate CanLockFor(s: State, c: Call) { c !in s.pcs && s.owned && s.tableLock.None? }

  function DoLockFor(s: State, c: Call, p: Pc): State { s.(tableLock := Some(c), pcs := s.pcs[c := p]) }

  predicate CanPair(s: State, c: Call, e: EntryId) { c in s.pcs && s.pcs[c].Pairing? && e !in s.entries }

  function DoPair(s: State, c: Call, e: EntryId): State {
    match PairRegion(s.table, e)
    case None => s.(tableLock := None, pcs := s.pcs - {c})
    case Some((t, id)) =>
      s.(tableLock := None, pcs := s.pcs - {c}, table := t,
         entries := s.entries[e := Entry(id, Pending, None, Live, 0, 0, {})])
  }

  // complete: the entry lock, then the registry lock, then both regions at once
  predicate CanBeginComplete(s: State, c: Call, e: EntryId) { c !in s.pcs && Unlocked(s, e) }

  function DoBeginComplete(s: State, c: Call, e: EntryId, r: Outcome): State
    requires CanBeginComplete(s, c, e)
  {
    var entry := s.entries[e];
    if !entry.state.Pending? then s
    else if !Alive(s) then s.(upgradeFailed := true, entries := s.entries[e := Settled(entry, Cancelled)])
    else s.(pcs := s.pcs[c := Upgraded(e, r)], entries := s.entries[e := entry.(lock := Some(c))])
  }

  predicate CanDecide(s: State, c: Call) { c in s.pcs && s.pcs[c].Deciding? && s.pcs[c].e in s.entries }

  function DoDecide(s: State, c: Call): State
    requires CanDecide(s, c)
  {
    var Deciding(e, r) := s.pcs[c];
    var entry := s.entries[e].(lock := None);
    if s.table.closed || !Registered(s, e) then
      s.(tableLock := None, pcs := s.pcs - {c}, entries := s.entries[e := Settled(entry, Cancelled)])
    else
      var done := Settled(entry, Complete(r)).(completions := entry.completions + 1);
      s.(table := RemoveRegion(s.table, entry.id, e), tableLock := None, pcs := s.pcs - {c},
         entries := s.entries[e := done])
  }

  // cancel and drop: the entry region, then, for the winner, the registry lock and its region; only an
  // unborrowed future can be dropped
  predicate Unborrowed(s: State, e: EntryId) { forall c :: c in s.pcs ==> !Borrows(s.pcs[c], e) }

  predicate CanCancel(s: State, e: EntryId, dropping: bool) {
    && Unlocked(s, e) && s.entries[e].future == Live
    && (dropping ==> Unborrowed(s, e))
  }

  predicate CanWin(s: State, c: Call, e: EntryId, dropping: bool) {
    c !in s.pcs && CanCancel(s, e, dropping) && s.entries[e].state.Pending?
  }

  function DoWin(s: State, c: Call, e: EntryId, dropping: bool): State
    requires CanWin(s, c, e, dropping)
  {
    var won := s.entries[e].(state := Cancelled, sleepers := {}, cancellations := s.entries[e].cancellations + 1,
                             future := if dropping then Dropping else Live);
    s.(entries := s.entries[e := won], pcs := s.pcs[c := Marked(e, dropping)], cancellers := s.cancellers[e := c])
  }

  predicate CanLose(s: State, e: EntryId, dropping: bool) {
    CanCancel(s, e, dropping) && !s.entries[e].state.Pending?
  }

  function DoLose(s: State, e: EntryId, dropping: bool): State
    requires CanLose(s, e, dropping)
  {
    s.(entries := s.entries[e := s.entries[e].(future := if dropping then Gone else Live)])
  }

  predicate CanRemove(s: State, c: Call) { c in s.pcs && s.pcs[c].Removing? && s.pcs[c].e in s.entries }

  function DoRemove(s: State, c: Call): State
    requires CanRemove(s, c)
  {
    var Removing(e, dropping) := s.pcs[c];
    var entry := s.entries[e];
    s.(table := RemoveRegion(s.table, entry.id, e), tableLock := None, pcs := s.pcs - {c},
       entries := s.entries[e := entry.(future := if dropping then Gone else entry.future)])
  }

  predicate CanLockTable(s: State, c: Call) {
    c in s.pcs && (s.pcs[c].Upgraded? || s.pcs[c].Marked?) && s.tableLock.None?
  }

  function DoLockTable(s: State, c: Call): State
    requires CanLockTable(s, c)
  {
    match s.pcs[c]
    case Upgraded(e, r) => DoLockFor(s, c, Deciding(e, r))
    case Marked(e, dropping) => DoLockFor(s, c, Removing(e, dropping))
    case _ => s
  }

  // close: the registry region, then one entry region after another
  predicate CanDrain(s: State, c: Call, order: seq<EntryId>) {
    c in s.pcs && s.pcs[c].Closing? && (set e | e in order) == s.table.live.Values
  }

  function DoDrain(s: State, c: Call, order: seq<EntryId>): State {
    s.(table := DrainRegion(s.table), tableLock := None, pcs := s.pcs[c := Marking(order)],
       drainers := s.drainers + map e | e in order :: c)
  }

  predicate CanMark(s: State, c: Call) {
    c in s.pcs && s.pcs[c].Marking? && (s.pcs[c].rest == [] || Unlocked(s, s.pcs[c].rest[0]))
  }

  function DoMark(s: State, c: Call): State
    requires CanMark(s, c)
  {
    var rest := s.pcs[c].rest;
    if rest == [] then s.(pcs := s.pcs - {c})
    else
      var entry := s.entries[rest[0]];
      s.(entries := s.entries[rest[0] := if entry.state.Pending? then Settled(entry, Cancelled) else entry],
         pcs := s.pcs[c := Marking(rest[1..])])
  }

  // wait: the entry lock is given up while asleep; waking may be spurious
  predicate CanBeginWait(s: State, c: Call, e: EntryId) {
    c !in s.pcs && Unlocked(s, e) && s.entries[e].future == Live
  }

  function DoBeginWait(s: State, c: Call, e: EntryId): State
    requires CanBeginWait(s, c, e)
  {
    var entry := s.entries[e];
    if entry.state.Pending? then
      s.(pcs := s.pcs[c := Waiting(e)], entries := s.entries[e := entry.(sleepers := entry.sleepers + {c})])
    else s
  }

  predicate CanSpurious(s: State, c: Call) {
    c in s.pcs && s.pcs[c].Waiting? && s.pcs[c].e in s.entries && c in s.entries[s.pcs[c].e].sleepers
  }

  function DoSpurious(s: State, c: Call): State
    requires CanSpurious(s, c)
  {
    var entry := s.entries[s.pcs[c].e];
    s.(entries := s.entries[s.pcs[c].e := entry.(sleepers := entry.sleepers - {c})])
  }

  predicate CanRecheck(s: State, c: Call) {
    c in s.pcs && s.pcs[c].Waiting? && Unlocked(s, s.pcs[c].e) && c !in s.entries[s.pcs[c].e].sleepers
  }

  function DoRecheck(s: State, c: Call): State
    requires CanRecheck(s, c)
  {
    var entry := s.entries[s.pcs[c].e];
    if entry.state.Pending? then
      s.(entries := s.entries[s.pcs[c].e := entry.(sleepers := entry.sleepers + {c})])
    else s.(pcs := s.pcs - {c})
  }

  predicate CanRelease(s: State) {
    s.owned && forall c :: c in s.pcs ==> !s.pcs[c].Pairing? && !s.pcs[c].Closing? && !s.pcs[c].Marking?
  }

  predicate Enabled(s: State, step: Step) {
    match step
    case BeginPair(c) => CanLockFor(s, c)
    case Pair(c, e) => CanPair(s, c, e)
    case BeginComplete(c, e, _) => CanBeginComplete(s, c, e)
    case Decide(c) => CanDecide(s, c)
    case Win(c, e, dropping) => CanWin(s, c, e, dropping)
    case Lose(e, dropping) => CanLose(s, e, dropping)
    case Remove(c) => CanRemove(s, c)
    case LockTable(c) => CanLockTable(s, c)
    case BeginClose(c) => CanLockFor(s, c)
    case Drain(c, order) => CanDrain(s, c, order)
    case Mark(c) => CanMark(s, c)
    case BeginWait(c, e) => CanBeginWait(s, c, e)
    case Spurious(c) => CanSpurious(s, c)
    case Recheck(c) => CanRecheck(s, c)
    case Release => CanRelease(s)
  }

  function Do(s: State, step: Step): State
    requires Enabled(s, step)
  {
    match step
    case BeginPair(c) => DoLockFor(s, c, Pairing)
    case Pair(c, e) => DoPair(s, c, e)
    case BeginComplete(c, e, r) => DoBeginComplete(s, c, e, r)
    case Decide(c) => DoDecide(s, c)
    case Win(c, e, dropping) => DoWin(s, c, e, dropping)
    case Lose(e, dropping) => DoLose(s, e, dropping)
    case Remove(c) => DoRemove(s, c)
    case LockTable(c) => DoLockTable(s, c)
    case BeginClose(c) => DoLockFor(s, c, Closing)
    case Drain(c, order) => DoDrain(s, c, order)
    case Mark(c) => DoMark(s, c)
    case BeginWait(c, e) => DoBeginWait(s, c, e)
    case Spurious(c) => DoSpurious(s, c)
    case Recheck(c) => DoRecheck(s, c)
    case Release => s.(owned := false)
  }

  function Run(s: State, steps: seq<Step>): Option<State>
    decreases |steps|
  {
    if steps == [] then Some(s)
    else if Enabled(s, steps[0]) then Run(Do(s, steps[0]), steps[1..])
    else None
  }

  // ---------------------------------------------------------------- the invariant

  ghost predicate Ids(s: State) {
    && (forall id :: id in s.table.live ==> s.table.live[id] in s.entries && s.entries[s.table.live[id]].id == id)
    && (s.table.closed ==> s.table.live == map[])
  }

  predicate HoldsTable(p: Pc) { p.Pairing? || p.Deciding? || p.Removing? || p.Closing? }

  predicate HoldsEntry(p: Pc, e: EntryId) { (p.Upgraded? || p.Deciding?) && p.e == e }

  /** Whoever is inside a critical section is named by its lock... */
  ghost predicate Locks(s: State) {
    && (forall c :: c in s.pcs && HoldsTable(s.pcs[c]) ==> s.tableLock == Some(c))
    && (forall c :: c in s.pcs && (s.pcs[c].Upgraded? || s.pcs[c].Deciding?) ==>
          s.pcs[c].e in s.entries && s.entries[s.pcs[c].e].lock == Some(c))
  }

  /** ...and whoever a lock names is inside. */
  ghost predicate Holders(s: State) {
    && (s.tableLock.Some? ==> s.tableLock.value in s.pcs && HoldsTable(s.pcs[s.tableLock.value]))
    && (forall e :: e in s.entries && s.entries[e].lock.Some? ==>
          s.entries[e].lock.value in s.pcs && HoldsEntry(s.pcs[s.entries[e].lock.value], e))
  }

  /** What each call relies on. */
  ghost predicate Relies(s: State, p: Pc) {
    match p
    case Upgraded(e, _) => e in s.entries && s.entries[e].state.Pending?
    case Deciding(e, _) => e in s.entries && s.entries[e].state.Pending?
    case Marked(e, _) => e in s.entries && s.entries[e].state.Cancelled?
    case Removing(e, _) => e in s.entries && s.entries[e].state.Cancelled?
    case Marking(rest) => s.owned && s.table.closed && forall e :: e in rest ==> e in s.entries
    case Waiting(e) => e in s.entries
    case _ => s.owned
  }

  ghost predicate Calls(s: State) { forall c :: c in s.pcs ==> Relies(s, s.pcs[c]) }

  predicate OnceTerminal(entry: Entry) {
    && (entry.state.Pending? ==> entry.completions == 0 && entry.cancellations == 0 && entry.future == Live)
    && (entry.state.Complete? ==> entry.completions == 1 && entry.cancellations == 0)
    && (entry.state.Cancelled? ==> entry.completions == 0 && entry.cancellations <= 1)
    && (entry.sleepers != {} ==> entry.state.Pending?)
  }

  ghost predicate Outcomes(s: State) { forall e :: e in s.entries ==> OnceTerminal(s.entries[e]) }

  ghost predicate BeingMarked(s: State, e: EntryId) {
    e in s.drainers && s.drainers[e] in s.pcs && s.pcs[s.drainers[e]].Marking? && e in s.pcs[s.drainers[e]].rest
  }

  ghost predicate BeingRemoved(s: State, e: EntryId) {
    && e in s.cancellers && s.cancellers[e] in s.pcs
    && (s.pcs[s.cancellers[e]].Marked? || s.pcs[s.cancellers[e]].Removing?) && s.pcs[s.cancellers[e]].e == e
  }

  /** A pending entry off the table is on the list of the close that drained it. */
  ghost predicate Orphans(s: State) {
    forall e :: e in s.entries && s.entries[e].state.Pending? && !Registered(s, e) ==> BeingMarked(s, e)
  }

  /** A terminal entry still on the table is being removed by the cancel that won it. */
  ghost predicate Leftovers(s: State) {
    forall e :: Registered(s, e) && !s.entries[e].state.Pending? ==> BeingRemoved(s, e)
  }

  ghost predicate Inv(s: State) {
    && Ids(s) && Locks(s) && Holders(s) && Calls(s) && Outcomes(s) && Orphans(s) && Leftovers(s)
    && |s.table.live| <= MAX_PENDING_CALLBACKS && !s.upgradeFailed
  }

  predicate SameOutcome(a: Entry, b: Entry) {
    a.id == b.id && a.state == b.state && a.completions == b.completions && a.cancellations == b.cancellations
  }

  /** The call that takes a step, if a call does. */
  function Caller(step: Step): Option<Call> {
    match step
    case Lose(_, _) => None
    case Release => None
    case _ => Some(step.c)
  }

  ghost predicate OnlyMoves(before: map<Call, Pc>, after: map<Call, Pc>, c: Call) {
    forall d :: d != c ==> (d in before <==> d in after) && (d in before ==> before[d] == after[d])
  }

  /** What never goes back: terminal entries keep their outcome, and a closed registry stays closed and
      gains no entry. Only a close in progress closes it, and the table never outgrows its bound. */
  ghost predicate Evolves(s: State, t: State) {
    && (forall e :: e in s.entries ==>
          && e in t.entries
          && (s.entries[e].state.Pending? || SameOutcome(s.entries[e], t.entries[e])))
    && (s.table.closed ==> t.table.closed && t.entries.Keys == s.entries.Keys)
    && (t.table.closed ==> s.table.closed || exists c :: c in s.pcs && s.pcs[c].Closing?)
    && (|s.table.live| <= MAX_PENDING_CALLBACKS ==> |t.table.live| <= MAX_PENDING_CALLBACKS)
    && t.upgradeFailed == s.upgradeFailed
  }

  lemma PendingMeansAlive(s: State, e: EntryId)
    requires Outcomes(s) && e in s.entries && s.entries[e].state.Pending?
    ensures Alive(s)
  {
  }

  /** What a close drains is exactly what is registered. */
  lemma DrainedAreLive(s: State, order: seq<EntryId>)
    requires Ids(s) && (set e | e in order) == s.table.live.Values
    ensures forall e :: e in order <==> Registered(s, e)
  {
    forall e ensures e in order <==> Registered(s, e) {
      if e in order {
        assert e in s.table.live.Values;
        var id :| id in s.table.live && s.table.live[id] == e;
      }
      assert e in order <==> e in (set x | x in order);
      if Registered(s, e) {
        assert s.table.live[s.entries[e].id] in s.table.live.Values;
      }
    }
  }

  /** `pair` refuses only when closed or full, and never reuses a live identifier. */
  lemma PairEffect(t: Table, e: EntryId)
    ensures match PairRegion(t, e)
            case None => t.closed || |t.live| >= MAX_PENDING_CALLBACKS
            case Some((u, id)) =>
              && !t.closed && |t.live| < MAX_PENDING_CALLBACKS
              && id != 0 && id !in t.live && u.live == t.live[id := e] && u.closed == t.closed
  {
    hide VacantId;
    if |t.live| < MAX_PENDING_CALLBACKS {
      AlwaysVacant(t.nextId, t.live);
    }
  }

  lemma RemovalShrinks(t: Table, id: u64, e: EntryId)
    ensures |RemoveRegion(t, id, e).live| <= |t.live| && RemoveRegion(t, id, e).closed == t.closed
  {
    assert (t.live - {id}).Keys == t.live.Keys - {id};
    SubsetSize(t.live.Keys - {id}, t.live.Keys);
  }

  lemma LockForEvolves(s: State, c: Call, p: Pc)
    requires CanLockFor(s, c)
    ensures Evolves(s, DoLockFor(s, c, p)) && OnlyMoves(s.pcs, DoLockFor(s, c, p).pcs, c)
  {
    hide CanLockFor;
  }

  lemma PairEvolves(s: State, c: Call, e: EntryId)
    requires CanPair(s, c, e)
    ensures Evolves(s, DoPair(s, c, e)) && OnlyMoves(s.pcs, DoPair(s, c, e).pcs, c)
  {
    hide PairRegion;
    PairEffect(s.table, e);
  }

  lemma BeginCompleteEvolves(s: State, c: Call, e: EntryId, r: Outcome)
    requires Outcomes(s) && CanBeginComplete(s, c, e)
    ensures Evolves(s, DoBeginComplete(s, c, e, r)) && OnlyMoves(s.pcs, DoBeginComplete(s, c, e, r).pcs, c)
  {
    hide Alive, PairRegion;
    if s.entries[e].state.Pending? {
      PendingMeansAlive(s, e);
    }
  }

  lemma DecideEvolves(s: State, c: Call)
    requires Calls(s) && CanDecide(s, c)
    ensures Evolves(s, DoDecide(s, c)) && OnlyMoves(s.pcs, DoDecide(s, c).pcs, c)
  {
    hide Alive, Registered, RemoveRegion;
    assert Relies(s, s.pcs[c]);
    RemovalShrinks(s.table, s.entries[s.pcs[c].e].id, s.pcs[c].e);
  }

  lemma WinEvolves(s: State, c: Call, e: EntryId, dropping: bool)
    requires CanWin(s, c, e, dropping)
    ensures Evolves(s, DoWin(s, c, e, dropping)) && OnlyMoves(s.pcs, DoWin(s, c, e, dropping).pcs, c)
  {
    hide Unborrowed;
  }

  lemma LoseEvolves(s: State, e: EntryId, dropping: bool)
    requires CanLose(s, e, dropping)
    ensures Evolves(s, DoLose(s, e, dropping)) && DoLose(s, e, dropping).pcs == s.pcs
  {
    hide Unborrowed;
  }

  lemma RemoveEvolves(s: State, c: Call)
    requires CanRemove(s, c)
    ensures Evolves(s, DoRemove(s, c)) && OnlyMoves(s.pcs, DoRemove(s, c).pcs, c)
  {
    hide RemoveRegion;
    RemovalShrinks(s.table, s.entries[s.pcs[c].e].id, s.pcs[c].e);
  }

  lemma LockTableEvolves(s: State, c: Call)
    requires CanLockTable(s, c)
    ensures Evolves(s, DoLockTable(s, c)) && OnlyMoves(s.pcs, DoLockTable(s, c).pcs, c)
  {
  }

  lemma DrainEvolves(s: State, c: Call, order: seq<EntryId>)
    requires CanDrain(s, c, order)
    ensures Evolves(s, DoDrain(s, c, order)) && OnlyMoves(s.pcs, DoDrain(s, c, order).pcs, c)
  {
  }

  lemma MarkEvolves(s: State, c: Call)
    requires CanMark(s, c)
    ensures Evolves(s, DoMark(s, c)) && OnlyMoves(s.pcs, DoMark(s, c).pcs, c)
  {
  }

  lemma BeginWaitEvolves(s: State, c: Call, e: EntryId)
    requires CanBeginWait(s, c, e)
    ensures Evolves(s, DoBeginWait(s, c, e)) && OnlyMoves(s.pcs, DoBeginWait(s, c, e).pcs, c)
  {
  }

  lemma SpuriousEvolves(s: State, c: Call)
    requires CanSpurious(s, c)
    ensures Evolves(s, DoSpurious(s, c)) && OnlyMoves(s.pcs, DoSpurious(s, c).pcs, c)
  {
  }

  lemma RecheckEvolves(s: State, c: Call)
    requires CanRecheck(s, c)
    ensures Evolves(s, DoRecheck(s, c)) && OnlyMoves(s.pcs, DoRecheck(s, c).pcs, c)
  {
  }

  lemma StepEvolves(s: State, step: Step)
    requires Calls(s) && Outcomes(s) && Enabled(s, step)
    ensures Evolves(s, Do(s, step))
    ensures if Caller(step).Some? then OnlyMoves(s.pcs, Do(s, step).pcs, Caller(step).value)
            else Do(s, step).pcs == s.pcs
  {
    hide Calls, Outcomes, Evolves;
    hide CanLockFor, CanPair, CanBeginComplete, CanDecide, CanWin, CanLose, CanRemove, CanLockTable;
    hide CanDrain, CanMark, CanBeginWait, CanSpurious, CanRecheck;
    hide DoLockFor, DoPair, DoBeginComplete, DoDecide, DoWin, DoLose, DoRemove, DoLockTable;
    hide DoDrain, DoMark, DoBeginWait, DoSpurious, DoRecheck;
    match step
    case BeginPair(c) => LockForEvolves(s, c, Pairing);
    case BeginClose(c) => LockForEvolves(s, c, Closing);
    case Pair(c, e) => PairEvolves(s, c, e);
    case BeginComplete(c, e, r) => BeginCompleteEvolves(s, c, e, r);
    case Decide(c) => DecideEvolves(s, c);
    case Win(c, e, dropping) => WinEvolves(s, c, e, dropping);
    case Lose(e, dropping) => LoseEvolves(s, e, dropping);
    case Remove(c) => RemoveEvolves(s, c);
    case LockTable(c) => LockTableEvolves(s, c);
    case Drain(c, order) => DrainEvolves(s, c, order);
    case Mark(c) => MarkEvolves(s, c);
    case BeginWait(c, e) => BeginWaitEvolves(s, c, e);
    case Spurious(c) => SpuriousEvolves(s, c);
    case Recheck(c) => RecheckEvolves(s, c);
    case Release => ReleaseEvolves(s);
  }

  lemma ReleaseEvolves(s: State)
    ensures Evolves(s, s.(owned := false))
  {
  }

  lemma LockForKeepsAll(s: State, c: Call, p: Pc)
    requires Ids(s) && Locks(s) && Holders(s) && Calls(s) && Outcomes(s) && Orphans(s) && Leftovers(s)
    requires (p.Pairing? || p.Closing?) && CanLockFor(s, c)
    ensures Ids(DoLockFor(s, c, p)) && Locks(DoLockFor(s, c, p)) && Holders(DoLockFor(s, c, p))
    ensures Calls(DoLockFor(s, c, p)) && Outcomes(DoLockFor(s, c, p)) && Orphans(DoLockFor(s, c, p))
    ensures Leftovers(DoLockFor(s, c, p))
  {
    hide Alive, PairRegion;
  }

  lemma PairKeepsLocks(s: State, c: Call, e: EntryId)
    requires Ids(s) && Locks(s) && Holders(s) && CanPair(s, c, e)
    ensures Ids(DoPair(s, c, e)) && Locks(DoPair(s, c, e)) && Holders(DoPair(s, c, e))
  {
    hide Alive, PairRegion;
    PairEffect(s.table, e);
  }

  lemma PairKeepsCalls(s: State, c: Call, e: EntryId)
    requires Calls(s) && Outcomes(s) && CanPair(s, c, e)
    ensures Calls(DoPair(s, c, e)) && Outcomes(DoPair(s, c, e))
  {
    hide Alive, PairRegion, Registered, Unborrowed;
    PairEffect(s.table, e);
  }

  lemma PairKeepsMembership(s: State, c: Call, e: EntryId)
    requires Orphans(s) && Leftovers(s) && Ids(s) && CanPair(s, c, e)
    ensures Orphans(DoPair(s, c, e)) && Leftovers(DoPair(s, c, e))
  {
    hide Alive, PairRegion, Unborrowed;
    PairEffect(s.table, e);
  }

  lemma BeginCompleteKeepsLocks(s: State, c: Call, e: EntryId, r: Outcome)
    requires Ids(s) && Locks(s) && CanBeginComplete(s, c, e)
    ensures Ids(DoBeginComplete(s, c, e, r)) && Locks(DoBeginComplete(s, c, e, r))
  {
    hide Alive, PairRegion;
  }

  lemma BeginCompleteKeepsHolders(s: State, c: Call, e: EntryId, r: Outcome)
    requires Holders(s) && Locks(s) && CanBeginComplete(s, c, e)
    ensures Holders(DoBeginComplete(s, c, e, r))
  {
    hide Alive, DrainRegion, PairRegion, Registered, RemoveRegion, Unborrowed;
  }

  lemma BeginCompleteKeepsCalls(s: State, c: Call, e: EntryId, r: Outcome)
    requires Calls(s) && Outcomes(s) && CanBeginComplete(s, c, e)
    ensures Calls(DoBeginComplete(s, c, e, r)) && Outcomes(DoBeginComplete(s, c, e, r))
  {
    hide Alive, PairRegion, Registered, Unborrowed;
    if s.entries[e].state.Pending? {
      PendingMeansAlive(s, e);
    }
  }

  lemma BeginCompleteKeepsMembership(s: State, c: Call, e: EntryId, r: Outcome)
    requires Orphans(s) && Leftovers(s) && Outcomes(s) && CanBeginComplete(s, c, e)
    ensures Orphans(DoBeginComplete(s, c, e, r)) && Leftovers(DoBeginComplete(s, c, e, r))
  {
    hide Alive, PairRegion, Unborrowed;
    if s.entries[e].state.Pending? {
      PendingMeansAlive(s, e);
    }
  }

  lemma DecideKeepsLocks(s: State, c: Call)
    requires Ids(s) && Locks(s) && CanDecide(s, c)
    ensures Ids(DoDecide(s, c)) && Locks(DoDecide(s, c))
  {
    hide Alive, PairRegion;
  }

  lemma DecideKeepsHolders(s: State, c: Call)
    requires Holders(s) && Locks(s) && CanDecide(s, c)
    ensures Holders(DoDecide(s, c))
  {
    hide Alive, DrainRegion, PairRegion, Registered, RemoveRegion, Unborrowed;
  }

  lemma DecideKeepsCalls(s: State, c: Call)
    requires Calls(s) && Outcomes(s) && Locks(s) && CanDecide(s, c)
    ensures Calls(DoDecide(s, c)) && Outcomes(DoDecide(s, c))
  {
    hide Alive, PairRegion, Registered, Unborrowed;
  }

  lemma DecideKeepsMembership(s: State, c: Call)
    requires Orphans(s) && Leftovers(s) && Ids(s) && CanDecide(s, c)
    ensures Orphans(DoDecide(s, c)) && Leftovers(DoDecide(s, c))
  {
    hide Alive, PairRegion, Unborrowed;
  }

  lemma WinKeepsLocks(s: State, c: Call, e: EntryId, dropping: bool)
    requires Ids(s) && Locks(s) && CanWin(s, c, e, dropping)
    ensures Ids(DoWin(s, c, e, dropping)) && Locks(DoWin(s, c, e, dropping))
  {
    hide Alive, PairRegion;
  }

  lemma WinKeepsHolders(s: State, c: Call, e: EntryId, dropping: bool)
    requires Holders(s) && CanWin(s, c, e, dropping)
    ensures Holders(DoWin(s, c, e, dropping))
  {
    hide Alive, DrainRegion, PairRegion, Registered, RemoveRegion, Unborrowed;
  }

  lemma WinKeepsCalls(s: State, c: Call, e: EntryId, dropping: bool)
    requires Calls(s) && Outcomes(s) && Locks(s) && CanWin(s, c, e, dropping)
    ensures Calls(DoWin(s, c, e, dropping)) && Outcomes(DoWin(s, c, e, dropping))
  {
    hide Alive, PairRegion, Registered, Unborrowed;
  }

  lemma WinKeepsMembership(s: State, c: Call, e: EntryId, dropping: bool)
    requires Orphans(s) && Leftovers(s) && CanWin(s, c, e, dropping)
    ensures Orphans(DoWin(s, c, e, dropping)) && Leftovers(DoWin(s, c, e, dropping))
  {
    hide Alive, PairRegion, Unborrowed;
  }

  lemma LoseKeepsLocks(s: State, e: EntryId, dropping: bool)
    requires Ids(s) && Locks(s) && Holders(s) && CanLose(s, e, dropping)
    ensures Ids(DoLose(s, e, dropping)) && Locks(DoLose(s, e, dropping)) && Holders(DoLose(s, e, dropping))
  {
    hide Alive, PairRegion;
  }

  lemma LoseKeepsCalls(s: State, e: EntryId, dropping: bool)
    requires Calls(s) && Outcomes(s) && CanLose(s, e, dropping)
    ensures Calls(DoLose(s, e, dropping)) && Outcomes(DoLose(s, e, dropping))
  {
    hide Alive, PairRegion, Registered, Unborrowed;
  }

  lemma LoseKeepsMembership(s: State, e: EntryId, dropping: bool)
    requires Orphans(s) && Leftovers(s) && CanLose(s, e, dropping)
    ensures Orphans(DoLose(s, e, dropping)) && Leftovers(DoLose(s, e, dropping))
  {
    hide Alive, PairRegion, Unborrowed;
  }

  lemma RemoveKeepsLocks(s: State, c: Call)
    requires Ids(s) && Locks(s) && Holders(s) && CanRemove(s, c)
    ensures Ids(DoRemove(s, c)) && Locks(DoRemove(s, c)) && Holders(DoRemove(s, c))
  {
    hide Alive, PairRegion;
  }

  lemma RemoveKeepsCalls(s: State, c: Call)
    requires Calls(s) && Outcomes(s) && CanRemove(s, c)
    ensures Calls(DoRemove(s, c)) && Outcomes(DoRemove(s, c))
  {
    hide Alive, PairRegion, Registered, Unborrowed;
  }

  lemma RemoveKeepsMembership(s: State, c: Call)
    requires Orphans(s) && Leftovers(s) && Calls(s) && CanRemove(s, c)
    ensures Orphans(DoRemove(s, c)) && Leftovers(DoRemove(s, c))
  {
    hide Alive, PairRegion, Unborrowed;
  }

  lemma LockTableKeepsLocks(s: State, c: Call)
    requires Ids(s) && Locks(s) && CanLockTable(s, c)
    ensures Ids(DoLockTable(s, c)) && Locks(DoLockTable(s, c))
  {
    hide Alive, PairRegion;
  }

  lemma LockTableKeepsHolders(s: State, c: Call)
    requires Holders(s) && Locks(s) && CanLockTable(s, c)
    ensures Holders(DoLockTable(s, c))
  {
    hide Alive, DrainRegion, PairRegion, Registered, RemoveRegion, Unborrowed;
  }

  lemma LockTableKeepsCalls(s: State, c: Call)
    requires Calls(s) && Outcomes(s) && CanLockTable(s, c)
    ensures Calls(DoLockTable(s, c)) && Outcomes(DoLockTable(s, c))
  {
    hide Alive, PairRegion, Registered, Unborrowed;
  }

  lemma LockTableKeepsMembership(s: State, c: Call)
    requires Orphans(s) && Leftovers(s) && CanLockTable(s, c)
    ensures Orphans(DoLockTable(s, c)) && Leftovers(DoLockTable(s, c))
  {
    hide Alive, PairRegion, Unborrowed;
  }

  lemma DrainKeepsLocks(s: State, c: Call, order: seq<EntryId>)
    requires Ids(s) && Locks(s) && Holders(s) && CanDrain(s, c, order)
    ensures Ids(DoDrain(s, c, order)) && Locks(DoDrain(s, c, order)) && Holders(DoDrain(s, c, order))
  {
    hide Alive, PairRegion;
  }

  lemma DrainKeepsCalls(s: State, c: Call, order: seq<EntryId>)
    requires Calls(s) && Outcomes(s) && Ids(s) && CanDrain(s, c, order)
    ensures Calls(DoDrain(s, c, order)) && Outcomes(DoDrain(s, c, order))
  {
    hide Alive, PairRegion, Unborrowed;
    DrainedAreLive(s, order);
  }

  lemma DrainKeepsMembership(s: State, c: Call, order: seq<EntryId>)
    requires Orphans(s) && Leftovers(s) && Ids(s) && CanDrain(s, c, order)
    ensures Orphans(DoDrain(s, c, order)) && Leftovers(DoDrain(s, c, order))
  {
    hide Alive, PairRegion, Unborrowed;
    DrainedAreLive(s, order);
  }

  lemma MarkKeepsLocks(s: State, c: Call)
    requires Ids(s) && Locks(s) && CanMark(s, c)
    ensures Ids(DoMark(s, c)) && Locks(DoMark(s, c))
  {
    hide Alive, PairRegion;
  }

  lemma MarkKeepsHolders(s: State, c: Call)
    requires Holders(s) && CanMark(s, c)
    ensures Holders(DoMark(s, c))
  {
    hide Alive, DrainRegion, PairRegion, Registered, RemoveRegion, Unborrowed;
  }

  lemma MarkKeepsCalls(s: State, c: Call)
    requires Calls(s) && Outcomes(s) && Locks(s) && CanMark(s, c)
    ensures Calls(DoMark(s, c)) && Outcomes(DoMark(s, c))
  {
    hide Alive, PairRegion, Registered, Unborrowed;
  }

  lemma MarkKeepsMembership(s: State, c: Call)
    requires Orphans(s) && Leftovers(s) && Ids(s) && Calls(s) && CanMark(s, c)
    ensures Orphans(DoMark(s, c)) && Leftovers(DoMark(s, c))
  {
    hide Alive, PairRegion, Unborrowed;
  }

  lemma BeginWaitKeepsLocks(s: State, c: Call, e: EntryId)
    requires Ids(s) && Locks(s) && CanBeginWait(s, c, e)
    ensures Ids(DoBeginWait(s, c, e)) && Locks(DoBeginWait(s, c, e))
  {
    hide Alive, PairRegion;
  }

  lemma BeginWaitKeepsHolders(s: State, c: Call, e: EntryId)
    requires Holders(s) && CanBeginWait(s, c, e)
    ensures Holders(DoBeginWait(s, c, e))
  {
    hide Alive, DrainRegion, PairRegion, Registered, RemoveRegion, Unborrowed;
  }

  lemma BeginWaitKeepsCalls(s: State, c: Call, e: EntryId)
    requires Calls(s) && Outcomes(s) && CanBeginWait(s, c, e)
    ensures Calls(DoBeginWait(s, c, e)) && Outcomes(DoBeginWait(s, c, e))
  {
    hide Alive, PairRegion, Registered, Unborrowed;
  }

  lemma BeginWaitKeepsMembership(s: State, c: Call, e: EntryId)
    requires Orphans(s) && Leftovers(s) && CanBeginWait(s, c, e)
    ensures Orphans(DoBeginWait(s, c, e)) && Leftovers(DoBeginWait(s, c, e))
  {
    hide Alive, PairRegion, Unborrowed;
  }

  lemma SpuriousKeepsLocks(s: State, c: Call)
    requires Ids(s) && Locks(s) && CanSpurious(s, c)
    ensures Ids(DoSpurious(s, c)) && Locks(DoSpurious(s, c))
  {
    hide Alive, PairRegion;
  }

  lemma SpuriousKeepsHolders(s: State, c: Call)
    requires Holders(s) && CanSpurious(s, c)
    ensures Holders(DoSpurious(s, c))
  {
    hide Alive, DrainRegion, PairRegion, Registered, RemoveRegion, Unborrowed;
  }

  lemma SpuriousKeepsCalls(s: State, c: Call)
    requires Calls(s) && Outcomes(s) && CanSpurious(s, c)
    ensures Calls(DoSpurious(s, c)) && Outcomes(DoSpurious(s, c))
  {
    hide Alive, PairRegion, Registered, Unborrowed;
  }

  lemma SpuriousKeepsMembership(s: State, c: Call)
    requires Orphans(s) && Leftovers(s) && CanSpurious(s, c)
    ensures Orphans(DoSpurious(s, c)) && Leftovers(DoSpurious(s, c))
  {
    hide Alive, PairRegion, Unborrowed;
  }

  lemma RecheckKeepsLocks(s: State, c: Call)
    requires Ids(s) && Locks(s) && CanRecheck(s, c)
    ensures Ids(DoRecheck(s, c)) && Locks(DoRecheck(s, c))
  {
    hide Alive, PairRegion;
  }

  lemma RecheckKeepsHolders(s: State, c: Call)
    requires Holders(s) && CanRecheck(s, c)
    ensures Holders(DoRecheck(s, c))
  {
    hide Alive, DrainRegion, PairRegion, Registered, RemoveRegion, Unborrowed;
  }

  lemma RecheckKeepsCalls(s: State, c: Call)
    requires Calls(s) && Outcomes(s) && CanRecheck(s, c)
    ensures Calls(DoRecheck(s, c)) && Outcomes(DoRecheck(s, c))
  {
    hide Alive, PairRegion, Registered, Unborrowed;
  }

  lemma RecheckKeepsMembership(s: State, c: Call)
    requires Orphans(s) && Leftovers(s) && CanRecheck(s, c)
    ensures Orphans(DoRecheck(s, c)) && Leftovers(DoRecheck(s, c))
  {
    hide Alive, PairRegion, Unborrowed;
  }

  lemma ReleaseKeepsAll(s: State)
    requires Inv(s) && CanRelease(s)
    ensures Inv(s.(owned := false))
  {
    hide Unborrowed, PairRegion;
  }

  lemma InvIsKept(s: State, step: Step)
    requires Inv(s) && Enabled(s, step)
    ensures Inv(Do(s, step))
  {
    StepEvolves(s, step);
    hide Evolves, Alive, Ids, Locks, Holders, Calls, Outcomes, Orphans, Leftovers;
    hide CanLockFor, CanPair, CanBeginComplete, CanDecide, CanWin, CanLose, CanRemove, CanLockTable;
    hide CanDrain, CanMark, CanBeginWait, CanSpurious, CanRecheck, CanRelease;
    hide DoLockFor, DoPair, DoBeginComplete, DoDecide, DoWin, DoLose, DoRemove, DoLockTable;
    hide DoDrain, DoMark, DoBeginWait, DoSpurious, DoRecheck;
    match step
    case BeginPair(c) => LockForKeepsAll(s, c, Pairing);
    case BeginClose(c) => LockForKeepsAll(s, c, Closing);
    case Pair(c, e) =>
      PairKeepsLocks(s, c, e);
      PairKeepsCalls(s, c, e);
      PairKeepsMembership(s, c, e);
    case BeginComplete(c, e, r) =>
      BeginCompleteKeepsLocks(s, c, e, r);
      BeginCompleteKeepsHolders(s, c, e, r);
      BeginCompleteKeepsCalls(s, c, e, r);
      BeginCompleteKeepsMembership(s, c, e, r);
    case Decide(c) =>
      DecideKeepsLocks(s, c);
      DecideKeepsHolders(s, c);
      DecideKeepsCalls(s, c);
      DecideKeepsMembership(s, c);
    case Win(c, e, dropping) =>
      WinKeepsLocks(s, c, e, dropping);
      WinKeepsHolders(s, c, e, dropping);
      WinKeepsCalls(s, c, e, dropping);
      WinKeepsMembership(s, c, e, dropping);
    case Lose(e, dropping) =>
      LoseKeepsLocks(s, e, dropping);
      LoseKeepsCalls(s, e, dropping);
      LoseKeepsMembership(s, e, dropping);
    case Remove(c) =>
      RemoveKeepsLocks(s, c);
      RemoveKeepsCalls(s, c);
      RemoveKeepsMembership(s, c);
    case LockTable(c) =>
      LockTableKeepsLocks(s, c);
      LockTableKeepsHolders(s, c);
      LockTableKeepsCalls(s, c);
      LockTableKeepsMembership(s, c);
    case Drain(c, order) =>
      DrainKeepsLocks(s, c, order);
      DrainKeepsCalls(s, c, order);
      DrainKeepsMembership(s, c, order);
    case Mark(c) =>
      MarkKeepsLocks(s, c);
      MarkKeepsHolders(s, c);
      MarkKeepsCalls(s, c);
      MarkKeepsMembership(s, c);
    case BeginWait(c, e) =>
      BeginWaitKeepsLocks(s, c, e);
      BeginWaitKeepsHolders(s, c, e);
      BeginWaitKeepsCalls(s, c, e);
      BeginWaitKeepsMembership(s, c, e);
    case Spurious(c) =>
      SpuriousKeepsLocks(s, c);
      SpuriousKeepsHolders(s, c);
      SpuriousKeepsCalls(s, c);
      SpuriousKeepsMembership(s, c);
    case Recheck(c) =>
      RecheckKeepsLocks(s, c);
      RecheckKeepsHolders(s, c);
      RecheckKeepsCalls(s, c);
      RecheckKeepsMembership(s, c);
    case Release => ReleaseKeepsAll(s);
  }

  lemma {:induction false} InvOfRuns(s: State, steps: seq<Step>)
    requires Inv(s) && Run(s, steps).Some?
    ensures Inv(Run(s, steps).value)
    decreases |steps|
  {
    hide Inv, Enabled, Do;
    if steps != [] {
      InvIsKept(s, steps[0]);
      InvOfRuns(Do(s, steps[0]), steps[1..]);
    }
  }

  lemma InitialInv()
    ensures Inv(INITIAL)
  {
  }

  lemma Reachable(steps: seq<Step>)
    requires Run(INITIAL, steps).Some?
    ensures Inv(Run(INITIAL, steps).value)
  {
    hide Inv, Enabled, Do;
    InitialInv();
    InvOfRuns(INITIAL, steps);
  }

  // ---------------------------------------------------------------- what holds of every run

  lemma RunOfThree(s: State, a: Step, b: Step, c: Step)
    requires Enabled(s, a) && Enabled(Do(s, a), b) && Enabled(Do(Do(s, a), b), c)
    ensures Run(s, [a, b, c]) == Some(Do(Do(Do(s, a), b), c))
  {
    hide Enabled, Do;
    assert [a, b, c][1..] == [b, c] && [b, c][1..] == [c] && [c][1..] == [];
    assert Run(Do(s, a), [b, c]) == Run(Do(Do(s, a), b), [c]);
  }

  function Inside(s: State, c: Call, e: EntryId, r: Outcome): State
    requires e in s.entries
  {
    s.(tableLock := Some(c), pcs := s.pcs[c := Deciding(e, r)],
       entries := s.entries[e := s.entries[e].(lock := Some(c))])
  }

  lemma CompletionEnters(s: State, c: Call, e: EntryId, r: Outcome)
    requires Outcomes(s) && CanBeginComplete(s, c, e) && s.entries[e].state.Pending? && s.tableLock.None?
    ensures Enabled(Do(s, BeginComplete(c, e, r)), LockTable(c))
    ensures Do(Do(s, BeginComplete(c, e, r)), LockTable(c)) == Inside(s, c, e, r)
  {
    hide Alive;
    PendingMeansAlive(s, e);
    assert s.pcs[c := Upgraded(e, r)][c := Deciding(e, r)] == s.pcs[c := Deciding(e, r)];
  }

  /** Left alone, the three steps of a completion amount to the region the class performs. */
  lemma CompletionSteps(s: State, c: Call, e: EntryId, r: Outcome)
    requires Outcomes(s) && CanBeginComplete(s, c, e) && s.entries[e].state.Pending? && s.tableLock.None?
    ensures var run := Run(s, [BeginComplete(c, e, r), LockTable(c), Decide(c)]);
            && run.Some?
            && var (state, table, error) := CompleteRegion(Some(s.table), s.entries[e].id, e, Pending, r);
               && e in run.value.entries && run.value.entries[e].state == state && run.value.table == table.value
               && run.value.entries[e].completions == (if error.None? then 1 else 0)
               && run.value.tableLock.None? && run.value.entries[e].lock.None? && run.value.pcs == s.pcs
  {
    hide Alive, RemoveRegion, Run, DoBeginComplete, DoLockTable, CanLockTable, Unborrowed, PairRegion, DrainRegion;
    hide DoPair, DoWin, DoLose, DoRemove, DoDrain, DoMark, DoRecheck, CanPair, CanDrain, CanMark;
    CompletionEnters(s, c, e, r);
    RunOfThree(s, BeginComplete(c, e, r), LockTable(c), Decide(c));
    assert s.pcs[c := Deciding(e, r)] - {c} == s.pcs;
  }

  /** The winner of a cancel, or of a drop, on its way to the table. */
  lemma CancelEnters(s: State, c: Call, e: EntryId, dropping: bool)
    requires CanWin(s, c, e, dropping) && s.tableLock.None?
    ensures var t := Do(s, Win(c, e, dropping));
            && Enabled(t, LockTable(c))
            && Do(t, LockTable(c)) == t.(tableLock := Some(c), pcs := s.pcs[c := Removing(e, dropping)])
            && t.pcs == s.pcs[c := Marked(e, dropping)] && t.table == s.table
            && t.entries == s.entries[e := s.entries[e].(state := Cancelled, sleepers := {},
                                                         cancellations := s.entries[e].cancellations + 1,
                                                         future := if dropping then Dropping else Live)]
  {
    hide Alive, Unborrowed, PairRegion, RemoveRegion, DrainRegion;
    assert s.pcs[c := Marked(e, dropping)][c := Removing(e, dropping)] == s.pcs[c := Removing(e, dropping)];
  }

  /** Left alone, the three steps of a cancel that finds its entry pending cancel it, wake its sleepers, take it
      off the table if it is still the one listed, and touch nothing else. */
  lemma CancelSteps(s: State, c: Call, e: EntryId, dropping: bool)
    requires CanWin(s, c, e, dropping) && s.tableLock.None?
    ensures var run := Run(s, [Win(c, e, dropping), LockTable(c), Remove(c)]);
            && run.Some?
            && var t := run.value;
               && t.pcs == s.pcs && t.tableLock.None? && t.table.closed == s.table.closed
               && t.table.live == (if Registered(s, e) then s.table.live - {s.entries[e].id} else s.table.live)
               && t.entries == s.entries[e := s.entries[e].(state := Cancelled, sleepers := {},
                                                            cancellations := s.entries[e].cancellations + 1,
                                                            future := if dropping then Gone else Live)]
  {
    hide Alive, Run, DoWin, DoLockTable, CanLockTable, Unborrowed, PairRegion, DrainRegion;
    hide DoPair, DoLose, DoDrain, DoMark, DoRecheck, CanPair, CanDrain, CanMark, DoDecide, DoBeginComplete;
    CancelEnters(s, c, e, dropping);
    RunOfThree(s, Win(c, e, dropping), LockTable(c), Remove(c));
    assert s.pcs[c := Removing(e, dropping)] - {c} == s.pcs;
  }

  /** At most one of "complete returned Ok" and "cancel returned true", each at most once and each matched
      by the state; nobody sleeps on a terminal entry; a pending entry off the table is being marked by the
      close that drained it; the registry is never found gone under a pending entry; the table is bounded. */
  lemma OneOutcome(steps: seq<Step>)
    requires Run(INITIAL, steps).Some?
    ensures var s := Run(INITIAL, steps).value;
            && (forall e :: e in s.entries ==>
                  && s.entries[e].completions + s.entries[e].cancellations <= 1
                  && (s.entries[e].completions == 1 <==> s.entries[e].state.Complete?)
                  && (s.entries[e].cancellations == 1 ==> s.entries[e].state.Cancelled?)
                  && (s.entries[e].sleepers != {} ==> s.entries[e].state.Pending?)
                  && (s.entries[e].state.Pending? && !Registered(s, e) ==> BeingMarked(s, e)))
            && !s.upgradeFailed && |s.table.live| <= MAX_PENDING_CALLBACKS
  {
    hide Run, Enabled, Do, BeingMarked, Registered, Ids, Locks, Holders, Calls, Leftovers;
    Reachable(steps);
  }

  /** A pair never takes an identifier in use, and is refused exactly when the registry is closed or full. */
  lemma PairIsRefusedWhenClosedOrFull(steps: seq<Step>, c: Call, e: EntryId)
    requires Run(INITIAL, steps).Some? && CanPair(Run(INITIAL, steps).value, c, e)
    ensures var s := Run(INITIAL, steps).value;
            var t := DoPair(s, c, e);
            && (Registered(t, e) <==> !s.table.closed && |s.table.live| < MAX_PENDING_CALLBACKS)
            && (Registered(t, e) ==>
                t.entries[e].id != 0 && t.entries[e].id !in s.table.live && t.entries[e].state == Pending)
            && (!Registered(t, e) ==> t.entries == s.entries && t.table == s.table)
            && forall f :: Registered(s, f) ==> Registered(t, f)
  {
    hide Run, Enabled, Do, PairRegion, Orphans, Leftovers, Outcomes, Calls, Holders, Locks;
    var s := Run(INITIAL, steps).value;
    Reachable(steps);
    PairEffect(s.table, e);
  }

  /** Over all runs: a wait that gets the lock of its entry returns exactly when the entry has been decided, and
      then with that outcome; on a pending one it goes to sleep. */
  lemma WaitReturnsDecided(steps: seq<Step>, c: Call)
    requires Run(INITIAL, steps).Some? && Enabled(Run(INITIAL, steps).value, Recheck(c))
    ensures var s := Run(INITIAL, steps).value;
            var e := s.pcs[c].e;
            var t := Do(s, Recheck(c));
            && e in s.entries
            && match s.entries[e].state
               case Pending => t.pcs == s.pcs && c in t.entries[e].sleepers && Poll(s.entries[e].state) == None
               case Complete(r) => t == s.(pcs := s.pcs - {c}) && Poll(s.entries[e].state) == Some(r)
               case Cancelled =>
                 && t == s.(pcs := s.pcs - {c})
                 && Poll(s.entries[e].state) == Some(BridgeValue.Err(BridgeValue.Cancelled))
  {
    hide Run, PairRegion, RemoveRegion, DrainRegion, Alive, Unborrowed;
  }

  /** A terminal entry keeps its state, and its one outcome, in every continuation. */
  lemma {:induction false} TerminalForever(s: State, steps: seq<Step>, e: EntryId)
    requires Inv(s) && Terminal(s, e) && Run(s, steps).Some?
    ensures var t := Run(s, steps).value;
            e in t.entries && SameOutcome(s.entries[e], t.entries[e])
    decreases |steps|
  {
    hide Enabled, Do, Ids, Locks, Holders, Calls, Outcomes, Orphans, Leftovers;
    if steps != [] {
      InvIsKept(s, steps[0]);
      StepEvolves(s, steps[0]);
      TerminalForever(Do(s, steps[0]), steps[1..], e);
    }
  }

  /** Once `complete` has decided, every later poll and wait of that future gives the same answer: the
      completed result if the entry was still registered with an open registry, cancellation otherwise. */
  lemma DecisionIsFinal(before: seq<Step>, c: Call, after: seq<Step>)
    requires Run(INITIAL, before).Some? && Enabled(Run(INITIAL, before).value, Decide(c))
    requires Run(Do(Run(INITIAL, before).value, Decide(c)), after).Some?
    ensures var s := Run(INITIAL, before).value;
            var e := s.pcs[c].e;
            var t := Run(Do(s, Decide(c)), after).value;
            && s.entries[e].state == Pending && e in t.entries
            && Poll(t.entries[e].state) ==
               (if Registered(s, e) && !s.table.closed then Some(s.pcs[c].r)
                else Some(BridgeValue.Err(BridgeValue.Cancelled)))
            && (t.entries[e].completions == 1 <==> Registered(s, e) && !s.table.closed)
            && t.entries[e].cancellations == 0
  {
    hide Run, Ids, Locks, Holders, Orphans, Leftovers, RemoveRegion;
    var s := Run(INITIAL, before).value;
    Reachable(before);
    InvIsKept(s, Decide(c));
    assert Relies(s, s.pcs[c]);
    TerminalForever(Do(s, Decide(c)), after, s.pcs[c].e);
  }

  /** Likewise for the cancel or drop that wins: nothing completes the future any more. */
  lemma CancellationIsFinal(before: seq<Step>, c: Call, e: EntryId, dropping: bool, after: seq<Step>)
    requires Run(INITIAL, before).Some? && Enabled(Run(INITIAL, before).value, Win(c, e, dropping))
    requires Run(Do(Run(INITIAL, before).value, Win(c, e, dropping)), after).Some?
    ensures var t := Run(Do(Run(INITIAL, before).value, Win(c, e, dropping)), after).value;
            && e in t.entries && Poll(t.entries[e].state) == Some(BridgeValue.Err(BridgeValue.Cancelled))
            && t.entries[e].cancellations == 1 && t.entries[e].completions == 0
  {
    hide Run, Ids, Locks, Holders, Calls, Orphans, Leftovers, Alive;
    var s := Run(INITIAL, before).value;
    Reachable(before);
    InvIsKept(s, Win(c, e, dropping));
    TerminalForever(Do(s, Win(c, e, dropping)), after, e);
  }

  // ---------------------------------------------------------------- closing

  /** Closed for good: no entry is pending and none will be. */
  ghost predicate Finished(s: State) {
    s.table.closed && s.table.live == map[] && forall e :: e in s.entries ==> !s.entries[e].state.Pending?
  }

  /** A closed registry is finished exactly when no close has a pending entry left to mark. */
  lemma MarkedMeansFinished(steps: seq<Step>)
    requires Run(INITIAL, steps).Some? && Run(INITIAL, steps).value.table.closed
    ensures var s := Run(INITIAL, steps).value;
            Finished(s) <==>
            forall c :: c in s.pcs && s.pcs[c].Marking? ==>
              forall e :: e in s.pcs[c].rest && e in s.entries ==> !s.entries[e].state.Pending?
  {
    hide Run, Enabled, Do, Locks, Holders, Calls, Outcomes, Leftovers;
    Reachable(steps);
  }

  /** Finished already, or call `c` is marking and has every pending entry still before it. */
  ghost predicate ClosedBy(s: State, c: Call) {
    && s.table.closed
    && (|| Finished(s)
        || (c in s.pcs && s.pcs[c].Marking? &&
            forall e :: e in s.entries && s.entries[e].state.Pending? ==> e in s.pcs[c].rest))
  }

  lemma MarkingMeansClosed(s: State)
    requires Calls(s)
    ensures forall c :: c in s.pcs && s.pcs[c].Marking? ==> s.table.closed
  {
    forall c | c in s.pcs && s.pcs[c].Marking? ensures s.table.closed {
      assert Relies(s, s.pcs[c]);
    }
  }

  /** The close that finds the registry open takes every pending entry there is. */
  lemma FirstDrainTakesAll(s: State, c: Call, order: seq<EntryId>)
    requires Ids(s) && Calls(s) && Orphans(s) && CanDrain(s, c, order) && !s.table.closed
    ensures ClosedBy(DoDrain(s, c, order), c)
  {
    hide Ids, Calls, Finished, Registered;
    MarkingMeansClosed(s);
    DrainedAreLive(s, order);
  }

  lemma OnlyMarkMovesAMarkingCall(s: State, step: Step, c: Call)
    requires Enabled(s, step) && c in s.pcs && s.pcs[c].Marking? && Caller(step) == Some(c)
    ensures step == Mark(c)
  {
    hide Unlocked, Unborrowed;
  }

  lemma MarkKeepsClosedBy(s: State, c: Call)
    requires Ids(s) && ClosedBy(s, c) && CanMark(s, c)
    ensures ClosedBy(DoMark(s, c), c)
  {
  }

  lemma ClosedByStep(s: State, step: Step, c: Call)
    requires Inv(s) && ClosedBy(s, c) && Enabled(s, step)
    ensures ClosedBy(Do(s, step), c)
  {
    hide Locks, Holders, Calls, Outcomes, Orphans, Leftovers;
    if step == Mark(c) {
      MarkKeepsClosedBy(s, c);
    } else {
      InvIsKept(s, step);
      StepEvolves(s, step);
      if c in s.pcs && s.pcs[c].Marking? && Caller(step) == Some(c) {
        OnlyMarkMovesAMarkingCall(s, step, c);
      }
      hide Do, Enabled;
    }
  }

  lemma {:induction false} ClosedByOfRuns(s: State, steps: seq<Step>, c: Call)
    requires Inv(s) && ClosedBy(s, c) && Run(s, steps).Some?
    ensures Inv(Run(s, steps).value) && ClosedBy(Run(s, steps).value, c)
    decreases |steps|
  {
    hide Inv, ClosedBy, Enabled, Do;
    if steps != [] {
      InvIsKept(s, steps[0]);
      ClosedByStep(s, steps[0], c);
      ClosedByOfRuns(Do(s, steps[0]), steps[1..], c);
    }
  }

  /** A close that finds the registry open returns only when everything is terminal: in every continuation
      the registry is finished, or that close still has every pending entry before it. */
  lemma FirstCloseReturnsFinished(before: seq<Step>, c: Call, order: seq<EntryId>, after: seq<Step>)
    requires Run(INITIAL, before).Some? && Enabled(Run(INITIAL, before).value, Drain(c, order))
    requires !Run(INITIAL, before).value.table.closed
    requires Run(Do(Run(INITIAL, before).value, Drain(c, order)), after).Some?
    ensures var t := Run(Do(Run(INITIAL, before).value, Drain(c, order)), after).value;
            && t.table.closed
            && (c !in t.pcs || !t.pcs[c].Marking? || t.pcs[c].rest == [] ==> Finished(t))
            && (!Finished(t) ==> forall e :: e in t.entries && t.entries[e].state.Pending? ==> e in t.pcs[c].rest)
  {
    var s := Run(INITIAL, before).value;
    Reachable(before);
    InvIsKept(s, Drain(c, order));
    FirstDrainTakesAll(s, c, order);
    ClosedByOfRuns(Do(s, Drain(c, order)), after, c);
    var t := Run(Do(s, Drain(c, order)), after).value;
    hide Run, Do, Enabled, Locks, Holders, Calls, Outcomes, Orphans, Leftovers;
  }

  lemma {:induction false} RunAppends(s: State, steps: seq<Step>, step: Step)
    requires Run(s, steps).Some? && Enabled(Run(s, steps).value, step)
    ensures Run(s, steps + [step]) == Some(Do(Run(s, steps).value, step))
    decreases |steps|
  {
    hide Enabled, Do;
    if steps == [] {
      assert [step][1..] == [];
      assert steps + [step] == [step];
    } else {
      assert (steps + [step])[1..] == steps[1..] + [step];
      RunAppends(Do(s, steps[0]), steps[1..], step);
    }
  }

  const ONE_PENDING: map<EntryId, Entry> := map[0 := Entry(1, Pending, None, Live, 0, 0, {})]

  lemma OnePaired() returns (steps: seq<Step>)
    ensures Run(INITIAL, steps).Some?
    ensures var s := Run(INITIAL, steps).value;
            && s.table == Table(false, 2, map[1 := 0]) && s.tableLock == None && s.owned
            && s.entries == ONE_PENDING && s.pcs == map[]
  {
    hide Run, Alive, PairRegion;
    steps := [];
    EmptyRun();
    RunAppends(INITIAL, steps, BeginPair(1));
    steps := steps + [BeginPair(1)];
    FirstPair();
    RunAppends(INITIAL, steps, Pair(1, 0));
    steps := steps + [Pair(1, 0)];
  }

  /** A close has drained the one entry and marked nothing yet. */
  lemma OneDrained() returns (steps: seq<Step>)
    ensures Run(INITIAL, steps).Some?
    ensures var s := Run(INITIAL, steps).value;
            && s.table.closed && s.table.live == map[] && s.tableLock == None && s.owned
            && s.entries == ONE_PENDING && s.pcs == map[2 := Marking([0])]
  {
    hide Run, Alive, PairRegion;
    steps := OnePaired();
    RunAppends(INITIAL, steps, BeginClose(2));
    steps := steps + [BeginClose(2)];
    var s := Run(INITIAL, steps).value;
    assert s.table.live.Values == {0} by {
      assert s.table.live[1] == 0;
    }
    var one: seq<EntryId> := [0];
    assert (set e | e in one) == {0};
    RunAppends(INITIAL, steps, Drain(2, [0]));
    steps := steps + [Drain(2, [0])];
  }

  lemma EmptyRun()
    ensures Run(INITIAL, []) == Some(INITIAL)
  {
  }

  lemma FirstPair()
    ensures PairRegion(NEW_TABLE, 0) == Some((Table(false, 2, map[1 := 0]), 1))
  {
  }

  /** But a close that finds it closed may return while an entry is pending, when the close that drained it has
      not marked it yet; and everything may be terminal while a close still has entries on its list. */
  lemma LaterCloseReturnsEarly() returns (steps: seq<Step>)
    ensures Run(INITIAL, steps).Some? && steps != [] && steps[|steps| - 1] == Mark(3)
    ensures var s := Run(INITIAL, steps).value;
            && s.table.closed && 3 !in s.pcs && 0 in s.entries && s.entries[0].state.Pending? && !Finished(s)
            && Enabled(s, Win(4, 0, false))
            && Finished(Do(s, Win(4, 0, false))) && 2 in Do(s, Win(4, 0, false)).pcs
            && Do(s, Win(4, 0, false)).pcs[2] == Marking([0])
  {
    hide Run, Alive, PairRegion;
    steps := OneDrained();
    RunAppends(INITIAL, steps, BeginClose(3));
    steps := steps + [BeginClose(3)];
    var none: seq<EntryId> := [];
    assert (set e | e in none) == {};
    RunAppends(INITIAL, steps, Drain(3, []));
    steps := steps + [Drain(3, [])];
    RunAppends(INITIAL, steps, Mark(3));
    steps := steps + [Mark(3)];
  }

  lemma FinishedStays(s: State, step: Step)
    requires Inv(s) && Finished(s) && Enabled(s, step)
    ensures Inv(Do(s, step)) && Finished(Do(s, step)) && Do(s, step).entries.Keys == s.entries.Keys
  {
    hide Enabled, Do, Locks, Holders, Calls, Outcomes, Orphans, Leftovers;
    InvIsKept(s, step);
    StepEvolves(s, step);
  }

  lemma {:induction false} FinishedForever(s: State, steps: seq<Step>)
    requires Inv(s) && Finished(s) && Run(s, steps).Some?
    ensures Finished(Run(s, steps).value) && Run(s, steps).value.entries.Keys == s.entries.Keys
    decreases |steps|
  {
    hide Enabled, Do, Locks, Holders, Calls, Outcomes, Orphans, Leftovers;
    if steps != [] {
      FinishedStays(s, steps[0]);
      FinishedForever(Do(s, steps[0]), steps[1..]);
    }
  }

  /** After its drain left `d`, call `c` returns in the continuation `after` with something still pending. */
  ghost predicate ReturnsEarly(d: State, c: Call, after: seq<Step>) {
    Run(d, after).Some? && c !in Run(d, after).value.pcs && !Finished(Run(d, after).value)
  }

  /** The drain of a closed registry finds nothing, and its close can return in the very next step. */
  lemma ClosedDrainReturnsNext(s: State, c: Call, order: seq<EntryId>)
    requires Inv(s) && s.table.closed && !Finished(s) && Enabled(s, Drain(c, order))
    ensures ReturnsEarly(Do(s, Drain(c, order)), c, [Mark(c)])
  {
    hide Inv, Finished;
    NothingToDrain(s, c, order);
    var d := DoDrain(s, c, order);
    assert Do(s, Drain(c, order)) == d;
    EmptyMark(d, c);
    hide Enabled, Do;
    SameFinished(s, Do(d, Mark(c)));
    assert Run(Do(d, Mark(c)), []) == Some(Do(d, Mark(c)));
    assert [Mark(c)][1..] == [];
    assert Run(d, [Mark(c)]) == Some(Do(d, Mark(c)));
  }

  lemma NothingToDrain(s: State, c: Call, order: seq<EntryId>)
    requires Inv(s) && s.table.closed && CanDrain(s, c, order)
    ensures order == [] && s.table.live == map[]
  {
    hide Locks, Holders, Calls, Outcomes, Orphans, Leftovers;
    assert order != [] ==> order[0] in order;
    DrainedAreLive(s, order);
  }

  lemma EmptyMark(d: State, c: Call)
    requires c in d.pcs && d.pcs[c] == Marking([])
    ensures Enabled(d, Mark(c)) && Do(d, Mark(c)) == d.(pcs := d.pcs - {c})
  {
    hide Unlocked;
  }

  lemma SameFinished(s: State, t: State)
    requires s.entries == t.entries && s.table.closed && t.table.closed && s.table.live == t.table.live
    ensures Finished(s) <==> Finished(t)
  {
  }

  /** What a caller can tell when a close takes the table: it can return before everything is terminal exactly
      when it finds the registry closed and something pending. */
  lemma ReturnsEarlyExactly(before: seq<Step>, c: Call, order: seq<EntryId>)
    requires Run(INITIAL, before).Some? && Enabled(Run(INITIAL, before).value, Drain(c, order))
    ensures var s := Run(INITIAL, before).value;
            (exists after :: ReturnsEarly(Do(s, Drain(c, order)), c, after)) <==> s.table.closed && !Finished(s)
  {
    hide Run, Enabled, Do, Inv, Finished;
    var s := Run(INITIAL, before).value;
    Reachable(before);
    if s.table.closed && !Finished(s) {
      ClosedDrainReturnsNext(s, c, order);
    } else {
      var d := Do(s, Drain(c, order));
      forall after | Run(d, after).Some? && c !in Run(d, after).value.pcs ensures Finished(Run(d, after).value) {
        if s.table.closed {
          FinishedStays(s, Drain(c, order));
          FinishedForever(d, after);
        } else {
          FirstCloseReturnsFinished(before, c, order, after);
        }
      }
    }
  }

  // ---------------------------------------------------------------- no deadlock

  /** The call asleep on a condition variable is waiting for a completion, not for a lock. */
  predicate Asleep(s: State, c: Call) {
    c in s.pcs && s.pcs[c].Waiting? && s.pcs[c].e in s.entries && c in s.entries[s.pcs[c].e].sleepers
  }

  /** The call can take its next step now. */
  ghost predicate Moves(s: State, c: Call) {
    c in s.pcs &&
    match s.pcs[c]
    case Pairing => exists e :: CanPair(s, c, e)
    case Closing => exists order :: CanDrain(s, c, order)
    case Upgraded(_, _) => CanLockTable(s, c)
    case Marked(_, _) => CanLockTable(s, c)
    case Deciding(_, _) => CanDecide(s, c)
    case Removing(_, _) => CanRemove(s, c)
    case Marking(_) => CanMark(s, c)
    case Waiting(_) => CanRecheck(s, c)
  }

  /** The call wants a lock that `d` holds. */
  predicate WaitsFor(s: State, c: Call, d: Call) {
    c in s.pcs &&
    match s.pcs[c]
    case Upgraded(_, _) => s.tableLock == Some(d)
    case Marked(_, _) => s.tableLock == Some(d)
    case Marking(rest) => rest != [] && rest[0] in s.entries && s.entries[rest[0]].lock == Some(d)
    case Waiting(e) => e in s.entries && s.entries[e].lock == Some(d)
    case _ => false
  }

  lemma {:induction false} BoundOf(used: set<EntryId>) returns (bound: EntryId)
    ensures forall e :: e in used ==> e < bound
  {
    if used == {} {
      bound := 0;
    } else {
      var e :| e in used;
      var rest := BoundOf(used - {e});
      bound := rest + e + 1;
      forall f | f in used ensures f < bound {
        assert f == e || f in used - {e};
      }
    }
  }

  lemma {:induction false} OrderOf(elements: set<EntryId>) returns (order: seq<EntryId>)
    ensures (set e | e in order) == elements
  {
    if elements == {} {
      order := [];
    } else {
      var x :| x in elements;
      var rest := OrderOf(elements - {x});
      order := [x] + rest;
      forall e ensures e in order <==> e in elements {
        assert e in rest <==> e in (set f | f in rest);
        assert e in elements <==> e == x || e in elements - {x};
      }
    }
  }

  lemma TableHolderMoves(s: State, c: Call)
    requires Inv(s) && c in s.pcs && HoldsTable(s.pcs[c])
    ensures Moves(s, c)
  {
    hide Ids, Locks, Holders, Outcomes, Orphans, Leftovers;
    assert Relies(s, s.pcs[c]);
    match s.pcs[c]
    case Pairing =>
      var e := BoundOf(s.entries.Keys);
      assert e !in s.entries.Keys;
      assert CanPair(s, c, e);
    case Closing =>
      var order := OrderOf(s.table.live.Values);
      assert CanDrain(s, c, order);
    case _ =>
  }

  /** Nothing is ever deadlocked: a call that is not asleep can move, or waits for one that can, or for one
      that waits for one that can; entry locks are only ever held while waiting for the registry lock. */
  lemma NeverDeadlocked(steps: seq<Step>, c: Call)
    requires Run(INITIAL, steps).Some?
    requires c in Run(INITIAL, steps).value.pcs && !Asleep(Run(INITIAL, steps).value, c)
    ensures var s := Run(INITIAL, steps).value;
            || Moves(s, c)
            || exists d :: WaitsFor(s, c, d) && (Moves(s, d) || exists f :: WaitsFor(s, d, f) && Moves(s, f))
  {
    hide Run, Enabled, Do;
    Reachable(steps);
    BlockedBriefly(Run(INITIAL, steps).value, c);
  }

  lemma BlockedBriefly(s: State, c: Call)
    requires Inv(s) && c in s.pcs && !Asleep(s, c)
    ensures || Moves(s, c)
            || exists d :: WaitsFor(s, c, d) && (Moves(s, d) || exists f :: WaitsFor(s, d, f) && Moves(s, f))
  {
    hide Ids, Outcomes, Orphans, Leftovers;
    assert Relies(s, s.pcs[c]);
    if HoldsTable(s.pcs[c]) {
      TableHolderMoves(s, c);
    } else if s.pcs[c].Upgraded? || s.pcs[c].Marked? {
      WantsTable(s, c);
    } else {
      var wanted :=
        if s.pcs[c].Waiting? then Some(s.pcs[c].e)
        else if s.pcs[c].rest != [] then Some(s.pcs[c].rest[0])
        else None;
      if wanted.Some? && s.entries[wanted.value].lock.Some? {
        var d := s.entries[wanted.value].lock.value;
        assert WaitsFor(s, c, d);
        if s.pcs[d].Deciding? {
          TableHolderMoves(s, d);
        } else {
          WantsTable(s, d);
        }
      }
    }
  }

  lemma WantsTable(s: State, c: Call)
    requires Inv(s) && c in s.pcs && (s.pcs[c].Upgraded? || s.pcs[c].Marked?)
    ensures Moves(s, c) || exists d :: WaitsFor(s, c, d) && Moves(s, d)
  {
    hide Ids, Locks, Calls, Outcomes, Orphans, Leftovers;
    if s.tableLock.Some? {
      TableHolderMoves(s, s.tableLock.value);
    } else {
    }
  }
}
