/**
  thread_runtime.go and threadstore_engine.go: any number of runtimes, in any processes, that share
  one thread key of one fenced store.

  A runtime holds its mutex across several store calls, but the store and the other runtimes move
  between two of them. So one step of the model is one store call (or one critical section without
  any), and `Pc` is the point inside a locked section at which a runtime waits for its next call.
  The store behaves as threadstore.go promises: leases are exclusive, tokens are never reused and
  Finalize validates every held lease. A store call may also fail, before or after taking effect: a
  failed grant that took effect is `Strand`, a failed release that did is followed by `Expire`.
  A record stands for its own StableHash version.
*/
module ThreadOwnership {
  import opened Common

  datatype Record = Record(id: nat, state: nat)

  /** The ownership lease guards the key; a checkpoint may name further targets, such as its record. */
  datatype Target = ThreadKey | Auxiliary(name: nat)

  /** A held lease on an auxiliary target. */
  datatype Lease = Lease(name: nat, token: nat)

  /** One applied Finalize: what it replaced, and what its writer had last confirmed or submitted itself. */
  datatype Write = Write(writer: nat, replaced: Option<Record>, next: Record, version: Version, submitted: set<Record>)

  datatype Store = Store(record: Option<Record>, leases: map<Target, nat>, nextToken: nat, writes: seq<Write>)

  /** durableVersion: empty until the key was read once. */
  datatype Version = Unread | Read(record: Option<Record>)

  datatype Checkpoint = Checkpoint(record: Record, targets: seq<nat>)

  datatype Purpose = ForBegin | ForStandby | ForRecovery | ForBackground

  datatype Pc =
    | Unlocked
    | Acquired(token: nat, purpose: Purpose)
    | Abandoning(token: nat)
    | Renewing
    | Flushing(acquired: seq<Lease>, todo: seq<nat>, purpose: Purpose)
    | Unwinding(acquired: seq<Lease>, lost: bool, purpose: Purpose)
    | Releasing

  /**
    `cancelled` is ownerCtx.Err() != nil and `failed` is ownershipErr != nil. `resolved` says that the
    current ownership period has read the key; `submitted` holds the records whose write may have
    reached the store since the durable version was last confirmed, when the store had seen
    `confirmedAt` writes.
  */
  datatype Runtime = Runtime(
    owner: Option<nat>, cancelled: bool, failed: bool, pending: Option<Checkpoint>, needsValidation: bool,
    version: Version, submitted: set<Record>, confirmedAt: nat, resolved: bool,
    task: bool, standby: bool, executing: bool, pc: Pc)

  datatype Reply = Success | FailedAfterApply | Failed

  datatype Outcome = Saved | Lost | Broken

  datatype Action =
    | Acquire(purpose: Purpose)
    | Validate(readable: bool)
    | Abandon
    | Renew(ok: bool, callerGone: bool)
    | FlushAcquire(ok: bool)
    | FlushFinalize(reply: Reply)
    | FlushRelease(ok: bool)
    | Release(ok: bool)
    | ReserveTask
    | End(wasTask: bool)
    | EndStandby
    | Tick
    | Verify(renewed: bool)
    | Resolve
    | Finalize(record: Record, targets: seq<nat>, reply: Reply, giveUp: bool)

  /** `Strand` is a lease granted by a call that its caller saw fail: nobody learns its token. */
  datatype Op = By(who: nat, action: Action) | Expire(target: Target) | Strand(target: Target) | CancelOwner(who: nat)

  datatype System = System(store: Store, runtimes: seq<Runtime>)

  const FRESH_RUNTIME := Runtime(None, false, false, None, false, Unread, {}, 0, false, false, false, false, Unlocked)

  predicate Initial(s: System) {
    && s.store.leases == map[] && s.store.writes == []
    && forall i | 0 <= i < |s.runtimes| :: s.runtimes[i] == FRESH_RUNTIME
  }

  // ---------- the store ----------

  predicate Holds(store: Store, target: Target, token: nat) {
    target in store.leases && store.leases[target] == token
  }

  predicate Current(store: Store, token: nat, acquired: seq<Lease>) {
    && Holds(store, ThreadKey, token)
    && forall l | l in acquired :: Holds(store, Auxiliary(l.name), l.token)
  }

  function Grant(store: Store, target: Target): Store {
    store.(leases := store.leases[target := store.nextToken], nextToken := store.nextToken + 1)
  }

  function Drop(store: Store, target: Target, token: nat): Store {
    if Holds(store, target, token) then store.(leases := store.leases - {target}) else store
  }

  function Save(store: Store, who: nat, r: Runtime, record: Record): Store {
    store.(record := Some(record),
           writes := store.writes + [Write(who, store.record, record, r.version, r.submitted)])
  }

  function FinalizeCall(store: Store, who: nat, r: Runtime, token: nat, acquired: seq<Lease>, record: Record, reply: Reply): (result: (Store, Outcome))
    ensures store.writes <= result.0.writes
    ensures result.0 == store || (result.0.record == Some(record) && !result.1.Lost?)
    ensures result.1.Saved? ==> result.0.record == Some(record)
  {
    if !Current(store, token, acquired) then (store, Lost)
    else match reply
      case Success => (Save(store, who, r, record), Saved)
      case FailedAfterApply => (Save(store, who, r, record), Broken)
      case Failed => (store, Broken)
  }

  // ---------- one runtime ----------

  /** The durable version is now known to be what the store holds. */
  function Confirm(r: Runtime, store: Store): Runtime {
    r.(version := Read(store.record), submitted := {}, confirmedAt := |store.writes|)
  }

  /** What a runtime learns from the reply to its own write. */
  function Settle(r: Runtime, store: Store, outcome: Outcome, record: Record): Runtime {
    match outcome
    case Saved => Confirm(r, store).(pending := None)
    case Broken => r.(submitted := r.submitted + {record})
    case Lost => r
  }

  /** What a step that neither reads nor writes the record leaves alone. */
  predicate SameMemory(r: Runtime, r': Runtime) {
    && r'.version == r.version && r'.submitted == r.submitted && r'.confirmedAt == r.confirmedAt
    && r'.pending == r.pending && (r'.resolved ==> r.resolved)
  }

  function AfterFlush(r: Runtime, lost: bool, purpose: Purpose): (r': Runtime)
    ensures SameMemory(r, r') && (!lost ==> r'.failed == r.failed)
  {
    match purpose
    case ForRecovery => r.(failed := r.failed || lost, pc := Releasing)
    case ForBackground =>
      r.(failed := r.failed || lost, cancelled := r.cancelled || lost,
         pc := if !r.task && !r.standby && r.pending.None? then Releasing else Unlocked)
    case _ => r.(pc := Unlocked)
  }

  function StartFlush(r: Runtime, purpose: Purpose): (r': Runtime)
    ensures SameMemory(r, r') && r'.failed == r.failed
  {
    if r.pending.None? || r.owner.None? then AfterFlush(r, false, purpose)
    else r.(pc := Flushing([], r.pending.value.targets, purpose))
  }

  function AfterAcquire(r: Runtime, token: nat, purpose: Purpose): (r': Runtime)
    ensures SameMemory(r, r') && r'.failed == r.failed
  {
    var owned := r.(owner := Some(token), cancelled := false, needsValidation := false);
    match purpose
    case ForStandby => owned.(standby := true, pc := Unlocked)
    case ForBegin => StartFlush(owned.(executing := true), ForBegin)
    case _ => StartFlush(owned, purpose)
  }

  function ValidatePending(r: Runtime, store: Store, token: nat, purpose: Purpose, readable: bool): Runtime {
    if !r.needsValidation then AfterAcquire(r.(resolved := false), token, purpose)
    else if r.pending.None? then AfterAcquire(r.(resolved := false), token, purpose)
    else if !readable then r.(pc := Abandoning(token))
    else if store.record == Some(r.pending.value.record) then
      AfterAcquire(Confirm(r, store).(pending := None, resolved := true), token, purpose)
    else if Read(store.record) != r.version then r.(failed := true, pc := Abandoning(token))
    else AfterAcquire(r.(resolved := true), token, purpose)
  }

  function Merge(r: Runtime, record: Record, targets: seq<nat>): Runtime {
    r.(pending := Some(Checkpoint(record, if r.pending.Some? then targets + r.pending.value.targets else targets)))
  }

  // Each action is one store call or one critical section; one that is not enabled changes nothing.

  function TryAcquire(store: Store, r: Runtime, purpose: Purpose): (result: (Store, Runtime))
    ensures SameMemory(r, result.1)
  {
    if r.pc != Unlocked || r.failed || purpose == ForBackground
       || (purpose == ForRecovery && (r.owner.Some? || r.pending.None?))
       || (purpose == ForStandby && (r.task || r.standby)) then (store, r)
    else if r.owner.Some? then
      if r.cancelled then (store, r)
      else if purpose == ForBegin then (store, r.(executing := true, pc := Renewing))
      else (store, r.(standby := true))
    else if ThreadKey in store.leases then (store, r)
    else (Grant(store, ThreadKey), r.(pc := Acquired(store.nextToken, purpose)))
  }

  function RenewInherited(r: Runtime, ok: bool, callerGone: bool): (r': Runtime)
    ensures SameMemory(r, r')
  {
    if !r.pc.Renewing? then r
    else if ok then StartFlush(r, ForBegin)
    else if callerGone then r.(pc := Unlocked)
    else r.(failed := true, cancelled := true, pc := Unlocked)
  }

  function AcquireForFlush(store: Store, r: Runtime, ok: bool): (result: (Store, Runtime))
    ensures SameMemory(r, result.1)
  {
    if !r.pc.Flushing? || r.pc.todo == [] then (store, r)
    else
      var name, rest := r.pc.todo[0], r.pc.todo[1..];
      if exists l | l in r.pc.acquired :: l.name == name then (store, r.(pc := r.pc.(todo := rest)))
      else if ok then
        (Grant(store, Auxiliary(name)),
         r.(pc := r.pc.(acquired := r.pc.acquired + [Lease(name, store.nextToken)], todo := rest)))
      else (store, r.(pc := Unwinding(r.pc.acquired, false, r.pc.purpose)))
  }

  function WritePending(store: Store, who: nat, r: Runtime, reply: Reply): (Store, Runtime) {
    if !r.pc.Flushing? || r.pc.todo != [] || r.pending.None? || r.owner.None? then (store, r)
    else
      var record := r.pending.value.record;
      var (store', outcome) := FinalizeCall(store, who, r, r.owner.value, r.pc.acquired, record, reply);
      (store', Settle(r, store', outcome, record).(pc := Unwinding(r.pc.acquired, outcome.Lost?, r.pc.purpose)))
  }

  function ReleaseAfterFlush(store: Store, r: Runtime, ok: bool): (result: (Store, Runtime))
    ensures SameMemory(r, result.1)
  {
    if !r.pc.Unwinding? then (store, r)
    else if r.pc.acquired == [] then (store, AfterFlush(r, r.pc.lost, r.pc.purpose))
    else
      var last := |r.pc.acquired| - 1;
      var lease := r.pc.acquired[last];
      var shorter := r.(pc := r.pc.(acquired := r.pc.acquired[..last]));
      if ok then (Drop(store, Auxiliary(lease.name), lease.token), shorter)
      else (store, shorter.(failed := true, cancelled := true))
  }

  function ReleaseOwner(store: Store, r: Runtime, ok: bool): (result: (Store, Runtime))
    ensures SameMemory(r, result.1)
  {
    if !r.pc.Releasing? then (store, r)
    else if r.owner.None? then (store, r.(pc := Unlocked))
    else
      (if ok then Drop(store, ThreadKey, r.owner.value) else store,
       r.(owner := None, cancelled := true, resolved := false, failed := r.failed || !ok,
          needsValidation := r.needsValidation || r.pending.Some?, pc := Unlocked))
  }

  function BackgroundTick(r: Runtime): (r': Runtime)
    ensures SameMemory(r, r')
  {
    if r.pc != Unlocked || r.owner.None? then r
    else if r.cancelled then
      if r.executing || r.task || r.standby then r
      else r.(failed := r.failed || r.pending.Some?, pc := Releasing)
    else if !r.executing && r.pending.Some? then StartFlush(r, ForBackground)
    else if !r.task && !r.standby && r.pending.None? then r.(pc := Releasing)
    else r
  }

  /** The coordinator persists only through a plan that resolved the key first, hence `resolved`. */
  function WriteDirect(store: Store, who: nat, r: Runtime, record: Record, targets: seq<nat>, reply: Reply, giveUp: bool): (Store, Runtime) {
    if r.pc != Unlocked || r.owner.None? || r.cancelled || r.failed || !r.resolved then (store, r)
    else if r.pending.Some? then (store, Merge(r, record, targets))
    else
      var (store', outcome) := FinalizeCall(store, who, r, r.owner.value, [], record, reply);
      var settled := Settle(r, store', outcome, record);
      (store', if outcome.Broken? && !giveUp then Merge(settled, record, targets) else settled)
  }

  function Act(store: Store, who: nat, r: Runtime, action: Action): (Store, Runtime) {
    match action
    case Acquire(purpose) => TryAcquire(store, r, purpose)
    case Validate(readable) =>
      (store, if r.pc.Acquired? then ValidatePending(r, store, r.pc.token, r.pc.purpose, readable) else r)
    case Abandon =>
      if r.pc.Abandoning? then (Drop(store, ThreadKey, r.pc.token), r.(pc := Unlocked)) else (store, r)
    case Renew(ok, callerGone) => (store, RenewInherited(r, ok, callerGone))
    case FlushAcquire(ok) => AcquireForFlush(store, r, ok)
    case FlushFinalize(reply) => WritePending(store, who, r, reply)
    case FlushRelease(ok) => ReleaseAfterFlush(store, r, ok)
    case Release(ok) => ReleaseOwner(store, r, ok)
    case ReserveTask => (store, if r.pc != Unlocked || r.task || r.standby then r else r.(task := true))
    case End(wasTask) =>
      (store, if r.pc != Unlocked then r
              else r.(executing := false, task := r.task && !wasTask,
                      pc := if !r.standby && r.pending.None? then Releasing else Unlocked))
    case EndStandby => (store, if r.pc != Unlocked || !r.standby then r else r.(standby := false, pc := Releasing))
    case Tick => (store, BackgroundTick(r))
    case Verify(renewed) =>
      (store, if r.pc != Unlocked || r.owner.None? || renewed then r else r.(failed := true, cancelled := true))
    case Resolve =>
      (store, if r.pc != Unlocked || r.owner.None? || r.pending.Some? then r
              else Confirm(r, store).(resolved := true))
    case Finalize(record, targets, reply, giveUp) => WriteDirect(store, who, r, record, targets, reply, giveUp)
  }

  function Step(s: System, op: Op): System {
    match op
    case Expire(target) => s.(store := s.store.(leases := s.store.leases - {target}))
    case Strand(target) => if target in s.store.leases then s else s.(store := Grant(s.store, target))
    case CancelOwner(who) =>
      if who < |s.runtimes| then s.(runtimes := s.runtimes[who := s.runtimes[who].(cancelled := true)]) else s
    case By(who, action) =>
      if who >= |s.runtimes| then s
      else
        var (store, r) := Act(s.store, who, s.runtimes[who], action);
        System(store, s.runtimes[who := r])
  }

  function Run(s: System, ops: seq<Op>): System
    decreases |ops|
  {
    if ops == [] then s else Run(Step(s, ops[0]), ops[1..])
  }

  // ---------- what every step keeps ----------

  /** The key token a runtime acts under, whether installed as owner or still local to acquireLocked. */
  function KeyToken(r: Runtime): Option<nat> {
    match r.pc
    case Acquired(token, _) => Some(token)
    case Abandoning(token) => Some(token)
    case _ => r.owner
  }

  /** The record is the one this runtime last confirmed, or one it submitted itself since. */
  predicate Known(record: Option<Record>, version: Version, submitted: set<Record>) {
    version == Read(record) || (record.Some? && record.value in submitted)
  }

  predicate HoldsKey(store: Store, r: Runtime) {
    r.owner.Some? && Holds(store, ThreadKey, r.owner.value)
  }

  predicate LocalInv(r: Runtime) {
    && (r.pc.Acquired? || r.pc.Abandoning? ==> r.owner.None?)
    && (r.owner.Some? && r.pending.Some? ==> r.resolved)
    && (r.owner.Some? ==> !r.needsValidation)
    && (r.owner.None? && r.pending.Some? ==> r.needsValidation)
    && (r.failed ==> r.owner.None? || r.cancelled || r.pc.Releasing?)
    && (r.pc.Acquired? || r.pc.Renewing? || r.pc.Flushing? ==> !r.failed)
    && (r.pc.Renewing? || r.pc.Flushing? || r.pc.Unwinding? ==> r.owner.Some?)
    && (r.pc.Flushing? ==> r.pending.Some?)
  }

  predicate SharedInv(store: Store, r: Runtime) {
    && (KeyToken(r).Some? ==> KeyToken(r).value < store.nextToken)
    && (HoldsKey(store, r) && r.resolved ==> Known(store.record, r.version, r.submitted))
  }

  predicate WritesKnown(store: Store) {
    && (forall w | w in store.writes :: Known(w.replaced, w.version, w.submitted))
    && (forall k | 0 <= k < |store.writes| - 1 :: store.writes[k + 1].replaced == Some(store.writes[k].next))
    && (store.writes != [] ==> store.record == Some(store.writes[|store.writes| - 1].next))
  }

  predicate Inv(s: System) {
    && (ThreadKey in s.store.leases ==> s.store.leases[ThreadKey] < s.store.nextToken)
    && (forall i | 0 <= i < |s.runtimes| :: LocalInv(s.runtimes[i]) && SharedInv(s.store, s.runtimes[i]))
    && (forall i, j | 0 <= i < j < |s.runtimes| && KeyToken(s.runtimes[i]).Some? ::
          KeyToken(s.runtimes[i]) != KeyToken(s.runtimes[j]))
    && WritesKnown(s.store)
  }

  predicate FreshTokens(store: Store) {
    ThreadKey in store.leases ==> store.leases[ThreadKey] < store.nextToken
  }

  /** What one runtime's step does to itself, and to the store as the other runtimes see it. */
  predicate Keeps(before: Store, r: Runtime, after: Store, r': Runtime) {
    && LocalInv(r') && SharedInv(after, r') && FreshTokens(after)
    && (r.failed ==> r'.failed)
    && (|| KeyToken(r') == KeyToken(r)
        || KeyToken(r').None?
        || (KeyToken(r') == Some(before.nextToken) && before.nextToken < after.nextToken))
    && before.nextToken <= after.nextToken
    && (ThreadKey in after.leases ==>
          || (ThreadKey in before.leases && after.leases[ThreadKey] == before.leases[ThreadKey])
          || before.nextToken <= after.leases[ThreadKey])
    && (before.record != after.record ==> r.owner.Some? && Holds(before, ThreadKey, r.owner.value))
  }

  lemma TryAcquireKeeps(store: Store, r: Runtime, purpose: Purpose)
    requires LocalInv(r) && SharedInv(store, r) && FreshTokens(store)
    ensures var (store', r') := TryAcquire(store, r, purpose); Keeps(store, r, store', r')
  {
  }

  lemma ReleaseOwnerKeeps(store: Store, r: Runtime, ok: bool)
    requires LocalInv(r) && SharedInv(store, r) && FreshTokens(store)
    ensures var (store', r') := ReleaseOwner(store, r, ok); Keeps(store, r, store', r')
  {
  }

  lemma AcquireForFlushKeeps(store: Store, r: Runtime, ok: bool)
    requires LocalInv(r) && SharedInv(store, r) && FreshTokens(store)
    ensures var (store', r') := AcquireForFlush(store, r, ok); Keeps(store, r, store', r')
  {
  }

  lemma AfterFlushKeeps(store: Store, r: Runtime)
    requires LocalInv(r) && SharedInv(store, r) && FreshTokens(store)
    requires r.pc.Unwinding?
    ensures Keeps(store, r, store, AfterFlush(r, r.pc.lost, r.pc.purpose))
  {
    var r' := AfterFlush(r, r.pc.lost, r.pc.purpose);
    assert r' == r.(failed := r'.failed, cancelled := r'.cancelled, pc := r'.pc);
    assert r'.pc.Unlocked? || r'.pc.Releasing?;
  }

  lemma ReleaseAfterFlushKeeps(store: Store, r: Runtime, ok: bool)
    requires LocalInv(r) && SharedInv(store, r) && FreshTokens(store)
    ensures var (store', r') := ReleaseAfterFlush(store, r, ok); Keeps(store, r, store', r')
  {
    if r.pc.Unwinding? && r.pc.acquired == [] {
      AfterFlushKeeps(store, r);
    }
  }

  lemma WritePendingKeeps(store: Store, who: nat, r: Runtime, reply: Reply)
    requires LocalInv(r) && SharedInv(store, r) && FreshTokens(store)
    ensures var (store', r') := WritePending(store, who, r, reply); Keeps(store, r, store', r')
  {
  }

  lemma WriteDirectKeeps(store: Store, who: nat, r: Runtime, record: Record, targets: seq<nat>, reply: Reply, giveUp: bool)
    requires LocalInv(r) && SharedInv(store, r) && FreshTokens(store)
    ensures
      var (store', r') := WriteDirect(store, who, r, record, targets, reply, giveUp);
      Keeps(store, r, store', r')
  {
  }

  lemma RenewKeeps(store: Store, r: Runtime, ok: bool, callerGone: bool)
    requires LocalInv(r) && SharedInv(store, r) && FreshTokens(store)
    ensures Keeps(store, r, store, RenewInherited(r, ok, callerGone))
  {
  }

  lemma TickKeeps(store: Store, r: Runtime)
    requires LocalInv(r) && SharedInv(store, r) && FreshTokens(store)
    ensures Keeps(store, r, store, BackgroundTick(r))
  {
  }

  /** acquireLocked installs the owner of a runtime whose pending checkpoint, if any, was just validated. */
  lemma AfterAcquireKeeps(store: Store, r: Runtime, valid: Runtime)
    requires LocalInv(r) && SharedInv(store, r) && FreshTokens(store) && r.pc.Acquired?
    requires valid.pending.Some? ==> valid.resolved
    requires valid.resolved ==> valid.version == Read(store.record)
    requires !valid.failed
    ensures Keeps(store, r, store, AfterAcquire(valid, r.pc.token, r.pc.purpose))
  {
    var r' := AfterAcquire(valid, r.pc.token, r.pc.purpose);
    assert r'.pc.Unlocked? || r'.pc.Releasing? || (r'.pc.Flushing? && r'.pending.Some?);
  }

  lemma ValidateKeeps(store: Store, r: Runtime, readable: bool)
    requires LocalInv(r) && SharedInv(store, r) && FreshTokens(store) && r.pc.Acquired?
    ensures Keeps(store, r, store, ValidatePending(r, store, r.pc.token, r.pc.purpose, readable))
  {
    if r.pending.None? {
      AfterAcquireKeeps(store, r, r.(resolved := false));
    } else if readable && store.record == Some(r.pending.value.record) {
      AfterAcquireKeeps(store, r, Confirm(r, store).(pending := None, resolved := true));
    } else if readable && Read(store.record) == r.version {
      AfterAcquireKeeps(store, r, r.(resolved := true));
    }
  }

  predicate Simple(action: Action) {
    action.Abandon? || action.ReserveTask? || action.End? || action.EndStandby? || action.Verify? || action.Resolve?
  }

  lemma SimpleActKeeps(store: Store, who: nat, r: Runtime, action: Action)
    requires LocalInv(r) && SharedInv(store, r) && FreshTokens(store) && Simple(action)
    ensures var (store', r') := Act(store, who, r, action); Keeps(store, r, store', r')
  {
    match action
    case _ =>
  }

  lemma ActKeeps(store: Store, who: nat, r: Runtime, action: Action)
    requires LocalInv(r) && SharedInv(store, r) && FreshTokens(store)
    ensures var (store', r') := Act(store, who, r, action); Keeps(store, r, store', r')
  {
    match action
    case Acquire(purpose) => TryAcquireKeeps(store, r, purpose);
    case Validate(readable) => if r.pc.Acquired? { ValidateKeeps(store, r, readable); }
    case Renew(ok, callerGone) => RenewKeeps(store, r, ok, callerGone);
    case FlushAcquire(ok) => AcquireForFlushKeeps(store, r, ok);
    case FlushFinalize(reply) => WritePendingKeeps(store, who, r, reply);
    case FlushRelease(ok) => ReleaseAfterFlushKeeps(store, r, ok);
    case Release(ok) => ReleaseOwnerKeeps(store, r, ok);
    case Tick => TickKeeps(store, r);
    case Finalize(record, targets, reply, giveUp) => WriteDirectKeeps(store, who, r, record, targets, reply, giveUp);
    case _ => SimpleActKeeps(store, who, r, action);
  }

  // ---------- writes ----------

  /** At most one write was added, by `who`. */
  predicate WrittenBy(before: seq<Write>, after: seq<Write>, who: nat) {
    || after == before
    || (|after| == |before| + 1 && after[..|before|] == before && after[|before|].writer == who)
  }

  lemma FinalizeCallWrites(store: Store, who: nat, r: Runtime, token: nat, acquired: seq<Lease>, record: Record, reply: Reply)
    requires WritesKnown(store)
    requires Holds(store, ThreadKey, token) ==> Known(store.record, r.version, r.submitted)
    ensures var store' := FinalizeCall(store, who, r, token, acquired, record, reply).0;
            WritesKnown(store') && WrittenBy(store.writes, store'.writes, who)
  {
    var store' := FinalizeCall(store, who, r, token, acquired, record, reply).0;
    var last := |store.writes|;
    if |store'.writes| > last {
      assert store'.writes[last] == Write(who, store.record, record, r.version, r.submitted);
      assert forall k | 0 <= k < last :: store'.writes[k] == store.writes[k];
    }
  }

  lemma OtherActsDoNotWrite(store: Store, who: nat, r: Runtime, action: Action)
    requires !action.FlushFinalize? && !action.Finalize?
    ensures Act(store, who, r, action).0.writes == store.writes
    ensures Act(store, who, r, action).0.record == store.record
  {
  }

  /** A write happens only to a record its writer knows, and never after an ownership error. */
  lemma ActWrites(store: Store, who: nat, r: Runtime, action: Action)
    requires LocalInv(r) && SharedInv(store, r) && WritesKnown(store)
    ensures var store' := Act(store, who, r, action).0;
            && WritesKnown(store')
            && WrittenBy(store.writes, store'.writes, who)
            && (r.failed ==> store'.writes == store.writes)
  {
    match action
    case FlushFinalize(reply) =>
      if r.pc.Flushing? {
        FinalizeCallWrites(store, who, r, r.owner.value, r.pc.acquired, r.pending.value.record, reply);
      }
    case Finalize(record, _, reply, _) =>
      if r.owner.Some? && r.resolved {
        FinalizeCallWrites(store, who, r, r.owner.value, [], record, reply);
      }
    case _ => OtherActsDoNotWrite(store, who, r, action);
  }

  // ---------- whole runs ----------

  lemma InitialInv(s: System)
    requires Initial(s)
    ensures Inv(s)
  {
  }

  lemma StepKeepsInv(s: System, op: Op)
    requires Inv(s)
    ensures Inv(Step(s, op))
  {
    match op
    case Expire(_) =>
    case Strand(_) =>
    case CancelOwner(who) =>
    case By(who, action) =>
      if who < |s.runtimes| {
        ActKeeps(s.store, who, s.runtimes[who], action);
        ActWrites(s.store, who, s.runtimes[who], action);
      }
  }

  lemma {:induction false} RunKeepsInv(s: System, ops: seq<Op>)
    requires Inv(s)
    ensures Inv(Run(s, ops))
    decreases |ops|
  {
    if ops != [] {
      StepKeepsInv(s, ops[0]);
      RunKeepsInv(Step(s, ops[0]), ops[1..]);
    }
  }

  // ---------- what a writer had read ----------

  predicate LastBy(writes: seq<Write>, who: nat) {
    writes != [] && writes[|writes| - 1].writer == who
  }

  /** An owner that has read the key still knows the store's record, unless the latest write is its own. */
  predicate UpToDate(store: Store, who: nat, r: Runtime) {
    HoldsKey(store, r) && r.resolved ==> r.version == Read(store.record) || LastBy(store.writes, who)
  }

  /** The record replaced was the one its writer had last read, or the writer's own latest write. */
  predicate ReadOrOwn(writes: seq<Write>, k: nat)
    requires k < |writes|
  {
    writes[k].version == Read(writes[k].replaced) || (k > 0 && writes[k - 1].writer == writes[k].writer)
  }

  predicate AllReadOrOwn(writes: seq<Write>) {
    forall k | 0 <= k < |writes| :: ReadOrOwn(writes, k)
  }

  lemma SavedIsReadOrOwn(store: Store, who: nat, r: Runtime, record: Record)
    requires AllReadOrOwn(store.writes) && (r.version == Read(store.record) || LastBy(store.writes, who))
    ensures AllReadOrOwn(Save(store, who, r, record).writes)
  {
    var writes := Save(store, who, r, record).writes;
    forall k | 0 <= k < |writes| ensures ReadOrOwn(writes, k) {
      if k < |store.writes| {
        assert ReadOrOwn(store.writes, k);
      }
    }
  }

  lemma FinalizeUpToDate(store: Store, who: nat, r: Runtime, acquired: seq<Lease>, record: Record, reply: Reply)
    requires r.owner.Some? && r.resolved && UpToDate(store, who, r) && AllReadOrOwn(store.writes)
    ensures var (store', outcome) := FinalizeCall(store, who, r, r.owner.value, acquired, record, reply);
            && UpToDate(store', who, Settle(r, store', outcome, record)) && AllReadOrOwn(store'.writes)
            && (store'.writes != store.writes ==> HoldsKey(store, r))
  {
    if Current(store, r.owner.value, acquired) {
      SavedIsReadOrOwn(store, who, r, record);
    }
  }

  /** The act keeps its own runtime up to date, and writes only under the key. */
  predicate StaysUpToDate(store: Store, who: nat, r: Runtime, store': Store, r': Runtime) {
    && UpToDate(store', who, r') && AllReadOrOwn(store'.writes)
    && (store'.writes != store.writes ==> HoldsKey(store, r))
  }

  lemma WritesStayUpToDate(store: Store, who: nat, r: Runtime, action: Action)
    requires LocalInv(r) && UpToDate(store, who, r) && AllReadOrOwn(store.writes)
    requires action.FlushFinalize? || action.Finalize?
    ensures var (store', r') := Act(store, who, r, action); StaysUpToDate(store, who, r, store', r')
  {
    match action
    case FlushFinalize(reply) =>
      if r.pc.Flushing? {
        FinalizeUpToDate(store, who, r, r.pc.acquired, r.pending.value.record, reply);
      }
    case Finalize(record, _, reply, _) =>
      if r.owner.Some? && r.resolved {
        FinalizeUpToDate(store, who, r, [], record, reply);
      }
  }

  /** Acts that neither read nor write the record leave the owner, or drop it; none hands the key to an owner. */
  lemma OtherActsKeepOwner(store: Store, who: nat, r: Runtime, action: Action)
    requires LocalInv(r) && !action.FlushFinalize? && !action.Finalize? && !action.Resolve? && !action.Validate?
    ensures var (store', r') := Act(store, who, r, action); HoldsKey(store', r') ==> HoldsKey(store, r)
  {
    match action
    case _ =>
  }

  lemma ReadsStayUpToDate(store: Store, who: nat, r: Runtime, action: Action)
    requires LocalInv(r) && UpToDate(store, who, r)
    requires action.Resolve? || action.Validate?
    ensures UpToDate(store, who, Act(store, who, r, action).1)
  {
    match action
    case Resolve =>
    case Validate(readable) =>
      if r.pc.Acquired? {
        var r' := ValidatePending(r, store, r.pc.token, r.pc.purpose, readable);
        assert r'.owner.Some? && r'.resolved ==> r'.version == Read(store.record);
      }
  }

  lemma ActStaysUpToDate(store: Store, who: nat, r: Runtime, action: Action)
    requires LocalInv(r) && UpToDate(store, who, r) && AllReadOrOwn(store.writes)
    ensures var (store', r') := Act(store, who, r, action); StaysUpToDate(store, who, r, store', r')
  {
    if action.FlushFinalize? || action.Finalize? {
      WritesStayUpToDate(store, who, r, action);
    } else {
      OtherActsDoNotWrite(store, who, r, action);
      if action.Resolve? || action.Validate? {
        ReadsStayUpToDate(store, who, r, action);
      } else {
        OtherActsKeepMemory(store, who, r, action);
        OtherActsKeepOwner(store, who, r, action);
      }
    }
  }

  predicate AllUpToDate(s: System) {
    AllReadOrOwn(s.store.writes) && forall i | 0 <= i < |s.runtimes| :: UpToDate(s.store, i, s.runtimes[i])
  }

  /** Nobody else writes while a runtime holds the key. */
  lemma BystanderStaysUpToDate(s: System, who: nat, action: Action, other: nat)
    requires Inv(s) && AllUpToDate(s) && who < |s.runtimes| && other < |s.runtimes| && other != who
    ensures UpToDate(Act(s.store, who, s.runtimes[who], action).0, other, s.runtimes[other])
  {
    var store, r, bystander := s.store, s.runtimes[who], s.runtimes[other];
    var (store', r') := Act(store, who, r, action);
    ActKeeps(store, who, r, action);
    ActStaysUpToDate(store, who, r, action);
    WritesMoveTheRecord(store, who, r, action);
    if HoldsKey(store', bystander) {
      assert SharedInv(store, bystander) && LocalInv(bystander);
      assert HoldsKey(store, bystander);
      assert KeyToken(bystander) == bystander.owner;
      assert !HoldsKey(store, r);
    }
  }

  lemma StepStaysUpToDate(s: System, op: Op)
    requires Inv(s) && AllUpToDate(s)
    ensures AllUpToDate(Step(s, op))
  {
    if op.By? && op.who < |s.runtimes| {
      ActStaysUpToDate(s.store, op.who, s.runtimes[op.who], op.action);
      forall i | 0 <= i < |s.runtimes| && i != op.who
        ensures UpToDate(Step(s, op).store, i, s.runtimes[i])
      {
        BystanderStaysUpToDate(s, op.who, op.action, i);
      }
    }
  }

  lemma {:induction false} RunStaysUpToDate(s: System, ops: seq<Op>)
    requires Inv(s) && AllUpToDate(s)
    ensures Inv(Run(s, ops)) && AllUpToDate(Run(s, ops))
    decreases |ops|
  {
    if ops != [] {
      StepKeepsInv(s, ops[0]);
      StepStaysUpToDate(s, ops[0]);
      RunStaysUpToDate(Step(s, ops[0]), ops[1..]);
    }
  }

  /**
    No lost update. Over every interleaving of every number of runtimes, each write replaces the record
    its writer had last read or the writer's own latest write; and a write that follows another runtime's
    write replaces exactly that runtime's record, which its writer had read.
  */
  lemma NoLostUpdate(s: System, ops: seq<Op>)
    requires Initial(s)
    ensures var writes := Run(s, ops).store.writes;
            && (forall k | 0 <= k < |writes| :: ReadOrOwn(writes, k))
            && (forall k | 0 <= k < |writes| - 1 && writes[k + 1].writer != writes[k].writer ::
                  && writes[k + 1].replaced == Some(writes[k].next)
                  && writes[k + 1].version == Read(Some(writes[k].next)))
  {
    InitialInv(s);
    RunStaysUpToDate(s, ops);
    var writes := Run(s, ops).store.writes;
    forall k | 0 <= k < |writes| - 1 && writes[k + 1].writer != writes[k].writer
      ensures writes[k + 1].replaced == Some(writes[k].next)
      ensures writes[k + 1].version == Read(Some(writes[k].next))
    {
      assert ReadOrOwn(writes, k + 1);
    }
  }

  predicate NoWriteBy(writes: seq<Write>, from: nat, who: nat) {
    forall k | from <= k < |writes| :: writes[k].writer != who
  }

  lemma StepAppendsWrites(s: System, op: Op)
    requires Inv(s)
    ensures |Step(s, op).runtimes| == |s.runtimes|
    ensures s.store.writes <= Step(s, op).store.writes
    ensures forall i | 0 <= i < |s.runtimes| && s.runtimes[i].failed ::
              Step(s, op).runtimes[i].failed && NoWriteBy(Step(s, op).store.writes, |s.store.writes|, i)
  {
    if op.By? && op.who < |s.runtimes| {
      ActKeeps(s.store, op.who, s.runtimes[op.who], op.action);
      ActWrites(s.store, op.who, s.runtimes[op.who], op.action);
    }
  }

  /**
    Once an ownership error is recorded, which a detected foreign advance does, the runtime keeps it
    and never writes the key again, whatever the others and the environment do.
  */
  lemma {:induction false} OwnershipErrorIsFinal(s: System, ops: seq<Op>, who: nat)
    requires Inv(s) && who < |s.runtimes| && s.runtimes[who].failed
    ensures who < |Run(s, ops).runtimes| && Run(s, ops).runtimes[who].failed
    ensures s.store.writes <= Run(s, ops).store.writes
    ensures NoWriteBy(Run(s, ops).store.writes, |s.store.writes|, who)
    decreases |ops|
  {
    if ops != [] {
      var next := Step(s, ops[0]);
      StepKeepsInv(s, ops[0]);
      StepAppendsWrites(s, ops[0]);
      OwnershipErrorIsFinal(next, ops[1..], who);
      var writes := Run(s, ops).store.writes;
      forall k | |s.store.writes| <= k < |writes|
        ensures writes[k].writer != who
      {
        if k < |next.store.writes| {
          assert writes[k] == next.store.writes[k];
        }
      }
    }
  }

  // ---------- what a rejected recovery means ----------

  predicate ForeignSince(writes: seq<Write>, from: nat, who: nat) {
    exists k :: from <= k < |writes| && writes[k].writer != who
  }

  /** Unless another runtime wrote since, the store holds what this runtime confirmed or submitted. */
  predicate TracksOwn(store: Store, who: nat, r: Runtime) {
    Tracked(store, who, r.version, r.submitted, r.confirmedAt)
  }

  predicate Tracked(store: Store, who: nat, version: Version, submitted: set<Record>, confirmedAt: nat) {
    && confirmedAt <= |store.writes|
    && (version.Read? ==> Known(store.record, version, submitted) || ForeignSince(store.writes, confirmedAt, who))
  }

  lemma ForeignSinceGrows(before: seq<Write>, after: seq<Write>, from: nat, who: nat)
    requires before <= after && ForeignSince(before, from, who)
    ensures ForeignSince(after, from, who)
  {
    var k :| from <= k < |before| && before[k].writer != who;
    assert after[k] == before[k];
  }

  lemma OtherActsKeepMemory(store: Store, who: nat, r: Runtime, action: Action)
    requires !action.FlushFinalize? && !action.Finalize? && !action.Resolve? && !action.Validate?
    ensures var r' := Act(store, who, r, action).1;
            SameMemory(r, r')
  {
    match action
    case _ =>
  }

  lemma SettleTracksOwn(store: Store, store': Store, who: nat, r: Runtime, outcome: Outcome, record: Record)
    requires TracksOwn(store, who, r) && store.writes <= store'.writes
    requires store' == store || (store'.record == Some(record) && !outcome.Lost?)
    ensures TracksOwn(store', who, Settle(r, store', outcome, record))
  {
    if outcome.Broken? && ForeignSince(store.writes, r.confirmedAt, who) {
      ForeignSinceGrows(store.writes, store'.writes, r.confirmedAt, who);
    }
  }

  lemma FinalizeTracksOwn(store: Store, who: nat, r: Runtime, token: nat, acquired: seq<Lease>, record: Record, reply: Reply)
    requires TracksOwn(store, who, r)
    ensures var (store', outcome) := FinalizeCall(store, who, r, token, acquired, record, reply);
            TracksOwn(store', who, Settle(r, store', outcome, record))
  {
    var (store', outcome) := FinalizeCall(store, who, r, token, acquired, record, reply);
    SettleTracksOwn(store, store', who, r, outcome, record);
  }

  lemma WritePendingTracksOwn(store: Store, who: nat, r: Runtime, reply: Reply)
    requires TracksOwn(store, who, r)
    ensures var (store', r') := WritePending(store, who, r, reply); TracksOwn(store', who, r')
  {
    if r.pc.Flushing? && r.pc.todo == [] && r.owner.Some? && r.pending.Some? {
      FinalizeTracksOwn(store, who, r, r.owner.value, r.pc.acquired, r.pending.value.record, reply);
    }
  }

  lemma WriteDirectTracksOwn(store: Store, who: nat, r: Runtime, record: Record, targets: seq<nat>, reply: Reply, giveUp: bool)
    requires TracksOwn(store, who, r)
    ensures var (store', r') := WriteDirect(store, who, r, record, targets, reply, giveUp); TracksOwn(store', who, r')
  {
    if r.owner.Some? {
      FinalizeTracksOwn(store, who, r, r.owner.value, [], record, reply);
    }
  }

  lemma ValidateTracksOwn(store: Store, who: nat, r: Runtime, readable: bool)
    requires TracksOwn(store, who, r) && r.pc.Acquired?
    ensures TracksOwn(store, who, ValidatePending(r, store, r.pc.token, r.pc.purpose, readable))
  {
    var r' := ValidatePending(r, store, r.pc.token, r.pc.purpose, readable);
    if readable && r.needsValidation && r.pending.Some? && store.record == Some(r.pending.value.record) {
      assert r'.version == Read(store.record) && r'.confirmedAt == |store.writes|;
    } else {
      assert r'.version == r.version && r'.submitted == r.submitted && r'.confirmedAt == r.confirmedAt;
    }
  }

  lemma ActTracksOwn(store: Store, who: nat, r: Runtime, action: Action)
    requires TracksOwn(store, who, r)
    ensures var (store', r') := Act(store, who, r, action); TracksOwn(store', who, r')
  {
    match action
    case FlushFinalize(reply) => WritePendingTracksOwn(store, who, r, reply);
    case Finalize(record, targets, reply, giveUp) =>
      WriteDirectTracksOwn(store, who, r, record, targets, reply, giveUp);
    case Validate(readable) => if r.pc.Acquired? { ValidateTracksOwn(store, who, r, readable); }
    case Resolve =>
    case _ =>
      OtherActsDoNotWrite(store, who, r, action);
      OtherActsKeepMemory(store, who, r, action);
  }

  predicate AllTrackOwn(s: System) {
    forall i | 0 <= i < |s.runtimes| :: TracksOwn(s.store, i, s.runtimes[i])
  }

  lemma ForeignWriteTracked(before: Store, after: Store, who: nat, other: nat, r: Runtime)
    requires TracksOwn(before, who, r) && who != other
    requires WrittenBy(before.writes, after.writes, other)
    requires after.writes == before.writes ==> after.record == before.record
    ensures TracksOwn(after, who, r)
  {
    if |after.writes| > |before.writes| {
      assert after.writes[|before.writes|].writer != who;
    }
  }

  lemma StepTracksOwn(s: System, op: Op)
    requires Inv(s) && AllTrackOwn(s)
    ensures AllTrackOwn(Step(s, op))
  {
    if op.By? && op.who < |s.runtimes| {
      var r := s.runtimes[op.who];
      var store' := Act(s.store, op.who, r, op.action).0;
      ActTracksOwn(s.store, op.who, r, op.action);
      ActWrites(s.store, op.who, r, op.action);
      WritesMoveTheRecord(s.store, op.who, r, op.action);
      forall i | 0 <= i < |s.runtimes| && i != op.who
        ensures TracksOwn(store', i, s.runtimes[i])
      {
        ForeignWriteTracked(s.store, store', i, op.who, s.runtimes[i]);
      }
    }
  }

  lemma WritesMoveTheRecord(store: Store, who: nat, r: Runtime, action: Action)
    ensures var store' := Act(store, who, r, action).0;
            store'.writes == store.writes ==> store'.record == store.record
  {
    if !action.FlushFinalize? && !action.Finalize? {
      OtherActsDoNotWrite(store, who, r, action);
    }
  }

  lemma {:induction false} RunTracksOwn(s: System, ops: seq<Op>)
    requires Inv(s) && AllTrackOwn(s)
    ensures Inv(Run(s, ops)) && AllTrackOwn(Run(s, ops))
    decreases |ops|
  {
    if ops != [] {
      StepKeepsInv(s, ops[0]);
      StepTracksOwn(s, ops[0]);
      RunTracksOwn(Step(s, ops[0]), ops[1..]);
    }
  }

  /** The guard under which recovery reports that the durable Thread advanced without it. */
  predicate Rejects(store: Store, r: Runtime) {
    && r.needsValidation && r.pending.Some?
    && store.record != Some(r.pending.value.record) && Read(store.record) != r.version
  }

  /** The store still holds an earlier checkpoint of this runtime, whose write took effect but was reported as failed. */
  predicate Superseded(store: Store, r: Runtime) {
    r.pending.Some? && store.record.Some? && store.record.value in r.submitted
    && store.record.value != r.pending.value.record
  }

  lemma ValidateRejects(store: Store, who: nat, r: Runtime)
    requires LocalInv(r) && TracksOwn(store, who, r) && ReadsBeforePending(r) && r.pc.Acquired?
    ensures ValidatePending(r, store, r.pc.token, r.pc.purpose, true).failed <==> Rejects(store, r)
    ensures Rejects(store, r) ==> ForeignSince(store.writes, r.confirmedAt, who) || Superseded(store, r)
  {
  }

  /**
    After any run, a recovery that read the key records the ownership error exactly when Rejects
    holds; and then either another runtime wrote since this one last confirmed the key, or the record
    is this runtime's own superseded checkpoint.
  */
  lemma RejectionExplained(s: System, ops: seq<Op>, who: nat)
    requires Initial(s) && who < |Run(s, ops).runtimes|
    requires Run(s, ops).runtimes[who].pc.Acquired?
    ensures var s' := Run(s, ops); var r := s'.runtimes[who];
            && (Act(s'.store, who, r, Validate(true)).1.failed <==> Rejects(s'.store, r))
            && (Rejects(s'.store, r) ==>
                  ForeignSince(s'.store.writes, r.confirmedAt, who) || Superseded(s'.store, r))
  {
    InitialInv(s);
    RunTracksOwn(s, ops);
    RunKeepsReadVersion(s, ops);
    var s' := Run(s, ops);
    ValidateRejects(s'.store, who, s'.runtimes[who]);
  }

  /** A checkpoint is only ever retained after the key was read. */
  predicate ReadsBeforePending(r: Runtime) {
    (r.pending.Some? || r.resolved) ==> r.version.Read?
  }

  lemma WritesKeepReadVersion(store: Store, who: nat, r: Runtime, reply: Reply, record: Record, targets: seq<nat>, giveUp: bool)
    requires ReadsBeforePending(r)
    ensures ReadsBeforePending(WritePending(store, who, r, reply).1)
    ensures ReadsBeforePending(WriteDirect(store, who, r, record, targets, reply, giveUp).1)
  {
  }

  lemma ActKeepsReadVersion(store: Store, who: nat, r: Runtime, action: Action)
    requires ReadsBeforePending(r)
    ensures ReadsBeforePending(Act(store, who, r, action).1)
  {
    match action
    case FlushFinalize(reply) => WritesKeepReadVersion(store, who, r, reply, Record(0, 0), [], false);
    case Finalize(record, targets, reply, giveUp) => WritesKeepReadVersion(store, who, r, reply, record, targets, giveUp);
    case Validate(_) =>
    case Resolve =>
    case _ => OtherActsKeepMemory(store, who, r, action);
  }

  lemma {:induction false} RunKeepsReadVersion(s: System, ops: seq<Op>)
    requires forall i | 0 <= i < |s.runtimes| :: ReadsBeforePending(s.runtimes[i])
    ensures forall i | 0 <= i < |Run(s, ops).runtimes| :: ReadsBeforePending(Run(s, ops).runtimes[i])
    decreases |ops|
  {
    if ops != [] {
      if ops[0].By? && ops[0].who < |s.runtimes| {
        ActKeepsReadVersion(s.store, ops[0].who, s.runtimes[ops[0].who], ops[0].action);
      }
      RunKeepsReadVersion(Step(s, ops[0]), ops[1..]);
    }
  }

  lemma {:induction false} RunConcat(s: System, first: seq<Op>, second: seq<Op>)
    ensures Run(s, first + second) == Run(Run(s, first), second)
    decreases |first|
  {
    if first == [] {
      assert first + second == second;
    } else {
      assert (first + second)[1..] == first[1..] + second;
      RunConcat(Step(s, first[0]), first[1..], second);
    }
  }

  // A standby whose first checkpoint took effect although the store reported a failure.

  const OLDER := Record(0, 1)
  const NEWER := Record(0, 2)
  const RUNNING := FRESH_RUNTIME.(owner := Some(0), standby := true, executing := true, resolved := true, version := Read(None))
  const RETAINING := RUNNING.(submitted := {OLDER}, pending := Some(Checkpoint(NEWER, [])))
  const RELEASED := RETAINING.(owner := None, standby := false, executing := false, resolved := false, cancelled := true, needsValidation := true)
  const WRITTEN := [Write(0, None, OLDER, Read(None), {})]

  function Solo(store: Store, r: Runtime): System { System(store, [r]) }

  function Do(s: System, action: Action): System { Step(s, By(0, action)) }

  lemma RunOfTwo(s: System, a: Action, b: Action)
    ensures Run(s, [By(0, a), By(0, b)]) == Do(Do(s, a), b)
  {
    RunConcat(s, [By(0, a)], [By(0, b)]);
    assert [By(0, a)] + [By(0, b)] == [By(0, a), By(0, b)];
    assert Run(s, [By(0, a)]) == Run(Do(s, a), []) && Run(Do(s, a), [By(0, b)]) == Run(Do(Do(s, a), b), []);
  }

  lemma StandbyStarts()
    ensures var s := Solo(Store(None, map[], 0, []), FRESH_RUNTIME);
            var s' := Do(Do(s, Acquire(ForStandby)), Validate(true));
            s' == Solo(Store(None, map[ThreadKey := 0], 1, []), FRESH_RUNTIME.(owner := Some(0), standby := true))
  {
    var s1 := Do(Solo(Store(None, map[], 0, []), FRESH_RUNTIME), Acquire(ForStandby));
    assert s1 == Solo(Store(None, map[ThreadKey := 0], 1, []), FRESH_RUNTIME.(pc := Acquired(0, ForStandby)));
  }

  lemma ExecutionBegins()
    ensures var s := Solo(Store(None, map[ThreadKey := 0], 1, []), FRESH_RUNTIME.(owner := Some(0), standby := true));
            Do(Do(Do(s, Acquire(ForBegin)), Renew(true, false)), Resolve) == Solo(s.store, RUNNING)
  {
    var s := Solo(Store(None, map[ThreadKey := 0], 1, []), FRESH_RUNTIME.(owner := Some(0), standby := true));
    assert Do(s, Acquire(ForBegin)) == Solo(s.store, s.runtimes[0].(executing := true, pc := Renewing));
  }

  lemma CheckpointsAreRetained()
    ensures var s := Solo(Store(None, map[ThreadKey := 0], 1, []), RUNNING);
            Do(Do(s, Finalize(OLDER, [], FailedAfterApply, false)), Finalize(NEWER, [], Success, false))
            == Solo(Store(Some(OLDER), map[ThreadKey := 0], 1, WRITTEN), RETAINING)
  {
    var s1 := Do(Solo(Store(None, map[ThreadKey := 0], 1, []), RUNNING), Finalize(OLDER, [], FailedAfterApply, false));
    assert s1.store.writes == WRITTEN;
    assert s1.runtimes[0].submitted == {OLDER};
    assert s1.store == Store(Some(OLDER), map[ThreadKey := 0], 1, WRITTEN);
    assert s1.runtimes[0] == RETAINING.(pending := Some(Checkpoint(OLDER, [])));
    assert s1 == Solo(Store(Some(OLDER), map[ThreadKey := 0], 1, WRITTEN), RETAINING.(pending := Some(Checkpoint(OLDER, []))));
  }

  lemma StandbyReleases()
    ensures var s := Solo(Store(Some(OLDER), map[ThreadKey := 0], 1, WRITTEN), RETAINING);
            Do(Do(Do(s, End(false)), EndStandby), Release(true)) == Solo(Store(Some(OLDER), map[], 1, WRITTEN), RELEASED)
  {
    var s := Solo(Store(Some(OLDER), map[ThreadKey := 0], 1, WRITTEN), RETAINING);
    assert Do(Do(s, End(false)), EndStandby) == Solo(s.store, RETAINING.(executing := false, standby := false, pc := Releasing));
    assert Drop(s.store, ThreadKey, 0).leases == map[];
  }

  lemma RecoveryFails()
    ensures var s := Do(Do(Solo(Store(Some(OLDER), map[], 1, WRITTEN), RELEASED), Acquire(ForRecovery)), Validate(true));
            s.runtimes[0].failed && s.store.writes == WRITTEN
  {
  }

  /**
    The report can therefore be wrong about the cause: with no other runtime at all, a standby that
    retained a newer checkpoint rejects its own recovery after it released the key.
  */
  lemma RecoveryRejectsOwnCheckpoint() returns (s: System, ops: seq<Op>)
    ensures Initial(s) && |s.runtimes| == 1
    ensures |Run(s, ops).runtimes| == 1 && Run(s, ops).runtimes[0].failed
    ensures forall w | w in Run(s, ops).store.writes :: w.writer == 0
  {
    s := Solo(Store(None, map[], 0, []), FRESH_RUNTIME);
    var start := [By(0, Acquire(ForStandby)), By(0, Validate(true))];
    var begin := [By(0, Acquire(ForBegin)), By(0, Renew(true, false))];
    var first := [By(0, Resolve), By(0, Finalize(OLDER, [], FailedAfterApply, false))];
    var second := [By(0, Finalize(NEWER, [], Success, false)), By(0, End(false))];
    var shutdown := [By(0, EndStandby), By(0, Release(true))];
    var recovery := [By(0, Acquire(ForRecovery)), By(0, Validate(true))];
    var s1 := Run(s, start);
    RunOfTwo(s, Acquire(ForStandby), Validate(true));
    StandbyStarts();
    var s2 := Run(s1, begin);
    RunOfTwo(s1, Acquire(ForBegin), Renew(true, false));
    ExecutionBegins();
    var s3 := Run(s2, first);
    RunOfTwo(s2, Resolve, Finalize(OLDER, [], FailedAfterApply, false));
    CheckpointsAreRetained();
    var s4 := Run(s3, second);
    RunOfTwo(s3, Finalize(NEWER, [], Success, false), End(false));
    var s5 := Run(s4, shutdown);
    RunOfTwo(s4, EndStandby, Release(true));
    StandbyReleases();
    var s6 := Run(s5, recovery);
    RunOfTwo(s5, Acquire(ForRecovery), Validate(true));
    RecoveryFails();
    RunConcat(s, start, begin);
    RunConcat(s, start + begin, first);
    RunConcat(s, start + begin + first, second);
    RunConcat(s, start + begin + first + second, shutdown);
    RunConcat(s, start + begin + first + second + shutdown, recovery);
    ops := start + begin + first + second + shutdown + recovery;
    assert Run(s, ops) == s6;
  }
}
