/**
 The conditions of an Application over all runs of the controller: what a persisted Ready=True
 promises (internal/controller/application_controller.go, internal/controller/status/manager.go,
 internal/controller/storagestatus/storagestatus.go).

 One worker serves the Application. Users edit its spec at any time, reads may come from an old
 cache, writes may conflict, and a pass may be given up at any point.
 */
module Conditions {
  import opened Api
  import opened StatusManager

  /**
   `Starting`: SetReconciling has been called; `noChange` if it changed no condition of the copy just read.
   `Closing`: the last status write of the pass.
   */
  datatype Phase = Idle | Starting(noChange: bool) | Working | Closing(ready: bool)

  /**
   `past` holds every version the server has had, `mem` the pass's copy, and `target` what reconcileStorage
   found when it looked at the spec: no storage, or the identity to provision.
   */
  datatype State = State(server: Body, past: seq<Body>, phase: Phase, mem: Body, target: Option<Option<Identity>>)

  function Wanted(spec: Option<StorageSpec>): Option<Identity> {
    if spec.None? then None else Some(SpecIdentity(spec.value))
  }

  /** The storage status names this identity. */
  predicate Names(storage: Option<StorageStatus>, id: Identity) { storage.Some? && StatusIdentity(storage.value) == id }

  datatype Action =
    | Edit(spec: Option<StorageSpec>)
    | Begin(read: Body, message: string, now: nat)
    | Skip                                            // SetReconciling changes nothing
    | PersistWhole                                    // UpdateStatus, first attempt
    | PersistMerged                                   // UpdateStatus, after a conflict
    | Look                                            // reconcileStorage looks at the spec
    | SetStorage(storage: Option<StorageStatus>, ready: Option<Condition>)
    | WriteStorage                                    // retryStatusUpdate goes through
    | Reread(read: Body, gaveUp: bool)                // retryStatusUpdate meets a conflict
    | CloseReady(message: string, now: nat)
    | CloseFailed(reason: string, error: string, now: nat)
    | CloseWaiting(reason: string, now: nat)
    | Abandon

  /** Some kind's condition is taken out of the list. */
  function Removed(cs: seq<Condition>, kind: Kind): seq<Condition> {
    if cs == [] then [] else (if cs[0].kind == kind then [] else [cs[0]]) + Removed(cs[1..], kind)
  }

  function StorageConditions(cs: seq<Condition>, ready: Option<Condition>): seq<Condition> {
    match ready
    case None => Removed(cs, StorageReady)
    case Some(c) => SetCondition(cs, c.(kind := StorageReady), c.since)
  }

  function WithConditions(b: Body, cs: seq<Condition>): Body { b.(status := b.status.(conditions := cs)) }

  predicate Enabled(s: State, a: Action) {
    match a
    case Edit(_) => true
    case Begin(read, _, _) => s.phase.Idle? && read in s.past
    case Skip => s.phase.Starting? && s.phase.noChange
    case PersistWhole => ((s.phase.Starting? && !s.phase.noChange) || s.phase.Closing?)
        && s.mem.(status := s.server.status) == s.server
    case PersistMerged => (s.phase.Starting? && !s.phase.noChange) || s.phase.Closing?
    case Look => s.phase.Working? && s.target.None?
    case SetStorage(_, _) => s.phase.Working?
    case WriteStorage => s.phase.Working? && s.mem.(status := s.server.status) == s.server
    case Reread(read, _) => s.phase.Working? && read in s.past
    case CloseReady(_, _) => s.phase.Working? && s.target.Some?
        && (s.target.value.Some? ==> Provisioned(s, s.target.value.value))
    case CloseFailed(_, _, _) => s.phase.Working?
    case CloseWaiting(_, _) => s.phase.Working?
    case Abandon => true
  }

  /**
   What success of storage reconciliation leaves behind: StorageReady, and a persisted storage status that names the
   identity looked up, or the one in memory now.
   */
  predicate Provisioned(s: State, target: Identity) {
    && Is(s.mem.status.conditions, StorageReady, True) && s.server.status.storage == s.mem.status.storage
    && (|| Names(s.mem.status.storage, target)
        || (s.mem.spec.Some? && Names(s.mem.status.storage, SpecIdentity(s.mem.spec.value))))
  }

  function Served(s: State, b: Body): State { s.(server := b, past := s.past + [b]) }

  function Persisted(s: State): State { s.(phase := if s.phase.Starting? then Working else Idle, target := None) }

  function Next(s: State, a: Action): State {
    var cs, g := s.mem.status.conditions, s.mem.generation;
    match a
    case Edit(spec) => Served(s, s.server.(spec := spec, generation := s.server.generation + 1))
    case Begin(read, message, now) =>
      var conditions := ReconcilingConditions(read.status.conditions, read.generation, message, now);
      s.(phase := Starting(conditions == read.status.conditions), target := None,
          mem := WithConditions(read, conditions))
    case Skip => Persisted(s)
    case PersistWhole =>
      var written := s.mem.(status := s.mem.status.(observedGeneration := g));
      Persisted(Served(s, written).(mem := written))
    case PersistMerged =>
      var written := Merged(s.server, cs, g);
      Persisted(Served(s, written).(mem := written))
    case Look => s.(target := Some(Wanted(s.mem.spec)))
    case SetStorage(storage, ready) =>
      s.(mem := s.mem.(status := s.mem.status.(storage := storage, conditions := StorageConditions(cs, ready))))
    case WriteStorage => Served(s, s.mem)
    case Reread(read, gaveUp) => s.(mem := if gaveUp then read else read.(status := s.mem.status))
    case CloseReady(message, now) =>
      s.(phase := Closing(true), mem := WithConditions(s.mem, ReadyConditions(cs, g, message, now)))
    case CloseFailed(reason, error, now) =>
      s.(phase := Closing(false), mem := WithConditions(s.mem, FailedConditions(cs, g, reason, error, now)))
    case CloseWaiting(reason, now) =>
      s.(phase := Closing(false), mem := WithConditions(s.mem, ReconcilingConditions(cs, g, reason, now)))
    case Abandon => s.(phase := Idle)
  }

  // ---------- the invariant ----------

  /** What a persisted Ready=True promises. */
  predicate Honest(b: Body) {
    var cs := b.status.conditions;
    Is(cs, Ready, True) ==>
      && Is(cs, Progressing, False) && Is(cs, Degraded, False)
      && (b.status.observedGeneration == b.generation && b.spec.Some? ==>
            Is(cs, StorageReady, True) && Names(b.status.storage, SpecIdentity(b.spec.value)))
  }

  /** A body the server may have had, or a copy of one. */
  predicate Sane(b: Body, server: Body) {
    && OnePerKind(b.status.conditions)
    && b.status.observedGeneration <= server.generation
    && b.generation <= server.generation
    && (b.generation == server.generation ==> b.spec == server.spec)
  }

  predicate MemOk(s: State) {
    match s.phase
    case Idle => true
    case Starting(_) => !Is(s.mem.status.conditions, Ready, True)
    case Working => !Is(s.mem.status.conditions, Ready, True)
        && (s.target.Some? && s.mem.spec.Some? ==> s.target.value == Wanted(s.mem.spec))
    case Closing(ready) =>
      if ready then
        && Is(s.mem.status.conditions, Progressing, False) && Is(s.mem.status.conditions, Degraded, False)
        && (s.mem.spec.Some? ==>
              && Is(s.mem.status.conditions, StorageReady, True) && s.server.status.storage == s.mem.status.storage
              && Names(s.mem.status.storage, SpecIdentity(s.mem.spec.value)))
      else !Is(s.mem.status.conditions, Ready, True)
  }

  ghost predicate Inv(s: State) {
    && (forall b <- s.past :: Sane(b, s.server))
    && s.server in s.past && Honest(s.server)
    && (!s.phase.Idle? ==> Sane(s.mem, s.server))
    && MemOk(s)
  }

  /**
   What a reread must not bring: a storage spec other than the one reconcileStorage found, or, when the retries
   have given up and the status read replaces the wanted one, a Ready=True from before the pass.
   */
  predicate Steady(s: State, a: Action) {
    a.Reread? ==>
      && !(s.target.Some? && a.read.spec.Some? && s.target.value != Wanted(a.read.spec))
      && !(a.gaveUp && Is(a.read.status.conditions, Ready, True))
  }

  lemma {:induction false} RemovedFacts(cs: seq<Condition>, kind: Kind, other: Kind)
    requires OnePerKind(cs)
    ensures OnePerKind(Removed(cs, kind))
    ensures other != kind ==> Find(Removed(cs, kind), other) == Find(cs, other)
    ensures Find(Removed(cs, kind), kind).None?
  {
    if cs != [] {
      RemovedFacts(cs[1..], kind, other);
      RemovedFacts(cs[1..], kind, cs[0].kind);
      if cs[0].kind != kind {
        assert Removed(cs, kind) == [cs[0]] + Removed(cs[1..], kind);
        assert Removed(cs, kind)[1..] == Removed(cs[1..], kind);
      } else {
        assert Removed(cs, kind) == Removed(cs[1..], kind);
      }
    }
  }

  lemma StorageConditionsFacts(cs: seq<Condition>, ready: Option<Condition>)
    requires OnePerKind(cs)
    ensures var cs' := StorageConditions(cs, ready);
            OnePerKind(cs') && forall kind :: kind != StorageReady ==> Find(cs', kind) == Find(cs, kind)
  {
    forall kind | kind != StorageReady ensures Find(StorageConditions(cs, ready), kind) == Find(cs, kind) {
      RemovedFacts(cs, StorageReady, kind);
      if ready.Some? {
        SetConditionReads(cs, ready.value.(kind := StorageReady), ready.value.since, kind);
      }
    }
    RemovedFacts(cs, StorageReady, Ready);
    if ready.Some? {
      SetConditionReads(cs, ready.value.(kind := StorageReady), ready.value.since, Ready);
    }
  }

  /** The server takes a new version that is sane and honest. */
  lemma ServedKeeps(s: State, b: Body)
    requires forall p <- s.past :: Sane(p, s.server)
    requires b.generation > s.server.generation || (b.generation == s.server.generation && b.spec == s.server.spec)
    requires OnePerKind(b.status.conditions) && b.status.observedGeneration <= b.generation
    ensures var s' := Served(s, b); (forall p <- s'.past :: Sane(p, s'.server)) && s'.server in s'.past
  {
    forall p | p in s.past + [b] ensures Sane(p, b) {
      if p in s.past {
        assert Sane(p, s.server);
      }
    }
  }

  lemma SteadyStepKeepsInv(s: State, a: Action)
    requires Inv(s) && Enabled(s, a) && Steady(s, a)
    ensures Inv(Next(s, a))
  {
    var cs, g := s.mem.status.conditions, s.mem.generation;
    match a
    case Edit(spec) => ServedKeeps(s, s.server.(spec := spec, generation := s.server.generation + 1));
    case Begin(read, message, now) => ReconcilingFacts(read.status.conditions, read.generation, message, now);
    case PersistWhole => ServedKeeps(s, s.mem.(status := s.mem.status.(observedGeneration := g)));
    case PersistMerged => ServedKeeps(s, Merged(s.server, cs, g));
    case SetStorage(storage, ready) => StorageConditionsFacts(cs, ready);
    case WriteStorage => ServedKeeps(s, s.mem);
    case CloseReady(message, now) => ReadyFacts(cs, g, message, now);
    case CloseFailed(reason, error, now) => FailedFacts(cs, g, reason, error, now);
    case CloseWaiting(reason, now) => ReconcilingFacts(cs, g, reason, now);
    case _ =>
  }

  /** A step keeps the invariant exactly when it is not one of the two rereads. */
  lemma StepKeepsInvIff(s: State, a: Action)
    requires Inv(s) && Enabled(s, a)
    ensures Inv(Next(s, a)) <==> Steady(s, a)
  {
    if Steady(s, a) {
      SteadyStepKeepsInv(s, a);
    } else {
      UnsteadyRereadBreaksInv(s, a.read, a.gaveUp);
    }
  }

  lemma UnsteadyRereadBreaksInv(s: State, read: Body, gaveUp: bool)
    requires Enabled(s, Reread(read, gaveUp)) && !Steady(s, Reread(read, gaveUp))
    ensures !Inv(Next(s, Reread(read, gaveUp)))
  {
    assert !MemOk(Next(s, Reread(read, gaveUp)));
  }

  // ---------- runs ----------

  ghost predicate IsRun(states: seq<State>, actions: seq<Action>) {
    && |states| == |actions| + 1
    && forall k {:trigger Enabled(states[k], actions[k])} {:trigger Next(states[k], actions[k])} | 0 <= k < |actions| ::
         Enabled(states[k], actions[k]) && Next(states[k], actions[k]) == states[k + 1]
  }

  predicate Initial(s: State) {
    && s.phase.Idle? && s.past == [s.server] && s.server.status == AppStatus(None, [], 0)
  }

  /**
   Over all runs in which no reread brings one of the two things `Steady` names, every version the
   server ever holds is honest about Ready=True.
   */
  lemma {:induction false} ReadyIsHonest(states: seq<State>, actions: seq<Action>, n: nat)
    requires IsRun(states, actions) && n < |states| && Initial(states[0])
    requires forall k | 0 <= k < |actions| :: Steady(states[k], actions[k])
    ensures Inv(states[n]) && Honest(states[n].server)
  {
    if n > 0 {
      ReadyIsHonest(states, actions, n - 1);
      StepKeepsInvIff(states[n - 1], actions[n - 1]);
    }
  }

  predicate Settled(b: Body) {
    var cs := b.status.conditions;
    OnePerKind(cs) && (Is(cs, Ready, True) ==> Is(cs, Progressing, False) && Is(cs, Degraded, False))
  }

  ghost predicate AllSettled(s: State) {
    && (forall b <- s.past :: Settled(b))
    && Settled(s.server) && (!s.phase.Idle? ==> Settled(s.mem))
  }

  lemma StepKeepsSettled(s: State, a: Action)
    requires AllSettled(s) && Enabled(s, a)
    ensures AllSettled(Next(s, a))
  {
    var cs, g := s.mem.status.conditions, s.mem.generation;
    match a
    case Begin(read, message, now) => ReconcilingFacts(read.status.conditions, read.generation, message, now);
    case SetStorage(storage, ready) => StorageConditionsFacts(cs, ready);
    case CloseReady(message, now) => ReadyFacts(cs, g, message, now);
    case CloseFailed(reason, error, now) => FailedFacts(cs, g, reason, error, now);
    case CloseWaiting(reason, now) => ReconcilingFacts(cs, g, reason, now);
    case _ =>
  }

  /** Without any exception: over all runs, a persisted Ready=True comes with Progressing=False and Degraded=False. */
  lemma {:induction false} ReadyIsSettled(states: seq<State>, actions: seq<Action>, n: nat)
    requires IsRun(states, actions) && n < |states| && Initial(states[0])
    ensures AllSettled(states[n])
  {
    if n > 0 {
      ReadyIsSettled(states, actions, n - 1);
      StepKeepsSettled(states[n - 1], actions[n - 1]);
    }
  }

  /** A closing write over a spec whose bucket is not ready, or not the one recorded. */
  lemma UnprovisionedReadyIsDishonest(s: State)
    requires s.phase.Closing? && s.mem.spec.Some?
    requires Is(s.mem.status.conditions, Ready, True)
    requires !Is(s.mem.status.conditions, StorageReady, True)
        || !Names(s.mem.status.storage, SpecIdentity(s.mem.spec.value))
    ensures !Honest(Next(s, PersistWhole).server)
  {
  }

  /**
   The first exception is real, from every such state: the pass has found no storage spec and is clearing an
   old status; its write meets the user's edit and the reread brings the new spec. The pass then
   reports Ready for the new generation although nothing was provisioned.
   */
  lemma NewSpecMidPass(s: State, spec: StorageSpec, message: string, now: nat)
    requires Inv(s) && s.phase.Working? && s.target == Some(None)
        && !Is(s.mem.status.conditions, StorageReady, True)
    ensures var s1 := Next(s, Edit(Some(spec)));
            var s2 := Next(s1, Reread(s1.server, false));
            var s3 := Next(s2, WriteStorage);
            var s4 := Next(s3, CloseReady(message, now));
            && Enabled(s, Edit(Some(spec))) && Enabled(s1, Reread(s1.server, false)) && Enabled(s2, WriteStorage)
            && Enabled(s3, CloseReady(message, now)) && Enabled(s4, PersistWhole)
            && Inv(s1) && !Steady(s1, Reread(s1.server, false))
            && !Honest(Next(s4, PersistWhole).server)
  {
    StepKeepsInvIff(s, Edit(Some(spec)));
    var s1 := Next(s, Edit(Some(spec)));
    var s2 := Next(s1, Reread(s1.server, false));
    var s3 := Next(s2, WriteStorage);
    ReadyFacts(s3.mem.status.conditions, s3.mem.generation, message, now);
    UnprovisionedReadyIsDishonest(Next(s3, CloseReady(message, now)));
  }

  /**
   Likewise when the spec that the reread brings names another bucket than the one provisioned: Ready is reported for
   the new generation, while the status names the old bucket.
   */
  lemma OtherSpecMidPass(s: State, spec: StorageSpec, message: string, now: nat)
    requires Inv(s) && s.phase.Working? && s.target.Some? && s.target.value.Some?
        && Provisioned(s, s.target.value.value)
    requires Names(s.mem.status.storage, s.target.value.value) && SpecIdentity(spec) != s.target.value.value
    ensures var s1 := Next(s, Edit(Some(spec)));
            var s2 := Next(s1, Reread(s1.server, false));
            var s3 := Next(s2, WriteStorage);
            var s4 := Next(s3, CloseReady(message, now));
            && Enabled(s, Edit(Some(spec))) && Enabled(s1, Reread(s1.server, false)) && Enabled(s2, WriteStorage)
            && Enabled(s3, CloseReady(message, now)) && Enabled(s4, PersistWhole)
            && Inv(s1) && !Steady(s1, Reread(s1.server, false))
            && !Honest(Next(s4, PersistWhole).server)
  {
    StepKeepsInvIff(s, Edit(Some(spec)));
    var s1 := Next(s, Edit(Some(spec)));
    var s3 := Next(Next(s1, Reread(s1.server, false)), WriteStorage);
    ReadyFacts(s3.mem.status.conditions, s3.mem.generation, message, now);
    UnprovisionedReadyIsDishonest(Next(s3, CloseReady(message, now)));
  }

  /**
   So is the second: a status write that gives up leaves an old Ready=True in memory, and the next
   one persists it beside whatever StorageReady has become.
   */
  lemma OldReadyMidPass(s: State, earlier: Body, c: Condition)
    requires Inv(s) && s.phase.Working? && earlier in s.past && earlier.spec.Some?
        && Is(earlier.status.conditions, Ready, True)
    requires earlier.generation == s.server.generation == earlier.status.observedGeneration
    requires c.status == False
    ensures var s1 := Next(s, Reread(earlier, true));
            var s2 := Next(s1, SetStorage(earlier.status.storage, Some(c)));
            && Enabled(s, Reread(earlier, true)) && !Steady(s, Reread(earlier, true))
            && Enabled(s1, SetStorage(earlier.status.storage, Some(c))) && Enabled(s2, WriteStorage)
            && !Honest(Next(s2, WriteStorage).server)
  {
    StorageConditionsFacts(earlier.status.conditions, Some(c));
    SetConditionReads(earlier.status.conditions, c.(kind := StorageReady), c.since, Ready);
  }
}
