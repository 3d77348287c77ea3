/**
 What storage reconciliation and finalization keep over whole histories of an Application: no bucket
 is orphaned, creation survives failure, and the window in which an unmarked bucket may be claimed
 is never extended (internal/controller/storage.go, internal/controller/finalizer.go).
 */
module StorageRuns {
  import opened Api
  import opened Naming
  import opened Ownership
  import opened Storage

  /** In seconds, which is what the promises about the creation window are stated in. */
  const HOUR := 60 * 60

  // ---------- no orphan on identity change ----------

  ghost predicate Extends(w: World, w': World) {
    |w.log| <= |w'.log| && w'.log[..|w.log|] == w.log
  }

  /** The event numbered `k` of `w'` happened since `w`. */
  predicate Since(w: World, w': World, k: nat) { |w.log| <= k < |w'.log| }

  ghost predicate FinalizedSince(w: World, w': World, id: Identity, before: nat) {
    exists k: nat :: k < before && Since(w, w', k) && w'.log[k] == Finalized(id)
  }

  /** What a finalization may log: perhaps the removal of the bucket, and its own success last. */
  predicate FinalizeLog(events: seq<Event>, id: Identity, ok: bool) {
    var removed := [Removed(id.provider, id.bucket)];
    if ok then events == [Finalized(id)] || events == removed + [Finalized(id)] else events == [] || events == removed
  }

  function Added(w: World, w': World): seq<Event> { if |w.log| <= |w'.log| then w'.log[|w.log|..] else [] }

  /** From `r` to `d` only conditions, cloud and log may have changed. */
  ghost predicate OnlyCleans(r: Run, d: Done) {
    var w, w' := r.world, d.run.world;
    && w' == w.(status := w'.status, cloud := w'.cloud, log := w'.log)
    && d.run.mem.storage == r.mem.storage && w'.status.storage == w.status.storage
  }

  lemma AttemptFacts(r: Run, spec: StorageSpec, env: Env, o: Oracle)
    ensures var d := CleanupAttempted(r, spec, env, o);
            && OnlyCleans(r, d)
            && (d.run.world.log == r.world.log
                || d.run.world.log == r.world.log + [Removed(spec.provider, spec.bucket)])
  {
  }

  lemma ReportFacts(r: Run, d: Done, id: Identity, o: Oracle)
    requires r.world.status.storage == r.mem.storage && OnlyCleans(r, d)
    requires d.run.world.log == r.world.log || d.run.world.log == r.world.log + [Removed(id.provider, id.bucket)]
    ensures var d' := CleanupReported(d, id, o);
            OnlyCleans(r, d') && Extends(r.world, d'.run.world) && FinalizeLog(Added(r.world, d'.run.world), id, d'.ok)
  {
  }

  /** Finalization touches neither the recorded identity nor the creation log, and success is logged last. */
  lemma FinalizeFacts(r: Run, spec: StorageSpec, env: Env, o: Oracle)
    requires r.world.status.storage == r.mem.storage
    ensures var d := Finalize(r, Some(spec), env, o);
            && Extends(r.world, d.run.world) && FinalizeLog(Added(r.world, d.run.world), SpecIdentity(spec), d.ok)
            && OnlyCleans(r, d)
  {
    var r1 := Persist(MarkReady(r, IsFalse), o(NOTE_CLEANUP));
    AttemptFacts(r1, spec, env, o);
    ReportFacts(r1, CleanupAttempted(r1, spec, env, o), SpecIdentity(spec), o);
  }

  lemma PreviousFacts(r: Run, env: Env, o: Oracle)
    requires r.mem.storage.Some? && r.world.status.storage == r.mem.storage
    ensures var d := PreviousCleaned(r, r.mem.storage.value, env, o);
            var w, w', id := r.world, d.run.world, StatusIdentity(r.mem.storage.value);
            && Extends(w, w') && (FinalizeLog(Added(w, w'), id, true)
                || (!d.ok && FinalizeLog(Added(w, w'), id, false)))
            && w' == w.(status := w'.status, cloud := w'.cloud, log := w'.log)
            && (w'.status.storage == r.mem.storage || (w'.status.storage.None? && FinalizeLog(Added(w, w'), id, true)))
            && (d.run.mem.storage == r.mem.storage || (d.run.mem.storage.None? && FinalizeLog(Added(w, w'), id, true)))
            && (d.ok ==> d.run.mem == Status(None, Absent) && w'.status == Status(None, Absent))
  {
    FinalizeFacts(r, SpecFromStatus(r.mem.storage.value), env, o);
  }

  /** What a pass may persist once the status is empty or agrees with the spec. */
  predicate MayRecord(w: World, spec: StorageSpec, env: Env, before: Option<StorageStatus>,
      after: Option<StorageStatus>)
  {
    || after == before
    || (after.Some? && StatusIdentity(after.value) == SpecIdentity(spec))
    || (Find(w.cloud, SpecPlace(spec), env.defaultRegion) == Missing && after == Some(CreationRecord(spec, w.now)))
  }

  /** What provisioning may log: the creation of a missing bucket, then its first recording as ready. */
  predicate ProvisionLog(events: seq<Event>, w: World, spec: StorageSpec, env: Env) {
    && |events| <= 2
    && (forall k | 0 <= k < |events| && events[k].Created? ::
          Find(w.cloud, SpecPlace(spec), env.defaultRegion) == Missing
              && events[k] == Created(SpecIdentity(spec), spec.endpoint, w.now))
    && (forall k | 0 <= k < |events| :: events[k].Created? || events[k].FirstReady?)
  }

  /** How a bucket's creation shows in the log, in memory and in the persisted status. */
  ghost predicate EnsuredAs(r: Run, r': Run, spec: StorageSpec, env: Env) {
    var w, w' := r.world, r'.world;
    && w' == w.(status := w'.status, cloud := w'.cloud, log := w'.log)
    && (|| (w'.log == w.log && r'.mem == r.mem)
        || (&& Find(w.cloud, SpecPlace(spec), env.defaultRegion) == Missing
            && w'.log == w.log + [Created(SpecIdentity(spec), spec.endpoint, w.now)]
            && (r'.mem.storage == r.mem.storage || r'.mem == r.mem.(storage := Some(CreationRecord(spec, w.now))))))
    && (w'.status == w.status || w'.status == r'.mem)
  }

  lemma EnsuredFacts(r: Run, spec: StorageSpec, env: Env, o: Oracle)
    requires r.world.status.storage == r.mem.storage
    ensures EnsuredAs(r, BucketEnsured(r, spec, env, o).run, spec, env)
  {
  }

  lemma ReconciledFacts(r: Run, spec: StorageSpec, env: Env, o: Oracle)
    requires r.world.status.storage == r.mem.storage
    ensures EnsuredAs(r, BucketReconciled(r, spec, env, o).run, spec, env)
  {
    EnsuredFacts(r, spec, env, o);
  }

  /** What provisioning for `spec` may do to a run. */
  ghost predicate ProvisionedAs(r: Run, d: Done, spec: StorageSpec, env: Env) {
    var w, w' := r.world, d.run.world;
    && Extends(w, w') && ProvisionLog(Added(w, w'), w, spec, env)
    && w'.now == w.now && w'.spec == w.spec
    && MayRecord(w, spec, env, r.mem.storage, w'.status.storage)
    && MayRecord(w, spec, env, r.mem.storage, d.run.mem.storage)
    && (d.ok ==> w'.status == d.run.mem && d.run.mem.ready == IsTrue && StillNames(w', SpecIdentity(spec)))
  }

  lemma MarkedAs(r: Run, p: Run, spec: StorageSpec, env: Env, f: Fault)
    requires r.world.status.storage == r.mem.storage && EnsuredAs(r, p, spec, env)
    ensures ProvisionedAs(r, Done(p, false), spec, env)
    ensures ProvisionedAs(r, Done(Persist(MarkReady(p, IsFalse), f), false), spec, env)
  {
  }

  lemma RecordedAs(r: Run, p: Run, spec: StorageSpec, env: Env, o: Oracle)
    requires r.world.status.storage == r.mem.storage && EnsuredAs(r, p, spec, env)
    ensures ProvisionedAs(r, ReadyRecorded(p, spec, env, o), spec, env)
  {
  }

  lemma ProviderFacts(r: Run, spec: StorageSpec, env: Env, o: Oracle)
    requires r.world.status.storage == r.mem.storage
    ensures ProvisionedAs(r, ProviderReconciled(r, spec, env, o), spec, env)
  {
    var p := BucketReconciled(r, spec, env, o).run;
    ReconciledFacts(r, spec, env, o);
    MarkedAs(r, r, spec, env, o(NOTE_NOT_READY));
    MarkedAs(r, p, spec, env, o(NOTE_NOT_READY));
    RecordedAs(r, p, spec, env, o);
  }

  lemma SpecFacts(r: Run, spec: StorageSpec, env: Env, o: Oracle)
    requires r.world.status.storage == r.mem.storage
    ensures ProvisionedAs(r, SpecReconciled(r, spec, env, o), spec, env)
  {
    ProviderFacts(OwnershipIdEnsured(r, env, o(ASSIGN_ID)).run, spec, env, o);
  }

  ghost predicate StillNames(w: World, id: Identity) {
    w.status.storage.Some? && StatusIdentity(w.status.storage.value) == id
  }

  /** No bucket of another identity was created between `w` and `w'` unless `id` had been finalized before. */
  ghost predicate NothingCreatedFirst(w: World, w': World, id: Identity) {
    forall k: nat | Since(w, w', k) && w'.log[k].Created? && w'.log[k].identity != id :: FinalizedSince(w, w', id, k)
  }

  /**
   The bucket of this identity that the spec asks for is gone, and recording it anew would not give back the
   identity.
   */
  predicate Vanished(w: World, id: Identity) {
    && id.region != "" && w.spec.Some? && SpecIdentity(w.spec.value) == id
    && Find(w.cloud, SpecPlace(w.spec.value), id.region) == Missing
  }

  /** A finalization that succeeded precedes whatever is provisioned after it. */
  lemma FinalizedThenProvisioned(w: World, w1: World, w': World, id: Identity)
    requires Extends(w, w1) && Extends(w1, w') && FinalizeLog(Added(w, w1), id, true)
    ensures Extends(w, w') && FinalizedSince(w, w', id, |w1.log|) && NothingCreatedFirst(w, w', id)
  {
    assert w'.log[..|w.log|] == w'.log[..|w1.log|][..|w.log|];
    var n := |w1.log| - 1;
    assert w'.log[n] == w'.log[..|w1.log|][n] == Added(w, w1)[n - |w.log|] == Finalized(id);
    assert forall k: nat | |w.log| <= k < |w1.log| :: w'.log[k] == w'.log[..|w1.log|][k] == Added(w, w1)[k - |w.log|];
  }

  /** How one pass may move the recorded identity, and what it may create. */
  lemma PassStep(w: World, env: Env, o: Oracle, id: Identity)
    requires StillNames(w, id) && !Vanished(w, id)
    ensures var w' := Pass(w, env, o).run.world;
            && Extends(w, w') && NothingCreatedFirst(w, w', id)
            && (StillNames(w', id) || FinalizedSince(w, w', id, |w'.log|))
  {
    var r, w' := Run(w, w.status), Pass(w, env, o).run.world;
    if w.spec.None? || SpecIdentity(w.spec.value) != id {
      PreviousFacts(r, env, o);
      var d := PreviousCleaned(r, w.status.storage.value, env, o);
      if FinalizeLog(Added(w, d.run.world), id, true) {
        if w.spec.Some? && d.ok {
          SpecFacts(d.run, w.spec.value, env, o);
        }
        FinalizedThenProvisioned(w, d.run.world, w', id);
      }
    } else {
      SpecFacts(r, w.spec.value, env, o);
      assert forall k: nat | Since(w, w', k) :: w'.log[k] == Added(w, w')[k - |w.log|];
    }
  }

  /** What everybody else does between two passes: anything but writing this Application's status or log. */
  predicate Outside(w: World, w': World) {
    w'.status == w.status && w'.log == w.log && w'.now >= w.now
  }

  /** One pass, with the cluster, the configuration and the faults it meets; or what others do. */
  datatype Step = Worked(env: Env, oracle: Oracle) | Others

  predicate Follows(w: World, w': World, step: Step) {
    match step
    case Worked(env, o) => w' == Pass(w, env, o).run.world
    case Others => Outside(w, w')
  }

  /** A history of the Application while it lives: passes, and arbitrary edits of spec, annotations and cloud. */
  ghost predicate History(ws: seq<World>, steps: seq<Step>) {
    && ws != []
    && |steps| == |ws| - 1
    && forall k {:trigger Follows(ws[k], ws[k + 1], steps[k])} | 0 <= k < |steps| :: Follows(ws[k], ws[k + 1], steps[k])
  }

  lemma StepOf(ws: seq<World>, steps: seq<Step>, n: nat)
    requires History(ws, steps) && 0 < n < |ws|
    ensures Follows(ws[n - 1], ws[n], steps[n - 1])
  {
    var k := n - 1;
    assert Follows(ws[k], ws[k + 1], steps[k]);
  }

  lemma FinalizedLater(w0: World, w: World, w': World, id: Identity, n: nat)
    requires Extends(w0, w) && Extends(w, w')
    ensures Extends(w0, w')
    ensures FinalizedSince(w0, w, id, n) ==> FinalizedSince(w0, w', id, n)
    ensures FinalizedSince(w, w', id, n) ==> FinalizedSince(w0, w', id, n)
  {
    assert w'.log[..|w0.log|] == w'.log[..|w.log|][..|w0.log|];
    assert forall k: nat | k < |w.log| :: w'.log[k] == w'.log[..|w.log|][k];
  }

  lemma CreatedInTwoParts(w0: World, w: World, w': World, id: Identity)
    requires Extends(w0, w) && Extends(w, w')
    requires NothingCreatedFirst(w0, w, id)
    requires FinalizedSince(w0, w, id, |w.log|) || NothingCreatedFirst(w, w', id)
    ensures NothingCreatedFirst(w0, w', id)
  {
    forall k: nat | Since(w0, w', k) && w'.log[k].Created? && w'.log[k].identity != id
      ensures FinalizedSince(w0, w', id, k)
    {
      FinalizedLater(w0, w, w', id, k);
      FinalizedLater(w0, w, w', id, |w.log|);
      if k < |w.log| {
        assert w'.log[k] == w'.log[..|w.log|][k] == w.log[k];
      } else if FinalizedSince(w0, w, id, |w.log|) {
        var j: nat :| j < |w.log| && Since(w0, w', j) && w'.log[j] == Finalized(id);
      }
    }
  }

  /** From `w0` to `w` the identity is still named or has been finalized, and nothing else was created before that. */
  ghost predicate Kept(w0: World, w: World, id: Identity) {
    && Extends(w0, w)
    && (StillNames(w, id) || FinalizedSince(w0, w, id, |w.log|))
    && NothingCreatedFirst(w0, w, id)
  }

  ghost predicate VanishedBefore(ws: seq<World>, id: Identity, n: nat)
    requires n <= |ws|
  {
    exists k: nat :: k < n && StillNames(ws[k], id) && Vanished(ws[k], id)
  }

  lemma KeptStep(w0: World, w: World, w': World, step: Step, id: Identity)
    requires Kept(w0, w, id) && Follows(w, w', step) && (StillNames(w, id) ==> !Vanished(w, id))
    ensures Kept(w0, w', id)
  {
    StepFacts(w, w', step, id);
    CreatedInTwoParts(w0, w, w', id);
    FinalizedLater(w0, w, w', id, |w.log|);
    FinalizedLater(w0, w, w', id, |w'.log|);
  }

  /**
   No orphan on identity change: once the status names an identity, then at every later moment of
   every history, whatever spec edits were coalesced and whatever calls failed, it still names it
   or finalization of exactly that identity has returned success, and no bucket of another identity
   was created before that. The one exception: an identity with a region, still the spec's, whose bucket
   was gone at the start of some step.
   */
  lemma {:induction false} NoOrphan(ws: seq<World>, steps: seq<Step>, id: Identity, n: nat)
    requires History(ws, steps) && n < |ws| && StillNames(ws[0], id)
    ensures VanishedBefore(ws, id, n) || Kept(ws[0], ws[n], id)
  {
    if n > 0 {
      NoOrphan(ws, steps, id, n - 1);
      if !VanishedBefore(ws, id, n) {
        assert !VanishedBefore(ws, id, n - 1);
        StepOf(ws, steps, n);
        KeptStep(ws[0], ws[n - 1], ws[n], steps[n - 1], id);
      }
    }
  }

  /** One step of a history, seen from an identity that is named and present. */
  lemma StepFacts(w: World, w': World, step: Step, id: Identity)
    requires Follows(w, w', step)
    requires StillNames(w, id) ==> !Vanished(w, id)
    ensures Extends(w, w')
    ensures StillNames(w, id) ==>
        (StillNames(w', id) || FinalizedSince(w, w', id, |w'.log|)) && NothingCreatedFirst(w, w', id)
  {
    match step
    case Others =>
      assert w'.log[..|w.log|] == w.log;
    case Worked(env, o) =>
      if StillNames(w, id) {
        PassStep(w, env, o, id);
      } else {
        PassExtends(w, env, o);
      }
  }

  /** The exception is real: a vanished bucket is created again, and the record no longer names its region. */
  lemma VanishedIsRenamed(w: World, env: Env, o: Oracle, id: Identity)
    requires StillNames(w, id) && Vanished(w, id) && !id.provider.Unsupported?
    requires o(ASSIGN_ID) == o(MANAGER) == o(LOOK_UP) == o(CREATE) == o(RECORD_CREATION) == NoFault
        && o(ENSURE_KEY) == o(READ_OWNER) == Lost && o(CLOSE_MERGES) == NoFault
    ensures var w' := Pass(w, env, o).run.world;
            && !StillNames(w', id) && StillNames(w', id.(region := ""))
            && Added(w, w') == [Created(id, w.spec.value.endpoint, w.now)]
  {
  }

  lemma PassExtends(w: World, env: Env, o: Oracle)
    ensures Extends(w, Pass(w, env, o).run.world)
  {
    var r := Run(w, w.status);
    if w.status.storage.Some?
       && (w.spec.None? || SpecIdentity(w.spec.value) != StatusIdentity(w.status.storage.value))
    {
      PreviousFacts(r, env, o);
      var d := PreviousCleaned(r, w.status.storage.value, env, o);
      if w.spec.Some? && d.ok {
        SpecFacts(d.run, w.spec.value, env, o);
        var w' := Pass(w, env, o).run.world;
        assert w'.log[..|w.log|] == w'.log[..|d.run.world.log|][..|w.log|];
      }
    } else if w.spec.Some? {
      SpecFacts(r, w.spec.value, env, o);
    }
  }

  // ---------- from the creation on ----------

  /** Cleanup of a recorded identity looks where the bucket of `p` is: in its region, and at AWS's own endpoint. */
  predicate Resolves(recorded: Identity, p: Place, defaultRegion: string) {
    && recorded.provider == p.id.provider && recorded.bucket == p.id.bucket
    && ResolvedRegion(recorded, defaultRegion) == ResolvedRegion(p.id, defaultRegion)
    && (p.id.provider == Akamai || p.endpoint == "")
  }

  /** That is to say: whatever is in the cloud, both lookups give the same answer. */
  lemma ResolvesMeansFindsSame(recorded: Identity, p: Place, defaultRegion: string)
    requires recorded.provider == p.id.provider && recorded.bucket == p.id.bucket != ""
    ensures Resolves(recorded, p, defaultRegion) <==>
            forall cloud: Cloud :: Find(cloud, Place(recorded, ""), defaultRegion) == Find(cloud, p, defaultRegion)
  {
    var region := ResolvedRegion(p.id, defaultRegion);
    var here: Cloud := map[KeyOf(p, defaultRegion) := CloudBucket(region, None)];
    if p.id.provider == Akamai && region == "" {
      here := map[KeyOf(Place(recorded, ""), defaultRegion) := CloudBucket("", None)];
    }
    if !Resolves(recorded, p, defaultRegion) {
      assert Find(here, Place(recorded, ""), defaultRegion) != Find(here, p, defaultRegion);
    }
  }

  /** The bucket at `p` was created between `w` and `w'`. */
  ghost predicate CreatedSince(w: World, w': World, p: Place) {
    exists k: nat :: Since(w, w', k) && w'.log[k].Created? && Place(w'.log[k].identity, w'.log[k].endpoint) == p
  }

  /** After the pass that created it, the status names the bucket's identity, with or without its region, or nothing. */
  lemma CreatedIsNamed(w: World, env: Env, o: Oracle, p: Place)
    requires CreatedSince(w, Pass(w, env, o).run.world, p)
    ensures var w', id := Pass(w, env, o).run.world, p.id;
            w'.status.storage.None? || StillNames(w', id) || StillNames(w', id.(region := ""))
  {
    var r, w' := Run(w, w.status), Pass(w, env, o).run.world;
    var id := p.id;
    var k: nat :| Since(w, w', k) && w'.log[k].Created? && Place(w'.log[k].identity, w'.log[k].endpoint) == p;
    if w.status.storage.Some?
       && (w.spec.None? || SpecIdentity(w.spec.value) != StatusIdentity(w.status.storage.value))
    {
      PreviousFacts(r, env, o);
      var d := PreviousCleaned(r, w.status.storage.value, env, o);
      assert k < |d.run.world.log| ==> Added(w, d.run.world)[k - |w.log|] == d.run.world.log[k];
      if w.spec.Some? && d.ok {
        SpecCreatedIsNamed(d.run, w.spec.value, env, o, id, k);
      }
    } else if w.spec.Some? {
      SpecCreatedIsNamed(r, w.spec.value, env, o, id, k);
    }
  }

  lemma SpecCreatedIsNamed(r: Run, spec: StorageSpec, env: Env, o: Oracle, id: Identity, k: nat)
    requires r.world.status.storage == r.mem.storage
    requires r.mem.storage.Some? ==> StatusIdentity(r.mem.storage.value) == SpecIdentity(spec)
    ensures var d := SpecReconciled(r, spec, env, o);
            Since(r.world, d.run.world, k) && d.run.world.log[k].Created? && d.run.world.log[k].identity == id ==>
              && NamedAtMost(d.run.world.status.storage, id) && NamedAtMost(d.run.mem.storage, id)
    ensures k < |r.world.log| ==> Extends(r.world, SpecReconciled(r, spec, env, o).run.world)
  {
    var d := SpecReconciled(r, spec, env, o);
    SpecFacts(r, spec, env, o);
    if Since(r.world, d.run.world, k) {
      assert d.run.world.log[k] == Added(r.world, d.run.world)[k - |r.world.log|];
    }
  }

  /** The status names nothing but this identity, with or without its region. */
  predicate NamedAtMost(st: Option<StorageStatus>, id: Identity) {
    st.Some? ==> StatusIdentity(st.value) == id || StatusIdentity(st.value) == id.(region := "")
  }

  lemma HistoryTail(ws: seq<World>, steps: seq<Step>)
    requires History(ws, steps) && |ws| > 1
    ensures History(ws[1..], steps[1..])
  {
    var tail, rest := ws[1..], steps[1..];
    forall k | 0 <= k < |rest| ensures Follows(tail[k], tail[k + 1], rest[k]) {
      StepOf(ws, steps, k + 2);
    }
  }

  /**
   No orphan from the creation on: once a pass has created a bucket and recorded anything, and what it recorded
   resolves to that bucket, then at every later moment the recorded identity is still named or has been
   finalized, nothing else having been created before.
   */
  lemma CreatedIsNotOrphaned(ws: seq<World>, steps: seq<Step>, p: Place, defaultRegion: string, n: nat)
    returns (named: Identity)
    requires History(ws, steps) && 1 <= n < |ws|
    requires steps[0].Worked? && CreatedSince(ws[0], ws[1], p) && ws[1].status.storage.Some?
    requires Resolves(p.id.(region := ""), p, defaultRegion)
    ensures StillNames(ws[1], named) && Resolves(named, p, defaultRegion)
    ensures VanishedBefore(ws[1..], named, n - 1) || Kept(ws[1], ws[n], named)
  {
    named := StatusIdentity(ws[1].status.storage.value);
    StepOf(ws, steps, 1);
    CreatedIsNamed(ws[0], steps[0].env, steps[0].oracle, p);
    HistoryTail(ws, steps);
    NoOrphan(ws[1..], steps[1..], named, n - 1);
  }

  /** The recorded bucket may be deleted: not by the policy the spec names, but by the one on record. */
  predicate RecordedMayGo(w: World, owner: Option<OwnerRecord>)
    requires w.status.storage.Some?
  {
    var st := w.status.storage.value;
    st.deletionPolicy != Retain && DecideDelete(owner, w.claimant, PreviouslyCreatedByUs(Some(st), st.bucket, w.now))
  }

  /**
   And the condition is exact. When the spec is removed, the bucket that was recorded, whether at its creation or
   when it was ready, is deleted only if the record resolves to it and the policy on record and the delete rule allow
   it; and then a clean pass succeeds and deletes it.
   */
  lemma RemovedSpecCleansIff(w: World, p: Place, env: Env, o: Oracle)
    requires w.spec.None? && w.status.storage.Some? && !p.id.provider.Unsupported?
    requires var st := w.status.storage.value; st.provider == p.id.provider && st.bucket == p.id.bucket
    requires Find(w.cloud, p, env.defaultRegion).Here?
    ensures var d, key := Pass(w, env, o), KeyOf(p, env.defaultRegion);
            var may := Resolves(StatusIdentity(w.status.storage.value), p, env.defaultRegion)
                       && RecordedMayGo(w, w.cloud[key].owner);
            && (key !in d.run.world.cloud ==> may)
            && (FaultFree(o) ==> (d.ok && key !in d.run.world.cloud <==> may))
            && (FaultFree(o) && may ==> d.run.world.status.storage.None?)
  {
    var r := Run(w, w.status);
    RecordCleaned(r, p, env, o);
  }

  lemma RecordCleaned(r: Run, p: Place, env: Env, o: Oracle)
    requires r.mem == r.world.status && r.mem.storage.Some? && !p.id.provider.Unsupported?
    requires var st := r.mem.storage.value; st.provider == p.id.provider && st.bucket == p.id.bucket
    requires Find(r.world.cloud, p, env.defaultRegion).Here?
    ensures var d, key := PreviousCleaned(r, r.mem.storage.value, env, o), KeyOf(p, env.defaultRegion);
            var may := Resolves(StatusIdentity(r.mem.storage.value), p, env.defaultRegion)
                       && RecordedMayGo(r.world, r.world.cloud[key].owner);
            && (key !in d.run.world.cloud ==> may)
            && (FaultFree(o) ==> (d.ok && key !in d.run.world.cloud <==> may))
            && (FaultFree(o) && may ==> d.run.world.status.storage.None? && d.run.mem.storage.None?)
  {
    var back := SpecFromStatus(r.mem.storage.value);
    assert SpecPlace(back) == Place(StatusIdentity(r.mem.storage.value), "");
    var r1 := Persist(MarkReady(r, IsFalse), o(NOTE_CLEANUP));
    AttemptAt(r1, back, env, o);
    var a, f := CleanupAttempted(r1, back, env, o), Finalize(r, Some(back), env, o);
    if back.deletionPolicy == Retain {
      assert f.run.world.cloud == r.world.cloud;
    } else {
      assert f.ok == a.ok && f.run.world.cloud == a.run.world.cloud;
    }
  }

  /**
   A cleanup attempt touches the looked-up bucket alone, and a clean one succeeds as the lookup and the delete
   rule say.
   */
  lemma AttemptAt(r: Run, spec: StorageSpec, env: Env, o: Oracle)
    requires !spec.provider.Unsupported?
    ensures var d, key := CleanupAttempted(r, spec, env, o), KeyOf(SpecPlace(spec), env.defaultRegion);
            var found := Find(r.world.cloud, SpecPlace(spec), env.defaultRegion);
            && d.run.mem == r.mem && OnlyDeletes(r, d.run, key, spec.bucket)
            && (!found.Here? ==> d.run == r)
            && (FaultFree(o) && spec.bucket != "" ==>
                match found
                case Missing => d.ok
                case Rejected => !d.ok
                case Here(b) =>
                  if DecideDelete(b.owner, r.world.claimant,
                      PreviouslyCreatedByUs(r.mem.storage, spec.bucket, r.world.now))
                  then d.ok && key !in d.run.world.cloud
                       && d.run.world.log == r.world.log + [Removed(spec.provider, spec.bucket)]
                  else !d.ok && d.run == r)
  {
  }

  /**
   The other half: where the record looks, there is nothing. The pass succeeds, and the bucket is left behind
   unrecorded.
   */
  lemma DroppedFromRecord(w: World, env: Env, o: Oracle)
    requires FaultFree(o) && w.spec.None? && w.status.storage.Some?
    requires var st := w.status.storage.value; !st.provider.Unsupported? && st.deletionPolicy != Retain
    requires Find(w.cloud, Place(StatusIdentity(w.status.storage.value), ""), env.defaultRegion) == Missing
    ensures var d := Pass(w, env, o); d.ok && d.run.world.status.storage.None? && d.run.world.cloud == w.cloud
  {
    var r1 := Persist(MarkReady(Run(w, w.status), IsFalse), o(NOTE_CLEANUP));
    AttemptAt(r1, SpecFromStatus(w.status.storage.value), env, o);
  }

  // ---------- a record that is refused for good ----------

  /** The status records an S3 bucket without its region, and that bucket is not in the default one. */
  predicate InAnotherRegion(w: World, name: string) {
    && w.status.storage.Some?
    && (var st := w.status.storage.value;
        st.provider == AWS && st.bucket == name != "" && st.region == "" && st.deletionPolicy != Retain)
    && S3Key("", name) in w.cloud && w.cloud[S3Key("", name)].region != AWS_DEFAULT_REGION
    && (w.spec.Some? && w.spec.value.provider == AWS ==> w.spec.value.endpoint == "")
  }

  /** The run has failed and left everything but conditions and the claimant's ownership ID alone. */
  predicate Refused(w: World, d: Done) {
    && !d.ok && d.run.mem.storage == w.status.storage && d.run.world.status.storage == w.status.storage
    && d.run.world.cloud == w.cloud && d.run.world.log == w.log && d.run.world.spec == w.spec
  }

  lemma CleanupIsRefused(w: World, name: string, env: Env, o: Oracle)
    requires InAnotherRegion(w, name)
    ensures Refused(w, PreviousCleaned(Run(w, w.status), w.status.storage.value, env, o))
  {
    var r1 := Persist(MarkReady(Run(w, w.status), IsFalse), o(NOTE_CLEANUP));
    var back := SpecFromStatus(w.status.storage.value);
    assert SpecPlace(back) == Place(StatusIdentity(w.status.storage.value), "");
    AttemptAt(r1, back, env, o);
    assert CleanupAttempted(r1, back, env, o) == Done(r1, false);
  }

  lemma ProvisionIsRefused(w: World, name: string, spec: StorageSpec, env: Env, o: Oracle)
    requires InAnotherRegion(w, name) && w.spec == Some(spec)
    requires SpecIdentity(spec) == StatusIdentity(w.status.storage.value)
    ensures Refused(w, SpecReconciled(Run(w, w.status), spec, env, o))
  {
    var i := OwnershipIdEnsured(Run(w, w.status), env, o(ASSIGN_ID)).run;
    assert BucketEnsured(i, spec, env, o) == Done(i, false);
    assert BucketReconciled(i, spec, env, o) == Provisioned(i, Failed);
  }

  /** Whatever the spec says and whatever works: the pass fails, and record, cloud and log stay as they are. */
  lemma PassIsRefused(w: World, name: string, env: Env, o: Oracle)
    requires InAnotherRegion(w, name)
    ensures var d := Pass(w, env, o);
            && !d.ok && InAnotherRegion(d.run.world, name)
            && d.run.world.status.storage == w.status.storage && d.run.world.cloud == w.cloud
                && d.run.world.log == w.log
  {
    if w.spec.Some? && SpecIdentity(w.spec.value) == StatusIdentity(w.status.storage.value) {
      ProvisionIsRefused(w, name, w.spec.value, env, o);
    } else {
      CleanupIsRefused(w, name, env, o);
    }
    assert Refused(w, Reconcile(Run(w, w.status), env, o));
  }

  /**
   One failure between the creation record of an S3 bucket outside the default region and its readiness leaves the
   Application stuck: over every history in which others leave that bucket alone (and point to no other S3 store), no
   pass ever succeeds, and nothing is ever deleted or cleared.
   */
  lemma {:induction false} OtherRegionIsStuck(ws: seq<World>, steps: seq<Step>, name: string, n: nat, env: Env,
      o: Oracle)
    requires History(ws, steps) && n < |ws| && InAnotherRegion(ws[0], name)
    requires forall k | 0 < k < |ws| && steps[k - 1].Others? ::
               && At(ws[k].cloud, S3Key("", name)) == At(ws[k - 1].cloud, S3Key("", name))
               && (ws[k].spec.Some? && ws[k].spec.value.provider == AWS ==> ws[k].spec.value.endpoint == "")
    ensures InAnotherRegion(ws[n], name) && ws[n].log == ws[0].log && !Pass(ws[n], env, o).ok
  {
    if n > 0 {
      OtherRegionIsStuck(ws, steps, name, n - 1, env, o);
      StepOf(ws, steps, n);
      match steps[n - 1]
      case Worked(e, o') => PassIsRefused(ws[n - 1], name, e, o');
      case Others =>
    }
    PassIsRefused(ws[n], name, env, o);
  }

  function At(cloud: Cloud, key: BucketKey): Option<CloudBucket> { if key in cloud then Some(cloud[key]) else None }

  /** And one failure is all it takes, here of the read that follows the creation record. */
  lemma OneFailureIsStuck(w: World, spec: StorageSpec, env: Env, o: Oracle)
    requires w.spec == Some(spec) && w.status.storage.None? && spec.provider == AWS && spec.endpoint == ""
    requires spec.region != "" && spec.region != AWS_DEFAULT_REGION
    requires Find(w.cloud, SpecPlace(spec), env.defaultRegion) == Missing
    requires o(ASSIGN_ID) == o(MANAGER) == o(LOOK_UP) == o(CREATE) == o(RECORD_CREATION) == NoFault
    requires o(READ_OWNER) == Lost && o(CLOSE_MERGES) == NoFault
    ensures InAnotherRegion(Pass(w, env, o).run.world, spec.bucket)
  {
  }

  /** When storage reconciliation succeeds for a spec, StorageReady is true in memory. */
  lemma SuccessIsReady(w: World, env: Env, o: Oracle)
    ensures var d := Reconcile(Run(w, w.status), env, o);
            d.ok && w.spec.Some? ==> d.run.mem.ready == IsTrue && d.run.world.status == d.run.mem
                                     && StillNames(d.run.world, SpecIdentity(w.spec.value))
  {
    var r := Run(w, w.status);
    if w.spec.Some? {
      if w.status.storage.Some? && StatusIdentity(w.status.storage.value) != SpecIdentity(w.spec.value) {
        PreviousFacts(r, env, o);
        var d := PreviousCleaned(r, w.status.storage.value, env, o);
        if d.ok {
          SpecFacts(d.run, w.spec.value, env, o);
        }
      } else {
        SpecFacts(r, w.spec.value, env, o);
      }
    }
  }

  // ---------- deletion ----------

  /** Nothing but the bucket `key` may go, and only if the delete rule allows it. */
  ghost predicate OnlyDeletes(r: Run, r': Run, key: BucketKey, bucket: string) {
    && (forall other <- r.world.cloud :: other != key ==>
        other in r'.world.cloud && r'.world.cloud[other] == r.world.cloud[other])
    && (key in r.world.cloud && key !in r'.world.cloud ==>
          DecideDelete(r.world.cloud[key].owner, r.world.claimant,
              PreviouslyCreatedByUs(r.mem.storage, bucket, r.world.now)))
  }

  lemma SameDeletes(r: Run, r1: Run, d: Run, d': Run, key: BucketKey, bucket: string)
    requires OnlyDeletes(r1, d, key, bucket) && d'.world.cloud == d.world.cloud
    requires r1.world.cloud == r.world.cloud && r1.world.claimant == r.world.claimant && r1.world.now == r.world.now
    requires r1.mem.storage == r.mem.storage
    ensures OnlyDeletes(r, d', key, bucket)
  {
  }

  lemma AttemptMeansGone(r: Run, spec: StorageSpec, env: Env, o: Oracle)
    ensures var d := CleanupAttempted(r, spec, env, o);
            var key := KeyOf(SpecPlace(spec), env.defaultRegion);
            && OnlyDeletes(r, d.run, key, spec.bucket)
            && (d.ok ==> (spec.provider == Akamai && spec.bucket == "") || key !in d.run.world.cloud)
  {
  }

  /** Success of a finalization means: kept on purpose, nothing to delete, or the bucket is gone. */
  lemma FinalizedMeansGone(r: Run, spec: StorageSpec, env: Env, o: Oracle)
    requires r.world.status.storage == r.mem.storage
    ensures var d := Finalize(r, Some(spec), env, o);
            var key := KeyOf(SpecPlace(spec), env.defaultRegion);
            && (d.ok ==>
                || spec.deletionPolicy == Retain || spec.provider.Unsupported?
                || (spec.provider == Akamai && spec.bucket == "")
                || key !in d.run.world.cloud)
            && OnlyDeletes(r, d.run, key, spec.bucket)
            && (spec.deletionPolicy == Retain ==> d.run.world.cloud == r.world.cloud)
  {
    var r1 := Persist(MarkReady(r, IsFalse), o(NOTE_CLEANUP));
    AttemptMeansGone(r1, spec, env, o);
    var d, d' := CleanupAttempted(r1, spec, env, o), Finalize(r, Some(spec), env, o);
    if spec.deletionPolicy == Retain || spec.provider.Unsupported? {
      assert d'.run.world.cloud == r.world.cloud;
    } else {
      assert d'.run.world.cloud == d.run.world.cloud;
      SameDeletes(r, r1, d.run, d'.run, KeyOf(SpecPlace(spec), env.defaultRegion), spec.bucket);
    }
  }

  /**
   Deleting the Application finalizes the recorded identity exactly when the spec is gone or agrees
   with the record; otherwise the recorded bucket stays behind, as does every bucket but the spec's.
   */
  lemma DeletionFinalizesRecordedIff(w: World, env: Env, o: Oracle, id: Identity)
    requires StillNames(w, id) && DeletionPass(w, env, o).ok
    ensures var w' := DeletionPass(w, env, o).run.world;
            && (FinalizedSince(w, w', id, |w'.log|) <==> w.spec.None? || SpecIdentity(w.spec.value) == id)
            && (w.spec.Some? ==> forall key <- w.cloud :: key != KeyOf(SpecPlace(w.spec.value), env.defaultRegion) ==>
                  key in w'.cloud && w'.cloud[key] == w.cloud[key])
  {
    var r, w' := Run(w, w.status), DeletionPass(w, env, o).run.world;
    var storage := if w.spec.Some? then w.spec.value else SpecFromStatus(w.status.storage.value);
    FinalizeFacts(r, storage, env, o);
    FinalizedExactly(w, w', SpecIdentity(storage), id);
    if w.spec.Some? {
      FinalizedMeansGone(r, storage, env, o);
    }
  }

  lemma FinalizedExactly(w: World, w': World, done: Identity, id: Identity)
    requires Extends(w, w') && FinalizeLog(Added(w, w'), done, true)
    ensures FinalizedSince(w, w', id, |w'.log|) <==> id == done
  {
    assert forall k: nat | Since(w, w', k) :: w'.log[k] == Added(w, w')[k - |w.log|];
    var last := |w'.log| - 1;
    assert Since(w, w', last) && w'.log[last] == Finalized(done);
  }

  /** The storage a finalization goes for: the spec's, else what the status describes. */
  function Target(w: World): Option<StorageSpec> {
    if w.spec.Some? then w.spec
    else if w.status.storage.Some? then Some(SpecFromStatus(w.status.storage.value)) else None
  }

  /**
   The Application stays listed until its cleanup is over: the finalizer goes only when there was nothing to clean
   up, the bucket is kept on purpose, or it is gone. And a live Application is provisioned for only under the finalizer.
   */
  lemma FinalizerGoesLast(w: World, deleting: bool, finalizer: bool, env: Env, o: Oracle)
    ensures var h := FinalizerHandled(Run(w, w.status), deleting, finalizer, env, o);
            && (finalizer && !h.finalizer ==>
                  deleting && (Target(w).None? ||
                  (var spec := Target(w).value;
                   || spec.deletionPolicy == Retain || spec.provider.Unsupported?
                       || (spec.provider == Akamai && spec.bucket == "")
                   || KeyOf(SpecPlace(spec), env.defaultRegion) !in h.run.world.cloud)))
            && (h.ok && !h.stop ==> !deleting && h.finalizer && h.run == Run(w, w.status))
  {
    if Target(w).Some? {
      FinalizedMeansGone(Run(w, w.status), Target(w).value, env, o);
    }
  }

  // ---------- creation survives failure ----------

  /** The provider is known, the bucket is named, and on Akamai a region is known. */
  predicate Sound(spec: StorageSpec, env: Env) {
    && !spec.provider.Unsupported? && spec.bucket != ""
    && (spec.provider == Akamai ==> ResolvedRegion(SpecIdentity(spec), env.defaultRegion) != "")
  }

  /** The bucket of the spec was created and recorded at `at`, within the window, and is unmarked or marked as ours. */
  predicate JustCreated(w: World, env: Env, at: nat) {
    && w.spec.Some? && Sound(w.spec.value, env)
    && w.status.storage == Some(CreationRecord(w.spec.value, at)) && 0 < at <= w.now < at + HOUR
    && var found := Find(w.cloud, SpecPlace(w.spec.value), env.defaultRegion);
       found.Here? && (found.bucket.owner.Some? ==> found.bucket.owner.value.uid == w.claimant.uid)
  }

  /** The pass claims the very same bucket, leaves every other alone, creates and deletes none, and ends ready. */
  ghost predicate Survives(w: World, d: Done, env: Env)
    requires w.spec.Some?
  {
    var key, w' := KeyOf(SpecPlace(w.spec.value), env.defaultRegion), d.run.world;
    && d.ok && w'.status.ready == IsTrue && StillNames(w', SpecIdentity(w.spec.value))
    && key in w.cloud && w'.cloud == w.cloud[key := w.cloud[key].(owner := Some(w'.claimant.Record()))]
    && (forall k: nat | Since(w, w', k) :: !w'.log[k].Created? && !w'.log[k].Removed?)
  }

  /** Where the creation record of a spec makes cleanup look. */
  function RecordPlace(spec: StorageSpec): Place { Place(SpecIdentity(spec).(region := ""), "") }

  lemma CleanClaim(r: Run, spec: StorageSpec, env: Env, o: Oracle)
    requires FaultFree(o) && KeyOf(SpecPlace(spec), env.defaultRegion) in r.world.cloud
    requires var owner := r.world.cloud[KeyOf(SpecPlace(spec), env.defaultRegion)].owner;
        owner.None? || owner.value.uid == r.world.claimant.uid
    ensures var c := Claimed(r, spec, env, o);
            var key := KeyOf(SpecPlace(spec), env.defaultRegion);
            if r.world.cloud[key].owner.Some? || r.world.claimant.adopt
                || PreviouslyCreatedByUs(r.mem.storage, spec.bucket, r.world.now)
            then c == Provisioned(r.WithCloud(r.world.cloud[key :=
                r.world.cloud[key].(owner := Some(r.world.claimant.Record()))]), Success)
            else c == Provisioned(r, NotOwned)
  {
    var key := KeyOf(SpecPlace(spec), env.defaultRegion);
    var marked := r.world.cloud[key].(owner := Some(r.world.claimant.Record()));
    if marked == r.world.cloud[key] {
      assert r.world.cloud[key := marked] == r.world.cloud;
    }
  }

  /** A clean pass over a bucket that is there and may be claimed. */
  lemma CleanProvision(r: Run, spec: StorageSpec, env: Env, o: Oracle)
    requires FaultFree(o) && Sound(spec, env)
    requires Find(r.world.cloud, SpecPlace(spec), env.defaultRegion).Here?
    requires var owner := Find(r.world.cloud, SpecPlace(spec), env.defaultRegion).bucket.owner;
             owner.None? || owner.value.uid == r.world.claimant.uid
    ensures var d := SpecReconciled(r, spec, env, o);
            var key := KeyOf(SpecPlace(spec), env.defaultRegion);
            var mayClaim := r.world.cloud[key].owner.Some? || r.world.claimant.adopt
                            || PreviouslyCreatedByUs(r.mem.storage, spec.bucket, r.world.now);
            && d.ok == mayClaim
            && (mayClaim ==>
                  && d.run.mem == Status(Some(ReadyStatus(spec, CreatedAt(r.mem.storage, r.world.now), env)), IsTrue)
                  && d.run.world.status == d.run.mem
                  && d.run.world.cloud == r.world.cloud[key :=
                      r.world.cloud[key].(owner := Some(d.run.world.claimant.Record()))]
                  && (d.run.world.log == r.world.log
                      || d.run.world.log == r.world.log + [FirstReady(spec.provider, spec.bucket, r.world.now)]))
  {
    var i := OwnershipIdEnsured(r, env, o(ASSIGN_ID)).run;
    assert BucketEnsured(i, spec, env, o) == Done(i, true);
    CleanClaim(i, spec, env, o);
  }

  /**
   Clean cleanup of a creation record looks for the bucket in the default region and at AWS's own endpoint, wherever
   it was created.
   */
  lemma CleanRecordCleanup(r: Run, spec: StorageSpec, at: nat, env: Env, o: Oracle)
    requires FaultFree(o) && r.mem.storage == Some(CreationRecord(spec, at)) && at <= r.world.now < at + HOUR
    requires Sound(spec, env)
    ensures var d := PreviousCleaned(r, r.mem.storage.value, env, o);
            match Find(r.world.cloud, RecordPlace(spec), env.defaultRegion)
            case Missing => d == Done(d.run, true) && d.run.mem == Status(None, Absent)
                && d.run.world == r.world.(status := d.run.mem,
                    log := r.world.log + [Finalized(SpecIdentity(spec.(region := "")))])
            case Rejected => !d.ok
            case Here(b) => if b.owner.None? || b.owner.value.uid == r.world.claimant.uid
                            then |d.run.world.log| > |r.world.log|
                                && d.run.world.log[..|r.world.log| + 1]
                                    == r.world.log + [Removed(spec.provider, spec.bucket)]
                            else !d.ok
  {
    var r1 := Persist(MarkReady(r, IsFalse), o(NOTE_CLEANUP));
    var back := SpecFromStatus(r.mem.storage.value);
    assert SpecPlace(back) == RecordPlace(spec);
    AttemptAt(r1, back, env, o);
  }

  /**
   What a caller can check beforehand: the spec names no region; or the record makes cleanup look for another bucket
   (Akamai outside the default region, S3 at an endpoint of its own), no bucket is there, and ours is already
   marked or adoption was asked for.
   */
  predicate SurvivesIf(w: World, env: Env)
    requires w.spec.Some?
  {
    var spec := w.spec.value;
    var found := Find(w.cloud, SpecPlace(spec), env.defaultRegion);
    || spec.region == ""
    || (&& Find(w.cloud, RecordPlace(spec), env.defaultRegion) == Missing
        && found.Here? && (found.bucket.owner.Some? || w.claimant.adopt))
  }

  lemma SurvivesWithoutRegion(w: World, env: Env, at: nat, o: Oracle)
    requires JustCreated(w, env, at) && FaultFree(o) && w.spec.value.region == ""
    ensures Survives(w, Pass(w, env, o), env)
    ensures Pass(w, env, o).run.world.status.storage.value.createdAt == at
  {
    CleanProvision(Run(w, w.status), w.spec.value, env, o);
  }

  lemma SurvivesWithRegionIff(w: World, env: Env, at: nat, o: Oracle)
    requires JustCreated(w, env, at) && FaultFree(o) && w.spec.value.region != ""
    ensures Survives(w, Pass(w, env, o), env) <==> SurvivesIf(w, env)
  {
    var r, spec, w' := Run(w, w.status), w.spec.value, Pass(w, env, o).run.world;
    CleanRecordCleanup(r, spec, at, env, o);
    var d := PreviousCleaned(r, r.mem.storage.value, env, o);
    match Find(w.cloud, RecordPlace(spec), env.defaultRegion)
    case Rejected =>
    case Missing =>
      CleanProvision(d.run, spec, env, o);
    case Here(b) =>
      if d.ok {
        SpecFacts(d.run, spec, env, o);
        var k := |w.log|;
        assert w'.log[k] == w'.log[..|d.run.world.log|][k] == d.run.world.log[..k + 1][k]
            == Removed(spec.provider, spec.bucket);
        assert Since(w, w', k);
      }
  }

  /**
   Creation survives failure, exactly when: once the bucket has been created and its creation
   recorded, whatever failed afterwards, the next clean pass within the hour claims that bucket,
   creates and deletes none and ends ready, if and only if `SurvivesIf` holds. With a blank region
   it always does, and the creation time stays.
   */
  lemma CreationSurvivesIff(w: World, env: Env, at: nat, o: Oracle)
    requires JustCreated(w, env, at) && FaultFree(o)
    ensures Survives(w, Pass(w, env, o), env) <==> SurvivesIf(w, env)
    ensures w.spec.value.region == "" ==> Survives(w, Pass(w, env, o), env)
                                          && Pass(w, env, o).run.world.status.storage.value.createdAt == at
  {
    if w.spec.value.region == "" {
      SurvivesWithoutRegion(w, env, at, o);
    } else {
      SurvivesWithRegionIff(w, env, at, o);
    }
  }

  // ---------- the deletion policy on an identity change ----------

  /** The operator deletes a bucket of that name in the pass. */
  ghost predicate RemovedSince(w: World, w': World, provider: Provider, bucket: string) {
    exists k: nat :: Since(w, w', k) && w'.log[k] == Removed(provider, bucket)
  }

  /**
   When the identity has changed, a clean pass deletes the recorded bucket exactly when the policy on record, not
   the spec's, is not Retain and the delete rule allows it.
   */
  lemma IdentityChangeRemovesIff(w: World, env: Env, o: Oracle)
    requires FaultFree(o) && w.status.storage.Some? && !w.status.storage.value.provider.Unsupported?
    requires w.spec.Some? ==> SpecIdentity(w.spec.value) != StatusIdentity(w.status.storage.value)
    requires Find(w.cloud, Place(StatusIdentity(w.status.storage.value), ""), env.defaultRegion).Here?
    ensures var st := w.status.storage.value;
            var found := Find(w.cloud, Place(StatusIdentity(st), ""), env.defaultRegion);
            RemovedSince(w, Pass(w, env, o).run.world, st.provider, st.bucket) <==> RecordedMayGo(w, found.bucket.owner)
  {
    var r, st, w' := Run(w, w.status), w.status.storage.value, Pass(w, env, o).run.world;
    var d := PreviousCleaned(r, st, env, o);
    var w1 := d.run.world;
    PreviousRemovesIff(w, env, o);
    PreviousFacts(r, env, o);
    if w.spec.Some? && d.ok {
      SpecFacts(d.run, w.spec.value, env, o);
      assert forall j: nat | Since(w1, w', j) :: w'.log[j] == Added(w1, w')[j - |w1.log|];
      assert forall j: nat | j < |w1.log| :: w'.log[j] == w'.log[..|w1.log|][j] == w1.log[j];
    }
    assert RemovedSince(w, w', st.provider, st.bucket) <==> RemovedSince(w, w1, st.provider, st.bucket);
  }

  lemma PreviousRemovesIff(w: World, env: Env, o: Oracle)
    requires FaultFree(o) && w.status.storage.Some? && !w.status.storage.value.provider.Unsupported?
    requires Find(w.cloud, Place(StatusIdentity(w.status.storage.value), ""), env.defaultRegion).Here?
    ensures var st := w.status.storage.value;
            var found := Find(w.cloud, Place(StatusIdentity(st), ""), env.defaultRegion);
            RemovedSince(w, PreviousCleaned(Run(w, w.status), st, env, o).run.world, st.provider, st.bucket) <==>
              RecordedMayGo(w, found.bucket.owner)
  {
    var r, st := Run(w, w.status), w.status.storage.value;
    var back := SpecFromStatus(st);
    assert SpecPlace(back) == Place(StatusIdentity(st), "");
    AttemptAt(Persist(MarkReady(r, IsFalse), o(NOTE_CLEANUP)), back, env, o);
    PreviousFacts(r, env, o);
    var w1, k := PreviousCleaned(r, st, env, o).run.world, |w.log|;
    if RecordedMayGo(w, Find(w.cloud, SpecPlace(back), env.defaultRegion).bucket.owner) {
      assert w1.log == w.log + [Removed(st.provider, st.bucket)] + [Finalized(StatusIdentity(st))];
      assert w1.log[k] == Removed(st.provider, st.bucket);
    }
  }

  /**
   So Retain is lost: just created on S3 in the default region by name, a bucket to be retained is deleted by
   the next clean pass.
   */
  lemma RetainIsLost(w: World, env: Env, at: nat, o: Oracle)
    requires JustCreated(w, env, at) && FaultFree(o)
    requires w.spec.value.provider == AWS && w.spec.value.region == AWS_DEFAULT_REGION && w.spec.value.endpoint == ""
    requires w.spec.value.deletionPolicy == Retain
    ensures RemovedSince(w, Pass(w, env, o).run.world, AWS, w.spec.value.bucket)
  {
    IdentityChangeRemovesIff(w, env, o);
  }

  // ---------- any number of failed tries ----------

  predicate Recorded(st: Option<StorageStatus>, spec: StorageSpec, at: nat) {
    st.Some? && st.value.created && st.value.createdAt == at && StatusIdentity(st.value) == SpecIdentity(spec)
  }

  predicate Claimable(w: World, spec: StorageSpec, env: Env) {
    var found := Find(w.cloud, SpecPlace(spec), env.defaultRegion);
    found.Here? && (found.bucket.owner.Some? ==> found.bucket.owner.value.uid == w.claimant.uid)
  }

  /**
   The status names the spec's bucket, first recorded at `at`, and the bucket is there, unmarked or marked as
   ours.
   */
  predicate OnRecord(w: World, spec: StorageSpec, env: Env, at: nat) {
    at != 0 && w.spec == Some(spec) && Recorded(w.status.storage, spec, at) && Claimable(w, spec, env)
  }

  predicate RunOnRecord(r: Run, w: World, spec: StorageSpec, env: Env, at: nat) {
    && OnRecord(r.world, spec, env, at) && Recorded(r.mem.storage, spec, at)
    && r.world.claimant.uid == w.claimant.uid && r.world.now == w.now
  }

  lemma ClaimKeepsRecord(e: Done, w: World, spec: StorageSpec, env: Env, o: Oracle, at: nat)
    requires RunOnRecord(e.run, w, spec, env, at)
    ensures RunOnRecord(ClaimedAfter(e, spec, env, o).run, w, spec, env, at)
    ensures ClaimedAfter(e, spec, env, o).run.world.log == e.run.world.log
  {
    var c := Claimed(e.run, spec, env, o);
  }

  lemma ReportKeepsRecord(p: Provisioned, w: World, spec: StorageSpec, env: Env, o: Oracle, at: nat)
    requires RunOnRecord(p.run, w, spec, env, at)
    ensures var d := Closed(ReportRecorded(p, spec, env, o), o);
            RunOnRecord(ReportRecorded(p, spec, env, o).run, w, spec, env, at) && Extends(p.run.world, d.run.world)
            && OnRecord(d.run.world, spec, env, at) && d.run.world.claimant.uid == w.claimant.uid
                && d.run.world.now == w.now
  {
  }

  lemma ProviderKeepsRecord(r: Run, w: World, spec: StorageSpec, env: Env, o: Oracle, at: nat)
    requires RunOnRecord(r, w, spec, env, at)
    ensures RunOnRecord(ProviderReconciled(r, spec, env, o).run, w, spec, env, at)
  {
    ClaimKeepsRecord(BucketEnsured(r, spec, env, o), w, spec, env, o, at);
    ReportKeepsRecord(BucketReconciled(r, spec, env, o), w, spec, env, o, at);
  }

  lemma PassKeepsRecord(w: World, spec: StorageSpec, env: Env, o: Oracle, at: nat)
    requires OnRecord(w, spec, env, at)
    ensures var w' := Pass(w, env, o).run.world;
            OnRecord(w', spec, env, at) && w'.claimant.uid == w.claimant.uid && w'.now == w.now
  {
    var i := OwnershipIdEnsured(Run(w, w.status), env, o(ASSIGN_ID)).run;
    ProviderKeepsRecord(i, w, spec, env, o, at);
    assert RunOnRecord(Reconcile(Run(w, w.status), env, o).run, w, spec, env, at);
  }

  /** One more try: time goes by, then a pass in whatever environment and with whatever faults. */
  datatype Try = Try(elapsed: nat, env: Env, oracle: Oracle)

  function Tried(w: World, tries: seq<Try>): World
    decreases |tries|
  {
    if tries == [] then w
    else
      OneTry(Tried(w, tries[..|tries| - 1]), tries[|tries| - 1])
  }

  function Later(w: World, elapsed: nat): World { w.(now := w.now + elapsed) }

  function OneTry(w: World, t: Try): World {
    Pass(Later(w, t.elapsed), t.env, t.oracle).run.world
  }

  lemma TimeKeepsRecord(w: World, spec: StorageSpec, env: Env, elapsed: nat, at: nat)
    requires OnRecord(w, spec, env, at)
    ensures OnRecord(Later(w, elapsed), spec, env, at)
  {
  }

  /** Of its environment, what is on record depends on the default region only. */
  lemma SameRegionSameRecord(w: World, spec: StorageSpec, env: Env, env': Env, at: nat)
    requires env.defaultRegion == env'.defaultRegion
    ensures OnRecord(w, spec, env, at) == OnRecord(w, spec, env', at)
  {
  }

  lemma TryKeepsRecord(w: World, spec: StorageSpec, env: Env, t: Try, at: nat)
    requires OnRecord(w, spec, env, at) && t.env.defaultRegion == env.defaultRegion
    ensures OnRecord(OneTry(w, t), spec, env, at)
  {
    TimeKeepsRecord(w, spec, env, t.elapsed, at);
    SameRegionSameRecord(Later(w, t.elapsed), spec, env, t.env, at);
    PassKeepsRecord(Later(w, t.elapsed), spec, t.env, t.oracle, at);
    SameRegionSameRecord(OneTry(w, t), spec, env, t.env, at);
  }

  lemma {:induction false} TriesKeepRecord(w: World, spec: StorageSpec, env: Env, tries: seq<Try>, at: nat)
    requires OnRecord(w, spec, env, at) && forall t <- tries :: t.env.defaultRegion == env.defaultRegion
    ensures OnRecord(Tried(w, tries), spec, env, at)
    decreases |tries|
  {
    if tries != [] {
      var t := tries[|tries| - 1];
      assert t in tries;
      TriesKeepRecord(w, spec, env, tries[..|tries| - 1], at);
      TryKeepsRecord(Tried(w, tries[..|tries| - 1]), spec, env, t, at);
    }
  }

  /**
   Creation survives any number of failed tries: as long as the record names the spec's identity, a
   clean pass within the hour (or at any time, once the bucket is marked) claims the same bucket,
   creates and deletes none, ends ready, and leaves the creation time as it was.
   */
  lemma CreationSurvivesTries(w: World, spec: StorageSpec, env: Env, tries: seq<Try>, at: nat, o: Oracle)
    requires OnRecord(w, spec, env, at) && FaultFree(o) && forall t <- tries :: t.env.defaultRegion == env.defaultRegion
    requires Sound(spec, env)
    ensures var w1 := Tried(w, tries);
            && OnRecord(w1, spec, env, at)
            && (Survives(w1, Pass(w1, env, o), env) <==>
                  w1.cloud[KeyOf(SpecPlace(spec), env.defaultRegion)].owner.Some? || w1.claimant.adopt
                      || w1.now - at < HOUR)
            && OnRecord(Pass(w1, env, o).run.world, spec, env, at)
  {
    TriesKeepRecord(w, spec, env, tries, at);
    CleanPassOnRecord(Tried(w, tries), spec, env, at, o);
  }

  lemma CleanPassOnRecord(w: World, spec: StorageSpec, env: Env, at: nat, o: Oracle)
    requires OnRecord(w, spec, env, at) && FaultFree(o)
    requires Sound(spec, env)
    ensures OnRecord(Pass(w, env, o).run.world, spec, env, at)
    ensures Survives(w, Pass(w, env, o), env) <==>
            w.cloud[KeyOf(SpecPlace(spec), env.defaultRegion)].owner.Some? || w.claimant.adopt
                || w.now - at < HOUR
  {
    PassKeepsRecord(w, spec, env, o, at);
    CleanProvision(Run(w, w.status), spec, env, o);
  }

  /**
   A pass that creates the bucket and records it leaves it on record, whatever fails later, if the spec names no
   region.
   */
  lemma CreationGoesOnRecord(w: World, spec: StorageSpec, env: Env, o: Oracle)
    requires w.spec == Some(spec) && w.status.storage.None? && w.now != 0
    requires Sound(spec, env) && spec.region == ""
    requires Find(w.cloud, SpecPlace(spec), env.defaultRegion) == Missing
    requires o(ASSIGN_ID) == o(MANAGER) == o(LOOK_UP) == o(CREATE) == o(RECORD_CREATION) == NoFault
    ensures var w' := Pass(w, env, o).run.world;
            OnRecord(w', spec, env, w.now) && CreatedSince(w, w', SpecPlace(spec))
  {
    var i := OwnershipIdEnsured(Run(w, w.status), env, o(ASSIGN_ID)).run;
    var e := BucketEnsured(i, spec, env, o);
    CleanCreation(i, spec, env, o);
    ClaimKeepsRecord(e, i.world, spec, env, o, w.now);
    var p := ClaimedAfter(e, spec, env, o);
    ReportKeepsRecord(p, i.world, spec, env, o, w.now);
    var w' := Pass(w, env, o).run.world;
    assert w' == Closed(ReportRecorded(p, spec, env, o), o).run.world;
    var k := |w.log|;
    assert w'.log[k] == w'.log[..|p.run.world.log|][k] == Created(SpecIdentity(spec), spec.endpoint, w.now);
    assert Since(w, w', k);
  }

  lemma CleanCreation(r: Run, spec: StorageSpec, env: Env, o: Oracle)
    requires r.world.spec == Some(spec) && r.world.now != 0 && Sound(spec, env) && spec.region == ""
    requires Find(r.world.cloud, SpecPlace(spec), env.defaultRegion) == Missing
    requires o(LOOK_UP) == o(CREATE) == o(RECORD_CREATION) == NoFault
    ensures var e := BucketEnsured(r, spec, env, o);
            && e.ok && RunOnRecord(e.run, r.world, spec, env, r.world.now)
            && e.run.world.log == r.world.log + [Created(SpecIdentity(spec), spec.endpoint, r.world.now)]
  {
  }

  // ---------- the claim window is never extended ----------

  /** The event says that the bucket of `st` was created, or first found ready, at the time `st` records. */
  predicate Dates(e: Event, st: StorageStatus) {
    || e == FirstReady(st.provider, st.bucket, st.createdAt)
    || (e.Created? && e.identity.provider == st.provider && e.identity.bucket == st.bucket && e.at == st.createdAt)
  }

  ghost predicate Vouched(st: Option<StorageStatus>, w: World) {
    st.Some? ==> st.value.created && st.value.createdAt <= w.now && exists k: nat ::
        k < |w.log| && Dates(w.log[k], st.value)
  }

  lemma VouchedLater(st: Option<StorageStatus>, w: World, w': World)
    requires Vouched(st, w) && Extends(w, w') && w.now <= w'.now
    ensures Vouched(st, w')
  {
    if st.Some? {
      var k: nat :| k < |w.log| && Dates(w.log[k], st.value);
      assert w'.log[k] == w'.log[..|w.log|][k];
    }
  }

  /** A creation time is stamped only together with an event of that very time. */
  lemma ReadyVouched(p: Run, spec: StorageSpec, env: Env, o: Oracle)
    requires Vouched(p.mem.storage, p.world) && Vouched(p.world.status.storage, p.world)
    requires p.mem.storage.Some? ==>
        p.mem.storage.value.provider == spec.provider && p.mem.storage.value.bucket == spec.bucket
    ensures var r' := ReadyRecorded(p, spec, env, o).run;
        Vouched(r'.mem.storage, r'.world) && Vouched(r'.world.status.storage, r'.world)
  {
    var r' := ReadyRecorded(p, spec, env, o).run;
    var st := ReadyStatus(spec, CreatedAt(p.mem.storage, p.world.now), env);
    assert Extends(p.world, r'.world);
    VouchedLater(p.world.status.storage, p.world, r'.world);
    if p.mem.storage.Some? && p.mem.storage.value.createdAt != 0 {
      var k: nat :| k < |p.world.log| && Dates(p.world.log[k], p.mem.storage.value);
      assert Dates(r'.world.log[k], st);
    } else {
      assert Dates(r'.world.log[|r'.world.log| - 1], st);
    }
  }

  lemma EnsuredVouched(r: Run, p: Run, spec: StorageSpec, env: Env)
    requires EnsuredAs(r, p, spec, env) && Vouched(r.mem.storage, r.world) && Vouched(r.world.status.storage, r.world)
    requires r.mem.storage.Some? ==> StatusIdentity(r.mem.storage.value) == SpecIdentity(spec)
    ensures Vouched(p.mem.storage, p.world) && Vouched(p.world.status.storage, p.world)
    ensures p.mem.storage.Some? ==>
        p.mem.storage.value.provider == spec.provider && p.mem.storage.value.bucket == spec.bucket
  {
    VouchedLater(r.mem.storage, r.world, p.world);
    VouchedLater(r.world.status.storage, r.world, p.world);
    if p.mem.storage != r.mem.storage {
      assert Dates(p.world.log[|r.world.log|], p.mem.storage.value);
    }
  }

  ghost predicate RunVouched(r: Run) { Vouched(r.mem.storage, r.world) && Vouched(r.world.status.storage, r.world) }

  lemma ReportVouched(r: Run, p: Provisioned, spec: StorageSpec, env: Env, o: Oracle)
    requires EnsuredAs(r, p.run, spec, env) && RunVouched(r)
    requires r.mem.storage.Some? ==> StatusIdentity(r.mem.storage.value) == SpecIdentity(spec)
    ensures RunVouched(ReportRecorded(p, spec, env, o).run)
  {
    EnsuredVouched(r, p.run, spec, env);
    ReadyVouched(p.run, spec, env, o);
  }

  lemma ProviderVouched(r: Run, spec: StorageSpec, env: Env, o: Oracle)
    requires RunVouched(r) && r.world.status.storage == r.mem.storage
    requires r.mem.storage.Some? ==> StatusIdentity(r.mem.storage.value) == SpecIdentity(spec)
    ensures RunVouched(ProviderReconciled(r, spec, env, o).run)
  {
    ReconciledFacts(r, spec, env, o);
    ReportVouched(r, BucketReconciled(r, spec, env, o), spec, env, o);
  }

  lemma SpecVouched(r: Run, spec: StorageSpec, env: Env, o: Oracle)
    requires RunVouched(r) && r.world.status.storage == r.mem.storage
    requires r.mem.storage.Some? ==> StatusIdentity(r.mem.storage.value) == SpecIdentity(spec)
    ensures RunVouched(SpecReconciled(r, spec, env, o).run)
  {
    var i := OwnershipIdEnsured(r, env, o(ASSIGN_ID)).run;
    ProviderVouched(i, spec, env, o);
  }

  lemma PassVouched(w: World, env: Env, o: Oracle)
    requires Vouched(w.status.storage, w)
    ensures var w' := Pass(w, env, o).run.world; Vouched(w'.status.storage, w')
  {
    var r := Run(w, w.status);
    if w.status.storage.Some?
       && (w.spec.None? || StatusIdentity(w.status.storage.value) != SpecIdentity(w.spec.value))
    {
      PreviousFacts(r, env, o);
      var d := PreviousCleaned(r, w.status.storage.value, env, o);
      VouchedLater(w.status.storage, w, d.run.world);
      if w.spec.Some? && d.ok {
        SpecVouched(d.run, w.spec.value, env, o);
      }
    } else if w.spec.Some? {
      SpecVouched(r, w.spec.value, env, o);
    }
  }

  /**
   The claim window is never extended: in every history, whenever the status says "created by us
   within the window", the operator did create that bucket, or first found it ready, less than an hour ago.
   */
  lemma {:induction false} ClaimWindowNeverExtended(ws: seq<World>, steps: seq<Step>, n: nat)
    requires History(ws, steps) && n < |ws| && ws[0].status.storage.None?
    ensures Vouched(ws[n].status.storage, ws[n])
    ensures forall bucket :: PreviouslyCreatedByUs(ws[n].status.storage, bucket, ws[n].now) ==>
              exists k: nat ::
                  k < |ws[n].log| && DatedWithin(ws[n].log[k], ws[n].status.storage.value.provider, bucket, ws[n].now)
  {
    if n > 0 {
      ClaimWindowNeverExtended(ws, steps, n - 1);
      var w, w' := ws[n - 1], ws[n];
      StepOf(ws, steps, n);
      match steps[n - 1]
      case Worked(env, o) => PassVouched(w, env, o);
      case Others => VouchedLater(w.status.storage, w, w');
    }
    forall bucket | PreviouslyCreatedByUs(ws[n].status.storage, bucket, ws[n].now)
      ensures exists k: nat ::
          k < |ws[n].log| && DatedWithin(ws[n].log[k], ws[n].status.storage.value.provider, bucket, ws[n].now)
    {
      var k: nat :| k < |ws[n].log| && Dates(ws[n].log[k], ws[n].status.storage.value);
      assert DatedWithin(ws[n].log[k], ws[n].status.storage.value.provider, bucket, ws[n].now);
    }
  }

  /** The bucket was created, or first found ready, less than an hour before `now`. */
  predicate DatedWithin(e: Event, provider: Provider, bucket: string, now: nat) {
    && (e.Created? || e.FirstReady?) && e.at <= now < e.at + HOUR
    && (e.Created? ==> e.identity.provider == provider && e.identity.bucket == bucket)
    && (e.FirstReady? ==> e.provider == provider && e.bucket == bucket)
  }

  /** Routine passes keep the creation time: as long as the identity stays and the bucket is there, whatever fails. */
  lemma RoutineKeepsCreatedAt(w: World, env: Env, o: Oracle, at: nat)
    requires w.spec.Some? && Recorded(w.status.storage, w.spec.value, at) && at != 0
    requires Find(w.cloud, SpecPlace(w.spec.value), env.defaultRegion) != Missing
    ensures Recorded(Pass(w, env, o).run.world.status.storage, w.spec.value, at)
  {
    var i := OwnershipIdEnsured(Run(w, w.status), env, o(ASSIGN_ID)).run;
    ReconciledFacts(i, w.spec.value, env, o);
    ReportKeepsTime(BucketReconciled(i, w.spec.value, env, o), w.spec.value, env, o, at);
  }

  lemma ReportKeepsTime(p: Provisioned, spec: StorageSpec, env: Env, o: Oracle, at: nat)
    requires Recorded(p.run.mem.storage, spec, at) && Recorded(p.run.world.status.storage, spec, at) && at != 0
    ensures var r' := ReportRecorded(p, spec, env, o).run;
        Recorded(r'.mem.storage, spec, at) && Recorded(r'.world.status.storage, spec, at)
  {
  }

  /**
   At deletion the record vouches for more than was created: only the bucket's name is compared, so with a
   spec that has moved to the other provider an unmarked bucket of the same name there is deleted,
   although the operator never created it.
   */
  lemma WindowIgnoresProvider(w: World, env: Env, o: Oracle)
    requires FaultFree(o) && w.spec.Some? && w.spec.value.provider == Akamai && w.spec.value.deletionPolicy != Retain
    requires w.status.storage.Some? && w.status.storage.value.provider == AWS
    requires w.spec.value.bucket != "" && Find(w.cloud, SpecPlace(w.spec.value), env.defaultRegion).Here?
    requires w.cloud[KeyOf(SpecPlace(w.spec.value), env.defaultRegion)].owner.None? && !w.claimant.adopt
    ensures var w' := DeletionPass(w, env, o).run.world;
            KeyOf(SpecPlace(w.spec.value), env.defaultRegion) !in w'.cloud <==>
            PreviouslyCreatedByUs(w.status.storage, w.spec.value.bucket, w.now)
  {
  }
}
