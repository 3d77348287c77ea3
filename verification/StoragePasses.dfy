/**
 What single passes do: when they succeed, what success and failure leave behind, and what becomes of the
 ownership ID and the finalizer (internal/controller/storage.go, internal/controller/finalizer.go).
 */
module StoragePasses {
  import opened Api
  import opened Naming
  import opened Ownership
  import opened Storage
  import opened StorageRuns

  // ---------- the ownership ID ----------

  /** No pass touches an ownership ID that is there. */
  lemma OwnershipIdStays(w: World, env: Env, o: Oracle)
    requires w.claimant.ownershipId != ""
    ensures Pass(w, env, o).run.world.claimant == w.claimant
    ensures DeletionPass(w, env, o).run.world.claimant == w.claimant
  {
    var r := Run(w, w.status);
    if w.status.storage.Some? {
      PreviousFacts(r, env, o);
      if w.spec.Some? && PreviousCleaned(r, w.status.storage.value, env, o).ok {
        IdStaysWithSpec(PreviousCleaned(r, w.status.storage.value, env, o).run, w.spec.value, env, o);
      }
    }
    if w.spec.Some? {
      IdStaysWithSpec(r, w.spec.value, env, o);
    }
    if Target(w).Some? {
      FinalizeFacts(r, Target(w).value, env, o);
    }
  }

  lemma IdStaysWithSpec(r: Run, spec: StorageSpec, env: Env, o: Oracle)
    requires r.world.claimant.ownershipId != "" && r.world.status.storage == r.mem.storage
    ensures SpecReconciled(r, spec, env, o).run.world.claimant == r.world.claimant
  {
    ReconciledFacts(r, spec, env, o);
  }

  /** So over every history in which others leave it alone, the ID that was assigned once is the one there is. */
  lemma {:induction false} OwnershipIdNeverReplaced(ws: seq<World>, steps: seq<Step>, n: nat)
    requires History(ws, steps) && n < |ws| && ws[0].claimant.ownershipId != ""
    requires forall k | 0 <= k < |steps| && steps[k].Others? :: SameId(ws[k], ws[k + 1])
    ensures SameId(ws[0], ws[n])
  {
    if n > 0 {
      OwnershipIdNeverReplaced(ws, steps, n - 1);
      StepOf(ws, steps, n);
      if steps[n - 1].Worked? {
        OwnershipIdStays(ws[n - 1], steps[n - 1].env, steps[n - 1].oracle);
      }
    }
  }

  predicate SameId(w: World, w': World) { w'.claimant.ownershipId == w.claimant.ownershipId }

  /** The pass gets past the cleanup of a previous identity, if there is one. */
  predicate Reaches(w: World, env: Env, o: Oracle) {
    && w.spec.Some?
    && (w.status.storage.Some? && StatusIdentity(w.status.storage.value) != SpecIdentity(w.spec.value) ==>
          PreviousCleaned(Run(w, w.status), w.status.storage.value, env, o).ok)
  }

  /** A pass that gets that far assigns a fresh ID where there is none, and goes no further if that fails. */
  lemma FreshIdIsAssigned(w: World, env: Env, o: Oracle)
    requires w.claimant.ownershipId == "" && Reaches(w, env, o)
    ensures var d := Pass(w, env, o);
            && (o(ASSIGN_ID).Effective() ==> d.run.world.claimant == w.claimant.(ownershipId := env.freshId))
            && (!o(ASSIGN_ID).Effective() ==> d.run.world.claimant == w.claimant)
            && (o(ASSIGN_ID) != NoFault ==> !d.ok && NothingProvisioned(w, d.run.world))
  {
    var r0 := Run(w, w.status);
    var r := if w.status.storage.Some? && StatusIdentity(w.status.storage.value) != SpecIdentity(w.spec.value)
             then PreviousCleaned(r0, w.status.storage.value, env, o).run else r0;
    if w.status.storage.Some? {
      PreviousFacts(r0, env, o);
      assert forall k: nat | Since(w, r.world, k) :: r.world.log[k] == Added(w, r.world)[k - |w.log|];
    }
    var i := OwnershipIdEnsured(r, env, o(ASSIGN_ID));
    if i.ok {
      ClaimantStays(i.run, w.spec.value, env, o);
    }
  }

  lemma ClaimantStays(r: Run, spec: StorageSpec, env: Env, o: Oracle)
    requires r.world.status.storage == r.mem.storage
    ensures ProviderReconciled(r, spec, env, o).run.world.claimant == r.world.claimant
  {
    ReconciledFacts(r, spec, env, o);
  }

  ghost predicate NothingProvisioned(w: World, w': World) {
    forall k: nat | Since(w, w', k) :: !w'.log[k].Created? && !w'.log[k].FirstReady?
  }

  // ---------- the finalizer ----------

  /**
   The finalizer goes once finalization has succeeded and the update works, and the rest of the pass is skipped; a
   live Application gets it, or keeps it, and its pass goes on with nothing else changed.
   */
  lemma FinalizerComesAndGoes(w: World, finalizer: bool, env: Env, o: Oracle)
    requires o(SET_FINALIZER) == NoFault
    ensures var h := FinalizerHandled(Run(w, w.status), true, finalizer, env, o);
            && h.stop
            && (finalizer && DeletionPass(w, env, o).ok ==>
                h.ok && !h.finalizer && h.run == DeletionPass(w, env, o).run)
            && (finalizer && !DeletionPass(w, env, o).ok ==> !h.ok && h.finalizer)
            && (!finalizer ==> h.ok && !h.finalizer && h.run == Run(w, w.status))
    ensures FinalizerHandled(Run(w, w.status), false, finalizer, env, o) == Handled(Run(w, w.status), true, false, true)
  {
  }

  // ---------- when a deletion succeeds ----------

  /**
   A clean deletion succeeds exactly when there is nothing to delete, the bucket is to be retained, the lookup finds
   nothing, or it finds a bucket that the delete rule lets go, which is then gone; no other bucket changes.
   */
  lemma CleanDeletionIff(w: World, env: Env, o: Oracle)
    requires FaultFree(o)
    ensures var d := DeletionPass(w, env, o);
            if Target(w).None? then d.ok && d.run.world.cloud == w.cloud
            else
              var spec := Target(w).value;
              var key := KeyOf(SpecPlace(spec), env.defaultRegion);
              if spec.deletionPolicy == Retain || spec.provider.Unsupported?
                  || (spec.provider == Akamai && spec.bucket == "")
              then d.ok && d.run.world.cloud == w.cloud
              else
                match Find(w.cloud, SpecPlace(spec), env.defaultRegion)
                case Missing => d.ok && d.run.world.cloud == w.cloud
                case Rejected => !d.ok && d.run.world.cloud == w.cloud
                case Here(b) =>
                  if DecideDelete(b.owner, w.claimant, PreviouslyCreatedByUs(w.status.storage, spec.bucket, w.now))
                  then d.ok && d.run.world.cloud == w.cloud - {key}
                  else !d.ok && d.run.world.cloud == w.cloud
  {
    if Target(w).Some? {
      var spec := Target(w).value;
      var r1 := Persist(MarkReady(Run(w, w.status), IsFalse), o(NOTE_CLEANUP));
      var key := KeyOf(SpecPlace(spec), env.defaultRegion);
      if key in w.cloud {
        var emptied := w.cloud[key := w.cloud[key].(owner := None)];
        assert emptied - {key} == w.cloud - {key};
      }
      assert CleanupAttempted(r1, spec, env, o).run.world.cloud == DeletionPass(w, env, o).run.world.cloud
          || spec.deletionPolicy == Retain || spec.provider.Unsupported?;
    }
  }

  /** A stage of a cleanup that fails stops it: no deletion without verification, and none of a bucket not emptied. */
  lemma CleanupStops(r: Run, spec: StorageSpec, env: Env, verify: Fault, empty: Fault, delete: Fault)
    requires spec.bucket != ""
    ensures var d, key := CloudCleaned(r, spec, env, verify, empty, delete), KeyOf(SpecPlace(spec), env.defaultRegion);
            && (d.ok ==> verify == empty == delete == NoFault)
            && (verify != NoFault ==> d == Done(r, false))
            && (empty != NoFault ==> (key in d.run.world.cloud <==> key in r.world.cloud))
            && (key in r.world.cloud && key !in d.run.world.cloud ==> delete.Effective())
  {
  }

  // ---------- what success means ----------

  /** Every call a pass for this spec depends on has worked. */
  predicate AllWorked(w: World, spec: StorageSpec, env: Env, o: Oracle) {
    && (w.claimant.ownershipId == "" ==> o(ASSIGN_ID) == NoFault)
    && o(MANAGER) == o(LOOK_UP) == o(READ_OWNER) == o(AFTER_CLAIM) == o(RECORD_READY) == o(WRITE_SECRET) == NoFault
    && (spec.provider == Akamai ==> o(ENSURE_KEY) == NoFault)
    && (spec.provider == AWS && env.roleArn != "" ==> o(ANNOTATE) == NoFault)
  }

  /** The bucket of the spec is there and marked as the claimant's in full. */
  predicate MarkedAsOurs(w: World, spec: StorageSpec, env: Env) {
    var key := KeyOf(SpecPlace(spec), env.defaultRegion);
    key in w.cloud && w.cloud[key].owner == Some(w.claimant.Record())
  }

  /** The status says that the spec's bucket is ready, and with which role or endpoint. */
  predicate SaysReady(status: Status, spec: StorageSpec, env: Env) {
    && status.ready == IsTrue && status.storage.Some?
    && (var st := status.storage.value;
        && StatusIdentity(st) == SpecIdentity(spec) && st.created
        && st.deletionPolicy == spec.deletionPolicy && st.secretName == spec.secretName
        && (spec.provider == AWS ==> st.aws.Some? && st.aws.value.roleArn == env.roleArn)
        && (spec.provider == Akamai ==> st.akamai.Some? && st.akamai.value.endpoint == env.endpoint))
  }

  lemma ClaimMarks(r: Run, spec: StorageSpec, env: Env, o: Oracle)
    requires Claimed(r, spec, env, o).outcome == Success
    ensures o(READ_OWNER) == NoFault && MarkedAsOurs(Claimed(r, spec, env, o).run.world, spec, env)
  {
  }

  lemma ProviderSuccess(r: Run, spec: StorageSpec, env: Env, o: Oracle)
    requires ProviderReconciled(r, spec, env, o).ok
    ensures var d := ProviderReconciled(r, spec, env, o);
            && MarkedAsOurs(d.run.world, spec, env) && SaysReady(d.run.mem, spec, env)
                && d.run.world.status == d.run.mem
            && o(MANAGER) == o(LOOK_UP) == o(READ_OWNER) == o(AFTER_CLAIM) == o(RECORD_READY) == NoFault
            && (spec.provider == Akamai ==> o(ENSURE_KEY) == NoFault)
            && (spec.provider == AWS && env.roleArn != "" ==> o(ANNOTATE) == NoFault)
            && (Find(r.world.cloud, SpecPlace(spec), env.defaultRegion) == Missing ==>
                  o(CREATE) == o(RECORD_CREATION) == NoFault)
  {
    ClaimMarks(BucketEnsured(r, spec, env, o).run, spec, env, o);
  }

  /**
   Success for a spec means: every call the pass depends on has worked, the bucket is there and marked as ours, and
   the status, in memory and persisted, says so, with the role or endpoint in use.
   */
  lemma SuccessMeansOwned(w: World, spec: StorageSpec, env: Env, o: Oracle)
    requires w.spec == Some(spec) && Reconcile(Run(w, w.status), env, o).ok
    ensures var d := Reconcile(Run(w, w.status), env, o);
            && AllWorked(w, spec, env, o) && MarkedAsOurs(d.run.world, spec, env)
            && SaysReady(d.run.mem, spec, env) && d.run.world.status == d.run.mem
            && (w.status.storage.None? && Find(w.cloud, SpecPlace(spec), env.defaultRegion) == Missing ==>
                  o(CREATE) == o(RECORD_CREATION) == NoFault)
  {
    var r0 := Run(w, w.status);
    var r := if w.status.storage.Some? && StatusIdentity(w.status.storage.value) != SpecIdentity(spec)
             then PreviousCleaned(r0, w.status.storage.value, env, o).run else r0;
    if w.status.storage.Some? {
      PreviousFacts(r0, env, o);
    }
    ProviderSuccess(OwnershipIdEnsured(r, env, o(ASSIGN_ID)).run, spec, env, o);
  }

  lemma CleanEnsure(r: Run, spec: StorageSpec, env: Env, o: Oracle)
    requires FaultFree(o) && Sound(spec, env) && Find(r.world.cloud, SpecPlace(spec), env.defaultRegion) == Missing
    ensures var e, key := BucketEnsured(r, spec, env, o), KeyOf(SpecPlace(spec), env.defaultRegion);
            && e.ok && key in e.run.world.cloud && e.run.world.cloud[key].owner.None?
            && e.run.mem.storage == Some(CreationRecord(spec, r.world.now))
            && e.run.world.claimant == r.world.claimant && e.run.world.now == r.world.now
            && e.run.world.log == r.world.log + [Created(SpecIdentity(spec), spec.endpoint, r.world.now)]
  {
  }

  lemma CleanReport(p: Provisioned, spec: StorageSpec, env: Env, o: Oracle)
    requires FaultFree(o) && p.outcome == Success && p.run.mem.storage == Some(CreationRecord(spec, p.run.world.now))
    ensures var d := ReportRecorded(p, spec, env, o);
            && d.ok && d.run.world.cloud == p.run.world.cloud && d.run.world.claimant == p.run.world.claimant
            && SaysReady(d.run.mem, spec, env) && d.run.world.status == d.run.mem
            && (d.run.world.log == p.run.world.log
                || d.run.world.log == p.run.world.log + [FirstReady(spec.provider, spec.bucket, p.run.world.now)])
  {
  }

  /** And the first clean pass succeeds: it creates the missing bucket, once, marks it and is ready. */
  lemma FirstCleanPass(w: World, spec: StorageSpec, env: Env, o: Oracle)
    requires FaultFree(o) && w.spec == Some(spec) && w.status.storage.None? && Sound(spec, env)
    requires Find(w.cloud, SpecPlace(spec), env.defaultRegion) == Missing
    ensures var d := Pass(w, env, o);
            var created := [Created(SpecIdentity(spec), spec.endpoint, w.now)];
            && d.ok && MarkedAsOurs(d.run.world, spec, env) && SaysReady(d.run.world.status, spec, env)
            && (d.run.world.log == w.log + created
                || d.run.world.log == w.log + created + [FirstReady(spec.provider, spec.bucket, w.now)])
  {
    var i := OwnershipIdEnsured(Run(w, w.status), env, o(ASSIGN_ID)).run;
    CleanEnsure(i, spec, env, o);
    var e := BucketEnsured(i, spec, env, o);
    CleanClaim(e.run, spec, env, o);
    var p := BucketReconciled(i, spec, env, o);
    assert p == Claimed(e.run, spec, env, o);
    CleanReport(p, spec, env, o);
  }

  // ---------- what failure leaves in the status ----------

  /** A provisioning that fails is noted: StorageReady is False, persisted, whatever closes the pass. */
  lemma FailureIsNoted(w: World, spec: StorageSpec, env: Env, o: Oracle)
    requires w.spec == Some(spec) && o(NOTE_NOT_READY) == NoFault
    requires w.status.storage.Some? ==> StatusIdentity(w.status.storage.value) == SpecIdentity(spec)
    requires w.claimant.ownershipId != "" || o(ASSIGN_ID) == NoFault
    requires var i := OwnershipIdEnsured(Run(w, w.status), env, o(ASSIGN_ID)).run;
             spec.provider.Unsupported? || o(MANAGER) != NoFault || BucketReconciled(i, spec, env, o).outcome != Success
    ensures var d := Pass(w, env, o); !d.ok && d.run.world.status.ready == IsFalse
  {
  }

  /** So is a deletion that fails. */
  lemma DeletionFailureIsNoted(w: World, env: Env, o: Oracle)
    requires !DeletionPass(w, env, o).ok && o(NOTE_FAILURE) == NoFault
    ensures DeletionPass(w, env, o).run.world.status.ready == IsFalse
  {
  }

  /**
   But a cleanup that fails while the Application lives on is noted on a copy, and the write that closes the pass puts
   the old condition back: a Ready bucket that could not be cleaned up goes on reading StorageReady=True.
   */
  lemma CleanupNoteIsOverwritten(w: World, env: Env, o: Oracle)
    requires w.status.storage.Some? && (w.spec.Some? ==>
        SpecIdentity(w.spec.value) != StatusIdentity(w.status.storage.value))
    requires !PreviousCleaned(Run(w, w.status), w.status.storage.value, env, o).ok
    requires !Finalize(Run(w, w.status), Some(SpecFromStatus(w.status.storage.value)), env, o).ok
    requires o(NOTE_FAILURE) == o(CLOSE) == NoFault
    ensures PreviousCleaned(Run(w, w.status), w.status.storage.value, env, o).run.world.status.ready == IsFalse
    ensures Pass(w, env, o).run.world.status == w.status
  {
    FinalizeFacts(Run(w, w.status), SpecFromStatus(w.status.storage.value), env, o);
  }

  /** A ready status that could not be written in time gets there with the write that closes the pass. */
  lemma LateStatusArrives(w: World, spec: StorageSpec, env: Env, o: Oracle, at: nat)
    requires OnRecord(w, spec, env, at) && Sound(spec, env)
        && PreviouslyCreatedByUs(w.status.storage, spec.bucket, w.now)
    requires o(RECORD_READY) == Lost && forall k: nat | k != RECORD_READY :: o(k) == NoFault
    ensures var d := Pass(w, env, o); !d.ok && SaysReady(d.run.world.status, spec, env)
  {
  }

  /**
   If that write meets a conflict, it carries the conditions only: StorageReady reads True while the storage status is
   still the one on record.
   */
  lemma LateStatusIsDropped(w: World, spec: StorageSpec, env: Env, o: Oracle, at: nat)
    requires OnRecord(w, spec, env, at) && Sound(spec, env)
        && PreviouslyCreatedByUs(w.status.storage, spec.bucket, w.now)
    requires o(RECORD_READY) == o(CLOSE_MERGES) == Lost
    requires forall k: nat | k != RECORD_READY && k != CLOSE_MERGES :: o(k) == NoFault
    ensures Pass(w, env, o).run.world.status == Status(w.status.storage, IsTrue)
  {
  }

  /**
   With no storage wanted and none recorded, a pass has only the Secret to see to, and fails iff that or its
   closing write does.
   */
  lemma NothingWanted(w: World, env: Env, o: Oracle)
    requires w.spec.None? && w.status.storage.None?
    ensures var d := Pass(w, env, o);
            && (d.ok <==> o(WRITE_SECRET) == o(CLOSE) == NoFault)
            && d.run.world.status == w.status && d.run.world.cloud == w.cloud && d.run.world.log == w.log
  {
  }

  /** And a recorded bucket is cleaned up even then; success needs the Secret too. */
  lemma NothingWantedAnyMore(w: World, env: Env, o: Oracle)
    requires w.spec.None? && w.status.storage.Some? && Reconcile(Run(w, w.status), env, o).ok
    ensures o(WRITE_SECRET) == o(CLEAR_STATUS) == NoFault
    ensures Reconcile(Run(w, w.status), env, o).run.world.status == Status(None, Absent)
  {
    PreviousFacts(Run(w, w.status), env, o);
  }
}
