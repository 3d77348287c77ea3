/**
 The two views of a provider agree: whatever a provider's own routines do, call by call, the controller's
 view of them, with one fault per stage, can do too, with the same success and the same bucket and record
 left behind. So what is proved of the controller over all faults covers every behaviour of the providers.
 */
module ProviderRefinement {
  import opened Api
  import opened Naming
  import opened Ownership
  import opened Storage
  import S3 = S3Ownership
  import Akamai = AkamaiOwnership
  import S3Cleanup
  import AkamaiStorage

  function At(cloud: Cloud, key: BucketKey): Option<CloudBucket> {
    if key in cloud then Some(cloud[key]) else None
  }

  /** Everything but the bucket under `key` is as before. */
  ghost predicate OnlyAt(cloud: Cloud, cloud': Cloud, key: BucketKey) {
    forall k | k != key :: At(cloud', k) == At(cloud, k)
  }

  // ---------- Akamai ----------

  /** The bucket as the controller sees it: its region and the record in its marker. */
  function AkamaiView(s: AkamaiStorage.State, ae: AkamaiStorage.Env): Option<CloudBucket> {
    if s.bucket.None? then None
    else Some(CloudBucket(ae.region, Akamai.RecordOf(AkamaiStorage.MarkerOf(s.bucket.value, ae))))
  }

  /** The controller's run and the provider's state are about the same bucket, asked for by the same Application. */
  predicate AkamaiMatches(r: Run, spec: StorageSpec, env: Env, s: AkamaiStorage.State, ae: AkamaiStorage.Env) {
    && spec.provider == Akamai && spec.bucket == ae.bucketName
        && ResolvedRegion(SpecIdentity(spec), env.defaultRegion) == ae.region
    && r.world.claimant == ae.me && env.view == ae.view && ae.me.uid != "" && ae.me.namespace != ""
    && ae.createdByUs == PreviouslyCreatedByUs(r.mem.storage, spec.bucket, r.world.now)
    && At(r.world.cloud, AkamaiKey(ae.region, ae.bucketName)) == AkamaiView(s, ae)
  }

  /** The provider's claim, from its marker read to its marker write, as two faults of the controller's. */
  datatype ClaimFaults = ClaimFaults(read: Fault, write: Fault)

  function ClaimFaultsOf(s: AkamaiStorage.State, pair: AkamaiStorage.Pair, ae: AkamaiStorage.Env,
      o: Oracle): ClaimFaults
    requires s.bucket.Some?
  {
    var readable := AkamaiStorage.Accepts(s, ae, pair) && o(s.calls) == NoFault
                    && (AkamaiStorage.MarkerOf(s.bucket.value, ae).Some? ==> o(s.calls + 1) == NoFault);
    ClaimFaults(if readable then NoFault else Lost, o(s.calls + 2))
  }

  lemma ClaimAgrees(r: Run, spec: StorageSpec, env: Env, o': Oracle, s: AkamaiStorage.State, pair: AkamaiStorage.Pair,
                    createdByUs: bool, ae: AkamaiStorage.Env, o: Oracle)
    requires s.bucket.Some? && AkamaiMatches(r, spec, env, s, ae.(createdByUs := createdByUs))
    requires ClaimFaults(o'(READ_OWNER), o'(WRITE_OWNER)) == ClaimFaultsOf(s, pair, ae, o)
    ensures var c, d := Claimed(r, spec, env, o'), AkamaiStorage.MarkerClaimed(s, pair, createdByUs, ae, o);
            var key := AkamaiKey(ae.region, ae.bucketName);
            && (c.outcome == Success <==> d.outcome == Success)
            && At(c.run.world.cloud, key) == AkamaiView(d.state, ae) && OnlyAt(r.world.cloud, c.run.world.cloud, key)
  {
    Akamai.ClaimRefinesDecision(AkamaiStorage.MarkerOf(s.bucket.value, ae), ae.me, createdByUs, ae.view);
    Akamai.MarkerRoundTrip(ae.me.Record());
  }

  /** Discarding the key touches no bucket. */
  lemma DiscardingKeepsBucket(d: AkamaiStorage.Done, ae: AkamaiStorage.Env, o: Oracle)
    ensures AkamaiStorage.Discarding(d, ae, o).outcome == d.outcome
    ensures AkamaiStorage.Discarding(d, ae, o).state.bucket == d.state.bucket
  {
  }

  /** The controller's faults for one provisioning by the provider. */
  function ProvisionFaults(s: AkamaiStorage.State, ae: AkamaiStorage.Env, o: Oracle): Oracle {
    var found := AkamaiStorage.BucketEnsured(s, ae, o);
    var key := AkamaiStorage.KeyEnsured(found.state, ae, o);
    var usable := key.pair.Some? && key.state.bucket.Some?;
    var claim := if usable then ClaimFaultsOf(key.state, key.pair.value, ae, o) else ClaimFaults(NoFault, NoFault);
    (n: nat) =>
      if n == LOOK_UP then o(s.calls)
      else if n == CREATE then o(s.calls + 1)
      else if n == RECORD_CREATION then o(s.calls + 2)
      else if n == ENSURE_KEY then if usable then NoFault else Lost
      else if n == READ_OWNER then claim.read
      else if n == WRITE_OWNER then claim.write
      else NoFault
  }

  lemma EnsuringAgrees(r: Run, spec: StorageSpec, env: Env, s: AkamaiStorage.State, ae: AkamaiStorage.Env,
                       o': Oracle, o: Oracle)
    requires AkamaiMatches(r, spec, env, s, ae) && ae.bucketName != "" && ae.region != ""
    requires o'(LOOK_UP) == o(s.calls) && o'(CREATE) == o(s.calls + 1) && o'(RECORD_CREATION) == o(s.calls + 2)
    ensures var e, found := BucketEnsured(r, spec, env, o'), AkamaiStorage.BucketEnsured(s, ae, o);
            var key := AkamaiKey(ae.region, ae.bucketName);
            && e.ok == found.ok && OnlyAt(r.world.cloud, e.run.world.cloud, key)
            && At(e.run.world.cloud, key) == AkamaiView(found.state, ae)
            && (e.ok ==>
                  && found.state.bucket.Some?
                  && AkamaiMatches(e.run, spec, env, found.state, ae.(createdByUs := ae.createdByUs || found.created)))
  {
  }

  /** The rest of a provisioning, from the key on. */
  lemma ClaimingAgrees(e: Done, spec: StorageSpec, env: Env, found: AkamaiStorage.State, createdByUs: bool,
                       ae: AkamaiStorage.Env, o': Oracle, o: Oracle)
    requires e.ok && found.bucket.Some? && AkamaiMatches(e.run, spec, env, found, ae.(createdByUs := createdByUs))
    requires o'(AFTER_CLAIM) == NoFault
    requires var key := AkamaiStorage.KeyEnsured(found, ae, o);
             && (o'(ENSURE_KEY) == NoFault <==> key.pair.Some? && key.state.bucket.Some?)
             && (key.pair.Some? && key.state.bucket.Some? ==>
                   ClaimFaults(o'(READ_OWNER), o'(WRITE_OWNER)) == ClaimFaultsOf(key.state, key.pair.value, ae, o))
    ensures var p := ClaimedAfter(e, spec, env, o');
            var q := AkamaiStorage.ClaimedWith(AkamaiStorage.KeyEnsured(found, ae, o), createdByUs, ae, o);
            var key := AkamaiKey(ae.region, ae.bucketName);
            && (p.outcome == Success <==> q.outcome == Success)
            && At(p.run.world.cloud, key) == AkamaiView(q.state, ae)
                && OnlyAt(e.run.world.cloud, p.run.world.cloud, key)
  {
    var key := AkamaiStorage.KeyEnsured(found, ae, o);
    AkamaiStorage.EnsuringKeepsBucket(found, ae, o);
    if key.pair.Some? {
      ClaimAgrees(e.run, spec, env, o', key.state, key.pair.value, createdByUs, ae, o);
      DiscardingKeepsBucket(AkamaiStorage.MarkerClaimed(key.state, key.pair.value, createdByUs, ae, o), ae, o);
    }
  }

  /**
   Provisioning on Akamai, with its key handling and with any call failing, is one of the behaviours the
   controller's view allows: same success, same bucket, same record, no other bucket touched.
   */
  lemma AkamaiProvisioningRefines(r: Run, spec: StorageSpec, env: Env,
                                  s: AkamaiStorage.State, ae: AkamaiStorage.Env, o: Oracle)
    returns (o': Oracle)
    requires AkamaiMatches(r, spec, env, s, ae)
    ensures var p, q := BucketReconciled(r, spec, env, o'), AkamaiStorage.BucketReconciled(s, ae, o);
            var key := AkamaiKey(ae.region, ae.bucketName);
            && (p.outcome == Success <==> q.outcome == Success)
            && At(p.run.world.cloud, key) == AkamaiView(q.state, ae) && OnlyAt(r.world.cloud, p.run.world.cloud, key)
  {
    o' := ProvisionFaults(s, ae, o);
    if ae.bucketName != "" && ae.region != "" {
      EnsuringAgrees(r, spec, env, s, ae, o', o);
      var e, found := BucketEnsured(r, spec, env, o'), AkamaiStorage.BucketEnsured(s, ae, o);
      if e.ok {
        ClaimingAgrees(e, spec, env, found.state, ae.createdByUs || found.created, ae, o', o);
      }
    }
  }

  /** A cleanup stage by stage: everything up to the ownership check, emptying, deleting. */
  datatype CleanupFaults = CleanupFaults(verify: Fault, empty: Fault, delete: Fault)

  /** Emptying that fails may or may not have taken the marker along. */
  function EmptyFault(ok: bool, markerLeft: bool): Fault { if ok then NoFault else if markerLeft then Lost else Late }

  function AkamaiCleanupFaults(s: AkamaiStorage.State, ae: AkamaiStorage.Env, o: Oracle): CleanupFaults {
    var s1 := s.Called(1);
    var emptied := AkamaiStorage.VerifiedAndEmptied(s, ae, o);
    var deletion := o(AkamaiStorage.KeyDeleted(emptied.state, ae, o).state.calls);
    if o(s.calls) != NoFault then CleanupFaults(Lost, Lost, Lost)
    else if s.bucket.None? then CleanupFaults(NoFault, NoFault, if deletion == NoFault then NoFault else Lost)
    else
      var key := AkamaiStorage.KeyEnsured(s1, ae, o);
      if key.pair.None? || key.state.bucket.None? then CleanupFaults(Lost, Lost, Lost)
      else
        var claim := ClaimFaultsOf(key.state, key.pair.value, ae, o);
        var markerLeft := emptied.state.bucket.Some? && AkamaiStorage.MarkerOf(emptied.state.bucket.value, ae).Some?;
        CleanupFaults(claim.read, EmptyFault(emptied.outcome == Success, markerLeft), deletion)
  }

  /** The verification and emptying of an Akamai bucket that exists, once a key is there. */
  lemma EmptyingAgrees(s: AkamaiStorage.State, pair: AkamaiStorage.Pair, ae: AkamaiStorage.Env, o: Oracle)
    requires s.bucket.Some?
    ensures var d := AkamaiStorage.EmptiedWith(s, pair, ae, o);
            var before := AkamaiStorage.MarkerOf(s.bucket.value, ae);
            && d.state.bucket.Some?
            && (d.outcome == Success ==> AkamaiStorage.MayDelete(s, ae) && ClaimFaultsOf(s, pair, ae, o).read == NoFault
                                         && d.state.bucket.value.contents == {})
            && (!AkamaiStorage.MayDelete(s, ae) || ClaimFaultsOf(s, pair, ae, o).read != NoFault ==>
                d.state.bucket == s.bucket)
            && (AkamaiStorage.MarkerOf(d.state.bucket.value, ae) in {None, before})
  {
    var s2 := s.Called(2);
    AkamaiStorage.Beginning(s2);
    AkamaiStorage.PagesComplete(s2, -1, ae, o);
  }

  lemma MayDeleteIsDecided(s: AkamaiStorage.State, ae: AkamaiStorage.Env)
    requires s.bucket.Some?
    ensures AkamaiStorage.MayDelete(s, ae)
         == DecideDelete(Akamai.RecordOf(AkamaiStorage.MarkerOf(s.bucket.value, ae)), ae.me, ae.createdByUs)
  {
  }

  /** Verification and emptying, against the faults of the stages they make up. */
  lemma VerifyingAgrees(s: AkamaiStorage.State, ae: AkamaiStorage.Env, o: Oracle)
    requires s.bucket.Some? && o(s.calls) == NoFault
    ensures var f, d := AkamaiCleanupFaults(s, ae, o), AkamaiStorage.VerifiedAndEmptied(s, ae, o);
            var allowed := f.verify == NoFault && AkamaiStorage.MayDelete(s, ae);
            && d.state.bucket.Some?
            && (d.outcome == Success <==> allowed && f.empty == NoFault)
            && (d.outcome == Success ==> d.state.bucket.value.contents == {})
            && AkamaiView(d.state, ae) == Some(
                 CloudBucket(ae.region, if allowed && f.empty.Effective() then None else AkamaiView(s, ae).value.owner))
  {
    var key := AkamaiStorage.KeyEnsured(s.Called(1), ae, o);
    AkamaiStorage.EnsuringKeepsBucket(s.Called(1), ae, o);
    if key.pair.Some? {
      EmptyingAgrees(key.state, key.pair.value, ae, o);
      DiscardingKeepsBucket(AkamaiStorage.EmptiedWith(key.state, key.pair.value, ae, o), ae, o);
    }
  }

  /**
   Likewise for cleanup on Akamai, with its key handling, its paging and its deferred steps: same success, the
   bucket is gone or left with the same record, and no other bucket is touched.
   */
  lemma AkamaiCleanupRefines(r: Run, spec: StorageSpec, env: Env,
                             s: AkamaiStorage.State, ae: AkamaiStorage.Env, o: Oracle)
    returns (f: CleanupFaults)
    requires AkamaiMatches(r, spec, env, s, ae) && ae.region != ""
    ensures var p, q := CloudCleaned(r, spec, env, f.verify, f.empty, f.delete), AkamaiStorage.BucketDeleted(s, ae, o);
            var key := AkamaiKey(ae.region, ae.bucketName);
            && (p.ok <==> q.outcome == Success)
            && At(p.run.world.cloud, key) == AkamaiView(q.state, ae) && OnlyAt(r.world.cloud, p.run.world.cloud, key)
  {
    f := AkamaiCleanupFaults(s, ae, o);
    if o(s.calls) == NoFault && s.bucket.Some? {
      VerifyingAgrees(s, ae, o);
      MayDeleteIsDecided(s, ae);
    }
  }

  // ---------- S3 ----------

  function S3View(bucket: Option<S3Cleanup.Bucket>, region: string): Option<CloudBucket> {
    if bucket.None? then None else Some(CloudBucket(region, S3.RecordOf(bucket.value.tags)))
  }

  /** The controller's run and the provider's state are about the same bucket, in the region asked for. */
  ghost predicate S3Matches(r: Run, spec: StorageSpec, env: Env, s: S3Cleanup.State, se: S3Cleanup.Env) {
    && spec.provider == AWS && spec.bucket != "" && r.world.claimant == se.me
    && se.createdByUs == PreviouslyCreatedByUs(r.mem.storage, spec.bucket, r.world.now)
    && (s.cloud.bucket.Some? ==> S3.WellFormed(s.cloud.bucket.value.tags))
    && At(r.world.cloud, S3Key(spec.endpoint, spec.bucket)) == S3View(s.cloud.bucket,
        ResolvedRegion(SpecIdentity(spec), env.defaultRegion))
  }

  /** A claim through tags, with either call failing, is the controller's claim with the same faults. */
  lemma S3ClaimRefines(r: Run, spec: StorageSpec, env: Env, o: Oracle, s: S3Cleanup.State, se: S3Cleanup.Env)
    requires S3Matches(r, spec, env, s, se) && s.cloud.bucket.Some?
    ensures var c := Claimed(r, spec, env, o);
            var d := S3.Claim(s.cloud.bucket.value.tags, se.me, se.createdByUs, env.view, o(READ_OWNER),
                o(WRITE_OWNER));
            var after := Some(s.cloud.bucket.value.(tags := d.tags));
            && c.outcome == d.outcome
            && At(c.run.world.cloud, S3Key(spec.endpoint, spec.bucket))
                == S3View(after, ResolvedRegion(SpecIdentity(spec), env.defaultRegion))
            && OnlyAt(r.world.cloud, c.run.world.cloud, S3Key(spec.endpoint, spec.bucket))
  {
    S3.ClaimRefinesDecision(s.cloud.bucket.value.tags, se.me, se.createdByUs, env.view);
    S3.ClaimedTags(s.cloud.bucket.value.tags, se.me);
  }

  /** Emptying, versions and then uploads, takes neither the bucket nor its tags. */
  lemma S3EmptyingKeepsTags(s: S3Cleanup.State, se: S3Cleanup.Env, o: Oracle)
    ensures var v := S3Cleanup.PagesDeleted(s, -1, se, o);
            var u := S3Cleanup.UploadsAborted(v.state, o);
            && SameTags(s, v.state) && SameTags(s, u.state)
  {
    if s.cloud.bucket.Some? {
      S3Cleanup.AllBeyondStart(s.cloud.bucket.value.items);
      S3Cleanup.PagesComplete(s, -1, se, o);
      var v := S3Cleanup.PagesDeleted(s, -1, se, o).state;
      S3Cleanup.AbortsShrink(v.Called(v.cloud), S3Cleanup.FirstUploads(v.cloud.bucket.value.uploads), 0, o);
    }
  }

  ghost predicate SameTags(s: S3Cleanup.State, s': S3Cleanup.State) {
    && (s.cloud.bucket.Some? <==> s'.cloud.bucket.Some?)
    && (s.cloud.bucket.Some? ==> s'.cloud.bucket.value.tags == s.cloud.bucket.value.tags)
  }

  function S3CleanupFaults(s: S3Cleanup.State, se: S3Cleanup.Env, o: Oracle): CleanupFaults {
    var role := S3Cleanup.IrsaCleaned(s, o).state;
    var versions := S3Cleanup.PagesDeleted(role.Called(role.cloud), -1, se, o);
    var uploads := S3Cleanup.UploadsAborted(versions.state, o);
    var deletion := S3Cleanup.BucketDeleted(uploads.state, o);
    CleanupFaults(
      o(role.calls),
      if versions.ok && uploads.ok then NoFault else Lost,
      if deletion.ok then NoFault else if deletion.state.cloud.bucket.None? then Late else Lost)
  }

  /**
   Likewise for cleanup on S3, with its role, its paging, batches and uploads: same success, the bucket is gone or left
   with the same record, and no other bucket is touched.
   */
  lemma S3CleanupRefines(r: Run, spec: StorageSpec, env: Env, s: S3Cleanup.State, se: S3Cleanup.Env, o: Oracle)
    returns (f: CleanupFaults)
    requires S3Matches(r, spec, env, s, se)
    ensures var p, q := CloudCleaned(r, spec, env, f.verify, f.empty, f.delete), S3Cleanup.Attempt(s, se, o);
            && (p.ok <==> q.ok)
            && At(p.run.world.cloud, S3Key(spec.endpoint, spec.bucket))
               == S3View(q.state.cloud.bucket, ResolvedRegion(SpecIdentity(spec), env.defaultRegion))
            && OnlyAt(r.world.cloud, p.run.world.cloud, S3Key(spec.endpoint, spec.bucket))
  {
    f := S3CleanupFaults(s, se, o);
    S3Cleanup.RoleCleaned(s, o);
    var role := S3Cleanup.IrsaCleaned(s, o).state;
    S3EmptyingKeepsTags(role.Called(role.cloud), se, o);
    if s.cloud.bucket.Some? {
      S3.DeleteRefinesDecision(s.cloud.bucket.value.tags, se.me, se.createdByUs);
    }
  }
}
