/**
 Storage reconciliation and finalization of one Application (internal/controller/storage.go,
 internal/controller/finalizer.go): how a bucket identity travels from spec to status, and what is
 cleaned up, and when.

 The providers are seen through the ownership decision of module Ownership. Every call of a pass
 may fail; `o(n)` is the fault of the call numbered `n` in the pass. The spec is fixed within a pass
 and every pass starts from a fresh read of the persisted status.
 */
module Storage {
  import opened Api
  import opened Naming
  import opened Ownership

  const AWS_DEFAULT_REGION := "us-east-1"

  // ---------- state ----------

  /** The StorageReady condition. */
  datatype Condition = Absent | IsFalse | IsTrue

  datatype Status = Status(storage: Option<StorageStatus>, ready: Condition)

  /**
   S3 bucket names are global in the store that answers at the endpoint, "" for AWS itself; Akamai bucket names
   are per region.
   */
  datatype BucketKey = S3Key(endpoint: string, name: string) | AkamaiKey(region: string, name: string)

  datatype CloudBucket = CloudBucket(region: string, owner: Option<OwnerRecord>)

  type Cloud = map<BucketKey, CloudBucket>

  datatype Event =
    | Created(identity: Identity, endpoint: string, at: nat) // the operator created the bucket
    | FirstReady(provider: Provider, bucket: string, at: nat) // found ready with no creation time on record
    | Removed(provider: Provider, bucket: string)            // the operator deleted the bucket
    | Finalized(identity: Identity)                          // finalization of this identity returned success

  datatype World = World(
    spec: Option<StorageSpec>,
    claimant: Claimant,
    status: Status,      // persisted
    cloud: Cloud,
    now: nat,
    log: seq<Event>)

  /** A pass under way: the world, and the status of the Application object in memory. */
  datatype Run = Run(world: World, mem: Status)
  {
    function Logged(e: Event): Run { this.(world := world.(log := world.log + [e])) }
    function WithCloud(cloud: Cloud): Run { this.(world := world.(cloud := cloud)) }
  }

  /** What a pass is given from outside; `defaultRegion` is Akamai's, from the operator's configuration. */
  datatype Env = Env(defaultRegion: string, view: ClusterView, freshId: string, roleArn: string, endpoint: string)

  datatype Done = Done(run: Run, ok: bool)

  function ResolvedRegion(id: Identity, defaultRegion: string): string {
    if id.region != "" then id.region
    else match id.provider
         case AWS => AWS_DEFAULT_REGION
         case Akamai => defaultRegion
         case Unsupported(_) => ""
  }

  /** Where a bucket is looked up: its identity, and the endpoint, which only S3 heeds and no status records. */
  datatype Place = Place(id: Identity, endpoint: string)

  function SpecPlace(spec: StorageSpec): Place { Place(SpecIdentity(spec), spec.endpoint) }

  function KeyOf(p: Place, defaultRegion: string): BucketKey {
    if p.id.provider == Akamai then AkamaiKey(ResolvedRegion(p.id, defaultRegion), p.id.bucket)
    else S3Key(p.endpoint, p.id.bucket)
  }

  datatype Lookup = Missing | Rejected | Here(bucket: CloudBucket)

  /**
   S3 answers a request from the wrong region, or without a bucket name, with an error; Akamai answers the former
   with "not found" and rejects a blank region.
   */
  function Find(cloud: Cloud, p: Place, defaultRegion: string): Lookup {
    var key, region := KeyOf(p, defaultRegion), ResolvedRegion(p.id, defaultRegion);
    if p.id.bucket == "" || (p.id.provider == Akamai && region == "") then Rejected
    else if key !in cloud then Missing
    else if p.id.provider != Akamai && cloud[key].region != region then Rejected
    else Here(cloud[key])
  }

  /**
   retryStatusUpdate, seen from outside: writes the whole in-memory status. When it gives up after conflicts,
   the status in memory is the server's.
   */
  function Persist(r: Run, f: Fault): Run {
    if f.Effective() then r.(world := r.world.(status := r.mem))
    else if f.Conflicts? then r.(mem := r.world.status)
    else r
  }

  function MarkReady(r: Run, c: Condition): Run { r.(mem := r.mem.(ready := c)) }

  // ---------- calls ----------

  // The calls of a pass, in order of time.
  const NOTE_CLEANUP := 0 // status: cleanup in progress
  const CLEANUP_MANAGER := 1 // setting up the provider's manager
  const VERIFY := 2 // everything up to the ownership check
  const EMPTY := 3 // emptying the bucket
  const DELETE := 4 // deleting the bucket
  const NOTE_FAILURE := 5 // status: cleanup failed
  const CLEAR_STATUS := 6 // status: storage cleared
  const SET_FINALIZER := 7 // adding or removing the finalizer
  const ASSIGN_ID := 10 // ensureStorageOwnershipID
  const MANAGER := 20 // setting up the provider's manager
  const LOOK_UP := 21 // looking the bucket up
  const CREATE := 22 // creating it
  const RECORD_CREATION := 23 // status: creation record
  const ENSURE_KEY := 24 // Akamai's access key
  const READ_OWNER := 25 // reading the ownership record
  const WRITE_OWNER := 26 // writing it
  const AFTER_CLAIM := 27 // everything after the claim
  const NOTE_NOT_READY := 28 // status: not ready or not owned
  const ANNOTATE := 29 // annotating the ServiceAccount
  const RECORD_READY := 30 // status: ready
  const WRITE_SECRET := 40 // the storage Secret
  const CLOSE := 50 // the status write that closes a pass
  const CLOSE_MERGES := 51 // whether that one met a conflict first

  // ---------- from spec to status and back ----------

  /** The creation record: no region, no deletion policy, no credentials reference. */
  function CreationRecord(spec: StorageSpec, now: nat): StorageStatus {
    StorageStatus(spec.provider, spec.bucket, "", true, now, "", Unset, None, None)
  }

  /** The creation time is carried forward, and is now only if none was recorded. */
  function CreatedAt(previous: Option<StorageStatus>, now: nat): nat {
    if previous.Some? && previous.value.createdAt != 0 then previous.value.createdAt else now
  }

  function ReadyStatus(spec: StorageSpec, createdAt: nat, env: Env): StorageStatus {
    StorageStatus(spec.provider, spec.bucket, spec.region, true, createdAt, spec.secretName, spec.deletionPolicy,
      if spec.provider == AWS
      then Some(AwsStatus(env.roleArn, if spec.aws.Some? then spec.aws.value.credentialsSecretRef else ""))
      else None,
      if spec.provider == Akamai
      then Some(AkamaiStatus(env.endpoint, if spec.akamai.Some? then spec.akamai.value.accessKeySecretRef else ""))
      else None)
  }

  /** storageSpecFromStatus */
  function SpecFromStatus(st: StorageStatus): StorageSpec {
    StorageSpec(st.provider, st.bucket, st.region, st.deletionPolicy, "", st.secretName,
      if st.aws.Some? && st.aws.value.credentialsSecretRef != "" then Some(AwsSpec(st.aws.value.credentialsSecretRef))
          else None,
      if st.akamai.Some? && st.akamai.value.accessKeySecretRef != ""
          then Some(AkamaiSpec(st.akamai.value.accessKeySecretRef)) else None)
  }

  /** The CRD rejects the other provider's block. */
  predicate CrdValid(spec: StorageSpec) {
    (spec.provider == AWS ==> spec.akamai.None?) && (spec.provider == Akamai ==> spec.aws.None?)
  }

  /**
   Cleanup round trip: a spec rebuilt from the status of a Ready bucket has the same identity and
   deletion policy and resolves to the same Secrets. Only the endpoint is lost, unless it was blank.
   */
  lemma CleanupRoundTrip(name: string, spec: StorageSpec, createdAt: nat, env: Env)
    requires !spec.provider.Unsupported?
    ensures var back := SpecFromStatus(ReadyStatus(spec, createdAt, env));
            && SpecIdentity(back) == SpecIdentity(spec) && back.deletionPolicy == spec.deletionPolicy
            && StorageSecret(name, Some(back)) == StorageSecret(name, Some(spec))
            && (spec.provider == AWS ==> AwsCredentialsSecret(back) == AwsCredentialsSecret(spec))
            && (spec.provider == Akamai ==> AkamaiTokenSecret(name, Some(back)) == AkamaiTokenSecret(name, Some(spec)))
            && (CrdValid(spec) ==>
                && AwsCredentialsSecret(back) == AwsCredentialsSecret(spec)
                && AkamaiTokenSecret(name, Some(back)) == AkamaiTokenSecret(name, Some(spec)))
            && (back.endpoint == spec.endpoint <==> spec.endpoint == "")
  {
  }

  // ---------- finalization ----------

  /** Deletes the bucket of `storage` in the cloud. Emptying an Akamai bucket takes its marker along. */
  function CloudCleaned(r: Run, storage: StorageSpec, env: Env, verify: Fault, empty: Fault, delete: Fault): Done {
    var id := SpecIdentity(storage);
    var key := KeyOf(SpecPlace(storage), env.defaultRegion);
    if id.provider == Akamai && id.bucket == "" then Done(r, true)
    else if verify != NoFault then Done(r, false)
    else
      match Find(r.world.cloud, SpecPlace(storage), env.defaultRegion)
      case Missing => Done(r, empty == NoFault && delete == NoFault)
      case Rejected => Done(r, false)
      case Here(b) =>
        var createdByUs := PreviouslyCreatedByUs(r.mem.storage, storage.bucket, r.world.now);
        if !DecideDelete(b.owner, r.world.claimant, createdByUs) then Done(r, false)
        else
          var emptied := if id.provider == Akamai && empty.Effective()
                         then r.WithCloud(r.world.cloud[key := b.(owner := None)]) else r;
          if empty != NoFault then Done(emptied, false)
          else if delete.Effective() then
            var removed := Removed(id.provider, id.bucket);
            Done(emptied.WithCloud(emptied.world.cloud - {key}).Logged(removed), delete == NoFault)
          else Done(emptied, false)
  }

  function CleanupAttempted(r: Run, storage: StorageSpec, env: Env, o: Oracle): Done {
    if o(CLEANUP_MANAGER) != NoFault then Done(r, false)
    else CloudCleaned(r, storage, env, o(VERIFY), o(EMPTY), o(DELETE))
  }

  function CleanupReported(d: Done, id: Identity, o: Oracle): Done {
    if d.ok then Done(d.run.Logged(Finalized(id)), true)
    else Done(Persist(MarkReady(d.run, IsFalse), o(NOTE_FAILURE)), false)
  }

  /** finalizeApplication: the spec wins over the status. */
  function Finalize(r: Run, spec: Option<StorageSpec>, env: Env, o: Oracle): Done {
    var storage := if spec.Some? then spec
                   else if r.mem.storage.Some? then Some(SpecFromStatus(r.mem.storage.value)) else None;
    if storage.None? then Done(r, true)
    else
      var id := SpecIdentity(storage.value);
      if storage.value.deletionPolicy == Retain then
        Done(Persist(MarkReady(r, IsFalse), o(NOTE_CLEANUP)).Logged(Finalized(id)), true)
      else if id.provider.Unsupported? then Done(r.Logged(Finalized(id)), true)
      else
        CleanupReported(CleanupAttempted(Persist(MarkReady(r, IsFalse), o(NOTE_CLEANUP)), storage.value, env, o), id, o)
  }

  /** cleanupPreviousStorage: finalizes what the status records, on a copy, then clears the status. */
  function PreviousCleaned(r: Run, recorded: StorageStatus, env: Env, o: Oracle): Done {
    var d := Finalize(r, Some(SpecFromStatus(recorded)), env, o);
    if !d.ok then Done(d.run.(mem := r.mem), false)
    else
      var cleared := d.run.(mem := Status(None, Absent));
      Done(Persist(cleared, o(CLEAR_STATUS)), o(CLEAR_STATUS) == NoFault)
  }

  // ---------- provisioning ----------

  datatype Provisioned = Provisioned(run: Run, outcome: Outcome)

  /** ensureBucketExists with its creation record */
  function BucketEnsured(r: Run, spec: StorageSpec, env: Env, o: Oracle): Done {
    var id := SpecIdentity(spec);
    if o(LOOK_UP) != NoFault then Done(r, false)
    else
      match Find(r.world.cloud, SpecPlace(spec), env.defaultRegion)
      case Here(_) => Done(r, true)
      case Rejected => Done(r, false)
      case Missing =>
        if !o(CREATE).Effective() then Done(r, false)
        else
          var key, region := KeyOf(SpecPlace(spec), env.defaultRegion), ResolvedRegion(id, env.defaultRegion);
          var r1 := r.WithCloud(r.world.cloud[key := CloudBucket(region, None)])
                     .Logged(Created(id, spec.endpoint, r.world.now));
          if o(CREATE) != NoFault then Done(r1, false)
          else
            var r2 := r1.(mem := r1.mem.(storage := Some(CreationRecord(spec, r.world.now))));
            Done(Persist(r2, o(RECORD_CREATION)), o(RECORD_CREATION) == NoFault)
  }

  /** claimOrVerifyOwnership */
  function Claimed(r: Run, spec: StorageSpec, env: Env, o: Oracle): Provisioned {
    var key := KeyOf(SpecPlace(spec), env.defaultRegion);
    if o(READ_OWNER) != NoFault || key !in r.world.cloud then Provisioned(r, NotOwned)
    else
      var b := r.world.cloud[key];
      match Decide(b.owner, r.world.claimant, PreviouslyCreatedByUs(r.mem.storage, spec.bucket, r.world.now), env.view)
      case Keep => Provisioned(r, Success)
      case Refuse => Provisioned(r, NotOwned)
      case Write =>
        Provisioned(if o(WRITE_OWNER).Effective()
                    then r.WithCloud(r.world.cloud[key := b.(owner := Some(r.world.claimant.Record()))]) else r,
                    if o(WRITE_OWNER) == NoFault then Success else Failed)
  }

  /** What follows once the bucket exists */
  function ClaimedAfter(e: Done, spec: StorageSpec, env: Env, o: Oracle): Provisioned {
    if !e.ok then Provisioned(e.run, Failed)
    else if spec.provider == Akamai && o(ENSURE_KEY) != NoFault then Provisioned(e.run, Failed)
    else
      var c := Claimed(e.run, spec, env, o);
      if c.outcome == Success && o(AFTER_CLAIM) != NoFault then Provisioned(c.run, Failed) else c
  }

  /** ReconcileBucket of either provider */
  function BucketReconciled(r: Run, spec: StorageSpec, env: Env, o: Oracle): Provisioned {
    if spec.provider == Akamai && (spec.bucket == "" || ResolvedRegion(SpecIdentity(spec), env.defaultRegion) == "")
        then Provisioned(r, Failed)
    else ClaimedAfter(BucketEnsured(r, spec, env, o), spec, env, o)
  }

  /** The status of a bucket that is ready */
  function ReadyRecorded(r: Run, spec: StorageSpec, env: Env, o: Oracle): Done {
    var at := CreatedAt(r.mem.storage, r.world.now);
    var first := r.mem.storage.None? || r.mem.storage.value.createdAt == 0;
    var r1 := r.(mem := Status(Some(ReadyStatus(spec, at, env)), IsTrue));
    var r2 := if first then r1.Logged(FirstReady(spec.provider, spec.bucket, at)) else r1;
    Done(Persist(r2, o(RECORD_READY)), o(RECORD_READY) == NoFault)
  }

  /** Whatever ReconcileBucket reported goes into the status. */
  function ReportRecorded(p: Provisioned, spec: StorageSpec, env: Env, o: Oracle): Done {
    if p.outcome != Success then Done(Persist(MarkReady(p.run, IsFalse), o(NOTE_NOT_READY)), false)
    else if spec.provider == AWS && env.roleArn != "" && o(ANNOTATE) != NoFault then Done(p.run, false)
    else ReadyRecorded(p.run, spec, env, o)
  }

  /** reconcileAWSStorage and reconcileAkamaiStorage */
  function ProviderReconciled(r: Run, spec: StorageSpec, env: Env, o: Oracle): Done {
    if o(MANAGER) != NoFault then Done(Persist(MarkReady(r, IsFalse), o(NOTE_NOT_READY)), false)
    else ReportRecorded(BucketReconciled(r, spec, env, o), spec, env, o)
  }

  function OwnershipIdEnsured(r: Run, env: Env, f: Fault): Done {
    if r.world.claimant.ownershipId != "" then Done(r, true)
    else
      var identified := r.(world := r.world.(claimant := r.world.claimant.(ownershipId := env.freshId)));
      Done(if f.Effective() then identified else r, f == NoFault)
  }

  /** reconcileStorage once the status agrees with the spec */
  function SpecReconciled(r: Run, spec: StorageSpec, env: Env, o: Oracle): Done {
    var i := OwnershipIdEnsured(r, env, o(ASSIGN_ID));
    if !i.ok then i
    else if spec.provider.Unsupported? then Done(Persist(MarkReady(i.run, IsFalse), o(NOTE_NOT_READY)), false)
    else
      var p := ProviderReconciled(i.run, spec, env, o);
      Done(p.run, p.ok && o(WRITE_SECRET) == NoFault)
  }

  /** reconcileStorage */
  function Reconcile(r: Run, env: Env, o: Oracle): Done {
    match r.world.spec
    case None =>
      if r.mem.storage.Some? then
        var d := PreviousCleaned(r, r.mem.storage.value, env, o);
        Done(d.run, d.ok && o(WRITE_SECRET) == NoFault)
      else Done(r, o(WRITE_SECRET) == NoFault)
    case Some(spec) =>
      if r.mem.storage.Some? && StatusIdentity(r.mem.storage.value) != SpecIdentity(spec) then
        var d := PreviousCleaned(r, r.mem.storage.value, env, o);
        if !d.ok then d else SpecReconciled(d.run, spec, env, o)
      else SpecReconciled(r, spec, env, o)
  }

  /**
   The status write that closes a pass, whatever became of it: the whole status in memory, or, after
   a conflict, only its conditions.
   */
  function Closed(d: Done, o: Oracle): Done {
    var r := d.run;
    if !o(CLOSE).Effective() then Done(r, false)
    else
      var status := if o(CLOSE_MERGES) == NoFault then r.mem else Status(r.world.status.storage, r.mem.ready);
      Done(r.(world := r.world.(status := status)), d.ok && o(CLOSE) == NoFault)
  }

  /** One storage pass over a live Application. */
  function Pass(w: World, env: Env, o: Oracle): Done { Closed(Reconcile(Run(w, w.status), env, o), o) }

  /** One finalizer pass over an Application being deleted; on success the finalizer goes. */
  function DeletionPass(w: World, env: Env, o: Oracle): Done { Finalize(Run(w, w.status), w.spec, env, o) }

  /** `stop`: the rest of the pass is skipped. */
  datatype Handled = Handled(run: Run, finalizer: bool, stop: bool, ok: bool)

  /** handleFinalizer */
  function FinalizerHandled(r: Run, deleting: bool, finalizer: bool, env: Env, o: Oracle): Handled {
    if deleting && finalizer then
      var d := Finalize(r, r.world.spec, env, o);
      if !d.ok then Handled(d.run, true, true, false)
      else Handled(d.run, !o(SET_FINALIZER).Effective(), true, o(SET_FINALIZER) == NoFault)
    else if deleting then Handled(r, false, true, true)
    else if finalizer then Handled(r, true, false, true)
    else Handled(r, o(SET_FINALIZER).Effective(), false, o(SET_FINALIZER) == NoFault)
  }

  // ---------- the controller ----------

  /** The reconciler's storage part, working on the persisted Application and the object in memory. */
  class StorageReconciler {
    const env: Env
    const oracle: Oracle
    var world: World
    var mem: Status

    constructor (env: Env, oracle: Oracle, world: World)
      ensures this.env == env && this.oracle == oracle && Current() == Run(world, world.status)
    {
      this.env, this.oracle, this.world, this.mem := env, oracle, world, world.status;
    }

    function Current(): Run reads this { Run(world, mem) }

    method RetryStatusUpdate(f: Fault) returns (ok: bool)
      modifies this
      ensures Current() == Persist(old(Current()), f) && ok == (f == NoFault)
    {
      if f.Effective() {
        world := world.(status := mem);
      } else if f.Conflicts? {
        mem := world.status;
      }
      ok := f == NoFault;
    }

    method Log(e: Event)
      modifies this
      ensures Current() == old(Current()).Logged(e)
    {
      world := world.(log := world.log + [e]);
    }

    /** A best-effort note in the status. */
    method RecordNotReady(call: nat)
      modifies this
      ensures Current() == Persist(MarkReady(old(Current()), IsFalse), oracle(call))
    {
      mem := mem.(ready := IsFalse);
      var _ := RetryStatusUpdate(oracle(call));
    }

    /** CleanupBucket or DeleteBucket: verify, empty, delete. */
    method CleanBucket(target: StorageSpec) returns (ok: bool)
      modifies this
      ensures Done(Current(), ok) == CloudCleaned(old(Current()), target, env, oracle(VERIFY), oracle(EMPTY),
          oracle(DELETE))
    {
      var id := SpecIdentity(target);
      var key := KeyOf(SpecPlace(target), env.defaultRegion);
      if id.provider == Akamai && id.bucket == "" {
        return true;
      }
      if oracle(VERIFY) != NoFault {
        return false;
      }
      match Find(world.cloud, SpecPlace(target), env.defaultRegion)
      case Missing =>
        return oracle(EMPTY) == NoFault && oracle(DELETE) == NoFault;
      case Rejected =>
        return false;
      case Here(b) =>
        if !DecideDelete(b.owner, world.claimant, PreviouslyCreatedByUs(mem.storage, target.bucket, world.now)) {
          return false;
        }
        if id.provider == Akamai && oracle(EMPTY).Effective() {
          world := world.(cloud := world.cloud[key := b.(owner := None)]);
        }
        if oracle(EMPTY) != NoFault {
          return false;
        }
        if oracle(DELETE).Effective() {
          world := world.(cloud := world.cloud - {key});
          Log(Removed(id.provider, id.bucket));
        }
        return oracle(DELETE) == NoFault;
    }

    method FinalizeApplication(spec: Option<StorageSpec>) returns (ok: bool)
      modifies this
      ensures Done(Current(), ok) == Finalize(old(Current()), spec, env, oracle)
    {
      var storage := spec;
      if storage.None? && mem.storage.Some? {
        storage := Some(SpecFromStatus(mem.storage.value));
      }
      if storage.None? {
        return true;
      }
      var target := storage.value;
      ok := true;
      if target.deletionPolicy == Retain {
        RecordNotReady(NOTE_CLEANUP); // the condition of a retained bucket is False too
      } else if !target.provider.Unsupported? {
        RecordNotReady(NOTE_CLEANUP);
        ok := oracle(CLEANUP_MANAGER) == NoFault;
        if ok {
          ok := CleanBucket(target);
        }
        if !ok {
          RecordNotReady(NOTE_FAILURE);
          return;
        }
      }
      Log(Finalized(SpecIdentity(target)));
    }

    /** Finalizes what `recorded` describes on a copy of the Application, then clears the status. */
    method CleanupPreviousStorage(recorded: StorageStatus) returns (ok: bool)
      modifies this
      ensures Done(Current(), ok) == PreviousCleaned(old(Current()), recorded, env, oracle)
    {
      var before := mem;
      ok := FinalizeApplication(Some(SpecFromStatus(recorded)));
      mem := before;
      if ok {
        mem := mem.(storage := None);
        mem := mem.(ready := Absent);
        ok := RetryStatusUpdate(oracle(CLEAR_STATUS));
      }
    }

    method EnsureStorageOwnershipID() returns (ok: bool)
      modifies this
      ensures Done(Current(), ok) == OwnershipIdEnsured(old(Current()), env, oracle(ASSIGN_ID))
    {
      ok := true;
      if world.claimant.ownershipId == "" {
        if oracle(ASSIGN_ID).Effective() {
          world := world.(claimant := world.claimant.(ownershipId := env.freshId));
        }
        ok := oracle(ASSIGN_ID) == NoFault;
      }
    }

    /** What the provider does when it has just created the bucket. */
    method RecordBucketCreated(spec: StorageSpec) returns (ok: bool)
      modifies this
      ensures Current() == Persist(old(Current()).(mem :=
          old(mem).(storage := Some(CreationRecord(spec, old(world).now)))), oracle(RECORD_CREATION))
      ensures ok == (oracle(RECORD_CREATION) == NoFault)
    {
      mem := mem.(storage := Some(CreationRecord(spec, world.now)));
      ok := RetryStatusUpdate(oracle(RECORD_CREATION));
    }

    method EnsureBucketExists(spec: StorageSpec) returns (ok: bool)
      modifies this
      ensures Done(Current(), ok) == BucketEnsured(old(Current()), spec, env, oracle)
    {
      var id := SpecIdentity(spec);
      if oracle(LOOK_UP) != NoFault {
        return false;
      }
      match Find(world.cloud, SpecPlace(spec), env.defaultRegion)
      case Here(_) => ok := true;
      case Rejected => ok := false;
      case Missing =>
        if oracle(CREATE).Effective() {
          var key, region := KeyOf(SpecPlace(spec), env.defaultRegion), ResolvedRegion(id, env.defaultRegion);
          world := world.(cloud := world.cloud[key := CloudBucket(region, None)]);
          Log(Created(id, spec.endpoint, world.now));
        }
        ok := oracle(CREATE) == NoFault;
        if ok {
          ok := RecordBucketCreated(spec);
        }
    }

    method ClaimOrVerifyOwnership(spec: StorageSpec) returns (outcome: Outcome)
      modifies this
      ensures Provisioned(Current(), outcome) == Claimed(old(Current()), spec, env, oracle)
    {
      var key := KeyOf(SpecPlace(spec), env.defaultRegion);
      outcome := NotOwned;
      if oracle(READ_OWNER) == NoFault && key in world.cloud {
        var b := world.cloud[key];
        match Decide(b.owner, world.claimant, PreviouslyCreatedByUs(mem.storage, spec.bucket, world.now), env.view)
        case Keep => outcome := Success;
        case Refuse =>
        case Write =>
          if oracle(WRITE_OWNER).Effective() {
            world := world.(cloud := world.cloud[key := b.(owner := Some(world.claimant.Record()))]);
          }
          outcome := if oracle(WRITE_OWNER) == NoFault then Success else Failed;
      }
    }

    method ReconcileBucket(spec: StorageSpec) returns (outcome: Outcome)
      modifies this
      ensures Provisioned(Current(), outcome) == BucketReconciled(old(Current()), spec, env, oracle)
    {
      outcome := Failed;
      if spec.provider == Akamai && (spec.bucket == "" || ResolvedRegion(SpecIdentity(spec), env.defaultRegion) == "") {
        return;
      }
      var present := EnsureBucketExists(spec);
      if present && (spec.provider != Akamai || oracle(ENSURE_KEY) == NoFault) {
        outcome := ClaimOrVerifyOwnership(spec);
        if outcome == Success && oracle(AFTER_CLAIM) != NoFault {
          outcome := Failed;
        }
      }
    }

    /** reconcileAWSStorage and reconcileAkamaiStorage */
    method ReconcileProvider(spec: StorageSpec) returns (ok: bool)
      modifies this
      ensures Done(Current(), ok) == ProviderReconciled(old(Current()), spec, env, oracle)
    {
      var outcome := Failed;
      if oracle(MANAGER) == NoFault {
        outcome := ReconcileBucket(spec);
      }
      if outcome != Success {
        RecordNotReady(NOTE_NOT_READY);
        return false;
      }
      if spec.provider == AWS && env.roleArn != "" && oracle(ANNOTATE) != NoFault {
        return false;
      }
      var at := world.now;
      if mem.storage.Some? && mem.storage.value.createdAt != 0 {
        at := mem.storage.value.createdAt;
      } else {
        Log(FirstReady(spec.provider, spec.bucket, at));
      }
      mem := Status(Some(ReadyStatus(spec, at, env)), IsTrue);
      ok := RetryStatusUpdate(oracle(RECORD_READY));
    }

    method ReconcileStorage() returns (ok: bool)
      modifies this
      ensures Done(Current(), ok) == Reconcile(old(Current()), env, oracle)
    {
      ok := true;
      if mem.storage.Some?
         && (world.spec.None? || StatusIdentity(mem.storage.value) != SpecIdentity(world.spec.value))
      {
        ok := CleanupPreviousStorage(mem.storage.value);
      }
      if ok && world.spec.Some? {
        var spec := world.spec.value;
        ok := EnsureStorageOwnershipID();
        if ok {
          if spec.provider.Unsupported? {
            RecordNotReady(NOTE_NOT_READY);
            return false;
          }
          ok := ReconcileProvider(spec);
        }
      }
      ok := ok && oracle(WRITE_SECRET) == NoFault;
    }

    /** `attached` tells whether the finalizer is on the Application, before and after. */
    method HandleFinalizer(deleting: bool, finalizer: bool) returns (attached: bool, stop: bool, ok: bool)
      modifies this
      ensures Handled(Current(), attached, stop, ok)
          == FinalizerHandled(old(Current()), deleting, finalizer, env, oracle)
    {
      attached, stop, ok := finalizer, deleting, true;
      if deleting {
        if finalizer {
          ok := FinalizeApplication(world.spec);
          if ok {
            attached := !oracle(SET_FINALIZER).Effective();
            ok := oracle(SET_FINALIZER) == NoFault;
          }
        }
      } else if !finalizer {
        attached := oracle(SET_FINALIZER).Effective();
        ok := oracle(SET_FINALIZER) == NoFault;
      }
    }
  }
}
