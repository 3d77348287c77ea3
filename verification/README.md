# Verified model of the forge-operator

The forge-operator gives every `Application` of a cluster a bucket, on AWS S3 or on Akamai Object Storage, and
takes it away again. Buckets of all Applications live in one flat namespace in the cloud, calls fail at any
point, users edit specs at any time, and several Applications work at once. This project models the logic
that keeps this safe and proves what it keeps, over every input, every pattern of failing calls and every run.

Run `dafny verify dfyconfig.toml` (Dafny 4.11).

| file | models |
|---|---|
| `Api.dfy` | entities shared by all: specs, statuses, outcomes, and the fault of each external call |
| `Naming.dfy` | the adoption rule; names of cloud resources and Secrets |
| `Ownership.dfy` | the ownership decision both backends implement, stated once |
| `S3Ownership.dfy`, `AkamaiOwnership.dfy` | the ownership record as tags and as a marker object |
| `OwnershipProtocol.dfy` | any number of Applications claiming, adopting and deleting buckets: a state machine and its runs |
| `Paging.dfy` | paged listings |
| `S3Cleanup.dfy` | emptying and deleting an S3 bucket and its role |
| `AkamaiStorage.dfy` | access key, marker, emptying and deletion on Akamai |
| `Storage.dfy`, `StorageRuns.dfy` | reconciling and finalizing a bucket identity; what whole histories keep |
| `StoragePasses.dfy` | what single storage passes do: success, failure, ownership ID, finalizer |
| `ProviderRefinement.dfy` | the providers' own routines are behaviours of the controller's view of them |
| `StatusManager.dfy`, `Conditions.dfy` | status writes under optimistic concurrency; the conditions over all runs |
| `ServiceAccounts.dfy` | server-side apply of the ServiceAccount; the watch predicates |

## How to read it

Code that changes things step by step is a class whose methods do the same steps. Each such method is proved equal
to a function of the old state, and what the source promises is proved about that function. An external call takes
its fault from an oracle, an arbitrary function from the number of the call: the call works, is lost, works but
reports an error, or (batch deletions) works in part. `FaultFree` is the one assumption a
statement about eventual success makes; every safety statement is for all oracles.

The assumptions of the model: one worker per Application, each pass starting from a read of the persisted
object; the spec does not change within a storage pass (`Conditions` drops this); a claim is one atomic step on its
bucket, while cleanups interleave page by page with everything else; UIDs are never reused, UIDs and namespaces are
nonempty; fresh ownership IDs differ from all others; only the operator writes the three ownership tags. In the
ownership protocol nobody but the operator removes a bucket or its marker, and nobody edits an ownership-ID
annotation by hand. Every S3 endpoint answers like AWS: names are global to it, and a wrong region is an error. A
listing inserts only finitely many empty pages.

## Where a natural expectation fails

Each of these is stated as the exact condition under which the code does meet the expectation, or with the family
of states in which it does not.

- The creation record holds no region, and no status holds the endpoint. If the spec names a region, the next pass sees
  a changed identity and first cleans up what the record describes, in the default region and at AWS's own endpoint.
  An S3 bucket in us-east-1, or an Akamai bucket in the default region, is deleted (`RemovedSpecCleansIff`). For an S3
  bucket in another region the lookup is refused, and no pass succeeds any more (`OtherRegionIsStuck`,
  `OneFailureIsStuck`). An Akamai bucket outside the default region, and an S3 bucket at an endpoint of its own,
  created or ready, is dropped from the record and left behind (`DroppedFromRecord`). `CreationSurvivesIff` says
  exactly when creation survives a failure all the same. For the same reason a bucket with a region that vanished is
  recorded anew under another identity (`VanishedIsRenamed`).
- The creation record holds no deletion policy, so that cleanup after an identity change deletes even under Retain
  (`IdentityChangeRemovesIff`, `RetainIsLost`).
- Deletion prefers the spec to the status: if they differ, the recorded bucket stays behind (`DeletionFinalizesRecordedIff`).
- Verification before deletion protects against interleaved claims on S3 exactly if it saw a record naming the
  deleter, and on Akamai only up to the page that holds the marker: behind it another Application may claim the
  bucket while its objects are still being deleted (`DeletionSafeIff`, `LateClaimIsUnsafe`). The comment at
  `internal/controller/s3/cleanup.go:55-60` promises never to delete on uncertain ownership.
- Emptying an Akamai bucket deletes its marker; an attempt interrupted after that can be stuck for good
  (`LostMarkerIsStuck`, `OwnedBucketCanGetStuck`), unless window or adoption holds
  (`WindowOrAdoptionRecovers`). A stale output Secret costs one more attempt (`CleanDeleteIff`).
- A cleanup that fails while the Application lives on is noted on a copy, so that StorageReady goes on reading as before
  (`CleanupNoteIsOverwritten`).
- More than a thousand open uploads need more than one S3 cleanup attempt (`OneAttemptSuffices`).
- The creation window compares bucket names only, not providers (`WindowIgnoresProvider`).
- A reread in the middle of a pass can make a persisted Ready=True dishonest about storage
  (`NewSpecMidPass`, `OtherSpecMidPass`, `OldReadyMidPass`); nothing else can (`ReadyIsHonest`).
- The write that does not filter old tags is harmless exactly as `UnfilteredWriteIff` says.
- A pass that has to create the bucket anew and then fails loses the role from the status, so that the next pass
  updates the ServiceAccount twice (`QuietPassStaysQuietIff`, `LostRoleIsNoticed`).
- Joined names are not injective (`DashedCollision`), and Applications whose key labels collide take each other's key
  (`CollidingLabelTakesKey`).

## Model

| member | source | states |
|---|---|---|
| `Naming.TrimSpaceFinds` | internal/controller/naming/naming.go:124-126 | Trimming yields the text between the blanks at both ends, the blank characters listed one by one. |
| `Naming.GrantNamesWholeEntries` | internal/controller/naming/naming.go:103-130 | A grant admits a namespace iff it is "*" or some whole comma-separated entry reads that name, with nothing but blanks around it. |
| `Naming.SplitSound` | internal/controller/naming/naming.go:117-130 | Every piece the comma split yields is a whole entry of the text, at a known place. |
| `Naming.SplitComplete` | internal/controller/naming/naming.go:117-130 | Conversely every whole entry of the text is one of the pieces. |
| `Naming.AdoptionFailsClosed` | internal/controller/naming/naming.go:140-165 | Adoption is allowed iff the previous owner is confirmed absent and the recorded namespace is known and is the adopter's own or grants it; any lookup error refuses. |
| `Naming.CloudResourceName` | internal/controller/naming/naming.go:243-254 | The result fits the limit iff nothing had to be cut or the limit is at least 9. |
| `Naming.DashedCollision` | internal/controller/naming/naming.go:243-254 | Two namespace/name pairs join to the same text iff they are equal or one namespace extends the other by a piece of the other's name. |
| `Naming.UncutNamesSeparate` | internal/controller/naming/naming.go:243-254 | Uncut role names and key labels collide exactly as the dashed pairs do; the same name in two namespaces never does; a-b/c and a/b-c do. |
| `Naming.CutNamesSeparate` | internal/controller/naming/naming.go:247-254 | Cut names are equal iff kept prefix and hash of the full name are equal. |
| `Naming.SecretNames` | internal/controller/naming/naming.go:204-230 | A name that is given is used as it is; otherwise the defaults, and the default names of input and output Secret never meet. |
| `S3Ownership.Manager.TagsExcludingOwner` | internal/controller/s3/desireds3.go:208-217 | Keeps exactly the tags of other keys, in order. |
| `S3Ownership.Manager.ScanOwner` | internal/controller/s3/desireds3.go:251-266 | One pass over the tags yields the last value of each ownership key and whether an owner tag exists. |
| `S3Ownership.Manager.TagAsOwned` | internal/controller/s3/desireds3.go:182-206 | One write replaces the tag set by the given tags and the caller's ownership tags; it takes effect or not as the call does. |
| `S3Ownership.Manager.ClaimOrVerifyOwnership` | internal/controller/s3/desireds3.go:230-316 | The branching code equals the claim function on every tag set, claimant, cluster view and fault. |
| `S3Ownership.VerifyOwnership` | internal/controller/s3/cleanup.go:100-134 | The delete path's check: gone, or first owner tag names the caller, or no owner tag and creation window or adoption; every other reply refuses. |
| `S3Ownership.ClaimRefinesDecision` | internal/controller/s3/desireds3.go:230-316 | The S3 branches are the shared decision on the record the tags carry. |
| `S3Ownership.ClaimedTags` | internal/controller/s3/desireds3.go:182-217 | Every tag set a claim writes keeps the other tags in order, is well formed and names the claimant in full. |
| `S3Ownership.ClaimKeepsForeignTagsAndIsIdempotent` | internal/controller/s3/desireds3.go:230-316 | Whatever fails, foreign tags stay in order and each ownership key occurs at most once; after success the same Application's next claim succeeds without a write. |
| `S3Ownership.UnfilteredWriteIff` | internal/controller/s3/desireds3.go:305-313 | The write that does not filter leaves a well-formed set iff there was no namespace tag and the ID tags stay at most one. |
| `S3Ownership.DeleteRefinesDecision` | internal/controller/s3/cleanup.go:100-134 | On well-formed tags the delete path's first-hit scan is the shared delete rule on the last-hit record. |
| `S3Ownership.ClaimSucceedsIff` | internal/controller/s3/desireds3.go:230-316 | Without faults a claim succeeds iff there is no owner tag and creation window or adoption holds; or the owner tag is ours, our ownership ID is there, or an authorised adoption was asked for. |
| `S3Ownership.DeletionAllowedIff` | internal/controller/s3/cleanup.go:100-134 | A deletion is let through iff the owner tag is ours, or there is none and window or adoption holds. |
| `AkamaiOwnership.Manager.ClaimOwnership` | internal/controller/akamaiobjstr/obj_storage.go:172-196 | Writes the caller's full record as the marker, or nothing, as the call goes. |
| `AkamaiOwnership.Manager.ClaimOrVerifyOwnership` | internal/controller/akamaiobjstr/obj_storage.go:97-170 | The branching code equals the claim function on every marker, claimant, view and fault. |
| `AkamaiOwnership.MarkerRoundTrip` | internal/controller/akamaiobjstr/obj_storage.go:36-50 | Parsing a written marker gives the record back, not as legacy, iff the UID is nonempty. |
| `AkamaiOwnership.ClaimRefinesDecision` | internal/controller/akamaiobjstr/obj_storage.go:97-170 | The marker branches are the shared decision except for a legacy marker of a claimant without namespace and ID. |
| `AkamaiOwnership.BackendsAgree` | internal/controller/akamaiobjstr/obj_storage.go:97-170 | Tags and marker recording the same owner get the same verdict, outcome and resulting record from a claim, and the same answer from the delete path. |
| `AkamaiOwnership.ClaimSucceedsIff` | internal/controller/akamaiobjstr/obj_storage.go:97-170 | Likewise for markers: none, one of ours, one with our ID, one that may be adopted; a marker of the old format gives its bucket to the UID it holds only. |
| `AkamaiOwnership.DeletionAllowedIff` | internal/controller/akamaiobjstr/cleanup.go:109-132 | A deletion is let through iff there is no marker and window or adoption holds, or the marker names us. |
| `AkamaiOwnership.FailuresAreTold` | internal/controller/akamaiobjstr/obj_storage.go:100-126 | A marker that cannot be fetched is refused as not owned, one whose body cannot be read or written fails, and nothing is written in either case. |
| `OwnershipProtocol.BucketStep` | internal/controller/s3/desireds3.go:230-316 | One action changes a bucket's record only by a cleanup destroying it or by a claim the shared decision says to write. |
| `OwnershipProtocol.StepKeepsInv` | internal/controller/s3/desireds3.go:230-316 | Well-formed tags, unique ownership IDs and truthful records survive every action of every actor. |
| `OwnershipProtocol.OwnerChange` | internal/controller/s3/desireds3.go:268-303 | The recorded owner passes from u to v only in v's claim, and only with the same nonempty ID or an authorised adoption while u is not listed. |
| `OwnershipProtocol.ListedOwnerKept` | internal/controller/naming/naming.go:140-165 | No claim displaces a listed owner. |
| `OwnershipProtocol.OwnershipExclusion` | internal/controller/s3/desireds3.go:230-316 | Over every run: an owner that stays listed stays recorded unless a cleanup of that bucket erased the record, on S3 with the bucket, on Akamai with the marker's page. |
| `OwnershipProtocol.TagHeldDuringCleanup` | internal/controller/s3/cleanup.go:47-134 | Over every run, with no hypothesis on anybody's verifications: once an S3 tag names the deleter it stays while the cleanup goes on, unless somebody else's cleanup removes the bucket. |
| `OwnershipProtocol.DeletionSafe` | internal/controller/akamaiobjstr/cleanup.go:80-177 | In every run whose verifications of this bucket proceed on a record naming the deleter, each step, on Akamai each page up to the marker's, still finds that record; others are spared on S3, and on Akamai if no claim lands behind the marker. |
| `OwnershipProtocol.ListedOwnerLosesOnlyToItself` | internal/controller/finalizer.go:33-47 | In such runs a listed owner's record is erased only by its own cleanup, on both backends. |
| `OwnershipProtocol.UntaggedIsUnsafe` | internal/controller/s3/cleanup.go:113-118 | On either provider a verification that proceeds on an unrecorded bucket can end in emptying a bucket another Application has claimed meanwhile. |
| `OwnershipProtocol.GoneIsUnsafe` | internal/controller/s3/cleanup.go:105-112 | On S3 so can one that proceeds because the bucket was gone. |
| `OwnershipProtocol.LateClaimIsUnsafe` | internal/controller/akamaiobjstr/cleanup.go:139-177 | On Akamai even a record naming the deleter is not enough: behind the marker's page another Application claims, and the next page deletes objects of its bucket. |
| `OwnershipProtocol.DeletionSafeIff` | internal/controller/akamaiobjstr/cleanup.go:80-177 | Over what the verification saw, the provider, and claims behind the marker: safe on S3 iff a record naming the deleter was seen; on Akamai iff that, or the bucket gone, was seen and no claim lands between the marker's page and the end. |
| `S3Cleanup.BatchesPartition` | internal/controller/s3/cleanup.go:156-185 | The batches are the page's items in order, in pieces of 1 to 1000, all but the last full. |
| `S3Cleanup.BatchesSent` | internal/controller/s3/cleanup.go:156-185 | What is sent is a prefix of those batches, and all of them on success. |
| `S3Cleanup.BatchesStop` | internal/controller/s3/cleanup.go:168-190 | Sending stops with the first call that reports an error, and only then. |
| `S3Cleanup.ToDeleteInOrder` | internal/controller/s3/cleanup.go:160-174 | A page's versions go first and its delete markers last, each in listing order. |
| `S3Cleanup.PageDeleted` | internal/controller/s3/cleanup.go:136-202 | A page deleted without error removes exactly its items, each sent once. |
| `S3Cleanup.PagesComplete` | internal/controller/s3/cleanup.go:136-202 | Over every paging, empty pages in between included: success leaves nothing listable and sent every item exactly once; failure removed only listed items; without faults it succeeds. |
| `S3Cleanup.AbortsShrink` | internal/controller/s3/cleanup.go:204-246 | Each listed upload is tried; success means all listed are aborted, and nothing else changes. |
| `S3Cleanup.AbortsTryEach` | internal/controller/s3/cleanup.go:204-246 | Whatever becomes of the others, each listed upload whose call takes effect goes, and no other; success iff every call works. |
| `S3Cleanup.RoleCleaned` | internal/controller/s3/cleanup.go:265-300 | The role's cleanup stops after a policy deletion that fails, succeeds iff both calls work, and touches no bucket. |
| `S3Cleanup.BucketIgnoresRole` | internal/controller/s3/cleanup.go:47-80 | However the role's calls go, if everything after them works, the attempt succeeds and the bucket goes iff one listing covers its uploads. |
| `S3Cleanup.RefusedTouchesNothing` | internal/controller/s3/cleanup.go:100-134 | A refused verification leaves the bucket and every object in it, whatever fails. |
| `S3Cleanup.StagesStop` | internal/controller/s3/cleanup.go:60-78 | A stage that fails stops the attempt: the bucket is deleted only after verification, emptying and the aborts have all worked. |
| `S3Cleanup.AttemptShrinks` | internal/controller/s3/cleanup.go:47-80 | Whatever fails, an attempt keeps a surviving bucket's tags and adds nothing. |
| `S3Cleanup.CleanAttempt` | internal/controller/s3/cleanup.go:47-80 | A fault-free attempt removes the role, and the bucket iff one listing covers its uploads. |
| `S3Cleanup.AttemptsKeepTag` | internal/controller/s3/cleanup.go:47-134 | Any series of failing attempts leaves the bucket gone or still tagged as ours, with no more uploads. |
| `S3Cleanup.CleanAttemptsFinish` | internal/controller/s3/cleanup.go:47-300 | As many fault-free attempts as the uploads need listings remove bucket and role. |
| `S3Cleanup.Restartable` | internal/controller/s3/cleanup.go:47-300 | After any failing attempts, enough fault-free ones leave bucket and role gone, and one more changes nothing and succeeds. |
| `S3Cleanup.OneAttemptSuffices` | internal/controller/s3/cleanup.go:204-246 | One fault-free attempt is enough iff the open uploads fit one listing. |
| `S3Cleanup.Manager.CleanupAppIRSA` | internal/controller/s3/cleanup.go:265-300 | The role cleanup's new state and result, call by call. |
| `S3Cleanup.Manager.DeleteInBatches` | internal/controller/s3/cleanup.go:168-190 | The index loop sends the batches of the specification and stops at the first failure. |
| `S3Cleanup.Manager.Gather` | internal/controller/s3/cleanup.go:151-167 | The two loops collect a page's versions and then its delete markers. |
| `S3Cleanup.Manager.DeleteNextPage` | internal/controller/s3/cleanup.go:136-202 | One turn of the paging loop. |
| `S3Cleanup.Manager.DeleteAllObjectVersions` | internal/controller/s3/cleanup.go:136-202 | The paging loop equals the specification proved complete above. |
| `S3Cleanup.Manager.AbortMultipartUploads` | internal/controller/s3/cleanup.go:204-246 | One listing, every upload tried, failures counted. |
| `S3Cleanup.Manager.DeleteBucket` | internal/controller/s3/cleanup.go:248-263 | The bucket goes iff the call takes effect on an empty bucket; gone counts as success. |
| `S3Cleanup.Manager.CleanupBucket` | internal/controller/s3/cleanup.go:47-80 | Role, check, versions, uploads, bucket, in that order, with the role's failure reported apart. |
| `AkamaiStorage.KeyEnsuredFacts` | internal/controller/akamaiobjstr/obj_storage.go:321-387 | Whatever fails at most one key carries the label; without faults a pair results, accepted iff the recorded secret is that of a key for this region and bucket. |
| `AkamaiStorage.KeyDeletedFacts` | internal/controller/akamaiobjstr/cleanup.go:179-218 | Success means no key carries the label any more. |
| `AkamaiStorage.OneKeyPerLabel` | internal/controller/akamaiobjstr/obj_storage.go:321-387 | Over every history of passes and cleanups failing anywhere, at most one key carries the label. |
| `AkamaiStorage.CollidingLabelTakesKey` | internal/controller/akamaiobjstr/obj_storage.go:321-374 | If the labels of two Applications collide, the second one deletes the first one's key, whose pair is no longer accepted. |
| `AkamaiStorage.PassReturnsAcceptedPair` | internal/controller/akamaiobjstr/obj_storage.go:229-268 | Every successful pass hands out a pair the object store accepts. |
| `AkamaiStorage.FirstPassProvisions` | internal/controller/akamaiobjstr/obj_storage.go:229-268 | With no bucket there, a fault-free pass creates it, marks it as ours and settles, unless the recorded secret is stale. |
| `AkamaiStorage.UnreadableSecretReplacesKey` | internal/controller/akamaiobjstr/obj_storage.go:321-374 | A key found without a readable secret for it is replaced by one whose pair is accepted. |
| `AkamaiStorage.KeyIsDroppedIffNotOwned` | internal/controller/akamaiobjstr/obj_storage.go:242-262 | Only an ownership failure discards the key, on both paths; any other failure keeps it. |
| `AkamaiStorage.SuccessMeansSettled` | internal/controller/akamaiobjstr/obj_storage.go:229-268 | Success means that every call it depends on has worked and that marker, key and Secret fit one another. |
| `AkamaiStorage.KeyFailureDoesNotStop` | internal/controller/akamaiobjstr/cleanup.go:43-54 | A key that cannot be deleted does not hold up the bucket; its failure is reported apart. |
| `AkamaiStorage.CleanPass` | internal/controller/akamaiobjstr/obj_storage.go:229-268 | A fault-free pass over an owned bucket succeeds iff the recorded secret fits a key for this region and bucket; otherwise it drops the key, so that the next one does. |
| `AkamaiStorage.SettledIsQuiet` | internal/controller/akamaiobjstr/obj_storage.go:229-268 | A settled state is a fixpoint: same pair, no key, object or Secret changed. |
| `AkamaiStorage.SelfStabilises` | internal/controller/akamaiobjstr/obj_storage.go:229-268 | From any state with our marker, even with a stale output Secret, two fault-free passes give an accepted pair and all later ones the same. |
| `AkamaiStorage.PagesComplete` | internal/controller/akamaiobjstr/cleanup.go:139-177 | Over every paging, empty pages in between included: success leaves nothing listable; without faults it succeeds. |
| `AkamaiStorage.RefusedTouchesNothing` | internal/controller/akamaiobjstr/cleanup.go:80-132 | A bucket this Application may not delete keeps every object whatever the calls do, and the attempt fails. |
| `AkamaiStorage.CleanDeleteIff` | internal/controller/akamaiobjstr/cleanup.go:29-132 | A fault-free attempt succeeds iff there is no bucket, or the ownership check passes and the recorded secret fits a key for this region and bucket, if there is one. |
| `AkamaiStorage.TwoCleanDeletes` | internal/controller/akamaiobjstr/cleanup.go:29-132 | Two fault-free attempts delete the bucket iff its marker names us, or it has none and creation window or adoption holds. |
| `AkamaiStorage.LostMarkerIsStuck` | internal/controller/akamaiobjstr/cleanup.go:109-132 | Without marker, window and adoption no number of attempts ever succeeds or deletes an object. |
| `AkamaiStorage.OwnedBucketCanGetStuck` | internal/controller/akamaiobjstr/cleanup.go:139-177 | An attempt on an owned bucket can lead there: the marker goes with the first page and the next call fails. |
| `AkamaiStorage.WindowOrAdoptionRecovers` | internal/controller/akamaiobjstr/cleanup.go:109-132 | While the window or an adoption request holds, two clean attempts after any failing ones delete an owned bucket, marker lost or not. |
| `AkamaiStorage.Manager.FindAccessKeyIDByLabel` | internal/controller/akamaiobjstr/cleanup.go:201-218 | First key with the label, 0 iff there is none. |
| `AkamaiStorage.Manager.DeleteApplicationAccessKey` | internal/controller/akamaiobjstr/cleanup.go:179-199 | Deletes the key with the label, if any. |
| `AkamaiStorage.Manager.RecoverSecretKey` | internal/controller/akamaiobjstr/obj_storage.go:376-387 | The recorded secret, or nothing when the Secret cannot be read. |
| `AkamaiStorage.Manager.EnsureAccessKey` | internal/controller/akamaiobjstr/obj_storage.go:321-374 | The loop finds, reuses, replaces or creates the key as specified. |
| `AkamaiStorage.Manager.EnsureBucketExists` | internal/controller/akamaiobjstr/obj_storage.go:283-319 | Looks up, creates and records the bucket; says whether it was just created. |
| `AkamaiStorage.Manager.ClaimOrVerifyOwnership` | internal/controller/akamaiobjstr/obj_storage.go:97-170 | The claim through the marker object, with the pair at hand. |
| `AkamaiStorage.Manager.ReconcileBucket` | internal/controller/akamaiobjstr/obj_storage.go:229-268 | Bucket, key, claim, and the deferred removal of the key when ownership fails. |
| `AkamaiStorage.Manager.EmptyBucket` | internal/controller/akamaiobjstr/cleanup.go:139-177 | The paging loop equals the specification proved complete above. |
| `AkamaiStorage.Manager.DeleteNextPage` | internal/controller/akamaiobjstr/cleanup.go:139-177 | One turn of that loop. |
| `AkamaiStorage.Manager.VerifyAndEmptyWith` | internal/controller/akamaiobjstr/cleanup.go:104-132 | The check on the marker, then the emptying. |
| `AkamaiStorage.Manager.VerifyOwnershipAndEmptyBucket` | internal/controller/akamaiobjstr/cleanup.go:80-132 | Lookup, key, check, emptying and the deferred removal of the key. |
| `AkamaiStorage.Manager.DeleteBucket` | internal/controller/akamaiobjstr/cleanup.go:29-54 | Check and emptying, key, bucket; a failing key deletion is reported apart. |
| `Storage.CleanupRoundTrip` | internal/controller/finalizer.go:84-99 | A spec rebuilt from a Ready bucket's status has the same identity and policy and resolves to the same three Secrets; only a nonblank endpoint is lost. |
| `Storage.StorageReconciler.RetryStatusUpdate` | internal/controller/storage.go:53-69 | The whole in-memory status is persisted, or nothing, as the write goes; after giving up on conflicts the server's status is in memory. |
| `Storage.StorageReconciler.CleanBucket` | internal/controller/s3/cleanup.go:47-80 | Verify, empty, delete, stage by stage, for either provider. |
| `Storage.StorageReconciler.FinalizeApplication` | internal/controller/finalizer.go:101-240 | Equals the specification: the spec wins over the status, Retain and unknown providers delete nothing, failures are recorded. |
| `Storage.StorageReconciler.CleanupPreviousStorage` | internal/controller/storage.go:275-292 | Finalizes what the status recorded on a copy, then clears storage status and condition. |
| `Storage.StorageReconciler.EnsureStorageOwnershipID` | internal/controller/storage.go:212-257 | An ID is assigned once and never replaced. |
| `Storage.StorageReconciler.RecordBucketCreated` | internal/controller/storage.go:334-342 | The creation record: provider, bucket and time, and no region or policy. |
| `Storage.StorageReconciler.EnsureBucketExists` | internal/controller/s3/desireds3.go:128-175 | Creates and records a missing bucket, refuses one in another region. |
| `Storage.StorageReconciler.ClaimOrVerifyOwnership` | internal/controller/s3/desireds3.go:230-316 | The shared decision applied to the bucket and the status in memory. |
| `Storage.StorageReconciler.ReconcileBucket` | internal/controller/akamaiobjstr/obj_storage.go:229-268 | Bucket, key, claim and what follows, for either provider. |
| `Storage.StorageReconciler.ReconcileProvider` | internal/controller/storage.go:294-409 | Records not-ready or ready, carrying the creation time forward. |
| `Storage.StorageReconciler.ReconcileStorage` | internal/controller/storage.go:130-202 | Cleans up a previous identity before it provisions for the spec. |
| `Storage.StorageReconciler.HandleFinalizer` | internal/controller/finalizer.go:25-67 | Attaches the finalizer while live, removes it only after finalization succeeded. |
| `ProviderRefinement.AkamaiProvisioningRefines` | internal/controller/akamaiobjstr/obj_storage.go:229-268 | Provisioning with key handling, call by call, does only what the controller's view with one fault per stage allows: same success, bucket and record, no other bucket touched. |
| `ProviderRefinement.AkamaiCleanupRefines` | internal/controller/akamaiobjstr/cleanup.go:29-177 | Likewise for cleanup with key handling, paging and deferred steps. |
| `ProviderRefinement.S3ClaimRefines` | internal/controller/s3/desireds3.go:230-316 | The claim through tags is the controller's claim with the same faults. |
| `ProviderRefinement.S3CleanupRefines` | internal/controller/s3/cleanup.go:47-300 | Likewise for cleanup with role, paging, batches and uploads. |
| `StorageRuns.FinalizeFacts` | internal/controller/finalizer.go:101-240 | Finalization leaves the recorded identity alone and creates nothing; its success is its last event. |
| `StorageRuns.PassStep` | internal/controller/storage.go:130-202 | One pass with any faults keeps naming a present identity or finalizes exactly it, and creates nothing else before. |
| `StorageRuns.NoOrphan` | internal/controller/storage.go:130-202 | Over every history of passes and arbitrary edits: the named identity stays named or was finalized, and no other bucket was created first; except an identity with a region whose bucket is gone. |
| `StorageRuns.VanishedIsRenamed` | internal/controller/storage.go:334-342 | That exception is real: a vanished bucket is created again and the record loses its region. |
| `StorageRuns.CreatedIsNamed` | internal/controller/storage.go:334-342 | After the pass that created a bucket the status names its identity, with or without its region, or nothing. |
| `StorageRuns.CreatedIsNotOrphaned` | internal/controller/storage.go:130-202 | From the creation on, over every history: if the record makes cleanup look where the bucket is, the recorded identity stays named or is finalized before anything else is created; same exception as NoOrphan. |
| `StorageRuns.ResolvesMeansFindsSame` | internal/controller/finalizer.go:84-99 | A recorded identity resolves to a bucket (same region once defaulted, and for S3 no endpoint of its own) iff lookups by the record and by the spec give the same answer in every cloud. |
| `StorageRuns.RemovedSpecCleansIff` | internal/controller/storage.go:139-146 | When the spec is removed, the recorded bucket is deleted only if the record resolves to it, the policy on record is not Retain and the delete rule allows it; a clean pass succeeds and deletes it iff so. |
| `StorageRuns.DroppedFromRecord` | internal/controller/storage.go:275-292 | If nothing is where the record makes cleanup look, a clean pass succeeds, clears the status and leaves every bucket behind. |
| `StorageRuns.OtherRegionIsStuck` | internal/controller/s3/desireds3.go:166-167 | From the record of an S3 bucket outside us-east-1, which names no region, no pass ever succeeds, over every history in which others leave that bucket alone and name no other S3 store. |
| `StorageRuns.OneFailureIsStuck` | internal/controller/storage.go:334-342 | One failure between the creation record of such a bucket and its readiness is all it takes. |
| `StorageRuns.IdentityChangeRemovesIff` | internal/controller/storage.go:161-168 | After an identity change a clean pass deletes the recorded bucket iff the policy on record, not the spec's, is not Retain and the delete rule allows it. |
| `StorageRuns.RetainIsLost` | internal/controller/storage.go:334-342 | Just created in us-east-1 by name under Retain, a bucket is deleted by the next clean pass. |
| `StorageRuns.SuccessIsReady` | internal/controller/storage.go:170-202 | Success of storage reconciliation for a spec leaves StorageReady true, in memory and persisted, and the status naming the spec's identity. |
| `StorageRuns.FinalizedMeansGone` | internal/controller/finalizer.go:101-240 | Success means retained, nothing to delete, or the bucket gone; no other bucket is touched and the delete rule allowed it. |
| `StorageRuns.DeletionFinalizesRecordedIff` | internal/controller/finalizer.go:118-121 | A successful deletion finalizes the recorded identity iff the spec is gone or agrees with it; every bucket but the spec's stays behind. |
| `StorageRuns.FinalizerGoesLast` | internal/controller/finalizer.go:25-67 | The finalizer goes only when there was nothing to clean up, the bucket is retained, or it is gone; a live Application is provisioned for only under it. |
| `StorageRuns.CreationGoesOnRecord` | internal/controller/s3/desireds3.go:128-175 | A pass that creates and records the bucket leaves it on record whatever fails afterwards, if the spec names no region. |
| `StorageRuns.CreationSurvivesIff` | internal/controller/storage.go:161-168 | From a fresh creation record, a clean pass within the hour claims that bucket, creates and deletes none and ends ready iff the spec names no region, or the record makes cleanup look elsewhere, nothing is there, and the bucket is marked or adoption requested. |
| `StorageRuns.TriesKeepRecord` | internal/controller/storage.go:378-409 | Any number of failing passes keep a recorded bucket on record and claimable. |
| `StorageRuns.CreationSurvivesTries` | internal/controller/storage.go:378-409 | After them a clean pass ends ready with the same bucket iff it is marked, adoption is requested or the hour is not over; the creation time stays. |
| `StorageRuns.ReadyVouched` | internal/controller/storage.go:378-396 | A creation time is stamped only together with an event of that very time. |
| `StorageRuns.ClaimWindowNeverExtended` | internal/controller/s3/desireds3.go:115-121 | Over every history, "created by us within the window" implies the bucket was created, or first found ready, less than an hour ago. |
| `StorageRuns.RoutineKeepsCreatedAt` | internal/controller/storage.go:498-501 | A pass over an unchanged identity whose bucket exists keeps the creation time, whatever fails. |
| `StorageRuns.WindowIgnoresProvider` | internal/controller/akamaiobjstr/obj_storage.go:220-227 | At deletion only the bucket's name is compared: an unmarked Akamai bucket is deleted iff the record of an S3 bucket of that name is within the window. |
| `StoragePasses.OwnershipIdStays` | internal/controller/storage.go:216-218 | No pass and no deletion touches an ownership ID that is there, whatever fails. |
| `StoragePasses.OwnershipIdNeverReplaced` | internal/controller/storage.go:212-257 | Over every history in which others leave it alone, the ID assigned once is the one there is. |
| `StoragePasses.FreshIdIsAssigned` | internal/controller/storage.go:220-256 | A pass that gets past the cleanup of a previous identity assigns a fresh ID where there is none, and provisions nothing if that fails. |
| `StoragePasses.FinalizerComesAndGoes` | internal/controller/finalizer.go:33-66 | The finalizer goes once finalization has succeeded and the update works, and stays if it has not; a live Application has it, and its pass goes on with nothing else changed. |
| `StoragePasses.CleanDeletionIff` | internal/controller/finalizer.go:101-240 | A clean deletion succeeds iff there is nothing to delete, the bucket is retained, the lookup finds nothing, or what it finds the delete rule lets go; the cloud changes by that bucket at most. |
| `StoragePasses.CleanupStops` | internal/controller/s3/cleanup.go:60-78 | A stage that fails stops the cleanup: nothing is deleted without verification or without emptying, and success means every stage worked. |
| `StoragePasses.SuccessMeansOwned` | internal/controller/storage.go:170-202 | Success for a spec means that every call it depends on has worked, that the bucket is there and marked as ours in full, and that the status says so, with the role or endpoint in use. |
| `StoragePasses.FirstCleanPass` | internal/controller/s3/desireds3.go:128-175 | The first clean pass creates the missing bucket, once, marks it and is ready. |
| `StoragePasses.FailureIsNoted` | internal/controller/storagestatus/storagestatus.go:41-135 | A provisioning that fails leaves StorageReady False, persisted, whatever closes the pass. |
| `StoragePasses.DeletionFailureIsNoted` | internal/controller/finalizer.go:341-349 | So does a deletion that fails. |
| `StoragePasses.CleanupNoteIsOverwritten` | internal/controller/storage.go:280-284 | A cleanup that fails while the Application lives on is noted on a copy only: the write that closes the pass puts the old condition back. |
| `StoragePasses.LateStatusArrives` | internal/controller/status/manager.go:158-208 | A ready status that could not be written in time gets there with the write that closes the pass. |
| `StoragePasses.LateStatusIsDropped` | internal/controller/status/manager.go:158-208 | If that closing write meets a conflict, it carries the conditions only: StorageReady reads True while the storage status is still the one on record. |
| `StoragePasses.NothingWanted` | internal/controller/storage.go:139-146 | With no storage wanted or recorded, a pass fails iff its Secret or its closing write does, and changes neither cloud nor status. |
| `StoragePasses.NothingWantedAnyMore` | internal/controller/storage.go:139-146 | With a recorded bucket and no spec, success means the cleanup was recorded, the Secret written and the status cleared. |
| `StatusManager.SetConditionReads` | internal/controller/status/manager.go:50-156 | Setting a condition makes its kind read so, leaves every other kind, and no kind occurs twice. |
| `StatusManager.SetConditionStays` | internal/controller/status/manager.go:70-82 | No condition moves; nothing changes, so that the write is skipped, iff the condition already read so. |
| `StatusManager.UpdateStatusLosesNothing` | internal/controller/status/manager.go:158-208 | Against any writers, on success the persisted object is the latest one with exactly conditions and observed generation replaced. |
| `StatusManager.UpdateStatusWrites` | internal/controller/status/manager.go:158-208 | In general: a first attempt that fits writes the caller's whole status, any later one only those two parts. |
| `StatusManager.UpdateStatusSucceedsIff` | internal/controller/status/manager.go:173-198 | Without faults it gives up iff others get in between five times running. |
| `StatusManager.RetriesReplaceAll` | internal/controller/storage.go:53-69 | retryStatusUpdate on success replaces the whole status of the latest version; giving up leaves an old server status in memory. |
| `StatusManager.StatusRetriedSucceedsIff` | internal/controller/storage.go:53-69 | Without faults it gives up iff none of five attempts meets a cache that has caught up and no write in between. |
| `StatusManager.ConditionsAreWritten` | internal/controller/status/manager.go:76-84 | A setter that changes no condition leaves everything alone; otherwise success means a new latest version with exactly its conditions and the copy's generation observed, and an undisturbed call succeeds. |
| `StatusManager.SettersShow` | internal/controller/status/manager.go:50-156 | After success the copy returned reads as it was set: Ready, Progressing and Degraded for SetReady, likewise for the others; so does the server if anything was written. |
| `StatusManager.Manager.UpdateStatus` | internal/controller/status/manager.go:158-208 | The retry loop equals the specification. |
| `StatusManager.Manager.TryUpdateStatus` | internal/controller/status/manager.go:173-198 | One attempt and, after a conflict, the refetch and merge. |
| `StatusManager.Manager.RetryStatusUpdate` | internal/controller/storage.go:53-69 | The other retry loop equals its specification. |
| `StatusManager.Manager.TryRetryStatus` | internal/controller/storage.go:55-68 | One attempt and, after a conflict, the cached reread. |
| `StatusManager.Manager.SetReconciling` | internal/controller/status/manager.go:50-86 | Progressing true and Ready false, written only if something changed. |
| `StatusManager.Manager.SetReady` | internal/controller/status/manager.go:88-123 | Ready true, Progressing and Degraded false, written only if something changed. |
| `StatusManager.Manager.SetFailed` | internal/controller/status/manager.go:128-156 | Degraded true and Ready false, written only if something changed. |
| `Conditions.StepKeepsInvIff` | internal/controller/application_controller.go:133-185 | A step of a pass, or an edit, keeps the server's versions and the pass's copy honest iff it is neither a reread that brings a spec other than the one found nor one that brings back an old Ready=True. |
| `Conditions.ReadyIsHonest` | internal/controller/application_controller.go:133-185 | Over every run without the two named rereads, a persisted Ready=True has Progressing and Degraded false; if the generation is current and the spec has storage, StorageReady is true and the status names the spec's identity. |
| `Conditions.ReadyIsSettled` | internal/controller/status/manager.go:88-156 | Over every run at all, Ready=True comes with Progressing=False and Degraded=False. |
| `Conditions.NewSpecMidPass` | internal/controller/storage.go:275-292 | The first exception: a reread while old storage is cleared brings a spec, and Ready is reported with nothing provisioned. |
| `Conditions.OtherSpecMidPass` | internal/controller/storage.go:55-68 | Likewise a reread that brings another spec: Ready is reported for it while the status names the old bucket. |
| `Conditions.OldReadyMidPass` | internal/controller/storage.go:53-69 | The second: a write that gives up leaves an old Ready=True in memory and the next one persists it. |
| `Conditions.StorageConditionsFacts` | internal/controller/storagestatus/storagestatus.go:41-180 | The storage setters leave every other condition as it was. |
| `ServiceAccounts.AppliedFacts` | internal/controller/serviceaccount.go:127-160 | What an apply does to every field: wanted ones are set, dropped ones go unless somebody else manages them, the rest stays. |
| `ServiceAccounts.AppliedNothingIff` | internal/controller/serviceaccount.go:127-160 | An apply is a no-op iff the operator manages exactly the wanted fields and they read as wanted. |
| `ServiceAccounts.PodsHaveTheirAccount` | internal/controller/serviceaccount.go:16-56 | Pods name an account only if the operator creates it or the user named it, and always the one the operator creates; a name that is given is used as it is. |
| `ServiceAccounts.SweptFacts` | internal/controller/serviceaccount.go:102-125 | Only stale accounts are deleted; success leaves none of the listed ones. |
| `ServiceAccounts.NoAccountLeftBehind` | internal/controller/serviceaccount.go:102-160 | After success the Application owns no account but the one in use, and nobody else's was deleted. |
| `ServiceAccounts.OnlyTheOwnIsApplied` | internal/controller/serviceaccount.go:127-204 | Nothing but the account of that name is ever written, and none if accounts are the user's; after success it shows every desired field, and after an annotation the role. |
| `ServiceAccounts.CleanPassIsQuiet` | internal/controller/serviceaccount.go:58-204 | One fault-free pass with a role makes any cluster quiet, also one that creates the bucket anew. |
| `ServiceAccounts.QuietAccountsStay` | internal/controller/serviceaccount.go:58-204 | In a quiet cluster each apply by itself is a no-op and nothing is deleted, whatever fails. |
| `ServiceAccounts.QuietPassStaysQuietIff` | internal/controller/storage.go:334-398 | A pass over a quiet cluster changes no account, and leaves it quiet iff it does not create the bucket anew and then fail, at the claim or later, before the role is on record again. |
| `ServiceAccounts.QuietFixpoint` | internal/controller/serviceaccount.go:58-204 | Over every history in which others edit their own fields and no pass loses the role from the status, each pass after the first leaves every account exactly as found. |
| `ServiceAccounts.LostRoleIsNoticed` | internal/controller/serviceaccount.go:78-97 | After a pass that loses the role, the next first apply strips the annotation visibly, unless somebody else manages it too. |
| `ServiceAccounts.RecordedRoleMatters` | internal/controller/serviceaccount.go:78-97 | The first apply of the next pass is visible to the watch iff the status does not record that role (nor none, with the annotation co-managed). |
| `ServiceAccounts.WriteStartsPassIff` | internal/controller/predicates.go:56-68 | A write starts a pass iff it changes the spec, begins deletion or changes the adoption request. |
| `ServiceAccounts.OperatorWritesAreQuiet` | internal/controller/predicates.go:56-68 | No series of the operator's own writes starts a pass, even seen as one update. |
| `ServiceAccounts.AccountReconciler.DeleteStaleServiceAccounts` | internal/controller/serviceaccount.go:102-125 | The loop equals the specification. |
| `ServiceAccounts.AccountReconciler.ReconcileServiceAccount` | internal/controller/serviceaccount.go:127-160 | Apply, then the deletion of stale accounts; user-managed accounts are not applied. |
| `ServiceAccounts.AccountReconciler.AnnotateServiceAccountWithIRSA` | internal/controller/serviceaccount.go:164-204 | Applies the desired account with the role annotation, or nothing for a user-managed account. |

## Left out

- Construction of AWS, Linode and Kubernetes clients, retries inside the SDKs, timeouts, metrics, tracing, logging, events and error texts.
- JSON and SHA-256: a marker body is its text together with what decoding it yields, and the hash of a name is an uninterpreted eight-character function.
- Text is a sequence of characters: Unicode, UTF-8 lengths and the full set of Unicode spaces that trimming removes are not modelled.
- Rate limiting, requeue intervals and jitter.
- The admission webhook: the model lets every spec edit through, which is more than the webhook does.
- Deployments, Services, Ingresses, autoscalers, disruption budgets, ConfigMaps and the readiness evaluation: straight-line defaulting; the storage Secret is one call that may fail.
- Versioning, lifecycle rules, the IAM role's policies and the bucket's endpoint are, in `Storage`, one call after the claim that may fail.
- Interleaving inside a single claim: the cloud APIs offer no compare-and-set, so two adopters of one orphaned bucket can overwrite each other there.
- Ownership tags that somebody else wrote by hand; `UnfilteredWriteIff` says what the code does with a stray one.
- Emptying and deleting a bucket while others write objects into it.
- Removal of buckets, markers or tags behind the operator's back, except in `StorageRuns`, where others may change the cloud in any way between passes.
- `CleanupCredentialsOnly` of both backends beyond the routine it calls: it deletes role or key without any check.
- The nil dereference that a spec removed in the middle of a pass can cause; such a pass counts as abandoned.
- Storage.StorageReconciler.ReconcileBucket: one fault per stage of a provider; what the providers do call by call is `AkamaiStorage` and `S3Cleanup`, and `ProviderRefinement` proves that this view allows all of it.
- Storage.StorageReconciler.RetryStatusUpdate: shows the conflict loop as one write that works, fails or gives up; the loop itself is `StatusManager.Manager.RetryStatusUpdate`. The spec that a reread brings along is modelled in `Conditions` only.
- S3Cleanup.Restartable: takes S3 to refuse deleting a bucket with open uploads, as the comment at `internal/controller/s3/cleanup.go:229-234` says it does, so that more uploads than one listing need more attempts.
- ServiceAccounts.QuietFixpoint: others do not change the fields the operator manages and do not create accounts controlled by the Application; such edits are repaired, and do start a pass. The role stays the same.
- Conditions.ReadyIsHonest: the guard of a successful close, StorageReady true if a spec was found, is `StorageRuns.SuccessIsReady` of the storage model; the two state machines are not joined into one.
- StorageRuns.NoOrphan: "finalized" means that finalization of that identity returned success; where its record does not make cleanup look for the bucket itself, `StorageRuns.RemovedSpecCleansIff` and `StorageRuns.DroppedFromRecord` say what is left behind.
