/**
 The ownership decision both storage backends implement, stated once over the record a
 bucket carries: who may keep, (re)write or must leave it alone, and who may delete.
 */
module Ownership {
  import opened Api
  import opened Naming

  /** What a bucket says about its owner. An unknown namespace or ownership ID reads "". */
  datatype OwnerRecord = OwnerRecord(uid: string, namespace: string, ownershipId: string)

  /** The Application asking, as far as ownership is concerned. */
  datatype Claimant = Claimant(uid: string, namespace: string, ownershipId: string, adopt: bool)
  {
    function Record(): OwnerRecord { OwnerRecord(uid, namespace, ownershipId) }
  }

  datatype Verdict = Keep | Write | Refuse

  /** bucketCreationClaimWindow, in seconds. */
  const CLAIM_WINDOW := 3600

  /** The status durably records that this bucket name was created within the window. */
  predicate PreviouslyCreatedByUs(status: Option<StorageStatus>, bucket: string, now: nat) {
    && status.Some?
    && status.value.bucket == bucket
    && status.value.created
    && now - status.value.createdAt < CLAIM_WINDOW
  }

  /** A transfer from another Application: its stable ID came back, or an authorised adoption. */
  predicate MayTakeOver(found: OwnerRecord, me: Claimant, view: ClusterView) {
    || (me.ownershipId != "" && found.ownershipId == me.ownershipId)
    || (me.adopt && EvaluateBucketAdoption(view, found.uid, found.namespace, me.namespace))
  }

  function Decide(found: Option<OwnerRecord>, me: Claimant, createdByUs: bool, view: ClusterView): Verdict {
    match found
    case None => if createdByUs || me.adopt then Write else Refuse
    case Some(owner) =>
      if owner == me.Record() then Keep
      else if owner.uid == me.uid || MayTakeOver(owner, me, view) then Write
      else Refuse
  }

  /** The delete path never writes and never adopts: a record must name the deleter. */
  predicate DecideDelete(found: Option<OwnerRecord>, me: Claimant, createdByUs: bool) {
    match found
    case None => createdByUs || me.adopt
    case Some(owner) => owner.uid == me.uid
  }
}
