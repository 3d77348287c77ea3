/**
 Ownership of an Akamai Object Storage bucket, recorded in a marker object inside it
 (internal/controller/akamaiobjstr/obj_storage.go, internal/controller/akamaiobjstr/cleanup.go),
 and its agreement with the S3 backend.
 */
module AkamaiOwnership {
  import opened Api
  import opened Naming
  import opened Ownership
  import S3 = S3Ownership

  /**
   The body of the marker object: its text, and what decoding it as a JSON marker yields
   (None when the text is not JSON). JSON itself is not modelled.
   */
  datatype MarkerBody = MarkerBody(text: string, json: Option<OwnerRecord>)

  /** Encoding a record gives a body that decodes to that record. */
  function Encode(r: OwnerRecord): MarkerBody {
    MarkerBody("{uid:" + r.uid + ",namespace:" + r.namespace + ",ownershipId:" + r.ownershipId + "}", Some(r))
  }

  datatype Parsed = Parsed(owner: OwnerRecord, legacy: bool)

  /** parseOwnerMarker: anything that is not a JSON marker with a UID is a bare UID of the old format. */
  function ParseOwnerMarker(body: MarkerBody): Parsed {
    if body.json.None? || body.json.value.uid == "" then Parsed(OwnerRecord(body.text, "", ""), true)
    else Parsed(body.json.value, false)
  }

  function RecordOf(marker: Option<MarkerBody>): Option<OwnerRecord> {
    if marker.None? then None else Some(ParseOwnerMarker(marker.value).owner)
  }

  // ---------- the branches of the source ----------

  function ClaimVerdict(marker: Option<MarkerBody>, me: Claimant, createdByUs: bool, view: ClusterView): Verdict {
    if marker.None? then
      if createdByUs then Write else if me.adopt then Write else Refuse
    else
      var Parsed(owner, legacy) := ParseOwnerMarker(marker.value);
      if owner.uid == me.uid then
        if legacy || owner.namespace != me.namespace || owner.ownershipId != me.ownershipId then Write else Keep
      else if !legacy && me.ownershipId != "" && owner.ownershipId == me.ownershipId then Write
      else if !me.adopt then Refuse
      else if EvaluateBucketAdoption(view, owner.uid, if legacy then "" else owner.namespace, me.namespace) then Write
      else Refuse
  }

  datatype Reply = Reply(marker: Option<MarkerBody>, outcome: Outcome)

  /** One claim, with the fault of the marker read, of reading its body, and of the marker write. */
  function Claim(marker: Option<MarkerBody>, me: Claimant, createdByUs: bool, view: ClusterView,
                 get: Fault, read: Fault, put: Fault): Reply
  {
    if get != NoFault then Reply(marker, NotOwned)
    else if marker.Some? && read != NoFault then Reply(marker, Failed)
    else
      match ClaimVerdict(marker, me, createdByUs, view)
      case Keep => Reply(marker, Success)
      case Refuse => Reply(marker, NotOwned)
      case Write =>
        Reply(if put.Effective() then Some(Encode(me.Record())) else marker,
              if put == NoFault then Success else Failed)
  }

  predicate DeleteAllowed(marker: Option<MarkerBody>, me: Claimant, createdByUs: bool) {
    if marker.None? then createdByUs || me.adopt
    else ParseOwnerMarker(marker.value).owner.uid == me.uid
  }

  // ---------- the imperative form ----------

  class Manager {
    const me: Claimant
    const createdByUs: bool
    const view: ClusterView
    const oracle: Oracle
    var calls: nat
    var marker: Option<MarkerBody>

    constructor (me: Claimant, createdByUs: bool, view: ClusterView, marker: Option<MarkerBody>, oracle: Oracle)
      ensures this.me == me && this.createdByUs == createdByUs && this.view == view
      ensures this.marker == marker && this.oracle == oracle && calls == 0
    {
      this.me, this.createdByUs, this.view := me, createdByUs, view;
      this.marker, this.oracle, calls := marker, oracle, 0;
    }

    method ClaimOwnership() returns (outcome: Outcome)
      modifies this`calls, this`marker
      ensures calls == old(calls) + 1
      ensures marker == if oracle(old(calls)).Effective() then Some(Encode(me.Record())) else old(marker)
      ensures outcome == if oracle(old(calls)) == NoFault then Success else Failed
    {
      var body := Encode(OwnerRecord(me.uid, me.namespace, me.ownershipId));
      var fault := oracle(calls);
      calls := calls + 1;
      if fault.Effective() {
        marker := Some(body);
      }
      outcome := if fault == NoFault then Success else Failed;
    }

    method ClaimOrVerifyOwnership() returns (outcome: Outcome)
      modifies this`calls, this`marker
      ensures Reply(marker, outcome)
           == Claim(old(marker), me, createdByUs, view, oracle(old(calls)), oracle(old(calls) + 1),
               oracle(old(calls) + 2))
    {
      var fault, readFault := oracle(calls), oracle(calls + 1);
      calls := calls + 2;
      if fault != NoFault {
        return NotOwned;
      }
      if marker.None? {
        if createdByUs {
          outcome := ClaimOwnership();
          return;
        }
        if me.adopt {
          outcome := ClaimOwnership();
          return;
        }
        return NotOwned;
      }
      if readFault != NoFault {
        return Failed;
      }
      var Parsed(owner, legacy) := ParseOwnerMarker(marker.value);
      if owner.uid == me.uid {
        if legacy || owner.namespace != me.namespace || owner.ownershipId != me.ownershipId {
          outcome := ClaimOwnership();
          return;
        }
        return Success;
      }
      if !legacy && me.ownershipId != "" && owner.ownershipId == me.ownershipId {
        outcome := ClaimOwnership();
        return;
      }
      if !me.adopt {
        return NotOwned;
      }
      var ownerNamespace := owner.namespace;
      if legacy {
        ownerNamespace := "";
      }
      if !EvaluateBucketAdoption(view, owner.uid, ownerNamespace, me.namespace) {
        return NotOwned;
      }
      outcome := ClaimOwnership();
    }
  }

  // ---------- what the branches amount to ----------

  /** Writing a marker and parsing it back gives the record, for every nonempty UID; an empty one reads as legacy. */
  lemma MarkerRoundTrip(r: OwnerRecord)
    ensures ParseOwnerMarker(Encode(r)) == Parsed(r, false) <==> r.uid != ""
  {
  }

  /**
   The marker branches are the shared decision, except for a legacy marker of a claimant with no namespace and
   no ID.
   */
  lemma ClaimRefinesDecision(marker: Option<MarkerBody>, me: Claimant, createdByUs: bool, view: ClusterView)
    ensures ClaimVerdict(marker, me, createdByUs, view) == Decide(RecordOf(marker), me, createdByUs, view) <==>
            !(marker.Some? && ParseOwnerMarker(marker.value).legacy
              && me.Record() == OwnerRecord(marker.value.text, "", ""))
  {
  }

  /**
   Both backends decide alike: a tag set and a marker that record the same owner get the same
   verdict and the same outcome from a claim, the claim leaves both recording the same owner,
   and the delete path allows the same deletions.
   */
  lemma BackendsAgree(
    tags: S3.TagSet, marker: Option<MarkerBody>, me: Claimant, createdByUs: bool, view: ClusterView, put: Fault)
    requires S3.WellFormed(tags)
    requires S3.RecordOf(tags) == RecordOf(marker)
    requires me.namespace != "" && me.uid != ""
    ensures S3.ClaimVerdict(tags, me, createdByUs, view) == ClaimVerdict(marker, me, createdByUs, view)
    ensures var s := S3.Claim(tags, me, createdByUs, view, NoFault, put);
            var a := Claim(marker, me, createdByUs, view, NoFault, NoFault, put);
            s.outcome == a.outcome && S3.RecordOf(s.tags) == RecordOf(a.marker)
    ensures S3.DeleteAllowed(S3.DeleteSight(true, tags, me.uid), me, createdByUs)
         == DeleteAllowed(marker, me, createdByUs)
  {
    S3.ClaimRefinesDecision(tags, me, createdByUs, view);
    ClaimRefinesDecision(marker, me, createdByUs, view);
    S3.DeleteRefinesDecision(tags, me, createdByUs);
    S3.ClaimedTags(tags, me);
    MarkerRoundTrip(me.Record());
  }

  // ---------- who gets the bucket, read off the marker ----------

  /**
   Without faults a claim succeeds exactly when: there is no marker, and the bucket was created by us or adoption was
   asked for; or the marker names us, holds our ownership ID, or names an owner whose bucket we may adopt. A marker
   of the old format, a bare UID, gives its bucket to that UID only.
   */
  lemma ClaimSucceedsIff(r: OwnerRecord, text: string, me: Claimant, createdByUs: bool, view: ClusterView)
    requires r.uid != ""
    ensures Claim(None, me, createdByUs, view, NoFault, NoFault, NoFault).outcome == Success <==>
        createdByUs || me.adopt
    ensures Claim(Some(Encode(r)), me, createdByUs, view, NoFault, NoFault, NoFault).outcome == Success <==>
            || r.uid == me.uid
            || (me.ownershipId != "" && r.ownershipId == me.ownershipId)
            || (me.adopt && EvaluateBucketAdoption(view, r.uid, r.namespace, me.namespace))
    ensures var legacy := Some(MarkerBody(text, None));
            Claim(legacy, me, createdByUs, view, NoFault, NoFault, NoFault).outcome == Success <==> text == me.uid
  {
    MarkerRoundTrip(r);
  }

  /** And a deletion is let through exactly when there is no marker and window or adoption holds, or it names us. */
  lemma DeletionAllowedIff(r: OwnerRecord, text: string, me: Claimant, createdByUs: bool)
    requires r.uid != ""
    ensures DeleteAllowed(None, me, createdByUs) <==> createdByUs || me.adopt
    ensures DeleteAllowed(Some(Encode(r)), me, createdByUs) <==> r.uid == me.uid
    ensures DeleteAllowed(Some(MarkerBody(text, None)), me, createdByUs) <==> text == me.uid
  {
    MarkerRoundTrip(r);
  }

  /**
   A marker that cannot be fetched is refused as not owned; one whose body cannot be read, or that cannot be written, is
   a failure to be tried again. Nothing is written unless reading worked.
   */
  lemma FailuresAreTold(marker: Option<MarkerBody>, me: Claimant, createdByUs: bool, view: ClusterView,
                        get: Fault, read: Fault, put: Fault)
    ensures var r := Claim(marker, me, createdByUs, view, get, read, put);
            && (get != NoFault ==> r == Reply(marker, NotOwned))
            && (get == NoFault && marker.Some? && read != NoFault ==> r == Reply(marker, Failed))
            && (get == NoFault && (marker.Some? ==> read == NoFault) && put != NoFault ==>
                  (r.outcome == Failed <==> ClaimVerdict(marker, me, createdByUs, view) == Write))
            && (r.marker != marker ==> get == NoFault && put.Effective() && r.marker == Some(Encode(me.Record())))
  {
  }
}
