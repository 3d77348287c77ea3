/**
 Ownership of an S3 bucket, recorded in its tag set
 (internal/controller/s3/desireds3.go, internal/controller/s3/cleanup.go).
 */
module S3Ownership {
  import opened Api
  import opened Naming
  import opened Ownership

  /**
   The three keys only the operator writes (forge-operator.ningendo7.github.io/owner-uid,
   .../owner-namespace and .../ownership-id), and every other key.
   */
  datatype TagKey = OwnerUid | OwnerNamespace | OwnershipId | OtherKey(name: string)

  datatype Tag = Tag(key: TagKey, value: string)

  predicate IsOwnershipKey(key: TagKey) { !key.OtherKey? }

  /** A bucket's tag set; None is the NoSuchTagSet reply. */
  type TagSet = Option<seq<Tag>>

  function TagsOf(tags: TagSet): seq<Tag> { if tags.Some? then tags.value else [] }

  /** The value a scan that keeps overwriting ends up with. */
  function LastValue(tags: seq<Tag>, key: TagKey): Option<string> {
    if tags == [] then None
    else if tags[|tags| - 1].key == key then Some(tags[|tags| - 1].value)
    else LastValue(tags[..|tags| - 1], key)
  }

  /** The value a scan that stops at the first hit ends up with. */
  function FirstValue(tags: seq<Tag>, key: TagKey): Option<string> {
    if tags == [] then None
    else if tags[0].key == key then Some(tags[0].value)
    else FirstValue(tags[1..], key)
  }

  function Foreign(tags: seq<Tag>): seq<Tag> {
    if tags == [] then []
    else
      var last := tags[|tags| - 1];
      Foreign(tags[..|tags| - 1]) + (if IsOwnershipKey(last.key) then [] else [last])
  }

  function Count(tags: seq<Tag>, key: TagKey): nat {
    if tags == [] then 0
    else Count(tags[..|tags| - 1], key) + (if tags[|tags| - 1].key == key then 1 else 0)
  }

  function ValueOr(v: Option<string>): string { if v.Some? then v.value else "" }

  /** The owner a tag set names, if it carries the owner tag at all. */
  function RecordOf(tags: TagSet): Option<OwnerRecord> {
    var ts := TagsOf(tags);
    match LastValue(ts, OwnerUid)
    case None => None
    case Some(uid) => Some(OwnerRecord(uid, ValueOr(LastValue(ts, OwnerNamespace)),
        ValueOr(LastValue(ts, OwnershipId))))
  }

  /** Every ownership key at most once, and no namespace or ID tag without the owner tag. */
  ghost predicate WellFormed(tags: TagSet) {
    var ts := TagsOf(tags);
    && (forall key | IsOwnershipKey(key) :: Count(ts, key) <= 1)
    && (Count(ts, OwnerUid) == 0 ==> Count(ts, OwnerNamespace) == 0 && Count(ts, OwnershipId) == 0)
  }

  function OwnershipTags(me: Claimant): seq<Tag> {
    [Tag(OwnerUid, me.uid), Tag(OwnerNamespace, me.namespace)]
    + (if me.ownershipId != "" then [Tag(OwnershipId, me.ownershipId)] else [])
  }

  // ---------- the branches of the source ----------

  function ClaimVerdict(tags: TagSet, me: Claimant, createdByUs: bool, view: ClusterView): Verdict {
    if tags.None? then
      if createdByUs then Write else if me.adopt then Write else Refuse
    else
      var owner := LastValue(tags.value, OwnerUid);
      var ownerNamespace := ValueOr(LastValue(tags.value, OwnerNamespace));
      var ownerId := ValueOr(LastValue(tags.value, OwnershipId));
      if owner.Some? then
        if owner.value == me.uid then
          if ownerNamespace != me.namespace || ownerId != me.ownershipId then Write else Keep
        else if me.ownershipId != "" && ownerId == me.ownershipId then Write
        else if !me.adopt then Refuse
        else if EvaluateBucketAdoption(view, owner.value, ownerNamespace, me.namespace) then Write
        else Refuse
      else if createdByUs then Write
      else if me.adopt then Write
      else Refuse
  }

  /** The tag set a claim writes. Without an owner tag the existing tags are written back unfiltered. */
  function Claimed(tags: TagSet, me: Claimant): seq<Tag> {
    var ts := TagsOf(tags);
    (if LastValue(ts, OwnerUid).Some? then Foreign(ts) else ts) + OwnershipTags(me)
  }

  datatype Reply = Reply(tags: TagSet, outcome: Outcome)

  /** One claim, with the fault of the tag read and of the tag write. */
  function Claim(tags: TagSet, me: Claimant, createdByUs: bool, view: ClusterView, get: Fault, put: Fault): Reply {
    if get != NoFault then Reply(tags, NotOwned)
    else
      match ClaimVerdict(tags, me, createdByUs, view)
      case Keep => Reply(tags, Success)
      case Refuse => Reply(tags, NotOwned)
      case Write =>
        Reply(if put.Effective() then Some(Claimed(tags, me)) else tags,
              if put == NoFault then Success else Failed)
  }

  /** What verifyOwnership sees before a deletion. */
  datatype Sight = SawGone | SawUntagged | SawOwner | SawOther

  function DeleteSight(present: bool, tags: TagSet, uid: string): Sight {
    if !present then SawGone
    else if FirstValue(TagsOf(tags), OwnerUid).None? then SawUntagged
    else if FirstValue(TagsOf(tags), OwnerUid).value == uid then SawOwner
    else SawOther
  }

  predicate DeleteAllowed(sight: Sight, me: Claimant, createdByUs: bool) {
    sight.SawGone? || sight.SawOwner? || (sight.SawUntagged? && (createdByUs || me.adopt))
  }

  // ---------- the imperative form ----------

  class Manager {
    const me: Claimant
    const createdByUs: bool
    const view: ClusterView
    const oracle: Oracle
    var calls: nat
    var tags: TagSet

    constructor (me: Claimant, createdByUs: bool, view: ClusterView, tags: TagSet, oracle: Oracle)
      ensures this.me == me && this.createdByUs == createdByUs && this.view == view
      ensures this.tags == tags && this.oracle == oracle && calls == 0
    {
      this.me, this.createdByUs, this.view := me, createdByUs, view;
      this.tags, this.oracle, calls := tags, oracle, 0;
    }

    /** tagsExcludingOwner: keeps every other tag, in order. */
    static method TagsExcludingOwner(tagSet: seq<Tag>) returns (other: seq<Tag>)
      ensures other == Foreign(tagSet)
    {
      other := [];
      for i := 0 to |tagSet|
        invariant other == Foreign(tagSet[..i])
      {
        assert tagSet[..i + 1][..i] == tagSet[..i];
        var key := tagSet[i].key;
        if key != OwnerUid && key != OwnerNamespace && key != OwnershipId {
          other := other + [tagSet[i]];
        }
      }
      assert tagSet[..|tagSet|] == tagSet;
    }

    /** The scan of claimOrVerifyOwnership: three variables overwritten as matching tags come by. */
    static method ScanOwner(tagSet: seq<Tag>)
      returns (hasOwnerTag: bool, ownerUid: string, ownerNamespace: string, ownerId: string)
      ensures hasOwnerTag <==> LastValue(tagSet, OwnerUid).Some?
      ensures ownerUid == ValueOr(LastValue(tagSet, OwnerUid))
      ensures ownerNamespace == ValueOr(LastValue(tagSet, OwnerNamespace))
      ensures ownerId == ValueOr(LastValue(tagSet, OwnershipId))
    {
      hasOwnerTag, ownerUid, ownerNamespace, ownerId := false, "", "", "";
      for i := 0 to |tagSet|
        invariant hasOwnerTag <==> LastValue(tagSet[..i], OwnerUid).Some?
        invariant ownerUid == ValueOr(LastValue(tagSet[..i], OwnerUid))
        invariant ownerNamespace == ValueOr(LastValue(tagSet[..i], OwnerNamespace))
        invariant ownerId == ValueOr(LastValue(tagSet[..i], OwnershipId))
      {
        assert tagSet[..i + 1][..i] == tagSet[..i];
        if tagSet[i].key == OwnerUid {
          ownerUid, hasOwnerTag := tagSet[i].value, true;
        } else if tagSet[i].key == OwnerNamespace {
          ownerNamespace := tagSet[i].value;
        } else if tagSet[i].key == OwnershipId {
          ownerId := tagSet[i].value;
        }
      }
      assert tagSet[..|tagSet|] == tagSet;
    }

    method TagAsOwned(other: seq<Tag>) returns (outcome: Outcome)
      modifies this`calls, this`tags
      ensures calls == old(calls) + 1
      ensures tags == if oracle(old(calls)).Effective() then Some(other + OwnershipTags(me)) else old(tags)
      ensures outcome == if oracle(old(calls)) == NoFault then Success else Failed
    {
      var tagSet := other + [Tag(OwnerUid, me.uid), Tag(OwnerNamespace, me.namespace)];
      if me.ownershipId != "" {
        tagSet := tagSet + [Tag(OwnershipId, me.ownershipId)];
      }
      assert tagSet == other + OwnershipTags(me);
      var fault := oracle(calls);
      calls := calls + 1;
      if fault.Effective() {
        tags := Some(tagSet);
      }
      outcome := if fault == NoFault then Success else Failed;
    }

    method ClaimOrVerifyOwnership() returns (outcome: Outcome)
      modifies this`calls, this`tags
      ensures Reply(tags, outcome)
           == Claim(old(tags), me, createdByUs, view, oracle(old(calls)), oracle(old(calls) + 1))
    {
      var fault := oracle(calls);
      calls := calls + 1;
      if fault != NoFault {
        return NotOwned;
      }
      if tags.None? {
        if createdByUs {
          outcome := TagAsOwned([]);
          return;
        }
        if me.adopt {
          outcome := TagAsOwned([]);
          return;
        }
        return NotOwned;
      }
      var tagSet := tags.value;
      var hasOwnerTag, ownerUid, ownerNamespace, ownerId := ScanOwner(tagSet);
      if hasOwnerTag {
        var other := TagsExcludingOwner(tagSet);
        if ownerUid == me.uid {
          if ownerNamespace != me.namespace || ownerId != me.ownershipId {
            outcome := TagAsOwned(other);
            return;
          }
          return Success;
        }
        if me.ownershipId != "" && ownerId == me.ownershipId {
          outcome := TagAsOwned(other);
          return;
        }
        if !me.adopt {
          return NotOwned;
        }
        if !EvaluateBucketAdoption(view, ownerUid, ownerNamespace, me.namespace) {
          return NotOwned;
        }
        outcome := TagAsOwned(other);
        return;
      }
      if createdByUs {
        outcome := TagAsOwned(tagSet);
        return;
      }
      if me.adopt {
        outcome := TagAsOwned(tagSet);
        return;
      }
      return NotOwned;
    }
  }

  /** verifyOwnership: looks, decides, writes nothing. `present` is false for the NoSuchBucket reply. */
  method VerifyOwnership(present: bool, tags: TagSet, me: Claimant, createdByUs: bool, fault: Fault)
    returns (outcome: Outcome)
    ensures outcome == if fault == NoFault && DeleteAllowed(DeleteSight(present, tags, me.uid), me, createdByUs)
                       then Success else NotOwned
  {
    if fault != NoFault {
      return NotOwned;
    }
    if !present {
      return Success;
    }
    var tagSet := TagsOf(tags);
    for i := 0 to |tagSet|
      invariant FirstValue(tagSet, OwnerUid) == FirstValue(tagSet[i..], OwnerUid)
    {
      assert tagSet[i..][1..] == tagSet[i + 1..];
      if tagSet[i].key == OwnerUid {
        return if tagSet[i].value == me.uid then Success else NotOwned;
      }
    }
    return if createdByUs || me.adopt then Success else NotOwned;
  }

  // ---------- what the branches amount to ----------

  /** The S3 branches are the shared decision applied to the record in the tags. */
  lemma ClaimRefinesDecision(tags: TagSet, me: Claimant, createdByUs: bool, view: ClusterView)
    ensures ClaimVerdict(tags, me, createdByUs, view) == Decide(RecordOf(tags), me, createdByUs, view)
  {
  }

  lemma {:induction false} CountSplit(a: seq<Tag>, b: seq<Tag>, key: TagKey)
    ensures Count(a + b, key) == Count(a, key) + Count(b, key)
  {
    if b == [] {
      assert a + b == a;
    } else {
      assert (a + b)[..|a + b| - 1] == a + b[..|b| - 1];
      CountSplit(a, b[..|b| - 1], key);
    }
  }

  lemma {:induction false} ForeignSplit(a: seq<Tag>, b: seq<Tag>)
    ensures Foreign(a + b) == Foreign(a) + Foreign(b)
  {
    if b == [] {
      assert a + b == a;
    } else {
      assert (a + b)[..|a + b| - 1] == a + b[..|b| - 1];
      ForeignSplit(a, b[..|b| - 1]);
    }
  }

  lemma {:induction false} LastValueSplit(a: seq<Tag>, b: seq<Tag>, key: TagKey)
    ensures LastValue(a + b, key) == if LastValue(b, key).Some? then LastValue(b, key) else LastValue(a, key)
  {
    if b == [] {
      assert a + b == a;
    } else {
      assert (a + b)[..|a + b| - 1] == a + b[..|b| - 1];
      LastValueSplit(a, b[..|b| - 1], key);
    }
  }

  lemma {:induction false} CountZero(tags: seq<Tag>, key: TagKey)
    ensures Count(tags, key) == 0 <==> LastValue(tags, key).None?
    ensures Count(tags, key) == 0 <==> forall t <- tags :: t.key != key
  {
    if tags != [] {
      CountZero(tags[..|tags| - 1], key);
      assert forall t <- tags[..|tags| - 1] :: t in tags;
      assert forall t <- tags :: t in tags[..|tags| - 1] || t == tags[|tags| - 1];
    }
  }

  lemma Single(t: Tag, key: TagKey)
    ensures Count([t], key) == if t.key == key then 1 else 0
    ensures Foreign([t]) == if IsOwnershipKey(t.key) then [] else [t]
    ensures LastValue([t], key) == if t.key == key then Some(t.value) else None
  {
    assert [t][..0] == [];
  }

  lemma {:induction false} ForeignHasNoOwnership(tags: seq<Tag>, key: TagKey)
    requires IsOwnershipKey(key)
    ensures Count(Foreign(tags), key) == 0
  {
    if tags != [] {
      var init, last := tags[..|tags| - 1], tags[|tags| - 1];
      ForeignHasNoOwnership(init, key);
      Single(last, key);
      CountSplit(Foreign(init), if IsOwnershipKey(last.key) then [] else [last], key);
    }
  }

  lemma {:induction false} ForeignUnchanged(tags: seq<Tag>)
    requires forall t <- tags :: !IsOwnershipKey(t.key)
    ensures Foreign(tags) == tags
  {
    if tags != [] {
      ForeignUnchanged(tags[..|tags| - 1]);
      assert tags[|tags| - 1] in tags;
    }
  }

  lemma {:induction false} ForeignMembers(tags: seq<Tag>)
    ensures forall t <- Foreign(tags) :: !IsOwnershipKey(t.key)
  {
    if tags != [] {
      ForeignMembers(tags[..|tags| - 1]);
    }
  }

  lemma {:induction false} FirstIsLast(tags: seq<Tag>, key: TagKey)
    requires Count(tags, key) <= 1
    ensures FirstValue(tags, key) == LastValue(tags, key)
  {
    if tags != [] {
      assert tags == [tags[0]] + tags[1..];
      CountSplit([tags[0]], tags[1..], key);
      LastValueSplit([tags[0]], tags[1..], key);
      FirstIsLast(tags[1..], key);
      CountZero(tags[1..], key);
    }
  }

  lemma OwnershipTagFacts(me: Claimant, key: TagKey)
    ensures Foreign(OwnershipTags(me)) == []
    ensures Count(OwnershipTags(me), key) ==
            if key.OtherKey? || (key == OwnershipId && me.ownershipId == "") then 0 else 1
    ensures LastValue(OwnershipTags(me), key) ==
            match key
            case OwnerUid => Some(me.uid)
            case OwnerNamespace => Some(me.namespace)
            case OwnershipId => if me.ownershipId != "" then Some(me.ownershipId) else None
            case OtherKey(_) => None
  {
    var owner, ns, id := Tag(OwnerUid, me.uid), Tag(OwnerNamespace, me.namespace), Tag(OwnershipId, me.ownershipId);
    Single(owner, key); Single(ns, key); Single(id, key);
    assert [owner, ns] == [owner] + [ns];
    CountSplit([owner], [ns], key); ForeignSplit([owner], [ns]); LastValueSplit([owner], [ns], key);
    CountSplit([owner, ns], [id], key); ForeignSplit([owner, ns], [id]); LastValueSplit([owner, ns], [id], key);
    if me.ownershipId == "" {
      assert OwnershipTags(me) == [owner, ns];
    }
  }

  /** The tags a claim writes back besides its own: on a well-formed set, exactly the foreign ones. */
  lemma KeptTags(tags: TagSet, me: Claimant)
    requires WellFormed(tags)
    ensures Claimed(tags, me) == Foreign(TagsOf(tags)) + OwnershipTags(me)
  {
    var ts := TagsOf(tags);
    if LastValue(ts, OwnerUid).None? {
      CountZero(ts, OwnerUid); CountZero(ts, OwnerNamespace); CountZero(ts, OwnershipId);
      ForeignUnchanged(ts);
    }
  }

  lemma ClaimedKey(tags: TagSet, me: Claimant, key: TagKey)
    requires WellFormed(tags) && IsOwnershipKey(key)
    ensures Count(Claimed(tags, me), key) == Count(OwnershipTags(me), key)
    ensures LastValue(Claimed(tags, me), key) == LastValue(OwnershipTags(me), key)
  {
    var kept := Foreign(TagsOf(tags));
    KeptTags(tags, me);
    ForeignHasNoOwnership(TagsOf(tags), key);
    CountZero(kept, key);
    CountSplit(kept, OwnershipTags(me), key);
    LastValueSplit(kept, OwnershipTags(me), key);
  }

  /**
   Every write of a claim on a well-formed tag set keeps all other tags in order, leaves a
   well-formed set and makes it name the claimant.
   */
  lemma ClaimedTags(tags: TagSet, me: Claimant)
    requires WellFormed(tags)
    ensures Foreign(Claimed(tags, me)) == Foreign(TagsOf(tags))
    ensures WellFormed(Some(Claimed(tags, me)))
    ensures RecordOf(Some(Claimed(tags, me))) == Some(me.Record())
  {
    assert Foreign(Claimed(tags, me)) == Foreign(TagsOf(tags)) by {
      KeptTags(tags, me);
      ForeignMembers(TagsOf(tags));
      ForeignUnchanged(Foreign(TagsOf(tags)));
      OwnershipTagFacts(me, OwnerUid);
      ForeignSplit(Foreign(TagsOf(tags)), OwnershipTags(me));
    }
    forall key | IsOwnershipKey(key)
      ensures Count(Claimed(tags, me), key) == Count(OwnershipTags(me), key)
      ensures LastValue(Claimed(tags, me), key) == LastValue(OwnershipTags(me), key)
    {
      ClaimedKey(tags, me, key);
    }
    OwnershipTagFacts(me, OwnerUid); OwnershipTagFacts(me, OwnerNamespace); OwnershipTagFacts(me, OwnershipId);
  }

  /** A claim whose record is already in place succeeds without a write. */
  lemma ClaimOfOwnRecord(tags: TagSet, me: Claimant, createdByUs: bool, view: ClusterView, put: Fault)
    requires RecordOf(tags) == Some(me.Record())
    ensures Claim(tags, me, createdByUs, view, NoFault, put) == Reply(tags, Success)
  {
    ClaimRefinesDecision(tags, me, createdByUs, view);
  }

  /**
   A claim on a well-formed tag set, whatever fails: other tags stay, the set stays well formed,
   success means the set names the claimant in full, and the same Application asking again, with
   any creation record and any cluster, succeeds without a write.
   */
  lemma ClaimKeepsForeignTagsAndIsIdempotent(
    tags: TagSet, me: Claimant, createdByUs: bool, view: ClusterView, get: Fault, put: Fault,
    createdByUs': bool, view': ClusterView, put': Fault)
    requires WellFormed(tags)
    ensures var r := Claim(tags, me, createdByUs, view, get, put);
            && Foreign(TagsOf(r.tags)) == Foreign(TagsOf(tags))
            && WellFormed(r.tags)
            && (r.outcome == Success ==>
                && RecordOf(r.tags) == Some(me.Record())
                && Claim(r.tags, me, createdByUs', view', NoFault, put') == Reply(r.tags, Success))
  {
    ClaimedTags(tags, me);
    ClaimRefinesDecision(tags, me, createdByUs, view);
    var r := Claim(tags, me, createdByUs, view, get, put);
    if r.outcome == Success {
      assert RecordOf(r.tags) == Some(me.Record());
      ClaimOfOwnRecord(r.tags, me, createdByUs', view', put');
    }
  }

  /** The unfiltered write leaves a well-formed set iff no stray namespace tag, and at most one ID tag, results. */
  lemma UnfilteredWriteIff(tags: seq<Tag>, me: Claimant)
    requires Count(tags, OwnerUid) == 0
    ensures WellFormed(Some(Claimed(Some(tags), me))) <==>
            Count(tags, OwnerNamespace) == 0 && Count(tags, OwnershipId) + (if me.ownershipId != "" then 1 else 0) <= 1
  {
    CountZero(tags, OwnerUid);
    OwnershipTagFacts(me, OwnerUid); OwnershipTagFacts(me, OwnerNamespace); OwnershipTagFacts(me, OwnershipId);
    CountSplit(tags, OwnershipTags(me), OwnerUid);
    CountSplit(tags, OwnershipTags(me), OwnerNamespace);
    CountSplit(tags, OwnershipTags(me), OwnershipId);
  }

  /** The delete path's first-hit scan and the claim path's last-hit scan agree on well-formed tags. */
  lemma DeleteRefinesDecision(tags: TagSet, me: Claimant, createdByUs: bool)
    requires WellFormed(tags)
    ensures DeleteAllowed(DeleteSight(true, tags, me.uid), me, createdByUs)
            == DecideDelete(RecordOf(tags), me, createdByUs)
  {
    FirstIsLast(TagsOf(tags), OwnerUid);
  }

  // ---------- who gets the bucket, read off the tags ----------

  /** The tag is in the set. */
  predicate Has(tags: TagSet, key: TagKey, value: string) { Tag(key, value) in TagsOf(tags) }

  predicate HasKey(tags: TagSet, key: TagKey) { exists t <- TagsOf(tags) :: t.key == key }

  lemma {:induction false} LastValueIsHeld(tags: seq<Tag>, key: TagKey, value: string)
    requires Count(tags, key) <= 1
    ensures LastValue(tags, key) == Some(value) <==> Tag(key, value) in tags
  {
    if tags != [] {
      var init, last := tags[..|tags| - 1], tags[|tags| - 1];
      LastValueIsHeld(init, key, value);
      CountZero(init, key);
      assert forall t :: t in tags <==> t in init || t == last;
    }
  }

  /**
   Without faults a claim succeeds exactly when there is no owner tag and the bucket was created by us or adoption was
   asked for; or the owner tag is ours; or our ownership ID is there; or adoption was asked for and is authorised.
   */
  lemma ClaimSucceedsIff(tags: TagSet, me: Claimant, createdByUs: bool, view: ClusterView, uid: string, ns: string)
    requires WellFormed(tags)
    requires HasKey(tags, OwnerUid) ==> Has(tags, OwnerUid, uid)
    requires if HasKey(tags, OwnerNamespace) then Has(tags, OwnerNamespace, ns) else ns == ""
    ensures Claim(tags, me, createdByUs, view, NoFault, NoFault).outcome == Success <==>
            if !HasKey(tags, OwnerUid) then createdByUs || me.adopt
            else
              || uid == me.uid
              || (me.ownershipId != "" && Has(tags, OwnershipId, me.ownershipId))
              || (me.adopt && EvaluateBucketAdoption(view, uid, ns, me.namespace))
  {
    var ts := TagsOf(tags);
    CountZero(ts, OwnerUid);
    CountZero(ts, OwnerNamespace);
    LastValueIsHeld(ts, OwnerUid, uid);
    LastValueIsHeld(ts, OwnerNamespace, ns);
    LastValueIsHeld(ts, OwnershipId, me.ownershipId);
  }

  /**
   And a deletion is let through exactly when there is no owner tag and window or adoption holds, or the owner
   tag is ours.
   */
  lemma DeletionAllowedIff(tags: TagSet, me: Claimant, createdByUs: bool)
    requires WellFormed(tags)
    ensures DeleteAllowed(DeleteSight(true, tags, me.uid), me, createdByUs) <==>
            Has(tags, OwnerUid, me.uid) || (!HasKey(tags, OwnerUid) && (createdByUs || me.adopt))
  {
    var ts := TagsOf(tags);
    FirstIsLast(ts, OwnerUid);
    CountZero(ts, OwnerUid);
    LastValueIsHeld(ts, OwnerUid, me.uid);
  }
}
