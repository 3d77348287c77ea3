/**
 The bucket-ownership protocol: any number of Applications sharing one flat cloud namespace,
 claiming, adopting and deleting buckets of both providers, with failures at every call.

 A claim is one atomic step on its bucket. A cleanup is several steps (verify, empty, remove)
 that interleave freely with the steps of every other Application. Each Application has one
 worker, so it never claims while it cleans up, and it stays listed until its cleanup is over.
 */
module OwnershipProtocol {
  import opened Api
  import opened Naming
  import opened Ownership
  import S3 = S3Ownership
  import Akamai = AkamaiOwnership

  datatype App = App(namespace: string, ownershipId: string, adopt: bool, deleting: bool)

  datatype BucketId = S3Bucket(name: string) | AkamaiBucket(region: string, name: string)

  datatype Bucket = Tagged(tags: S3.TagSet) | Marked(marker: Option<Akamai.MarkerBody>)

  /**
   A cleanup under way: what the verification saw, whether the listing has got past the place of the
   marker object, and whether emptying is done.
   */
  datatype Cleanup = Cleanup(bucket: BucketId, sight: S3.Sight, passed: bool, emptied: bool)

  datatype World = World(
    apps: map<string, App>,         // the listed Applications, by UID
    used: set<string>,              // every UID that was ever assigned
    buckets: map<BucketId, Bucket>,
    grants: map<string, string>,
    cleanups: map<string, Cleanup>) // by UID of the Application cleaning up

  function RecordIn(bucket: Bucket): Option<OwnerRecord> {
    match bucket
    case Tagged(tags) => S3.RecordOf(tags)
    case Marked(marker) => Akamai.RecordOf(marker)
  }

  /** The owner recorded on a bucket, if the bucket exists and records one. */
  function Owner(w: World, b: BucketId): Option<OwnerRecord> {
    if b in w.buckets then RecordIn(w.buckets[b]) else None
  }

  predicate OwnedBy(w: World, b: BucketId, uid: string) {
    Owner(w, b).Some? && Owner(w, b).value.uid == uid
  }

  function ClaimantOf(uid: string, app: App): Claimant {
    Claimant(uid, app.namespace, app.ownershipId, app.adopt)
  }

  function ViewOf(w: World, listFails: bool, namespaceFails: bool): ClusterView {
    ClusterView(listFails, w.apps.Keys, namespaceFails, w.grants)
  }

  function Fresh(b: BucketId): Bucket { if b.S3Bucket? then Tagged(None) else Marked(None) }

  /** The claim of either backend, applied to the bucket. */
  function ClaimBucket(bucket: Bucket, me: Claimant, createdByUs: bool, view: ClusterView,
                       get: Fault, read: Fault, put: Fault): Bucket
  {
    match bucket
    case Tagged(tags) => Tagged(S3.Claim(tags, me, createdByUs, view, get, put).tags)
    case Marked(marker) => Marked(Akamai.Claim(marker, me, createdByUs, view, get, read, put).marker)
  }

  /** What the delete path of either backend sees. */
  function SightOf(w: World, b: BucketId, uid: string): S3.Sight {
    if b !in w.buckets then S3.SawGone
    else
      match w.buckets[b]
      case Tagged(tags) => S3.DeleteSight(true, tags, uid)
      case Marked(None) => S3.SawUntagged
      case Marked(Some(body)) => if Akamai.ParseOwnerMarker(body).owner.uid == uid then S3.SawOwner else S3.SawOther
  }

  predicate NoIdClash(w: World, uid: string, id: string) {
    id == "" || forall v <- w.apps :: v != uid ==> w.apps[v].ownershipId != id
  }

  /** Everybody but the operator leaves the three ownership keys alone. */
  ghost predicate SameOwnership(t: S3.TagSet, t': S3.TagSet) {
    forall key | S3.IsOwnershipKey(key) ::
      && S3.Count(S3.TagsOf(t), key) == S3.Count(S3.TagsOf(t'), key)
      && S3.LastValue(S3.TagsOf(t), key) == S3.LastValue(S3.TagsOf(t'), key)
  }

  datatype Action =
    | CreateApp(uid: string, app: App)          // new, or restored with its old ownership ID
    | AssignId(uid: string, id: string)         // ensureStorageOwnershipID
    | SetAdopt(uid: string, adopt: bool)
    | RequestDelete(uid: string)
    | SetGrants(grants: map<string, string>)
    | MakeBucket(b: BucketId)                   // by an Application or by anybody else
    | EditTags(b: BucketId, tags: S3.TagSet)    // by anybody else
    | Claim(uid: string, b: BucketId, createdByUs: bool, listFails: bool, namespaceFails: bool,
            get: Fault, read: Fault, put: Fault)
    | Verify(uid: string, b: BucketId, createdByUs: bool, fault: Fault)
    | EmptyPage(uid: string, atMarker: bool, last: bool) // one page; is the marker's place on it, is it the last?
    | RemoveBucket(uid: string)
    | Abandon(uid: string)                      // the cleanup fails and will start over
    | Retire(uid: string)                       // the finalizer is removed, the Application is gone

  ghost predicate Enabled(w: World, a: Action) {
    match a
    case CreateApp(uid, app) => uid != "" && uid !in w.used && app.namespace != "" && NoIdClash(w, uid, app.ownershipId)
    case AssignId(uid, id) => uid in w.apps && w.apps[uid].ownershipId == "" && NoIdClash(w, uid, id)
    case SetAdopt(uid, _) => uid in w.apps
    case RequestDelete(uid) => uid in w.apps
    case SetGrants(_) => true
    case MakeBucket(b) => b !in w.buckets
    case EditTags(b, tags) => b in w.buckets && w.buckets[b].Tagged? && SameOwnership(w.buckets[b].tags, tags)
    case Claim(uid, b, _, _, _, _, _, _) => uid in w.apps && !w.apps[uid].deleting && uid !in w.cleanups
        && b in w.buckets
    case Verify(uid, b, _, _) => uid in w.apps && uid !in w.cleanups
    // Listing goes forward, so it is at the marker's place once, and past it at the end.
    case EmptyPage(uid, atMarker, last) => uid in w.cleanups
      && (var c := w.cleanups[uid];
          && !c.emptied
          && (atMarker ==> c.bucket.AkamaiBucket? && !c.passed)
          && (last && c.bucket.AkamaiBucket? ==> c.passed || atMarker))
    // Linode refuses to delete a bucket that still holds an object, such as a marker.
    case RemoveBucket(uid) => uid in w.cleanups && w.cleanups[uid].emptied
      && (var b := w.cleanups[uid].bucket; b in w.buckets && w.buckets[b].Marked? ==> w.buckets[b].marker.None?)
    case Abandon(uid) => uid in w.cleanups
    case Retire(uid) => uid in w.apps && w.apps[uid].deleting && uid !in w.cleanups
  }

  function VerifyAccepts(w: World, uid: string, b: BucketId, createdByUs: bool, fault: Fault): bool
    requires uid in w.apps
  {
    fault == NoFault && S3.DeleteAllowed(SightOf(w, b, uid), ClaimantOf(uid, w.apps[uid]), createdByUs)
  }

  ghost function Next(w: World, a: Action): World
    requires Enabled(w, a)
  {
    match a
    case CreateApp(uid, app) => w.(apps := w.apps[uid := app], used := w.used + {uid})
    case AssignId(uid, id) => w.(apps := w.apps[uid := w.apps[uid].(ownershipId := id)])
    case SetAdopt(uid, adopt) => w.(apps := w.apps[uid := w.apps[uid].(adopt := adopt)])
    case RequestDelete(uid) => w.(apps := w.apps[uid := w.apps[uid].(deleting := true)])
    case SetGrants(grants) => w.(grants := grants)
    case MakeBucket(b) => w.(buckets := w.buckets[b := Fresh(b)])
    case EditTags(b, tags) => w.(buckets := w.buckets[b := Tagged(tags)])
    case Claim(uid, b, createdByUs, listFails, namespaceFails, get, read, put) =>
      w.(buckets := w.buckets[b := ClaimBucket(w.buckets[b], ClaimantOf(uid, w.apps[uid]), createdByUs,
                                               ViewOf(w, listFails, namespaceFails), get, read, put)])
    case Verify(uid, b, createdByUs, fault) =>
      if VerifyAccepts(w, uid, b, createdByUs, fault)
      // An Akamai bucket seen gone is not emptied.
      then
        var sight := SightOf(w, b, uid);
        w.(cleanups := w.cleanups[uid := Cleanup(b, sight, false, b.AkamaiBucket? && sight.SawGone?)])
      else w
    case EmptyPage(uid, atMarker, last) =>
      var c := w.cleanups[uid];
      w.(cleanups := w.cleanups[uid := c.(passed := c.passed || atMarker, emptied := last)],
         buckets := if atMarker && c.bucket in w.buckets then w.buckets[c.bucket := Marked(None)] else w.buckets)
    case RemoveBucket(uid) =>
      w.(buckets := w.buckets - {w.cleanups[uid].bucket}, cleanups := w.cleanups - {uid})
    case Abandon(uid) => w.(cleanups := w.cleanups - {uid})
    case Retire(uid) => w.(apps := w.apps - {uid})
  }

  // ---------- what every step keeps ----------

  ghost predicate BucketOk(b: BucketId, bucket: Bucket) {
    && (b.S3Bucket? <==> bucket.Tagged?)
    && (bucket.Tagged? ==> S3.WellFormed(bucket.tags))
  }

  /** A record naming a listed Application carries that Application's ID or none. */
  ghost predicate RecordOk(w: World, r: OwnerRecord) {
    && r.uid in w.used + {""}
    && (r.uid in w.apps ==> r.ownershipId == "" || r.ownershipId == w.apps[r.uid].ownershipId)
  }

  ghost predicate Inv(w: World) {
    && w.apps.Keys <= w.used && "" !in w.used
    && w.cleanups.Keys <= w.apps.Keys
    && (forall u <- w.apps :: w.apps[u].namespace != "" && NoIdClash(w, u, w.apps[u].ownershipId))
    && (forall b <- w.buckets :: BucketOk(b, w.buckets[b]))
    && (forall b <- w.buckets :: RecordIn(w.buckets[b]).Some? ==> RecordOk(w, RecordIn(w.buckets[b]).value))
  }

  /** A claim leaves the record alone or writes the claimant's own, and then the decision was to write. */
  lemma ClaimEffect(b: BucketId, bucket: Bucket, me: Claimant, createdByUs: bool, view: ClusterView,
                    get: Fault, read: Fault, put: Fault)
    requires BucketOk(b, bucket) && me.uid != "" && me.namespace != ""
    ensures var bucket' := ClaimBucket(bucket, me, createdByUs, view, get, read, put);
            && BucketOk(b, bucket')
            && (bucket' != bucket ==>
                RecordIn(bucket') == Some(me.Record()) && Decide(RecordIn(bucket), me, createdByUs, view) == Write)
  {
    match bucket
    case Tagged(tags) =>
      S3.ClaimRefinesDecision(tags, me, createdByUs, view);
      S3.ClaimedTags(tags, me);
    case Marked(marker) =>
      Akamai.ClaimRefinesDecision(marker, me, createdByUs, view);
      Akamai.MarkerRoundTrip(me.Record());
  }

  lemma EditKeepsRecord(t: S3.TagSet, t': S3.TagSet)
    requires SameOwnership(t, t')
    ensures S3.RecordOf(t') == S3.RecordOf(t)
    ensures S3.WellFormed(t) ==> S3.WellFormed(t')
  {
    assert S3.IsOwnershipKey(S3.OwnerUid) && S3.IsOwnershipKey(S3.OwnerNamespace) && S3.IsOwnershipKey(S3.OwnershipId);
  }

  /** The step deletes content of `b`, or `b` itself. */
  ghost predicate Destroys(w: World, a: Action, b: BucketId) {
    && (a.EmptyPage? || a.RemoveBucket?)
    && a.uid in w.cleanups && w.cleanups[a.uid].bucket == b
  }

  /** The step takes the record of `b` away: on S3 with the bucket, on Akamai with the page that holds the marker. */
  ghost predicate Erases(w: World, a: Action, b: BucketId) {
    Destroys(w, a, b) && (if b.S3Bucket? then a.RemoveBucket? else a.EmptyPage? && a.atMarker)
  }

  /** How one action may change the bucket `b`. */
  lemma BucketStep(w: World, a: Action, b: BucketId)
    requires Inv(w) && Enabled(w, a)
    ensures var w' := Next(w, a);
            b in w'.buckets ==>
              && BucketOk(b, w'.buckets[b])
              && (Owner(w', b) == Owner(w, b)
                  || (Owner(w', b) == None && Erases(w, a, b))
                  || (a.Claim? && a.b == b && b in w.buckets
                      && Owner(w', b) == Some(ClaimantOf(a.uid, w.apps[a.uid]).Record())
                      && Decide(Owner(w, b), ClaimantOf(a.uid, w.apps[a.uid]), a.createdByUs,
                                ViewOf(w, a.listFails, a.namespaceFails)) == Write))
  {
    if a.Claim? && a.b == b {
      ClaimEffect(b, w.buckets[b], ClaimantOf(a.uid, w.apps[a.uid]), a.createdByUs,
                  ViewOf(w, a.listFails, a.namespaceFails), a.get, a.read, a.put);
    } else if a.EditTags? && a.b == b {
      EditKeepsRecord(w.buckets[b].tags, a.tags);
    }
  }

  lemma StepKeepsInv(w: World, a: Action)
    requires Inv(w) && Enabled(w, a)
    ensures Inv(Next(w, a))
  {
    var w' := Next(w, a);
    forall b <- w'.buckets
      ensures BucketOk(b, w'.buckets[b])
      ensures Owner(w', b).Some? ==> RecordOk(w', Owner(w', b).value)
    {
      BucketStep(w, a, b);
    }
  }

  // ---------- ownership exclusion ----------

  /**
   A recorded owner changes from `u` to `v` only in a claim by `v`, and only if `v` holds the same
   nonempty ownership ID, or asked to adopt while no Application `u` is listed and the recorded
   namespace is known and is its own or grants it.
   */
  lemma OwnerChange(w: World, a: Action, b: BucketId, u: string, v: string)
    requires Inv(w) && Enabled(w, a)
    requires OwnedBy(w, b, u) && OwnedBy(Next(w, a), b, v) && u != v
    ensures a.Claim? && a.uid == v && a.b == b
    ensures var r, me := Owner(w, b).value, w.apps[v];
            || (me.ownershipId != "" && r.ownershipId == me.ownershipId)
            || (me.adopt && u !in w.apps && r.namespace != ""
                && (r.namespace == me.namespace
                    || (r.namespace in w.grants && GrantNames(w.grants[r.namespace], me.namespace))))
  {
    BucketStep(w, a, b);
  }

  /** No claim by anyone displaces a listed owner: only the erasing step of a cleanup ends its ownership. */
  lemma ListedOwnerKept(w: World, a: Action, b: BucketId, u: string)
    requires Inv(w) && Enabled(w, a) && OwnedBy(w, b, u) && u in w.apps
    ensures OwnedBy(Next(w, a), b, u) || Erases(w, a, b)
  {
    BucketStep(w, a, b);
    if a.Claim? && a.b == b && !OwnedBy(Next(w, a), b, u) {
      OwnerChange(w, a, b, u, a.uid);
    }
  }

  // ---------- runs ----------

  /** The worlds of a run: `states[k + 1]` results from `actions[k]`. */
  ghost predicate IsRun(states: seq<World>, actions: seq<Action>) {
    && |states| == |actions| + 1
    && Inv(states[0])
    && forall k {:trigger Enabled(states[k], actions[k])} {:trigger Next(states[k], actions[k])} | 0 <= k < |actions| ::
         Enabled(states[k], actions[k]) && states[k + 1] == Next(states[k], actions[k])
  }

  lemma {:induction false} RunKeepsInv(states: seq<World>, actions: seq<Action>, k: nat)
    requires IsRun(states, actions) && k <= |actions|
    ensures Inv(states[k])
  {
    if k > 0 {
      RunKeepsInv(states, actions, k - 1);
      StepKeepsInv(states[k - 1], actions[k - 1]);
    }
  }

  /** What holds at `i` and each step keeps or breaks still holds at `j`, or some step in between broke it. */
  lemma {:induction false} KeptOrBroken(holds: nat -> bool, breaks: nat -> bool, i: nat, j: nat)
    requires i <= j && holds(i)
    requires forall k: nat {:trigger breaks(k)} | i <= k < j :: holds(k) ==> holds(k + 1) || breaks(k)
    ensures holds(j) || exists k: nat :: i <= k < j && breaks(k) && holds(k)
    decreases j - i
  {
    if i < j {
      KeptOrBroken(holds, breaks, i, j - 1);
      assert breaks(j - 1) == breaks(j - 1);
    }
  }

  /**
   Ownership exclusion over every run: a bucket recorded for `u` at some moment is still recorded
   for `u` at any later moment up to which `u` stayed listed, unless a cleanup of that very bucket
   erased the record in between: on S3 by removing the bucket, on Akamai by the marker's page.
   */
  lemma OwnershipExclusion(states: seq<World>, actions: seq<Action>, i: nat, j: nat, b: BucketId, u: string)
    requires IsRun(states, actions) && i <= j <= |actions|
    requires OwnedBy(states[i], b, u)
    requires forall k | i <= k <= j :: u in states[k].apps
    ensures OwnedBy(states[j], b, u) || ErasedBetween(states, actions, i, j, b, u)
  {
    var holds := (k: nat) => k < |states| && OwnedBy(states[k], b, u);
    ghost var breaks := (k: nat) => k < |actions| && k < |states| && Erases(states[k], actions[k], b);
    forall k: nat | i <= k < j ensures holds(k) ==> holds(k + 1) || breaks(k) {
      OwnerKeptInRun(states, actions, k, b, u);
    }
    KeptOrBroken(holds, breaks, i, j);
  }

  /** A step between `i` and `j` erases the record that names `u`. */
  ghost predicate ErasedBetween(states: seq<World>, actions: seq<Action>, i: nat, j: nat, b: BucketId, u: string)
    requires j <= |actions| < |states|
  {
    exists k :: i <= k < j && Erases(states[k], actions[k], b) && OwnedBy(states[k], b, u)
  }

  lemma OwnerKeptInRun(states: seq<World>, actions: seq<Action>, k: nat, b: BucketId, u: string)
    requires IsRun(states, actions) && k < |actions| && u in states[k].apps
    ensures OwnedBy(states[k], b, u) ==> OwnedBy(states[k + 1], b, u) || Erases(states[k], actions[k], b)
  {
    if OwnedBy(states[k], b, u) {
      RunKeepsInv(states, actions, k);
      ListedOwnerKept(states[k], actions[k], b, u);
    }
  }

  // ---------- deletion against interleaved claims ----------

  /** Somebody else's cleanup removes the bucket. */
  ghost predicate OtherRemoves(w: World, a: Action, b: BucketId, u: string) {
    a.RemoveBucket? && Destroys(w, a, b) && a.uid != u
  }

  ghost predicate RemovedByOther(states: seq<World>, actions: seq<Action>, i: nat, j: nat, b: BucketId, u: string)
    requires j <= |actions| < |states|
  {
    exists k :: i <= k < j && OtherRemoves(states[k], actions[k], b, u)
  }

  lemma TagStep(states: seq<World>, actions: seq<Action>, k: nat, b: BucketId, u: string)
    requires IsRun(states, actions) && k < |actions| && b.S3Bucket? && OwnedBy(states[k], b, u)
    requires u in states[k].cleanups && u in states[k + 1].cleanups
    ensures OwnedBy(states[k + 1], b, u) || OtherRemoves(states[k], actions[k], b, u)
  {
    RunKeepsInv(states, actions, k);
    ListedOwnerKept(states[k], actions[k], b, u);
  }

  /**
   Once the tag of an S3 bucket names the deleter, no schedule of the others changes it as long as its
   cleanup goes on; only somebody else's cleanup of the same bucket could remove it.
   */
  lemma TagHeldDuringCleanup(states: seq<World>, actions: seq<Action>, i: nat, j: nat, b: BucketId, u: string)
    requires IsRun(states, actions) && i <= j <= |actions| && b.S3Bucket?
    requires OwnedBy(states[i], b, u) && forall k | i <= k <= j :: u in states[k].cleanups
    ensures OwnedBy(states[j], b, u) || RemovedByOther(states, actions, i, j, b, u)
  {
    var holds := (k: nat) => k < |states| && OwnedBy(states[k], b, u);
    ghost var breaks := (k: nat) => k < |actions| && k < |states| && OtherRemoves(states[k], actions[k], b, u);
    forall k: nat | i <= k < j ensures holds(k) ==> holds(k + 1) || breaks(k) {
      if holds(k) {
        TagStep(states, actions, k, b, u);
      }
    }
    KeptOrBroken(holds, breaks, i, j);
  }

  /** A verification of `b` that proceeds saw a record naming the deleter, or an Akamai bucket gone. */
  ghost predicate VerifiesSafely(w: World, a: Action, b: BucketId)
    requires Enabled(w, a)
  {
    a.Verify? && a.b == b && VerifyAccepts(w, a.uid, b, a.createdByUs, a.fault) ==>
      SightOf(w, b, a.uid) == S3.SawOwner || (b.AkamaiBucket? && SightOf(w, b, a.uid) == S3.SawGone)
  }

  /** A claim is written to `b` while a cleanup of `b` has got past the marker. */
  ghost predicate LateClaim(w: World, a: Action, b: BucketId)
    requires Enabled(w, a)
  {
    && a.Claim? && a.b == b && Next(w, a).buckets[b] != w.buckets[b]
    && exists u <- w.cleanups :: w.cleanups[u].bucket == b && w.cleanups[u].passed
  }

  /**
   The record a verification of `b` saw is still there: on S3 until the bucket is removed, on Akamai until
   the listing gets past the marker, and from then on there is none unless a late claim wrote one.
   */
  ghost predicate CleanupsHold(w: World, b: BucketId, undisturbed: bool) {
    forall u <- w.cleanups | w.cleanups[u].bucket == b :: HeldBy(w, b, u, undisturbed)
  }

  ghost predicate HeldBy(w: World, b: BucketId, u: string, undisturbed: bool)
    requires u in w.cleanups
  {
    var c := w.cleanups[u];
    && (c.sight == S3.SawOwner || (b.AkamaiBucket? && c.sight == S3.SawGone && c.emptied))
    && (c.sight == S3.SawOwner && (b.S3Bucket? || !c.passed) ==> OwnedBy(w, b, u))
    && (c.passed ==> b.AkamaiBucket?)
    && (undisturbed && c.passed ==> Owner(w, b) == None)
  }

  lemma SightIsRecord(w: World, b: BucketId, uid: string)
    requires Inv(w) && SightOf(w, b, uid) == S3.SawOwner
    ensures OwnedBy(w, b, uid)
  {
    if w.buckets[b].Tagged? {
      assert S3.IsOwnershipKey(S3.OwnerUid);
      S3.FirstIsLast(S3.TagsOf(w.buckets[b].tags), S3.OwnerUid);
    }
  }

  /** A destroying step never hits a bucket recorded for somebody else. */
  ghost predicate SparesOthers(w: World, a: Action, b: BucketId) {
    Destroys(w, a, b) && Owner(w, b).Some? ==> OwnedBy(w, b, a.uid)
  }

  /**
   Every step on S3, and every page on Akamai up to the one with the marker, finds the deleter's own record in
   place.
   */
  ghost predicate HitsOwnRecord(w: World, a: Action, b: BucketId) {
    Destroys(w, a, b) && w.cleanups[a.uid].sight == S3.SawOwner && (b.S3Bucket? || !w.cleanups[a.uid].passed) ==>
      OwnedBy(w, b, a.uid)
  }

  lemma DeletionStepSpares(w: World, a: Action, b: BucketId, undisturbed: bool)
    requires Inv(w) && CleanupsHold(w, b, undisturbed) && Enabled(w, a)
    ensures HitsOwnRecord(w, a, b)
    ensures b.S3Bucket? || undisturbed ==> SparesOthers(w, a, b)
  {
  }

  /** A cleanup that goes on moves only by its own pages. */
  lemma CleanupMoves(w: World, a: Action, u: string)
    requires Enabled(w, a) && u in w.cleanups && u in Next(w, a).cleanups
    ensures var c, c' := w.cleanups[u], Next(w, a).cleanups[u];
            if a.EmptyPage? && a.uid == u then c' == c.(passed := c.passed || a.atMarker, emptied := a.last)
            else c' == c && !(a.RemoveBucket? && a.uid == u)
  {
  }

  /** A record that was there stays for the cleanup that saw it, until that cleanup itself erases it. */
  lemma CleanupStep(w: World, a: Action, b: BucketId, u: string, undisturbed: bool)
    requires Inv(w) && CleanupsHold(w, b, undisturbed) && Enabled(w, a) && u in w.cleanups && u in Next(w, a).cleanups
    requires w.cleanups[u].bucket == b && w.cleanups[u].sight == S3.SawOwner
    ensures var c' := Next(w, a).cleanups[u];
            c'.bucket == b && (b.S3Bucket? || !c'.passed ==> OwnedBy(Next(w, a), b, u))
  {
    var c' := Next(w, a).cleanups[u];
    CleanupMoves(w, a, u);
    if b.S3Bucket? || !c'.passed {
      ListedOwnerKept(w, a, b, u);
    }
  }

  /** Where a cleanup has got past the marker, there is no record, and only a late claim would write one. */
  lemma NoRecordBehindMarker(w: World, a: Action, b: BucketId, u: string)
    requires Inv(w) && CleanupsHold(w, b, true) && Enabled(w, a) && VerifiesSafely(w, a, b) && !LateClaim(w, a, b)
    requires u in Next(w, a).cleanups && Next(w, a).cleanups[u].bucket == b && Next(w, a).cleanups[u].passed
    ensures Owner(Next(w, a), b) == None
  {
    if b in Next(w, a).buckets {
      BucketStep(w, a, b);
    }
  }

  /** A cleanup that starts on `b` starts on the record it saw. */
  lemma CleanupStarts(w: World, a: Action, b: BucketId, u: string, undisturbed: bool)
    requires Inv(w) && Enabled(w, a) && VerifiesSafely(w, a, b) && a.Verify? && a.uid == u
    requires u in Next(w, a).cleanups && Next(w, a).cleanups[u].bucket == b
    ensures HeldBy(Next(w, a), b, u, undisturbed)
  {
    if SightOf(w, b, u) == S3.SawOwner {
      SightIsRecord(w, b, u);
    }
  }

  lemma CleanupGoesOn(w: World, a: Action, b: BucketId, u: string, undisturbed: bool)
    requires Inv(w) && CleanupsHold(w, b, undisturbed) && Enabled(w, a) && VerifiesSafely(w, a, b)
    requires undisturbed ==> !LateClaim(w, a, b)
    requires u in w.cleanups && u in Next(w, a).cleanups && Next(w, a).cleanups[u].bucket == b
    ensures HeldBy(Next(w, a), b, u, undisturbed)
  {
    CleanupMoves(w, a, u);
    if w.cleanups[u].sight == S3.SawOwner {
      CleanupStep(w, a, b, u, undisturbed);
    }
    if undisturbed && Next(w, a).cleanups[u].passed {
      NoRecordBehindMarker(w, a, b, u);
    }
  }

  lemma DeletionStep(w: World, a: Action, b: BucketId, undisturbed: bool)
    requires Inv(w) && CleanupsHold(w, b, undisturbed) && Enabled(w, a) && VerifiesSafely(w, a, b)
    requires undisturbed ==> !LateClaim(w, a, b)
    ensures CleanupsHold(Next(w, a), b, undisturbed)
  {
    forall u <- Next(w, a).cleanups | Next(w, a).cleanups[u].bucket == b
      ensures HeldBy(Next(w, a), b, u, undisturbed)
    {
      if u in w.cleanups {
        CleanupGoesOn(w, a, b, u, undisturbed);
      } else {
        CleanupStarts(w, a, b, u, undisturbed);
      }
    }
  }

  /** A run that starts with no cleanup of `b` under way, and in which every verification of `b` proceeds safely. */
  ghost predicate SafelyVerified(states: seq<World>, actions: seq<Action>, b: BucketId) {
    && IsRun(states, actions)
    && (forall u <- states[0].cleanups :: states[0].cleanups[u].bucket != b)
    && forall k | 0 <= k < |actions| :: VerifiesSafely(states[k], actions[k], b)
  }

  /** No claim on `b` lands behind the marker's page of a cleanup. */
  ghost predicate Undisturbed(states: seq<World>, actions: seq<Action>, b: BucketId)
    requires IsRun(states, actions)
  {
    forall k | 0 <= k < |actions| :: !LateClaim(states[k], actions[k], b)
  }

  lemma {:induction false} RunHolds(states: seq<World>, actions: seq<Action>, k: nat, b: BucketId, undisturbed: bool)
    requires SafelyVerified(states, actions, b) && k <= |actions|
    requires undisturbed ==> Undisturbed(states, actions, b)
    ensures CleanupsHold(states[k], b, undisturbed)
  {
    if k > 0 {
      RunHolds(states, actions, k - 1, b, undisturbed);
      RunKeepsInv(states, actions, k - 1);
      DeletionStep(states[k - 1], actions[k - 1], b, undisturbed);
    }
  }

  /**
   Deletion against every interleaving: in a run whose verifications of `b` proceed on a record naming
   the deleter, each destroying step finds that record in place, on S3 to the end, on Akamai up to the page
   with the marker. So on S3 no bucket recorded for another Application is touched; on Akamai none is if
   no claim lands behind the marker.
   */
  lemma DeletionSafe(states: seq<World>, actions: seq<Action>, k: nat, b: BucketId)
    requires SafelyVerified(states, actions, b) && k < |actions|
    ensures HitsOwnRecord(states[k], actions[k], b)
    ensures b.S3Bucket? || Undisturbed(states, actions, b) ==> SparesOthers(states[k], actions[k], b)
  {
    var undisturbed := Undisturbed(states, actions, b);
    RunHolds(states, actions, k, b, undisturbed);
    RunKeepsInv(states, actions, k);
    DeletionStepSpares(states[k], actions[k], b, undisturbed);
  }

  lemma ErasedByOwner(w: World, a: Action, b: BucketId, u: string)
    requires CleanupsHold(w, b, false) && Enabled(w, a) && Erases(w, a, b) && OwnedBy(w, b, u)
    ensures a.uid == u
  {
  }

  /** With exclusion: in such runs a listed owner keeps the bucket until its own cleanup, on both backends. */
  lemma ListedOwnerLosesOnlyToItself(states: seq<World>, actions: seq<Action>, i: nat, j: nat, b: BucketId, u: string)
    requires SafelyVerified(states, actions, b) && i <= j <= |actions|
    requires OwnedBy(states[i], b, u)
    requires forall k | i <= k <= j :: u in states[k].apps
    ensures OwnedBy(states[j], b, u) || exists k ::
        i <= k < j && Erases(states[k], actions[k], b) && actions[k].uid == u
  {
    OwnershipExclusion(states, actions, i, j, b, u);
    if !OwnedBy(states[j], b, u) {
      var k :| i <= k < j && Erases(states[k], actions[k], b) && OwnedBy(states[k], b, u);
      RunHolds(states, actions, k, b, false);
      ErasedByOwner(states[k], actions[k], b, u);
    }
  }

  // ---------- the exact condition ----------

  /** A run whose verifications of `b` proceed on a record naming the deleter or on `sight`. */
  ghost predicate RunBy(states: seq<World>, actions: seq<Action>, b: BucketId, sight: S3.Sight) {
    && IsRun(states, actions)
    && (forall u <- states[0].cleanups :: states[0].cleanups[u].bucket != b)
    && forall n | 0 <= n < |actions| :: VerifiesBy(states[n], actions[n], b, sight)
  }

  ghost predicate VerifiesBy(w: World, a: Action, b: BucketId, sight: S3.Sight)
    requires Enabled(w, a)
  {
    a.Verify? && a.b == b && VerifyAccepts(w, a.uid, b, a.createdByUs, a.fault) ==>
        SightOf(w, b, a.uid) in {S3.SawOwner, sight}
  }

  /** In every such run, on every bucket of that provider, no bucket recorded for another Application is touched. */
  ghost predicate SafeWith(sight: S3.Sight, akamai: bool, undisturbed: bool) {
    forall states: seq<World>, actions: seq<Action>, k: nat, b: BucketId |
      RunBy(states, actions, b, sight) && b.AkamaiBucket? == akamai && k < |actions|
      && (undisturbed ==> Undisturbed(states, actions, b))
      :: SparesOthers(states[k], actions[k], b)
  }

  lemma Violates(states: seq<World>, actions: seq<Action>, k: nat, b: BucketId, sight: S3.Sight, undisturbed: bool)
    requires RunBy(states, actions, b, sight) && k < |actions| && !SparesOthers(states[k], actions[k], b)
    requires undisturbed ==> Undisturbed(states, actions, b)
    ensures !SafeWith(sight, b.AkamaiBucket?, undisturbed)
  {
  }

  /** A deleting Application A, and B, which asks to adopt; A may ask too. */
  function DeleterAndAdopter(adopt: bool, buckets: map<BucketId, Bucket>): World {
    World(map["A" := App("n", "", adopt, true), "B" := App("n", "", true, false)], {"A", "B"}, buckets, map[], map[])
  }

  function VerifyByA(b: BucketId): Action { Verify("A", b, false, NoFault) }

  function ClaimByB(b: BucketId): Action { Claim("B", b, false, false, false, NoFault, NoFault, NoFault) }

  /** The world after B's claim of an unrecorded bucket. */
  lemma BClaims(w: World, b: BucketId, adopt: bool)
    requires w.apps == DeleterAndAdopter(adopt, map[]).apps && w.buckets == map[b := Fresh(b)] && "B" !in w.cleanups
    ensures Enabled(w, ClaimByB(b)) && Next(w, ClaimByB(b)) == w.(buckets := Next(w, ClaimByB(b)).buckets)
    ensures OwnedBy(Next(w, ClaimByB(b)), b, "B") && b in Next(w, ClaimByB(b)).buckets
  {
    var me := ClaimantOf("B", w.apps["B"]);
    S3.ClaimedTags(None, me);
    Akamai.MarkerRoundTrip(me.Record());
  }

  lemma Append(states: seq<World>, actions: seq<Action>, a: Action, b: BucketId, sight: S3.Sight, undisturbed: bool)
    requires RunBy(states, actions, b, sight) && (undisturbed ==> Undisturbed(states, actions, b))
    requires Enabled(states[|actions|], a) && VerifiesBy(states[|actions|], a, b, sight)
    requires undisturbed ==> !LateClaim(states[|actions|], a, b)
    ensures RunBy(states + [Next(states[|actions|], a)], actions + [a], b, sight)
    ensures undisturbed ==> Undisturbed(states + [Next(states[|actions|], a)], actions + [a], b)
  {
    var states', actions' := states + [Next(states[|actions|], a)], actions + [a];
    forall n | 0 <= n < |actions'|
      ensures Enabled(states'[n], actions'[n]) && states'[n + 1] == Next(states'[n], actions'[n])
      ensures VerifiesBy(states'[n], actions'[n], b, sight)
      ensures undisturbed ==> !LateClaim(states'[n], actions'[n], b)
    {
      if n < |actions| {
        assert states'[n] == states[n] && states'[n + 1] == states[n + 1] && actions'[n] == actions[n];
      }
    }
  }

  /** The world in which A is past its verification of `b` and has got this far, with `b` unrecorded. */
  ghost predicate AGotTo(w: World, b: BucketId, adopt: bool, c: Cleanup) {
    w.apps == DeleterAndAdopter(adopt, map[]).apps && w.buckets == map[b := Fresh(b)] && w.cleanups == map["A" := c]
        && c.bucket == b
  }

  /** From there B claims, and A's next page hits B's bucket. */
  lemma PageAfterClaim(states: seq<World>, actions: seq<Action>, b: BucketId, adopt: bool, c: Cleanup,
      sight: S3.Sight, undisturbed: bool)
    requires RunBy(states, actions, b, sight) && AGotTo(states[|actions|], b, adopt, c) && !c.emptied
    requires undisturbed ==> Undisturbed(states, actions, b) && !c.passed
    ensures !SafeWith(sight, b.AkamaiBucket?, undisturbed)
  {
    var w := states[|actions|];
    BClaims(w, b, adopt);
    var w1 := Next(w, ClaimByB(b));
    var page := EmptyPage("A", false, false);
    Append(states, actions, ClaimByB(b), b, sight, undisturbed);
    Append(states + [w1], actions + [ClaimByB(b)], page, b, sight, undisturbed);
    Violates(states + [w1] + [Next(w1, page)], actions + [ClaimByB(b)] + [page], |actions| + 1, b, sight, undisturbed);
  }

  /** A asked to adopt, so its verification of an unrecorded bucket proceeds; B asked too, and claims it. */
  lemma UntaggedIsUnsafe(akamai: bool, undisturbed: bool)
    ensures !SafeWith(S3.SawUntagged, akamai, undisturbed)
  {
    var b := if akamai then AkamaiBucket("r", "b") else S3Bucket("b");
    var w := DeleterAndAdopter(true, map[b := Fresh(b)]);
    var w1 := Next(w, VerifyByA(b));
    Append([w], [], VerifyByA(b), b, S3.SawUntagged, undisturbed);
    PageAfterClaim([w] + [w1], [] + [VerifyByA(b)], b, true, Cleanup(b, S3.SawUntagged, false, false), S3.SawUntagged,
        undisturbed);
  }

  /** A's verification finds the S3 bucket gone and proceeds; the bucket is created again, and B claims it. */
  lemma GoneIsUnsafe(undisturbed: bool)
    ensures !SafeWith(S3.SawGone, false, undisturbed)
  {
    var b := S3Bucket("b");
    var w := DeleterAndAdopter(false, map[]);
    var w1 := Next(w, VerifyByA(b));
    Append([w], [], VerifyByA(b), b, S3.SawGone, undisturbed);
    Append([w] + [w1], [] + [VerifyByA(b)], MakeBucket(b), b, S3.SawGone, undisturbed);
    PageAfterClaim([w] + [w1] + [Next(w1, MakeBucket(b))], [] + [VerifyByA(b)] + [MakeBucket(b)], b, false,
                   Cleanup(b, S3.SawGone, false, false), S3.SawGone, undisturbed);
  }

  /**
   On Akamai even a record naming the deleter is not enough: it goes with the page that holds the marker, B finds
   no marker and claims, and A's next page deletes objects of a bucket recorded for B.
   */
  lemma LateClaimIsUnsafe(sight: S3.Sight)
    ensures !SafeWith(sight, true, false)
  {
    var b := AkamaiBucket("r", "b");
    Akamai.MarkerRoundTrip(OwnerRecord("A", "n", ""));
    var w := DeleterAndAdopter(false, map[b := Marked(Some(Akamai.Encode(OwnerRecord("A", "n", ""))))]);
    var page := EmptyPage("A", true, false);
    var w1 := Next(w, VerifyByA(b));
    Append([w], [], VerifyByA(b), b, sight, false);
    Append([w] + [w1], [] + [VerifyByA(b)], page, b, sight, false);
    PageAfterClaim([w] + [w1] + [Next(w1, page)], [] + [VerifyByA(b)] + [page], b, false,
                   Cleanup(b, S3.SawOwner, true, false), sight, false);
  }

  /**
   The exact condition over what the verification saw, the provider, and claims behind the marker: on S3 deletion is
   safe iff a verification proceeds on a record naming the deleter; on Akamai iff it does so, or saw the
   bucket gone, and no claim lands between the marker's page and the end of the cleanup.
   */
  lemma DeletionSafeIff(sight: S3.Sight, akamai: bool, undisturbed: bool)
    requires !sight.SawOther?
    ensures SafeWith(sight, akamai, undisturbed) <==>
            if akamai then undisturbed && sight != S3.SawUntagged else sight == S3.SawOwner
  {
    if if akamai then undisturbed && sight != S3.SawUntagged else sight == S3.SawOwner {
      forall states: seq<World>, actions: seq<Action>, k: nat, b: BucketId |
        RunBy(states, actions, b, sight) && b.AkamaiBucket? == akamai && k < |actions|
        && (undisturbed ==> Undisturbed(states, actions, b))
        ensures SparesOthers(states[k], actions[k], b)
      {
        assert forall n | 0 <= n < |actions| :: VerifiesBy(states[n], actions[n], b, sight) ==>
            VerifiesSafely(states[n], actions[n], b);
        DeletionSafe(states, actions, k, b);
      }
    } else if sight == S3.SawUntagged {
      UntaggedIsUnsafe(akamai, undisturbed);
    } else if akamai {
      LateClaimIsUnsafe(sight);
    } else {
      GoneIsUnsafe(undisturbed);
    }
  }
}
