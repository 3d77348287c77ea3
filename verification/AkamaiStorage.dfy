/**
 Provisioning and cleanup of an Akamai bucket and its access key
 (internal/controller/akamaiobjstr/obj_storage.go, internal/controller/akamaiobjstr/cleanup.go),
 with any call failing before or after it took effect.
 */
module AkamaiStorage {
  import opened Api
  import opened Naming
  import opened Ownership
  import opened Paging
  import Akamai = AkamaiOwnership

  /**
   An access key of the account. Its access key and its secret are as unique as its ID, so the ID
   stands for both. It opens one bucket of one region.
   */
  datatype Key = Key(id: nat, keyLabel: string, scope: Scope)

  datatype Scope = Scope(region: string, bucketName: string)

  datatype Pair = Pair(accessKey: nat, secretKey: nat)

  /** Objects are numbered in listing order; the marker object has a number of its own. */
  datatype Bucket = Bucket(contents: set<nat>, markerBody: Akamai.MarkerBody)

  /**
   The bucket, the account's keys, the secret key held by the output Secret, the calls made so far, and
   how many more empty pages a listing may insert although it is not at its end.
   */
  datatype State = State(
    bucket: Option<Bucket>, keys: seq<Key>, nextId: nat, secret: Option<nat>, calls: nat, blanks: nat)
  {
    function Called(n: nat): State { this.(calls := calls + n) }
  }

  datatype Env = Env(me: Claimant, createdByUs: bool, view: ClusterView, bucketName: string, region: string,
                     keyLabel: string, markerAt: nat, pageSize: nat -> nat, blankAt: nat -> bool)

  function ScopeOf(env: Env): Scope { Scope(env.region, env.bucketName) }

  datatype Done = Done(state: State, outcome: Outcome)
  datatype Keyed = Keyed(state: State, pair: Option<Pair>)

  function MarkerOf(b: Bucket, env: Env): Option<Akamai.MarkerBody> {
    if env.markerAt in b.contents then Some(b.markerBody) else None
  }

  function WithMarker(b: Bucket, marker: Option<Akamai.MarkerBody>, env: Env): Bucket {
    if marker.None? then b else Bucket(b.contents + {env.markerAt}, marker.value)
  }

  // ---------- access keys ----------

  function FindKey(keys: seq<Key>, keyLabel: string): Option<Key> {
    if keys == [] then None else if keys[0].keyLabel == keyLabel then Some(keys[0]) else FindKey(keys[1..], keyLabel)
  }

  function WithoutKey(keys: seq<Key>, id: nat): seq<Key> {
    if keys == [] then [] else (if keys[0].id == id then [] else [keys[0]]) + WithoutKey(keys[1..], id)
  }

  /** The object store accepts the pair for the bucket. */
  predicate Accepts(s: State, env: Env, pair: Pair) {
    pair.accessKey == pair.secretKey && exists k <- s.keys :: k.id == pair.accessKey && k.scope == ScopeOf(env)
  }

  function DeleteKeyCall(s: State, id: nat, f: Fault): State {
    (if f.Effective() then s.(keys := WithoutKey(s.keys, id)) else s).Called(1)
  }

  function CreateKeyCall(s: State, env: Env, f: Fault): State {
    var key := Key(s.nextId, env.keyLabel, ScopeOf(env));
    (if f.Effective() then s.(keys := s.keys + [key], nextId := s.nextId + 1) else s).Called(1)
  }

  function FreshKey(s: State, env: Env, o: Oracle): Keyed {
    Keyed(CreateKeyCall(s, env, o(s.calls)), if o(s.calls) == NoFault then Some(Pair(s.nextId, s.nextId)) else None)
  }

  /** A key found by label is used with the recorded secret; with no such secret it is replaced. */
  function KeyEnsured(s: State, env: Env, o: Oracle): Keyed {
    var s1 := s.Called(1);
    if o(s.calls) != NoFault then Keyed(s1, None)
    else
      match FindKey(s.keys, env.keyLabel)
      case None => FreshKey(s1, env, o)
      case Some(key) =>
        var recovered := if o(s1.calls) == NoFault then s.secret else None;
        var s2 := s1.Called(1);
        if recovered.Some? then Keyed(s2, Some(Pair(key.id, recovered.value)))
        else
          var s3 := DeleteKeyCall(s2, key.id, o(s2.calls));
          if o(s2.calls) != NoFault then Keyed(s3, None) else FreshKey(s3, env, o)
  }

  datatype KeyDone = KeyDone(state: State, ok: bool)

  function KeyDeleted(s: State, env: Env, o: Oracle): KeyDone {
    var s1 := s.Called(1);
    if o(s.calls) != NoFault then KeyDone(s1, false)
    else
      match FindKey(s.keys, env.keyLabel)
      case None => KeyDone(s1, true)
      case Some(key) => KeyDone(DeleteKeyCall(s1, key.id, o(s1.calls)), o(s1.calls) == NoFault)
  }

  /** The deferred step of both paths: an ownership failure discards the key. */
  function Discarding(d: Done, env: Env, o: Oracle): Done {
    if d.outcome == NotOwned then Done(KeyDeleted(d.state, env, o).state, NotOwned) else d
  }

  // ---------- provisioning ----------

  datatype Found = Found(state: State, ok: bool, created: bool)

  function BucketEnsured(s: State, env: Env, o: Oracle): Found {
    var s1 := s.Called(1);
    if o(s.calls) != NoFault then Found(s1, false, false)
    else if s.bucket.Some? then Found(s1, true, false)
    else
      var f := o(s1.calls);
      var s2 := (if f.Effective() then s1.(bucket := Some(Bucket({}, Akamai.MarkerBody("", None)))) else s1).Called(1);
      if f != NoFault then Found(s2, false, false)
      else Found(s2.Called(1), o(s2.calls) == NoFault, true) // recordBucketCreated
  }

  /** The marker read needs an accepted pair; a rejected one fails like any other error. */
  function MarkerClaimed(s: State, pair: Pair, createdByUs: bool, env: Env, o: Oracle): Done
    requires s.bucket.Some?
  {
    var get := if Accepts(s, env, pair) then o(s.calls) else Lost;
    var r := Akamai.Claim(MarkerOf(s.bucket.value, env), env.me, createdByUs, env.view, get, o(s.calls + 1),
        o(s.calls + 2));
    Done(s.(bucket := Some(WithMarker(s.bucket.value, r.marker, env))).Called(3), r.outcome)
  }

  datatype Provisioned = Provisioned(state: State, outcome: Outcome, pair: Option<Pair>)

  /** The rest of ReconcileBucket, once a key was ensured. */
  function ClaimedWith(key: Keyed, createdByUs: bool, env: Env, o: Oracle): Provisioned {
    if key.pair.None? || key.state.bucket.None? then Provisioned(key.state, Failed, None)
    else
      var d := Discarding(MarkerClaimed(key.state, key.pair.value, createdByUs, env, o), env, o);
      Provisioned(d.state, d.outcome, if d.outcome == Success then key.pair else None)
  }

  function BucketReconciled(s: State, env: Env, o: Oracle): Provisioned {
    if env.bucketName == "" || env.region == "" then Provisioned(s, Failed, None)
    else
      var found := BucketEnsured(s, env, o);
      if !found.ok then Provisioned(found.state, Failed, None)
      else ClaimedWith(KeyEnsured(found.state, env, o), env.createdByUs || found.created, env, o)
  }

  /** On success the status is written, and then the output Secret. */
  function Recorded(p: Provisioned, o: Oracle): Provisioned {
    if p.pair.None? then p
    else if o(p.state.calls) != NoFault then Provisioned(p.state.Called(1), Failed, None)
    else
      var f := o(p.state.calls + 1);
      Provisioned((if f.Effective() then p.state.(secret := Some(p.pair.value.secretKey)) else p.state).Called(2),
                  if f == NoFault then Success else Failed, p.pair)
  }

  /** A whole storage pass. */
  function Pass(s: State, env: Env, o: Oracle): Provisioned { Recorded(BucketReconciled(s, env, o), o) }

  // ---------- cleanup ----------

  function DeleteObjectsCall(b: Bucket, page: seq<nat>, f: Fault): Bucket {
    match f
    case NoFault => b.(contents := b.contents - Elements(page))
    case Late => b.(contents := b.contents - Elements(page))
    case Lost => b
    case Conflicts => b
    case Partial(kept) => b.(contents := b.contents - (Elements(page) - kept))
  }

  predicate DeleteObjectsOk(page: seq<nat>, f: Fault) {
    f == NoFault || (f.Partial? && f.kept * Elements(page) == {})
  }

  datatype Turn = Turn(state: State, ok: bool, more: bool, last: int)

  function NextPage(s: State, token: int, env: Env, o: Oracle): Turn {
    var s1 := s.Called(1);
    if o(s.calls) != NoFault || s.bucket.None? then Turn(s1, false, false, token)
    else if s.blanks > 0 && env.blankAt(s.calls) then Turn(s1.(blanks := s.blanks - 1), true, true, token)
    else
      var page := FetchPage(s.bucket.value.contents, token, env.pageSize(s.calls));
      if page.items == [] then Turn(s1, true, page.truncated, token)
      else
        var f := o(s1.calls);
        Turn(s1.(bucket := Some(DeleteObjectsCall(s.bucket.value, page.items, f))).Called(1),
             DeleteObjectsOk(page.items, f), page.truncated, page.items[|page.items| - 1])
  }

  function LeftToList(s: State, token: int): nat {
    s.blanks + if s.bucket.Some? then |Beyond(s.bucket.value.contents, token)| else 0
  }

  function PagesDeleted(s: State, token: int, env: Env, o: Oracle): Done
    decreases LeftToList(s, token)
  {
    var t := NextPage(s, token, env, o);
    TurnProgresses(s, token, env, o);
    if t.ok && t.more then PagesDeleted(t.state, t.last, env, o) else Done(t.state, if t.ok then Success else Failed)
  }

  /** Keys and output Secret are not touched while emptying, and content is only removed. */
  ghost predicate Emptying(s: State, s': State) {
    && s'.keys == s.keys && s'.nextId == s.nextId && s'.secret == s.secret
    && (s.bucket.Some? <==> s'.bucket.Some?)
    && (s.bucket.Some? ==> s'.bucket.value.markerBody == s.bucket.value.markerBody
                           && s'.bucket.value.contents <= s.bucket.value.contents)
  }

  lemma TurnProgresses(s: State, token: int, env: Env, o: Oracle)
    ensures var t := NextPage(s, token, env, o);
            && Emptying(s, t.state)
            && (t.ok && t.more ==> LeftToList(t.state, t.last) < LeftToList(s, token))
  {
    var t := NextPage(s, token, env, o);
    if t.ok && t.more && !(s.blanks > 0 && env.blankAt(s.calls)) {
      PageFacts(s.bucket.value.contents, token, env.pageSize(s.calls));
      PageProgress(s.bucket.value.contents, token, env.pageSize(s.calls), t.state.bucket.value.contents);
    }
  }

  lemma DeleteObjectsRemoves(b: Bucket, page: seq<nat>, f: Fault)
    requires DeleteObjectsOk(page, f)
    ensures DeleteObjectsCall(b, page, f).contents == b.contents - Elements(page)
  {
    assert f.Partial? ==> forall x <- Elements(page) :: x in f.kept ==> x in f.kept * Elements(page);
  }

  /** A page deleted without errors leaves exactly what lies beyond it. */
  lemma PageRemoved(b: Bucket, token: int, size: nat, f: Fault)
    requires Beyond(b.contents, token) == b.contents
    requires var page := FetchPage(b.contents, token, size); page.items != [] && DeleteObjectsOk(page.items, f)
    ensures var page := FetchPage(b.contents, token, size);
            var left := DeleteObjectsCall(b, page.items, f).contents;
            Beyond(left, page.items[|page.items| - 1]) == left && (!page.truncated ==> left == {})
  {
    LeftBeyondPage(b.contents, token, size);
    DeleteObjectsRemoves(b, FetchPage(b.contents, token, size).items, f);
  }

  /** One turn, when everything up to the token is gone. */
  lemma OneTurn(s: State, token: int, env: Env, o: Oracle)
    requires s.bucket.Some? && Beyond(s.bucket.value.contents, token) == s.bucket.value.contents
    ensures var t := NextPage(s, token, env, o);
            && (t.ok ==> t.state.bucket.Some?
                         && Beyond(t.state.bucket.value.contents, t.last) == t.state.bucket.value.contents
                         && (!t.more ==> t.state.bucket.value.contents == {}))
            && (FaultFree(o) ==> t.ok)
  {
    var contents, size := s.bucket.value.contents, env.pageSize(s.calls);
    var page := FetchPage(contents, token, size);
    if page.items == [] {
      PageFacts(contents, token, size);
    } else if DeleteObjectsOk(page.items, o(s.calls + 1)) {
      PageRemoved(s.bucket.value, token, size, o(s.calls + 1));
    }
  }

  /** Success of the emptying loop means nothing listable is left; without faults it succeeds. */
  lemma {:induction false} PagesComplete(s: State, token: int, env: Env, o: Oracle)
    requires s.bucket.Some? && Beyond(s.bucket.value.contents, token) == s.bucket.value.contents
    ensures var d := PagesDeleted(s, token, env, o);
            && Emptying(s, d.state) && d.outcome != NotOwned
            && (d.outcome == Success ==> d.state.bucket.value.contents == {})
            && (FaultFree(o) ==> d.outcome == Success)
    decreases LeftToList(s, token)
  {
    TurnProgresses(s, token, env, o);
    OneTurn(s, token, env, o);
    var t := NextPage(s, token, env, o);
    if t.ok && t.more {
      PagesComplete(t.state, t.last, env, o);
    }
  }

  /** verifyOwnershipAndEmptyBucket, before its deferred step. */
  function EmptiedWith(s: State, pair: Pair, env: Env, o: Oracle): Done
    requires s.bucket.Some?
  {
    var marker := MarkerOf(s.bucket.value, env);
    var s1 := s.Called(2);
    if !Accepts(s, env, pair) || o(s.calls) != NoFault then Done(s1, NotOwned)
    else if marker.Some? && o(s.calls + 1) != NoFault then Done(s1, Failed)
    else if !Akamai.DeleteAllowed(marker, env.me, env.createdByUs) then Done(s1, NotOwned)
    else PagesDeleted(s1, -1, env, o)
  }

  /** The ownership check of the delete path. */
  predicate MayDelete(s: State, env: Env)
    requires s.bucket.Some?
  {
    Akamai.DeleteAllowed(MarkerOf(s.bucket.value, env), env.me, env.createdByUs)
  }

  function EmptiedAfter(key: Keyed, env: Env, o: Oracle): Done {
    if key.pair.None? || key.state.bucket.None? then Done(key.state, Failed)
    else Discarding(EmptiedWith(key.state, key.pair.value, env, o), env, o)
  }

  function VerifiedAndEmptied(s: State, env: Env, o: Oracle): Done {
    var s1 := s.Called(1);
    if o(s.calls) != NoFault then Done(s1, Failed)
    else if s.bucket.None? then Done(s1, Success)
    else EmptiedAfter(KeyEnsured(s1, env, o), env, o)
  }

  datatype Report = Report(state: State, keyOk: bool, outcome: Outcome)

  /** The rest of DeleteBucket, once the bucket is empty. A failing key deletion is reported apart. */
  function Removed(emptied: Done, env: Env, o: Oracle): Report {
    if emptied.outcome != Success then Report(emptied.state, true, emptied.outcome)
    else
      var key := KeyDeleted(emptied.state, env, o);
      var f := o(key.state.calls);
      var gone := key.state.bucket.None? || (f.Effective() && key.state.bucket.value.contents == {});
      Report((if gone then key.state.(bucket := None) else key.state).Called(1),
             key.ok, if f == NoFault && gone then Success else Failed)
  }

  /** One attempt at deleting bucket and key. */
  function BucketDeleted(s: State, env: Env, o: Oracle): Report {
    if env.bucketName == "" then Report(s, true, Success) else Removed(VerifiedAndEmptied(s, env, o), env, o)
  }

  // ---------- at most one key carries the label ----------

  function LabelCount(keys: seq<Key>, keyLabel: string): nat {
    if keys == [] then 0 else (if keys[0].keyLabel == keyLabel then 1 else 0) + LabelCount(keys[1..], keyLabel)
  }

  predicate DistinctIds(keys: seq<Key>) {
    keys == [] || ((forall k <- keys[1..] :: k.id != keys[0].id) && DistinctIds(keys[1..]))
  }

  predicate KeysOk(s: State, env: Env) {
    && DistinctIds(s.keys)
    && (forall k <- s.keys :: 0 < k.id < s.nextId)
    && 0 < s.nextId
    && LabelCount(s.keys, env.keyLabel) <= 1
  }

  lemma {:induction false} FindKeyFacts(keys: seq<Key>, keyLabel: string)
    ensures FindKey(keys, keyLabel).None? <==> LabelCount(keys, keyLabel) == 0
    ensures FindKey(keys, keyLabel).Some? ==>
              FindKey(keys, keyLabel).value in keys && FindKey(keys, keyLabel).value.keyLabel == keyLabel
  {
    if keys != [] {
      FindKeyFacts(keys[1..], keyLabel);
    }
  }

  lemma {:induction false} WithoutKeyFacts(keys: seq<Key>, id: nat, keyLabel: string)
    requires DistinctIds(keys)
    ensures forall k :: k in WithoutKey(keys, id) <==> k in keys && k.id != id
    ensures DistinctIds(WithoutKey(keys, id))
    ensures LabelCount(WithoutKey(keys, id), keyLabel) <= LabelCount(keys, keyLabel)
    ensures (exists k <- keys :: k.id == id && k.keyLabel == keyLabel) ==>
              LabelCount(WithoutKey(keys, id), keyLabel) < LabelCount(keys, keyLabel)
  {
    if keys != [] {
      WithoutKeyFacts(keys[1..], id, keyLabel);
      var rest := WithoutKey(keys[1..], id);
      if keys[0].id != id {
        assert WithoutKey(keys, id) == [keys[0]] + rest;
        assert ([keys[0]] + rest)[1..] == rest;
      } else {
        assert WithoutKey(keys, id) == rest;
        assert forall k <- keys[1..] :: k.id != id;
      }
    }
  }

  lemma {:induction false} AppendKeyFacts(keys: seq<Key>, key: Key, keyLabel: string)
    requires DistinctIds(keys) && forall k <- keys :: k.id != key.id
    ensures DistinctIds(keys + [key])
    ensures LabelCount(keys + [key], keyLabel)
        == LabelCount(keys, keyLabel) + (if key.keyLabel == keyLabel then 1 else 0)
  {
    if keys != [] {
      AppendKeyFacts(keys[1..], key, keyLabel);
      assert (keys + [key])[1..] == keys[1..] + [key];
    }
  }

  /** Two keys of an account with one ID are one key. */
  lemma {:induction false} SameIdSameKey(keys: seq<Key>, a: Key, b: Key)
    requires DistinctIds(keys) && a in keys && b in keys && a.id == b.id
    ensures a == b
  {
    if a != keys[0] && b != keys[0] {
      SameIdSameKey(keys[1..], a, b);
    }
  }

  lemma DeleteKeyKeeps(s: State, env: Env, f: Fault)
    requires KeysOk(s, env) && FindKey(s.keys, env.keyLabel).Some?
    ensures var s' := DeleteKeyCall(s, FindKey(s.keys, env.keyLabel).value.id, f);
            && KeysOk(s', env) && s'.bucket == s.bucket && s'.secret == s.secret
            && (f == NoFault ==> LabelCount(s'.keys, env.keyLabel) == 0)
  {
    FindKeyFacts(s.keys, env.keyLabel);
    WithoutKeyFacts(s.keys, FindKey(s.keys, env.keyLabel).value.id, env.keyLabel);
  }

  lemma FreshKeyKeeps(s: State, env: Env, o: Oracle)
    requires KeysOk(s, env) && LabelCount(s.keys, env.keyLabel) == 0
    ensures var k := FreshKey(s, env, o);
            && KeysOk(k.state, env) && k.state.bucket == s.bucket && k.state.secret == s.secret
            && (k.pair.Some? ==> Accepts(k.state, env, k.pair.value) && k.pair.value == Pair(s.nextId, s.nextId)
                                 && FindKey(k.state.keys, env.keyLabel)
                                     == Some(Key(s.nextId, env.keyLabel, ScopeOf(env))))
  {
    var key := Key(s.nextId, env.keyLabel, ScopeOf(env));
    AppendKeyFacts(s.keys, key, env.keyLabel);
    FindAppended(s.keys, key, env.keyLabel);
    var k := FreshKey(s, env, o);
    if k.pair.Some? {
      assert key in k.state.keys;
    }
  }

  lemma {:induction false} FindAppended(keys: seq<Key>, key: Key, keyLabel: string)
    requires LabelCount(keys, keyLabel) == 0 && key.keyLabel == keyLabel
    ensures FindKey(keys + [key], keyLabel) == Some(key)
  {
    if keys != [] {
      FindAppended(keys[1..], key, keyLabel);
      assert (keys + [key])[1..] == keys[1..] + [key];
    }
  }

  /** The recorded secret belongs to no key of the label that opens this bucket. */
  predicate Stale(s: State, env: Env) {
    var key := FindKey(s.keys, env.keyLabel);
    key.Some? && s.secret.Some? && !(s.secret.value == key.value.id && key.value.scope == ScopeOf(env))
  }

  /**
   Ensuring a key leaves at most one with the label whatever fails, and touches nothing else.
   Without faults it yields a pair, which the store accepts iff the recorded secret is not stale.
   */
  lemma KeyEnsuredFacts(s: State, env: Env, o: Oracle)
    requires KeysOk(s, env)
    ensures var k := KeyEnsured(s, env, o);
            && KeysOk(k.state, env) && k.state.bucket == s.bucket && k.state.secret == s.secret
            && (k.pair.Some? ==>
                && FindKey(k.state.keys, env.keyLabel).Some?
                && FindKey(k.state.keys, env.keyLabel).value.id == k.pair.value.accessKey
                && (Accepts(k.state, env, k.pair.value) ==>
                    FindKey(k.state.keys, env.keyLabel).value.scope == ScopeOf(env)))
            && (FaultFree(o) ==> k.pair.Some?)
            && (FaultFree(o) ==> (Accepts(k.state, env, k.pair.value) <==> !Stale(s, env)))
  {
    FindKeyFacts(s.keys, env.keyLabel);
    var s1 := s.Called(1);
    if o(s.calls) == NoFault {
      match FindKey(s.keys, env.keyLabel)
      case None => FreshKeyKeeps(s1, env, o);
      case Some(key) =>
        var s2 := s1.Called(1);
        if o(s1.calls) == NoFault && s.secret.Some? {
          forall k <- s.keys | k.id == key.id ensures k == key {
            SameIdSameKey(s.keys, k, key);
          }
        } else {
          DeleteKeyKeeps(s2, env, o(s2.calls));
          if o(s2.calls) == NoFault {
            FreshKeyKeeps(DeleteKeyCall(s2, key.id, NoFault), env, o);
          }
        }
    }
  }

  /**
   Two Applications whose labels collide take each other's keys: with nothing in its own output Secret, the second one
   deletes the key that carries the label, and the pair the first one holds is no longer accepted anywhere.
   */
  lemma CollidingLabelTakesKey(s: State, first: Env, second: Env, o: Oracle)
    requires KeysOk(s, first) && first.keyLabel == second.keyLabel && FaultFree(o)
    requires FindKey(s.keys, first.keyLabel).Some? && s.secret.None?
    ensures var held, after := FindKey(s.keys, first.keyLabel).value, KeyEnsured(s, second, o).state;
            && (forall k <- after.keys :: k.id != held.id)
            && !Accepts(after, first, Pair(held.id, held.id))
  {
    var held := FindKey(s.keys, first.keyLabel).value;
    FindKeyFacts(s.keys, first.keyLabel);
    WithoutKeyFacts(s.keys, held.id, first.keyLabel);
  }

  lemma KeyDeletedFacts(s: State, env: Env, o: Oracle)
    requires KeysOk(s, env)
    ensures var k := KeyDeleted(s, env, o);
            && KeysOk(k.state, env) && k.state.bucket == s.bucket && k.state.secret == s.secret
            && (k.ok ==> FindKey(k.state.keys, env.keyLabel).None?)
            && (FaultFree(o) ==> k.ok)
  {
    FindKeyFacts(s.keys, env.keyLabel);
    if o(s.calls) == NoFault && FindKey(s.keys, env.keyLabel).Some? {
      DeleteKeyKeeps(s.Called(1), env, o(s.calls + 1));
      FindKeyFacts(KeyDeleted(s, env, o).state.keys, env.keyLabel);
    }
  }

  lemma Beginning(s: State)
    requires s.bucket.Some?
    ensures Beyond(s.bucket.value.contents, -1) == s.bucket.value.contents
  {
  }

  lemma ClaimedWithKeepsKeys(key: Keyed, createdByUs: bool, env: Env, o: Oracle)
    requires KeysOk(key.state, env)
    ensures KeysOk(ClaimedWith(key, createdByUs, env, o).state, env)
  {
    if key.pair.Some? && key.state.bucket.Some? {
      KeyDeletedFacts(MarkerClaimed(key.state, key.pair.value, createdByUs, env, o).state, env, o);
    }
  }

  /** What cleanup does before its final steps: keys stay in order, and content is only removed. */
  lemma EmptiedAfterFacts(key: Keyed, env: Env, o: Oracle)
    requires KeysOk(key.state, env)
    ensures var d := EmptiedAfter(key, env, o);
            && KeysOk(d.state, env)
            && (key.state.bucket.Some? && !MayDelete(key.state, env) ==>
                d.state.bucket == key.state.bucket && d.outcome != Success)
            && (d.outcome == Success ==> d.state.bucket.Some? && d.state.bucket.value.contents == {})
            && (FaultFree(o) && key.pair.Some? && key.state.bucket.Some? ==>
                && (d.outcome == Success <==> MayDelete(key.state, env) && Accepts(key.state, env, key.pair.value))
                && (d.outcome != Success ==>
                    d.state.bucket == key.state.bucket && FindKey(d.state.keys, env.keyLabel).None?))
  {
    if key.pair.Some? && key.state.bucket.Some? {
      Beginning(key.state);
      PagesComplete(key.state.Called(2), -1, env, o);
      KeyDeletedFacts(EmptiedWith(key.state, key.pair.value, env, o).state, env, o);
    }
  }

  lemma RemovedFacts(emptied: Done, env: Env, o: Oracle)
    requires KeysOk(emptied.state, env)
    ensures var r := Removed(emptied, env, o);
            && KeysOk(r.state, env)
            && (emptied.outcome != Success ==> r == Report(emptied.state, true, emptied.outcome))
            && (r.outcome == Success ==> r.state.bucket.None?)
            && (FaultFree(o) && emptied.outcome == Success
                && (emptied.state.bucket.Some? ==> emptied.state.bucket.value.contents == {}) ==>
                r.outcome == Success && FindKey(r.state.keys, env.keyLabel).None?)
  {
    KeyDeletedFacts(emptied.state, env, o);
  }

  lemma CleanupKeepsKeys(s: State, env: Env, o: Oracle)
    requires KeysOk(s, env)
    ensures KeysOk(VerifiedAndEmptied(s, env, o).state, env)
    ensures KeysOk(BucketDeleted(s, env, o).state, env)
  {
    KeyEnsuredFacts(s.Called(1), env, o);
    EmptiedAfterFacts(KeyEnsured(s.Called(1), env, o), env, o);
    RemovedFacts(VerifiedAndEmptied(s, env, o), env, o);
  }

  lemma ReconcileKeepsKeys(s: State, env: Env, o: Oracle)
    requires KeysOk(s, env)
    ensures KeysOk(BucketReconciled(s, env, o).state, env)
  {
    var found := BucketEnsured(s, env, o);
    KeyEnsuredFacts(found.state, env, o);
    ClaimedWithKeepsKeys(KeyEnsured(found.state, env, o), env.createdByUs || found.created, env, o);
  }

  lemma PassKeepsKeys(s: State, env: Env, o: Oracle)
    requires KeysOk(s, env)
    ensures KeysOk(Pass(s, env, o).state, env)
  {
    ReconcileKeepsKeys(s, env, o);
  }

  /** One step of a history of this Application: a pass or a cleanup attempt, for whatever bucket, failing anywhere. */
  datatype Work = Provision(env: Env, oracle: Oracle) | Tear(env: Env, oracle: Oracle)

  function Worked(s: State, history: seq<Work>): State
    decreases |history|
  {
    if history == [] then s
    else
      var s' := match history[0]
                case Provision(env, o) => Pass(s, env, o).state
                case Tear(env, o) => BucketDeleted(s, env, o).state;
      Worked(s', history[1..])
  }

  /**
   In every reachable state at most one key carries the label: no pass and no cleanup, failing anywhere, adds a
   second.
   */
  lemma {:induction false} OneKeyPerLabel(s: State, env: Env, history: seq<Work>)
    requires KeysOk(s, env) && forall w <- history :: w.env.keyLabel == env.keyLabel
    ensures KeysOk(Worked(s, history), env)
    decreases |history|
  {
    if history != [] {
      assert history[0] in history;
      match history[0] {
        case Provision(e, o) => PassKeepsKeys(s, e, o); OneKeyPerLabel(Pass(s, e, o).state, env, history[1..]);
        case Tear(e, o) => CleanupKeepsKeys(s, e, o); OneKeyPerLabel(BucketDeleted(s, e, o).state, env, history[1..]);
      }
    }
  }

  // ---------- credentials stabilise ----------

  /** Every successful pass hands out a pair the object store accepts. */
  lemma PassReturnsAcceptedPair(s: State, env: Env, o: Oracle)
    requires KeysOk(s, env) && Pass(s, env, o).outcome == Success
    ensures var p := Pass(s, env, o); p.pair.Some? && Accepts(p.state, env, p.pair.value)
  {
  }

  /** The bucket exists and its marker names this Application. */
  predicate Ours(s: State, env: Env) {
    s.bucket.Some? && MarkerOf(s.bucket.value, env).Some?
    && Akamai.ParseOwnerMarker(MarkerOf(s.bucket.value, env).value).owner.uid == env.me.uid
  }

  predicate Named(env: Env) { env.bucketName != "" && env.region != "" && env.me.uid != "" }

  /** Everything is recorded as this Application would record it now. */
  predicate Settled(s: State, env: Env) {
    && s.bucket.Some? && MarkerOf(s.bucket.value, env).Some?
    && Akamai.ParseOwnerMarker(MarkerOf(s.bucket.value, env).value) == Akamai.Parsed(env.me.Record(), false)
    && FindKey(s.keys, env.keyLabel).Some? && FindKey(s.keys, env.keyLabel).value.scope == ScopeOf(env)
    && s.secret == Some(FindKey(s.keys, env.keyLabel).value.id)
  }

  /** Without faults the claim on an owned bucket works iff the store accepts the pair; otherwise the key is dropped. */
  lemma CleanClaim(key: Keyed, createdByUs: bool, env: Env, o: Oracle)
    requires FaultFree(o) && KeysOk(key.state, env) && Ours(key.state, env) && env.me.uid != "" && key.pair.Some?
    ensures var p := ClaimedWith(key, createdByUs, env, o);
            && p.state.secret == key.state.secret
            && (Accepts(key.state, env, key.pair.value) ==>
                && p.outcome == Success && p.pair == key.pair && p.state.keys == key.state.keys
                && Ours(p.state, env)
                && Akamai.ParseOwnerMarker(MarkerOf(p.state.bucket.value, env).value)
                    == Akamai.Parsed(env.me.Record(), false))
            && (!Accepts(key.state, env, key.pair.value) ==>
                && p.outcome == NotOwned && p.pair.None?
                && Ours(p.state, env) && FindKey(p.state.keys, env.keyLabel).None?)
  {
    Akamai.MarkerRoundTrip(env.me.Record());
    KeyDeletedFacts(MarkerClaimed(key.state, key.pair.value, createdByUs, env, o).state, env, o);
  }

  /**
   A fault-free pass over an owned bucket succeeds and settles iff the recorded secret is not stale;
   if it is stale, the key is dropped, so that it no longer is.
   */
  lemma CleanPass(s: State, env: Env, o: Oracle)
    requires FaultFree(o) && KeysOk(s, env) && Ours(s, env) && Named(env)
    ensures var p := Pass(s, env, o);
            && KeysOk(p.state, env)
            && (p.outcome == Success <==> !Stale(s, env))
            && (!Stale(s, env) ==> Settled(p.state, env) && p.pair.Some? && Accepts(p.state, env, p.pair.value))
            && (Stale(s, env) ==> Ours(p.state, env) && !Stale(p.state, env))
  {
    PassKeepsKeys(s, env, o);
    var s1 := s.Called(1);
    KeyEnsuredFacts(s1, env, o);
    CleanClaim(KeyEnsured(s1, env, o), env.createdByUs, env, o);
    assert BucketReconciled(s, env, o) == ClaimedWith(KeyEnsured(s1, env, o), env.createdByUs, env, o);
  }

  /** A settled state is a fixpoint: the same pair again, no key, object or Secret changed. */
  lemma SettledIsQuiet(s: State, env: Env, o: Oracle)
    requires FaultFree(o) && Settled(s, env) && Named(env)
    ensures var p := Pass(s, env, o);
            && p.outcome == Success && p.pair == Some(Pair(s.secret.value, s.secret.value))
            && p.state.bucket == s.bucket && p.state.keys == s.keys && p.state.secret == s.secret
  {
    FindKeyFacts(s.keys, env.keyLabel);
    assert s.bucket.value.contents + {env.markerAt} == s.bucket.value.contents;
  }

  /**
   Credentials stabilise: from any state with a marker naming this Application, even with a stale
   output Secret, two fault-free passes hand out an accepted pair, and from then on every further
   one hands out that same pair and changes nothing.
   */
  lemma SelfStabilises(s: State, env: Env, o1: Oracle, o2: Oracle, o3: Oracle)
    requires FaultFree(o1) && FaultFree(o2) && FaultFree(o3)
    requires KeysOk(s, env) && Ours(s, env) && Named(env)
    ensures var p2 := Pass(Pass(s, env, o1).state, env, o2);
            var p3 := Pass(p2.state, env, o3);
            && p2.outcome == Success && p2.pair.Some? && Accepts(p2.state, env, p2.pair.value)
            && p3.outcome == Success && p3.pair == p2.pair
            && p3.state.bucket == p2.state.bucket && p3.state.keys == p2.state.keys
                && p3.state.secret == p2.state.secret
  {
    CleanPass(s, env, o1);
    var s1 := Pass(s, env, o1).state;
    if !Stale(s, env) {
      SettledIsQuiet(s1, env, o2);
      FindKeyFacts(s1.keys, env.keyLabel);
    } else {
      CleanPass(s1, env, o2);
    }
    var p2 := Pass(s1, env, o2);
    SettledIsQuiet(p2.state, env, o3);
    PairIsRecorded(s1, env, o2);
  }

  lemma PairIsRecorded(s: State, env: Env, o: Oracle)
    requires Pass(s, env, o).outcome == Success
    ensures var p := Pass(s, env, o);
            p.pair.Some? && p.state.secret == Some(p.pair.value.secretKey)
                && p.pair.value.accessKey == p.pair.value.secretKey
  {
  }

  /**
   The first pass: with no bucket there, a fault-free one creates it, marks it as ours and settles, unless the
   secret is stale.
   */
  lemma FirstPassProvisions(s: State, env: Env, o: Oracle)
    requires FaultFree(o) && KeysOk(s, env) && Named(env) && s.bucket.None? && !Stale(s, env)
    ensures var p := Pass(s, env, o);
            p.outcome == Success && Settled(p.state, env) && p.pair.Some? && Accepts(p.state, env, p.pair.value)
  {
    var found := BucketEnsured(s, env, o);
    KeyEnsuredFacts(found.state, env, o);
    Akamai.MarkerRoundTrip(env.me.Record());
    var key := KeyEnsured(found.state, env, o);
    assert key.state.bucket == Some(Bucket({}, Akamai.MarkerBody("", None)));
  }

  /**
   Success means settled: looking up, creating and recording the bucket have worked, so have the status and the Secret,
   and the marker names us in full beside a key that the Secret fits.
   */
  lemma SuccessMeansSettled(s: State, env: Env, o: Oracle)
    requires KeysOk(s, env) && env.me.uid != "" && Pass(s, env, o).outcome == Success
    ensures var p, after := Pass(s, env, o), BucketReconciled(s, env, o).state.calls;
            && Settled(p.state, env) && o(s.calls) == NoFault
            && (s.bucket.None? ==> o(s.calls + 1) == o(s.calls + 2) == NoFault)
            && o(after) == o(after + 1) == NoFault
  {
    PairIsRecorded(s, env, o);
    PairMeansSuccess(s, env, o);
    RecordedMeansWritten(BucketReconciled(s, env, o), o);
    ReconciledMeansMarked(s, env, o);
  }

  lemma PairMeansSuccess(s: State, env: Env, o: Oracle)
    ensures BucketReconciled(s, env, o).pair.Some? ==> BucketReconciled(s, env, o).outcome == Success
  {
  }

  lemma RecordedMeansWritten(p: Provisioned, o: Oracle)
    requires Recorded(p, o).outcome == Success
    ensures Recorded(p, o).pair == p.pair
    ensures p.pair.Some? ==> o(p.state.calls) == o(p.state.calls + 1) == NoFault
    ensures Recorded(p, o).state.bucket == p.state.bucket && Recorded(p, o).state.keys == p.state.keys
  {
  }

  lemma ReconciledMeansMarked(s: State, env: Env, o: Oracle)
    requires KeysOk(s, env) && env.me.uid != "" && BucketReconciled(s, env, o).outcome == Success
    ensures var p := BucketReconciled(s, env, o);
            && o(s.calls) == NoFault && (s.bucket.None? ==> o(s.calls + 1) == o(s.calls + 2) == NoFault)
            && p.state.bucket.Some? && MarkerOf(p.state.bucket.value, env).Some?
            && Akamai.ParseOwnerMarker(MarkerOf(p.state.bucket.value, env).value)
                == Akamai.Parsed(env.me.Record(), false)
            && p.pair.Some? && p.pair.value.accessKey == p.pair.value.secretKey
            && FindKey(p.state.keys, env.keyLabel).Some?
            && FindKey(p.state.keys, env.keyLabel).value.scope == ScopeOf(env)
            && FindKey(p.state.keys, env.keyLabel).value.id == p.pair.value.accessKey
  {
    var found := BucketEnsured(s, env, o);
    FoundMeansCalled(s, env, o);
    ClaimedMeansMarked(KeyEnsured(found.state, env, o), env.createdByUs || found.created, env, o);
    PairMeansKey(found.state, env, o);
  }

  lemma FoundMeansCalled(s: State, env: Env, o: Oracle)
    requires BucketEnsured(s, env, o).ok
    ensures o(s.calls) == NoFault && (s.bucket.None? ==> o(s.calls + 1) == o(s.calls + 2) == NoFault)
    ensures BucketEnsured(s, env, o).state.keys == s.keys
  {
  }

  lemma PairMeansKey(s: State, env: Env, o: Oracle)
    requires KeysOk(s, env)
    ensures var k := KeyEnsured(s, env, o);
            k.pair.Some? && Accepts(k.state, env, k.pair.value) ==>
              && k.pair.value.accessKey == k.pair.value.secretKey
              && FindKey(k.state.keys, env.keyLabel).Some?
              && FindKey(k.state.keys, env.keyLabel).value.scope == ScopeOf(env)
              && FindKey(k.state.keys, env.keyLabel).value.id == k.pair.value.accessKey
  {
    KeyEnsuredFacts(s, env, o);
  }

  lemma ClaimedMeansMarked(key: Keyed, createdByUs: bool, env: Env, o: Oracle)
    requires env.me.uid != "" && ClaimedWith(key, createdByUs, env, o).outcome == Success
    ensures var p := ClaimedWith(key, createdByUs, env, o);
            && p.pair == key.pair && key.pair.Some? && Accepts(key.state, env, key.pair.value)
            && p.state.keys == key.state.keys && p.state.bucket.Some? && MarkerOf(p.state.bucket.value, env).Some?
            && Akamai.ParseOwnerMarker(MarkerOf(p.state.bucket.value, env).value)
                == Akamai.Parsed(env.me.Record(), false)
  {
    Akamai.MarkerRoundTrip(env.me.Record());
  }

  /** With no readable secret for it, a key that is found is replaced by one whose pair is accepted. */
  lemma UnreadableSecretReplacesKey(s: State, env: Env, o: Oracle)
    requires KeysOk(s, env) && FindKey(s.keys, env.keyLabel).Some?
    requires o(s.calls) == o(s.calls + 2) == o(s.calls + 3) == NoFault && (o(s.calls + 1) != NoFault || s.secret.None?)
    ensures var k := KeyEnsured(s, env, o);
            && k.pair.Some? && Accepts(k.state, env, k.pair.value)
            && forall k' <- k.state.keys :: k'.id != FindKey(s.keys, env.keyLabel).value.id
  {
    var key := FindKey(s.keys, env.keyLabel).value;
    FindKeyFacts(s.keys, env.keyLabel);
    WithoutKeyFacts(s.keys, key.id, env.keyLabel);
    var k := KeyEnsured(s, env, o);
    var made := Key(s.nextId, env.keyLabel, ScopeOf(env));
    assert k.state.keys == WithoutKey(s.keys, key.id) + [made];
    assert made in k.state.keys;
  }

  /** Only an ownership failure discards the key; any other failure keeps it for the next try. */
  lemma KeyIsDroppedIffNotOwned(key: Keyed, createdByUs: bool, env: Env, o: Oracle)
    requires KeysOk(key.state, env)
    ensures var p := ClaimedWith(key, createdByUs, env, o);
            && (p.outcome != NotOwned ==> p.state.keys == key.state.keys)
            && (p.outcome == NotOwned && FaultFree(o) ==> FindKey(p.state.keys, env.keyLabel).None?)
    ensures var d := EmptiedAfter(key, env, o);
            && (d.outcome != NotOwned ==> d.state.keys == key.state.keys)
            && (d.outcome == NotOwned && FaultFree(o) ==> FindKey(d.state.keys, env.keyLabel).None?)
  {
    KeyIsDroppedByCleanupIff(key, env, o);
    if key.pair.Some? && key.state.bucket.Some? {
      KeyDeletedFacts(MarkerClaimed(key.state, key.pair.value, createdByUs, env, o).state, env, o);
    }
  }

  lemma KeyIsDroppedByCleanupIff(key: Keyed, env: Env, o: Oracle)
    requires KeysOk(key.state, env)
    ensures var d := EmptiedAfter(key, env, o);
            && (d.outcome != NotOwned ==> d.state.keys == key.state.keys)
            && (d.outcome == NotOwned && FaultFree(o) ==> FindKey(d.state.keys, env.keyLabel).None?)
  {
    if key.pair.Some? && key.state.bucket.Some? {
      Beginning(key.state);
      PagesComplete(key.state.Called(2), -1, env, o);
      KeyDeletedFacts(EmptiedWith(key.state, key.pair.value, env, o).state, env, o);
    }
  }

  /** A key that cannot be deleted does not hold up the bucket: its failure is reported apart. */
  lemma KeyFailureDoesNotStop(s: State, env: Env, o: Oracle)
    requires env.bucketName != "" && VerifiedAndEmptied(s, env, o).outcome == Success
    requires KeysOk(s, env) && o(KeyDeleted(VerifiedAndEmptied(s, env, o).state, env, o).state.calls) == NoFault
    ensures var r := BucketDeleted(s, env, o);
            && r.outcome == Success && r.state.bucket.None?
            && r.keyOk == KeyDeleted(VerifiedAndEmptied(s, env, o).state, env, o).ok
  {
    var key := KeyEnsured(s.Called(1), env, o);
    KeyEnsuredFacts(s.Called(1), env, o);
    EmptiedAfterFacts(key, env, o);
    assert KeyDeleted(VerifiedAndEmptied(s, env, o).state, env, o).state.bucket
        == VerifiedAndEmptied(s, env, o).state.bucket;
  }

  // ---------- the exact retry condition of the cleanup ----------

  /** Whatever the calls do, a bucket this Application may not delete keeps every object, and the attempt fails. */
  lemma RefusedTouchesNothing(s: State, env: Env, o: Oracle)
    requires KeysOk(s, env) && env.bucketName != "" && s.bucket.Some? && !MayDelete(s, env)
    ensures var r := BucketDeleted(s, env, o); r.state.bucket == s.bucket && r.outcome != Success
  {
    KeyEnsuredFacts(s.Called(1), env, o);
    EmptiedAfterFacts(KeyEnsured(s.Called(1), env, o), env, o);
    RefusedEarly(s, env, o);
  }

  lemma RefusedEarly(s: State, env: Env, o: Oracle)
    requires KeysOk(s, env) && s.bucket.Some? && !MayDelete(s, env)
    ensures var d := VerifiedAndEmptied(s, env, o); d.state.bucket == s.bucket && d.outcome != Success
  {
    KeyEnsuredFacts(s.Called(1), env, o);
    EmptiedAfterFacts(KeyEnsured(s.Called(1), env, o), env, o);
  }

  lemma CleanVerify(s: State, env: Env, o: Oracle)
    requires FaultFree(o) && KeysOk(s, env)
    ensures var d := VerifiedAndEmptied(s, env, o);
            && (d.outcome == Success <==> s.bucket.None? || (MayDelete(s, env) && !Stale(s, env)))
            && (d.outcome == Success && d.state.bucket.Some? ==> d.state.bucket.value.contents == {})
            && (d.outcome != Success ==> d.state.bucket == s.bucket && !Stale(d.state, env))
  {
    KeyEnsuredFacts(s.Called(1), env, o);
    EmptiedAfterFacts(KeyEnsured(s.Called(1), env, o), env, o);
  }

  /**
   A fault-free attempt succeeds iff there is no bucket to delete, or the ownership check passes and
   the recorded secret is not stale; when it fails for either reason it deletes no object.
   */
  lemma CleanDeleteIff(s: State, env: Env, o: Oracle)
    requires FaultFree(o) && KeysOk(s, env)
    ensures var r := BucketDeleted(s, env, o);
            && (r.outcome == Success <==>
                env.bucketName == "" || s.bucket.None? || (MayDelete(s, env) && !Stale(s, env)))
            && (r.outcome == Success ==>
                env.bucketName == "" || (r.state.bucket.None? && FindKey(r.state.keys, env.keyLabel).None?))
            && (r.outcome != Success ==> r.state.bucket == s.bucket && !Stale(r.state, env))
  {
    CleanupKeepsKeys(s, env, o);
    CleanVerify(s, env, o);
    RemovedFacts(VerifiedAndEmptied(s, env, o), env, o);
  }

  /** Hence two fault-free attempts always decide: they delete the bucket iff the ownership check passes. */
  lemma TwoCleanDeletes(s: State, env: Env, o1: Oracle, o2: Oracle)
    requires FaultFree(o1) && FaultFree(o2) && KeysOk(s, env) && env.bucketName != "" && s.bucket.Some?
    ensures var r := BucketDeleted(BucketDeleted(s, env, o1).state, env, o2);
            && (r.outcome == Success <==> MayDelete(s, env))
            && (r.state.bucket == if MayDelete(s, env) then None else s.bucket)
  {
    CleanupKeepsKeys(s, env, o1);
    CleanDeleteIff(s, env, o1);
    CleanDeleteIff(BucketDeleted(s, env, o1).state, env, o2);
  }

  function Deletes(s: State, env: Env, oracles: seq<Oracle>): State
    decreases |oracles|
  {
    if oracles == [] then s else Deletes(BucketDeleted(s, env, oracles[0]).state, env, oracles[1..])
  }

  /** A bucket whose marker is gone, with no creation window and no adoption request, is stuck for good. */
  lemma {:induction false} LostMarkerIsStuck(s: State, env: Env, oracles: seq<Oracle>, o: Oracle)
    requires KeysOk(s, env) && env.bucketName != "" && s.bucket.Some?
    requires MarkerOf(s.bucket.value, env).None? && !env.createdByUs && !env.me.adopt
    ensures var s' := Deletes(s, env, oracles);
            s'.bucket == s.bucket && BucketDeleted(s', env, o).outcome != Success
    decreases |oracles|
  {
    if oracles == [] {
      RefusedTouchesNothing(s, env, o);
    } else {
      RefusedTouchesNothing(s, env, oracles[0]);
      CleanupKeepsKeys(s, env, oracles[0]);
      LostMarkerIsStuck(BucketDeleted(s, env, oracles[0]).state, env, oracles[1..], o);
    }
  }

  /** If the bucket is still there, its marker is as it was, or gone. */
  ghost predicate KeepsMarker(s: State, s': State, env: Env) {
    s'.bucket.Some? ==> s.bucket.Some? && MarkerOf(s'.bucket.value, env) in {None, MarkerOf(s.bucket.value, env)}
  }

  lemma EmptyingKeepsMarker(key: Keyed, env: Env, o: Oracle)
    ensures KeepsMarker(key.state, EmptiedAfter(key, env, o).state, env)
  {
    if key.pair.Some? && key.state.bucket.Some? {
      Beginning(key.state);
      PagesComplete(key.state.Called(2), -1, env, o);
      var d := EmptiedWith(key.state, key.pair.value, env, o);
      assert KeepsMarker(key.state, d.state, env);
      assert Discarding(d, env, o).state.bucket == d.state.bucket;
    }
  }

  lemma EnsuringKeepsBucket(s: State, env: Env, o: Oracle)
    ensures KeyEnsured(s, env, o).state.bucket == s.bucket
  {
  }

  lemma RemovingKeepsMarker(emptied: Done, env: Env, o: Oracle)
    ensures KeepsMarker(emptied.state, Removed(emptied, env, o).state, env)
  {
    assert KeyDeleted(emptied.state, env, o).state.bucket == emptied.state.bucket;
  }

  /** Whatever fails, an attempt leaves the bucket's marker as it was, or takes it along. */
  lemma AttemptKeepsMarker(s: State, env: Env, o: Oracle)
    ensures KeepsMarker(s, BucketDeleted(s, env, o).state, env)
  {
    var key := KeyEnsured(s.Called(1), env, o);
    EnsuringKeepsBucket(s.Called(1), env, o);
    EmptyingKeepsMarker(key, env, o);
    assert KeepsMarker(s, VerifiedAndEmptied(s, env, o).state, env);
    RemovingKeepsMarker(VerifiedAndEmptied(s, env, o), env, o);
  }

  /** Ours or unmarked: what the window or an adoption request lets through. */
  predicate OursOrUnmarked(s: State, env: Env) {
    s.bucket.Some? ==> MarkerOf(s.bucket.value, env).None? || Ours(s, env)
  }

  lemma {:induction false} AttemptsKeepOurs(s: State, env: Env, oracles: seq<Oracle>)
    requires KeysOk(s, env) && OursOrUnmarked(s, env)
    ensures KeysOk(Deletes(s, env, oracles), env) && OursOrUnmarked(Deletes(s, env, oracles), env)
    decreases |oracles|
  {
    if oracles != [] {
      CleanupKeepsKeys(s, env, oracles[0]);
      AttemptKeepsMarker(s, env, oracles[0]);
      AttemptsKeepOurs(BucketDeleted(s, env, oracles[0]).state, env, oracles[1..]);
    }
  }

  /**
   The other half: while the creation window or an adoption request holds, an owned bucket is deleted by two clean
   attempts, after any series of failing ones, marker lost or not.
   */
  lemma WindowOrAdoptionRecovers(s: State, env: Env, failing: seq<Oracle>, o1: Oracle, o2: Oracle)
    requires KeysOk(s, env) && env.bucketName != "" && OursOrUnmarked(s, env)
    requires (env.createdByUs || env.me.adopt) && FaultFree(o1) && FaultFree(o2)
    ensures var r := BucketDeleted(BucketDeleted(Deletes(s, env, failing), env, o1).state, env, o2);
            r.outcome == Success && r.state.bucket.None?
  {
    AttemptsKeepOurs(s, env, failing);
    var s1 := Deletes(s, env, failing);
    if s1.bucket.Some? {
      TwoCleanDeletes(s1, env, o1, o2);
    } else {
      CleanupKeepsKeys(s1, env, o1);
      CleanDeleteIff(s1, env, o1);
      CleanDeleteIff(BucketDeleted(s1, env, o1).state, env, o2);
    }
  }

  /** A fresh key, then the marker goes with the first page and the next listing fails. */
  function LosingOracle(other: nat): Oracle {
    // Calls 0 to 5: look the bucket up, list keys, create a key, read the marker (2), list objects.
    (n: nat) => if n <= 5 then NoFault else if n == 6 then Partial({other}) else Lost
  }

  function OwnedBucket(env: Env): State {
    State(Some(Bucket({env.markerAt, env.markerAt + 1}, Akamai.Encode(env.me.Record()))), [], 1, None, 0, 0)
  }

  lemma FirstKey(env: Env)
    ensures var s := OwnedBucket(env);
            KeyEnsured(s.Called(1), env, LosingOracle(env.markerAt + 1))
            == Keyed(State(s.bucket, [Key(1, env.keyLabel, ScopeOf(env))], 2, None, 3, 0), Some(Pair(1, 1)))
  {
  }

  lemma MarkerLost(env: Env)
    requires env.me.uid != ""
    ensures var d := VerifiedAndEmptied(OwnedBucket(env), env, LosingOracle(env.markerAt + 1));
            && KeysOk(d.state, env) && d.outcome == Failed
            && d.state.bucket.Some? && d.state.bucket.value.contents == {env.markerAt + 1}
  {
    var s, o := OwnedBucket(env), LosingOracle(env.markerAt + 1);
    CleanupKeepsKeys(s, env, o);
    FirstKey(env);
    var key := KeyEnsured(s.Called(1), env, o);
    EmptiedToOther(key.state, env);
    assert EmptiedAfter(key, env, o) == EmptiedWith(key.state, Pair(1, 1), env, o);
  }

  lemma EmptiedToOther(s: State, env: Env)
    requires env.me.uid != "" && s.bucket == OwnedBucket(env).bucket && s.calls == 3 && s.blanks == 0
    requires Accepts(s, env, Pair(1, 1))
    ensures var d := EmptiedWith(s, Pair(1, 1), env, LosingOracle(env.markerAt + 1));
            d.outcome == Failed && d.state.bucket.Some? && d.state.bucket.value.contents == {env.markerAt + 1}
  {
    var o := LosingOracle(env.markerAt + 1);
    Akamai.MarkerRoundTrip(env.me.Record());
    FirstPageLosesMarker(s.Called(2), env, o, env.markerAt + 1);
  }

  /**
   And an attempt on an owned bucket can lead there: the marker goes with the first page, the next
   listing fails, and if the creation window is over and adoption is not requested, no number of
   further attempts succeeds.
   */
  lemma OwnedBucketCanGetStuck(env: Env, further: seq<Oracle>, last: Oracle) returns (s: State, o: Oracle)
    requires env.bucketName != "" && !env.createdByUs && !env.me.adopt && env.me.uid != ""
    ensures KeysOk(s, env) && Ours(s, env) && MayDelete(s, env)
    ensures var s' := Deletes(BucketDeleted(s, env, o).state, env, further);
            s'.bucket.Some? && s'.bucket.value.contents != {} && BucketDeleted(s', env, last).outcome != Success
  {
    s, o := OwnedBucket(env), LosingOracle(env.markerAt + 1);
    Akamai.MarkerRoundTrip(env.me.Record());
    MarkerLost(env);
    var d := VerifiedAndEmptied(s, env, o);
    assert BucketDeleted(s, env, o) == Report(d.state, true, Failed);
    LostMarkerIsStuck(d.state, env, further, last);
  }

  /** The first page holds the marker; the other object is kept back or on a later page. */
  lemma FirstTurn(s: State, env: Env, o: Oracle, other: nat)
    requires s.bucket.Some? && s.bucket.value.contents == {env.markerAt, other} && other == env.markerAt + 1
    requires s.blanks == 0
    requires o(s.calls) == NoFault && o(s.calls + 1) == Partial({other})
    ensures var t := NextPage(s, -1, env, o);
            && t.state.bucket.Some? && t.state.bucket.value.contents == {other}
            && t.state.calls == s.calls + 2 && t.state.blanks == 0 && (t.ok ==> t.more)
  {
    var contents := s.bucket.value.contents;
    var page := FetchPage(contents, -1, env.pageSize(s.calls));
    PageFacts(contents, -1, env.pageSize(s.calls));
    Beginning(s);
    assert env.markerAt in Beyond(contents, -1);
    assert page.items != [];
    assert env.markerAt in Elements(page.items) by {
      var last := page.items[|page.items| - 1];
      assert last in Elements(page.items);
    }
    assert contents - (Elements(page.items) - {other}) == {other};
    if !page.truncated {
      assert other in {other} * Elements(page.items);
    }
  }

  lemma FirstPageLosesMarker(s: State, env: Env, o: Oracle, other: nat)
    requires s.bucket.Some? && s.bucket.value.contents == {env.markerAt, other} && other == env.markerAt + 1
    requires s.blanks == 0
    requires o(s.calls) == NoFault && o(s.calls + 1) == Partial({other}) && o(s.calls + 2) == Lost
    ensures var d := PagesDeleted(s, -1, env, o);
            d.outcome == Failed && d.state.bucket.Some? && d.state.bucket.value.contents == {other}
  {
    FirstTurn(s, env, o, other);
    var t := NextPage(s, -1, env, o);
    if t.ok {
      assert NextPage(t.state, t.last, env, o) == Turn(t.state.Called(1), false, false, t.last);
    }
  }

  // ---------- the imperative form ----------

  /** The provider numbers keys from 1, so that the operator can use 0 for "no key". */
  predicate RealIds(s: State) { 0 < s.nextId && forall k <- s.keys :: 0 < k.id }

  class Manager {
    const env: Env
    const oracle: Oracle
    var state: State

    constructor (env: Env, state: State, oracle: Oracle)
      ensures this.env == env && this.oracle == oracle && this.state == state
    {
      this.env, this.oracle, this.state := env, oracle, state;
    }

    /** findAccessKeyIDByLabel, on a successful listing; 0 is "no such key". */
    method FindAccessKeyIDByLabel(keys: seq<Key>) returns (id: nat)
      requires forall k <- keys :: k.id > 0
      ensures id == if FindKey(keys, env.keyLabel).Some? then FindKey(keys, env.keyLabel).value.id else 0
      ensures id == 0 <==> FindKey(keys, env.keyLabel).None?
    {
      FindKeyFacts(keys, env.keyLabel);
      for i := 0 to |keys|
        invariant FindKey(keys, env.keyLabel) == FindKey(keys[i..], env.keyLabel)
      {
        assert keys[i..][1..] == keys[i + 1..];
        if keys[i].keyLabel == env.keyLabel {
          return keys[i].id;
        }
      }
      return 0;
    }

    method DeleteApplicationAccessKey() returns (ok: bool)
      requires RealIds(state)
      modifies this`state
      ensures KeyDone(state, ok) == KeyDeleted(old(state), env, oracle)
    {
      var fault := oracle(state.calls);
      state := state.Called(1);
      if fault != NoFault {
        return false;
      }
      var id := FindAccessKeyIDByLabel(state.keys);
      if id == 0 {
        return true;
      }
      fault := oracle(state.calls);
      state := DeleteKeyCall(state, id, fault);
      return fault == NoFault;
    }

    /** Any failure to read the output Secret counts as "nothing recorded". */
    method RecoverSecretKey() returns (secret: Option<nat>)
      modifies this`state
      ensures state == old(state).Called(1)
      ensures secret == if oracle(old(state).calls) == NoFault then state.secret else None
    {
      var fault := oracle(state.calls);
      state := state.Called(1);
      return if fault == NoFault then state.secret else None;
    }

    method EnsureAccessKey() returns (pair: Option<Pair>)
      modifies this`state
      ensures Keyed(state, pair) == KeyEnsured(old(state), env, oracle)
    {
      var fault := oracle(state.calls);
      state := state.Called(1);
      if fault != NoFault {
        return None;
      }
      var keys := state.keys;
      var i := 0;
      while i < |keys|
        invariant 0 <= i <= |keys|
        invariant state == old(state).Called(1)
        invariant FindKey(keys, env.keyLabel) == FindKey(keys[i..], env.keyLabel)
      {
        assert keys[i..][1..] == keys[i + 1..];
        if keys[i].keyLabel != env.keyLabel {
          i := i + 1;
          continue;
        }
        var secret := RecoverSecretKey();
        if secret.Some? {
          return Some(Pair(keys[i].id, secret.value));
        }
        fault := oracle(state.calls);
        state := DeleteKeyCall(state, keys[i].id, fault);
        if fault != NoFault {
          return None;
        }
        break;
      }
      fault := oracle(state.calls);
      pair := if fault == NoFault then Some(Pair(state.nextId, state.nextId)) else None;
      state := CreateKeyCall(state, env, fault);
    }

    method EnsureBucketExists() returns (ok: bool, created: bool)
      modifies this`state
      ensures Found(state, ok, created) == BucketEnsured(old(state), env, oracle)
    {
      var fault := oracle(state.calls);
      state := state.Called(1);
      if fault != NoFault {
        return false, false;
      }
      if state.bucket.Some? {
        return true, false;
      }
      fault := oracle(state.calls);
      if fault.Effective() {
        state := state.(bucket := Some(Bucket({}, Akamai.MarkerBody("", None))));
      }
      state := state.Called(1);
      if fault != NoFault {
        return false, false;
      }
      fault := oracle(state.calls);
      state := state.Called(1);
      return fault == NoFault, true;
    }

    /** Reads the marker with the given pair and claims; a pair the store rejects fails the read. */
    method ClaimOrVerifyOwnership(pair: Pair, createdByUs: bool) returns (outcome: Outcome)
      requires state.bucket.Some?
      modifies this`state
      ensures Done(state, outcome) == MarkerClaimed(old(state), pair, createdByUs, env, oracle)
    {
      var accepted, base, faults := Accepts(state, env, pair), state.calls, oracle;
      var owner := new Akamai.Manager(env.me, createdByUs, env.view, MarkerOf(state.bucket.value, env),
                                      (k: nat) => if k == 0 && !accepted then Lost else faults(base + k));
      outcome := owner.ClaimOrVerifyOwnership();
      state := state.(bucket := Some(WithMarker(state.bucket.value, owner.marker, env))).Called(3);
    }

    method ReconcileBucket() returns (outcome: Outcome, pair: Option<Pair>)
      requires RealIds(state)
      modifies this`state
      ensures Provisioned(state, outcome, pair) == BucketReconciled(old(state), env, oracle)
    {
      if env.bucketName == "" || env.region == "" {
        return Failed, None;
      }
      var ok, created := EnsureBucketExists();
      if !ok {
        return Failed, None;
      }
      EnsuringKeepsRealIds(state, env, oracle);
      pair := EnsureAccessKey();
      if pair.None? || state.bucket.None? {
        return Failed, None;
      }
      outcome := ClaimOrVerifyOwnership(pair.value, env.createdByUs || created);
      if outcome == NotOwned {
        var _ := DeleteApplicationAccessKey();
      }
      if outcome != Success {
        pair := None;
      }
    }

    method EmptyBucket() returns (outcome: Outcome)
      modifies this`state
      ensures Done(state, outcome) == PagesDeleted(old(state), -1, env, oracle)
    {
      var token: int := -1;
      var more := true;
      while more
        invariant more ==> PagesDeleted(old(state), -1, env, oracle) == PagesDeleted(state, token, env, oracle)
        invariant !more ==> PagesDeleted(old(state), -1, env, oracle) == Done(state, Success)
        decreases more, LeftToList(state, token)
      {
        TurnProgresses(state, token, env, oracle);
        var ok;
        ok, more, token := DeleteNextPage(token);
        if !ok {
          return Failed;
        }
      }
      return Success;
    }

    method DeleteNextPage(token: int) returns (ok: bool, more: bool, last: int)
      modifies this`state
      ensures Turn(state, ok, more, last) == NextPage(old(state), token, env, oracle)
    {
      var call := state.calls;
      state := state.Called(1);
      if oracle(call) != NoFault || state.bucket.None? {
        return false, false, token;
      }
      if state.blanks > 0 && env.blankAt(call) { // the provider's doing
        state := state.(blanks := state.blanks - 1);
        return true, true, token;
      }
      var page := FetchPage(state.bucket.value.contents, token, env.pageSize(call));
      if page.items == [] {
        return true, page.truncated, token;
      }
      var fault := oracle(state.calls);
      state := state.(bucket := Some(DeleteObjectsCall(state.bucket.value, page.items, fault))).Called(1);
      return DeleteObjectsOk(page.items, fault), page.truncated, page.items[|page.items| - 1];
    }

    /** The part of verifyOwnershipAndEmptyBucket that its deferred step watches. */
    method VerifyAndEmptyWith(pair: Pair) returns (outcome: Outcome)
      requires state.bucket.Some?
      modifies this`state
      ensures Done(state, outcome) == EmptiedWith(old(state), pair, env, oracle)
    {
      var accepted, marker := Accepts(state, env, pair), MarkerOf(state.bucket.value, env);
      var get, read := oracle(state.calls), oracle(state.calls + 1);
      state := state.Called(2);
      if !accepted || get != NoFault {
        return NotOwned;
      }
      if marker.None? {
        if !env.createdByUs && !env.me.adopt {
          return NotOwned;
        }
      } else {
        if read != NoFault {
          return Failed;
        }
        if Akamai.ParseOwnerMarker(marker.value).owner.uid != env.me.uid {
          return NotOwned;
        }
      }
      outcome := EmptyBucket();
    }

    method VerifyOwnershipAndEmptyBucket() returns (outcome: Outcome)
      requires RealIds(state)
      modifies this`state
      ensures Done(state, outcome) == VerifiedAndEmptied(old(state), env, oracle)
    {
      var fault := oracle(state.calls);
      state := state.Called(1);
      if fault != NoFault {
        return Failed;
      }
      if state.bucket.None? {
        return Success;
      }
      EnsuringKeepsRealIds(state, env, oracle);
      var pair := EnsureAccessKey();
      if pair.None? || state.bucket.None? {
        return Failed;
      }
      ghost var before := state;
      outcome := VerifyAndEmptyWith(pair.value);
      if outcome == NotOwned {
        NotOwnedKeepsState(before, pair.value, env, oracle);
        var _ := DeleteApplicationAccessKey();
      }
    }

    method DeleteBucket() returns (keyOk: bool, outcome: Outcome)
      requires RealIds(state)
      modifies this`state
      ensures Report(state, keyOk, outcome) == BucketDeleted(old(state), env, oracle)
    {
      if env.bucketName == "" {
        return true, Success;
      }
      CleanupKeepsRealIds(state, env, oracle);
      outcome := VerifyOwnershipAndEmptyBucket();
      if outcome != Success {
        return true, outcome;
      }
      keyOk := DeleteApplicationAccessKey();
      var fault := oracle(state.calls);
      var gone := state.bucket.None? || (fault.Effective() && state.bucket.value.contents == {});
      if gone {
        state := state.(bucket := None);
      }
      state := state.Called(1);
      outcome := if fault == NoFault && gone then Success else Failed;
    }
  }

  lemma {:induction false} WithoutKeyIsSubset(keys: seq<Key>, id: nat)
    ensures forall k <- WithoutKey(keys, id) :: k in keys
  {
    if keys != [] {
      WithoutKeyIsSubset(keys[1..], id);
    }
  }

  lemma DeletingKeepsRealIds(s: State, env: Env, o: Oracle)
    requires RealIds(s)
    ensures RealIds(KeyDeleted(s, env, o).state)
  {
    if FindKey(s.keys, env.keyLabel).Some? {
      WithoutKeyIsSubset(s.keys, FindKey(s.keys, env.keyLabel).value.id);
    }
  }

  lemma EnsuringKeepsRealIds(s: State, env: Env, o: Oracle)
    requires RealIds(s)
    ensures RealIds(KeyEnsured(s, env, o).state)
  {
    if FindKey(s.keys, env.keyLabel).Some? {
      WithoutKeyIsSubset(s.keys, FindKey(s.keys, env.keyLabel).value.id);
    }
  }

  lemma EmptyingKeepsRealIds(key: Keyed, env: Env, o: Oracle)
    requires RealIds(key.state)
    ensures RealIds(EmptiedAfter(key, env, o).state)
  {
    if key.pair.Some? && key.state.bucket.Some? {
      Beginning(key.state);
      PagesComplete(key.state.Called(2), -1, env, o);
      DeletingKeepsRealIds(EmptiedWith(key.state, key.pair.value, env, o).state, env, o);
    }
  }

  lemma CleanupKeepsRealIds(s: State, env: Env, o: Oracle)
    requires RealIds(s)
    ensures RealIds(VerifiedAndEmptied(s, env, o).state)
  {
    EnsuringKeepsRealIds(s.Called(1), env, o);
    EmptyingKeepsRealIds(KeyEnsured(s.Called(1), env, o), env, o);
  }

  lemma NotOwnedKeepsState(s: State, pair: Pair, env: Env, o: Oracle)
    requires s.bucket.Some? && EmptiedWith(s, pair, env, o).outcome == NotOwned
    ensures EmptiedWith(s, pair, env, o).state == s.Called(2)
  {
    Beginning(s);
    PagesComplete(s.Called(2), -1, env, o);
  }
}
