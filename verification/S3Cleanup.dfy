/**
 Cleanup of an S3 bucket and its IAM role (internal/controller/s3/cleanup.go), with any call
 failing before or after it took effect.
 */
module S3Cleanup {
  import opened Api
  import opened Ownership
  import opened Paging
  import S3 = S3Ownership

  const BATCH := 1000
  /** ListMultipartUploads returns at most this many uploads, and the code asks once. */
  const UPLOAD_LISTING := 1000

  /** Object versions and delete markers are both items of the version listing. */
  datatype Bucket = Bucket(tags: S3.TagSet, items: set<nat>, uploads: set<nat>)
  datatype Role = Role(policyAttached: bool)
  datatype Cloud = Cloud(bucket: Option<Bucket>, role: Option<Role>)

  /**
   The cloud, the number of calls made so far, the deletion batches sent so far, and how many more
   empty pages a listing may insert although it is not at its end.
   */
  datatype State = State(cloud: Cloud, calls: nat, sent: seq<seq<nat>>, blanks: nat)
  {
    function Called(cloud': Cloud): State { State(cloud', calls + 1, sent, blanks) }
  }

  /** What does not change during an attempt. */
  datatype Env = Env(me: Claimant, createdByUs: bool, pageSize: nat -> nat, blankAt: nat -> bool,
      isDeleteMarker: nat -> bool)

  datatype Done = Done(state: State, ok: bool)

  // ---------- the role ----------

  function DeleteRolePolicyCall(cloud: Cloud, f: Fault): Cloud {
    if f.Effective() && cloud.role.Some? then cloud.(role := Some(Role(false))) else cloud
  }

  /** A role with an inline policy cannot be deleted. */
  function DeleteRoleCall(cloud: Cloud, f: Fault): Cloud {
    if f.Effective() && cloud.role.Some? && !cloud.role.value.policyAttached then cloud.(role := None) else cloud
  }

  function IrsaCleaned(s: State, o: Oracle): Done {
    var s1 := s.Called(DeleteRolePolicyCall(s.cloud, o(s.calls)));
    if o(s.calls) != NoFault then Done(s1, false)
    else
      var s2 := s1.Called(DeleteRoleCall(s1.cloud, o(s1.calls)));
      Done(s2, o(s1.calls) == NoFault && s2.cloud.role.None?)
  }

  // ---------- versions and delete markers ----------

  /** The delete markers (or the versions) of a page, in order. */
  function OfKind(page: seq<nat>, isDeleteMarker: nat -> bool, markers: bool): seq<nat> {
    if page == [] then []
    else
      var last := page[|page| - 1];
      OfKind(page[..|page| - 1], isDeleteMarker, markers) + (if isDeleteMarker(last) == markers then [last] else [])
  }

  /** A page's versions first, then its delete markers. */
  function ToDelete(page: seq<nat>, env: Env): seq<nat> {
    OfKind(page, env.isDeleteMarker, false) + OfKind(page, env.isDeleteMarker, true)
  }

  function DeleteObjectsCall(b: Bucket, batch: seq<nat>, f: Fault): Bucket {
    match f
    case NoFault => b.(items := b.items - Elements(batch))
    case Late => b.(items := b.items - Elements(batch))
    case Lost => b
    case Conflicts => b
    case Partial(kept) => b.(items := b.items - (Elements(batch) - kept))
  }

  predicate DeleteObjectsOk(batch: seq<nat>, f: Fault) {
    f == NoFault || (f.Partial? && f.kept * Elements(batch) == {})
  }

  function BatchSent(s: State, batch: seq<nat>, f: Fault): State
    requires s.cloud.bucket.Some?
  {
    s.Called(s.cloud.(bucket := Some(DeleteObjectsCall(s.cloud.bucket.value, batch, f)))).(sent := s.sent + [batch])
  }

  function DeleteBatches(s: State, objects: seq<nat>, o: Oracle): Done
    decreases |objects|
  {
    if objects == [] then Done(s, true)
    else
      var n := if BATCH < |objects| then BATCH else |objects|;
      var batch := objects[..n];
      var f := o(s.calls);
      if s.cloud.bucket.None? then Done(s.Called(s.cloud).(sent := s.sent + [batch]), false)
      else
        var s' := BatchSent(s, batch, f);
        if DeleteObjectsOk(batch, f) then DeleteBatches(s', objects[n..], o) else Done(s', false)
  }

  /** One turn of the paging loop: how it went, whether there is another page, and the token for it. */
  datatype Turn = Turn(state: State, ok: bool, more: bool, last: int)

  function NextPage(s: State, token: int, env: Env, o: Oracle): Turn {
    var s1 := s.Called(s.cloud);
    if o(s.calls) != NoFault then Turn(s1, false, false, token)
    else if s.cloud.bucket.None? then Turn(s1, true, false, token)
    else if s.blanks > 0 && env.blankAt(s.calls) then Turn(s1.(blanks := s.blanks - 1), true, true, token)
    else
      var page := FetchPage(s.cloud.bucket.value.items, token, env.pageSize(s.calls));
      if page.items == [] then Turn(s1, true, page.truncated, token)
      else
        var d := DeleteBatches(s1, ToDelete(page.items, env), o);
        Turn(d.state, d.ok, page.truncated, page.items[|page.items| - 1])
  }

  function LeftToList(s: State, token: int): nat {
    s.blanks + if s.cloud.bucket.Some? then |Beyond(s.cloud.bucket.value.items, token)| else 0
  }

  /** The pages after `token`. */
  function PagesDeleted(s: State, token: int, env: Env, o: Oracle): Done
    decreases LeftToList(s, token)
  {
    var t := NextPage(s, token, env, o);
    TurnProgresses(s, token, env, o);
    if t.ok && t.more then PagesDeleted(t.state, t.last, env, o) else Done(t.state, t.ok)
  }

  lemma TurnProgresses(s: State, token: int, env: Env, o: Oracle)
    ensures var t := NextPage(s, token, env, o);
            t.ok && t.more ==> LeftToList(t.state, t.last) < LeftToList(s, token)
  {
    var t := NextPage(s, token, env, o);
    if t.ok && t.more && !(s.blanks > 0 && env.blankAt(s.calls)) {
      var items := s.cloud.bucket.value.items;
      PageFacts(items, token, env.pageSize(s.calls));
      var page := FetchPage(items, token, env.pageSize(s.calls));
      BatchesShrink(s.Called(s.cloud), ToDelete(page.items, env), o);
      PageProgress(items, token, env.pageSize(s.calls), t.state.cloud.bucket.value.items);
    }
  }

  // ---------- multipart uploads ----------

  function AbortCall(b: Bucket, upload: nat, f: Fault): Bucket {
    if f.Effective() then b.(uploads := b.uploads - {upload}) else b
  }

  /** Every listed upload is tried, whatever happens to the others. */
  function AbortEach(s: State, uploads: seq<nat>, failed: nat, o: Oracle): Done
    decreases |uploads|
  {
    if uploads == [] || s.cloud.bucket.None? then Done(s, failed == 0)
    else
      var f := o(s.calls);
      AbortEach(s.Called(s.cloud.(bucket := Some(AbortCall(s.cloud.bucket.value, uploads[0], f)))),
                uploads[1..], if f == NoFault then failed else failed + 1, o)
  }

  function FirstUploads(uploads: set<nat>): seq<nat> {
    var l := Listing(uploads);
    if UPLOAD_LISTING < |l| then l[..UPLOAD_LISTING] else l
  }

  function UploadsAborted(s: State, o: Oracle): Done {
    var s1 := s.Called(s.cloud);
    if o(s.calls) != NoFault then Done(s1, false)
    else if s.cloud.bucket.None? then Done(s1, true)
    else AbortEach(s1, FirstUploads(s.cloud.bucket.value.uploads), 0, o)
  }

  // ---------- the bucket ----------

  predicate Deletable(cloud: Cloud) {
    cloud.bucket.Some? && cloud.bucket.value.items == {} && cloud.bucket.value.uploads == {}
  }

  function BucketDeleted(s: State, o: Oracle): Done {
    var f := o(s.calls);
    var cloud' := if f.Effective() && Deletable(s.cloud) then s.cloud.(bucket := None) else s.cloud;
    Done(s.Called(cloud'), f == NoFault && cloud'.bucket.None?)
  }

  function VerifyOk(cloud: Cloud, env: Env, f: Fault): bool {
    var tags := if cloud.bucket.Some? then cloud.bucket.value.tags else None;
    f == NoFault && S3.DeleteAllowed(S3.DeleteSight(cloud.bucket.Some?, tags, env.me.uid), env.me, env.createdByUs)
  }

  datatype Report = Report(state: State, roleOk: bool, ok: bool)

  /** Everything after the verification: versions, uploads, bucket. */
  function Destroyed(s: State, env: Env, o: Oracle): Done {
    var versions := PagesDeleted(s, -1, env, o);
    if !versions.ok then versions
    else
      var uploads := UploadsAborted(versions.state, o);
      if !uploads.ok then uploads else BucketDeleted(uploads.state, o)
  }

  /** One attempt. A failing role cleanup is reported apart and does not stop the rest. */
  function Attempt(s: State, env: Env, o: Oracle): Report {
    var role := IrsaCleaned(s, o);
    var s1 := role.state.Called(role.state.cloud);
    if !VerifyOk(s1.cloud, env, o(role.state.calls)) then Report(s1, role.ok, false)
    else
      var d := Destroyed(s1, env, o);
      Report(d.state, role.ok, d.ok)
  }

  /** From call `n` on everything works. */
  ghost predicate FaultFreeFrom(o: Oracle, n: nat) { forall k: nat :: k >= n ==> o(k) == NoFault }

  // ---------- shrinking ----------

  /** Nothing but listable content is removed, short of the bucket itself; the role only loses its policy or itself. */
  ghost predicate Shrinks(c: Cloud, c': Cloud) {
    && (c.bucket.None? ==> c'.bucket.None?)
    && (c.bucket.Some? && c'.bucket.Some? ==>
        && c'.bucket.value.tags == c.bucket.value.tags
        && c'.bucket.value.items <= c.bucket.value.items
        && c'.bucket.value.uploads <= c.bucket.value.uploads)
    && (c.role.None? ==> c'.role.None?)
  }

  lemma {:induction false} BatchesShrink(s: State, objects: seq<nat>, o: Oracle)
    ensures var d := DeleteBatches(s, objects, o);
            && Shrinks(s.cloud, d.state.cloud)
            && d.state.cloud.role == s.cloud.role && d.state.blanks == s.blanks && d.state.calls >= s.calls
            && (s.cloud.bucket.Some? ==>
                && d.state.cloud.bucket.Some?
                && d.state.cloud.bucket.value.uploads == s.cloud.bucket.value.uploads
                && s.cloud.bucket.value.items - Elements(objects) <= d.state.cloud.bucket.value.items
                && (d.ok ==> d.state.cloud.bucket.value.items == s.cloud.bucket.value.items - Elements(objects)))
    decreases |objects|
  {
    if objects != [] && s.cloud.bucket.Some? {
      var n := if BATCH < |objects| then BATCH else |objects|;
      var batch := objects[..n];
      assert Elements(objects) == Elements(batch) + Elements(objects[n..]) by {
        assert objects == batch + objects[n..];
      }
      var f := o(s.calls);
      var s' := BatchSent(s, batch, f);
      if DeleteObjectsOk(batch, f) {
        assert f.Partial? ==> forall x <- Elements(batch) :: x in f.kept ==> x in f.kept * Elements(batch);
        assert s'.cloud.bucket.value.items == s.cloud.bucket.value.items - Elements(batch);
        BatchesShrink(s', objects[n..], o);
      }
    }
  }

  // ---------- the emptying loop is complete ----------

  /** The batches one page is sent in. */
  function Batches(objects: seq<nat>): seq<seq<nat>> {
    if objects == [] then []
    else if |objects| <= BATCH then [objects]
    else [objects[..BATCH]] + Batches(objects[BATCH..])
  }

  /** The batches partition the page in order: sizes 1 to 1000, all but the last one full. */
  lemma {:induction false} BatchesPartition(objects: seq<nat>)
    ensures Flatten(Batches(objects)) == objects
    ensures forall k | 0 <= k < |Batches(objects)| :: 1 <= |Batches(objects)[k]| <= 1000
    ensures forall k | 0 <= k < |Batches(objects)| - 1 :: |Batches(objects)[k]| == 1000
  {
    if |objects| > BATCH {
      BatchesPartition(objects[BATCH..]);
      var rest := Batches(objects[BATCH..]);
      assert Batches(objects)[1..] == rest;
      assert objects == objects[..BATCH] + objects[BATCH..];
      assert forall k | 1 <= k < |Batches(objects)| :: Batches(objects)[k] == rest[k - 1];
    } else if objects != [] {
      assert [objects][1..] == [];
    }
  }

  /**
   What is sent for a page, one call a batch, is a prefix of those batches: all of them if it succeeds.
   */
  lemma {:induction false} BatchesSent(s: State, objects: seq<nat>, o: Oracle) returns (n: nat)
    requires s.cloud.bucket.Some?
    ensures var d, batches := DeleteBatches(s, objects, o), Batches(objects);
            && n <= |batches|
            && d.state.sent == s.sent + batches[..n] && d.state.calls == s.calls + n
            && (if d.ok then n == |batches| else n > 0)
    decreases |objects|
  {
    if objects == [] {
      n := 0;
    } else {
      var m := if BATCH < |objects| then BATCH else |objects|;
      var batch := objects[..m];
      var f := o(s.calls);
      assert |objects| <= BATCH ==> objects[..m] == objects && objects[m..] == [];
      assert Batches(objects) == [batch] + Batches(objects[m..]);
      if !DeleteObjectsOk(batch, f) {
        n := 1;
      } else {
        var s' := BatchSent(s, batch, f);
        var n' := BatchesSent(s', objects[m..], o);
        n := n' + 1;
        assert Batches(objects)[..n] == [batch] + Batches(objects[m..])[..n'];
      }
    }
  }

  lemma FirstBatch(objects: seq<nat>, m: nat)
    requires objects != [] && m == if BATCH < |objects| then BATCH else |objects|
    ensures Batches(objects) == [objects[..m]] + Batches(objects[m..])
  {
    if |objects| <= BATCH {
      assert objects[..m] == objects && objects[m..] == [];
    }
  }

  /** Sending stops with the first call that reports an error, and only then. */
  lemma {:induction false} BatchesStop(s: State, objects: seq<nat>, o: Oracle)
    requires s.cloud.bucket.Some?
    ensures var d, batches := DeleteBatches(s, objects, o), Batches(objects);
            var n := d.state.calls - s.calls;
            && 0 <= n <= |batches| && (!d.ok ==> n > 0)
            && (forall k | 0 <= k < n :: DeleteObjectsOk(batches[k], o(s.calls + k)) <==> d.ok || k < n - 1)
    decreases |objects|
  {
    if objects != [] {
      var m := if BATCH < |objects| then BATCH else |objects|;
      var batch, rest, f := objects[..m], objects[m..], o(s.calls);
      FirstBatch(objects, m);
      var batches := Batches(objects);
      if DeleteObjectsOk(batch, f) {
        var s' := BatchSent(s, batch, f);
        BatchesStop(s', rest, o);
        var d := DeleteBatches(s', rest, o);
        assert DeleteBatches(s, objects, o) == d;
        var n := d.state.calls - s.calls;
        forall k | 0 <= k < n ensures DeleteObjectsOk(batches[k], o(s.calls + k)) <==> d.ok || k < n - 1 {
          if k > 0 {
            assert batches[k] == Batches(rest)[k - 1] && s.calls + k == s'.calls + (k - 1);
          }
        }
      }
    }
  }

  lemma OfKindAppends(init: seq<nat>, last: nat, isDeleteMarker: nat -> bool, markers: bool)
    ensures OfKind(init + [last], isDeleteMarker, markers) ==
            OfKind(init, isDeleteMarker, markers) + if isDeleteMarker(last) == markers then [last] else []
  {
    assert (init + [last])[..|init + [last]| - 1] == init;
  }

  lemma {:induction false} KindsSplit(page: seq<nat>, isDeleteMarker: nat -> bool)
    ensures multiset(OfKind(page, isDeleteMarker, false)) + multiset(OfKind(page, isDeleteMarker, true))
        == multiset(page)
  {
    if page != [] {
      var init, last := page[..|page| - 1], page[|page| - 1];
      assert page == init + [last];
      KindsSplit(init, isDeleteMarker);
      OfKindAppends(init, last, isDeleteMarker, false);
      OfKindAppends(init, last, isDeleteMarker, true);
    }
  }

  lemma AppendAscends(l: seq<nat>, last: nat)
    requires Ascending(l) && forall x <- l :: x < last
    ensures Ascending(l + [last])
  {
    forall i | 0 <= i < |l| ensures l[i] < last {
      assert l[i] in l;
    }
  }

  lemma LastIsLargest(page: seq<nat>)
    requires Ascending(page) && page != []
    ensures var init := page[..|page| - 1];
            Ascending(init) && forall x <- init :: x < page[|page| - 1] && x in page
  {
    var init := page[..|page| - 1];
    forall x | x in init ensures x in page && x < page[|page| - 1] {
      var i :| 0 <= i < |init| && init[i] == x;
      assert page[i] == x;
    }
  }

  lemma {:induction false} OfKindAscends(page: seq<nat>, isDeleteMarker: nat -> bool, markers: bool)
    requires Ascending(page)
    ensures Ascending(OfKind(page, isDeleteMarker, markers))
    ensures forall x <- OfKind(page, isDeleteMarker, markers) :: x in page && isDeleteMarker(x) == markers
  {
    if page != [] {
      var init, last := page[..|page| - 1], page[|page| - 1];
      LastIsLargest(page);
      OfKindAscends(init, isDeleteMarker, markers);
      AppendAscends(OfKind(init, isDeleteMarker, markers), last);
    }
  }

  /** The page's versions go first and its delete markers last, each in the order of the listing. */
  lemma ToDeleteInOrder(page: seq<nat>, env: Env)
    requires Ascending(page)
    ensures var l := ToDelete(page, env);
            forall i, j | 0 <= i < j < |l| ::
              if env.isDeleteMarker(l[i]) == env.isDeleteMarker(l[j]) then l[i] < l[j] else env.isDeleteMarker(l[j])
  {
    OfKindAscends(page, env.isDeleteMarker, false);
    OfKindAscends(page, env.isDeleteMarker, true);
    var versions, markers := OfKind(page, env.isDeleteMarker, false), OfKind(page, env.isDeleteMarker, true);
    assert forall i | 0 <= i < |versions| :: versions[i] in versions;
    assert forall i | 0 <= i < |markers| :: markers[i] in markers;
  }

  lemma ToDeletePermutesPage(page: seq<nat>, env: Env)
    ensures multiset(ToDelete(page, env)) == multiset(page)
    ensures Elements(ToDelete(page, env)) == Elements(page)
  {
    KindsSplit(page, env.isDeleteMarker);
    assert forall x :: x in ToDelete(page, env) <==> x in multiset(ToDelete(page, env));
    assert forall x :: x in page <==> x in multiset(page);
  }

  /** An ascending sequence holds each of its elements once. */
  lemma {:induction false} AscendingOnce(l: seq<nat>)
    requires Ascending(l)
    ensures multiset(l) == multiset(Elements(l))
  {
    if l != [] {
      var init, last := l[..|l| - 1], l[|l| - 1];
      assert l == init + [last];
      AscendingOnce(init);
      assert Elements(l) == Elements(init) + {last};
      assert last !in Elements(init);
    }
  }

  ghost function SentSince(s: State, s': State): multiset<nat>
    requires |s.sent| <= |s'.sent|
  {
    multiset(Flatten(s'.sent[|s.sent|..]))
  }

  /** Deleting one page removes exactly that page and sends each of its items once. */
  lemma PageDeleted(s: State, page: seq<nat>, env: Env, o: Oracle)
    requires s.cloud.bucket.Some? && Ascending(page)
    ensures var d := DeleteBatches(s, ToDelete(page, env), o);
            && |s.sent| <= |d.state.sent| && d.state.sent[..|s.sent|] == s.sent && s.calls <= d.state.calls
            && (d.ok ==> d.state.cloud == s.cloud.(bucket :=
                Some(s.cloud.bucket.value.(items := s.cloud.bucket.value.items - Elements(page)))))
            && (d.ok ==> SentSince(s, d.state) == multiset(Elements(page)))
  {
    var objects := ToDelete(page, env);
    var d := DeleteBatches(s, objects, o);
    ToDeletePermutesPage(page, env);
    BatchesShrink(s, objects, o);
    var n := BatchesSent(s, objects, o);
    if d.ok {
      assert d.state.sent[|s.sent|..] == Batches(objects);
      BatchesPartition(objects);
      AscendingOnce(page);
    }
  }

  lemma SentInTwoParts(s: State, s1: State, s2: State)
    requires |s.sent| <= |s1.sent| <= |s2.sent|
    requires s1.sent[..|s.sent|] == s.sent && s2.sent[..|s1.sent|] == s1.sent
    ensures s2.sent[..|s.sent|] == s.sent
    ensures SentSince(s, s2) == SentSince(s, s1) + SentSince(s1, s2)
  {
    assert s2.sent[|s.sent|..] == s1.sent[|s.sent|..] + s2.sent[|s1.sent|..];
    FlattenSplit(s1.sent[|s.sent|..], s2.sent[|s1.sent|..]);
  }

  /** From `s` to `s'`: content is only removed, and what was removed by successful pages was sent exactly once. */
  ghost predicate Removing(s: State, s': State) {
    && s.cloud.bucket.Some? && s'.cloud.bucket.Some?
    && s'.cloud.role == s.cloud.role
    && (var before, after := s.cloud.bucket.value, s'.cloud.bucket.value;
        after.tags == before.tags && after.uploads == before.uploads && after.items <= before.items)
    && |s.sent| <= |s'.sent| && s'.sent[..|s.sent|] == s.sent && s.calls <= s'.calls
  }

  ghost predicate SentExactly(s: State, s': State)
    requires Removing(s, s')
  {
    SentSince(s, s') + multiset(s'.cloud.bucket.value.items) == multiset(s.cloud.bucket.value.items)
  }

  /** One nonempty page, when everything up to the token is gone. */
  lemma OnePage(s: State, token: int, page: Page, env: Env, o: Oracle)
    requires s.cloud.bucket.Some? && Beyond(s.cloud.bucket.value.items, token) == s.cloud.bucket.value.items
    requires page == FetchPage(s.cloud.bucket.value.items, token, env.pageSize(s.calls)) && page.items != []
    ensures var d := DeleteBatches(s.Called(s.cloud), ToDelete(page.items, env), o);
            && Removing(s, d.state)
            && (d.ok ==>
                && SentExactly(s, d.state)
                && var left := d.state.cloud.bucket.value.items;
                && Beyond(left, page.items[|page.items| - 1]) == left
                && (!page.truncated ==> left == {}))
            && (FaultFreeFrom(o, s.calls) ==> d.ok)
  {
    var items, s1 := s.cloud.bucket.value.items, s.Called(s.cloud);
    PageFacts(items, token, env.pageSize(s.calls));
    LeftBeyondPage(items, token, env.pageSize(s.calls));
    PageDeleted(s1, page.items, env, o);
    BatchesShrink(s1, ToDelete(page.items, env), o);
    if FaultFreeFrom(o, s.calls) { NoFaultBatches(s1, ToDelete(page.items, env), o); }
  }

  lemma OneTurn(s: State, token: int, env: Env, o: Oracle)
    requires s.cloud.bucket.Some? && Beyond(s.cloud.bucket.value.items, token) == s.cloud.bucket.value.items
    ensures var t := NextPage(s, token, env, o);
            && Removing(s, t.state)
            && (t.ok ==>
                && SentExactly(s, t.state)
                && var left := t.state.cloud.bucket.value.items;
                && Beyond(left, t.last) == left
                && (!t.more ==> left == {}))
            && (FaultFreeFrom(o, s.calls) ==> t.ok)
  {
    var page := FetchPage(s.cloud.bucket.value.items, token, env.pageSize(s.calls));
    if page.items == [] {
      PageFacts(s.cloud.bucket.value.items, token, env.pageSize(s.calls));
      assert s.Called(s.cloud).sent[|s.sent|..] == [];
    } else {
      OnePage(s, token, page, env, o);
    }
  }

  lemma RemovingTwice(s: State, s1: State, s2: State)
    requires Removing(s, s1) && Removing(s1, s2)
    ensures Removing(s, s2)
    ensures SentExactly(s, s1) && SentExactly(s1, s2) ==> SentExactly(s, s2)
  {
    SentInTwoParts(s, s1, s2);
  }

  /**
   For every paging of a bucket nobody else writes to: if the loop succeeds nothing listable is
   left and every item was sent for deletion exactly once; if it fails, tags and uploads are as
   they were and only listed items are gone. Without faults it succeeds.
   */
  lemma {:induction false} PagesComplete(s: State, token: int, env: Env, o: Oracle)
    requires s.cloud.bucket.Some? && Beyond(s.cloud.bucket.value.items, token) == s.cloud.bucket.value.items
    ensures var d := PagesDeleted(s, token, env, o);
            && Removing(s, d.state)
            && (d.ok ==> SentExactly(s, d.state) && d.state.cloud.bucket.value.items == {})
            && (FaultFreeFrom(o, s.calls) ==> d.ok)
    decreases LeftToList(s, token)
  {
    OneTurn(s, token, env, o);
    TurnProgresses(s, token, env, o);
    var t := NextPage(s, token, env, o);
    if t.ok && t.more {
      PagesComplete(t.state, t.last, env, o);
      RemovingTwice(s, t.state, PagesDeleted(t.state, t.last, env, o).state);
    }
  }

  lemma {:induction false} NoFaultBatches(s: State, objects: seq<nat>, o: Oracle)
    requires s.cloud.bucket.Some? && FaultFreeFrom(o, s.calls)
    ensures DeleteBatches(s, objects, o).ok
    decreases |objects|
  {
    if objects != [] {
      var n := if BATCH < |objects| then BATCH else |objects|;
      var s' := BatchSent(s, objects[..n], NoFault);
      NoFaultBatches(s', objects[n..], o);
    }
  }

  // ---------- uploads ----------

  lemma {:induction false} AbortsShrink(s: State, uploads: seq<nat>, failed: nat, o: Oracle)
    requires s.cloud.bucket.Some?
    ensures var d := AbortEach(s, uploads, failed, o);
            && d.state.cloud.bucket.Some?
            && d.state.cloud.role == s.cloud.role
            && d.state.cloud.bucket.value.tags == s.cloud.bucket.value.tags
            && d.state.cloud.bucket.value.items == s.cloud.bucket.value.items && d.state.calls >= s.calls
            && (var before, after := s.cloud.bucket.value.uploads, d.state.cloud.bucket.value.uploads;
                && before - Elements(uploads) <= after <= before
                && (d.ok ==> failed == 0 && after == before - Elements(uploads)))
            && (FaultFreeFrom(o, s.calls) && failed == 0 ==> d.ok)
    decreases |uploads|
  {
    if uploads != [] {
      assert Elements(uploads) == {uploads[0]} + Elements(uploads[1..]) by {
        assert uploads == [uploads[0]] + uploads[1..];
      }
      var f := o(s.calls);
      AbortsShrink(s.Called(s.cloud.(bucket := Some(AbortCall(s.cloud.bucket.value, uploads[0], f)))),
                   uploads[1..], if f == NoFault then failed else failed + 1, o);
    }
  }

  /** Each listed upload is tried, whatever becomes of the others: those whose call takes effect go, and no other. */
  lemma {:induction false} AbortsTryEach(s: State, uploads: seq<nat>, failed: nat, o: Oracle)
    requires s.cloud.bucket.Some?
    ensures var d := AbortEach(s, uploads, failed, o);
            && d.state.calls == s.calls + |uploads| && d.state.cloud.bucket.Some?
            && (forall x :: x in d.state.cloud.bucket.value.uploads <==>
                  && x in s.cloud.bucket.value.uploads
                  && forall i | 0 <= i < |uploads| && uploads[i] == x :: !o(s.calls + i).Effective())
            && (d.ok <==> failed == 0 && forall k: nat | s.calls <= k < s.calls + |uploads| :: o(k) == NoFault)
    decreases |uploads|
  {
    if uploads != [] {
      var f, rest := o(s.calls), uploads[1..];
      var s' := s.Called(s.cloud.(bucket := Some(AbortCall(s.cloud.bucket.value, uploads[0], f))));
      AbortsTryEach(s', rest, if f == NoFault then failed else failed + 1, o);
      assert forall i | 0 <= i < |rest| :: rest[i] == uploads[i + 1];
      assert forall i | 1 <= i < |uploads| :: uploads[i] == rest[i - 1] && s.calls + i == s'.calls + (i - 1);
    }
  }

  lemma FirstUploadsFacts(uploads: set<nat>)
    ensures Elements(FirstUploads(uploads)) <= uploads
    ensures |uploads| <= UPLOAD_LISTING ==> uploads - Elements(FirstUploads(uploads)) == {}
    ensures |uploads| > UPLOAD_LISTING ==> |uploads - Elements(FirstUploads(uploads))| == |uploads| - UPLOAD_LISTING
  {
    var l := Listing(uploads);
    ListingAscends(uploads);
    ListsEachOnce(uploads);
    if UPLOAD_LISTING < |l| {
      var first := l[..UPLOAD_LISTING];
      assert Ascending(first);
      AscendingOnce(first);
      assert |multiset(first)| == UPLOAD_LISTING;
      assert |multiset(Elements(first))| == |Elements(first)|;
      assert uploads == Elements(first) + (uploads - Elements(first));
    }
  }

  // ---------- one attempt ----------

  /** How many calls the role's cleanup makes: it stops after a policy deletion that reports an error. */
  function RoleCalls(s: State, o: Oracle): nat { if o(s.calls) == NoFault then 2 else 1 }

  /** It succeeds iff its calls work, and then the role is gone; the bucket is not touched. */
  lemma RoleCleaned(s: State, o: Oracle)
    ensures var d := IrsaCleaned(s, o);
            && d.state.cloud.bucket == s.cloud.bucket && d.state.sent == s.sent && d.state.blanks == s.blanks
            && d.state.calls == s.calls + RoleCalls(s, o)
            && (s.cloud.role.None? ==> d.state.cloud.role.None?)
            && (d.ok <==> o(s.calls) == NoFault && o(s.calls + 1) == NoFault)
            && (d.ok ==> d.state.cloud.role.None?)
            && (o(s.calls) != NoFault ==> d.state.cloud.role.Some? == s.cloud.role.Some?)
  {
  }

  lemma AllBeyondStart(items: set<nat>)
    ensures Beyond(items, -1) == items
  {
  }

  lemma DestroyedShrinks(s: State, env: Env, o: Oracle)
    ensures Shrinks(s.cloud, Destroyed(s, env, o).state.cloud)
    ensures Destroyed(s, env, o).state.cloud.role == s.cloud.role
    ensures FaultFreeFrom(o, s.calls) ==>
              && Destroyed(s, env, o).state.cloud.bucket == BucketAfterCleanAttempt(s.cloud.bucket)
              && (Destroyed(s, env, o).ok <==> BucketAfterCleanAttempt(s.cloud.bucket).None?)
  {
    if s.cloud.bucket.Some? {
      AllBeyondStart(s.cloud.bucket.value.items);
      PagesComplete(s, -1, env, o);
      var versions := PagesDeleted(s, -1, env, o);
      var v := versions.state;
      var uploads := v.cloud.bucket.value.uploads;
      if versions.ok && o(v.calls) == NoFault {
        AbortsShrink(v.Called(v.cloud), FirstUploads(uploads), 0, o);
        FirstUploadsFacts(uploads);
      }
    }
  }

  /** Whatever fails, an attempt keeps the tags of a bucket that survives it and adds nothing. */
  lemma AttemptShrinks(s: State, env: Env, o: Oracle)
    ensures Shrinks(s.cloud, Attempt(s, env, o).state.cloud)
  {
    RoleCleaned(s, o);
    var role := IrsaCleaned(s, o);
    DestroyedShrinks(role.state.Called(role.state.cloud), env, o);
  }

  /** The delete path lets this Application through. */
  predicate MayDelete(cloud: Cloud, env: Env) { VerifyOk(cloud, env, NoFault) }

  /** What the bucket is after a fault-free attempt: gone, unless more uploads were open than one listing returns. */
  function BucketAfterCleanAttempt(bucket: Option<Bucket>): Option<Bucket> {
    if bucket.None? || |bucket.value.uploads| <= UPLOAD_LISTING then None
    else Some(Bucket(bucket.value.tags, {}, bucket.value.uploads - Elements(FirstUploads(bucket.value.uploads))))
  }

  /**
   What becomes of the bucket does not depend on the role: however the role's calls go, if everything after them works,
   the attempt succeeds and the bucket goes iff one listing covers its uploads. The role's failure is reported apart.
   */
  lemma BucketIgnoresRole(s: State, env: Env, o: Oracle)
    requires MayDelete(s.cloud, env) && FaultFreeFrom(o, s.calls + RoleCalls(s, o))
    ensures var r := Attempt(s, env, o);
            && (r.ok <==> UploadCount(s.cloud) <= UPLOAD_LISTING)
            && (r.ok <==> r.state.cloud.bucket.None?) && r.state.cloud.bucket == BucketAfterCleanAttempt(s.cloud.bucket)
            && (r.roleOk <==> o(s.calls) == NoFault && o(s.calls + 1) == NoFault)
            && (r.roleOk ==> r.state.cloud.role.None?)
  {
    RoleCleaned(s, o);
    var role := IrsaCleaned(s, o);
    DestroyedShrinks(role.state.Called(role.state.cloud), env, o);
  }

  /**
   A bucket that exists keeps everything, and the attempt fails, unless its tags could be read and name us, or name
   nobody while window or adoption holds.
   */
  lemma RefusedTouchesNothing(s: State, env: Env, o: Oracle)
    requires s.cloud.bucket.Some? && S3.WellFormed(s.cloud.bucket.value.tags)
    requires var tags := s.cloud.bucket.value.tags;
             || o(s.calls + RoleCalls(s, o)) != NoFault
             || (if S3.HasKey(tags, S3.OwnerUid) then !S3.Has(tags, S3.OwnerUid, env.me.uid)
                 else !(env.createdByUs || env.me.adopt))
    ensures var r := Attempt(s, env, o); !r.ok && r.state.cloud.bucket == s.cloud.bucket && r.state.sent == s.sent
  {
    RoleCleaned(s, o);
    S3.DeletionAllowedIff(s.cloud.bucket.value.tags, env.me, env.createdByUs);
  }

  /**
   A stage that fails stops the attempt: the bucket is removed only after its versions and then its uploads have
   gone.
   */
  lemma StagesStop(s: State, env: Env, o: Oracle)
    requires s.cloud.bucket.Some?
    ensures var versions, d := PagesDeleted(s, -1, env, o), Destroyed(s, env, o);
            var uploads := UploadsAborted(versions.state, o);
            && (!versions.ok ==> d == versions)
            && (versions.ok && !uploads.ok ==> d == uploads)
            && (!versions.ok || !uploads.ok ==> !d.ok && d.state.cloud.bucket.Some?)
  {
    AllBeyondStart(s.cloud.bucket.value.items);
    PagesComplete(s, -1, env, o);
    var v := PagesDeleted(s, -1, env, o).state;
    AbortsShrink(v.Called(v.cloud), FirstUploads(v.cloud.bucket.value.uploads), 0, o);
  }

  /** A fault-free attempt removes the role, and removes the bucket and succeeds iff one listing covers its uploads. */
  lemma CleanAttempt(s: State, env: Env, o: Oracle)
    requires FaultFree(o) && MayDelete(s.cloud, env)
    ensures var r := Attempt(s, env, o);
            && r.roleOk && r.state.cloud == Cloud(BucketAfterCleanAttempt(s.cloud.bucket), None)
            && (r.ok <==> r.state.cloud.bucket.None?)
  {
    BucketIgnoresRole(s, env, o);
  }

  // ---------- any series of attempts ----------

  function Attempts(s: State, env: Env, oracles: seq<Oracle>): State
    decreases |oracles|
  {
    if oracles == [] then s else Attempts(Attempt(s, env, oracles[0]).state, env, oracles[1..])
  }

  /** Gone, or tagged with this UID. */
  predicate GoneOrOurs(cloud: Cloud, env: Env) {
    cloud.bucket.None? || S3.DeleteSight(true, cloud.bucket.value.tags, env.me.uid) == S3.SawOwner
  }

  function UploadCount(cloud: Cloud): nat { if cloud.bucket.Some? then |cloud.bucket.value.uploads| else 0 }

  lemma SubsetNotLarger(a: set<nat>, b: set<nat>)
    requires a <= b
    ensures |a| <= |b|
  {
    assert b == a + (b - a);
  }

  lemma {:induction false} AttemptsKeepTag(s: State, env: Env, oracles: seq<Oracle>)
    requires GoneOrOurs(s.cloud, env)
    ensures GoneOrOurs(Attempts(s, env, oracles).cloud, env)
    ensures UploadCount(Attempts(s, env, oracles).cloud) <= UploadCount(s.cloud)
    decreases |oracles|
  {
    if oracles != [] {
      AttemptShrinks(s, env, oracles[0]);
      var s' := Attempt(s, env, oracles[0]).state;
      if s'.cloud.bucket.Some? {
        SubsetNotLarger(s'.cloud.bucket.value.uploads, s.cloud.bucket.value.uploads);
      }
      AttemptsKeepTag(s', env, oracles[1..]);
    }
  }

  lemma CleanAttemptProgress(s: State, env: Env, o: Oracle)
    requires GoneOrOurs(s.cloud, env) && FaultFree(o)
    ensures var s' := Attempt(s, env, o).state;
            && GoneOrOurs(s'.cloud, env) && UploadCount(s'.cloud) <= UploadCount(s.cloud)
            && (UploadCount(s.cloud) > UPLOAD_LISTING ==>
                UploadCount(s'.cloud) == UploadCount(s.cloud) - UPLOAD_LISTING)
            && (UploadCount(s.cloud) <= UPLOAD_LISTING ==>
                Attempt(s, env, o).ok && Attempt(s, env, o).roleOk && s'.cloud == Cloud(None, None))
  {
    CleanAttempt(s, env, o);
    if s.cloud.bucket.Some? { FirstUploadsFacts(s.cloud.bucket.value.uploads); }
  }

  /** Fault-free attempts, each aborting one listing of uploads, get there. */
  lemma {:induction false} CleanAttemptsFinish(s: State, env: Env, oracles: seq<Oracle>)
    requires GoneOrOurs(s.cloud, env) && oracles != []
    requires forall k | 0 <= k < |oracles| :: FaultFree(oracles[k])
    requires UploadCount(s.cloud) <= |oracles| * UPLOAD_LISTING
    ensures var last := Attempt(Attempts(s, env, oracles[..|oracles| - 1]), env, oracles[|oracles| - 1]);
            last.ok && last.roleOk && last.state.cloud == Cloud(None, None)
    decreases |oracles|
  {
    CleanAttemptProgress(s, env, oracles[0]);
    if |oracles| == 1 {
      assert oracles[..0] == [];
    } else {
      var s', init, rest := Attempt(s, env, oracles[0]).state, oracles[..|oracles| - 1], oracles[1..];
      assert init[1..] == rest[..|rest| - 1];
      assert Attempts(s, env, init) == Attempts(s', env, rest[..|rest| - 1]);
      assert forall k | 0 <= k < |rest| :: rest[k] == oracles[k + 1];
      CleanAttemptsFinish(s', env, rest);
    }
  }

  /**
   Cleanup is restartable: for a bucket tagged with this UID, after any series of attempts failing
   at arbitrary calls, as many fault-free attempts as listings of the uploads need (one, for up to
   a thousand) leave bucket and role gone, the last one reports success, and a further one changes
   nothing and reports success again.
   */
  lemma Restartable(s: State, env: Env, failing: seq<Oracle>, clean: seq<Oracle>, further: Oracle)
    requires GoneOrOurs(s.cloud, env) && clean != [] && FaultFree(further)
    requires forall k | 0 <= k < |clean| :: FaultFree(clean[k])
    requires UploadCount(s.cloud) <= |clean| * UPLOAD_LISTING
    ensures var s1 := Attempts(s, env, failing);
            var last := Attempt(Attempts(s1, env, clean[..|clean| - 1]), env, clean[|clean| - 1]);
            && last.ok && last.roleOk && last.state.cloud == Cloud(None, None)
            && Attempt(last.state, env, further).ok && Attempt(last.state, env, further).roleOk
            && Attempt(last.state, env, further).state.cloud == last.state.cloud
  {
    AttemptsKeepTag(s, env, failing);
    var s1 := Attempts(s, env, failing);
    CleanAttemptsFinish(s1, env, clean);
    var last := Attempt(Attempts(s1, env, clean[..|clean| - 1]), env, clean[|clean| - 1]);
    CleanAttempt(last.state, env, further);
  }

  /** One fault-free attempt is enough iff the uploads fit one listing. */
  lemma OneAttemptSuffices(s: State, env: Env, failing: seq<Oracle>, o: Oracle)
    requires GoneOrOurs(s.cloud, env) && FaultFree(o)
    ensures var s1 := Attempts(s, env, failing);
            Attempt(s1, env, o).ok <==> UploadCount(s1.cloud) <= UPLOAD_LISTING
  {
    AttemptsKeepTag(s, env, failing);
    CleanAttempt(Attempts(s, env, failing), env, o);
  }

  // ---------- the imperative form ----------

  class Manager {
    const env: Env
    const oracle: Oracle
    var state: State

    constructor (env: Env, cloud: Cloud, blanks: nat, oracle: Oracle)
      ensures this.env == env && this.oracle == oracle && state == State(cloud, 0, [], blanks)
    {
      this.env, this.oracle, state := env, oracle, State(cloud, 0, [], blanks);
    }

    method CleanupAppIRSA() returns (ok: bool)
      modifies this`state
      ensures Done(state, ok) == IrsaCleaned(old(state), oracle)
    {
      var fault := oracle(state.calls);
      state := state.Called(DeleteRolePolicyCall(state.cloud, fault));
      if fault != NoFault {
        return false;
      }
      fault := oracle(state.calls);
      state := state.Called(DeleteRoleCall(state.cloud, fault));
      return fault == NoFault && state.cloud.role.None?;
    }

    /** The inner loop: batches of a thousand. */
    method DeleteInBatches(objects: seq<nat>) returns (ok: bool)
      modifies this`state
      ensures Done(state, ok) == DeleteBatches(old(state), objects, oracle)
    {
      var i := 0;
      while i < |objects|
        invariant 0 <= i <= |objects|
        invariant DeleteBatches(old(state), objects, oracle) == DeleteBatches(state, objects[i..], oracle)
      {
        var end := if i + BATCH < |objects| then i + BATCH else |objects|;
        var batch := objects[i..end];
        assert batch == objects[i..][..end - i] && objects[end..] == objects[i..][end - i..];
        var fault := oracle(state.calls);
        if state.cloud.bucket.None? {
          state := state.Called(state.cloud).(sent := state.sent + [batch]);
          return false;
        }
        var bucket := DeleteObjectsCall(state.cloud.bucket.value, batch, fault);
        state := state.Called(state.cloud.(bucket := Some(bucket))).(sent := state.sent + [batch]);
        if !DeleteObjectsOk(batch, fault) {
          return false;
        }
        i := end;
      }
      return true;
    }

    /** A page's versions, then its delete markers, gathered by two loops. */
    method Gather(page: seq<nat>) returns (objects: seq<nat>)
      ensures objects == ToDelete(page, env)
    {
      objects := [];
      for i := 0 to |page|
        invariant objects == OfKind(page[..i], env.isDeleteMarker, false)
      {
        assert page[..i + 1][..i] == page[..i];
        if !env.isDeleteMarker(page[i]) {
          objects := objects + [page[i]];
        }
      }
      assert page[..|page|] == page;
      ghost var versions := objects;
      for i := 0 to |page|
        invariant objects == versions + OfKind(page[..i], env.isDeleteMarker, true)
      {
        assert page[..i + 1][..i] == page[..i];
        if env.isDeleteMarker(page[i]) {
          objects := objects + [page[i]];
        }
      }
    }

    method DeleteNextPage(token: int) returns (ok: bool, more: bool, last: int)
      modifies this`state
      ensures Turn(state, ok, more, last) == NextPage(old(state), token, env, oracle)
    {
      var call := state.calls;
      state := state.Called(state.cloud);
      if oracle(call) != NoFault {
        return false, false, token;
      }
      if state.cloud.bucket.None? {
        return true, false, token;
      }
      if state.blanks > 0 && env.blankAt(call) { // the provider's doing
        state := state.(blanks := state.blanks - 1);
        return true, true, token;
      }
      var page := FetchPage(state.cloud.bucket.value.items, token, env.pageSize(call));
      if page.items == [] {
        return true, page.truncated, token;
      }
      var objects := Gather(page.items);
      ok := DeleteInBatches(objects);
      more, last := page.truncated, page.items[|page.items| - 1];
    }

    method DeleteAllObjectVersions() returns (ok: bool)
      modifies this`state
      ensures Done(state, ok) == PagesDeleted(old(state), -1, env, oracle)
    {
      var token: int := -1;
      var more := true;
      ok := true;
      while more
        invariant ok
        invariant more ==> PagesDeleted(old(state), -1, env, oracle) == PagesDeleted(state, token, env, oracle)
        invariant !more ==> PagesDeleted(old(state), -1, env, oracle) == Done(state, true)
        decreases more, LeftToList(state, token)
      {
        TurnProgresses(state, token, env, oracle);
        ok, more, token := DeleteNextPage(token);
        if !ok {
          return;
        }
      }
    }

    method AbortMultipartUploads() returns (ok: bool)
      modifies this`state
      ensures Done(state, ok) == UploadsAborted(old(state), oracle)
    {
      var fault := oracle(state.calls);
      state := state.Called(state.cloud);
      if fault != NoFault {
        return false;
      }
      if state.cloud.bucket.None? {
        return true;
      }
      var uploads := FirstUploads(state.cloud.bucket.value.uploads);
      var failed := 0;
      for i := 0 to |uploads|
        invariant state.cloud.bucket.Some?
        invariant UploadsAborted(old(state), oracle) == AbortEach(state, uploads[i..], failed, oracle)
      {
        assert uploads[i..][1..] == uploads[i + 1..];
        fault := oracle(state.calls);
        state := state.Called(state.cloud.(bucket := Some(AbortCall(state.cloud.bucket.value, uploads[i], fault))));
        if fault != NoFault {
          failed := failed + 1;
        }
      }
      return failed == 0;
    }

    method DeleteBucket() returns (ok: bool)
      modifies this`state
      ensures Done(state, ok) == BucketDeleted(old(state), oracle)
    {
      var fault := oracle(state.calls);
      var cloud := state.cloud;
      if fault.Effective() && Deletable(cloud) {
        cloud := cloud.(bucket := None);
      }
      state := state.Called(cloud);
      return fault == NoFault && cloud.bucket.None?;
    }

    method CleanupBucket() returns (roleOk: bool, ok: bool)
      modifies this`state
      ensures Report(state, roleOk, ok) == Attempt(old(state), env, oracle)
    {
      roleOk := CleanupAppIRSA();
      var tags: S3.TagSet := if state.cloud.bucket.Some? then state.cloud.bucket.value.tags else None;
      var verified := S3.VerifyOwnership(state.cloud.bucket.Some?, tags, env.me, env.createdByUs, oracle(state.calls));
      state := state.Called(state.cloud);
      if verified != Success {
        return roleOk, false;
      }
      ok := DeleteAllObjectVersions();
      if !ok {
        return roleOk, false;
      }
      ok := AbortMultipartUploads();
      if !ok {
        return roleOk, false;
      }
      ok := DeleteBucket();
    }
  }
}
