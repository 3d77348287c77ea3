/**
 Names of cloud resources, and the rule for transferring a bucket between Applications
 (internal/controller/naming/naming.go).
 */
module Naming {
  import opened Api

  // ---------- the adoption rule ----------

  /** What the operator can see of the cluster while it evaluates one adoption. */
  datatype ClusterView = ClusterView(
    listFails: bool,            // listing Applications reports an error
    liveUids: set<string>,      // UIDs of every listed Application
    namespaceFails: bool,       // reading a Namespace reports an error other than "not found"
    grants: map<string, string> // Namespace -> its allow-bucket-adoption-from annotation
  )

  predicate IsSpace(c: char) { c == ' ' || c == '\t' || c == '\n' || c == '\r' || c == 11 as char || c == 12 as char }

  function TrimLeft(s: string): (r: string)
    ensures |r| <= |s|
  {
    if s != "" && IsSpace(s[0]) then TrimLeft(s[1..]) else s
  }

  function TrimSpace(s: string): (r: string)
    ensures |r| <= |s|
    decreases |s|
  {
    var t := TrimLeft(s);
    if t != "" && IsSpace(t[|t| - 1]) then TrimSpace(t[..|t| - 1]) else t
  }

  /** The pieces of `s` between occurrences of `sep`. */
  function Split(s: string, sep: char): (r: seq<string>)
    ensures |r| >= 1
  {
    if s == "" then [""]
    else
      var rest := Split(s[1..], sep);
      if s[0] == sep then [""] + rest else [[s[0]] + rest[0]] + rest[1..]
  }

  /** `s[i..j]` is a whole entry of the `sep`-separated list `s`. */
  ghost predicate IsEntry(s: string, sep: char, i: nat, j: nat) {
    && i <= j <= |s|
    && sep !in s[i..j]
    && (i == 0 || s[i - 1] == sep)
    && (j == |s| || s[j] == sep)
  }

  lemma TailSlice(s: string, i: nat, j: nat)
    requires i <= j < |s|
    ensures s[1..][i..j] == s[i + 1..j + 1]
  {
  }

  /** The piece numbered `k` is an entry; the first one starts at the left end. */
  lemma {:induction false} SplitSound(s: string, sep: char, k: nat) returns (i: nat, j: nat)
    requires k < |Split(s, sep)|
    ensures IsEntry(s, sep, i, j) && s[i..j] == Split(s, sep)[k]
    ensures k == 0 <==> i == 0
  {
    if s == "" {
      i, j := 0, 0;
    } else {
      var t := s[1..];
      if s[0] == sep {
        if k == 0 {
          i, j := 0, 0;
        } else {
          var i', j' := SplitSound(t, sep, k - 1);
          i, j := i' + 1, j' + 1;
          TailSlice(s, i', j');
        }
      } else {
        var i', j' := SplitSound(t, sep, k);
        if k == 0 {
          i, j := 0, j' + 1;
          assert s[i..j] == [s[0]] + t[0..j'];
        } else {
          i, j := i' + 1, j' + 1;
          TailSlice(s, i', j');
        }
      }
    }
  }

  lemma {:induction false} SplitComplete(s: string, sep: char, i: nat, j: nat) returns (k: nat)
    requires IsEntry(s, sep, i, j)
    ensures k < |Split(s, sep)| && Split(s, sep)[k] == s[i..j]
    ensures i == 0 <==> k == 0
  {
    if s == "" {
      k := 0;
    } else {
      var t := s[1..];
      if i == 0 {
        k := 0;
        if j == 0 {
          assert s[0] == sep;
        } else {
          assert s[0] == s[0..j][0];
          assert t[0..j - 1] == s[0..j][1..];
          var k' := SplitComplete(t, sep, 0, j - 1);
          assert s[0..j] == [s[0]] + t[0..j - 1];
        }
      } else {
        TailSlice(s, i - 1, j - 1);
        if i == 1 {
          var k' := SplitComplete(t, sep, 0, j - 1);
          k := k' + 1;
        } else {
          var k' := SplitComplete(t, sep, i - 1, j - 1);
          k := if s[0] == sep then k' + 1 else k';
        }
      }
    }
  }

  predicate GrantNames(grant: string, adopting: string) {
    grant != "" && (grant == "*" || exists k ::
        0 <= k < |Split(grant, ',')| && TrimSpace(Split(grant, ',')[k]) == adopting)
  }

  lemma SliceOfSlice(s: string, a: nat, b: nat, i: nat, j: nat)
    requires a <= b <= |s| && i <= j <= b - a
    ensures s[a..b][i..j] == s[a + i..a + j]
  {
    assert forall k | 0 <= k < j - i :: s[a..b][i..j][k] == s[a..b][i + k] == s[a + i + k] == s[a + i..a + j][k];
  }

  /** Space, tab, line feed, carriage return, vertical tab, form feed. */
  predicate IsBlank(c: char) {
    || c == 32 as char || c == 9 as char || c == 10 as char || c == 13 as char || c == 11 as char || c == 12 as char
  }

  predicate AllBlank(s: string) { forall i | 0 <= i < |s| :: IsBlank(s[i]) }

  /** Neither end is a blank. */
  predicate Trimmed(s: string) {
    s != "" ==> !IsBlank(s[0]) && !IsBlank(s[|s| - 1])
  }

  lemma {:induction false} TrimLeftFinds(s: string, i: nat)
    requires i <= |s| && AllBlank(s[..i]) && (i < |s| ==> !IsBlank(s[i]))
    ensures TrimLeft(s) == s[i..]
  {
    if i > 0 {
      assert s[..i][0] == s[0];
      assert s[1..][..i - 1] == s[..i][1..];
      TrimLeftFinds(s[1..], i - 1);
      assert s[1..][i - 1..] == s[i..];
    } else if s != "" {
      assert !IsSpace(s[0]);
    }
  }

  lemma AllBlankTrims(s: string)
    requires AllBlank(s)
    ensures TrimSpace(s) == ""
  {
    assert s[..|s|] == s;
    TrimLeftFinds(s, |s|);
  }

  /** Blanks at the right end go one by one. */
  lemma {:induction false} TrimRightFinds(s: string, j: nat)
    requires 0 < j <= |s| && AllBlank(s[j..]) && !IsBlank(s[0]) && !IsBlank(s[j - 1])
    ensures TrimSpace(s) == s[..j]
    decreases |s|
  {
    assert s[..0] == [] && s[0..] == s;
    TrimLeftFinds(s, 0);
    var n := |s| - 1;
    if j == |s| {
      assert !IsSpace(s[n]);
      assert s[..j] == s;
    } else {
      assert IsSpace(s[n]) by { assert s[j..][n - j] == s[n]; }
      SliceOfSlice(s, 0, n, j, n);
      assert s[..n] == s[0..n] && s[j..n] == s[j..][..n - j] && s[..n][j..] == s[j..n];
      TrimRightFinds(s[..n], j);
      assert s[..n][..j] == s[..j];
    }
  }

  lemma NothingBetweenBlanks(s: string, i: nat)
    requires i <= |s| && AllBlank(s[..i]) && AllBlank(s[i..])
    ensures AllBlank(s)
  {
    assert forall k | 0 <= k < |s| :: s[k] == if k < i then s[..i][k] else s[i..][k - i];
  }

  lemma CutLeft(s: string, i: nat, j: nat)
    requires i < j <= |s|
    ensures var t := s[i..];
            && t[..j - i] == s[i..j] && t[j - i..] == s[j..]
            && t[0] == s[i] == s[i..j][0] && t[j - i - 1] == s[j - 1] == s[i..j][j - i - 1]
  {
  }

  /** What trimming yields: the text between the blanks at both ends. */
  lemma TrimSpaceFinds(s: string, i: nat, j: nat)
    requires TrimmedAt(s, i, j)
    ensures TrimSpace(s) == s[i..j]
  {
    if i == j {
      NothingBetweenBlanks(s, i);
      AllBlankTrims(s);
    } else {
      var t := s[i..];
      CutLeft(s, i, j);
      TrimLeftFinds(s, i);
      assert t[..0] == [] && t[0..] == t;
      TrimLeftFinds(t, 0);
      TrimRightFinds(t, j - i);
      SameFromTheLeft(s, t);
    }
  }

  /** Blanks at the left end make no difference. */
  lemma SameFromTheLeft(s: string, t: string)
    requires TrimLeft(s) == t && t != "" && TrimLeft(t) == t
    ensures TrimSpace(s) == TrimSpace(t)
  {
  }

  /** `s` is blanks, then a trimmed text, then blanks. */
  predicate TrimmedAt(s: string, i: nat, j: nat) {
    i <= j <= |s| && AllBlank(s[..i]) && AllBlank(s[j..]) && Trimmed(s[i..j])
  }

  lemma BlankOnTheLeft(s: string, i: nat, j: nat)
    requires s != "" && IsBlank(s[0]) && TrimmedAt(s[1..], i, j)
    ensures TrimmedAt(s, i + 1, j + 1)
  {
    var t, left := s[1..], s[..i + 1];
    forall k | 0 <= k < |left| ensures IsBlank(left[k]) {
      assert k > 0 ==> left[k] == t[k - 1] == t[..i][k - 1];
    }
    SliceOfSlice(s, 1, |s|, i, j);
    assert s[1..|s|] == t && s[j + 1..] == t[j..];
  }

  lemma BlankOnTheRight(s: string, i: nat, j: nat)
    requires s != "" && IsBlank(s[|s| - 1]) && TrimmedAt(s[..|s| - 1], i, j)
    ensures TrimmedAt(s, i, j)
  {
    var n := |s| - 1;
    var t, right := s[..n], s[j..];
    forall k | 0 <= k < |right| ensures IsBlank(right[k]) {
      assert k < n - j ==> right[k] == t[j + k] == t[j..][k];
    }
    SliceOfSlice(s, 0, n, i, j);
    assert s[0..n] == t && s[..i] == t[..i];
  }

  /** Any text is of that form. */
  lemma {:induction false} BlanksAround(s: string) returns (i: nat, j: nat)
    ensures TrimmedAt(s, i, j)
  {
    if s == "" {
      i, j := 0, 0;
    } else if IsBlank(s[0]) {
      var i', j' := BlanksAround(s[1..]);
      BlankOnTheLeft(s, i', j');
      i, j := i' + 1, j' + 1;
    } else if IsBlank(s[|s| - 1]) {
      i, j := BlanksAround(s[..|s| - 1]);
      BlankOnTheRight(s, i, j);
    } else {
      i, j := 0, |s|;
      assert s[0..|s|] == s;
    }
  }

  /** The text reads `name`, but for blanks around it. */
  ghost predicate Reads(text: string, name: string) {
    && Trimmed(name)
    && exists i: nat, j: nat :: i <= j <= |text| && AllBlank(text[..i]) && AllBlank(text[j..]) && text[i..j] == name
  }

  lemma TrimsToIff(text: string, name: string)
    ensures TrimSpace(text) == name <==> Reads(text, name)
  {
    var p, q := BlanksAround(text);
    TrimSpaceFinds(text, p, q);
    if Reads(text, name) {
      var i: nat, j: nat :| i <= j <= |text| && AllBlank(text[..i]) && AllBlank(text[j..]) && text[i..j] == name;
      TrimSpaceFinds(text, i, j);
    }
  }

  /** The entry between `a` and `b` of the comma-separated list reads `name`. */
  ghost predicate EntryReads(list: string, a: nat, b: nat, name: string) {
    IsEntry(list, ',', a, b) && Reads(list[a..b], name)
  }

  /**
   A grant names a namespace iff it is "*" or some whole comma-separated entry reads that name, with nothing but
   blanks around it.
   */
  lemma GrantNamesWholeEntries(grant: string, adopting: string)
    requires adopting != ""
    ensures GrantNames(grant, adopting) <==> grant == "*" || exists a: nat, b: nat :: EntryReads(grant, a, b, adopting)
  {
    if GrantNames(grant, adopting) && grant != "*" {
      var k :| 0 <= k < |Split(grant, ',')| && TrimSpace(Split(grant, ',')[k]) == adopting;
      var a, b := SplitSound(grant, ',', k);
      TrimsToIff(grant[a..b], adopting);
      assert EntryReads(grant, a, b, adopting);
    }
    forall a: nat, b: nat | EntryReads(grant, a, b, adopting)
      ensures GrantNames(grant, adopting)
    {
      var k := SplitComplete(grant, ',', a, b);
      TrimsToIff(grant[a..b], adopting);
      assert grant[a..b] != "" && grant != "";
    }
  }

  /** Some(b): the lookup worked and the answer is b. None: the operator could not tell. */
  function ApplicationExistsWithUID(view: ClusterView, uid: string): Option<bool> {
    if uid == "" then Some(false)
    else if view.listFails then None
    else Some(uid in view.liveUids)
  }

  function CrossNamespaceAdoptionAllowed(view: ClusterView, owner: string, adopting: string): Option<bool> {
    if view.namespaceFails then None
    else Some(owner in view.grants && GrantNames(view.grants[owner], adopting))
  }

  /** May an Application of namespace `adopting` take over a bucket recorded for `ownerUid` in `ownerNamespace`? */
  predicate EvaluateBucketAdoption(view: ClusterView, ownerUid: string, ownerNamespace: string, adopting: string)
  {
    match ApplicationExistsWithUID(view, ownerUid)
    case None => false
    case Some(true) => false
    case Some(false) =>
      if ownerNamespace == "" then false
      else if ownerNamespace == adopting then true
      else
        match CrossNamespaceAdoptionAllowed(view, ownerNamespace, adopting)
        case None => false
        case Some(allowed) => allowed
  }

  /**
   Adoption fails closed: it needs a confirmed absence and a known namespace that is the adopter's own or grants
   it.
   */
  lemma AdoptionFailsClosed(view: ClusterView, ownerUid: string, ownerNamespace: string, adopting: string)
    requires adopting != ""
    ensures EvaluateBucketAdoption(view, ownerUid, ownerNamespace, adopting) <==>
            && ownerUid !in view.liveUids - {""}
            && (ownerUid == "" || !view.listFails)
            && ownerNamespace != ""
            && (ownerNamespace == adopting ||
                (!view.namespaceFails && ownerNamespace in view.grants &&
                 (view.grants[ownerNamespace] == "*" ||
                  exists a: nat, b: nat :: EntryReads(view.grants[ownerNamespace], a, b, adopting))))
  {
    if ownerNamespace in view.grants {
      GrantNamesWholeEntries(view.grants[ownerNamespace], adopting);
    }
  }

  // ---------- names of cloud resources ----------

  /** The first eight hexadecimal digits of a digest. */
  type ShortHash = s: string | |s| == 8 witness "00000000"

  const AWS_ROLE_NAME_MAX := 64
  const AKAMAI_KEY_LABEL_MAX := 50

  function Join(parts: seq<string>): string {
    if |parts| == 0 then "" else if |parts| == 1 then parts[0] else parts[0] + "-" + Join(parts[1..])
  }

  /** The bound holds exactly when nothing has to be cut or there is room for the nine-character suffix. */
  function CloudResourceName(parts: seq<string>, maxLen: int, hash: string -> ShortHash): (name: string)
    ensures |name| <= maxLen <==> |Join(parts)| <= maxLen || maxLen >= 9
  {
    var full := Join(parts);
    if |full| <= maxLen then full
    else
      var suffix := "-" + hash(full);
      var room := maxLen - |suffix|;
      var keep := if room < 0 then 0 else if room < |full| then room else |full|;
      full[..keep] + suffix
  }

  function IrsaRoleName(namespace: string, name: string, hash: string -> ShortHash): string {
    CloudResourceName(["app-irsa", namespace, name], AWS_ROLE_NAME_MAX, hash)
  }

  function AccessKeyLabel(namespace: string, name: string, hash: string -> ShortHash): string {
    CloudResourceName([namespace, name, "key"], AKAMAI_KEY_LABEL_MAX, hash)
  }

  function Dashed(namespace: string, name: string): string { namespace + "-" + name }

  /**
   Two pairs print alike iff they are the same pair or one namespace extends the other by a piece of the other's
   name.
   */
  ghost predicate Overlap(ns1: string, name1: string, ns2: string, name2: string) {
    exists mid: string {:trigger mid + "-"} :: ns2 == ns1 + "-" + mid && name1 == mid + "-" + name2
  }

  lemma DashedCollision(ns1: string, name1: string, ns2: string, name2: string)
    requires |ns1| <= |ns2|
    ensures Dashed(ns1, name1) == Dashed(ns2, name2) <==>
            (ns1 == ns2 && name1 == name2) || Overlap(ns1, name1, ns2, name2)
  {
    var a, b := Dashed(ns1, name1), Dashed(ns2, name2);
    if a == b {
      assert ns1 == a[..|ns1|] && ns2 == b[..|ns2|];
      assert name1 == a[|ns1| + 1..] && name2 == b[|ns2| + 1..];
      if |ns1| < |ns2| {
        var mid := ns2[|ns1| + 1..];
        assert ns2 == ns1 + "-" + mid by { assert a[|ns1|] == '-'; }
        assert name1 == mid + "-" + name2;
      }
    }
    if Overlap(ns1, name1, ns2, name2) {
      var mid: string :| ns2 == ns1 + "-" + mid && name1 == mid + "-" + name2;
      assert a == ns1 + "-" + mid + "-" + name2 == b;
    }
  }

  lemma JoinedNames(namespace: string, name: string)
    ensures Join(["app-irsa", namespace, name]) == "app-irsa-" + Dashed(namespace, name)
    ensures Join([namespace, name, "key"]) == Dashed(namespace, name) + "-key"
  {
    assert ["app-irsa", namespace, name][1..] == [namespace, name];
    assert [namespace, name][1..] == [name];
    assert Join([namespace, name]) == Dashed(namespace, name);
    assert "app-irsa" + "-" == "app-irsa-";
    assert [namespace, name, "key"][1..] == [name, "key"];
    assert [name, "key"][1..] == ["key"];
    assert Join([name, "key"]) == name + "-" + "key";
  }

  /**
   Role names and key labels that need no cut collide exactly when the dashed pairs collide; in
   particular the same name in two namespaces never does. "a-b"/"c" and "a"/"b-c" do.
   */
  lemma UncutNamesSeparate(ns1: string, name1: string, ns2: string, name2: string, hash: string -> ShortHash)
    requires |ns1| <= |ns2|
    ensures |Dashed(ns1, name1)| <= 55 && |Dashed(ns2, name2)| <= 55 ==>
            (IrsaRoleName(ns1, name1, hash) == IrsaRoleName(ns2, name2, hash) <==>
             (ns1 == ns2 && name1 == name2) || Overlap(ns1, name1, ns2, name2))
    ensures |Dashed(ns1, name1)| <= 46 && |Dashed(ns2, name2)| <= 46 ==>
            (AccessKeyLabel(ns1, name1, hash) == AccessKeyLabel(ns2, name2, hash) <==>
             (ns1 == ns2 && name1 == name2) || Overlap(ns1, name1, ns2, name2))
    ensures name1 == name2 ==> !Overlap(ns1, name1, ns2, name2)
    ensures IrsaRoleName("a-b", "c", hash) == IrsaRoleName("a", "b-c", hash)
    ensures AccessKeyLabel("a-b", "c", hash) == AccessKeyLabel("a", "b-c", hash)
  {
    JoinedNames(ns1, name1);
    JoinedNames(ns2, name2);
    DashedCollision(ns1, name1, ns2, name2);
    var a, b := Dashed(ns1, name1), Dashed(ns2, name2);
    assert a == ("app-irsa-" + a)[9..] && b == ("app-irsa-" + b)[9..];
    assert a == (a + "-key")[..|a + "-key"| - 4] && b == (b + "-key")[..|b + "-key"| - 4];
    JoinedNames("a-b", "c");
    JoinedNames("a", "b-c");
    assert Dashed("a-b", "c") == "a-b-c" == Dashed("a", "b-c");
  }

  /** Names that are cut collide exactly when the kept prefixes and the hashes of the full names agree. */
  lemma CutNamesSeparate(p: seq<string>, q: seq<string>, maxLen: int, hash: string -> ShortHash)
    requires 9 <= maxLen < |Join(p)| && maxLen < |Join(q)|
    ensures CloudResourceName(p, maxLen, hash) == CloudResourceName(q, maxLen, hash) <==>
            Join(p)[..maxLen - 9] == Join(q)[..maxLen - 9] && hash(Join(p)) == hash(Join(q))
  {
    var a, b := CloudResourceName(p, maxLen, hash), CloudResourceName(q, maxLen, hash);
    var k := maxLen - 9;
    assert a[..k] == Join(p)[..k] && b[..k] == Join(q)[..k];
    assert a[k + 1..] == hash(Join(p)) && b[k + 1..] == hash(Join(q));
    assert a == a[..k] + "-" + a[k + 1..] && b == b[..k] + "-" + b[k + 1..];
  }

  // ---------- names of Secrets ----------

  function StorageSecret(name: string, storage: Option<StorageSpec>): string {
    if storage.Some? && storage.value.secretName != "" then storage.value.secretName else name + "-storage"
  }

  function AkamaiTokenSecret(name: string, storage: Option<StorageSpec>): string {
    if storage.Some? && storage.value.akamai.Some? && storage.value.akamai.value.accessKeySecretRef != ""
    then storage.value.akamai.value.accessKeySecretRef
    else name + "-akamai-token"
  }

  /** The Secret holding static AWS credentials, if any (s3/client.go). */
  function AwsCredentialsSecret(storage: StorageSpec): Option<string> {
    if storage.aws.Some? && storage.aws.value.credentialsSecretRef != ""
    then Some(storage.aws.value.credentialsSecretRef)
    else None
  }

  /** A name that is given is used as it is; and the default names of input and output Secret never meet. */
  lemma SecretNames(name: string, storage: StorageSpec)
    ensures storage.secretName != "" ==> StorageSecret(name, Some(storage)) == storage.secretName
    ensures storage.akamai.Some? && storage.akamai.value.accessKeySecretRef != "" ==>
              AkamaiTokenSecret(name, Some(storage)) == storage.akamai.value.accessKeySecretRef
    ensures AwsCredentialsSecret(storage).Some? <==> storage.aws.Some? && storage.aws.value.credentialsSecretRef != ""
    ensures AwsCredentialsSecret(storage).Some? ==>
        AwsCredentialsSecret(storage) == Some(storage.aws.value.credentialsSecretRef)
    ensures storage.secretName == "" ==>
        StorageSecret(name, Some(storage)) == StorageSecret(name, None) == name + "-storage"
    ensures storage.akamai.None? ==>
              AkamaiTokenSecret(name, Some(storage)) == AkamaiTokenSecret(name, None) == name + "-akamai-token"
    ensures StorageSecret(name, None) != AkamaiTokenSecret(name, None)
  {
    assert |StorageSecret(name, None)| == |name| + 8 && |AkamaiTokenSecret(name, None)| == |name| + 13;
  }
}
