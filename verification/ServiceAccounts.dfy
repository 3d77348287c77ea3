/**
 The ServiceAccount of an Application under server-side apply, and the watch predicates that decide which
 updates start another pass (internal/controller/serviceaccount.go, internal/controller/predicates.go).

 An apply replaces the field set of one manager, "forge-operator"; everybody else is one other manager.
 */
module ServiceAccounts {
  import opened Api

  datatype Field = Label(key: string) | Annotation(key: string) | Controller(uid: string)

  const ROLE_ARN := Annotation("eks.amazonaws.com/role-arn")
  const APP := Label("app")

  type Fields = map<Field, string>

  /** `mine` are the fields the operator manages, `others` those somebody else manages; both may hold a field. */
  datatype Account = Account(fields: Fields, mine: set<Field>, others: set<Field>)
  {
    predicate Valid() { fields.Keys == mine + others }
  }

  /** Server-side apply of `wanted` by the operator, taking conflicting fields over by force. */
  function Applied(found: Option<Account>, wanted: Fields): Account {
    match found
    case None => Account(wanted, wanted.Keys, {})
    case Some(a) =>
      var dropped := a.mine - wanted.Keys - a.others;
      Account((a.fields - dropped) + wanted, wanted.Keys,
              set f <- a.others | f !in wanted || (f in a.fields && a.fields[f] == wanted[f]))
  }

  /** The part of the update that ownedContentChangedPredicate looks at. */
  predicate ContentChanged(before: Account, after: Account) {
    !(forall f <- before.fields.Keys + after.fields.Keys | f.Annotation? ::
        f in before.fields && f in after.fields && before.fields[f] == after.fields[f])
  }

  /** What an apply does to each field, and that the fields managed are the ones applied. */
  lemma AppliedFacts(a: Account, wanted: Fields)
    requires a.Valid()
    ensures var a' := Applied(Some(a), wanted);
            && a'.Valid() && a'.mine == wanted.Keys
            && (forall f <- wanted :: f in a'.fields && a'.fields[f] == wanted[f])
            && (forall f | f !in wanted :: f in a'.fields <==> f in a.others)
            && (forall f | f !in wanted && f in a.others :: a'.fields[f] == a.fields[f])
            && Applied(Some(a'), wanted) == a'
  {
    var a' := Applied(Some(a), wanted);
    assert Applied(Some(a'), wanted).fields == a'.fields;
    assert Applied(Some(a'), wanted).others == a'.others;
  }

  /**
   An apply changes nothing at all exactly when the operator manages just the wanted fields and they read as
   wanted.
   */
  lemma AppliedNothingIff(a: Account, wanted: Fields)
    requires a.Valid()
    ensures Applied(Some(a), wanted) == a <==> a.mine == wanted.Keys && forall f <- wanted :: a.fields[f] == wanted[f]
  {
    AppliedFacts(a, wanted);
    if a.mine == wanted.Keys && forall f <- wanted :: a.fields[f] == wanted[f] {
      var a' := Applied(Some(a), wanted);
      assert a'.fields == a.fields;
      assert a'.others == a.others;
    }
  }

  // ---------- which ServiceAccount ----------

  datatype AccountSpec = AccountSpec(create: Option<bool>, name: string)

  /** The Application as far as its ServiceAccount goes; `recordedArn` is status.storage.aws.roleARN, "" if unset. */
  datatype App = App(uid: string, name: string, serviceAccount: Option<AccountSpec>, recordedArn: string)

  predicate ShouldCreate(app: App) {
    if app.serviceAccount.None? then true
    else if app.serviceAccount.value.create.Some? then app.serviceAccount.value.create.value
    else app.serviceAccount.value.name == ""
  }

  function NameFor(app: App): string {
    if app.serviceAccount.Some? && app.serviceAccount.value.name != "" then app.serviceAccount.value.name
        else app.name + "-sa"
  }

  /** The account pods run under, "" for none. */
  function PodAccountName(app: App): string {
    if app.serviceAccount.Some? && app.serviceAccount.value.create == Some(false)
        && app.serviceAccount.value.name == "" then ""
    else NameFor(app)
  }

  /**
   Pods never name an account that nobody provides: either the user named it, or the operator creates
   it. And an account the operator creates is always the one the pods run under.
   */
  lemma PodsHaveTheirAccount(app: App)
    ensures PodAccountName(app) != "" ==>
              ShouldCreate(app) || (app.serviceAccount.Some? && PodAccountName(app) == app.serviceAccount.value.name)
    ensures ShouldCreate(app) ==> PodAccountName(app) == NameFor(app) != ""
    ensures app.serviceAccount.Some? && app.serviceAccount.value.name != "" ==>
              NameFor(app) == PodAccountName(app) == app.serviceAccount.value.name
    ensures app.serviceAccount.None? ==> ShouldCreate(app) && NameFor(app) == app.name + "-sa"
    ensures app.serviceAccount.Some? && app.serviceAccount.value.name == "" ==> NameFor(app) == app.name + "-sa"
    ensures PodAccountName(app) == "" <==> app.serviceAccount == Some(AccountSpec(Some(false), ""))
  {
    assert app.name + "-sa" != "" by { assert |app.name + "-sa"| > 0; }
  }

  /** desiredServiceAccount with its controller reference: the recorded role is carried forward. */
  function Desired(app: App): Fields {
    var base := map[APP := app.name, Controller(app.uid) := ""];
    if app.recordedArn != "" then base[ROLE_ARN := app.recordedArn] else base
  }

  function DesiredWithRole(app: App, arn: string): Fields { Desired(app)[ROLE_ARN := arn] }

  // ---------- one pass ----------

  // The calls of reconcileServiceAccount.
  const APPLY := 0
  const LIST := 1
  const FIRST_DELETION := 2

  type Accounts = map<string, Account>

  function Lookup(accounts: Accounts, name: string): Option<Account> {
    if name in accounts then Some(accounts[name]) else None
  }

  /** Listed by label, and controlled by this Application. */
  predicate Owned(a: Account, app: App) {
    && APP in a.fields && a.fields[APP] == app.name
    && Controller(app.uid) in a.fields
  }

  /** deleteStaleServiceAccounts over the listed names from position `k`: call `c + k` is the deletion. */
  function Swept(accounts: Accounts, listed: seq<string>, k: nat, app: App, keep: string, o: Oracle,
      c: nat): (Accounts, bool)
    requires k <= |listed|
    decreases |listed| - k
  {
    if k == |listed| then (accounts, true)
    else if listed[k] == keep || listed[k] !in accounts || !Owned(accounts[listed[k]], app)
    then Swept(accounts, listed, k + 1, app, keep, o, c)
    else
      var after := if o(c + k).Effective() then accounts - {listed[k]} else accounts;
      if o(c + k) != NoFault then (after, false) else Swept(after, listed, k + 1, app, keep, o, c)
  }

  /** Only stale accounts go; success leaves none of the listed ones. */
  lemma {:induction false} SweptFacts(accounts: Accounts, listed: seq<string>, k: nat, app: App, keep: string,
      o: Oracle, c: nat)
    requires k <= |listed|
    ensures var (after, ok) := Swept(accounts, listed, k, app, keep, o, c);
            && after.Keys <= accounts.Keys && (forall n <- after :: after[n] == accounts[n])
            && (forall n | n in accounts && n !in after :: n != keep && n in listed && Owned(accounts[n], app))
            && (ok ==> forall i | k <= i < |listed| && listed[i] in after ::
                listed[i] == keep || !Owned(after[listed[i]], app))
    decreases |listed| - k
  {
    if k < |listed| {
      if listed[k] == keep || listed[k] !in accounts || !Owned(accounts[listed[k]], app) {
        SweptFacts(accounts, listed, k + 1, app, keep, o, c);
      } else if o(c + k) == NoFault {
        SweptFacts(accounts - {listed[k]}, listed, k + 1, app, keep, o, c);
      }
    }
  }

  datatype Cluster = Cluster(accounts: Accounts, app: App)

  datatype Done = Done(accounts: Accounts, ok: bool)

  /** The listing names every account the Application owns. */
  predicate Lists(listed: seq<string>, accounts: Accounts, app: App) {
    forall n <- accounts :: Owned(accounts[n], app) ==> n in listed
  }

  /** reconcileServiceAccount */
  function Reconciled(accounts: Accounts, app: App, listed: seq<string>, o: Oracle): Done {
    if !ShouldCreate(app) then
      if o(LIST) != NoFault then Done(accounts, false)
      else var (after, ok) := Swept(accounts, listed, 0, app, "", o, FIRST_DELETION); Done(after, ok)
    else
      var name := NameFor(app);
      var applied := if o(APPLY).Effective() then accounts[name := Applied(Lookup(accounts, name), Desired(app))]
          else accounts;
      if o(APPLY) != NoFault || o(LIST) != NoFault then Done(applied, false)
      else var (after, ok) := Swept(applied, listed, 0, app, name, o, FIRST_DELETION); Done(after, ok)
  }

  /** annotateServiceAccountWithIRSA */
  function Annotated(accounts: Accounts, app: App, arn: string, f: Fault): Done {
    if !ShouldCreate(app) then Done(accounts, true)
    else
      var name := NameFor(app);
      var applied := accounts[name := Applied(Lookup(accounts, name), DesiredWithRole(app, arn))];
      Done(if f.Effective() then applied else accounts, f == NoFault)
  }

  predicate AllValid(accounts: Accounts) { forall n <- accounts :: accounts[n].Valid() }

  /** Nothing but the account of that name is owned by the Application. */
  predicate NoStale(accounts: Accounts, app: App) {
    forall n <- accounts :: Owned(accounts[n], app) ==> ShouldCreate(app) && n == NameFor(app)
  }

  /**
   A reconciliation that succeeds leaves no ServiceAccount of the Application behind but the one in use, and
   takes nobody else's.
   */
  lemma NoAccountLeftBehind(accounts: Accounts, app: App, listed: seq<string>, o: Oracle)
    requires AllValid(accounts) && "" !in accounts && Lists(listed, accounts, app)
    ensures var d := Reconciled(accounts, app, listed, o);
            && (forall n <- accounts :: n !in d.accounts ==> Owned(accounts[n], app))
            && (d.ok ==> NoStale(d.accounts, app)
                         && (ShouldCreate(app) ==> NameFor(app) in d.accounts && Owned(d.accounts[NameFor(app)], app)))
  {
    var name := NameFor(app);
    if !ShouldCreate(app) {
      SweptFacts(accounts, listed, 0, app, "", o, FIRST_DELETION);
    } else {
      var a' := Applied(Lookup(accounts, name), Desired(app));
      if name in accounts {
        AppliedFacts(accounts[name], Desired(app));
      }
      SweptFacts(accounts[name := a'], listed, 0, app, name, o, FIRST_DELETION);
    }
  }

  /**
   Nothing but the account of that name is ever written, and none at all if accounts are the user's: label,
   controller and, when the status knows it, the role are applied by a reconciliation, the role by an annotation.
   */
  lemma OnlyTheOwnIsApplied(accounts: Accounts, app: App, listed: seq<string>, arn: string, o: Oracle, f: Fault)
    requires AllValid(accounts)
    ensures forall n <- Reconciled(accounts, app, listed, o).accounts :: (n == NameFor(app) && ShouldCreate(app))
              || (n in accounts && Reconciled(accounts, app, listed, o).accounts[n] == accounts[n])
    ensures forall n <- Annotated(accounts, app, arn, f).accounts :: (n == NameFor(app) && ShouldCreate(app))
              || (n in accounts && Annotated(accounts, app, arn, f).accounts[n] == accounts[n])
    ensures Reconciled(accounts, app, listed, o).ok && ShouldCreate(app) ==>
              Shows(Reconciled(accounts, app, listed, o).accounts, NameFor(app), Desired(app))
    ensures Annotated(accounts, app, arn, f).ok && ShouldCreate(app) ==>
              Shows(Annotated(accounts, app, arn, f).accounts, NameFor(app), DesiredWithRole(app, arn))
  {
    var name := NameFor(app);
    if name in accounts {
      AppliedFacts(accounts[name], Desired(app));
      AppliedFacts(accounts[name], DesiredWithRole(app, arn));
    }
    if ShouldCreate(app) {
      SweptFacts(accounts[name := Applied(Lookup(accounts, name), Desired(app))], listed, 0, app, name, o,
          FIRST_DELETION);
    } else {
      SweptFacts(accounts, listed, 0, app, "", o, FIRST_DELETION);
    }
  }

  /** The account is there, and every field of `wanted` reads as wanted. */
  predicate Shows(accounts: Accounts, name: string, wanted: Fields) {
    name in accounts && forall f <- wanted :: f in accounts[name].fields && accounts[name].fields[f] == wanted[f]
  }

  // ---------- the quiet fixpoint ----------

  /** The role that is on record after the write that closes a pass. */
  function Closed(persisted: App, mem: App, f: Fault): App { if f.Effective() then mem else persisted }

  /** The calls of a pass that come after those on ServiceAccounts by name. */
  datatype Calls = Calls(recordCreation: nat, claim: nat, annotate: nat, recordReady: nat, close: nat)

  /**
   One AWS pass: the ServiceAccount, then storage reconciliation. If that has to create the bucket anew, the creation
   record drops the role from the status. Then come the claim and the rest of the bucket, the role annotation, and the
   role in the status.
   */
  function Pass(cluster: Cluster, arn: string, listed: seq<string>, recreated: bool, o: Oracle,
      c: Calls): (r: (Cluster, bool))
  {
    var app, d := cluster.app, Reconciled(cluster.accounts, cluster.app, listed, o);
    if !d.ok then (Cluster(d.accounts, app), false)
    else
      var mem := if recreated then app.(recordedArn := "") else app;
      var persisted := if recreated && o(c.recordCreation).Effective() then mem else app;
      if (recreated && o(c.recordCreation) != NoFault) || o(c.claim) != NoFault
          then (Cluster(d.accounts, Closed(persisted, mem, o(c.close))), false)
      else
        var a := if arn != "" then Annotated(d.accounts, mem, arn, o(c.annotate)) else d;
        if !a.ok then (Cluster(a.accounts, Closed(persisted, mem, o(c.close))), false)
        else
          var ready := app.(recordedArn := arn);
          (Cluster(a.accounts, Closed(if o(c.recordReady).Effective() then ready else persisted, ready, o(c.close))),
           o(c.recordReady) == NoFault)
  }

  /** The pass creates the bucket anew and fails in such a way that the role is no longer on record. */
  predicate LosesRole(app: App, recreated: bool, o: Oracle, c: Calls) {
    && recreated && o(LIST) == NoFault && (ShouldCreate(app) ==> o(APPLY) == NoFault)
    && if o(c.recordCreation) != NoFault then o(c.recordCreation).Effective() || o(c.close).Effective()
       else
         || o(c.claim) != NoFault
         || (ShouldCreate(app) && o(c.annotate) != NoFault)
         || !(o(c.recordReady).Effective() || o(c.close).Effective())
  }

  /** The account carries the role annotation, and it is the operator's. */
  predicate Carries(a: Account, app: App, arn: string) {
    var wanted := DesiredWithRole(app, arn);
    a.mine == wanted.Keys && a.Valid() && forall f <- wanted :: a.fields[f] == wanted[f]
  }

  /** Nothing is left to do for the ServiceAccount, and the status knows the role. */
  ghost predicate Quiet(cluster: Cluster, arn: string) {
    && AllValid(cluster.accounts) && "" !in cluster.accounts
    && cluster.app.recordedArn == arn
    && NoStale(cluster.accounts, cluster.app)
    && (ShouldCreate(cluster.app) ==> NameFor(cluster.app) in cluster.accounts
                                      && Carries(cluster.accounts[NameFor(cluster.app)], cluster.app, arn))
  }

  lemma {:induction false} NothingStaleToSweep(accounts: Accounts, listed: seq<string>, k: nat, app: App,
      keep: string, o: Oracle, c: nat)
    requires k <= |listed| && forall n <- accounts :: Owned(accounts[n], app) ==> n == keep
    ensures Swept(accounts, listed, k, app, keep, o, c) == (accounts, true)
    decreases |listed| - k
  {
    if k < |listed| {
      NothingStaleToSweep(accounts, listed, k + 1, app, keep, o, c);
    }
  }

  lemma CarriedIsDesired(a: Account, app: App, arn: string)
    requires Carries(a, app, arn) && app.recordedArn == arn != ""
    ensures Applied(Some(a), Desired(app)) == a && Applied(Some(a), DesiredWithRole(app, arn)) == a
  {
    assert DesiredWithRole(app, arn) == Desired(app);
    AppliedNothingIff(a, Desired(app));
  }

  /**
   In a quiet cluster no pass changes an account, whatever fails: each apply by itself is a no-op and nothing is
   deleted.
   */
  lemma QuietAccountsStay(cluster: Cluster, arn: string, listed: seq<string>, o: Oracle, f: Fault)
    requires Quiet(cluster, arn) && arn != ""
    ensures var accounts, app := cluster.accounts, cluster.app;
            && Reconciled(accounts, app, listed, o)
               == Done(accounts, o(LIST) == NoFault && (ShouldCreate(app) ==> o(APPLY) == NoFault))
            && Annotated(accounts, app, arn, f) == Done(accounts, !ShouldCreate(app) || f == NoFault)
            && Annotated(accounts, app.(recordedArn := ""), arn, f) == Annotated(accounts, app, arn, f)
  {
    var accounts, app := cluster.accounts, cluster.app;
    var noRole := app.(recordedArn := "");
    assert DesiredWithRole(noRole, arn) == DesiredWithRole(app, arn);
    if ShouldCreate(app) {
      var name := NameFor(app);
      CarriedIsDesired(accounts[name], app, arn);
      assert accounts[name := accounts[name]] == accounts;
      NothingStaleToSweep(accounts, listed, 0, app, name, o, FIRST_DELETION);
    } else {
      NothingStaleToSweep(accounts, listed, 0, app, "", o, FIRST_DELETION);
    }
  }

  /** A pass over a quiet cluster changes no account, and leaves it quiet unless it loses the role from the status. */
  lemma QuietPassStaysQuietIff(cluster: Cluster, arn: string, listed: seq<string>, recreated: bool, o: Oracle, c: Calls)
    requires Quiet(cluster, arn) && arn != ""
    ensures var after := Pass(cluster, arn, listed, recreated, o, c).0;
            after.accounts == cluster.accounts && (Quiet(after, arn) <==> !LosesRole(cluster.app, recreated, o, c))
  {
    QuietAccountsStay(cluster, arn, listed, o, o(c.annotate));
    var after := Pass(cluster, arn, listed, recreated, o, c).0;
    assert after.app == cluster.app.(recordedArn := after.app.recordedArn);
    assert DesiredWithRole(after.app, arn) == DesiredWithRole(cluster.app, arn);
  }

  /** One fault-free pass with a role makes any cluster quiet. */
  lemma CleanPassIsQuiet(cluster: Cluster, arn: string, listed: seq<string>, recreated: bool, o: Oracle, c: Calls)
    requires AllValid(cluster.accounts) && "" !in cluster.accounts && Lists(listed, cluster.accounts, cluster.app)
    requires FaultFree(o) && arn != ""
    ensures Quiet(Pass(cluster, arn, listed, recreated, o, c).0, arn)
  {
    var accounts, app := cluster.accounts, cluster.app;
    NoAccountLeftBehind(accounts, app, listed, o);
    var d := Reconciled(accounts, app, listed, o);
    CleanReconcile(accounts, app, listed, o);
    if ShouldCreate(app) {
      var name := NameFor(app);
      var mem := if recreated then app.(recordedArn := "") else app;
      assert DesiredWithRole(mem, arn) == DesiredWithRole(app, arn);
      AppliedFacts(d.accounts[name], DesiredWithRole(app, arn));
      var a := Applied(Some(d.accounts[name]), DesiredWithRole(app, arn));
      assert Annotated(d.accounts, mem, arn, o(c.annotate)).accounts == d.accounts[name := a];
      assert name != "" by { PodsHaveTheirAccount(app); }
    }
  }

  lemma CleanReconcile(accounts: Accounts, app: App, listed: seq<string>, o: Oracle)
    requires AllValid(accounts) && "" !in accounts && FaultFree(o)
    ensures var d := Reconciled(accounts, app, listed, o); d.ok && AllValid(d.accounts) && "" !in d.accounts
  {
    var name := NameFor(app);
    if name in accounts {
      AppliedFacts(accounts[name], Desired(app));
    }
    PodsHaveTheirAccount(app);
    if ShouldCreate(app) {
      var applied := accounts[name := Applied(Lookup(accounts, name), Desired(app))];
      SweptFacts(applied, listed, 0, app, name, o, FIRST_DELETION);
      CleanSweep(applied, listed, 0, app, name, o, FIRST_DELETION);
    } else {
      SweptFacts(accounts, listed, 0, app, "", o, FIRST_DELETION);
      CleanSweep(accounts, listed, 0, app, "", o, FIRST_DELETION);
    }
  }

  lemma {:induction false} CleanSweep(accounts: Accounts, listed: seq<string>, k: nat, app: App, keep: string,
      o: Oracle, c: nat)
    requires k <= |listed| && FaultFree(o)
    ensures Swept(accounts, listed, k, app, keep, o, c).1
    decreases |listed| - k
  {
    if k < |listed| {
      if listed[k] == keep || listed[k] !in accounts || !Owned(accounts[listed[k]], app) {
        CleanSweep(accounts, listed, k + 1, app, keep, o, c);
      } else {
        CleanSweep(accounts - {listed[k]}, listed, k + 1, app, keep, o, c);
      }
    }
  }

  /** Others may change anything but the fields the operator manages, and do not pose as the Application's own. */
  ghost predicate EditedByOthers(before: Cluster, after: Cluster) {
    && after.app == before.app && AllValid(after.accounts) && "" !in after.accounts
        && NoStale(after.accounts, after.app)
    && forall n <- before.accounts :: before.accounts[n].mine != {} && Owned(before.accounts[n], before.app) ==>
         && n in after.accounts && after.accounts[n].mine == before.accounts[n].mine
         && forall f <- before.accounts[n].mine ::
             f in before.accounts[n].fields && after.accounts[n].fields[f] == before.accounts[n].fields[f]
  }

  lemma EditsKeepQuiet(before: Cluster, after: Cluster, arn: string)
    requires Quiet(before, arn) && EditedByOthers(before, after)
    ensures Quiet(after, arn)
  {
    var app := before.app;
    if ShouldCreate(app) {
      var wanted, a := DesiredWithRole(app, arn), before.accounts[NameFor(app)];
      assert APP in wanted && Controller(app.uid) in wanted;
      assert Owned(a, app);
      assert a.mine != {};
    }
  }

  /** What pass number `i` of a history meets: its listing, whether the bucket was gone, and its faults. */
  datatype Turn = Turn(listed: seq<string>, recreated: bool, oracle: Oracle)

  function PassOf(cluster: Cluster, arn: string, t: Turn, c: Calls): Cluster {
    Pass(cluster, arn, t.listed, t.recreated, t.oracle, c).0
  }

  /** Pass number `i` works on `clusters[i]`; before the next one, others edit what it left. */
  ghost predicate History(clusters: seq<Cluster>, arn: string, turns: seq<Turn>, c: Calls) {
    && |clusters| == |turns| > 0
    && forall i | 0 <= i < |clusters| - 1 :: EditedByOthers(PassOf(clusters[i], arn, turns[i], c), clusters[i + 1])
  }

  /**
   Reconciling reaches a quiet fixpoint: after one fault-free pass, however others edit their own parts in
   between, every later pass leaves every ServiceAccount exactly as it finds it, apply by apply, so none of its
   updates passes the watch predicate; as long as no pass loses the role from the status.
   */
  lemma {:induction false} QuietFixpoint(clusters: seq<Cluster>, arn: string, turns: seq<Turn>, c: Calls, n: nat)
    requires History(clusters, arn, turns, c) && arn != "" && 0 < n < |clusters|
    requires var w, t := clusters[0], turns[0];
             AllValid(w.accounts) && "" !in w.accounts && Lists(t.listed, w.accounts, w.app) && FaultFree(t.oracle)
    requires forall i | 0 < i < n :: !LosesRole(clusters[i].app, turns[i].recreated, turns[i].oracle, c)
    ensures var w, t := clusters[n], turns[n];
            && Quiet(w, arn) && PassOf(w, arn, t, c).accounts == w.accounts
            && Reconciled(w.accounts, w.app, t.listed, t.oracle).accounts == w.accounts
            && Annotated(w.accounts, w.app, arn, t.oracle(c.annotate)).accounts == w.accounts
  {
    var w, t := clusters[n - 1], turns[n - 1];
    if n == 1 {
      CleanPassIsQuiet(w, arn, t.listed, t.recreated, t.oracle, c);
    } else {
      QuietFixpoint(clusters, arn, turns, c, n - 1);
      QuietPassStaysQuietIff(w, arn, t.listed, t.recreated, t.oracle, c);
    }
    EditsKeepQuiet(PassOf(w, arn, t, c), clusters[n], arn);
    QuietAccountsStay(clusters[n], arn, turns[n].listed, turns[n].oracle, turns[n].oracle(c.annotate));
    QuietPassStaysQuietIff(clusters[n], arn, turns[n].listed, turns[n].recreated, turns[n].oracle, c);
  }

  /**
   A pass that loses the role is noticed: the next first apply strips the annotation, unless somebody else holds
   it too.
   */
  lemma LostRoleIsNoticed(cluster: Cluster, arn: string, listed: seq<string>, recreated: bool, o: Oracle, c: Calls)
    requires Quiet(cluster, arn) && arn != "" && LosesRole(cluster.app, recreated, o, c) && ShouldCreate(cluster.app)
    ensures var after := Pass(cluster, arn, listed, recreated, o, c).0;
            var a := cluster.accounts[NameFor(cluster.app)];
            && after.app.recordedArn == ""
            && (ContentChanged(a, Applied(Some(a), Desired(after.app))) <==> ROLE_ARN !in a.others)
  {
    QuietAccountsStay(cluster, arn, listed, o, o(c.annotate));
    var after := Pass(cluster, arn, listed, recreated, o, c).0;
    assert DesiredWithRole(after.app, arn) == DesiredWithRole(cluster.app, arn);
    RecordedRoleMatters(cluster.accounts[NameFor(cluster.app)], after.app, arn);
  }

  /**
   Why the recorded role is carried forward: once an account carries the annotation, the next pass's first apply is an
   update that the watch sees, unless the status records that very role (or records none, and
   somebody else manages the annotation too).
   */
  lemma RecordedRoleMatters(a: Account, app: App, arn: string)
    requires Carries(a, app, arn) && arn != ""
    ensures ContentChanged(a, Applied(Some(a), Desired(app))) <==>
            !(app.recordedArn == arn || (app.recordedArn == "" && ROLE_ARN in a.others))
  {
    var wanted, a' := DesiredWithRole(app, arn), Applied(Some(a), Desired(app));
    AppliedFacts(a, Desired(app));
    assert ROLE_ARN in a.fields && a.fields[ROLE_ARN] == arn by { assert ROLE_ARN in wanted; }
    assert wanted.Keys == {APP, Controller(app.uid), ROLE_ARN};
    forall f: Field | f.Annotation? && f != ROLE_ARN
      ensures (f in a.fields <==> f in a'.fields) && (f in a.fields ==> a.fields[f] == a'.fields[f])
    {
      assert f !in wanted && f !in Desired(app);
    }
    assert ROLE_ARN in a.fields.Keys + a'.fields.Keys;
  }

  // ---------- the reconciler ----------

  class AccountReconciler {
    const oracle: Oracle
    var accounts: Accounts

    constructor (oracle: Oracle, accounts: Accounts)
      ensures this.oracle == oracle && this.accounts == accounts
    {
      this.oracle, this.accounts := oracle, accounts;
    }

    /** An apply patch, as call `k`. */
    method Apply(name: string, wanted: Fields, k: nat) returns (ok: bool)
      modifies this
      ensures accounts == if oracle(k).Effective()
          then old(accounts)[name := Applied(Lookup(old(accounts), name), wanted)] else old(accounts)
      ensures ok == (oracle(k) == NoFault)
    {
      if oracle(k).Effective() {
        accounts := accounts[name := Applied(Lookup(accounts, name), wanted)];
      }
      ok := oracle(k) == NoFault;
    }

    method DeleteStaleServiceAccounts(app: App, keep: string, listed: seq<string>) returns (ok: bool)
      modifies this
      ensures (accounts, ok) == if oracle(LIST) != NoFault then (old(accounts), false)
          else Swept(old(accounts), listed, 0, app, keep, oracle, FIRST_DELETION)
    {
      if oracle(LIST) != NoFault {
        return false;
      }
      for k := 0 to |listed|
        invariant Swept(old(accounts), listed, 0, app, keep, oracle, FIRST_DELETION)
            == Swept(accounts, listed, k, app, keep, oracle, FIRST_DELETION)
      {
        var name := listed[k];
        if name == keep || name !in accounts || !Owned(accounts[name], app) {
          continue;
        }
        if oracle(FIRST_DELETION + k).Effective() {
          accounts := accounts - {name};
        }
        if oracle(FIRST_DELETION + k) != NoFault {
          return false;
        }
      }
      ok := true;
    }

    method ReconcileServiceAccount(app: App, listed: seq<string>) returns (ok: bool)
      modifies this
      ensures Done(accounts, ok) == Reconciled(old(accounts), app, listed, oracle)
    {
      if !ShouldCreate(app) {
        ok := DeleteStaleServiceAccounts(app, "", listed);
        return;
      }
      ok := Apply(NameFor(app), Desired(app), APPLY);
      if ok {
        ok := DeleteStaleServiceAccounts(app, NameFor(app), listed);
      }
    }

    method AnnotateServiceAccountWithIRSA(app: App, arn: string, c: nat) returns (ok: bool)
      modifies this
      ensures Done(accounts, ok) == Annotated(old(accounts), app, arn, oracle(c))
    {
      if !ShouldCreate(app) {
        return true;
      }
      var desired := Desired(app);
      desired := desired[ROLE_ARN := arn];
      ok := Apply(NameFor(app), desired, c);
    }
  }

  // ---------- watching the Application ----------

  datatype Key = AdoptBucket | OwnershipId | OtherKey(name: string)

  datatype Application = Application(
    generation: nat, deleting: bool, annotations: map<Key, string>, finalizers: set<string>, spec: nat, status: nat)

  /** A missing annotation reads "". */
  function Read(annotations: map<Key, string>, key: Key): string { if key in annotations then annotations[key] else "" }

  /** applicationChangePredicate on an update event */
  predicate StartsPass(before: Application, after: Application) {
    || before.generation != after.generation
    || (!before.deleting && after.deleting)
    || Read(before.annotations, AdoptBucket) != Read(after.annotations, AdoptBucket)
  }

  datatype Write =
    | WriteStatus(status: nat)
    | PutOwnershipId(id: string)
    | AddFinalizer(finalizer: string)
    | RemoveFinalizer(finalizer: string)
    | EditSpec(spec: nat)
    | Annotate(key: Key, value: string)
    | Unannotate(key: Key)
    | StartDeletion
  {
    /** The writes this operator makes on Applications. */
    predicate ByOperator() { WriteStatus? || PutOwnershipId? || AddFinalizer? || RemoveFinalizer? }
  }

  /** What the API server makes of a write: the generation counts changes of the spec and the start of deletion. */
  function Written(a: Application, w: Write): Application {
    match w
    case WriteStatus(status) => a.(status := status)
    case PutOwnershipId(id) => a.(annotations := a.annotations[OwnershipId := id])
    case AddFinalizer(f) => a.(finalizers := a.finalizers + {f})
    case RemoveFinalizer(f) => a.(finalizers := a.finalizers - {f})
    case EditSpec(spec) => if spec == a.spec then a else a.(spec := spec, generation := a.generation + 1)
    case Annotate(key, value) => a.(annotations := a.annotations[key := value])
    case Unannotate(key) => a.(annotations := a.annotations - {key})
    case StartDeletion => if a.deleting then a else a.(deleting := true, generation := a.generation + 1)
  }

  function AllWritten(a: Application, writes: seq<Write>): Application
    decreases |writes|
  {
    if writes == [] then a else Written(AllWritten(a, writes[..|writes| - 1]), writes[|writes| - 1])
  }

  /** A write starts a pass exactly when it changes the spec, begins the deletion or changes the adoption request. */
  lemma WriteStartsPassIff(a: Application, w: Write)
    ensures StartsPass(a, Written(a, w)) <==>
            || (w.EditSpec? && w.spec != a.spec)
            || (w.StartDeletion? && !a.deleting)
            || (w.Annotate? && w.key == AdoptBucket && w.value != Read(a.annotations, AdoptBucket))
            || (w.Unannotate? && w.key == AdoptBucket && Read(a.annotations, AdoptBucket) != "")
  {
  }

  /**
   No operator write ever starts a pass: neither one by one nor, when the watch skips versions in between, as
   the difference any series of them makes.
   */
  lemma {:induction false} OperatorWritesAreQuiet(a: Application, writes: seq<Write>)
    requires forall w <- writes :: w.ByOperator()
    ensures !StartsPass(a, AllWritten(a, writes))
    ensures AllWritten(a, writes).deleting == a.deleting
    decreases |writes|
  {
    if writes != [] {
      assert writes[|writes| - 1] in writes;
      OperatorWritesAreQuiet(a, writes[..|writes| - 1]);
      WriteStartsPassIff(AllWritten(a, writes[..|writes| - 1]), writes[|writes| - 1]);
    }
  }
}
