/**
 How the status of an Application is written (internal/controller/status/manager.go, and
 retryStatusUpdate of internal/controller/storage.go) while others write the same object.

 The API server keeps every version of the object; a version's number is its resourceVersion.
 Before each call the others may write anything any number of times.
 */
module StatusManager {
  import opened Api

  // ---------- conditions ----------

  datatype Kind = Ready | Progressing | Degraded | StorageReady | Other(name: string)
  datatype Truth = True | False | Unknown

  /** `since` is the time of the last transition. */
  datatype Condition = Condition(kind: Kind, status: Truth, reason: string, message: string, observedGeneration: nat,
      since: nat)

  function Find(cs: seq<Condition>, kind: Kind): (r: Option<Condition>)
    ensures r.Some? ==> r.value in cs && r.value.kind == kind
    ensures r.None? ==> forall c <- cs :: c.kind != kind
  {
    if cs == [] then None else if cs[0].kind == kind then Some(cs[0]) else Find(cs[1..], kind)
  }

  predicate Is(cs: seq<Condition>, kind: Kind, status: Truth) {
    Find(cs, kind).Some? && Find(cs, kind).value.status == status
  }

  /** The transition time moves only if the status does. */
  function Updated(before: Condition, c: Condition, now: nat): Condition {
    c.(since := if before.status == c.status then before.since else now)
  }

  /** Updates the condition of that kind where it stands, or appends it. */
  function SetCondition(cs: seq<Condition>, c: Condition, now: nat): seq<Condition> {
    if cs == [] then [c.(since := now)]
    else if cs[0].kind == c.kind then [Updated(cs[0], c, now)] + cs[1..]
    else [cs[0]] + SetCondition(cs[1..], c, now)
  }

  predicate OnePerKind(cs: seq<Condition>) {
    cs == [] || (Find(cs[1..], cs[0].kind).None? && OnePerKind(cs[1..]))
  }

  /** The condition reads as set, every other kind reads as before, and no kind occurs twice. */
  lemma {:induction false} SetConditionReads(cs: seq<Condition>, c: Condition, now: nat, kind: Kind)
    requires OnePerKind(cs)
    ensures var cs' := SetCondition(cs, c, now);
            && OnePerKind(cs')
            && Find(cs', c.kind).Some? && Find(cs', c.kind).value == c.(since := Find(cs', c.kind).value.since)
            && (kind != c.kind ==> Find(cs', kind) == Find(cs, kind))
  {
    if cs != [] && cs[0].kind != c.kind {
      SetConditionReads(cs[1..], c, now, kind);
      SetConditionReads(cs[1..], c, now, cs[0].kind);
      assert SetCondition(cs, c, now)[1..] == SetCondition(cs[1..], c, now);
    }
  }

  /** Nothing moves; and nothing changes at all exactly when the condition already read like that. */
  lemma {:induction false} SetConditionStays(cs: seq<Condition>, c: Condition, now: nat)
    ensures var cs' := SetCondition(cs, c, now);
            && |cs| <= |cs'| <= |cs| + 1
            && (forall i :: 0 <= i < |cs| ==> cs'[i].kind == cs[i].kind && (cs[i].kind != c.kind ==> cs'[i] == cs[i]))
            && (cs' == cs <==>
                Find(cs, c.kind).Some? && Find(cs, c.kind).value == c.(since := Find(cs, c.kind).value.since))
  {
    if cs != [] {
      if cs[0].kind == c.kind {
        assert SetCondition(cs, c, now)[0] == Updated(cs[0], c, now);
        assert cs == [cs[0]] + cs[1..];
      } else {
        SetConditionStays(cs[1..], c, now);
        var t := SetCondition(cs[1..], c, now);
        assert SetCondition(cs, c, now)[1..] == t;
        assert forall i :: 1 <= i < |cs| ==> cs[i] == cs[1..][i - 1] && SetCondition(cs, c, now)[i] == t[i - 1];
        assert cs == [cs[0]] + cs[1..];
      }
    }
  }

  function ReconcilingConditions(cs: seq<Condition>, generation: nat, message: string, now: nat): seq<Condition> {
    SetCondition(SetCondition(cs, Condition(Progressing, True, "Reconciling", message, generation, 0), now),
                 Condition(Ready, False, "Reconciling", "Reconciliation in progress", generation, 0), now)
  }

  function ReadyConditions(cs: seq<Condition>, generation: nat, message: string, now: nat): seq<Condition> {
    var ready := SetCondition(cs, Condition(Ready, True, "ReconcileSuccess", message, generation, 0), now);
    var settled := SetCondition(ready, Condition(Progressing, False, "ReconcileSuccess",
        "Application is up to date and ready", generation, 0), now);
    SetCondition(settled, Condition(Degraded, False, "ReconcileSuccess", "No errors observed", generation, 0), now)
  }

  function FailedConditions(cs: seq<Condition>, generation: nat, reason: string, error: string,
      now: nat): seq<Condition>
  {
    SetCondition(SetCondition(cs, Condition(Degraded, True, reason, error, generation, 0), now),
                 Condition(Ready, False, reason, "Reconciliation failed: " + error, generation, 0), now)
  }

  // ---------- the API server ----------

  datatype AppStatus = AppStatus(storage: Option<StorageStatus>, conditions: seq<Condition>, observedGeneration: nat)

  /** One version of the Application, as far as status writes are concerned. */
  datatype Body = Body(generation: nat, spec: Option<StorageSpec>, status: AppStatus)

  /** A copy in memory, read at resourceVersion `version`. */
  datatype App = App(version: nat, body: Body)
  {
    function WithStatus(status: AppStatus): App { this.(body := body.(status := status)) }
  }

  /** What the others write before call `k`, how call `k` fails, and how old a cached read at call `k` is. */
  datatype Env = Env(writes: nat -> seq<Body>, faults: Oracle, cached: nat -> nat)

  /** `Conflict` is the API server's answer to a stale resourceVersion. */
  datatype Answer = Ok | Conflict | Error

  datatype Server = Server(history: seq<Body>, calls: nat)
  {
    predicate Valid() { history != [] }
    function Latest(): Body requires Valid() { history[|history| - 1] }
    function Write(b: Body): Server { this.(history := history + [b]) }
  }

  /** The others write, and the call counts. */
  function Arrive(s: Server, env: Env): (r: Server)
    requires s.Valid()
    ensures r.Valid() && |r.history| >= |s.history| && r.history[..|s.history|] == s.history
  {
    Server(s.history + env.writes(s.calls), s.calls + 1)
  }

  datatype Reply = Reply(server: Server, app: App, answer: Answer)

  /** Status().Update: only the status is taken from the caller, and the answer is decoded into its object. */
  function UpdateCall(s: Server, app: App, env: Env): (r: Reply)
    requires s.Valid()
    ensures r.server.Valid()
  {
    var s1 := Arrive(s, env);
    var f := env.faults(s.calls);
    if app.version + 1 != |s1.history| then Reply(s1, app, if f == NoFault then Conflict else Error)
    else
      var written := s1.Latest().(status := app.body.status);
      if f == NoFault then Reply(s1.Write(written), App(|s1.history|, written), Ok)
      else Reply(if f.Effective() then s1.Write(written) else s1, app, Error)
  }

  const RETRY_STEPS := 5

  datatype Done = Done(server: Server, app: App, answer: Answer)

  // ---------- UpdateStatus ----------

  function Merged(latest: Body, conditions: seq<Condition>, observedGeneration: nat): Body {
    latest.(status := latest.status.(conditions := conditions, observedGeneration := observedGeneration))
  }

  /** One attempt; after a conflict the wanted conditions are put onto an uncached read. */
  function Attempt(s: Server, app: App, conditions: seq<Condition>, observedGeneration: nat, env: Env): (d: Done)
    requires s.Valid()
    ensures d.server.Valid()
  {
    var u := UpdateCall(s, app, env);
    if u.answer != Conflict then Done(u.server, u.app, u.answer)
    else
      var s2 := Arrive(u.server, env);
      if env.faults(u.server.calls) != NoFault then Done(s2, u.app, Error)
      else Done(s2, App(|s2.history| - 1, Merged(s2.Latest(), conditions, observedGeneration)), Conflict)
  }

  /** RetryOnConflict: up to `left` attempts. */
  function Attempts(s: Server, app: App, conditions: seq<Condition>, observedGeneration: nat, left: nat,
      env: Env): (d: Done)
    requires s.Valid()
    ensures d.server.Valid()
    decreases left
  {
    if left == 0 then Done(s, app, Conflict)
    else
      var d := Attempt(s, app, conditions, observedGeneration, env);
      if d.answer == Conflict then Attempts(d.server, d.app, conditions, observedGeneration, left - 1, env) else d
  }

  function StatusUpdated(s: Server, app: App, env: Env): (d: Done)
    requires s.Valid()
  {
    var status := app.body.status.(observedGeneration := app.body.generation);
    Attempts(s, app.WithStatus(status), status.conditions, status.observedGeneration, RETRY_STEPS, env)
  }

  /** The copy is the version it was read at, apart from conditions and observed generation. */
  predicate OnlyConditionsChanged(s: Server, app: App) {
    && app.version < |s.history|
    && app.body == Merged(s.history[app.version], app.body.status.conditions, app.body.status.observedGeneration)
  }

  /** Whatever was written before is still there, in order. */
  ghost predicate Grows(s: Server, s': Server) {
    |s'.history| >= |s.history| && s'.history[..|s.history|] == s.history
  }

  lemma GrowsTwice(s: Server, s1: Server, s2: Server)
    requires Grows(s, s1) && Grows(s1, s2)
    ensures Grows(s, s2)
  {
    assert s2.history[..|s.history|] == s2.history[..|s1.history|][..|s.history|];
  }

  /** The last write is ours: the version before it, with conditions and observed generation replaced. */
  ghost predicate WroteMerged(s: Server, d: Done, conditions: seq<Condition>, observedGeneration: nat) {
    && |d.server.history| > |s.history|
    && var n := |d.server.history|;
       n >= 2 && d.server.history[n - 1] == Merged(d.server.history[n - 2], conditions, observedGeneration)
       && d.app == App(n - 1, d.server.history[n - 1])
  }

  /** The first attempt goes through: nobody has written since the copy was read. */
  predicate FirstFits(s: Server, app: App, env: Env) {
    app.version + 1 == |s.history| + |env.writes(s.calls)|
  }

  /** The last write of `s` is a whole status put onto the version before it, and the copy is that version. */
  ghost predicate WroteWhole(s: Server, app: App, status: AppStatus) {
    var n := |s.history|;
    n >= 2 && s.history[n - 1] == s.history[n - 2].(status := status) && app == App(n - 1, s.history[n - 1])
  }

  lemma UpdateCallWrites(s: Server, app: App, env: Env)
    requires s.Valid()
    ensures var u := UpdateCall(s, app, env);
            && Grows(s, u.server)
            && (u.answer == Ok ==>
                FirstFits(s, app, env) && |u.server.history| > |s.history|
                    && WroteWhole(u.server, u.app, app.body.status))
            && (u.answer == Conflict ==> !FirstFits(s, app, env))
            && (u.answer != Ok ==> u.app == app)
            && (FirstFits(s, app, env) && OnlyConditionsChanged(s, app) && u.answer == Ok ==>
                  WroteMerged(s, Done(u.server, u.app, Ok), app.body.status.conditions,
                      app.body.status.observedGeneration))
  {
    var u, s1 := UpdateCall(s, app, env), Arrive(s, env);
    GrowsTwice(s, s1, u.server);
    if OnlyConditionsChanged(s, app) {
      assert s1.history[app.version] == s1.history[..|s.history|][app.version];
    }
  }

  /** A refused attempt leaves a copy of the latest version with only the wanted conditions changed. */
  lemma AttemptFacts(s: Server, app: App, conditions: seq<Condition>, observedGeneration: nat, env: Env)
    requires s.Valid()
    ensures var d := Attempt(s, app, conditions, observedGeneration, env);
            && Grows(s, d.server)
            && (d.answer == Ok ==>
                FirstFits(s, app, env) && |d.server.history| > |s.history|
                    && WroteWhole(d.server, d.app, app.body.status))
            && (d.answer == Ok && OnlyConditionsChanged(s, app) ==>
                  WroteMerged(s, d, app.body.status.conditions, app.body.status.observedGeneration))
            && (d.answer == Conflict ==>
                  && !FirstFits(s, app, env)
                  && d.app.version + 1 == |d.server.history| && OnlyConditionsChanged(d.server, d.app)
                      && d.server.calls == s.calls + 2
                  && d.app.body.status.conditions == conditions
                      && d.app.body.status.observedGeneration == observedGeneration)
            && (FaultFree(env.faults) ==> d.answer == if FirstFits(s, app, env) then Ok else Conflict)
  {
    var u := UpdateCall(s, app, env);
    UpdateCallWrites(s, app, env);
    GrowsTwice(s, u.server, Arrive(u.server, env));
  }

  lemma {:induction false} AttemptsMerge(s: Server, app: App, conditions: seq<Condition>, observedGeneration: nat,
      left: nat, env: Env)
    requires s.Valid() && OnlyConditionsChanged(s, app)
    requires app.body.status.conditions == conditions && app.body.status.observedGeneration == observedGeneration
    ensures var d := Attempts(s, app, conditions, observedGeneration, left, env);
            Grows(s, d.server) && (d.answer == Ok ==> WroteMerged(s, d, conditions, observedGeneration))
    decreases left
  {
    if left > 0 {
      AttemptFacts(s, app, conditions, observedGeneration, env);
      var d := Attempt(s, app, conditions, observedGeneration, env);
      if d.answer == Conflict {
        AttemptsMerge(d.server, d.app, conditions, observedGeneration, left - 1, env);
        GrowsTwice(s, d.server, Attempts(d.server, d.app, conditions, observedGeneration, left - 1, env).server);
      }
    }
  }

  /**
   Lost-update freedom: against any writers, if the caller changed only conditions and observed
   generation, success means that the persisted object is the latest one with exactly those two
   parts replaced, so whatever others wrote to the rest, storage status included, survives.
   */
  lemma UpdateStatusLosesNothing(s: Server, app: App, env: Env)
    requires s.Valid() && OnlyConditionsChanged(s, app)
    ensures var d := StatusUpdated(s, app, env);
            Grows(s, d.server) && (d.answer == Ok ==>
                WroteMerged(s, d, app.body.status.conditions, app.body.generation))
  {
    AttemptsMerge(s, app.WithStatus(app.body.status.(observedGeneration := app.body.generation)),
                  app.body.status.conditions, app.body.generation, RETRY_STEPS, env);
  }

  lemma AttemptsWrite(s: Server, app: App, left: nat, env: Env)
    requires s.Valid() && left > 0
    ensures var d := Attempts(s, app, app.body.status.conditions, app.body.status.observedGeneration, left, env);
            d.answer == Ok ==>
              if FirstFits(s, app, env) then WroteWhole(d.server, d.app, app.body.status)
              else WroteMerged(s, d, app.body.status.conditions, app.body.status.observedGeneration)
  {
    var d := Attempt(s, app, app.body.status.conditions, app.body.status.observedGeneration, env);
    AttemptFacts(s, app, app.body.status.conditions, app.body.status.observedGeneration, env);
    if d.answer == Conflict {
      AttemptsMerge(d.server, d.app, app.body.status.conditions, app.body.status.observedGeneration, left - 1, env);
    }
  }

  /**
   Whatever the caller changed: a first attempt that fits writes its whole status, storage included;
   any later one writes its conditions and observed generation only, and drops the rest.
   */
  lemma UpdateStatusWrites(s: Server, app: App, env: Env)
    requires s.Valid()
    ensures var d := StatusUpdated(s, app, env);
            d.answer == Ok ==>
              if FirstFits(s, app, env)
              then WroteWhole(d.server, d.app, app.body.status.(observedGeneration := app.body.generation))
              else WroteMerged(s, d, app.body.status.conditions, app.body.generation)
  {
    AttemptsWrite(s, app.WithStatus(app.body.status.(observedGeneration := app.body.generation)), RETRY_STEPS, env);
  }

  /** Attempt `i` fits: nobody wrote between the read before it and its own arrival. */
  predicate Fits(s: Server, app: App, i: nat, env: Env) {
    if i == 0 then FirstFits(s, app, env) else env.writes(s.calls + 2 * i) == []
  }

  ghost predicate SomeFits(s: Server, app: App, left: nat, env: Env) {
    exists i: nat :: i < left && Fits(s, app, i, env)
  }

  /** After a fresh read the attempts that are left are the later ones of before. */
  lemma FitsLater(s: Server, app: App, s2: Server, refetched: App, left: nat, env: Env)
    requires left > 0 && !FirstFits(s, app, env)
    requires s2.calls == s.calls + 2 && refetched.version + 1 == |s2.history|
    ensures SomeFits(s, app, left, env) <==> SomeFits(s2, refetched, left - 1, env)
  {
    if SomeFits(s, app, left, env) {
      var i: nat :| i < left && Fits(s, app, i, env);
      assert Fits(s2, refetched, i - 1, env);
    }
    if SomeFits(s2, refetched, left - 1, env) {
      var i: nat :| i < left - 1 && Fits(s2, refetched, i, env);
      assert Fits(s, app, i + 1, env);
    }
  }

  lemma {:induction false} AttemptsSucceedIff(s: Server, app: App, conditions: seq<Condition>,
      observedGeneration: nat, left: nat, env: Env)
    requires s.Valid() && FaultFree(env.faults)
    ensures var answer := Attempts(s, app, conditions, observedGeneration, left, env).answer;
            answer != Error && (answer == Ok <==> SomeFits(s, app, left, env))
    decreases left
  {
    if left > 0 {
      AttemptFacts(s, app, conditions, observedGeneration, env);
      var d := Attempt(s, app, conditions, observedGeneration, env);
      if d.answer == Ok {
        assert Fits(s, app, 0, env);
      } else {
        FitsLater(s, app, d.server, d.app, left, env);
        AttemptsSucceedIff(d.server, d.app, conditions, observedGeneration, left - 1, env);
      }
    }
  }

  /** Without faults an update gives up exactly when others get in between five times running. */
  lemma UpdateStatusSucceedsIff(s: Server, app: App, env: Env)
    requires s.Valid() && FaultFree(env.faults)
    ensures StatusUpdated(s, app, env).answer == Ok <==> SomeFits(s, app, 5, env)
  {
    var mine := app.WithStatus(app.body.status.(observedGeneration := app.body.generation));
    AttemptsSucceedIff(s, mine, app.body.status.conditions, app.body.generation, RETRY_STEPS, env);
    assert forall i: nat :: Fits(s, mine, i, env) == Fits(s, app, i, env);
  }

  // ---------- retryStatusUpdate ----------

  function CachedRead(s: Server, env: Env): (app: App)
    requires s.Valid()
    ensures app.version < |s.history| && app.body == s.history[app.version]
  {
    var i := if env.cached(s.calls) < |s.history| then env.cached(s.calls) else |s.history| - 1;
    App(i, s.history[i])
  }

  /** One attempt to write all of `wanted`; after a conflict the object is read from the cache. */
  function Retry(s: Server, app: App, wanted: AppStatus, env: Env): (d: Done)
    requires s.Valid()
    ensures d.server.Valid()
  {
    var u := UpdateCall(s, app.WithStatus(wanted), env);
    if u.answer != Conflict then Done(u.server, u.app, u.answer)
    else
      var s2 := Arrive(u.server, env);
      if env.faults(u.server.calls) != NoFault then Done(s2, u.app, Error) else Done(s2, CachedRead(s2, env), Conflict)
  }

  function Retries(s: Server, app: App, wanted: AppStatus, left: nat, env: Env): (d: Done)
    requires s.Valid()
    ensures d.server.Valid()
    decreases left
  {
    if left == 0 then Done(s, app, Conflict)
    else
      var d := Retry(s, app, wanted, env);
      if d.answer == Conflict then Retries(d.server, d.app, wanted, left - 1, env) else d
  }

  function StatusRetried(s: Server, app: App, env: Env): (d: Done)
    requires s.Valid()
  {
    Retries(s, app, app.body.status, RETRY_STEPS, env)
  }

  /**
   In contrast, retryStatusUpdate on success has replaced the whole status, whatever others had put
   there, while spec and generation in memory are now those of the latest version. When it gives up
   after conflicts, the status left in memory is an old one from the server, not the wanted one.
   */
  lemma {:induction false} RetriesReplaceAll(s: Server, app: App, wanted: AppStatus, left: nat, env: Env)
    requires s.Valid()
    ensures var d := Retries(s, app, wanted, left, env);
            && Grows(s, d.server)
            && (d.answer == Ok ==> |d.server.history| > |s.history| && WroteWhole(d.server, d.app, wanted))
            && (d.answer == Conflict && left > 0 ==>
                d.app.version < |d.server.history| && d.app.body == d.server.history[d.app.version])
            && (d.answer == Error ==> d.app.body.status == wanted)
    decreases left
  {
    if left > 0 {
      RetryFacts(s, app, wanted, env);
      var d := Retry(s, app, wanted, env);
      if d.answer == Conflict {
        RetriesReplaceAll(d.server, d.app, wanted, left - 1, env);
        GrowsTwice(s, d.server, Retries(d.server, d.app, wanted, left - 1, env).server);
      }
    }
  }

  lemma RetryFacts(s: Server, app: App, wanted: AppStatus, env: Env)
    requires s.Valid()
    ensures var d := Retry(s, app, wanted, env);
            && Grows(s, d.server)
            && (d.answer == Ok ==> |d.server.history| > |s.history| && WroteWhole(d.server, d.app, wanted))
            && (d.answer == Conflict ==>
                  d.app.version < |d.server.history| && d.app.body == d.server.history[d.app.version])
            && (d.answer == Error ==> d.app.body.status == wanted)
  {
    var u := UpdateCall(s, app.WithStatus(wanted), env);
    UpdateCallWrites(s, app.WithStatus(wanted), env);
    GrowsTwice(s, u.server, Arrive(u.server, env));
  }

  // ---------- the manager ----------

  class Manager {
    const env: Env
    var server: Server

    constructor (env: Env, server: Server)
      ensures this.env == env && this.server == server
    {
      this.env, this.server := env, server;
    }

    method Update(app: App) returns (app': App, answer: Answer)
      requires server.Valid()
      modifies this
      ensures server.Valid() && Reply(server, app', answer) == UpdateCall(old(server), app, env)
    {
      var u := UpdateCall(server, app, env);
      server, app', answer := u.server, u.app, u.answer;
    }

    /** The uncached read. */
    method Get(app: App) returns (latest: App, answer: Answer)
      requires server.Valid()
      modifies this
      ensures server == Arrive(old(server), env)
      ensures answer == if env.faults(old(server).calls) == NoFault then Ok else Error
      ensures latest == if answer == Ok then App(|server.history| - 1, server.Latest()) else app
    {
      var f := env.faults(server.calls);
      server := Arrive(server, env);
      if f == NoFault {
        latest, answer := App(|server.history| - 1, server.Latest()), Ok;
      } else {
        latest, answer := app, Error;
      }
    }

    method TryUpdateStatus(application: App, conditions: seq<Condition>, observedGeneration: nat)
        returns (app: App, answer: Answer)
      requires server.Valid()
      modifies this
      ensures server.Valid()
      ensures Done(server, app, answer) == Attempt(old(server), application, conditions, observedGeneration, env)
    {
      app, answer := Update(application);
      if answer == Conflict {
        var latest, read := Get(app);
        if read == Ok {
          app := App(latest.version, Merged(latest.body, conditions, observedGeneration));
        } else {
          answer := Error;
        }
      }
    }

    method UpdateStatus(application: App) returns (app: App, answer: Answer)
      requires server.Valid()
      modifies this
      ensures server.Valid() && Done(server, app, answer) == StatusUpdated(old(server), application, env)
    {
      app := application;
      app := app.WithStatus(app.body.status.(observedGeneration := app.body.generation));
      var conditions, observedGeneration := app.body.status.conditions, app.body.status.observedGeneration;
      var left: nat := RETRY_STEPS;
      answer := Conflict;
      ghost var goal := Attempts(server, app, conditions, observedGeneration, left, env);
      while left > 0 && answer == Conflict
        invariant server.Valid()
        invariant goal == if answer == Conflict then Attempts(server, app, conditions, observedGeneration, left, env)
                          else Done(server, app, answer)
      {
        app, answer := TryUpdateStatus(app, conditions, observedGeneration);
        left := left - 1;
      }
    }

    method TryRetryStatus(application: App, wanted: AppStatus) returns (app: App, answer: Answer)
      requires server.Valid()
      modifies this
      ensures server.Valid() && Done(server, app, answer) == Retry(old(server), application, wanted, env)
    {
      app := application;
      app := app.WithStatus(wanted);
      app, answer := Update(app);
      if answer == Conflict {
        var f := env.faults(server.calls);
        server := Arrive(server, env);
        if f == NoFault {
          app := CachedRead(server, env);
        } else {
          answer := Error;
        }
      }
    }

    method RetryStatusUpdate(application: App) returns (app: App, answer: Answer)
      requires server.Valid()
      modifies this
      ensures server.Valid() && Done(server, app, answer) == StatusRetried(old(server), application, env)
    {
      app := application;
      var wanted := app.body.status;
      var left: nat := RETRY_STEPS;
      answer := Conflict;
      ghost var goal := Retries(server, app, wanted, left, env);
      while left > 0 && answer == Conflict
        invariant server.Valid()
        invariant goal == if answer == Conflict then Retries(server, app, wanted, left, env)
            else Done(server, app, answer)
      {
        app, answer := TryRetryStatus(app, wanted);
        left := left - 1;
      }
    }

    /** A write is skipped when it would change no condition. */
    method PersistIfChanged(application: App, conditions: seq<Condition>) returns (app: App, answer: Answer)
      requires server.Valid()
      modifies this
      ensures server.Valid() && Done(server, app, answer) == ConditionsSet(old(server), application, conditions, env)
    {
      if conditions == application.body.status.conditions {
        return application, Ok;
      }
      app := application.WithStatus(application.body.status.(conditions := conditions));
      app, answer := UpdateStatus(app);
    }

    method SetReconciling(application: App, message: string, now: nat) returns (app: App, answer: Answer)
      requires server.Valid()
      modifies this
      ensures server.Valid()
      ensures Done(server, app, answer) == ReconcilingSet(old(server), application, message, now, env)
    {
      var g, cs := application.body.generation, application.body.status.conditions;
      cs := SetCondition(cs, Condition(Progressing, True, "Reconciling", message, g, 0), now);
      cs := SetCondition(cs, Condition(Ready, False, "Reconciling", "Reconciliation in progress", g, 0), now);
      app, answer := PersistIfChanged(application, cs);
    }

    method SetReady(application: App, message: string, now: nat) returns (app: App, answer: Answer)
      requires server.Valid()
      modifies this
      ensures server.Valid()
      ensures Done(server, app, answer) == ReadySet(old(server), application, message, now, env)
    {
      var g, cs := application.body.generation, application.body.status.conditions;
      cs := SetCondition(cs, Condition(Ready, True, "ReconcileSuccess", message, g, 0), now);
      cs := SetCondition(cs, Condition(Progressing, False, "ReconcileSuccess", "Application is up to date and ready",
          g, 0), now);
      cs := SetCondition(cs, Condition(Degraded, False, "ReconcileSuccess", "No errors observed", g, 0), now);
      app, answer := PersistIfChanged(application, cs);
    }

    method SetFailed(application: App, reason: string, error: string, now: nat) returns (app: App, answer: Answer)
      requires server.Valid()
      modifies this
      ensures server.Valid()
      ensures Done(server, app, answer) == FailedSet(old(server), application, reason, error, now, env)
    {
      var g, cs := application.body.generation, application.body.status.conditions;
      cs := SetCondition(cs, Condition(Degraded, True, reason, error, g, 0), now);
      cs := SetCondition(cs, Condition(Ready, False, reason, "Reconciliation failed: " + error, g, 0), now);
      app, answer := PersistIfChanged(application, cs);
    }
  }

  function ConditionsSet(s: Server, app: App, conditions: seq<Condition>, env: Env): Done
    requires s.Valid()
  {
    if conditions == app.body.status.conditions then Done(s, app, Ok)
    else StatusUpdated(s, app.WithStatus(app.body.status.(conditions := conditions)), env)
  }

  // ---------- what the setters write ----------

  lemma ReconcilingFacts(cs: seq<Condition>, generation: nat, message: string, now: nat)
    requires OnePerKind(cs)
    ensures var cs' := ReconcilingConditions(cs, generation, message, now);
            OnePerKind(cs') && Is(cs', Ready, False) && Is(cs', Progressing, True)
                && Find(cs', StorageReady) == Find(cs, StorageReady)
  {
    var p := Condition(Progressing, True, "Reconciling", message, generation, 0);
    var r := Condition(Ready, False, "Reconciling", "Reconciliation in progress", generation, 0);
    SetConditionReads(cs, p, now, StorageReady);
    SetConditionReads(SetCondition(cs, p, now), r, now, StorageReady);
    SetConditionReads(SetCondition(cs, p, now), r, now, Progressing);
  }

  lemma FailedFacts(cs: seq<Condition>, generation: nat, reason: string, error: string, now: nat)
    requires OnePerKind(cs)
    ensures var cs' := FailedConditions(cs, generation, reason, error, now);
            OnePerKind(cs') && Is(cs', Ready, False) && Is(cs', Degraded, True)
                && Find(cs', StorageReady) == Find(cs, StorageReady)
  {
    var d := Condition(Degraded, True, reason, error, generation, 0);
    var r := Condition(Ready, False, reason, "Reconciliation failed: " + error, generation, 0);
    SetConditionReads(cs, d, now, StorageReady);
    SetConditionReads(SetCondition(cs, d, now), r, now, StorageReady);
    SetConditionReads(SetCondition(cs, d, now), r, now, Degraded);
  }

  lemma ReadyFacts(cs: seq<Condition>, generation: nat, message: string, now: nat)
    requires OnePerKind(cs)
    ensures var cs' := ReadyConditions(cs, generation, message, now);
            OnePerKind(cs') && Is(cs', Ready, True) && Is(cs', Progressing, False) && Is(cs', Degraded, False)
            && Find(cs', StorageReady) == Find(cs, StorageReady)
  {
    var r := Condition(Ready, True, "ReconcileSuccess", message, generation, 0);
    var p := Condition(Progressing, False, "ReconcileSuccess", "Application is up to date and ready", generation, 0);
    var d := Condition(Degraded, False, "ReconcileSuccess", "No errors observed", generation, 0);
    var cs1 := SetCondition(cs, r, now);
    var cs2 := SetCondition(cs1, p, now);
    SetConditionReads(cs, r, now, StorageReady);
    SetConditionReads(cs1, p, now, StorageReady);
    SetConditionReads(cs2, d, now, StorageReady);
    SetConditionReads(cs1, p, now, Ready);
    SetConditionReads(cs2, d, now, Ready);
    SetConditionReads(cs2, d, now, Progressing);
  }

  /**
   A setter that would change no condition leaves everything alone. Otherwise success means that the server's
   latest version, which is the copy returned, has exactly these conditions and the copy's generation as observed;
   and with a current copy, no other writers and no fault it succeeds.
   */
  lemma ConditionsAreWritten(s: Server, app: App, conditions: seq<Condition>, env: Env)
    requires s.Valid()
    ensures var d := ConditionsSet(s, app, conditions, env);
            && (conditions == app.body.status.conditions ==> d == Done(s, app, Ok))
            && (conditions != app.body.status.conditions && d.answer == Ok ==> WroteConditions(s, app, d, conditions))
            && (Undisturbed(s, app, env) ==> d.answer == Ok)
  {
    if conditions != app.body.status.conditions {
      var changed := app.WithStatus(app.body.status.(conditions := conditions));
      UpdatedConditions(s, changed, env);
      if Undisturbed(s, app, env) {
        var sent := changed.WithStatus(changed.body.status.(observedGeneration := app.body.generation));
        FittingFirstAttempt(s, sent, conditions, app.body.generation, RETRY_STEPS, env);
      }
    }
  }

  /** The copy is current, nobody else writes, and the call works. */
  predicate Undisturbed(s: Server, app: App, env: Env) {
    app.version + 1 == |s.history| && env.writes(s.calls) == [] && env.faults(s.calls) == NoFault
  }

  /**
   The server has a new latest version, which is the copy returned, with these conditions and this generation
   observed.
   */
  predicate WroteConditions(s: Server, app: App, d: Done, conditions: seq<Condition>) {
    && d.server.Valid() && |d.server.history| > |s.history|
    && d.app == App(|d.server.history| - 1, d.server.Latest())
    && d.app.body.status.conditions == conditions
    && d.app.body.status.observedGeneration == app.body.generation
  }

  lemma UpdatedConditions(s: Server, app: App, env: Env)
    requires s.Valid()
    ensures var d := StatusUpdated(s, app, env);
        d.answer == Ok ==> WroteConditions(s, app, d, app.body.status.conditions)
  {
    var d := StatusUpdated(s, app, env);
    UpdateStatusWrites(s, app, env);
    UpdateStatusGrows(s, app, env);
    if d.answer == Ok {
      if FirstFits(s, app, env) {
        WholeShows(s, app, d);
      } else {
        MergedShows(s, app, d);
      }
    }
  }

  lemma WholeShows(s: Server, app: App, d: Done)
    requires WroteWhole(d.server, d.app, app.body.status.(observedGeneration := app.body.generation))
    requires |d.server.history| > |s.history|
    ensures WroteConditions(s, app, d, app.body.status.conditions)
  {
  }

  lemma MergedShows(s: Server, app: App, d: Done)
    requires WroteMerged(s, d, app.body.status.conditions, app.body.generation)
    ensures WroteConditions(s, app, d, app.body.status.conditions)
  {
  }

  lemma FittingFirstAttempt(s: Server, app: App, conditions: seq<Condition>, observedGeneration: nat, left: nat,
      env: Env)
    requires s.Valid() && left > 0 && FirstFits(s, app, env) && env.faults(s.calls) == NoFault
    ensures Attempts(s, app, conditions, observedGeneration, left, env).answer == Ok
  {
  }

  lemma {:induction false} AttemptsGrow(s: Server, app: App, conditions: seq<Condition>, observedGeneration: nat,
      left: nat, env: Env)
    requires s.Valid()
    ensures var d := Attempts(s, app, conditions, observedGeneration, left, env);
            Grows(s, d.server) && (d.answer == Ok ==> |d.server.history| > |s.history|)
    decreases left
  {
    if left > 0 {
      AttemptFacts(s, app, conditions, observedGeneration, env);
      var d := Attempt(s, app, conditions, observedGeneration, env);
      if d.answer == Conflict {
        AttemptsGrow(d.server, d.app, conditions, observedGeneration, left - 1, env);
        GrowsTwice(s, d.server, Attempts(d.server, d.app, conditions, observedGeneration, left - 1, env).server);
      }
    }
  }

  lemma UpdateStatusGrows(s: Server, app: App, env: Env)
    requires s.Valid()
    ensures var d := StatusUpdated(s, app, env);
        Grows(s, d.server) && (d.answer == Ok ==> |d.server.history| > |s.history|)
  {
    var status := app.body.status.(observedGeneration := app.body.generation);
    AttemptsGrow(s, app.WithStatus(status), status.conditions, status.observedGeneration, RETRY_STEPS, env);
  }

  /** What SetReady, SetReconciling and SetFailed hand to the server. */
  function ReadySet(s: Server, app: App, message: string, now: nat, env: Env): Done
    requires s.Valid()
  {
    ConditionsSet(s, app, ReadyConditions(app.body.status.conditions, app.body.generation, message, now), env)
  }

  function ReconcilingSet(s: Server, app: App, message: string, now: nat, env: Env): Done
    requires s.Valid()
  {
    ConditionsSet(s, app, ReconcilingConditions(app.body.status.conditions, app.body.generation, message, now), env)
  }

  function FailedSet(s: Server, app: App, reason: string, error: string, now: nat, env: Env): Done
    requires s.Valid()
  {
    ConditionsSet(s, app, FailedConditions(app.body.status.conditions, app.body.generation, reason, error, now), env)
  }

  /**
   After a setter reports success, the copy it returns reads as it was set, and so does the server's latest
   version if anything was written.
   */
  lemma SettersShow(s: Server, app: App, message: string, reason: string, error: string, now: nat, env: Env)
    requires s.Valid() && OnePerKind(app.body.status.conditions)
    ensures var d := ReadySet(s, app, message, now, env);
            d.answer == Ok ==>
              && Is(d.app.body.status.conditions, Ready, True)
              && Is(d.app.body.status.conditions, Progressing, False)
                  && Is(d.app.body.status.conditions, Degraded, False)
              && (d == Done(s, app, Ok) || (d.server.Valid() && d.server.Latest() == d.app.body))
    ensures var d := ReconcilingSet(s, app, message, now, env);
            d.answer == Ok ==>
              && Is(d.app.body.status.conditions, Ready, False) && Is(d.app.body.status.conditions, Progressing, True)
              && (d == Done(s, app, Ok) || (d.server.Valid() && d.server.Latest() == d.app.body))
    ensures var d := FailedSet(s, app, reason, error, now, env);
            d.answer == Ok ==>
              && Is(d.app.body.status.conditions, Ready, False) && Is(d.app.body.status.conditions, Degraded, True)
              && (d == Done(s, app, Ok) || (d.server.Valid() && d.server.Latest() == d.app.body))
  {
    var cs, g := app.body.status.conditions, app.body.generation;
    ReadyFacts(cs, g, message, now);
    ConditionsAreWritten(s, app, ReadyConditions(cs, g, message, now), env);
    ReconcilingFacts(cs, g, message, now);
    ConditionsAreWritten(s, app, ReconcilingConditions(cs, g, message, now), env);
    FailedFacts(cs, g, reason, error, now);
    ConditionsAreWritten(s, app, FailedConditions(cs, g, reason, error, now), env);
  }

  // ---------- retryStatusUpdate retries ----------

  /** How many versions there are before call `to`, if only the others write from call `from` on. */
  function Versions(n: nat, from: nat, to: nat, env: Env): nat
    decreases to - from
  {
    if from >= to then n else Versions(n + |env.writes(from)|, from + 1, to, env)
  }

  /**
   Attempt `i` fits: the cache had caught up when it was read, and nobody wrote between that read and its own
   arrival.
   */
  predicate RetryFits(s: Server, app: App, i: nat, env: Env) {
    if i == 0 then FirstFits(s, app, env)
    else
      var c := s.calls + 2 * i;
      Versions(|s.history|, s.calls, c, env) <= env.cached(c) + 1 && env.writes(c) == []
  }

  ghost predicate SomeRetryFits(s: Server, app: App, left: nat, env: Env) {
    exists i: nat :: i < left && RetryFits(s, app, i, env)
  }

  lemma RetryFitsLater(s: Server, app: App, d: Done, left: nat, env: Env)
    requires left > 0 && !FirstFits(s, app, env)
    requires d.server.calls == s.calls + 2 && |d.server.history|
        == |s.history| + |env.writes(s.calls)| + |env.writes(s.calls + 1)|
    requires d.app.version == if env.cached(d.server.calls) < |d.server.history| then env.cached(d.server.calls)
        else |d.server.history| - 1
    requires |d.server.history| > 0
    ensures SomeRetryFits(s, app, left, env) <==> SomeRetryFits(d.server, d.app, left - 1, env)
  {
    var s2 := d.server;
    forall i: nat | i > 0 ensures RetryFits(s, app, i, env) == RetryFits(s2, d.app, i - 1, env) {
      var c := s.calls + 2 * i;
      assert Versions(|s.history|, s.calls, c, env)
          == Versions(|s.history| + |env.writes(s.calls)|, s.calls + 1, c, env)
          == Versions(|s2.history|, s2.calls, c, env);
      assert c == s2.calls + 2 * (i - 1);
    }
    if SomeRetryFits(s, app, left, env) {
      var i: nat :| i < left && RetryFits(s, app, i, env);
      assert RetryFits(s2, d.app, i - 1, env);
    }
    if SomeRetryFits(s2, d.app, left - 1, env) {
      var i: nat :| i < left - 1 && RetryFits(s2, d.app, i, env);
      assert RetryFits(s, app, i + 1, env) == RetryFits(s2, d.app, (i + 1) - 1, env);
    }
  }

  /** Five attempts, as for UpdateStatus. */
  lemma StatusRetriedSucceedsIff(s: Server, app: App, env: Env)
    requires s.Valid() && FaultFree(env.faults)
    ensures StatusRetried(s, app, env).answer == Ok <==> SomeRetryFits(s, app, 5, env)
  {
    RetriesSucceedIff(s, app, app.body.status, RETRY_STEPS, env);
  }

  /**
   Without faults a status write is retried after every conflict, and gives up exactly when none of the attempts
   fits.
   */
  lemma {:induction false} RetriesSucceedIff(s: Server, app: App, wanted: AppStatus, left: nat, env: Env)
    requires s.Valid() && FaultFree(env.faults)
    ensures var answer := Retries(s, app, wanted, left, env).answer;
            answer != Error && (answer == Ok <==> SomeRetryFits(s, app, left, env))
    decreases left
  {
    if left > 0 {
      var d := Retry(s, app, wanted, env);
      if d.answer == Ok {
        assert RetryFits(s, app, 0, env);
      } else {
        RetryFitsLater(s, app, d, left, env);
        RetriesSucceedIff(d.server, d.app, wanted, left - 1, env);
      }
    }
  }
}
