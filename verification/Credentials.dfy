/** Credentials are generated once: no value that exists ever changes, and the copies agree with OpenBao exactly when
    databases that share an owner Secret share a path. */
module Credentials {
  import opened Text
  import opened Wrappers
  import opened DatabaseModel
  import Secrets = ScopedSecrets

  // ---- no value changes ----

  const GENERATED: set<string> := {"password", "client-id", "client-secret"}

  /** Every value, and every key that is not generated by the platform, stays; only missing and empty generated keys are
      filled. */
  ghost predicate MapFills(d: Secrets.Secrets, d': Secrets.Secrets) {
    && (forall k :: Present(d, k) ==> k in d' && d'[k] == d[k])
    && (forall k :: k !in GENERATED ==> (k in d' <==> k in d))
    && (forall k :: k !in GENERATED && k in d ==> d'[k] == d[k])
  }

  ghost predicate OnlyFills(kv: Secrets.KV, kv': Secrets.KV) {
    forall p: string :: MapFills(Secrets.Get(kv, p), Secrets.Get(kv', p))
  }

  lemma EnsuredFills(d: Secrets.Secrets, want: seq<string>, generate: string -> string)
    requires forall k :: k in want ==> k in GENERATED
    ensures MapFills(d, Ensured(d, want, generate))
    ensures (forall k: string :: k in want ==> generate(k) != "") ==> AllPresent(Ensured(d, want, generate), want)
  {
  }

  lemma EnsureFills(kv: Secrets.KV, path: string, want: seq<string>, generate: string -> string)
    requires forall k :: k in want ==> k in GENERATED
    ensures OnlyFills(kv, EnsureKeys(kv, path, want, generate))
    ensures (forall k: string :: k in want ==> generate(k) != "") ==>
              AllPresent(Secrets.Get(EnsureKeys(kv, path, want, generate), Secrets.Key(path)), want)
  {
    hide MapFills, Ensured, Secrets.Key;
    EnsuredFills(Secrets.Get(kv, Secrets.Key(path)), want, generate);
    FillsSame(kv);
  }

  lemma FillsTrans(a: Secrets.KV, b: Secrets.KV, c: Secrets.KV)
    requires OnlyFills(a, b) && OnlyFills(b, c)
    ensures OnlyFills(a, c)
  {
    forall p: string ensures MapFills(Secrets.Get(a, p), Secrets.Get(c, p)) {
      assert MapFills(Secrets.Get(a, p), Secrets.Get(b, p)) && MapFills(Secrets.Get(b, p), Secrets.Get(c, p));
    }
  }

  lemma CredentialFills(s: State, path: string, owner: Id, o: Oracle)
    ensures OnlyFills(s.kv, CredentialStage(s, path, owner, o).0.kv)
  {
    hide CreateOwner, PasswordAt, EnsureKeys, OnlyFills;
    EnsureFills(s.kv, path, PASSWORD, _ => o.generated);
    FillsSame(s.kv);
  }

  lemma FillsSame(kv: Secrets.KV)
    ensures OnlyFills(kv, kv)
  {
    forall p: string ensures MapFills(Secrets.Get(kv, p), Secrets.Get(kv, p)) {}
  }

  /** Only the Job, its ConfigMap and the history differ. */
  ghost predicate OnlyJobs(s: State, s': State) {
    && s'.databases == s.databases && s'.servers == s.servers && s'.clientNamespaces == s.clientNamespaces
    && s'.kv == s.kv && s'.owners == s.owners
  }

  lemma JobSteps(s: State, job: Id, file: Id, sql: string, succeeds: bool)
    ensures OnlyJobs(s, JobStarts(s, job)) && OnlyJobs(s, JobEnds(s, job, succeeds))
    ensures OnlyJobs(s, ApplyJob(s, job, file, sql)) && OnlyJobs(s, DropJob(s, job))
  {
  }

  lemma SqlOnlyJobs(s: State, job: Id, file: Id, sql: string, o: Oracle)
    ensures OnlyJobs(s, SqlStage(s, job, file, sql, o).0)
  {
    hide JobStarts, ApplyJob;
    var s1 := s.(configMaps := s.configMaps[file := sql]);
    JobSteps(s1, job, file, sql, false);
    JobSteps(JobStarts(s1, job), job, file, sql, false);
  }

  lemma AwaitOnlyJobs(s: State, id: Id, db: Db, job: Id, sql: string, o: Oracle)
    ensures OnlyJobs(s, AwaitStage(s, id, db, job, sql, o).state) && AwaitStage(s, id, db, job, sql, o).db == db
  {
    hide Progress, JobOutcome;
    ProgressOnlyJobs(s, job, o.ends);
  }

  lemma ProgressOnlyJobs(s: State, job: Id, ends: Option<bool>)
    ensures OnlyJobs(s, Progress(s, job, ends))
  {
    hide JobStarts, JobEnds;
    if ends.Some? {
      JobSteps(s, job, job, "", ends.value);
      JobSteps(JobStarts(s, job), job, job, "", ends.value);
    }
  }

  /** The server that a pass over this database would provision into, if it gets that far. */
  function ServerOf(s: State, id: Id): Option<Server> {
    if id in s.databases && SpecProblem(s, id.namespace, s.databases[id].spec) == None
    then FindServer(s, id.namespace, s.databases[id].spec) else None
  }

  /** What a pass does to the credentials: nothing, or its credential stage. */
  lemma PassCredentials(s: State, id: Id, prefix: string, o: Oracle)
    ensures var s' := Pass(s, id, prefix, o);
            if ServerOf(s, id).Some? && id in s.databases then
              var c := CredentialStage(s, PathOf(prefix, s.databases[id].spec),
                                       Id(ServerOf(s, id).value.namespace, OwnerName(id.name)), o).0;
              s'.kv == c.kv && s'.owners == c.owners
            else s'.kv == s.kv && s'.owners == s.owners
  {
    hide ProvisionWith, CredentialStage, SqlOf, PathOf, OwnerName, ValidIdentifier;
    if ServerOf(s, id).Some? {
      var db, namespace := s.databases[id], ServerOf(s, id).value.namespace;
      ProvisionCredentials(s, id, db, namespace, PathOf(prefix, db.spec), SqlOf(db.spec), o);
    }
  }

  lemma ProvisionCredentials(s: State, id: Id, db: Db, namespace: string, path: string, sql: string, o: Oracle)
    ensures var r := ProvisionWith(s, id, db, namespace, path, sql, o);
            var c := CredentialStage(s, path, Id(namespace, OwnerName(id.name)), o).0;
            OnlyJobs(c, r.state) && r.db.spec == db.spec
  {
    hide SqlStage, AwaitStage, CredentialStage, JobName, ConfigMapName, OwnerName;
    var s1 := CredentialStage(s, path, Id(namespace, OwnerName(id.name)), o).0;
    var job, file := Id(namespace, JobName(id.name)), Id(namespace, ConfigMapName(id.name));
    SqlOnlyJobs(s1, job, file, sql, o);
    AwaitOnlyJobs(SqlStage(s1, job, file, sql, o).0, id, db.(serverNamespace := namespace), job, sql, o);
  }

  lemma TakeFills(s: State, step: Step, prefix: string)
    ensures OnlyFills(s.kv, Take(s, step, prefix).kv)
  {
    hide OnlyFills, Pass, EnsureKeys, CredentialStage, ServerOf, PathOf, OwnerName, Finalize, JobStarts, JobEnds, DropJob;
    FillsSame(s.kv);
    match step
    case Reconcile(id, o) =>
      PassCredentials(s, id, prefix, o);
      if id in s.databases && ServerOf(s, id).Some? {
        CredentialFills(s, PathOf(prefix, s.databases[id].spec), Id(ServerOf(s, id).value.namespace, OwnerName(id.name)), o);
      }
    case ReconcileSso(path, clientId, clientSecret, answers) =>
      EnsureFills(s.kv, path, CLIENT_KEYS, (k: string) => if k == "client-id" then clientId else clientSecret);
    case Delete(id, job, owner, file) => FinalizeKeeps(s, id, job, owner, file);
    case PodStarts(job) => JobSteps(s, job, job, "", false);
    case JobFinishes(job, succeeds) => JobSteps(s, job, job, "", succeeds);
    case _ =>
  }

  lemma FinalizeKeeps(s: State, id: Id, job: bool, owner: bool, file: bool)
    ensures var s' := Finalize(s, id, job, owner, file);
            && s'.kv == s.kv && forall at :: at in s'.owners ==> at in s.owners && s'.owners[at] == s.owners[at]
  {
    hide JobName, OwnerName, ConfigMapName;
  }

  /** Generate once: over every run of reconciles and finalizes of databases and SSO applications, a value that exists
      never changes, and no other key of a path is added, changed or dropped. */
  lemma {:induction false} GenerateOnce(s: State, steps: seq<Step>, prefix: string)
    ensures OnlyFills(s.kv, Run(s, steps, prefix).kv)
    decreases |steps|
  {
    hide OnlyFills, Take;
    FillsSame(s.kv);
    if |steps| > 0 {
      TakeFills(s, steps[0], prefix);
      GenerateOnce(Take(s, steps[0], prefix), steps[1..], prefix);
      FillsTrans(s.kv, Take(s, steps[0], prefix).kv, Run(s, steps, prefix).kv);
    }
  }

  // ---- the copies agree with OpenBao ----

  /** A database's use of credentials: the server namespace and name that its owner Secret follows from, and its path. */
  datatype Use = Use(namespace: string, name: string, path: string) {
    function Owner(): Id {
      Id(namespace, OwnerName(name))
    }

    function Key(): string {
      Secrets.Key(path)
    }
  }

  /** The use that a pass over this database would make. */
  function UseOf(s: State, id: Id, prefix: string): Use
    requires ServerOf(s, id).Some?
  {
    Use(ServerOf(s, id).value.namespace, id.name, PathOf(prefix, s.databases[id].spec))
  }

  /** Passes make these uses only, and generated passwords are not empty. */
  predicate Conforms(s: State, step: Step, prefix: string, uses: set<Use>) {
    step.Reconcile? ==>
      step.oracle.generated != "" && (ServerOf(s, step.id).Some? ==> UseOf(s, step.id, prefix) in uses)
  }

  predicate RunConforms(s: State, steps: seq<Step>, prefix: string, uses: set<Use>)
    decreases |steps|
  {
    |steps| > 0 ==> Conforms(s, steps[0], prefix, uses) && RunConforms(Take(s, steps[0], prefix), steps[1..], prefix, uses)
  }

  predicate AgreesOn(s: State, u: Use) {
    u.Owner() in s.owners ==>
      var data := Secrets.Get(s.kv, u.Key()); Present(data, "password") && data["password"] == s.owners[u.Owner()]
  }

  /** Each owner Secret holds the password at the path of every database that uses it. */
  ghost predicate Agree(s: State, uses: set<Use>) {
    forall u :: u in uses ==> AgreesOn(s, u)
  }

  /** Databases with one owner Secret have one path. */
  ghost predicate OnePath(uses: set<Use>) {
    forall u, v :: u in uses && v in uses && u.Owner() == v.Owner() ==> u.Key() == v.Key()
  }

  lemma StillAgrees(s: State, s': State, u: Use)
    requires AgreesOn(s, u) && OnlyFills(s.kv, s'.kv)
    requires u.Owner() in s'.owners ==> u.Owner() in s.owners && s'.owners[u.Owner()] == s.owners[u.Owner()]
    ensures AgreesOn(s', u)
  {
    hide OwnerName, Secrets.Key;
    assert MapFills(Secrets.Get(s.kv, u.Key()), Secrets.Get(s'.kv, u.Key()));
  }

  lemma CredentialAgrees(s: State, made: Use, u: Use, o: Oracle)
    requires AgreesOn(s, u) && o.generated != "" && (u.Owner() == made.Owner() ==> u.Key() == made.Key())
    ensures AgreesOn(CredentialStage(s, made.path, made.Owner(), o).0, u)
  {
    hide OwnerName, Secrets.Key, OnlyFills;
    var s' := CredentialStage(s, made.path, made.Owner(), o).0;
    CredentialFills(s, made.path, made.Owner(), o);
    if u.Owner() == made.Owner() && o.bao && o.owner && u.Owner() !in s.owners {
      EnsureFills(s.kv, made.path, PASSWORD, _ => o.generated);
      assert "password" in PASSWORD;
    } else {
      StillAgrees(s, s', u);
    }
  }

  lemma TakeAgrees(s: State, step: Step, prefix: string, uses: set<Use>, u: Use)
    requires OnePath(uses) && u in uses && AgreesOn(s, u) && Conforms(s, step, prefix, uses)
    ensures AgreesOn(Take(s, step, prefix), u)
  {
    hide OnlyFills, AgreesOn, Pass, EnsureKeys, CredentialStage, PathOf, OwnerName, ServerOf, Secrets.Key, Finalize, JobStarts, JobEnds;
    TakeFills(s, step, prefix);
    match step
    case Reconcile(id, o) =>
      PassCredentials(s, id, prefix, o);
      if ServerOf(s, id).Some? && id in s.databases {
        var made := UseOf(s, id, prefix);
        CredentialAgrees(s, made, u, o);
        SameCredentials(CredentialStage(s, made.path, made.Owner(), o).0, Take(s, step, prefix), u);
      } else {
        SameCredentials(s, Take(s, step, prefix), u);
      }
    case Delete(id, job, owner, file) =>
      FinalizeKeeps(s, id, job, owner, file);
      StillAgrees(s, Take(s, step, prefix), u);
    case PodStarts(job) =>
      JobSteps(s, job, job, "", false);
      SameCredentials(s, Take(s, step, prefix), u);
    case JobFinishes(job, succeeds) =>
      JobSteps(s, job, job, "", succeeds);
      SameCredentials(s, Take(s, step, prefix), u);
    case _ =>
      StillAgrees(s, Take(s, step, prefix), u);
  }

  lemma SameCredentials(s: State, s': State, u: Use)
    requires AgreesOn(s, u) && s'.kv == s.kv && s'.owners == s.owners
    ensures AgreesOn(s', u)
  {
  }

  lemma {:induction false} RunAgrees(s: State, steps: seq<Step>, prefix: string, uses: set<Use>)
    requires OnePath(uses) && Agree(s, uses) && RunConforms(s, steps, prefix, uses)
    ensures Agree(Run(s, steps, prefix), uses)
    decreases |steps|
  {
    hide OnePath, AgreesOn, Take, Conforms;
    if |steps| > 0 {
      forall u | u in uses ensures AgreesOn(Take(s, steps[0], prefix), u) {
        TakeAgrees(s, steps[0], prefix, uses, u);
      }
      RunAgrees(Take(s, steps[0], prefix), steps[1..], prefix, uses);
    }
  }

  /** Databases that share a path share their password, in every run in which each owner Secret has one path. */
  lemma SharedPathsSharePasswords(steps: seq<Step>, prefix: string, uses: set<Use>, u: Use, v: Use)
    requires OnePath(uses) && RunConforms(FRESH, steps, prefix, uses) && u in uses && v in uses && u.Key() == v.Key()
    ensures var s := Run(FRESH, steps, prefix);
            u.Owner() in s.owners && v.Owner() in s.owners ==> s.owners[u.Owner()] == s.owners[v.Owner()]
  {
    RunAgrees(FRESH, steps, prefix, uses);
    var s := Run(FRESH, steps, prefix);
    assert AgreesOn(s, u) && AgreesOn(s, v);
  }

  // ---- and exactly then ----

  ghost predicate AlwaysAgree(prefix: string, uses: set<Use>) {
    forall steps :: RunConforms(FRESH, steps, prefix, uses) ==> Agree(Run(FRESH, steps, prefix), uses)
  }

  /** A pass changes the database's status, and no spec or server. */
  lemma PassKeepsSpecs(s: State, id: Id, prefix: string, o: Oracle)
    ensures var s' := Pass(s, id, prefix, o);
            && s'.servers == s.servers && s'.clientNamespaces == s.clientNamespaces
            && s'.databases.Keys == s.databases.Keys
            && forall d :: d in s.databases ==> s'.databases[d].spec == s.databases[d].spec
  {
    hide ValidIdentifier, CredentialStage, OwnerName, SqlOf, PathOf, ProvisionWith;
    if ServerOf(s, id).Some? {
      var db, namespace, path := s.databases[id], ServerOf(s, id).value.namespace, PathOf(prefix, s.databases[id].spec);
      ProvisionCredentials(s, id, db, namespace, path, SqlOf(db.spec), o);
      CredentialKeepsSpecs(s, path, Id(namespace, OwnerName(id.name)), o);
    }
  }

  lemma CredentialKeepsSpecs(s: State, path: string, owner: Id, o: Oracle)
    ensures var s' := CredentialStage(s, path, owner, o).0;
            s'.servers == s.servers && s'.clientNamespaces == s.clientNamespaces && s'.databases == s.databases
  {
    hide WithPassword, CreateOwner, PasswordAt;
  }

  /** A pass that gets no further than the owner Secret. */
  function SecretsOnly(password: string): Oracle {
    Oracle(true, password, true, false, false, false, None, false)
  }

  function SpecOf(u: Use): DbSpec {
    DbSpec("c", "s", "d", "d", u.path, [], "")
  }

  /** Two database objects, in two namespaces, whose servers live in one namespace. */
  lemma SetUp(u: Use, v: Use, prefix: string) returns (steps: seq<Step>)
    requires u.namespace == v.namespace != "" && u.path != "" && v.path != ""
    ensures RunConforms(FRESH, steps, prefix, {u, v})
    ensures var s, a, b := Run(FRESH, steps, prefix), Id("x", u.name), Id("y", v.name);
            && s.kv == map[] && s.owners == map[]
            && ServerOf(s, a).Some? && UseOf(s, a, prefix) == u && ServerOf(s, b).Some? && UseOf(s, b, prefix) == v
  {
    hide Join, SqlOf, Pass, Finalize;
    var server := Server(u.namespace, "h", "a");
    var s0 := Surroundings(map[Id("x", "s") := server, Id("y", "s") := server], map[]);
    var s1, s2 := Put(Id("x", u.name), SpecOf(u)), Put(Id("y", v.name), SpecOf(v));
    steps := [s0, s1, s2];
    assert steps[1..] == [s1, s2] && [s1, s2][1..] == [s2] && [s2][1..] == [];
    var c1 := Take(FRESH, s0, prefix);
    var c2 := Take(c1, s1, prefix);
    var c3 := Take(c2, s2, prefix);
    assert Run(FRESH, steps, prefix) == Run(c1, [s1, s2], prefix) == Run(c2, [s2], prefix) == Run(c3, [], prefix) == c3;
    assert RunConforms(c2, [s2], prefix, {u, v});
    assert RunConforms(c1, [s1, s2], prefix, {u, v});
    assert ValidIdentifier("d");
  }

  lemma {:induction false} RunSnoc(s: State, steps: seq<Step>, step: Step, prefix: string, uses: set<Use>)
    requires RunConforms(s, steps, prefix, uses) && Conforms(Run(s, steps, prefix), step, prefix, uses)
    ensures RunConforms(s, steps + [step], prefix, uses)
    ensures Run(s, steps + [step], prefix) == Take(Run(s, steps, prefix), step, prefix)
    decreases |steps|
  {
    hide Take, Conforms;
    if |steps| == 0 {
      assert (steps + [step])[1..] == [];
    } else {
      assert (steps + [step])[1..] == steps[1..] + [step];
      RunSnoc(Take(s, steps[0], prefix), steps[1..], step, prefix, uses);
    }
  }

  /** What such a pass leaves in OpenBao and in the owner Secret. */
  lemma SecretsPass(s: State, id: Id, prefix: string, password: string)
    requires ServerOf(s, id).Some? && password != ""
    ensures var u, s' := UseOf(s, id, prefix), Pass(s, id, prefix, SecretsOnly(password));
            && s'.owners == CreateOwner(s.owners, u.Owner(), PasswordAt(s'.kv, u.path))
            && s'.kv == WithPassword(s.kv, u.path, password)
            && s'.servers == s.servers && s'.clientNamespaces == s.clientNamespaces
            && s'.databases.Keys == s.databases.Keys
            && forall d :: d in s.databases ==> s'.databases[d].spec == s.databases[d].spec
  {
    hide WithPassword, CreateOwner, PasswordAt, Pass, OwnerName, PathOf, SpecProblem, FindServer;
    PassCredentials(s, id, prefix, SecretsOnly(password));
    PassKeepsSpecs(s, id, prefix, SecretsOnly(password));
  }

  lemma SameUse(s: State, s': State, id: Id, prefix: string)
    requires s'.servers == s.servers && s'.clientNamespaces == s.clientNamespaces && s'.databases.Keys == s.databases.Keys
    requires forall d :: d in s.databases ==> s'.databases[d].spec == s.databases[d].spec
    ensures ServerOf(s', id) == ServerOf(s, id)
    ensures ServerOf(s, id).Some? ==> UseOf(s', id, prefix) == UseOf(s, id, prefix)
  {
    hide PathOf, ValidIdentifier;
  }

  lemma FirstPassword(kv: Secrets.KV, path: string, password: string)
    requires Secrets.Key(path) !in kv
    ensures WithPassword(kv, path, password) == kv[Secrets.Key(path) := map["password" := password]]
    ensures PasswordAt(WithPassword(kv, path, password), path) == password
  {
    hide Secrets.Key;
    var generate := (_: string) => password;
    assert Ensured(map[], PASSWORD, generate) == map["password" := password];
    assert "password" in PASSWORD;
  }

  /** The second database finds the first one's owner Secret, which it must not touch, and generates its own password. */
  lemma TwoPasswords(s: State, a: Id, b: Id, prefix: string, u: Use, v: Use)
    requires s.kv == map[] && s.owners == map[]
    requires ServerOf(s, a).Some? && UseOf(s, a, prefix) == u && ServerOf(s, b).Some? && UseOf(s, b, prefix) == v
    requires u.Owner() == v.Owner() && u.Key() != v.Key()
    ensures var s1 := Pass(s, a, prefix, SecretsOnly("1"));
            && ServerOf(s1, b).Some? && UseOf(s1, b, prefix) == v
            && !AgreesOn(Pass(s1, b, prefix, SecretsOnly("2")), v)
  {
    hide Pass, ServerOf, PathOf, OwnerName, Secrets.Key;
    var s1 := Pass(s, a, prefix, SecretsOnly("1"));
    SecretsPass(s, a, prefix, "1");
    SameUse(s, s1, b, prefix);
    SecretsPass(s1, b, prefix, "2");
    FirstPassword(s.kv, u.path, "1");
    FirstPassword(s1.kv, v.path, "2");
    assert s1.owners[u.Owner()] == "1";
  }

  lemma TwoPathsDisagree(prefix: string, u: Use, v: Use)
    requires u.namespace != "" && u.path != "" && v.path != "" && u.Owner() == v.Owner() && u.Key() != v.Key()
    ensures !AlwaysAgree(prefix, {u, v})
  {
    hide Take, OwnerName, Secrets.Key, AgreesOn, ServerOf, PathOf, Pass;
    var a, b := Id("x", u.name), Id("y", v.name);
    var steps := SetUp(u, v, prefix);
    var s := Run(FRESH, steps, prefix);
    TwoPasswords(s, a, b, prefix, u, v);
    var p, q := Reconcile(a, SecretsOnly("1")), Reconcile(b, SecretsOnly("2"));
    TakeReconcile(s, a, prefix, SecretsOnly("1"));
    RunSnoc(FRESH, steps, p, prefix, {u, v});
    TakeReconcile(Pass(s, a, prefix, SecretsOnly("1")), b, prefix, SecretsOnly("2"));
    RunSnoc(FRESH, steps + [p], q, prefix, {u, v});
    assert !Agree(Run(FRESH, steps + [p] + [q], prefix), {u, v});
  }

  lemma TakeReconcile(s: State, id: Id, prefix: string, o: Oracle)
    ensures Take(s, Reconcile(id, o), prefix) == Pass(s, id, prefix, o)
  {
    hide Pass;
  }

  lemma {:induction false} FewerUses(s: State, steps: seq<Step>, prefix: string, some: set<Use>, uses: set<Use>)
    requires some <= uses && RunConforms(s, steps, prefix, some)
    ensures RunConforms(s, steps, prefix, uses)
    decreases |steps|
  {
    hide Take;
    if |steps| > 0 { FewerUses(Take(s, steps[0], prefix), steps[1..], prefix, some, uses); }
  }

  /** Owner Secrets hold the passwords in OpenBao over every run exactly when no owner Secret is used with two paths. */
  lemma OwnersAgreeIff(prefix: string, uses: set<Use>)
    requires forall u :: u in uses ==> u.namespace != "" && u.path != ""
    ensures AlwaysAgree(prefix, uses) <==> OnePath(uses)
  {
    hide Run, RunConforms, AgreesOn, OwnerName, Secrets.Key;
    if OnePath(uses) {
      forall steps | RunConforms(FRESH, steps, prefix, uses) ensures Agree(Run(FRESH, steps, prefix), uses) {
        FreshAgrees(uses);
        RunAgrees(FRESH, steps, prefix, uses);
      }
    } else {
      var u, v :| u in uses && v in uses && u.Owner() == v.Owner() && u.Key() != v.Key();
      TwoPathsDisagree(prefix, u, v);
      var steps :| RunConforms(FRESH, steps, prefix, {u, v}) && !Agree(Run(FRESH, steps, prefix), {u, v});
      FewerUses(FRESH, steps, prefix, {u, v}, uses);
      assert !Agree(Run(FRESH, steps, prefix), uses);
    }
  }

  lemma FreshAgrees(uses: set<Use>)
    ensures Agree(FRESH, uses)
  {
  }

  /** Two databases called `app` in different environments of one client, on one customer-scoped server, share the owner
      Secret; with different users they have different paths. */
  lemma SameNameDatabasesDisagree(prefix: string)
    ensures !AlwaysAgree(prefix, {Use("db", "app", "databases/s/one"), Use("db", "app", "databases/s/two")})
  {
    var u, v := Use("db", "app", "databases/s/one"), Use("db", "app", "databases/s/two");
    assert u.path[|u.path| - 1] == 'e' && v.path[|v.path| - 1] == 'o';
    TwoPathsDisagree(prefix, u, v);
  }
}
